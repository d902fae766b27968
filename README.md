# pychron analysis-group engine and companions, in Dafny

This project models the core of pychron's argon-argon age reduction and
proves properties of it. The core is the analysis-group engine,
`AnalysisGroup`, `StepHeatAnalysisGroup` and `InterpretedAgeGroup`. It covers:

- which analyses a group uses;
- weighted and arithmetic means under the error kinds SD, SEM and "SEM, but if MSWD>1 use SEM * sqrt(MSWD)";
- the MSWD error inflation;
- folding the J error in by quadrature;
- integrated ratios and ages;
- plateau bookkeeping;
- argon-39 fractions;
- the dispatch that resolves each preferred value of an interpreted age and records which kind was computed.

Alongside the engine it models several smaller pieces:

- the constants the engine dispatches on, and `format_mswd`;
- the XML `indent` normaliser, `new_element`, and the token-level `pprint_xml` re-indenter;
- the experiment launch history file: update, truncation to 25 lines, and load;
- the Minna Bluff import mapper;
- the Eurotherm 818 EI-Bisynch (ANSI X3.28) frames and PID string;
- the LDEO furnace stage manager's hysteresis move and settle counter;
- the pipeline "skip meaning" preference;
- the action filter and plot-option merges of `file_defaults.py`.

Modules, one per source file or shared concern:

| module | file | models |
|---|---|---|
| `Wrappers` | wrappers.dfy | `Option`, `Result` and the Python exceptions the model raises |
| `Text` | text.dfy | `strip`, `lower`, `capitalize`, `split`, `join`, `int()`/`str()` of integers, string order |
| `Sorting` | sorting.dfy | `sorted` under a total order |
| `Uncertain` | uncertain.dfy | (value, error) pairs with uncorrelated propagation; `IsSqrt` is the contract of a square root |
| `PychronConstants` | pychron_constants.dfy | pychron/pychron_constants.py |
| `GroupStats` | group_stats.dfy | the value-level rules of pychron/processing/analyses/analysis_group.py |
| `AnalysisGroups` | analysis_group.dfy | the group object: flags, plateau and isochron state, preferred-value records |
| `XmlParser` | xml_parser.dfy | pychron/core/xml/xml_parser.py |
| `LaunchHistory` | launch_history.dfy | pychron/experiment/experiment_launch_history.py |
| `ImportMapper` | import_mapper.dfy | pychron/experiment/importer/import_mapper.py |
| `Eurotherm` | eurotherm818.dfy | pychron/hardware/eurotherm/eurotherm818.py |
| `FurnaceStage` | stage_manager.dfy | pychron/furnace/ldeo/stage_manager.py |
| `PipelinePrefs` | preferences.dfy | pychron/pipeline/tasks/preferences.py |
| `FileDefaults` | file_defaults.dfy | pychron/file_defaults.py |

Design notes:

- The three group classes are one Dafny class, `AnalysisGroups.AnalysisGroup`, told apart by a `level` field.
- The statistics routines the engine imports are fields of a `Routines` value: `calculate_weighted_mean`, `calculate_mswd`, `validate_mswd`, `calculate_plateau_age`, `calculate_isochron`, `age_equation`, `ALPHAS` and the square root. Their contracts are the ghost predicate `Lawful`: `sqrt` is a square root, and a plateau window ends at one of the given steps. Every caller requires `Lawful`, and the class keeps it in `Valid()`.
- What resolving a preferred value reads of the group is collected in a `Settings` value: the two J-error flags, the isochron and plateau error kinds, and the plateau options. `CurrentSettings()` reads it from the fields, and the means, plateau, isochron and preferred-value functions take it as an argument.
- Traits' cached properties are recomputed explicitly. A state-changing step is a method whose postcondition names the function it agrees with.
- Device replies, the clock, file contents and the foreign helpers `to_bool`, `floatfmt`, `calculate_bcc` and `PID_REGEX` are parameters.

## Model

| member | source | states |
|---|---|---|
| GroupStats.Clean | pychron/processing/analyses/analysis_group.py:331-332 | every clean analysis is a non-omitted member of the group, and every non-omitted analysis is clean |
| GroupStats.CleanIsUnomitted | pychron/processing/analyses/analysis_group.py:331-332 | the clean analyses are the non-omitted analyses, each once per occurrence and in group order: the recursive filter `Unomitted` |
| GroupStats.UnomittedSubseq | pychron/processing/analyses/analysis_group.py:331-332 | the clean analyses are an order-preserving subsequence of the group |
| GroupStats.PlateauAnalyses | pychron/processing/analyses/analysis_group.py:565-578 | no plateau window gives no plateau steps; every plateau step is a non-omitted member of the group |
| GroupStats.PlateauAnalysesSubseqOfClean | pychron/processing/analyses/analysis_group.py:517-518 | the plateau analyses are an order-preserving subsequence of the clean analyses |
| GroupStats.Values | pychron/processing/analyses/analysis_group.py:334-340 | the values are empty exactly when no clean analysis has the attribute; every clean analysis's value is among them; order and multiplicity are stated by `ValuesOfClean` |
| GroupStats.ValuesOfClean | pychron/processing/analyses/analysis_group.py:334-337 | the values are, in order, the attribute's value of each clean analysis that has one, and nothing else (the recursive filter `AttrValues` over `Clean`) |
| GroupStats.SampleSd | pychron/processing/analyses/analysis_group.py:343-349 | one value's SD is that value's own error; for n>1 the SD squared is Σ(a−vᵢ)²/(n−1) and the SD is non-negative |
| GroupStats.StdDdof1 | pychron/processing/analyses/analysis_group.py:366-367 | the ddof=1 standard deviation is non-negative and its square is the sample variance about the mean |
| GroupStats.CalculateMean | pychron/processing/analyses/analysis_group.py:342-374 | with no values the mean is (0, 0). The weighted mean comes from the routine. The SD and 'both' error kinds replace the error by the SD about the weighted mean, and 'both' keeps the weighted error as the SEM. The unweighted mean is the plain mean with the ddof=1 deviation. |
| GroupStats.CalculateMswd | pychron/processing/analyses/analysis_group.py:166-174 | 0 without values, else the routine's MSWD of the values |
| GroupStats.ModifyError | pychron/processing/analyses/analysis_group.py:285-293 | the error changes only under MSEM with MSWD>1, where its square becomes e²·MSWD; a non-negative error never decreases and 0 stays 0 |
| GroupStats.JErr | pychron/processing/analyses/analysis_group.py:176-188 | no J gives 0; otherwise the result is the J error over the J value |
| GroupStats.Quadrature | pychron/processing/analyses/analysis_group.py:279 | the result is non-negative and its square is a²+b² |
| GroupStats.ApplyJErrAsWritten | pychron/processing/analyses/analysis_group.py:274-283 | with the flag off the value passes through. With it on, a value of 0 raises ZeroDivisionError, an empty group raises IndexError, and a negative value with a non-zero quadrature raises on the negative standard deviation `ufloat(v, ne*v)` would get. The nominal value never changes, and a returned error is non-negative. |
| GroupStats.ApplyJErr | pychron/processing/analyses/analysis_group.py:274-283 | the corrected rule: the relative error gets the relative J error added in quadrature and is scaled back by the value's magnitude; a 0 value passes through; a non-negative error is never lowered, so the result's error is never negative |
| GroupStats.QuadratureScaled | pychron/processing/analyses/analysis_group.py:276-281 | the relative error added in quadrature to anything and scaled back by the value's magnitude is at least the magnitude of the error, so under the corrected rule the error is never below the magnitude of the error given, even a negative one |
| GroupStats.NegativeValueRaises | pychron/processing/analyses/analysis_group.py:274-283 | a mean of −2 ± 1 with J error included: the source raises on the negative standard deviation, the corrected rule gives the error √(0.25 + (σJ/J)²)·2, at least 1 |
| GroupStats.ApplyJErrCorrection | pychron/processing/analyses/analysis_group.py:274-283 | wherever the source returns, the corrected rule returns the same. The source raises exactly at value 0, for an empty group, and for a negative value with a non-zero quadrature; there the corrected rule passes 0 through, or gives a negative value a positive error |
| GroupStats.ModifiedWithJ | pychron/processing/analyses/analysis_group.py:274-293 | an error through `_modify_error` then `_apply_j_err`: under MSEM with MSWD>1 the error e satisfies e² = err²·MSWD, otherwise e = err; without J error or at mean 0 the result is (mean, e), otherwise its error is √((e/mean)² + (σJ/J)²)·abs(mean) |
| GroupStats.ClampedWithJ | pychron/processing/analyses/analysis_group.py:259-293 | the error through `_modify_error` (e² = err²·MSWD under MSEM with MSWD>1, else e = err), clamped at 0, then `_apply_j_err`: without J error or at mean 0 the result is (mean, max(0, e)); otherwise its error is √((max(0,e)/mean)² + (σJ/J)²)·abs(mean); the error is never below max(0, e) |
| GroupStats.ProductionFactor | pychron/processing/analyses/analysis_group.py:393-400 | a missing or zero production ratio counts as 1; otherwise the factor times the ratio is 1 |
| GroupStats.IntegratedRatio | pychron/processing/analyses/analysis_group.py:402-407 | a zero denominator sum gives 0 ± 0; otherwise value × Σd = Σn × factor |
| GroupStats.IntegratedAge | pychron/processing/analyses/analysis_group.py:461-475 | no analyses, a nested group or a zero argon-39 sum give 0 ± 0; otherwise the age equation of Σrad40/Σk39 with the first analysis's J and constants |
| GroupStats.NonGroups | pychron/processing/analyses/analysis_group.py:388 | the kept analyses hold no nested group, and a list without one is kept whole |
| GroupStats.CalculateIntegrated | pychron/processing/analyses/analysis_group.py:376-430 | nested groups are dropped and an empty selection gives 0 ± 0. K/Ca, K/Cl and %rad40 are production-corrected ratios. moles_k39 and signal_k39 are sums. The age is the integrated age. Any other attribute gives 0 ± 0. |
| GroupStats.Summarize | pychron/processing/analyses/analysis_group.py:621-650 | the window, its ALPHAS label and nsteps equal the non-omitted steps in the window. The MSWD and its validity come from those steps. The SD kind takes the population SD of the plateau ages; other kinds use the MSWD rule. The error is clamped at 0. |
| GroupStats.Plateau | pychron/processing/analyses/analysis_group.py:605-656 | an empty group, a nested group or no plateau gives no plateau; a one-step window is discarded; otherwise the window is summarized |
| GroupStats.PlateauAgeAsWritten | pychron/processing/analyses/analysis_group.py:651-656 | the final `_apply_j_err` call runs with force whenever J error goes into the mean or the plateau, so a group without a plateau raises ZeroDivisionError instead of returning 0 ± 0, and a negative plateau age with a non-zero quadrature raises on the negative standard deviation |
| GroupStats.CumulativeAr39Of | pychron/processing/analyses/analysis_group.py:544-557 | a zero argon-39 total raises ZeroDivisionError; otherwise the percentage times the total is 100 × the sum over steps 0..idx |
| GroupStats.CumulativeAr39Monotone | pychron/processing/analyses/analysis_group.py:544-557 | with non-negative argon-39 the cumulative percentage never decreases in idx and reaches 100 at the last step |
| GroupStats.Ar39Fraction | pychron/processing/analyses/analysis_group.py:534-542 | zero total raises ZeroDivisionError; else the fraction times the total is 100 × the part's sum |
| GroupStats.Ar39FractionsOrdered | pychron/processing/analyses/analysis_group.py:529-542 | with non-negative argon-39, plateau total ≤ valid total ≤ 100 percent |
| GroupStats.Aliquots | pychron/processing/analyses/analysis_group.py:515 | the set of aliquots holds exactly the aliquots of the analyses |
| GroupStats.SingleAliquot | pychron/processing/analyses/analysis_group.py:515 | one distinct aliquot exactly when the group is non-empty and every analysis shares the first one's aliquot |
| AnalysisGroups.DispatchKey | pychron/processing/analyses/analysis_group.py:897 | the key is the kind with each letter lower-cased and each space replaced by '_', character by character |
| AnalysisGroups.UnresolvedAgeKinds | pychron/processing/analyses/analysis_group.py:893-922 | the default integrated kind and 'Isochron of Plateau Steps' are age kinds with no branch in the age dispatch |
| AnalysisGroups.PlateauValue | pychron/processing/analyses/analysis_group.py:605-656 | no plateau gives 0 ± 0, a one-step window gives None, a window gives the plateau age |
| AnalysisGroups.PlateauValueCorrection | pychron/processing/analyses/analysis_group.py:651-656 | where the source returns a plateau age the model returns the same; where it raises, J error was forced and there is no plateau, the age is 0, the group is empty, or the age is negative with a non-zero quadrature; in that last case the model returns the plateau age |
| AnalysisGroups.StepsAfter | pychron/processing/analyses/analysis_group.py:622-625 | a found window replaces the recorded one; otherwise the old window stays |
| AnalysisGroups.SubgroupKinds | pychron/processing/analyses/analysis_group.py:698-713 | the age record is untouched. With a nested group the kinds become [Weighted Mean, Arithmetic Mean], with Arithmetic Mean exactly for kca, kcl, moles_k39 and signal_k39. Otherwise the kinds become SUBGROUPINGS. Nothing else changes. |
| AnalysisGroups.SubgroupKindsSelectable | pychron/processing/analyses/analysis_group.py:698-713 | the rule is idempotent; in a group of groups the chosen kind is offered and no integrated kind is offered |
| AnalysisGroups.PreferredKindsFor | pychron/processing/analyses/analysis_group.py:852-872 | without settings the age gets Weighted Mean with MSEM. Other attributes get Weighted Mean with MSEM for more than one aliquot, else the default integrated kind with SD. Settings override per attribute. |
| AnalysisGroups.DefaultKindsSelectable | pychron/processing/analyses/analysis_group.py:852-872 | every default error kind is in ERROR_TYPES and every default kind is in SUBGROUPINGS and AGE_SUBGROUPINGS |
| AnalysisGroups.AnalysisGroup.constructor | pychron/processing/analyses/analysis_group.py:687-690 | the trait defaults; a non-interpreted group keeps the default error kinds; an interpreted group's records start as `InitialRecords` and have been through `has_subgroups`, handler included |
| AnalysisGroups.AnalysisGroup.SetJError | pychron/processing/analyses/analysis_group.py:132-141 | a truthy `individual` clears the mean flag; otherwise the individual flag is cleared and the mean flag takes `mean`; never both set |
| AnalysisGroups.AnalysisGroup.ErrorKind | pychron/processing/analyses/analysis_group.py:306 | the attribute's error kind, SD when it has none |
| AnalysisGroups.AnalysisGroup.AgeAttr | pychron/processing/analyses/analysis_group.py:255-257 | 'uage_w_j_err' exactly when J error goes into the individual analyses, else 'uage' |
| AnalysisGroups.AnalysisGroup.ValueAttr | pychron/processing/analyses/analysis_group.py:157-163 | an attribute starting with 'uage' is replaced by the age attribute |
| AnalysisGroups.AnalysisGroup.Mswd | pychron/processing/analyses/analysis_group.py:157-164 | the group MSWD is 0 without values |
| AnalysisGroups.AnalysisGroup.WeightedAgeWith | pychron/processing/analyses/analysis_group.py:259-272 | the nominal value is the weighted mean and an empty group gives 0 ± 0. Under the corrected J rule the error is non-negative and at least the MSWD-inflated error. Without J error in the mean, and for kinds other than MSEM, the error is the clamped weighted error; `WeightedAgeUnfolds` states the error in every case |
| AnalysisGroups.AnalysisGroup.WeightedAgeUnfolds | pychron/processing/analyses/analysis_group.py:259-272 | `weighted_age` is `ClampedWithJ` of the weighted mean of the group values under the age error kind and the group MSWD, so its error is exactly the one `ClampedWithJ` states |
| AnalysisGroups.AnalysisGroup.ArithAgeWith | pychron/processing/analyses/analysis_group.py:248-253 | 0 ± 0 without ages; otherwise the plain mean of the ages, with an error at least their ddof=1 deviation under the corrected J rule; `ArithAgeUnfolds` states the error exactly |
| AnalysisGroups.AnalysisGroup.ArithAgeUnfolds | pychron/processing/analyses/analysis_group.py:247-253 | `arith_age` is `ModifiedWithJ` of the plain mean and ddof=1 deviation of the ages, under the age error kind and the group MSWD, so its error is exactly the one `ModifiedWithJ` states |
| AnalysisGroups.AnalysisGroup.WeightedMeanOf | pychron/processing/analyses/analysis_group.py:301-310 | the age goes through the weighted age; any other attribute is its weighted mean with an error no smaller than the weighted error; no values gives 0 ± 0; `WeightedMeanError` states the error exactly |
| AnalysisGroups.AnalysisGroup.WeightedMeanError | pychron/processing/analyses/analysis_group.py:301-310 | for an attribute other than the age the error is exactly the weighted error times √MSWD of that attribute under MSEM with MSWD>1, and the weighted error otherwise |
| AnalysisGroups.AnalysisGroup.ArithmeticMeanOf | pychron/processing/analyses/analysis_group.py:432-436 | the age goes through the arithmetic age; any other attribute is its plain mean and ddof=1 deviation, 0 ± 0 without values |
| AnalysisGroups.AnalysisGroup.SelectionOf | pychron/processing/analyses/analysis_group.py:381-386 | 'total' takes every analysis, 'valid' the clean ones, 'plateau' the plateau steps, a subsequence of the clean ones |
| AnalysisGroups.AnalysisGroup.IntegratedOf | pychron/processing/analyses/analysis_group.py:376-430 | no non-group analysis in the selection gives 0 ± 0; the age is the integrated age of the selection |
| AnalysisGroups.AnalysisGroup.Nanalyses | pychron/processing/analyses/analysis_group.py:790-799 | an interpreted age computed as 'plateau' counts the plateau steps; otherwise the count of clean analyses, at most the group size |
| AnalysisGroups.AnalysisGroup.IntegratedEnabled | pychron/processing/analyses/analysis_group.py:506-515 | enabled exactly when more than one analysis counts and every analysis has the first one's aliquot |
| AnalysisGroups.AnalysisGroup.CumulativeAr39 | pychron/processing/analyses/analysis_group.py:544-557 | the running-sum loop returns the cumulative argon-39 percentage, or ZeroDivisionError for a zero total |
| AnalysisGroups.AnalysisGroup.PlateauOutcomeWith | pychron/processing/analyses/analysis_group.py:605-656 | an empty group or one holding a nested group has no plateau; a found window spans more than one step of the group, is labelled by its first and last step and has a non-negative age error |
| AnalysisGroups.AnalysisGroup.PlateauAgeWith | pychron/processing/analyses/analysis_group.py:605-656 | the plateau value of the group's outcome, with a non-negative error |
| AnalysisGroups.AnalysisGroup.CalculatePlateau | pychron/processing/analyses/analysis_group.py:605-656 | returns the plateau value under the current settings. A found window records the window, its label, nsteps, MSWD and validity. No plateau and a one-step window leave all of them as they were. |
| AnalysisGroups.AnalysisGroup.IsochronData | pychron/processing/analyses/analysis_group.py:441-445 | None without non-group analyses, else the regression over them excluding the omitted ones |
| AnalysisGroups.AnalysisGroup.IsochronValue | pychron/processing/analyses/analysis_group.py:447-459 | defined exactly when the regression is; its nominal value is the regression age and its error is at least the regression error; `IsochronError` states the error exactly |
| AnalysisGroups.AnalysisGroup.IsochronError | pychron/processing/analyses/analysis_group.py:447-459 | the error exactly: the regression error times √MSWD of the regression under MSEM with MSWD>1, the regression error otherwise |
| AnalysisGroups.AnalysisGroup.IsochronAge | pychron/processing/analyses/analysis_group.py:190-196 | no regression gives 0 ± 0, else the isochron value |
| AnalysisGroups.AnalysisGroup.CalculateIsochronAge | pychron/processing/analyses/analysis_group.py:447-459 | returns the isochron value and records the 40/36 ratio and MSWD when there is a regression |
| AnalysisGroups.AnalysisGroup.PreferredAgeOf | pychron/processing/analyses/analysis_group.py:893-922 | every kind records itself as computed kind except 'Plateau else Weighted Mean'. That kind gives Plateau and the plateau value when a window is recorded after computing the plateau, else Weighted Mean and the weighted age. A kind without a branch gives 0 ± 0. None only for a one-step window. |
| AnalysisGroups.AnalysisGroup.PreferredAgeStable | pychron/processing/analyses/analysis_group.py:893-922 | resolving the plateau kinds again, after the window they recorded, gives the same value and computed kind |
| AnalysisGroups.AnalysisGroup.PreferredAge | pychron/processing/analyses/analysis_group.py:893-922 | writes into the age record only its computed kind, returns `PreferredAgeOf` of that record resolved in the new state with the kind that ran recorded, and moves the plateau window only for the plateau kinds |
| AnalysisGroups.AnalysisGroup.GetPreferredOf | pychron/processing/analyses/analysis_group.py:924-951 | 'Plateau else Valid Integrated' reports Plateau exactly when the plateau age is truthy, integrating over the found window, else 'Valid' over the clean steps. Weighted Mean is the weighted mean. A kind without a branch is the arithmetic mean. Other kinds keep their name. |
| AnalysisGroups.AnalysisGroup.GetPreferredStable | pychron/processing/analyses/analysis_group.py:924-951 | resolving a record again after the window it recorded gives the same result |
| AnalysisGroups.AnalysisGroup.GetPreferred | pychron/processing/analyses/analysis_group.py:924-951 | sets the attribute's error kind, returns `GetPreferredOf`, and moves the window only for 'Plateau else Valid Integrated' |
| AnalysisGroups.AnalysisGroup.AgeErrorKindsChanged | pychron/processing/analyses/analysis_group.py:809-815 | a kind containing 'Plateau' sets the plateau error kind, and also the age error kind unless it is exactly 'Plateau'; any other kind sets the age error kind |
| AnalysisGroups.AnalysisGroup.ResolveAge | pychron/processing/analyses/analysis_group.py:817-821 | only the age record changes, in value, error and computed kind, and it then holds the preferred age resolved in the new state |
| AnalysisGroups.AnalysisGroup.OtherKindChanged | pychron/processing/analyses/analysis_group.py:822-826 | only the record at i changes, in value, error and computed kind, and it then holds its own resolution |
| AnalysisGroups.AnalysisGroup.PreferredKindChanged | pychron/processing/analyses/analysis_group.py:807-826 | the handler leaves other records alone and the changed record holds its own resolution |
| AnalysisGroups.AnalysisGroup.SetPreferredKind | pychron/processing/analyses/analysis_group.py:874-878 | the record gets the kind and error kind, keeps its offered kinds, and holds its resolution; other records are unchanged |
| AnalysisGroups.AnalysisGroup.SetPreferredAge | pychron/processing/analyses/analysis_group.py:692-696 | the age record gets the kind and error kind and holds its resolution; other records are unchanged |
| AnalysisGroups.AnalysisGroup.SetPreferredKinds | pychron/processing/analyses/analysis_group.py:852-872 | every record gets the kinds `PreferredKindsFor` chooses for the number of distinct aliquots |
| AnalysisGroups.AnalysisGroup.HasSubgroups | pychron/processing/analyses/analysis_group.py:698-713 | every record, in order, gets its `SubgroupKinds` choices; a record whose kind changed fires `_preferred_kind_changd`, which resolves it and sets its attribute's error kind to the record's; a record whose kind stayed is otherwise unchanged; the plateau state is unchanged |
| AnalysisGroups.AnalysisGroup.SubgroupAt | pychron/processing/analyses/analysis_group.py:700-713 | one record gets its subgroup kinds, is resolved by the handler exactly when its kind changed, and only then sets its attribute's error kind; the other records are unchanged |
| AnalysisGroups.FiredNone | pychron/processing/analyses/analysis_group.py:698-713 | without a nested group no kind changes, so no handler fires and the error kinds stay as they were |
| AnalysisGroups.AnalysisGroup.NestedInitialResolved | pychron/processing/analyses/analysis_group.py:687-713 | in a new group of groups every record but the age holds Weighted Mean or Arithmetic Mean and the value, error and computed kind `_get_preferred_` gives it |
| AnalysisGroups.AnalysisGroup.FlatInitialUnchanged | pychron/processing/analyses/analysis_group.py:687-713 | in a new group without nested groups the error kinds are the defaults and each record is its initial record offering SUBGROUPINGS, the age record nothing |
| PychronConstants.IndexMap | pychron/pychron_constants.py:231 | the map's keys are exactly the items of the list |
| PychronConstants.DetectorMapBijection | pychron/pychron_constants.py:230-231 | DETECTOR_MAP[DETECTOR_ORDER[i]] == i for each i, and every mapped detector maps back to its own position below 6 |
| PychronConstants.ErrorTypes | pychron/pychron_constants.py:78-84 | ERROR_TYPES is [MSEM, SEM, SD], all distinct, and MSEM extends SEM |
| PychronConstants.SubgroupingsAreAgeKinds | pychron/pychron_constants.py:105-115 | SUBGROUPINGS ⊆ AGE_SUBGROUPINGS and it holds neither Plateau, Isochron nor Plateau else Weighted Mean |
| PychronConstants.MswdTag | pychron/pychron_constants.py:139-145 | a string tag is used as is, another truthy tag gives 'MSWD=', a falsy one '' |
| PychronConstants.FormatMswd | pychron/pychron_constants.py:139-147 | the text is the tag, then '*' exactly when the MSWD is invalid, then the formatted number |
| XmlParser.Indent | pychron/core/xml/xml_parser.py:121-134 | Tag and attributes are kept, and each child is indented at level+1. Text or tail with content is never overwritten. An element with children and blank text gets "\n"+"  "×(level+1), and a blank tail gets "\n"+"  "×level. A childless element is unchanged at level 0; at a deeper level only its blank tail changes. |
| XmlParser.IndentKeepsContent | pychron/core/xml/xml_parser.py:121-134 | indenting keeps every tag, attribute and non-blank text and tail of the whole tree |
| XmlParser.IndentIdempotent | pychron/core/xml/xml_parser.py:121-134 | indenting an indented tree changes nothing |
| XmlParser.PyString | pychron/core/xml/xml_parser.py:185 | `str` of a string is itself, and `str` of an integer reads back as that integer |
| XmlParser.NewElement | pychron/core/xml/xml_parser.py:182-186 | the element has the tag and attributes, and text `str(value)` exactly when the value is neither "" nor None |
| XmlParser.IndentNewElement | pychron/core/xml/xml_parser.py:182-186 | a new element is left alone by `indent` at level 0 and gets only a tail below it |
| XmlParser.Step | pychron/core/xml/xml_parser.py:80-108 | A skipped token only clears the skip flag. A closing tag pops the stack, with IndexError on an empty stack. It emits its line indented by 4 spaces × the remaining depth and skips the next token. An opening tag emits the pending line one level up, pushes its name unless it is `?xml`, and starts a new line. Other tokens join the line, whitespace as one space. |
| XmlParser.Flush | pychron/core/xml/xml_parser.py:110-111 | a pending line is emitted stripped |
| XmlParser.NonBlank | pychron/core/xml/xml_parser.py:118 | keeps exactly the lines with non-whitespace content, drawn from the input |
| XmlParser.PprintXml | pychron/core/xml/xml_parser.py:63-118 | the loop over the tokens computes `PrettyXml` of them |
| XmlParser.DeclarationNeverPushed | pychron/core/xml/xml_parser.py:97-98 | no `?xml` name ever enters the tag stack |
| XmlParser.NoBlankLines | pychron/core/xml/xml_parser.py:110-118 | for tokens the tokenizer can produce, no output line is whitespace only |
| LaunchHistory.FormatLine | pychron/experiment/experiment_launch_history.py:55 | a written line is time, count and path joined by commas |
| LaunchHistory.FormatLines | pychron/experiment/experiment_launch_history.py:54-55 | one line per record, in order |
| LaunchHistory.ParseLine | pychron/experiment/experiment_launch_history.py:37-40 | a line is skipped exactly when it is blank |
| LaunchHistory.FormatLineRoundTrip | pychron/experiment/experiment_launch_history.py:37-55 | a written record whose time and path hold no comma parses back to itself |
| LaunchHistory.ParseLines | pychron/experiment/experiment_launch_history.py:36-45 | at most one record per line |
| LaunchHistory.FormatLinesRoundTrip | pychron/experiment/experiment_launch_history.py:36-55 | a written history parses back to the same records |
| LaunchHistory.Bump | pychron/experiment/experiment_launch_history.py:41-45 | a record of the launched path gets count+1 and the new time; any other is unchanged |
| LaunchHistory.LaunchedIffSomeRecord | pychron/experiment/experiment_launch_history.py:41-47 | `exists` is set exactly when some record has the launched path |
| LaunchHistory.Bumped | pychron/experiment/experiment_launch_history.py:36-45 | every record is bumped, in order |
| LaunchHistory.Updated | pychron/experiment/experiment_launch_history.py:31-48 | Matching records get count+1 and the new time. Others are unchanged. Exactly one (now, 1, path) record is added when none matched. |
| LaunchHistory.UpdatedTotal | pychron/experiment/experiment_launch_history.py:39-48 | a launch adds one to the total count for a new path and one per matching record otherwise |
| LaunchHistory.RecordGeTotalOrder | pychron/experiment/experiment_launch_history.py:54 | descending (time, count, path) tuple order is a total order |
| LaunchHistory.SortDescending | pychron/experiment/experiment_launch_history.py:54 | the records sorted in descending tuple order, a permutation of the input |
| LaunchHistory.Head | pychron/experiment/experiment_launch_history.py:54 | the first min(n, 25) records |
| LaunchHistory.KeptIsTopRecords | pychron/experiment/experiment_launch_history.py:54 | At most 25 records are kept: all of them, or exactly 25. They are sorted descending and drawn from the input, and none is below a dropped record. |
| LaunchHistory.ReadLine | pychron/experiment/experiment_launch_history.py:37-45 | one line is parsed and its record bumped |
| LaunchHistory.ReadHistory | pychron/experiment/experiment_launch_history.py:34-46 | the reading loop gives the bumped records and the `exists` flag, or the first parse error |
| LaunchHistory.WriteHistory | pychron/experiment/experiment_launch_history.py:52-55 | the writing loop gives the lines of the kept records |
| LaunchHistory.UpdateLaunchHistory | pychron/experiment/experiment_launch_history.py:31-55 | the lines written are those of the top 25 updated records; a missing file reads as empty |
| LaunchHistory.UpdatedHistoryReadable | pychron/experiment/experiment_launch_history.py:31-55 | for the corrected, text-ordered update: the rewritten file parses back to the kept updated records |
| LaunchHistory.UpdatedHistoryAsWritten | pychron/experiment/experiment_launch_history.py:31-55 | a line that does not parse raises before the file is touched; a record of another path makes the sort raise TypeError after the file was emptied; otherwise the lines are those of the update |
| LaunchHistory.SecondLaunchEmptiesHistory | pychron/experiment/experiment_launch_history.py:31-55 | launching "b" with the one line "1,1,a" in the file leaves the file empty and raises TypeError, where the update writes two lines |
| LaunchHistory.OtherPathEmptiesHistory | pychron/experiment/experiment_launch_history.py:31-55 | for any file that reads back as one record of another path, the source's update empties the file and raises TypeError |
| LaunchHistory.OtherPathWritesBoth | pychron/experiment/experiment_launch_history.py:31-55 | for the same file the corrected update succeeds and writes two lines |
| LaunchHistory.LastIndex | pychron/experiment/experiment_launch_history.py:79 | the last position of the character, None exactly when it is absent |
| LaunchHistory.Basename | pychron/experiment/experiment_launch_history.py:79 | a suffix of the path holding no '/' |
| LaunchHistory.Stem | pychron/experiment/experiment_launch_history.py:80 | the name itself, or the part before its last '.' when that part is not only dots |
| LaunchHistory.ItemName | pychron/experiment/experiment_launch_history.py:79-80 | the name holds no '/' and is the base name, or its part before an extension dot; for a path without '/' it is the stem |
| LaunchHistory.LoadItem | pychron/experiment/experiment_launch_history.py:75-81 | a blank line gives None and a malformed one raises. A record gives the item named after its file, with the record's path, time and count. |
| LaunchHistory.LoadItems | pychron/experiment/experiment_launch_history.py:83-85 | one item per nonblank line, in order, exactly when every line parses |
| LaunchHistory.LoadWrittenHistory | pychron/experiment/experiment_launch_history.py:74-85 | a written history loads as one item per record, in order, with its time and count |
| LaunchHistory.ExperimentLaunchHistory.Load | pychron/experiment/experiment_launch_history.py:74-85 | the items become `LoadItems` of the lines, or stay as they were when a line raises |
| ImportMapper.MapProject | pychron/experiment/importer/import_mapper.py:36-42 | any casing of 'mina bluff' or 'minna bluff' gives 'Minna Bluff', any casing of 'j' or 'j-curve' gives 'J', anything else is returned unchanged |
| ImportMapper.MapProjectFixedPoints | pychron/experiment/importer/import_mapper.py:36-42 | the canonical names map to themselves |
| ImportMapper.MapProjectIdempotent | pychron/experiment/importer/import_mapper.py:36-42 | mapping twice is mapping once |
| ImportMapper.MapProjectIgnoresCase | pychron/experiment/importer/import_mapper.py:37-41 | two aliases that differ only in case map alike |
| ImportMapper.MapMaterial | pychron/experiment/importer/import_mapper.py:44-49 | over ASCII case mapping: same length, first character upper-cased, the rest lower-cased |
| ImportMapper.MapMaterialIdempotent | pychron/experiment/importer/import_mapper.py:44-49 | capitalising twice is capitalising once |
| ImportMapper.MapMaterialIgnoresCase | pychron/experiment/importer/import_mapper.py:44-49 | strings that differ only in case capitalise alike |
| Eurotherm.UnitAddress | pychron/hardware/eurotherm/eurotherm818.py:55-57 | the address is twice the group id's digits then twice the unit id's |
| Eurotherm.UnitAddressDigits | pychron/hardware/eurotherm/eurotherm818.py:55-57 | for single-digit ids the address is g g u u and reads back as the two ids |
| Eurotherm.EnquiryFrame | pychron/hardware/eurotherm/eurotherm818.py:29-31 | EOT, the address, the mnemonic, ENQ |
| Eurotherm.Packet | pychron/hardware/eurotherm/eurotherm818.py:43 | the mnemonic, the value, ETX |
| Eurotherm.ChangeFrame | pychron/hardware/eurotherm/eurotherm818.py:40-45 | EOT, the address, STX, the packet, and the BCC of the packet alone |
| Eurotherm.ChangeFrameAddressOnly | pychron/hardware/eurotherm/eurotherm818.py:40-45 | the address changes nothing after it, so the BCC does not cover the address |
| Eurotherm.Middle | pychron/hardware/eurotherm/eurotherm818.py:38 | a reply of at least six characters is its first three, the middle and its last three |
| Eurotherm.ReplyText | pychron/hardware/eurotherm/eurotherm818.py:32-38 | no reply or an empty one gives None. A reply of 1–2 characters raises IndexError. Otherwise the reply loses its first and last three characters. |
| Eurotherm.EnquiryValue | pychron/hardware/eurotherm/eurotherm818.py:29-38 | the reply's middle read as a float, None without a reply, ValueError when it is not a number |
| Eurotherm.ReplyTextOfChange | pychron/hardware/eurotherm/eurotherm818.py:38-45 | the enquiry slicing, applied to a change frame after its address, gives back the value it carries |
| Eurotherm.PidCommand | pychron/hardware/eurotherm/eurotherm818.py:108 | an item splits into command and value exactly at its only comma |
| Eurotherm.PidCommandOfPair | pychron/hardware/eurotherm/eurotherm818.py:108 | a command and value joined by a comma split back into themselves |
| Eurotherm.PidCommands | pychron/hardware/eurotherm/eurotherm818.py:106-109 | the commands of the items before the first malformed one |
| Eurotherm.PidCommandsAll | pychron/hardware/eurotherm/eurotherm818.py:106-109 | every item is sent exactly when every item is a pair |
| Eurotherm.ChangeFrames | pychron/hardware/eurotherm/eurotherm818.py:106-109 | one change frame per command |
| Eurotherm.PidStringSendsEveryItem | pychron/hardware/eurotherm/eurotherm818.py:104-110 | a PID string of pairs sends one change frame per ';'-item, in order, with that item's command and value |
| Eurotherm.Eurotherm818.Ask | pychron/hardware/eurotherm/eurotherm818.py:32 | the frame is appended to the log of sent frames |
| Eurotherm.Eurotherm818.Enquiry | pychron/hardware/eurotherm/eurotherm818.py:29-38 | sends the enquiry frame for the unit address and returns the reply's value |
| Eurotherm.Eurotherm818.Change | pychron/hardware/eurotherm/eurotherm818.py:40-47 | sends the change frame for the unit address |
| Eurotherm.Eurotherm818.ReadSetpoint | pychron/hardware/eurotherm/eurotherm818.py:89-90 | enquires 'SL' |
| Eurotherm.Eurotherm818.SetProcessSetpoint | pychron/hardware/eurotherm/eurotherm818.py:95-96 | changes 'SL' to the value |
| Eurotherm.Eurotherm818.GetProcessValue | pychron/hardware/eurotherm/eurotherm818.py:98-99 | enquires 'PV' |
| Eurotherm.Eurotherm818.GetOutput | pychron/hardware/eurotherm/eurotherm818.py:101-102 | enquires 'OP' |
| Eurotherm.Eurotherm818.SetPid | pychron/hardware/eurotherm/eurotherm818.py:104-112 | A non-matching string sends nothing and gives None. Otherwise the items' change frames are sent in order, giving True. A malformed item raises ValueError after the items before it were sent. |
| Eurotherm.Eurotherm818.SendPidItems | pychron/hardware/eurotherm/eurotherm818.py:106-109 | the loop sends the change frames of `PidCommands` and reports whether every item was a pair |
| FurnaceStage.Approach | pychron/furnace/ldeo/stage_manager.py:92-116 | the moves end at x, with a detour to x−5 first exactly when the previous position is truthy and above the new one |
| FurnaceStage.ApproachFromBelow | pychron/furnace/ldeo/stage_manager.py:92-116 | with an order-keeping calibration, the final move into a hole never runs downwards |
| FurnaceStage.MoveCommands | pychron/furnace/ldeo/stage_manager.py:107-116 | one absolute move command per position, in order |
| FurnaceStage.LdeoFurnaceStageManager.GetCurrentPosition | pychron/furnace/ldeo/stage_manager.py:69-72 | (position, 0) exactly when there is a feeder |
| FurnaceStage.LdeoFurnaceStageManager.RelativeMove | pychron/furnace/ldeo/stage_manager.py:80-81 | the feeder slews by direction × distance; without a feeder AttributeError and no command |
| FurnaceStage.LdeoFurnaceStageManager.MoveFeeder | pychron/furnace/ldeo/stage_manager.py:114-116 | the canvas gets x, the feeder's `_position` becomes x and the feeder is commanded to x |
| FurnaceStage.LdeoFurnaceStageManager.MoveToHole | pychron/furnace/ldeo/stage_manager.py:87-123 | A falsy position changes nothing. Otherwise the hole and position are remembered first, and the feeder gets exactly the moves of `Approach`, ending at the hole's calibrated x. |
| FurnaceStage.LdeoFurnaceStageManager.InProgress | pychron/furnace/ldeo/stage_manager.py:125-143 | polling stops at the first poll completing three consecutive non-moving polls, and not before; without one every poll is used |
| PipelinePrefs.SkipMeaningList | pychron/pipeline/tasks/preferences.py:42 | the list read from the stored text is the comma-separated parts, each as often as it occurs, in sorted order; it is non-empty and no name holds a comma |
| PipelinePrefs.SkipMeaningRoundTrip | pychron/pipeline/tasks/preferences.py:42-47 | writing a non-empty, comma-free selection and reading it back gives the selection sorted |
| PipelinePrefs.EmptySelectionReadsBackBlank | pychron/pipeline/tasks/preferences.py:42-47 | an empty selection is stored as "" and reads back as one empty name |
| PipelinePrefs.PipelinePreferences.constructor | pychron/pipeline/tasks/preferences.py:31-37 | holds the stored text, an empty list, not initialised |
| PipelinePrefs.PipelinePreferences.SkipMeaningNamesChanged | pychron/pipeline/tasks/preferences.py:45-47 | before initialisation the stored text is untouched; after, it becomes the sorted names joined by ',' |
| PipelinePrefs.PipelinePreferences.SetSkipMeaningNames | pychron/pipeline/tasks/preferences.py:45-47 | the list is assigned and the stored text follows it only once initialised |
| PipelinePrefs.PipelinePreferences.Initialize | pychron/pipeline/tasks/preferences.py:39-43 | the list becomes the sorted split of the stored text, the stored text is untouched, and the helper is initialised |
| PipelinePrefs.EditThenReload | pychron/pipeline/tasks/preferences.py:39-47 | an edit after initialisation is read back by the next initialisation as the same names, sorted |
| FileDefaults.LineAction | pychron/file_defaults.py:230-235 | the only error a line can raise is ValueError |
| FileDefaults.LineActionShape | pychron/file_defaults.py:230-235 | a kept entry starts with "- pychron.", holds no comma, and is the stripped line's text before its comma |
| FileDefaults.LineActionOfEntry | pychron/file_defaults.py:230-235 | an entry line "a,flag" is kept as a exactly when `to_bool(flag)` |
| FileDefaults.Collect | pychron/file_defaults.py:229-235 | at most one entry per line |
| FileDefaults.ActionsAppend | pychron/file_defaults.py:229-235 | the entries of two blocks of lines are the entries of the first followed by those of the second |
| FileDefaults.ActionsFromLines | pychron/file_defaults.py:229-235 | every entry comes from a line "entry,flag" of the text with a true flag |
| FileDefaults.ActionsKeepLines | pychron/file_defaults.py:229-235 | every such line with a true flag contributes its entry |
| FileDefaults.CollectActions | pychron/file_defaults.py:229-235 | the loop over the text's lines computes `Actions` of them |
| FileDefaults.SimpleUiDefault | pychron/file_defaults.py:237 | the joined text exists exactly when every line could be read |
| FileDefaults.ActionsOneLine | pychron/file_defaults.py:229-237 | no entry holds a line break |
| FileDefaults.SimpleUiDefaultLines | pychron/file_defaults.py:229-237 | splitting `SIMPLE_UI_DEFAULT` at line breaks gives back the kept entries |
| FileDefaults.Update | pychron/file_defaults.py:342 | `dict.update`: keys of both, overrides win, other defaults kept |
| FileDefaults.UpdateIdempotent | pychron/file_defaults.py:342 | updating twice with the same overrides is updating once |
| FileDefaults.ScreenDefaults | pychron/file_defaults.py:327-340 | the twelve screen option keys |
| FileDefaults.PresentationDefaults | pychron/file_defaults.py:347-360 | the same twelve keys |
| FileDefaults.MakeScreen | pychron/file_defaults.py:326-343 | every default key is kept, every override key is present with its value, other defaults are unchanged |
| FileDefaults.MakePresentation | pychron/file_defaults.py:346-363 | every default key is kept, every override key is present with its value, other defaults are unchanged |
| FileDefaults.ScreenAndPresentationShareTicks | pychron/file_defaults.py:326-363 | the two differ only in paddings and colours: overriding those gives the same options |

## Left out

- The statistics routines are parameters, and only what the engine relies on is assumed of them. These routines are `calculate_weighted_mean`, `calculate_mswd`, `validate_mswd`, `calculate_plateau_age`, `calculate_isochron` and `age_equation`, whose bodies are not part of this model. The square root is one of them, and its only assumed property is being the square root.
- Floating point is left out: every quantity is a `real`. NaN is not a value. A J of nominal value 0, where the source yields NaN, gives a relative J error of 0 (`GroupStats.JErr`). numpy's ddof=1 deviation of a single value, NaN in the source, is 0 (`GroupStats.StdDdof1`). The NaN check after the plateau error is therefore vacuous.
- `uncertainties` correlation tracking is left out: sums and ratios of (value, error) pairs propagate errors as if they were uncorrelated (`Uncertain.Sum`, `Uncertain.Div`).
- Traits machinery is left out: cached properties are recomputed on each call, and the `dirty` event, `on_trait_change` wiring and `AGProperty` are not modelled. The trait handler `_preferred_kind_changd` is called explicitly by the methods that change a record's kind, `has_subgroups` included.
- `AnalysisGroups.AnalysisGroup`: the three source classes are one class with a `level` field. Record lookup by attribute is its position in `SUBGROUPING_ATTRS`.
- `GroupStats.PlateauAnalyses`: `get_is_plateau_step` finds an analysis object by `analyses.index`, the first equal member. The model uses positions, which agree when the members are distinct.
- `AnalysisGroups.AnalysisGroup.PlateauOptionsOf`: `fixed_steps` always returns the (low, high) pair, because its guard compares two strings with None. It is modelled as that pair.
- `ALPHAS` and `AGE_MA_SCALARS` are not defined in the constants file. `ALPHAS` is the `alphas` routine. The age scalar and age units are not modelled.
- Group accessors that only read a field of the first analysis or format text are not modelled: `nratio`, `attr_stats`, `get_mswd_tuple`, identifiers, sample, project, irradiation, material, age units, `total_k2o`, `get_plateau_mswd_tuple`, `preferred_values_to_dict`, `get_ma_scaled_age`, `get_preferred_mswd`, the value strings and the interpreted group's value properties.
- `GroupStats.CalculateIntegrated`: `uncertainties` would raise ZeroDivisionError only for a zero nominal denominator. The value that `sum(n)/sum(d)` gives is modelled, and its error is the uncorrelated propagation.
- The plateau search is not modelled as a search. `calculate_plateau_age` is a parameter, with no order, tie-break or weighting assumed.
- The `flux_constants.yaml` load in the constants file is left out, as are the constants the engine does not use. `EXCLUDE_TAGS` is declared but no lemma is stated about it.
- `PychronConstants.FormatMswd`: `floatfmt` is a parameter. A non-string `include_tag` is represented only by its truth value.
- XML parsing, xpath queries, `save`, `tostring` and `get_elements` through lxml are left out. The regex tokenizer `scan` is replaced by its token stream: `XmlParser.PprintXml` takes the (group, text) tokens.
- `XmlParser.Indent`: works on element values and returns the new tree. It does not update a shared tree in place, so aliasing of elements is not modelled.
- The launch history file I/O is left out: the file's lines and the clock reading are parameters. Every time is kept as the text that is written and ordered as text; the source's mix of string and float times is a finding below.
- `LaunchHistory.UpdatedHistoryReadable`: holds of the corrected, text-ordered update. As written, the source empties the file and raises TypeError whenever a record of another path was read back (`LaunchHistory.UpdatedHistoryAsWritten`).
- `LaunchHistory.FormatLineRoundTrip`: holds only for records whose time and path hold no comma and whose line has no surrounding whitespace. The source does not guard against others.
- The Eurotherm transport is left out: `ask` appends the frame to a log, and the reply is a parameter. `calculate_bcc`, Python's `float` and `PID_REGEX` are parameters. `load_additional_args`, `initialize` and `test_connection` (which is `read_setpoint`) are not modelled.
- In the stage manager, sleeps, canvas redraws and feeder motor I/O are left out. The feeder's `moving()` answers are the `polls` sequence, and `_update_axes` is not modelled. The timeout is the end of that sequence. `jitter`, `set_sample_dumped`, `goto_position`, `in_motion`, `key_released` and the `Feeder` configuration are not modelled. The stage map's hole positions and the calibration are parameters.
- `FurnaceStage.LdeoFurnaceStageManager.MoveToHole`: the stage map's hole position is taken as one optional real, the feeder's single coordinate, and `get_calibrated_position` as the function giving the x of its (x, y) pair; the y is dropped, since the feeder moves on one axis. `if pos:` is read as "present and not 0", and `>` compares two such reals. `get_hole_pos` is not part of this model, so a position that is itself a pair, which Python would test and compare as a tuple, is not modelled.
- `GroupStats.ApplyJErrAsWritten`: the exception `ufloat` raises for a negative standard deviation is modelled as `NegativeStdDev`; older releases of `uncertainties` raise an AssertionError there instead. Neither is caught by `except AttributeError`.
- `PipelinePrefs.PipelinePreferences.Initialize`: the base helper's `_initialize`, which loads stored preferences, is left out; the stored text is the constructor's argument.
- `FileDefaults.CollectActions`: `to_bool` is a parameter. The text of `TASK_EXTENSION_DEFAULT` is a parameter rather than the literal.
- `FileDefaults.MakeScreen` and `FileDefaults.MakePresentation` return the merged dictionary. The `yaml.dump` of it is left out.
- The other text constants of `file_defaults.py` are configuration literals and are not modelled.
- `Text.LowerChar`, `Text.Lower`, `Text.Capitalize`, `Text.IsSpace`, `Text.Strip` and `Text.ParseInt` are ASCII only. Python's `lower`, `capitalize`, `strip` and `isspace` are Unicode-aware, and `capitalize` can change a string's length ("ß" gives "Ss"). `int()` also accepts `_` between digits and non-ASCII digits. The `ImportMapper` rows hold for this ASCII model.
- `ImportMapper.MapMaterial`: "same length" is a property of the ASCII model, not of Python's `capitalize`.
- `AnalysisGroups.InitialPreferred`: the starting record (empty kind, kinds and error kind, value 0, error 0) stands for the defaults of `PreferredValue` in `preferred.py`, which is not part of this model.
- `AnalysisGroups.AnalysisGroup.constructor`: the initial records come from `InitialRecords`, whose defaults are not taken from the source. The error-kind map accepts any string, while the source's `*_error_kind` traits are `Enum(*ERROR_TYPES)` and would raise TraitError in `_get_preferred_` for an error kind outside ERROR_TYPES, such as an empty one.
- `Eurotherm.UnitAddress`: the class declares `GID` and `UID` but `_get_address` reads `gid` and `uid`; the model takes them to be the same two settings.
- `AnalysisGroups.AnalysisGroup.IsochronData` and `GroupStats.NonGroups`: `isinstance(a, ArArAge)` is read as "not an interpreted group", the only other kind of member the model has.
- `AnalysisGroups.AnalysisGroup.IntegratedEnabled`: defined for every level of group, while the source has it only on the step-heat class.

## Findings

| source | as written | input that shows it | evidently intended | confidence | as-written member | corrected member |
|---|---|---|---|---|---|---|
| pychron/processing/analyses/analysis_group.py:274-283 | `_apply_j_err` computes `e / v` whenever the J flag or `force` is set | the weighted age of a group whose analyses have no age values, with the default `include_j_error_in_mean = True`: the mean is 0 ± 0 and `0/0` raises ZeroDivisionError | a zero value has no relative error, so it passes through unchanged as 0 ± 0 | not executed | GroupStats.ApplyJErrAsWritten | GroupStats.ApplyJErr |
| pychron/processing/analyses/analysis_group.py:651-656 | `_get_plateau_age` ends by calling `_apply_j_err(a, force=...)` even when no plateau was found, and discards the result | a step-heating group whose plateau search finds no plateau, with the default `include_j_error_in_plateau = True`: `a` is 0 ± 0 and the call raises ZeroDivisionError instead of returning 0 ± 0 | return 0 ± 0 for no plateau, and the plateau age otherwise | not executed | GroupStats.PlateauAgeAsWritten | AnalysisGroups.PlateauValue |
| pychron/experiment/experiment_launch_history.py:52-54 | the file is opened with 'w', which empties it, before `sorted(out, reverse=True)` runs over tuples whose times are strings read back or floats from `time.time()` | a file holding the one line "1,1,a" and a launch of "b": Python 3 cannot order the string "1" against a float, the sort raises TypeError, and the history is left empty | keep the history ordered by time and written back whole | not executed | LaunchHistory.UpdatedHistoryAsWritten | LaunchHistory.UpdateLaunchHistory |
| pychron/processing/analyses/analysis_group.py:276-281 | `_apply_j_err` sets the error to `ne*v`, the quadrature times the value itself | a group whose weighted mean age is negative, as for a young sample after the atmospheric correction, e.g. −2 ± 1 with the default `include_j_error_in_mean = True`: `ne*v` is negative, `ufloat` refuses a negative standard deviation and raises, and `except AttributeError` (:270) does not catch it; the plateau path raises the same way for a negative plateau age | the relative error scaled back by the magnitude, `ne*abs(v)` | not executed | GroupStats.ApplyJErrAsWritten | GroupStats.ApplyJErr |
