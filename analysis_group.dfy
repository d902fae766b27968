/** The analysis group as an object: the J-error flags and error kinds every
    group has, the plateau and isochron state a step-heating group keeps, and
    the preferred-value records an interpreted-age group resolves. The three
    classes of the source are one class here, told apart by `level`. */
module AnalysisGroups {
  import opened Wrappers
  import opened Text
  import opened Uncertain
  import opened GroupStats
  import C = PychronConstants

  /** Which of `AnalysisGroup`, `StepHeatAnalysisGroup` and
      `InterpretedAgeGroup` the object is. */
  datatype Level = Plain | StepHeat | Interpreted

  /** The three selections `_calculate_integrated` integrates over:
      'total', 'valid' and 'plateau'. */
  datatype Selection = AllSteps | ValidSteps | PlateauWindow

  /** One preferred-value record: the attribute, the selected kind and error
      kind, the kinds offered for selection, and the last resolved value,
      error and the kind that actually ran. */
  datatype PreferredValue = PreferredValue(
    attr: string,
    kind: string,
    kinds: seq<string>,
    errorKind: string,
    value: Option<real>,
    error: real,
    computedKind: string)

  /** What resolving a preferred value reads of a group's state: where J
      error goes, the isochron and plateau error kinds and the options of
      the plateau search. */
  datatype Settings = Settings(
    includeJErrorInIndividualAnalyses: bool,
    includeJErrorInMean: bool,
    isochronAgeErrorKind: string,
    plateauAgeErrorKind: string,
    plateauOptions: PlateauOptions)

  /** The error-kind attributes every group declares, each defaulting to the
      first of `ERROR_TYPES`. */
  const DefaultErrorKinds: map<string, string> :=
    map["age" := C.MSEM, "kca" := C.MSEM, "kcl" := C.MSEM, "rad40" := C.MSEM,
        "moles_k39" := C.MSEM, "signal_k39" := C.MSEM]

  /** The dispatch keys `_get_preferred_age` has a branch for. */
  const AgeKeys: set<string> :=
    {"weighted_mean", "wt._mean", "arithmetic_mean", "isochron", "integrated", "plateau",
     "valid_integrated", "total_integrated", "plateau_integrated", "plateau_else_weighted_mean"}

  /** The attributes whose subgroup kind is the arithmetic mean. */
  const ArithmeticAttrs: set<string> := {"kca", "kcl", "moles_k39", "signal_k39"}

  /** The key the dispatch tables compare: `kind.lower().replace(' ', '_')`. */
  function DispatchKey(kind: string): (r: string)
    ensures |r| == |kind|
    ensures forall i :: 0 <= i < |kind| ==> r[i] == (if kind[i] == ' ' then '_' else LowerChar(kind[i]))
  {
    ReplaceChar(Lower(kind), ' ', '_')
  }

  /** Two of the age kinds have no branch in `_get_preferred_age`, so as the
      age kind they resolve to 0 ± 0: Plateau else Valid Integrated, the
      default integrated kind, and Isochron of Plateau Steps. */
  lemma UnresolvedAgeKinds()
    ensures C.DEFAULT_INTEGRATED in C.AGE_SUBGROUPINGS && DispatchKey(C.DEFAULT_INTEGRATED) !in AgeKeys
    ensures C.ISOCHRON_PLATEAU in C.AGE_SUBGROUPINGS && DispatchKey(C.ISOCHRON_PLATEAU) !in AgeKeys
  {
  }

  /** What `_get_plateau_age` returns for an outcome: 0 ± 0 without a
      plateau, None for a one-step window, else the plateau age. */
  function PlateauValue(o: PlateauOutcome): (r: Option<UFloat>)
    ensures r.None? <==> o.SingleStep?
    ensures o.NoPlateau? ==> r == Some(Zero)
    ensures o.Found? ==> r == Some(o.summary.age)
  {
    match o
    case NoPlateau => Some(Zero)
    case SingleStep => None
    case Found(s) => Some(s.age)
  }

  /** Wherever `_get_plateau_age` as written returns, it returns what the
      model returns. It raises only under forced J error, for no plateau, a
      plateau age of 0, no analyses, or a negative plateau age with a
      non-zero quadrature; there the model returns 0 ± 0 or the plateau age. */
  lemma PlateauValueCorrection(sqrt: real -> real, o: PlateauOutcome, force: bool, ans: seq<Analysis>)
    requires IsSqrt(sqrt)
    ensures PlateauAgeAsWritten(sqrt, o, force, ans).Ok? ==> PlateauAgeAsWritten(sqrt, o, force, ans).value == PlateauValue(o)
    ensures PlateauAgeAsWritten(sqrt, o, force, ans).Err? ==>
      force && PlateauValue(o).Some? &&
      (o.NoPlateau? || o.summary.age.v == 0.0 || ans == [] ||
       (o.summary.age.v < 0.0 && Quadrature(sqrt, o.summary.age.e / o.summary.age.v, JErr(ans)) > 0.0))
    ensures (o.Found? && force && o.summary.age.v < 0.0 && ans != [] &&
             Quadrature(sqrt, o.summary.age.e / o.summary.age.v, JErr(ans)) > 0.0) ==>
      PlateauAgeAsWritten(sqrt, o, force, ans) == Err(NegativeStdDev) && PlateauValue(o) == Some(o.summary.age)
  {
    if o.Found? && force && o.summary.age.v != 0.0 && ans != [] {
      ApplyJErrCorrection(sqrt, o.summary.age, force, ans);
    }
  }

  /** The plateau window once the plateau age has been computed: a found
      window replaces `steps`, anything else leaves it in place. */
  function StepsAfter(o: PlateauOutcome, steps: Option<(nat, nat)>): (r: Option<(nat, nat)>)
    ensures o.Found? ==> r == Some(o.summary.steps)
    ensures !o.Found? ==> r == steps
  {
    if o.Found? then Some(o.summary.steps) else steps
  }

  /** `bool(pa)` for an optional age: None and 0 ± 0 are false. */
  predicate TruthyAge(a: Option<UFloat>)
  {
    a.Some? && Truthy(a.value)
  }

  /** `nominal_value` and `std_dev` of a resolved value: None has no value and
      no error. */
  function Nominal(a: Option<UFloat>): (r: Option<real>)
    ensures r.Some? <==> a.Some?
    ensures a.Some? ==> r.value == a.value.v
  {
    if a.Some? then Some(a.value.v) else None
  }

  function StdDev(a: Option<UFloat>): (r: real)
    ensures a.None? ==> r == 0.0
    ensures a.Some? ==> r == a.value.e
  {
    if a.Some? then a.value.e else 0.0
  }

  /** The record a new interpreted-age group starts with for `attr`. */
  function InitialPreferred(attr: string): PreferredValue
  {
    PreferredValue(attr, "", [], "", Some(0.0), 0.0, "")
  }

  /** The records a new interpreted-age group starts with, one per
      subgrouping attribute, in order. */
  function InitialRecords(): (r: seq<PreferredValue>)
    ensures |r| == |C.SUBGROUPING_ATTRS|
    ensures forall i :: 0 <= i < |r| ==> r[i] == InitialPreferred(C.SUBGROUPING_ATTRS[i])
  {
    seq(|C.SUBGROUPING_ATTRS|, i requires 0 <= i < |C.SUBGROUPING_ATTRS| => InitialPreferred(C.SUBGROUPING_ATTRS[i]))
  }

  /** What `has_subgroups` does to one record: a group of groups offers only
      the two means, choosing the arithmetic mean for the argon-39 and K/Ca,
      K/Cl attributes; otherwise the subgroup kinds are offered; the age
      record is left alone. */
  function SubgroupKinds(pv: PreferredValue, hs: bool): (r: PreferredValue)
    ensures r.(kind := pv.kind, kinds := pv.kinds) == pv
    ensures pv.attr == "age" ==> r == pv
    ensures pv.attr != "age" && !hs ==> r.kinds == C.SUBGROUPINGS && r.kind == pv.kind
    ensures pv.attr != "age" && hs ==> r.kinds == [C.WEIGHTED_MEAN, C.ARITHMETIC_MEAN]
    ensures pv.attr != "age" && hs ==> (r.kind == C.ARITHMETIC_MEAN <==> pv.attr in ArithmeticAttrs)
    ensures pv.attr != "age" && hs ==> (r.kind == C.WEIGHTED_MEAN <==> pv.attr !in ArithmeticAttrs)
  {
    if pv.attr == "age" then pv
    else if hs then
      pv.(kind := if pv.attr in ArithmeticAttrs then C.ARITHMETIC_MEAN else C.WEIGHTED_MEAN,
          kinds := [C.WEIGHTED_MEAN, C.ARITHMETIC_MEAN])
    else pv.(kinds := C.SUBGROUPINGS)
  }

  /** In a group of groups the kind chosen for a record is one it offers, and
      no plateau, isochron or integrated kind is offered; applying the rule
      twice changes nothing. */
  lemma SubgroupKindsSelectable(pv: PreferredValue, hs: bool)
    ensures SubgroupKinds(SubgroupKinds(pv, hs), hs) == SubgroupKinds(pv, hs)
    ensures pv.attr != "age" && hs ==> SubgroupKinds(pv, hs).kind in SubgroupKinds(pv, hs).kinds
    ensures pv.attr != "age" && hs ==> forall k :: k in SubgroupKinds(pv, hs).kinds ==>
      k in C.SUBGROUPINGS && k != C.INTEGRATED && k != C.VALID_INTEGRATED && k != C.PLATEAU_INTEGRATED && k != C.DEFAULT_INTEGRATED
  {
  }

  /** The fields of a record its handler does not write. */
  function Choices(pv: PreferredValue): (string, string, seq<string>, string)
  {
    (pv.attr, pv.kind, pv.kinds, pv.errorKind)
  }

  /** The error kinds after `has_subgroups` has gone through `pvs` in order:
      each record whose kind changes fires the handler, which sets its
      attribute's error kind to the record's. */
  function FiredErrorKinds(ek: map<string, string>, pvs: seq<PreferredValue>, hs: bool, n: nat): map<string, string>
    requires n <= |pvs|
  {
    if n == 0 then ek
    else
      var m := FiredErrorKinds(ek, pvs, hs, n - 1);
      var pv := pvs[n - 1];
      if SubgroupKinds(pv, hs).kind != pv.kind then m[pv.attr := pv.errorKind] else m
  }

  /** Without nested groups no record's kind changes, so no handler fires
      and the error kinds stay as they were. */
  lemma {:induction false} FiredNone(ek: map<string, string>, pvs: seq<PreferredValue>, n: nat)
    requires n <= |pvs|
    ensures FiredErrorKinds(ek, pvs, false, n) == ek
  {
    if n > 0 {
      FiredNone(ek, pvs, n - 1);
    }
  }

  /** The kind and error kind `set_preferred_kinds` gives `attr`: without
      settings the age is a weighted mean with the MSWD-inflated error, and
      every other attribute gets the default for the number of aliquots; with
      settings, `<attr>_kind` and `<attr>_error_kind` override the default. */
  function PreferredKindsFor(attr: string, naliquots: nat, sg: Option<map<string, string>>): (r: (string, string))
    ensures sg.None? && attr == "age" ==> r == (C.WEIGHTED_MEAN, C.MSEM)
    ensures sg.None? && attr != "age" && naliquots > 1 ==> r == (C.WEIGHTED_MEAN, C.MSEM)
    ensures sg.None? && attr != "age" && naliquots <= 1 ==> r == (C.DEFAULT_INTEGRATED, C.SD)
    ensures sg.Some? && attr + "_kind" in sg.value ==> r.0 == sg.value[attr + "_kind"]
    ensures sg.Some? && attr + "_error_kind" in sg.value ==> r.1 == sg.value[attr + "_error_kind"]
    ensures sg.Some? && attr + "_kind" !in sg.value ==> r.0 == (if naliquots > 1 then C.WEIGHTED_MEAN else C.DEFAULT_INTEGRATED)
    ensures sg.Some? && attr + "_error_kind" !in sg.value ==> r.1 == (if naliquots > 1 then C.MSEM else C.SD)
  {
    var defaultEk := if naliquots > 1 then C.MSEM else C.SD;
    var defaultVk := if naliquots > 1 then C.WEIGHTED_MEAN else C.DEFAULT_INTEGRATED;
    match sg
    case None => if attr == "age" then (C.WEIGHTED_MEAN, C.MSEM) else (defaultVk, defaultEk)
    case Some(m) =>
      (if attr + "_kind" in m then m[attr + "_kind"] else defaultVk,
       if attr + "_error_kind" in m then m[attr + "_error_kind"] else defaultEk)
  }

  /** Without settings, every default is an error kind of `ERROR_TYPES` and a
      kind a group without subgroups offers. */
  lemma DefaultKindsSelectable(attr: string, naliquots: nat)
    ensures PreferredKindsFor(attr, naliquots, None).1 in C.ERROR_TYPES
    ensures PreferredKindsFor(attr, naliquots, None).0 in C.SUBGROUPINGS
    ensures PreferredKindsFor(attr, naliquots, None).0 in C.AGE_SUBGROUPINGS
  {
  }

  /** The position of an attribute's record. */
  function PvIndex(attr: string): (i: nat)
    requires attr in C.SUBGROUPING_ATTRS
    ensures i < |C.SUBGROUPING_ATTRS| && C.SUBGROUPING_ATTRS[i] == attr
  {
    if attr == C.SUBGROUPING_ATTRS[0] then 0
    else if attr == C.SUBGROUPING_ATTRS[1] then 1
    else if attr == C.SUBGROUPING_ATTRS[2] then 2
    else if attr == C.SUBGROUPING_ATTRS[3] then 3
    else if attr == C.SUBGROUPING_ATTRS[4] then 4
    else 5
  }

  /** The record of the `k`-th subgrouping attribute is the `k`-th record. */
  lemma PvIndexOf(k: nat)
    requires k < |C.SUBGROUPING_ATTRS|
    ensures PvIndex(C.SUBGROUPING_ATTRS[k]) == k
  {
    if k == 0 {
    } else if k == 1 {
    } else if k == 2 {
    } else if k == 3 {
    } else if k == 4 {
    } else {
      assert k == 5;
    }
  }

  class AnalysisGroup {
    const level: Level
    const rt: Routines
    const analyses: seq<Analysis>
    const attribute: string

    var errorKinds: map<string, string>           // the `<attr>_error_kind` attributes
    var includeJErrorInMean: bool
    var includeJErrorInIndividualAnalyses: bool
    var isochronAgeErrorKind: string
    var isochron4036: Option<UFloat>
    var isochronMswd: Option<real>                 // the regressor's MSWD

    var includeJErrorInPlateau: bool
    var plateauSteps: Option<(nat, nat)>
    var plateauStepsStr: string
    var nsteps: nat
    var fixedStepLow: string
    var fixedStepHigh: string
    var plateauAgeErrorKind: string
    var plateauNsteps: int
    var plateauGasFraction: real
    var plateauOverlapSigma: int
    var plateauMswd: real
    var plateauMswdValid: bool

    var preferredValues: seq<PreferredValue>

    /** The routines keep their contracts, and an interpreted-age group holds
        one record per subgrouping attribute, in order. */
    ghost predicate Valid()
      reads this`preferredValues
    {
      && Lawful(rt)
      && (level == Interpreted ==>
            && |preferredValues| == |C.SUBGROUPING_ATTRS|
            && forall i :: 0 <= i < |preferredValues| ==> preferredValues[i].attr == C.SUBGROUPING_ATTRS[i])
      && (level != Interpreted ==> preferredValues == [])
    }

    constructor (level: Level, rt: Routines, analyses: seq<Analysis>)
      requires Lawful(rt)
      ensures Valid()
      ensures this.level == level && this.rt == rt && this.analyses == analyses && attribute == "uage"
      ensures level != Interpreted ==> errorKinds == DefaultErrorKinds
      ensures includeJErrorInMean && !includeJErrorInIndividualAnalyses && includeJErrorInPlateau
      ensures isochronAgeErrorKind == "" && isochron4036.None? && isochronMswd.None?
      ensures plateauSteps.None? && plateauStepsStr == "" && nsteps == 0
      ensures fixedStepLow == "" && fixedStepHigh == "" && plateauAgeErrorKind == ""
      ensures plateauNsteps == 3 && plateauGasFraction == 50.0 && plateauOverlapSigma == 2
      ensures plateauMswd == 0.0 && !plateauMswdValid
      ensures level == Interpreted ==>
        SubgroupsUpTo(|preferredValues|, InitialRecords(), HasNestedGroup(analyses), CurrentSettings(), DefaultErrorKinds)
    {
      this.level := level;
      this.rt := rt;
      this.analyses := analyses;
      attribute := "uage";
      errorKinds := DefaultErrorKinds;
      includeJErrorInMean := true;
      includeJErrorInIndividualAnalyses := false;
      isochronAgeErrorKind := "";
      isochron4036 := None;
      isochronMswd := None;
      includeJErrorInPlateau := true;
      plateauSteps := None;
      plateauStepsStr := "";
      nsteps := 0;
      fixedStepLow := "";
      fixedStepHigh := "";
      plateauAgeErrorKind := "";
      plateauNsteps := 3;
      plateauGasFraction := 50.0;
      plateauOverlapSigma := 2;
      plateauMswd := 0.0;
      plateauMswdValid := false;
      preferredValues := if level == Interpreted then InitialRecords() else [];
      new;
      if level == Interpreted {
        HasSubgroups();
      }
    }

    // ----- J error and error kinds -----

    /** `set_j_error`: J error goes into the individual analyses or into the
        mean, never both. */
    method SetJError(individual: bool, mean: bool)
      modifies this`includeJErrorInIndividualAnalyses, this`includeJErrorInMean
      ensures individual ==> includeJErrorInIndividualAnalyses && !includeJErrorInMean
      ensures !individual ==> !includeJErrorInIndividualAnalyses && includeJErrorInMean == mean
      ensures !(includeJErrorInIndividualAnalyses && includeJErrorInMean)
    {
      if individual {
        includeJErrorInIndividualAnalyses := individual;
        includeJErrorInMean := false;
      } else {
        includeJErrorInIndividualAnalyses := false;
        includeJErrorInMean := mean;
      }
    }

    /** `getattr(self, '<attr>_error_kind', SD)`. */
    function ErrorKind(attr: string): (r: string)
      reads this`errorKinds
      ensures attr in errorKinds ==> r == errorKinds[attr]
      ensures attr !in errorKinds ==> r == C.SD
    {
      if attr in errorKinds then errorKinds[attr] else C.SD
    }

    /** `age_attr`: the age with J error when J error goes into the
        individual analyses. */
    function AgeAttr(st: Settings): (r: string)
      ensures r == "uage" || r == "uage_w_j_err"
      ensures r == "uage_w_j_err" <==> st.includeJErrorInIndividualAnalyses
    {
      if st.includeJErrorInIndividualAnalyses then "uage_w_j_err" else "uage"
    }

    /** The attribute the group's mean and MSWD are taken over: the age
        attribute for an age-like attribute, else the attribute itself. */
    function ValueAttr(st: Settings): (r: string)
      ensures StartsWith(attribute, "uage") ==> r == AgeAttr(st)
      ensures !StartsWith(attribute, "uage") ==> r == attribute
    {
      if StartsWith(attribute, "uage") then AgeAttr(st) else attribute
    }

    /** `mswd`: the MSWD of the group's values, 0 without values. */
    function Mswd(st: Settings): (r: real)
      ensures Values(analyses, ValueAttr(st)) == [] ==> r == 0.0
    {
      CalculateMswd(rt, analyses, ValueAttr(st))
    }

    // ----- means -----

    /** `weighted_age` with the age error kind `ageKind`: the weighted mean,
        its error inflated by the MSWD rule and clamped at 0, with J error
        added when it goes into the mean. */
    function WeightedAgeWith(st: Settings, ageKind: string): (r: UFloat)
      requires IsSqrt(rt.sqrt)
      ensures r.v == CalculateMean(rt, analyses, ValueAttr(st), true, Some(ageKind)).mean
      ensures Values(analyses, ValueAttr(st)) == [] ==> r == Zero
      ensures r.e >= 0.0 && r.e >= ModifyError(rt.sqrt, CalculateMean(rt, analyses, ValueAttr(st), true, Some(ageKind)).err, ageKind, Mswd(st))
      ensures !st.includeJErrorInMean && ageKind != C.MSEM ==>
        r.e == Max(0.0, CalculateMean(rt, analyses, ValueAttr(st), true, Some(ageKind)).err)
    {
      ClampedWithJ(rt.sqrt, CalculateMean(rt, analyses, ValueAttr(st), true, Some(ageKind)), ageKind, Mswd(st), st.includeJErrorInMean, analyses)
    }

    /** `weighted_age` is the weighted mean put through the clamped MSWD rule
        and the J rule, whose error the contract of `ClampedWithJ` states
        exactly. */
    lemma WeightedAgeUnfolds(st: Settings, ageKind: string)
      requires IsSqrt(rt.sqrt)
      ensures WeightedAgeWith(st, ageKind) ==
        ClampedWithJ(rt.sqrt, CalculateMean(rt, analyses, ValueAttr(st), true, Some(ageKind)), ageKind, Mswd(st), st.includeJErrorInMean, analyses)
    {
    }

    /** `arith_age` with the age error kind `ageKind`: the plain mean of the
        ages with the sample standard deviation, inflated by the MSWD rule,
        with J error added when it goes into the mean. */
    function ArithAgeWith(st: Settings, ageKind: string): (r: UFloat)
      requires IsSqrt(rt.sqrt)
      ensures Values(analyses, AgeAttr(st)) == [] ==> r == Zero
      ensures Values(analyses, AgeAttr(st)) != [] ==> r.v == MeanOf(Values(analyses, AgeAttr(st)))
      ensures Values(analyses, AgeAttr(st)) != [] ==>
        r.e >= StdDdof1(rt.sqrt, Values(analyses, AgeAttr(st)))
    {
      ModifiedWithJ(rt.sqrt, CalculateMean(rt, analyses, AgeAttr(st), false, None), ageKind, Mswd(st), st.includeJErrorInMean, analyses)
    }

    /** `arith_age` is the plain mean and sample standard deviation of the
        ages put through the MSWD rule and the J rule, whose error the
        contract of `ModifiedWithJ` states exactly. */
    lemma ArithAgeUnfolds(st: Settings, ageKind: string)
      requires IsSqrt(rt.sqrt)
      ensures ArithAgeWith(st, ageKind) ==
        ModifiedWithJ(rt.sqrt, CalculateMean(rt, analyses, AgeAttr(st), false, None), ageKind, Mswd(st), st.includeJErrorInMean, analyses)
    {
    }

    /** `_get_weighted_mean(attr)` where `kind` is the attribute's error kind:
        the age goes through `weighted_age`; any other attribute is its
        weighted mean with the error inflated by the attribute's own MSWD. */
    function WeightedMeanOf(st: Settings, attr: string, kind: string): (r: UFloat)
      requires IsSqrt(rt.sqrt)
      ensures attr == "age" ==> r == WeightedAgeWith(st, kind)
      ensures attr != "age" ==> r.v == CalculateMean(rt, analyses, attr, true, Some(kind)).mean
      ensures attr != "age" && CalculateMean(rt, analyses, attr, true, Some(kind)).err >= 0.0 ==>
        r.e >= CalculateMean(rt, analyses, attr, true, Some(kind)).err
      ensures attr != "age" && Values(analyses, attr) == [] ==> r == Zero
    {
      if attr == "age" then WeightedAgeWith(st, kind)
      else
        var m := CalculateMean(rt, analyses, attr, true, Some(kind));
        UFloat(m.mean, ModifyError(rt.sqrt, m.err, kind, CalculateMswd(rt, analyses, attr)))
    }

    /** The error of `_get_weighted_mean` for an attribute other than the
        age exactly: the MSEM kind inflates the weighted error by the square
        root of the attribute's own MSWD when that is above 1; otherwise the
        weighted error is the result's error. */
    lemma WeightedMeanError(st: Settings, attr: string, kind: string)
      requires IsSqrt(rt.sqrt) && attr != "age"
      ensures var m := CalculateMean(rt, analyses, attr, true, Some(kind));
        var mswd := CalculateMswd(rt, analyses, attr);
        var r := WeightedMeanOf(st, attr, kind);
        && (kind == C.MSEM && mswd > 1.0 ==> r.e == m.err * rt.sqrt(mswd))
        && (kind != C.MSEM || mswd <= 1.0 ==> r.e == m.err)
    {
    }

    /** `_calculate_arithmetic_mean(attr)`: the age goes through `arith_age`,
        any other attribute is its plain mean and sample standard deviation. */
    function ArithmeticMeanOf(st: Settings, attr: string, ageKind: string): (r: UFloat)
      requires IsSqrt(rt.sqrt)
      ensures attr == "age" ==> r == ArithAgeWith(st, ageKind)
      ensures attr != "age" && Values(analyses, attr) == [] ==> r == Zero
      ensures attr != "age" && Values(analyses, attr) != [] ==>
        r == UFloat(MeanOf(Values(analyses, attr)), StdDdof1(rt.sqrt, Values(analyses, attr)))
    {
      if attr == "age" then ArithAgeWith(st, ageKind)
      else
        var m := CalculateMean(rt, analyses, attr, false, None);
        UFloat(m.mean, m.err)
    }

    // ----- integrated values -----

    /** The analyses a selection takes, given the plateau window `steps`. */
    function SelectionOf(sel: Selection, steps: Option<(nat, nat)>): (r: seq<Analysis>)
      ensures sel == AllSteps ==> r == analyses
      ensures sel == ValidSteps ==> r == Clean(analyses)
      ensures sel == PlateauWindow ==> r == PlateauAnalyses(analyses, steps) && IsSubseq(r, Clean(analyses))
    {
      match sel
      case AllSteps => analyses
      case ValidSteps => Clean(analyses)
      case PlateauWindow =>
        PlateauAnalysesSubseqOfClean(analyses, steps);
        PlateauAnalyses(analyses, steps)
    }

    /** `_calculate_integrated(attr, kind)`. */
    function IntegratedOf(attr: string, sel: Selection, steps: Option<(nat, nat)>): (r: UFloat)
      requires IsSqrt(rt.sqrt)
      ensures NonGroups(SelectionOf(sel, steps)) == [] ==> r == Zero
      ensures attr == "age" ==> r == IntegratedAge(rt, NonGroups(SelectionOf(sel, steps)))
    {
      CalculateIntegrated(rt, attr, SelectionOf(sel, steps))
    }

    /** `nanalyses`: the number of non-omitted analyses, except that an
        interpreted age whose age was computed as a plateau counts the plateau
        steps. */
    function Nanalyses(): (r: nat)
      reads this`preferredValues, this`nsteps
      requires Valid()
      ensures level == Interpreted && Lower(preferredValues[0].computedKind) == "plateau" ==> r == nsteps
      ensures !(level == Interpreted && Lower(preferredValues[0].computedKind) == "plateau") ==>
        r == |Clean(analyses)| && r <= |analyses|
    {
      if level == Interpreted && Lower(preferredValues[0].computedKind) == "plateau" then nsteps
      else
        PickIndicesSubseqOfPrefix(analyses, |analyses|, IsClean(analyses));
        SubseqLength(Clean(analyses), analyses[..|analyses|]);
        |Clean(analyses)|
    }

    /** `integrated_enabled`: an integrated age is offered only for more than
        one analysis, all of a single aliquot. */
    function IntegratedEnabled(): (r: bool)
      reads this`preferredValues, this`nsteps
      requires Valid()
      ensures r <==> Nanalyses() > 1 && analyses != [] && forall i :: 0 <= i < |analyses| ==> analyses[i].aliquot == analyses[0].aliquot
    {
      SingleAliquot(analyses);
      Nanalyses() > 1 && |Aliquots(analyses)| == 1
    }

    // ----- argon-39 -----

    /** `cumulative_ar39(idx)`: the running argon-39 sum over the steps up to
        `idx`, as a percentage of the total. */
    method CumulativeAr39(idx: int) returns (r: Result<real>)
      ensures r == CumulativeAr39Of(analyses, idx)
    {
      var cum := 0.0;
      var i := 0;
      while i < |analyses| && i <= idx
        invariant 0 <= i <= |analyses|
        invariant i <= PrefixLength(|analyses|, idx)
        invariant cum == TotalAr39(analyses[..i])
      {
        assert analyses[..i + 1][..i] == analyses[..i];
        cum := cum + analyses[i].k39.v;
        i := i + 1;
      }
      var total := TotalAr39(analyses);
      if total == 0.0 {
        r := Err(ZeroDivisionError);
      } else {
        r := Ok(cum / total * 100.0);
      }
    }

    // ----- plateau -----

    /** The options `_get_plateau_age` hands the plateau search;
        `fixed_steps` is always the (low, high) pair. */
    function PlateauOptionsOf(): PlateauOptions
      reads this`plateauNsteps, this`plateauGasFraction, this`plateauOverlapSigma, this`fixedStepLow, this`fixedStepHigh
    {
      PlateauOptions(plateauNsteps, plateauGasFraction, plateauOverlapSigma, (fixedStepLow, fixedStepHigh))
    }

    /** The settings resolving reads in the current state. */
    function CurrentSettings(): Settings
      reads this`includeJErrorInIndividualAnalyses, this`includeJErrorInMean, this`isochronAgeErrorKind, this`plateauAgeErrorKind
      reads this`plateauNsteps, this`plateauGasFraction, this`plateauOverlapSigma, this`fixedStepLow, this`fixedStepHigh
    {
      Settings(includeJErrorInIndividualAnalyses, includeJErrorInMean, isochronAgeErrorKind, plateauAgeErrorKind, PlateauOptionsOf())
    }

    /** `_get_plateau_age` under the settings `st`: an empty group or one
        holding a nested group has no plateau; a found window spans more than
        one step of the group, is labelled by its first and last step, and
        has a non-negative age error. */
    function PlateauOutcomeWith(st: Settings): (r: PlateauOutcome)
      requires Lawful(rt)
      ensures analyses == [] || HasNestedGroup(analyses) ==> r == NoPlateau
      ensures r.Found? ==>
        var (lo, hi) := r.summary.steps;
        && lo != hi && hi < |analyses|
        && r.summary.stepsLabel == rt.alphas(lo) + "-" + rt.alphas(hi)
        && r.summary.age.e >= 0.0
    {
      Plateau(rt, analyses, st.plateauOptions, st.plateauAgeErrorKind)
    }

    function PlateauAgeWith(st: Settings): (r: Option<UFloat>)
      requires Lawful(rt)
      ensures r == PlateauValue(PlateauOutcomeWith(st))
      ensures r.Some? ==> r.value.e >= 0.0
    {
      PlateauValue(PlateauOutcomeWith(st))
    }

    /** `plateau_age`: computes the plateau and, when a window is found,
        records it with its label, step count and MSWD. */
    method CalculatePlateau() returns (r: Option<UFloat>)
      requires Lawful(rt)
      modifies this`plateauSteps, this`plateauStepsStr, this`nsteps, this`plateauMswd, this`plateauMswdValid
      ensures r == PlateauAgeWith(CurrentSettings())
      ensures plateauSteps == StepsAfter(PlateauOutcomeWith(CurrentSettings()), old(plateauSteps))
      ensures var o := PlateauOutcomeWith(CurrentSettings());
        if o.Found? then
          && plateauStepsStr == o.summary.stepsLabel && nsteps == o.summary.nsteps
          && plateauMswd == o.summary.mswd && plateauMswdValid == o.summary.mswdValid
        else
          && plateauStepsStr == old(plateauStepsStr) && nsteps == old(nsteps)
          && plateauMswd == old(plateauMswd) && plateauMswdValid == old(plateauMswdValid)
    {
      var o := PlateauOutcomeWith(CurrentSettings());
      r := PlateauValue(o);
      if o.Found? {
        StoreWindow(o.summary);
      }
    }

    /** Records a found plateau window with its label, step count and MSWD. */
    method StoreWindow(s: PlateauSummary)
      modifies this`plateauSteps, this`plateauStepsStr, this`nsteps, this`plateauMswd, this`plateauMswdValid
      ensures plateauSteps == Some(s.steps) && plateauStepsStr == s.stepsLabel && nsteps == s.nsteps
      ensures plateauMswd == s.mswd && plateauMswdValid == s.mswdValid
    {
      plateauSteps := Some(s.steps);
      plateauStepsStr := s.stepsLabel;
      nsteps := s.nsteps;
      plateauMswdValid := s.mswdValid;
      plateauMswd := s.mswd;
    }

    // ----- isochron -----

    /** `get_isochron_data`: the regression over the analyses that are not
        groups, excluding the omitted ones; None when there are none. */
    function IsochronData(st: Settings): (r: Option<IsochronFit>)
      ensures NonGroups(analyses) == [] ==> r.None?
      ensures NonGroups(analyses) != [] ==>
        r == rt.isochron(NonGroups(analyses), st.isochronAgeErrorKind, Excludes(NonGroups(analyses)))
    {
      var ans := NonGroups(analyses);
      if ans == [] then None else rt.isochron(ans, st.isochronAgeErrorKind, Excludes(ans))
    }

    /** `calculate_isochron_age`: the regression age with its error inflated
        by the regression's MSWD under the isochron error kind. */
    function IsochronValue(st: Settings): (r: Option<UFloat>)
      requires IsSqrt(rt.sqrt)
      ensures r.Some? <==> IsochronData(st).Some?
      ensures r.Some? ==> r.value.v == IsochronData(st).value.age.v
      ensures r.Some? && IsochronData(st).value.age.e >= 0.0 ==> r.value.e >= IsochronData(st).value.age.e
    {
      match IsochronData(st)
      case None => None
      case Some(f) => Some(UFloat(f.age.v, ModifyError(rt.sqrt, f.age.e, st.isochronAgeErrorKind, f.mswd)))
    }

    /** The error of `calculate_isochron_age` exactly: the MSEM isochron
        error kind inflates the regression's age error by the square root of
        the regression's MSWD when that is above 1; otherwise the regression's
        age error is the result's error. */
    lemma IsochronError(st: Settings)
      requires IsSqrt(rt.sqrt)
      ensures IsochronData(st).Some? ==>
        var f := IsochronData(st).value;
        var r := IsochronValue(st).value;
        && (st.isochronAgeErrorKind == C.MSEM && f.mswd > 1.0 ==> r.e == f.age.e * rt.sqrt(f.mswd))
        && (st.isochronAgeErrorKind != C.MSEM || f.mswd <= 1.0 ==> r.e == f.age.e)
    {
    }

    /** `isochron_age`: no regression gives 0 ± 0. */
    function IsochronAge(st: Settings): (r: UFloat)
      requires IsSqrt(rt.sqrt)
      ensures IsochronData(st).None? ==> r == Zero
      ensures IsochronData(st).Some? ==> Some(r) == IsochronValue(st)
    {
      if IsochronValue(st).Some? then IsochronValue(st).value else Zero
    }

    method CalculateIsochronAge() returns (r: Option<UFloat>)
      requires IsSqrt(rt.sqrt)
      modifies this`isochron4036, this`isochronMswd
      ensures r == IsochronValue(CurrentSettings())
      ensures IsochronData(CurrentSettings()).Some? ==>
        && isochron4036 == Some(IsochronData(CurrentSettings()).value.ar4036)
        && isochronMswd == Some(IsochronData(CurrentSettings()).value.mswd)
      ensures IsochronData(CurrentSettings()).None? ==>
        isochron4036 == old(isochron4036) && isochronMswd == old(isochronMswd)
    {
      var d := IsochronData(CurrentSettings());
      match d {
        case None =>
          r := None;
        case Some(f) =>
          isochron4036 := Some(f.ar4036);
          isochronMswd := Some(f.mswd);
          r := IsochronValue(CurrentSettings());
      }
    }

    // ----- preferred values -----

    /** `_get_preferred_age` for the age kind `kind` under the settings `st`,
        with `ageKind` as the age error kind and `steps` as the recorded
        plateau window: the value and the kind that actually ran. Plateau else
        Weighted Mean reports Plateau while a window is recorded once the
        plateau is computed, else the weighted age; a kind without a branch
        gives 0 ± 0. */
    function PreferredAgeOf(st: Settings, kind: string, ageKind: string, steps: Option<(nat, nat)>): (r: (Option<UFloat>, string))
      requires Lawful(rt)
      ensures DispatchKey(kind) != "plateau_else_weighted_mean" ==> r.1 == kind
      ensures DispatchKey(kind) == "plateau_else_weighted_mean" && StepsAfter(PlateauOutcomeWith(st), steps).Some? ==>
        r == (PlateauAgeWith(st), C.PLATEAU)
      ensures DispatchKey(kind) == "plateau_else_weighted_mean" && StepsAfter(PlateauOutcomeWith(st), steps).None? ==>
        r == (Some(WeightedAgeWith(st, ageKind)), C.WEIGHTED_MEAN)
      ensures DispatchKey(kind) == "weighted_mean" || DispatchKey(kind) == "wt._mean" ==> r.0 == Some(WeightedAgeWith(st, ageKind))
      ensures DispatchKey(kind) == "plateau" ==> r.0 == PlateauAgeWith(st)
      ensures DispatchKey(kind) == "isochron" ==> r.0 == Some(IsochronAge(st))
      ensures DispatchKey(kind) !in AgeKeys ==> r.0 == Some(Zero)
      ensures r.0.None? ==> PlateauOutcomeWith(st).SingleStep?
    {
      var key := DispatchKey(kind);
      if key == "weighted_mean" || key == "wt._mean" then (Some(WeightedAgeWith(st, ageKind)), kind)
      else if key == "arithmetic_mean" then (Some(ArithAgeWith(st, ageKind)), kind)
      else if key == "isochron" then (Some(IsochronAge(st)), kind)
      else if key == "integrated" then (Some(IntegratedAge(rt, Clean(analyses))), kind)
      else if key == "plateau" then (PlateauAgeWith(st), kind)
      else if key == "valid_integrated" then (Some(IntegratedOf("age", ValidSteps, steps)), kind)
      else if key == "total_integrated" then (Some(IntegratedOf("age", AllSteps, steps)), kind)
      else if key == "plateau_integrated" then (Some(IntegratedOf("age", PlateauWindow, steps)), kind)
      else if key == "plateau_else_weighted_mean" then
        if StepsAfter(PlateauOutcomeWith(st), steps).Some? then (PlateauAgeWith(st), C.PLATEAU)
        else (Some(WeightedAgeWith(st, ageKind)), C.WEIGHTED_MEAN)
      else (Some(Zero), kind)
    }

    /** Computing the plateau only moves the recorded window to the one the
        plateau search finds, and computing it again finds the same window, so
        resolving the age a second time gives what the first time gave. */
    lemma PreferredAgeStable(st: Settings, kind: string, ageKind: string, steps: Option<(nat, nat)>)
      requires Lawful(rt)
      ensures var after :=
          if DispatchKey(kind) in {"plateau", "plateau_else_weighted_mean"}
          then StepsAfter(PlateauOutcomeWith(st), steps) else steps;
        PreferredAgeOf(st, kind, ageKind, after) == PreferredAgeOf(st, kind, ageKind, steps)
    {
    }

    /** `_get_preferred_age`: resolves the age record's kind, recording in it
        the kind that ran; the plateau and isochron kinds update the plateau
        and isochron state as computing them does. Afterwards the record holds
        the kind that resolving it in the new state runs. */
    method PreferredAge() returns (r: Option<UFloat>)
      requires level == Interpreted && Valid()
      modifies this`preferredValues, this`plateauSteps, this`plateauStepsStr, this`nsteps, this`plateauMswd, this`plateauMswdValid
      modifies this`isochron4036, this`isochronMswd
      ensures Valid()
      ensures preferredValues == old(preferredValues)[0 := old(preferredValues[0]).(computedKind := preferredValues[0].computedKind)]
      ensures var res := PreferredAgeOf(CurrentSettings(), preferredValues[0].kind, ErrorKind("age"), plateauSteps);
        r == res.0 && preferredValues[0].computedKind == res.1
      ensures plateauSteps ==
        if DispatchKey(preferredValues[0].kind) in {"plateau", "plateau_else_weighted_mean"}
        then StepsAfter(PlateauOutcomeWith(CurrentSettings()), old(plateauSteps))
        else old(plateauSteps)
    {
      var ck;
      r, ck := AgeOfKind(preferredValues[0].kind);
      StoreComputedKind(ck);
    }

    /** Records in the age record the kind that ran. */
    method StoreComputedKind(ck: string)
      requires level == Interpreted && Valid()
      modifies this`preferredValues
      ensures Valid()
      ensures preferredValues == old(preferredValues)[0 := old(preferredValues[0]).(computedKind := ck)]
    {
      preferredValues := preferredValues[0 := preferredValues[0].(computedKind := ck)];
    }

    /** The dispatch of `_get_preferred_age` on the age kind `kind`: the
        plateau and isochron branches compute and record their state, the
        others only compute. */
    method AgeOfKind(kind: string) returns (r: Option<UFloat>, ck: string)
      requires Lawful(rt)
      modifies this`plateauSteps, this`plateauStepsStr, this`nsteps, this`plateauMswd, this`plateauMswdValid
      modifies this`isochron4036, this`isochronMswd
      ensures (r, ck) == PreferredAgeOf(CurrentSettings(), kind, ErrorKind("age"), plateauSteps)
      ensures plateauSteps ==
        if DispatchKey(kind) in {"plateau", "plateau_else_weighted_mean"}
        then StepsAfter(PlateauOutcomeWith(CurrentSettings()), old(plateauSteps))
        else old(plateauSteps)
    {
      var key := DispatchKey(kind);
      if key == "isochron" {
        r := IsochronBranch();
        ck := kind;
      } else if key == "plateau" {
        r := PlateauBranch();
        ck := kind;
      } else if key == "plateau_else_weighted_mean" {
        r, ck := PlateauElseWeightedAge();
      } else {
        r, ck := StatelessAgeOfKind(kind);
      }
    }

    /** The Isochron branch: the isochron age, 0 ± 0 without a regression. */
    method IsochronBranch() returns (r: Option<UFloat>)
      requires IsSqrt(rt.sqrt)
      modifies this`isochron4036, this`isochronMswd
      ensures r == Some(IsochronAge(CurrentSettings()))
    {
      var a := CalculateIsochronAge();
      r := Some(if a.Some? then a.value else Zero);
    }

    /** The Plateau branch: the plateau age, which computing it again after
        the window is recorded does not change. */
    method PlateauBranch() returns (r: Option<UFloat>)
      requires Lawful(rt)
      modifies this`plateauSteps, this`plateauStepsStr, this`nsteps, this`plateauMswd, this`plateauMswdValid
      ensures plateauSteps == StepsAfter(PlateauOutcomeWith(CurrentSettings()), old(plateauSteps))
      ensures r == PlateauAgeWith(CurrentSettings())
    {
      r := CalculatePlateau();
    }

    /** The Plateau else Weighted Mean branch: the plateau is computed, and
        without a recorded window the weighted age is taken instead. */
    method PlateauElseWeightedAge() returns (r: Option<UFloat>, ck: string)
      requires Lawful(rt)
      modifies this`plateauSteps, this`plateauStepsStr, this`nsteps, this`plateauMswd, this`plateauMswdValid
      ensures plateauSteps == StepsAfter(PlateauOutcomeWith(CurrentSettings()), old(plateauSteps))
      ensures plateauSteps == StepsAfter(PlateauOutcomeWith(CurrentSettings()), plateauSteps)
      ensures plateauSteps.Some? ==> r == PlateauAgeWith(CurrentSettings()) && ck == C.PLATEAU
      ensures plateauSteps.None? ==> r == Some(WeightedAgeWith(CurrentSettings(), ErrorKind("age"))) && ck == C.WEIGHTED_MEAN
    {
      r := CalculatePlateau();
      ck := C.PLATEAU;
      if plateauSteps.None? {
        r := Some(WeightedAgeWith(CurrentSettings(), ErrorKind("age")));
        ck := C.WEIGHTED_MEAN;
      }
    }

    /** The branches of `_get_preferred_age` that change no state. */
    method StatelessAgeOfKind(kind: string) returns (r: Option<UFloat>, ck: string)
      requires Lawful(rt)
      requires DispatchKey(kind) !in {"isochron", "plateau", "plateau_else_weighted_mean"}
      ensures (r, ck) == PreferredAgeOf(CurrentSettings(), kind, ErrorKind("age"), plateauSteps)
      ensures ck == kind && r.Some?
    {
      var key := DispatchKey(kind);
      var st := CurrentSettings();
      ck := kind;
      if key == "weighted_mean" || key == "wt._mean" {
        r := Some(WeightedAgeWith(st, ErrorKind("age")));
      } else if key == "arithmetic_mean" {
        r := Some(ArithAgeWith(st, ErrorKind("age")));
      } else if key == "integrated" {
        r := Some(IntegratedAge(rt, Clean(analyses)));
      } else if key == "valid_integrated" {
        r := Some(IntegratedOf("age", ValidSteps, plateauSteps));
      } else if key == "total_integrated" {
        r := Some(IntegratedOf("age", AllSteps, plateauSteps));
      } else if key == "plateau_integrated" {
        r := Some(IntegratedOf("age", PlateauWindow, plateauSteps));
      } else {
        r := Some(Zero);
      }
    }

    /** `_get_preferred_(attr, kind, error_kind)` under the settings `st`,
        once the attribute's error kind is `ek` and with `steps` as the
        recorded plateau window: the value and the kind that ran. Plateau else
        Valid Integrated integrates over the plateau window when the plateau
        age is non-zero, else over the valid steps; a kind without a branch is
        the arithmetic mean. */
    function GetPreferredOf(st: Settings, attr: string, kind: string, ek: string, steps: Option<(nat, nat)>): (r: (UFloat, string))
      requires Lawful(rt)
      ensures DispatchKey(kind) != "plateau_else_valid_integrated" ==> r.1 == kind
      ensures DispatchKey(kind) == "plateau_else_valid_integrated" ==>
        (r.1 == C.PLATEAU <==> TruthyAge(PlateauAgeWith(st))) && (r.1 == C.PLATEAU || r.1 == "Valid")
      ensures DispatchKey(kind) == "plateau_else_valid_integrated" && r.1 == "Valid" ==>
        r.0 == IntegratedOf(attr, ValidSteps, steps)
      ensures DispatchKey(kind) == "plateau_else_valid_integrated" && r.1 == C.PLATEAU ==>
        && PlateauOutcomeWith(st).Found?
        && r.0 == IntegratedOf(attr, PlateauWindow, Some(PlateauOutcomeWith(st).summary.steps))
      ensures DispatchKey(kind) == "weighted_mean" ==> r.0 == WeightedMeanOf(st, attr, ek)
      ensures DispatchKey(kind) !in {"weighted_mean", "valid_integrated", "total_integrated", "plateau_integrated", "plateau_else_valid_integrated"} ==>
        r.0 == ArithmeticMeanOf(st, attr, ek)
    {
      var key := DispatchKey(kind);
      if key == "weighted_mean" then (WeightedMeanOf(st, attr, ek), kind)
      else if key == "valid_integrated" then (IntegratedOf(attr, ValidSteps, steps), kind)
      else if key == "total_integrated" then (IntegratedOf(attr, AllSteps, steps), kind)
      else if key == "plateau_integrated" then (IntegratedOf(attr, PlateauWindow, steps), kind)
      else if key == "plateau_else_valid_integrated" then
        if TruthyAge(PlateauAgeWith(st)) then
          (IntegratedOf(attr, PlateauWindow, StepsAfter(PlateauOutcomeWith(st), steps)), C.PLATEAU)
        else (IntegratedOf(attr, ValidSteps, steps), "Valid")
      else (ArithmeticMeanOf(st, attr, ek), kind)
    }

    /** Resolving a record a second time gives what the first time gave. */
    lemma GetPreferredStable(st: Settings, attr: string, kind: string, ek: string, steps: Option<(nat, nat)>)
      requires Lawful(rt)
      ensures DispatchKey(kind) == "plateau_else_valid_integrated" ==>
        GetPreferredOf(st, attr, kind, ek, StepsAfter(PlateauOutcomeWith(st), steps))
          == GetPreferredOf(st, attr, kind, ek, steps)
    {
    }

    /** `_get_preferred_`: sets the attribute's error kind, then resolves;
        the value and kind are those resolving gives in the new state. */
    method GetPreferred(attr: string, kind: string, ek: string) returns (v: UFloat, k: string)
      requires Lawful(rt)
      modifies this`errorKinds, this`plateauSteps, this`plateauStepsStr, this`nsteps, this`plateauMswd, this`plateauMswdValid
      ensures errorKinds == old(errorKinds)[attr := ek]
      ensures (v, k) == GetPreferredOf(CurrentSettings(), attr, kind, ek, plateauSteps)
      ensures plateauSteps ==
        if DispatchKey(kind) == "plateau_else_valid_integrated"
        then StepsAfter(PlateauOutcomeWith(CurrentSettings()), old(plateauSteps))
        else old(plateauSteps)
      ensures DispatchKey(kind) != "plateau_else_valid_integrated" ==>
        && plateauStepsStr == old(plateauStepsStr) && nsteps == old(nsteps)
        && plateauMswd == old(plateauMswd) && plateauMswdValid == old(plateauMswdValid)
    {
      errorKinds := errorKinds[attr := ek];
      if DispatchKey(kind) == "plateau_else_valid_integrated" {
        v, k := PlateauElseValidIntegrated(attr);
      } else {
        v, k := StatelessPreferred(attr, kind, ek);
      }
    }

    /** The Plateau else Valid Integrated branch: the plateau is computed,
        and a truthy plateau age integrates over the plateau window, anything
        else over the valid steps. */
    method PlateauElseValidIntegrated(attr: string) returns (v: UFloat, k: string)
      requires Lawful(rt)
      modifies this`plateauSteps, this`plateauStepsStr, this`nsteps, this`plateauMswd, this`plateauMswdValid
      ensures plateauSteps == StepsAfter(PlateauOutcomeWith(CurrentSettings()), old(plateauSteps))
      ensures TruthyAge(PlateauAgeWith(CurrentSettings())) ==>
        && PlateauOutcomeWith(CurrentSettings()).Found?
        && plateauSteps == Some(PlateauOutcomeWith(CurrentSettings()).summary.steps)
        && v == IntegratedOf(attr, PlateauWindow, plateauSteps) && k == C.PLATEAU
      ensures !TruthyAge(PlateauAgeWith(CurrentSettings())) ==>
        v == IntegratedOf(attr, ValidSteps, plateauSteps) && k == "Valid"
    {
      var pa := CalculatePlateau();
      if TruthyAge(pa) {
        k := C.PLATEAU;
        v := IntegratedOf(attr, PlateauWindow, plateauSteps);
      } else {
        k := "Valid";
        v := IntegratedOf(attr, ValidSteps, plateauSteps);
      }
    }

    /** The branches of `_get_preferred_` that change no state. */
    method StatelessPreferred(attr: string, kind: string, ek: string) returns (v: UFloat, k: string)
      requires Lawful(rt)
      requires DispatchKey(kind) != "plateau_else_valid_integrated"
      ensures (v, k) == GetPreferredOf(CurrentSettings(), attr, kind, ek, plateauSteps)
      ensures k == kind
    {
      var key := DispatchKey(kind);
      var st := CurrentSettings();
      k := kind;
      if key == "weighted_mean" {
        v := WeightedMeanOf(st, attr, ek);
      } else if key == "valid_integrated" {
        v := IntegratedOf(attr, ValidSteps, plateauSteps);
      } else if key == "total_integrated" {
        v := IntegratedOf(attr, AllSteps, plateauSteps);
      } else if key == "plateau_integrated" {
        v := IntegratedOf(attr, PlateauWindow, plateauSteps);
      } else {
        v := ArithmeticMeanOf(st, attr, ek);
      }
    }

    /** The age record at `i` holds the preferred age resolved in the
        current state. */
    ghost predicate AgeResolved(i: nat)
      reads this`preferredValues, this`errorKinds, this`plateauSteps
      reads this`includeJErrorInIndividualAnalyses, this`includeJErrorInMean, this`isochronAgeErrorKind, this`plateauAgeErrorKind
      reads this`plateauNsteps, this`plateauGasFraction, this`plateauOverlapSigma, this`fixedStepLow, this`fixedStepHigh
      requires Valid() && i < |preferredValues|
    {
      var pv := preferredValues[i];
      var res := PreferredAgeOf(CurrentSettings(), pv.kind, ErrorKind("age"), plateauSteps);
      pv.value == Nominal(res.0) && pv.error == StdDev(res.0) && pv.computedKind == res.1
    }

    /** The record at `i` holds `_get_preferred_` of its attribute, kind and
        error kind in the current state. */
    ghost predicate OtherResolved(i: nat)
      reads this`preferredValues, this`plateauSteps
      reads this`includeJErrorInIndividualAnalyses, this`includeJErrorInMean, this`isochronAgeErrorKind, this`plateauAgeErrorKind
      reads this`plateauNsteps, this`plateauGasFraction, this`plateauOverlapSigma, this`fixedStepLow, this`fixedStepHigh
      requires Valid() && i < |preferredValues|
    {
      RecordResolved(preferredValues[i], CurrentSettings(), plateauSteps)
    }

    /** `pv` holds `_get_preferred_` of its attribute, kind and error kind
        under the settings `st` with `steps` as the recorded plateau window. */
    ghost predicate RecordResolved(pv: PreferredValue, st: Settings, steps: Option<(nat, nat)>)
      requires Lawful(rt)
    {
      var res := GetPreferredOf(st, pv.attr, pv.kind, pv.errorKind, steps);
      pv.value == Some(res.0.v) && pv.error == res.0.e && pv.computedKind == res.1
    }

    /** The record at `i` holds what resolving it in the current state gives. */
    ghost predicate Resolved(i: nat)
      reads this`preferredValues, this`errorKinds, this`plateauSteps
      reads this`includeJErrorInIndividualAnalyses, this`includeJErrorInMean, this`isochronAgeErrorKind, this`plateauAgeErrorKind
      reads this`plateauNsteps, this`plateauGasFraction, this`plateauOverlapSigma, this`fixedStepLow, this`fixedStepHigh
      requires Valid() && i < |preferredValues|
    {
      if preferredValues[i].attr == "age" then AgeResolved(i) else OtherResolved(i)
    }

    /** The first half of the handler for the age record: a kind naming
        Plateau sets the plateau error kind (and, unless it is exactly
        Plateau, the age error kind too), any other kind sets the age error
        kind. */
    method AgeErrorKindsChanged()
      requires level == Interpreted && Valid()
      modifies this`errorKinds, this`plateauAgeErrorKind
      ensures var pv := preferredValues[0];
        && plateauAgeErrorKind == (if Contains(pv.kind, "Plateau") then pv.errorKind else old(plateauAgeErrorKind))
        && errorKinds == (if pv.kind == C.PLATEAU then old(errorKinds) else old(errorKinds)["age" := pv.errorKind])
    {
      var pv := preferredValues[0];
      ContainsSelf(C.PLATEAU);
      if Contains(pv.kind, "Plateau") {
        plateauAgeErrorKind := pv.errorKind;
        if pv.kind != "Plateau" {
          errorKinds := errorKinds["age" := pv.errorKind];
        }
      } else {
        errorKinds := errorKinds["age" := pv.errorKind];
      }
    }

    /** The second half: the preferred age is resolved and its value and
        error stored in the age record. */
    method ResolveAge()
      requires level == Interpreted && Valid()
      modifies this`preferredValues
      modifies this`plateauSteps, this`plateauStepsStr, this`nsteps, this`plateauMswd, this`plateauMswdValid
      modifies this`isochron4036, this`isochronMswd
      ensures Valid()
      ensures preferredValues[1..] == old(preferredValues[1..])
      ensures var pv := old(preferredValues[0]);
        preferredValues[0].(value := pv.value, error := pv.error, computedKind := pv.computedKind) == pv
      ensures AgeResolved(0)
    {
      var v := PreferredAge();
      StoreAge(v);
    }

    /** Writes the resolved preferred age into the age record. */
    method StoreAge(v: Option<UFloat>)
      requires level == Interpreted && Valid()
      requires var res := PreferredAgeOf(CurrentSettings(), preferredValues[0].kind, ErrorKind("age"), plateauSteps);
        v == res.0 && preferredValues[0].computedKind == res.1
      modifies this`preferredValues
      ensures Valid()
      ensures preferredValues == old(preferredValues)[0 := old(preferredValues[0]).(value := Nominal(v), error := StdDev(v))]
      ensures AgeResolved(0)
    {
      preferredValues := preferredValues[0 := preferredValues[0].(value := Nominal(v), error := StdDev(v))];
    }

    /** The handler for any other record: `_get_preferred_` resolves it. */
    method OtherKindChanged(i: nat)
      requires level == Interpreted && Valid() && 0 < i < |preferredValues|
      modifies this`preferredValues, this`errorKinds
      modifies this`plateauSteps, this`plateauStepsStr, this`nsteps, this`plateauMswd, this`plateauMswdValid
      ensures Valid()
      ensures |preferredValues| == old(|preferredValues|)
      ensures forall j :: 0 <= j < |preferredValues| && j != i ==> preferredValues[j] == old(preferredValues[j])
      ensures var pv := old(preferredValues[i]);
        preferredValues[i].(value := pv.value, error := pv.error, computedKind := pv.computedKind) == pv
      ensures errorKinds == old(errorKinds)[old(preferredValues[i]).attr := old(preferredValues[i]).errorKind]
      ensures OtherResolved(i)
      ensures DispatchKey(old(preferredValues[i]).kind) != "plateau_else_valid_integrated" ==>
        && plateauSteps == old(plateauSteps) && plateauStepsStr == old(plateauStepsStr) && nsteps == old(nsteps)
        && plateauMswd == old(plateauMswd) && plateauMswdValid == old(plateauMswdValid)
    {
      var pv := preferredValues[i];
      var v, k := GetPreferred(pv.attr, pv.kind, pv.errorKind);
      StoreResolution(i, v, k);
    }

    /** Writes a resolved value and kind into the record at `i`. */
    method StoreResolution(i: nat, v: UFloat, k: string)
      requires Valid() && i < |preferredValues|
      requires (v, k) == GetPreferredOf(CurrentSettings(), preferredValues[i].attr, preferredValues[i].kind, preferredValues[i].errorKind, plateauSteps)
      modifies this`preferredValues
      ensures Valid()
      ensures |preferredValues| == old(|preferredValues|)
      ensures forall j :: 0 <= j < |preferredValues| && j != i ==> preferredValues[j] == old(preferredValues[j])
      ensures var pv := old(preferredValues[i]);
        preferredValues[i].(value := pv.value, error := pv.error, computedKind := pv.computedKind) == pv
      ensures OtherResolved(i)
    {
      var pv := preferredValues[i];
      preferredValues := preferredValues[i := pv.(value := Some(v.v), error := v.e, computedKind := k)];
      assert preferredValues[i].attr == pv.attr && preferredValues[i].kind == pv.kind && preferredValues[i].errorKind == pv.errorKind;
    }

    /** The handler for a change of a record's kind or error kind, or of its
        dirty flag. Afterwards the record holds its own resolution. */
    method PreferredKindChanged(i: nat)
      requires level == Interpreted && Valid() && i < |preferredValues|
      modifies this`preferredValues, this`errorKinds, this`plateauAgeErrorKind
      modifies this`plateauSteps, this`plateauStepsStr, this`nsteps, this`plateauMswd, this`plateauMswdValid
      modifies this`isochron4036, this`isochronMswd
      ensures Valid()
      ensures |preferredValues| == old(|preferredValues|)
      ensures forall j :: 0 <= j < |preferredValues| && j != i ==> preferredValues[j] == old(preferredValues[j])
      ensures var pv := old(preferredValues[i]);
        preferredValues[i].(value := pv.value, error := pv.error, computedKind := pv.computedKind) == pv
      ensures Resolved(i)
    {
      if preferredValues[i].attr == "age" {
        assert i == 0;
        AgeErrorKindsChanged();
        ResolveAge();
      } else {
        OtherKindChanged(i);
      }
    }

    /** `set_preferred_kind(attr, k, ek)`: the error kind and then the kind are
        set, each firing the handler when it changes, and the dirty flag fires
        it once more. */
    method SetPreferredKind(attr: string, k: string, ek: string)
      requires level == Interpreted && Valid() && attr in C.SUBGROUPING_ATTRS
      modifies this`preferredValues, this`errorKinds, this`plateauAgeErrorKind
      modifies this`plateauSteps, this`plateauStepsStr, this`nsteps, this`plateauMswd, this`plateauMswdValid
      modifies this`isochron4036, this`isochronMswd
      ensures Valid()
      ensures forall j :: 0 <= j < |preferredValues| && j != PvIndex(attr) ==> preferredValues[j] == old(preferredValues[j])
      ensures preferredValues[PvIndex(attr)].kind == k && preferredValues[PvIndex(attr)].errorKind == ek
      ensures preferredValues[PvIndex(attr)].kinds == old(preferredValues[PvIndex(attr)].kinds)
      ensures Resolved(PvIndex(attr))
    {
      var i := PvIndex(attr);
      SetErrorKindOf(i, ek);
      SetKindOf(i, k);
      PreferredKindChanged(i);
    }

    /** Assigning the error kind of the record at `i`, which fires the
        handler when the error kind changes. */
    method SetErrorKindOf(i: nat, ek: string)
      requires level == Interpreted && Valid() && i < |preferredValues|
      modifies this`preferredValues, this`errorKinds, this`plateauAgeErrorKind
      modifies this`plateauSteps, this`plateauStepsStr, this`nsteps, this`plateauMswd, this`plateauMswdValid
      modifies this`isochron4036, this`isochronMswd
      ensures Valid()
      ensures |preferredValues| == old(|preferredValues|)
      ensures forall j :: 0 <= j < |preferredValues| && j != i ==> preferredValues[j] == old(preferredValues[j])
      ensures preferredValues[i].kind == old(preferredValues[i].kind) && preferredValues[i].errorKind == ek
      ensures preferredValues[i].kinds == old(preferredValues[i].kinds)
    {
      var pv := preferredValues[i];
      preferredValues := preferredValues[i := pv.(errorKind := ek)];
      if pv.errorKind != ek {
        PreferredKindChanged(i);
      }
    }

    /** Assigning the kind of the record at `i`, which fires the handler
        when the kind changes. */
    method SetKindOf(i: nat, k: string)
      requires level == Interpreted && Valid() && i < |preferredValues|
      modifies this`preferredValues, this`errorKinds, this`plateauAgeErrorKind
      modifies this`plateauSteps, this`plateauStepsStr, this`nsteps, this`plateauMswd, this`plateauMswdValid
      modifies this`isochron4036, this`isochronMswd
      ensures Valid()
      ensures |preferredValues| == old(|preferredValues|)
      ensures forall j :: 0 <= j < |preferredValues| && j != i ==> preferredValues[j] == old(preferredValues[j])
      ensures preferredValues[i].kind == k && preferredValues[i].errorKind == old(preferredValues[i].errorKind)
      ensures preferredValues[i].kinds == old(preferredValues[i].kinds)
    {
      var pv := preferredValues[i];
      preferredValues := preferredValues[i := pv.(kind := k)];
      if pv.kind != k {
        PreferredKindChanged(i);
      }
    }

    /** `set_preferred_age(pk, ek)`. */
    method SetPreferredAge(pk: string, ek: string)
      requires level == Interpreted && Valid()
      modifies this`preferredValues, this`errorKinds, this`plateauAgeErrorKind
      modifies this`plateauSteps, this`plateauStepsStr, this`nsteps, this`plateauMswd, this`plateauMswdValid
      modifies this`isochron4036, this`isochronMswd
      ensures Valid()
      ensures preferredValues[0].kind == pk && preferredValues[0].errorKind == ek
      ensures preferredValues[1..] == old(preferredValues[1..])
      ensures Resolved(0)
    {
      assert PvIndex("age") == 0;
      SetPreferredKind("age", pk, ek);
      assert forall j :: 0 <= j < |preferredValues| - 1 ==> preferredValues[1..][j] == old(preferredValues[1..])[j];
    }

    /** The records below `k` hold the kinds `PreferredKindsFor` chooses. */
    ghost predicate KindsSetBelow(k: nat, naliquots: nat, sg: Option<map<string, string>>)
      reads this`preferredValues
      requires Valid() && level == Interpreted && k <= |preferredValues|
    {
      forall j :: 0 <= j < k ==>
        var kinds := PreferredKindsFor(C.SUBGROUPING_ATTRS[j], naliquots, sg);
        preferredValues[j].kind == kinds.0 && preferredValues[j].errorKind == kinds.1
    }

    /** `set_preferred_kinds(sg)`: every record gets the kind and error kind
        `PreferredKindsFor` chooses, for the number of distinct aliquots. */
    method SetPreferredKinds(sg: Option<map<string, string>>)
      requires level == Interpreted && Valid()
      modifies this`preferredValues, this`errorKinds, this`plateauAgeErrorKind
      modifies this`plateauSteps, this`plateauStepsStr, this`nsteps, this`plateauMswd, this`plateauMswdValid
      modifies this`isochron4036, this`isochronMswd
      ensures Valid()
      ensures forall j :: 0 <= j < |preferredValues| ==>
        var kinds := PreferredKindsFor(C.SUBGROUPING_ATTRS[j], |Aliquots(analyses)|, sg);
        preferredValues[j].kind == kinds.0 && preferredValues[j].errorKind == kinds.1
    {
      var naliquots := |Aliquots(analyses)|;
      var k := 0;
      while k < |C.SUBGROUPING_ATTRS|
        invariant 0 <= k <= |C.SUBGROUPING_ATTRS|
        invariant Valid()
        invariant KindsSetBelow(k, naliquots, sg)
      {
        SetKindsAt(k, naliquots, sg);
        k := k + 1;
      }
    }

    /** One step of `set_preferred_kinds`: the `k`-th record gets its kinds
        and the records before it keep theirs. */
    method SetKindsAt(k: nat, naliquots: nat, sg: Option<map<string, string>>)
      requires level == Interpreted && Valid() && k < |C.SUBGROUPING_ATTRS|
      requires KindsSetBelow(k, naliquots, sg)
      modifies this`preferredValues, this`errorKinds, this`plateauAgeErrorKind
      modifies this`plateauSteps, this`plateauStepsStr, this`nsteps, this`plateauMswd, this`plateauMswdValid
      modifies this`isochron4036, this`isochronMswd
      ensures Valid()
      ensures KindsSetBelow(k + 1, naliquots, sg)
    {
      var attr := C.SUBGROUPING_ATTRS[k];
      var kinds := PreferredKindsFor(attr, naliquots, sg);
      PvIndexOf(k);
      ghost var before := preferredValues;
      SetPreferredKind(attr, kinds.0, kinds.1);
      assert forall j :: 0 <= j < k ==> preferredValues[j] == before[j];
    }

    /** `has_subgroups(analyses)`: applies `SubgroupKinds` to every record in
        order; a record whose kind changes fires the handler, which resolves
        it and sets its attribute's error kind. */
    method HasSubgroups()
      requires level == Interpreted && Valid()
      modifies this`preferredValues, this`errorKinds
      modifies this`plateauSteps, this`plateauStepsStr, this`nsteps, this`plateauMswd, this`plateauMswdValid
      ensures Valid()
      ensures SubgroupsUpTo(|preferredValues|, old(preferredValues), HasNestedGroup(analyses), CurrentSettings(), old(errorKinds))
      ensures plateauSteps == old(plateauSteps) && plateauStepsStr == old(plateauStepsStr) && nsteps == old(nsteps)
      ensures plateauMswd == old(plateauMswd) && plateauMswdValid == old(plateauMswdValid)
    {
      var hs := HasNestedGroup(analyses);
      ghost var before, st := preferredValues, CurrentSettings();
      var i := 0;
      while i < |preferredValues|
        invariant 0 <= i <= |preferredValues|
        invariant Valid()
        invariant SubgroupsUpTo(i, before, hs, st, old(errorKinds))
        invariant plateauSteps == old(plateauSteps) && plateauStepsStr == old(plateauStepsStr) && nsteps == old(nsteps)
        invariant plateauMswd == old(plateauMswd) && plateauMswdValid == old(plateauMswdValid)
      {
        SubgroupStep(i, hs, before, st, old(errorKinds));
        i := i + 1;
      }
    }

    /** The first `i` records of `before` have been through `has_subgroups`
        under the settings `st`, starting from the error kinds `ek0`, and the
        rest are untouched. */
    ghost predicate SubgroupsUpTo(i: nat, before: seq<PreferredValue>, hs: bool, st: Settings, ek0: map<string, string>)
      reads this`preferredValues, this`errorKinds, this`plateauSteps
      requires Lawful(rt)
    {
      && i <= |before| == |preferredValues|
      && (forall j :: 0 <= j < i ==> SubgroupApplied(before[j], preferredValues[j], hs, st, plateauSteps))
      && (forall j :: i <= j < |preferredValues| ==> preferredValues[j] == before[j])
      && errorKinds == FiredErrorKinds(ek0, before, hs, i)
    }

    /** A new group of groups once `has_subgroups` has run: every record but
        the age changed kind, to the weighted or the arithmetic mean, and
        holds what `_get_preferred_` gives for it. */
    lemma NestedInitialResolved(st: Settings)
      requires level == Interpreted && Valid() && HasNestedGroup(analyses)
      requires SubgroupsUpTo(|preferredValues|, InitialRecords(), true, st, DefaultErrorKinds)
      ensures forall i :: 0 < i < |preferredValues| ==>
        && (preferredValues[i].kind == C.WEIGHTED_MEAN || preferredValues[i].kind == C.ARITHMETIC_MEAN)
        && RecordResolved(preferredValues[i], st, plateauSteps)
    {
      forall i | 0 < i < |preferredValues|
        ensures preferredValues[i].kind == C.WEIGHTED_MEAN || preferredValues[i].kind == C.ARITHMETIC_MEAN
        ensures RecordResolved(preferredValues[i], st, plateauSteps)
      {
        PvIndexOf(i);
        assert C.SUBGROUPING_ATTRS[i] != "age";
        assert SubgroupApplied(InitialRecords()[i], preferredValues[i], true, st, plateauSteps);
      }
    }

    /** A new group without nested groups once `has_subgroups` has run: no
        handler fired, so the records and error kinds are the initial ones,
        each record but the age offering the subgroup kinds. */
    lemma FlatInitialUnchanged(st: Settings)
      requires level == Interpreted && Valid() && !HasNestedGroup(analyses)
      requires SubgroupsUpTo(|preferredValues|, InitialRecords(), false, st, DefaultErrorKinds)
      ensures errorKinds == DefaultErrorKinds
      ensures forall i :: 0 <= i < |preferredValues| ==>
        preferredValues[i] == InitialPreferred(C.SUBGROUPING_ATTRS[i]).(kinds := if i == 0 then [] else C.SUBGROUPINGS)
    {
      FiredNone(DefaultErrorKinds, InitialRecords(), |preferredValues|);
    }

    /** One iteration of `has_subgroups`. */
    method SubgroupStep(i: nat, hs: bool, ghost before: seq<PreferredValue>, ghost st: Settings, ghost ek0: map<string, string>)
      requires level == Interpreted && Valid() && i < |preferredValues|
      requires SubgroupsUpTo(i, before, hs, st, ek0) && CurrentSettings() == st
      modifies this`preferredValues, this`errorKinds
      modifies this`plateauSteps, this`plateauStepsStr, this`nsteps, this`plateauMswd, this`plateauMswdValid
      ensures Valid() && SubgroupsUpTo(i + 1, before, hs, st, ek0)
      ensures plateauSteps == old(plateauSteps) && plateauStepsStr == old(plateauStepsStr) && nsteps == old(nsteps)
      ensures plateauMswd == old(plateauMswd) && plateauMswdValid == old(plateauMswdValid)
    {
      SubgroupAt(i, hs);
    }

    /** `after` is what `has_subgroups` makes of `before`: its subgroup
        kinds, resolved when its kind changed. */
    ghost predicate SubgroupApplied(before: PreferredValue, after: PreferredValue, hs: bool, st: Settings, steps: Option<(nat, nat)>)
      requires Lawful(rt)
    {
      && Choices(after) == Choices(SubgroupKinds(before, hs))
      && (after.kind == before.kind ==> after == SubgroupKinds(before, hs))
      && (after.kind != before.kind ==> RecordResolved(after, st, steps))
    }

    /** One step of `has_subgroups`: the record at `i` gets its subgroup
        kinds, and the handler resolves it when its kind changed. */
    method SubgroupAt(i: nat, hs: bool)
      requires level == Interpreted && Valid() && i < |preferredValues|
      modifies this`preferredValues, this`errorKinds
      modifies this`plateauSteps, this`plateauStepsStr, this`nsteps, this`plateauMswd, this`plateauMswdValid
      ensures Valid()
      ensures forall j :: 0 <= j < |preferredValues| && j != i ==> preferredValues[j] == old(preferredValues[j])
      ensures SubgroupApplied(old(preferredValues[i]), preferredValues[i], hs, CurrentSettings(), plateauSteps)
      ensures errorKinds == if preferredValues[i].kind == old(preferredValues[i].kind) then old(errorKinds)
        else old(errorKinds)[old(preferredValues[i]).attr := old(preferredValues[i]).errorKind]
      ensures plateauSteps == old(plateauSteps) && plateauStepsStr == old(plateauStepsStr) && nsteps == old(nsteps)
      ensures plateauMswd == old(plateauMswd) && plateauMswdValid == old(plateauMswdValid)
    {
      var pv := preferredValues[i];
      var npv := SubgroupKinds(pv, hs);
      preferredValues := preferredValues[i := npv];
      if npv.kind != pv.kind {
        assert i != 0 && |DispatchKey(npv.kind)| < |"plateau_else_valid_integrated"|;
        OtherKindChanged(i);
      }
    }
  }
}
