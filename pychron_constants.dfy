/** The enumerations the analysis-group engine dispatches on, the detector
    ordering, and the MSWD formatter. */
module PychronConstants {
  import opened Text

  // error kinds
  const SE := "SE"
  const SD := "SD"
  const SEM := "SEM"
  const MSEM := "SEM, but if MSWD>1 use SEM * sqrt(MSWD)"
  const MSE := "SE but if MSWD>1 use SE * sqrt(MSWD)"

  const ERROR_TYPES: seq<string> := [MSEM, SEM, SD]

  // preferred-value kinds
  const WEIGHTED_MEAN := "Weighted Mean"
  const PLATEAU := "Plateau"
  const INTEGRATED := "Total Integrated"
  const DEFAULT_INTEGRATED := PLATEAU + " else Valid Integrated"
  const VALID_INTEGRATED := "Valid Integrated"
  const PLATEAU_INTEGRATED := PLATEAU + " Integrated"
  const ARITHMETIC_MEAN := "Arithmetic Mean"
  const PLATEAU_ELSE_WEIGHTED_MEAN := "Plateau else Weighted Mean"
  const ISOCHRON := "Isochron"
  const ISOCHRON_PLATEAU := ISOCHRON + " of " + PLATEAU + " Steps"

  const AGE_SUBGROUPINGS: seq<string> :=
    [PLATEAU_ELSE_WEIGHTED_MEAN, WEIGHTED_MEAN, INTEGRATED, VALID_INTEGRATED, PLATEAU_INTEGRATED,
     DEFAULT_INTEGRATED, ARITHMETIC_MEAN, PLATEAU, ISOCHRON, ISOCHRON_PLATEAU]
  const SUBGROUPINGS: seq<string> :=
    [WEIGHTED_MEAN, INTEGRATED, VALID_INTEGRATED, PLATEAU_INTEGRATED, DEFAULT_INTEGRATED, ARITHMETIC_MEAN]

  const SUBGROUPING_ATTRS: seq<string> :=
    ["age", "kca", "kcl", "radiogenic_yield", "moles_k39", "signal_k39"]

  // analysis tags that exclude an analysis
  const OMIT := "omit"
  const INVALID := "invalid"
  const OUTLIER := "outlier"
  const SKIP := "skip"
  const EXCLUDE_TAGS: seq<string> := [OMIT, INVALID, OUTLIER, SKIP]

  const INVALID_MSWD_CHR := '*'

  const DETECTOR_ORDER: seq<string> := ["H2", "H1", "AX", "L1", "L2", "CDD"]
  const DETECTOR_MAP: map<string, nat> := IndexMap(DETECTOR_ORDER)

  /** No two positions of `s` hold the same item. */
  predicate Distinct<T(==)>(s: seq<T>)
  {
    forall i, j :: 0 <= i < j < |s| ==> s[i] != s[j]
  }

  /** The dictionary `{o: i for i, o in enumerate(s)}`: a later occurrence of an
      item overwrites an earlier one, as a dict comprehension does. */
  function IndexMap<T>(s: seq<T>): (m: map<T, nat>)
    ensures m.Keys == set x | x in s
  {
    if s == [] then map[] else IndexMap(s[..|s| - 1])[s[|s| - 1] := |s| - 1]
  }

  /** Over distinct items the comprehension maps every item to its own position,
      and every value it holds is such a position. */
  lemma {:induction false} IndexMapPositions<T>(s: seq<T>)
    requires Distinct(s)
    ensures forall i :: 0 <= i < |s| ==> IndexMap(s)[s[i]] == i
    ensures forall x :: x in IndexMap(s) ==> IndexMap(s)[x] < |s| && s[IndexMap(s)[x]] == x
  {
    if s != [] {
      var p := s[..|s| - 1];
      assert Distinct(p);
      IndexMapPositions(p);
      forall i | 0 <= i < |p|
        ensures p[i] != s[|s| - 1]
      {
        assert s[i] == p[i];
      }
    }
  }

  /** `DETECTOR_MAP[DETECTOR_ORDER[i]] == i`, and the map is a bijection from the
      six detectors onto 0..5. */
  lemma DetectorMapBijection()
    ensures DETECTOR_MAP.Keys == set d | d in DETECTOR_ORDER
    ensures forall i :: 0 <= i < |DETECTOR_ORDER| ==> DETECTOR_MAP[DETECTOR_ORDER[i]] == i
    ensures forall d :: d in DETECTOR_MAP ==> DETECTOR_MAP[d] < 6 && DETECTOR_ORDER[DETECTOR_MAP[d]] == d
  {
    assert Distinct(DETECTOR_ORDER);
    IndexMapPositions(DETECTOR_ORDER);
  }

  /** `ERROR_TYPES` is exactly [MSEM, SEM, SD], three distinct kinds, the first
      being the MSWD-inflated standard error of the mean. */
  lemma ErrorTypes()
    ensures ERROR_TYPES == [MSEM, SEM, SD] && Distinct(ERROR_TYPES)
    ensures StartsWith(MSEM, SEM) && MSEM != SEM
  {
    assert MSEM[0] == 'S' && MSEM[1] == 'E' && MSEM[2] == 'M';
    assert MSEM[..|SEM|] == SEM;
  }

  /** The subgroup kinds are age kinds, and Plateau, Isochron and
      Plateau else Weighted Mean are not among them. */
  lemma SubgroupingsAreAgeKinds()
    ensures forall k :: k in SUBGROUPINGS ==> k in AGE_SUBGROUPINGS
    ensures PLATEAU !in SUBGROUPINGS && ISOCHRON !in SUBGROUPINGS && PLATEAU_ELSE_WEIGHTED_MEAN !in SUBGROUPINGS
  {
  }

  /** The `include_tag` argument of `format_mswd`: a string, or any other value,
      of which only its truth value matters. */
  datatype IncludeTag = TagText(text: string) | TagValue(truthy: bool)

  /** The prefix `format_mswd` writes for `include_tag`. */
  function MswdTag(t: IncludeTag): (r: string)
    ensures t.TagText? ==> r == t.text
    ensures t.TagValue? ==> (r == "" <==> !t.truthy)
    ensures t.TagValue? && t.truthy ==> r == "MSWD="
  {
    match t
    case TagText(s) => s
    case TagValue(b) => if b then "MSWD=" else ""
  }

  /** `format_mswd(m, v, n, include_tag)`; `floatfmt` is the number formatter
      the source imports, given as a parameter. */
  function FormatMswd(m: real, v: bool, n: int, includeTag: IncludeTag, floatfmt: (real, int) -> string): (r: string)
    ensures StartsWith(r, MswdTag(includeTag))
    ensures r[|MswdTag(includeTag)|..] == [INVALID_MSWD_CHR] + floatfmt(m, n) <==> !v
    ensures r[|MswdTag(includeTag)|..] == floatfmt(m, n) <==> v
  {
    var tag := MswdTag(includeTag);
    var r := tag + (if v then "" else [INVALID_MSWD_CHR]) + floatfmt(m, n);
    assert r[|tag|..] == (if v then "" else [INVALID_MSWD_CHR]) + floatfmt(m, n);
    r
  }
}
