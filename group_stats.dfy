/** The value-level rules of the analysis-group reduction engine: which
    analyses a group uses, how means and their errors are formed, the MSWD and
    J-error rules, integrated ratios and ages, plateau bookkeeping and argon-39
    fractions. The statistics routines the engine calls (weighted mean, MSWD,
    plateau search, isochron regression, age equation) are parameters. */
module GroupStats {
  import opened Wrappers
  import opened Text
  import opened Uncertain
  import C = PychronConstants

  /** One member of a group, as the group reads it. */
  datatype Analysis = Analysis(
    omitted: bool,                    // is_omitted()
    isInterpretedGroup: bool,         // the member is itself an interpreted-age group
    aliquot: int,
    values: map<string, UFloat>,      // get_value(attr); a missing key is None
    age: real,
    ageErr: real,
    k39: UFloat,                      // get_computed_value('k39')
    rad40: UFloat,                    // get_computed_value('rad40'), also the rad40 attribute
    total40: UFloat,
    ca37: UFloat,                     // get_non_ar_isotope('ca37')
    cl38: UFloat,                     // get_non_ar_isotope('cl38')
    molesK39: UFloat,
    j: Option<UFloat>,
    productionRatios: map<string, real>,
    ararConstants: nat)               // identifies the analysis's ArAr constants

  datatype PlateauOptions = PlateauOptions(nsteps: int, gasFraction: real, overlapSigma: int, fixedSteps: (string, string))

  /** What the plateau search returns: the plateau age, its error and the first
      and last step of the window. */
  datatype PlateauFit = PlateauFit(age: real, error: real, start: nat, end: nat)

  /** What the isochron regression returns: the age, the trapped 40/36 ratio and
      the regression's MSWD. */
  datatype IsochronFit = IsochronFit(age: UFloat, ar4036: UFloat, mswd: real)

  /** The routines the engine imports and the `ALPHAS` step labels. */
  datatype Routines = Routines(
    sqrt: real -> real,
    weightedMean: (seq<real>, seq<real>) -> (real, real),           // calculate_weighted_mean(vs, es)
    mswd: (seq<real>, seq<real>, Option<real>) -> real,             // calculate_mswd(vs, es, wm)
    validateMswd: (real, int) -> bool,                              // validate_mswd(mswd, n)
    plateauAge: (seq<real>, seq<real>, seq<real>, PlateauOptions, seq<nat>) -> Option<PlateauFit>,
    isochron: (seq<Analysis>, string, seq<nat>) -> Option<IsochronFit>,
    ageEquation: (UFloat, Option<UFloat>, nat) -> UFloat,            // age_equation(ratio, j, constants)
    alphas: nat -> string)                                          // ALPHAS[i]

  /** The contracts of the routines: `sqrt` is the square root, and a plateau
      window ends at one of the steps it was given. */
  ghost predicate Lawful(rt: Routines)
  {
    && IsSqrt(rt.sqrt)
    && forall ages: seq<real>, errs: seq<real>, k39: seq<real>, opts: PlateauOptions, ex: seq<nat> ::
         rt.plateauAge(ages, errs, k39, opts, ex).Some? ==> rt.plateauAge(ages, errs, k39, opts, ex).value.end < |ages|
  }

  // ----- selecting analyses -----

  /** The indices below `n` that satisfy `p`, in increasing order. */
  function Indices(n: nat, p: nat -> bool): (r: seq<nat>)
    ensures forall k :: 0 <= k < |r| ==> r[k] < n && p(r[k])
    ensures forall k, l :: 0 <= k < l < |r| ==> r[k] < r[l]
    ensures forall i :: 0 <= i < n && p(i) ==> i in r
  {
    if n == 0 then [] else Indices(n - 1, p) + (if p(n - 1) then [n - 1] else [])
  }

  /** Indices taken with predicates that agree below `n` are the same. */
  lemma {:induction false} IndicesAgree(n: nat, p: nat -> bool, q: nat -> bool)
    requires forall i :: 0 <= i < n ==> p(i) == q(i)
    ensures Indices(n, p) == Indices(n, q)
  {
    if n > 0 {
      IndicesAgree(n - 1, p, q);
    }
  }

  /** The items of `s` at the positions `idx`, in that order. */
  function Pick<T>(s: seq<T>, idx: seq<nat>): (r: seq<T>)
    requires forall k :: 0 <= k < |idx| ==> idx[k] < |s|
    ensures |r| == |idx| && forall k :: 0 <= k < |idx| ==> r[k] == s[idx[k]]
  {
    seq(|idx|, k requires 0 <= k < |idx| => s[idx[k]])
  }

  lemma PickAppend<T>(s: seq<T>, idx: seq<nat>, i: nat)
    requires forall k :: 0 <= k < |idx| ==> idx[k] < |s|
    requires i < |s|
    ensures Pick(s, idx + [i]) == Pick(s, idx) + [s[i]]
  {
  }

  /** `a` is `b` with some items left out, in the order of `b`. */
  predicate IsSubseq<T(==)>(a: seq<T>, b: seq<T>)
  {
    if a == [] then true
    else if b == [] then false
    else (a[|a| - 1] == b[|b| - 1] && IsSubseq(a[..|a| - 1], b[..|b| - 1])) || IsSubseq(a, b[..|b| - 1])
  }

  lemma SubseqBothExtended<T>(a: seq<T>, b: seq<T>, x: T)
    requires IsSubseq(a, b)
    ensures IsSubseq(a + [x], b + [x])
  {
    assert (a + [x])[..|a|] == a;
    assert (b + [x])[..|b|] == b;
  }

  lemma SubseqRightExtended<T>(a: seq<T>, b: seq<T>, x: T)
    requires IsSubseq(a, b)
    ensures IsSubseq(a, b + [x])
  {
    assert (b + [x])[..|b|] == b;
  }

  /** A subsequence is no longer than the sequence it is taken from. */
  lemma {:induction false} SubseqLength<T>(a: seq<T>, b: seq<T>)
    requires IsSubseq(a, b)
    ensures |a| <= |b|
  {
    if a != [] {
      if a[|a| - 1] == b[|b| - 1] && IsSubseq(a[..|a| - 1], b[..|b| - 1]) {
        SubseqLength(a[..|a| - 1], b[..|b| - 1]);
      } else {
        SubseqLength(a, b[..|b| - 1]);
      }
    }
  }

  /** Picking one more index that the predicate accepts appends that item. */
  lemma PickIndicesIn<T>(s: seq<T>, n: nat, p: nat -> bool)
    requires 0 < n <= |s| && p(n - 1)
    ensures Pick(s, Indices(n, p)) == Pick(s, Indices(n - 1, p)) + [s[n - 1]]
  {
    PickAppend(s, Indices(n - 1, p), n - 1);
  }

  /** An index the predicate rejects adds nothing. */
  lemma PickIndicesOut<T>(s: seq<T>, n: nat, p: nat -> bool)
    requires 0 < n <= |s| && !p(n - 1)
    ensures Pick(s, Indices(n, p)) == Pick(s, Indices(n - 1, p))
  {
    assert Indices(n, p) == Indices(n - 1, p);
  }

  /** Selecting with a stronger predicate picks a subsequence of what a weaker
      one picks. */
  lemma {:induction false} PickIndicesSubseq<T>(s: seq<T>, n: nat, p: nat -> bool, q: nat -> bool)
    requires n <= |s|
    requires forall i :: 0 <= i < n && p(i) ==> q(i)
    ensures IsSubseq(Pick(s, Indices(n, p)), Pick(s, Indices(n, q)))
  {
    if n > 0 {
      PickIndicesSubseq(s, n - 1, p, q);
      PickIndicesSubseqStep(s, n, p, q);
    }
  }

  /** One step of `PickIndicesSubseq`: index n - 1 keeps the relation. */
  lemma PickIndicesSubseqStep<T>(s: seq<T>, n: nat, p: nat -> bool, q: nat -> bool)
    requires 0 < n <= |s| && (p(n - 1) ==> q(n - 1))
    requires IsSubseq(Pick(s, Indices(n - 1, p)), Pick(s, Indices(n - 1, q)))
    ensures IsSubseq(Pick(s, Indices(n, p)), Pick(s, Indices(n, q)))
  {
    var a := Pick(s, Indices(n - 1, p));
    var b := Pick(s, Indices(n - 1, q));
    if p(n - 1) {
      PickIndicesIn(s, n, p);
      PickIndicesIn(s, n, q);
      SubseqBothExtended(a, b, s[n - 1]);
    } else if q(n - 1) {
      PickIndicesOut(s, n, p);
      PickIndicesIn(s, n, q);
      SubseqRightExtended(a, b, s[n - 1]);
    } else {
      PickIndicesOut(s, n, p);
      PickIndicesOut(s, n, q);
    }
  }

  /** The membership test of `clean_analyses`: present and not omitted. */
  function IsClean(ans: seq<Analysis>): nat -> bool
  {
    (i: nat) => i < |ans| && !ans[i].omitted
  }

  /** `clean_analyses()`: the analyses that are not omitted, in group order. */
  function Clean(ans: seq<Analysis>): (r: seq<Analysis>)
    ensures forall a :: a in r ==> a in ans && !a.omitted
    ensures forall i :: 0 <= i < |ans| && !ans[i].omitted ==> ans[i] in r
  {
    var idx := Indices(|ans|, IsClean(ans));
    var r := Pick(ans, idx);
    assert forall i :: 0 <= i < |ans| && !ans[i].omitted ==> ans[i] in r by {
      forall i | 0 <= i < |ans| && !ans[i].omitted
        ensures ans[i] in r
      {
        assert IsClean(ans)(i);
        var k :| 0 <= k < |idx| && idx[k] == i;
        assert r[k] == ans[i];
      }
    }
    r
  }

  /** `get_is_plateau_step(i)`: a window is set, the analysis is not omitted and
      its index lies in the window. */
  predicate IsPlateauStep(ans: seq<Analysis>, steps: Option<(nat, nat)>, i: nat)
  {
    && steps.Some?
    && i < |ans|
    && !ans[i].omitted
    && steps.value.0 <= i <= steps.value.1
  }

  function PlateauTest(ans: seq<Analysis>, steps: Option<(nat, nat)>): nat -> bool
  {
    (i: nat) => IsPlateauStep(ans, steps, i)
  }

  /** `plateau_analyses()`: the clean analyses that are plateau steps. */
  function PlateauAnalyses(ans: seq<Analysis>, steps: Option<(nat, nat)>): (r: seq<Analysis>)
    ensures steps.None? ==> r == []
    ensures forall a :: a in r ==> a in ans && !a.omitted
  {
    if steps.None? then [] else Pick(ans, Indices(|ans|, PlateauTest(ans, steps)))
  }

  /** The plateau analyses are an order-preserving subsequence of the clean
      analyses. */
  lemma PlateauAnalysesSubseqOfClean(ans: seq<Analysis>, steps: Option<(nat, nat)>)
    ensures IsSubseq(PlateauAnalyses(ans, steps), Clean(ans))
  {
    if steps.Some? {
      PickIndicesSubseq(ans, |ans|, PlateauTest(ans, steps), IsClean(ans));
    }
  }

  // ----- values and means -----

  function HasValue(ans: seq<Analysis>, attr: string): nat -> bool
  {
    (i: nat) => i < |ans| && !ans[i].omitted && attr in ans[i].values
  }

  /** The values of `attr` at the positions `idx`, in that order. */
  function ValuesAt(ans: seq<Analysis>, attr: string, idx: seq<nat>): (r: seq<UFloat>)
    requires forall k :: 0 <= k < |idx| ==> idx[k] < |ans| && attr in ans[idx[k]].values
    ensures |r| == |idx| && forall k :: 0 <= k < |idx| ==> r[k] == ans[idx[k]].values[attr]
  {
    seq(|idx|, k requires 0 <= k < |idx| => ans[idx[k]].values[attr])
  }

  /** `_get_values(attr)`: the values of `attr` over the clean analyses that
      have one, in group order. */
  function Values(ans: seq<Analysis>, attr: string): (r: seq<UFloat>)
    ensures r == [] <==> forall i :: 0 <= i < |ans| && !ans[i].omitted ==> attr !in ans[i].values
    ensures forall i :: 0 <= i < |ans| && !ans[i].omitted && attr in ans[i].values ==> ans[i].values[attr] in r
  {
    var idx := Indices(|ans|, HasValue(ans, attr));
    var r := ValuesAt(ans, attr, idx);
    assert forall i :: 0 <= i < |ans| && !ans[i].omitted && attr in ans[i].values ==> ans[i].values[attr] in r by {
      forall i | 0 <= i < |ans| && !ans[i].omitted && attr in ans[i].values
        ensures ans[i].values[attr] in r
      {
        assert HasValue(ans, attr)(i);
        var k :| 0 <= k < |idx| && idx[k] == i;
        assert r[k] == ans[i].values[attr];
      }
    }
    assert r != [] ==> HasValue(ans, attr)(idx[0]);
    r
  }

  /** The analyses that are not omitted, by recursion over the group: the
      filter of `clean_analyses`. */
  function Unomitted(ans: seq<Analysis>): seq<Analysis>
  {
    if ans == [] then []
    else Unomitted(ans[..|ans| - 1]) + (if ans[|ans| - 1].omitted then [] else [ans[|ans| - 1]])
  }

  /** The values of `attr` of the analyses that have one, in order: the
      `is not None` filter of `_get_values`. */
  function AttrValues(cs: seq<Analysis>, attr: string): seq<UFloat>
  {
    if cs == [] then []
    else AttrValues(cs[..|cs| - 1], attr) + (if attr in cs[|cs| - 1].values then [cs[|cs| - 1].values[attr]] else [])
  }

  lemma {:induction false} CleanPrefix(ans: seq<Analysis>, n: nat)
    requires n <= |ans|
    ensures Pick(ans, Indices(n, IsClean(ans))) == Unomitted(ans[..n])
  {
    if n == 0 {
      assert ans[..0] == [];
    } else {
      CleanPrefix(ans, n - 1);
      assert ans[..n][..n - 1] == ans[..n - 1];
      if IsClean(ans)(n - 1) {
        PickIndicesIn(ans, n, IsClean(ans));
      } else {
        PickIndicesOut(ans, n, IsClean(ans));
      }
    }
  }

  /** `clean_analyses()` keeps every analysis that is not omitted and no
      other, each where it stands in the group. */
  lemma CleanIsUnomitted(ans: seq<Analysis>)
    ensures Clean(ans) == Unomitted(ans)
  {
    CleanPrefix(ans, |ans|);
    assert ans[..|ans|] == ans;
  }

  /** The clean analyses are a subsequence of the group. */
  lemma {:induction false} UnomittedSubseq(ans: seq<Analysis>)
    ensures IsSubseq(Unomitted(ans), ans)
  {
    if ans != [] {
      var front, last := ans[..|ans| - 1], ans[|ans| - 1];
      UnomittedSubseq(front);
      assert ans == front + [last];
      if last.omitted {
        assert Unomitted(ans) == Unomitted(front);
        SubseqRightExtended(Unomitted(front), front, last);
      } else {
        SubseqBothExtended(Unomitted(front), front, last);
      }
    }
  }

  lemma AttrValuesSnoc(cs: seq<Analysis>, c: Analysis, attr: string)
    ensures AttrValues(cs + [c], attr) == AttrValues(cs, attr) + (if attr in c.values then [c.values[attr]] else [])
  {
    assert (cs + [c])[..|cs|] == cs;
  }

  lemma {:induction false} ValuesPrefix(ans: seq<Analysis>, attr: string, n: nat)
    requires n <= |ans|
    ensures ValuesAt(ans, attr, Indices(n, HasValue(ans, attr))) == AttrValues(Unomitted(ans[..n]), attr)
  {
    if n == 0 {
      assert ans[..0] == [];
    } else {
      ValuesPrefix(ans, attr, n - 1);
      ValuesPrefixStep(ans, attr, n);
    }
  }

  /** One step of `ValuesPrefix`: the analysis at n - 1 adds its value
      exactly when it is clean and has one. */
  lemma ValuesPrefixStep(ans: seq<Analysis>, attr: string, n: nat)
    requires 0 < n <= |ans|
    requires ValuesAt(ans, attr, Indices(n - 1, HasValue(ans, attr))) == AttrValues(Unomitted(ans[..n - 1]), attr)
    ensures ValuesAt(ans, attr, Indices(n, HasValue(ans, attr))) == AttrValues(Unomitted(ans[..n]), attr)
  {
    var a := ans[n - 1];
    var p := HasValue(ans, attr);
    var idx := Indices(n - 1, p);
    var before := Unomitted(ans[..n - 1]);
    assert p(n - 1) == (!a.omitted && attr in a.values);
    UnomittedPrefixSnoc(ans, n);
    if a.omitted {
      assert Unomitted(ans[..n]) == before + [] == before;
      assert Indices(n, p) == idx + [] == idx;
    } else {
      assert Unomitted(ans[..n]) == before + [a];
      AttrValuesSnoc(before, a, attr);
      if attr in a.values {
        assert Indices(n, p) == idx + [n - 1];
        ValuesAtSnoc(ans, attr, idx, n - 1);
      } else {
        assert AttrValues(before + [a], attr) == AttrValues(before, attr) + [] == AttrValues(before, attr);
        assert Indices(n, p) == idx + [] == idx;
      }
    }
  }

  lemma UnomittedPrefixSnoc(ans: seq<Analysis>, n: nat)
    requires 0 < n <= |ans|
    ensures Unomitted(ans[..n]) == Unomitted(ans[..n - 1]) + (if ans[n - 1].omitted then [] else [ans[n - 1]])
  {
    assert ans[..n][..n - 1] == ans[..n - 1];
  }

  lemma ValuesAtSnoc(ans: seq<Analysis>, attr: string, idx: seq<nat>, i: nat)
    requires forall k :: 0 <= k < |idx| ==> idx[k] < |ans| && attr in ans[idx[k]].values
    requires i < |ans| && attr in ans[i].values
    ensures ValuesAt(ans, attr, idx + [i]) == ValuesAt(ans, attr, idx) + [ans[i].values[attr]]
  {
  }

  /** `_get_values(attr)` is, in order, the value of `attr` of each clean
      analysis that has one, and nothing else. */
  lemma ValuesOfClean(ans: seq<Analysis>, attr: string)
    ensures Values(ans, attr) == AttrValues(Clean(ans), attr)
  {
    ValuesPrefix(ans, attr, |ans|);
    assert ans[..|ans|] == ans;
    CleanIsUnomitted(ans);
  }

  function Noms(us: seq<UFloat>): (r: seq<real>)
    ensures |r| == |us| && forall k :: 0 <= k < |us| ==> r[k] == us[k].v
  {
    seq(|us|, k requires 0 <= k < |us| => us[k].v)
  }

  function Errs(us: seq<UFloat>): (r: seq<real>)
    ensures |r| == |us| && forall k :: 0 <= k < |us| ==> r[k] == us[k].e
  {
    seq(|us|, k requires 0 <= k < |us| => us[k].e)
  }

  /** The sum of squared deviations of the nominal values from `a`. */
  function SumSqDev(a: real, us: seq<UFloat>): (r: real)
    ensures r >= 0.0
  {
    if us == [] then 0.0
    else
      var d := a - us[|us| - 1].v;
      Square(d);
      SumSqDev(a, us[..|us| - 1]) + d * d
  }

  /** The mean of the nominal values. */
  function MeanOf(us: seq<UFloat>): (r: real)
    requires |us| > 0
    ensures r * (|us| as real) == SumV(us)
  {
    SumV(us) / (|us| as real)
  }

  /** The `sd` helper of `_calculate_mean`: the lone value's own error, or the
      sample standard deviation about `a`. */
  function SampleSd(sqrt: real -> real, a: real, us: seq<UFloat>): (r: real)
    requires IsSqrt(sqrt)
    requires |us| >= 1
    ensures |us| == 1 ==> r == us[0].e
    ensures |us| > 1 ==> r >= 0.0 && r * r == SumSqDev(a, us) / ((|us| - 1) as real)
  {
    if |us| == 1 then us[0].e else sqrt(SumSqDev(a, us) / ((|us| - 1) as real))
  }

  /** numpy's `std(ddof=1)`; one value gives NaN, written 0 here. */
  function StdDdof1(sqrt: real -> real, us: seq<UFloat>): (r: real)
    requires IsSqrt(sqrt)
    ensures r >= 0.0
    ensures |us| > 1 ==> r * r == SumSqDev(MeanOf(us), us) / ((|us| - 1) as real)
  {
    if |us| <= 1 then 0.0 else sqrt(SumSqDev(MeanOf(us), us) / ((|us| - 1) as real))
  }

  /** numpy's `std()` (population deviation); no values gives NaN, written 0 here. */
  function PopulationSd(sqrt: real -> real, us: seq<UFloat>): (r: real)
    requires IsSqrt(sqrt)
    ensures r >= 0.0
    ensures |us| > 0 ==> r * r == SumSqDev(MeanOf(us), us) / (|us| as real)
  {
    if us == [] then 0.0 else sqrt(SumSqDev(MeanOf(us), us) / (|us| as real))
  }

  /** The result of `_calculate_mean`; `sem` is only filled in by the 'both' mode. */
  datatype Mean = Mean(mean: real, err: real, sem: real)

  /** `_calculate_mean(attr, use_weights, error_kind)`. */
  function CalculateMean(rt: Routines, ans: seq<Analysis>, attr: string, useWeights: bool, errorKind: Option<string>): (r: Mean)
    requires IsSqrt(rt.sqrt)
    ensures Values(ans, attr) == [] ==> r == Mean(0.0, 0.0, 0.0)
    ensures var us := Values(ans, attr);
      us != [] && useWeights ==> r.mean == rt.weightedMean(Noms(us), Errs(us)).0
    ensures var us := Values(ans, attr);
      us != [] && useWeights && (errorKind == Some(C.SD) || errorKind == Some("both")) ==>
        r.err == SampleSd(rt.sqrt, r.mean, us)
    ensures var us := Values(ans, attr);
      us != [] && useWeights && errorKind == Some("both") ==> r.sem == rt.weightedMean(Noms(us), Errs(us)).1
    ensures var us := Values(ans, attr);
      us != [] && useWeights && errorKind != Some(C.SD) && errorKind != Some("both") ==>
        r == Mean(rt.weightedMean(Noms(us), Errs(us)).0, rt.weightedMean(Noms(us), Errs(us)).1, 0.0)
    ensures var us := Values(ans, attr);
      us != [] && !useWeights ==> r.mean == MeanOf(us) && r.err == StdDdof1(rt.sqrt, us)
  {
    var us := Values(ans, attr);
    if us == [] then Mean(0.0, 0.0, 0.0)
    else if useWeights then
      var (av, werr) := rt.weightedMean(Noms(us), Errs(us));
      if errorKind == Some("both") then Mean(av, SampleSd(rt.sqrt, av, us), werr)
      else if errorKind == Some(C.SD) then Mean(av, SampleSd(rt.sqrt, av, us), 0.0)
      else Mean(av, werr, 0.0)
    else
      Mean(MeanOf(us), StdDdof1(rt.sqrt, us), 0.0)
  }

  /** `_calculate_mswd(attr)`: 0 without values, else the routine's MSWD. */
  function CalculateMswd(rt: Routines, ans: seq<Analysis>, attr: string): (r: real)
    ensures Values(ans, attr) == [] ==> r == 0.0
    ensures Values(ans, attr) != [] ==> r == rt.mswd(Noms(Values(ans, attr)), Errs(Values(ans, attr)), None)
  {
    var us := Values(ans, attr);
    if us == [] then 0.0 else rt.mswd(Noms(us), Errs(us), None)
  }

  /** The MSWD rule of `_modify_error` relating the error `r` it gives to the
      error `e` it is given: under MSEM with an MSWD above 1, r² = e²·MSWD;
      otherwise r = e. */
  predicate MswdRule(r: real, e: real, kind: string, mswd: real)
  {
    && (kind == C.MSEM && mswd > 1.0 ==> r * r == e * e * mswd)
    && (kind != C.MSEM || mswd <= 1.0 ==> r == e)
  }

  /** `_modify_error`: the MSEM kind inflates the error by the square root of an
      MSWD above 1; every other case passes the error through. */
  function ModifyError(sqrt: real -> real, e: real, kind: string, mswd: real): (r: real)
    requires IsSqrt(sqrt)
    ensures MswdRule(r, e, kind, mswd)
    ensures kind != C.MSEM || mswd <= 1.0 ==> r == e
    ensures kind == C.MSEM && mswd > 1.0 ==> r * r == e * e * mswd
    ensures e >= 0.0 ==> r >= e
    ensures e == 0.0 ==> r == 0.0
  {
    if kind == C.MSEM && mswd > 1.0 then
      var s := sqrt(mswd);
      SqrtAboveOne(sqrt, mswd);
      MulAtLeastOne(e, s);
      assert (e * s) * (e * s) == e * e * (s * s);
      e * s
    else e
  }

  // ----- J error -----

  /** `j_err`: the relative error of the first analysis's J; no J gives 0, and a
      J of nominal value 0 (NaN in the source) is written 0 here. */
  function JErr(ans: seq<Analysis>): (r: real)
    requires |ans| > 0
    ensures ans[0].j.None? ==> r == 0.0
    ensures ans[0].j.Some? && ans[0].j.value.v != 0.0 ==> r * ans[0].j.value.v == ans[0].j.value.e
  {
    match ans[0].j
    case None => 0.0
    case Some(j) => if j.v == 0.0 then 0.0 else j.e / j.v
  }

  /** The quadrature sum of two relative errors. */
  function Quadrature(sqrt: real -> real, a: real, b: real): (r: real)
    requires IsSqrt(sqrt)
    ensures r >= 0.0 && r * r == a * a + b * b
  {
    Square(a);
    Square(b);
    sqrt(a * a + b * b)
  }

  /** Of two non-negative numbers, the one with the larger square is the larger. */
  lemma SquareOrder(a: real, b: real)
    requires a >= 0.0 && b >= 0.0
    requires a * a >= b * b
    ensures a >= b
  {
    var x := a - b;
    var y := a + b;
    assert x * y == a * a - b * b;
    if y > 0.0 {
      MulSign(x, y);
      assert x * y >= 0.0;
    } else {
      assert a == 0.0 && b == 0.0;
    }
  }

  /** `_apply_j_err(ufloat(v, _modify_error(v, e, kind, mswd)))` for the mean
      `m`: the MSEM kind scales the error by the square root of an MSWD above
      1 and any other kind keeps it; without J error or for a mean of 0 that
      is the result's error, otherwise the inflated relative error and the
      relative J error are added in quadrature and scaled by the mean's
      magnitude. */
  function ModifiedWithJ(sqrt: real -> real, m: Mean, kind: string, mswd: real, apply: bool, ans: seq<Analysis>): (r: UFloat)
    requires IsSqrt(sqrt)
    requires apply && m.mean != 0.0 ==> ans != []
    ensures var e := ModifyError(sqrt, m.err, kind, mswd);
      && MswdRule(e, m.err, kind, mswd)
      && (!apply || m.mean == 0.0 ==> r == UFloat(m.mean, e))
      && (apply && m.mean != 0.0 ==> r == UFloat(m.mean, Quadrature(sqrt, e / m.mean, JErr(ans)) * Abs(m.mean)))
  {
    var e := ModifyError(sqrt, m.err, kind, mswd);
    if !apply || m.mean == 0.0 then UFloat(m.mean, e)
    else ApplyJErr(sqrt, UFloat(m.mean, e), apply, ans)
  }

  /** `weighted_age`'s error rule for the weighted mean `m`: the error through
      `_modify_error`, clamped at 0, then through `_apply_j_err`. The clamped
      error is the result's error without J error or for a mean of 0, and
      otherwise it and the relative J error are added in quadrature and
      scaled by the mean's magnitude; the J error never lowers it. */
  function ClampedWithJ(sqrt: real -> real, m: Mean, kind: string, mswd: real, apply: bool, ans: seq<Analysis>): (r: UFloat)
    requires IsSqrt(sqrt)
    requires apply && m.mean != 0.0 ==> ans != []
    ensures var me := ModifyError(sqrt, m.err, kind, mswd);
      && r.v == m.mean
      && MswdRule(me, m.err, kind, mswd)
      && (!apply || m.mean == 0.0 ==> r == UFloat(m.mean, Max(0.0, me)))
      && (apply && m.mean != 0.0 ==> r == UFloat(m.mean, Quadrature(sqrt, Max(0.0, me) / m.mean, JErr(ans)) * Abs(m.mean)))
      && r.e >= Max(0.0, me)
  {
    ApplyJErr(sqrt, UFloat(m.mean, Max(0.0, ModifyError(sqrt, m.err, kind, mswd))), apply, ans)
  }

  /** `_apply_j_err` as written: with the flag (or `force`) set it divides the
      error by the value, which raises ZeroDivisionError for a value of 0, and
      reads J from the first analysis, which raises IndexError for no analyses.
      The new error is the quadrature times the value itself, so a negative
      value with a non-zero quadrature gives a negative standard deviation,
      which `ufloat` refuses. */
  function ApplyJErrAsWritten(sqrt: real -> real, wa: UFloat, apply: bool, ans: seq<Analysis>): (r: Result<UFloat>)
    requires IsSqrt(sqrt)
    ensures !apply ==> r == Ok(wa)
    ensures apply && wa.v == 0.0 ==> r == Err(ZeroDivisionError)
    ensures apply && wa.v != 0.0 && ans == [] ==> r == Err(IndexError)
    ensures apply && wa.v < 0.0 && ans != [] && Quadrature(sqrt, wa.e / wa.v, JErr(ans)) > 0.0 ==> r == Err(NegativeStdDev)
    ensures r.Ok? ==> r.value.v == wa.v
    ensures r.Ok? && apply ==> r.value.e >= 0.0
  {
    if !apply then Ok(wa)
    else if wa.v == 0.0 then Err(ZeroDivisionError)
    else if ans == [] then Err(IndexError)
    else
      var ne := Quadrature(sqrt, wa.e / wa.v, JErr(ans));
      if ne > 0.0 && wa.v < 0.0 then
        MulPositive(ne, -wa.v);
        Err(NegativeStdDev)
      else
        assert ne * wa.v >= 0.0 by {
          if wa.v > 0.0 && ne > 0.0 { MulPositive(ne, wa.v); }
        }
        Ok(UFloat(wa.v, ne * wa.v))
  }

  /** The quadrature of the relative error `e / v` with anything, scaled back
      by the magnitude of `v`, is at least the magnitude of `e`. */
  lemma QuadratureScaled(sqrt: real -> real, e: real, v: real, j: real)
    requires IsSqrt(sqrt) && v != 0.0
    ensures Quadrature(sqrt, e / v, j) * Abs(v) >= Abs(e)
  {
    var pa := e / v;
    var ne := Quadrature(sqrt, pa, j);
    Square(j);
    assert Abs(pa) * Abs(pa) == pa * pa;
    SquareOrder(ne, Abs(pa));
    assert Abs(pa) * Abs(v) == Abs(e) by {
      assert pa * v == e;
      if v < 0.0 {
        assert Abs(pa) * Abs(v) == Abs(pa * v);
      } else {
        assert Abs(pa) * Abs(v) == Abs(pa * v);
      }
    }
    var d := ne - Abs(pa);
    assert d * Abs(v) >= 0.0;
    assert ne * Abs(v) == Abs(pa) * Abs(v) + d * Abs(v);
  }

  /** `_apply_j_err` as intended: the relative J error is added in quadrature to
      the relative error of the value and scaled back by the magnitude of the
      value, so a non-negative error is never lowered (`QuadratureScaled`
      bounds it by the magnitude of any error); a value of 0 (an empty mean, no plateau) has no relative error and
      is returned unchanged. J is read from the first analysis, so a non-zero
      value needs one. */
  function ApplyJErr(sqrt: real -> real, wa: UFloat, apply: bool, ans: seq<Analysis>): (r: UFloat)
    requires IsSqrt(sqrt)
    requires apply && wa.v != 0.0 ==> ans != []
    ensures r.v == wa.v
    ensures !apply || wa.v == 0.0 ==> r == wa
    ensures apply && wa.v != 0.0 ==> r.e == Quadrature(sqrt, wa.e / wa.v, JErr(ans)) * Abs(wa.v)
    ensures wa.e >= 0.0 ==> r.e >= wa.e
  {
    if !apply || wa.v == 0.0 then wa
    else
      QuadratureScaled(sqrt, wa.e, wa.v, JErr(ans));
      UFloat(wa.v, Quadrature(sqrt, wa.e / wa.v, JErr(ans)) * Abs(wa.v))
  }

  /** Wherever the code as written returns, the corrected rule returns the
      same. The code as written raises exactly for a value of 0, for no
      analyses, and for a negative value with a non-zero quadrature; at 0 the
      corrected rule passes the value through, and for a negative value it
      gives a positive error. */
  lemma ApplyJErrCorrection(sqrt: real -> real, wa: UFloat, apply: bool, ans: seq<Analysis>)
    requires IsSqrt(sqrt)
    ensures ApplyJErrAsWritten(sqrt, wa, apply, ans).Ok? ==> ApplyJErrAsWritten(sqrt, wa, apply, ans).value == ApplyJErr(sqrt, wa, apply, ans)
    ensures ApplyJErrAsWritten(sqrt, wa, apply, ans).Err? <==>
      apply && (wa.v == 0.0 || ans == [] || (wa.v < 0.0 && Quadrature(sqrt, wa.e / wa.v, JErr(ans)) > 0.0))
    ensures apply && wa.v == 0.0 ==> ApplyJErrAsWritten(sqrt, wa, apply, ans) == Err(ZeroDivisionError) && ApplyJErr(sqrt, wa, apply, ans) == wa
    ensures apply && wa.v < 0.0 && ans != [] && Quadrature(sqrt, wa.e / wa.v, JErr(ans)) > 0.0 ==>
      ApplyJErrAsWritten(sqrt, wa, apply, ans) == Err(NegativeStdDev) && ApplyJErr(sqrt, wa, apply, ans).e > 0.0
  {
    if apply && wa.v != 0.0 && ans != [] {
      var ne := Quadrature(sqrt, wa.e / wa.v, JErr(ans));
      if wa.v < 0.0 {
        if ne > 0.0 {
          MulPositive(ne, -wa.v);
        } else {
          assert ne == 0.0;
        }
      }
    }
  }

  /** A negative mean with the J error included: `_apply_j_err` as written
      raises on the negative standard deviation it builds, where the
      corrected rule gives the error `|e / v| ⊕ σJ/J` times `|v|`. */
  lemma NegativeValueRaises(sqrt: real -> real, ans: seq<Analysis>)
    requires IsSqrt(sqrt) && ans != []
    ensures ApplyJErrAsWritten(sqrt, UFloat(-2.0, 1.0), true, ans) == Err(NegativeStdDev)
    ensures ApplyJErr(sqrt, UFloat(-2.0, 1.0), true, ans) == UFloat(-2.0, Quadrature(sqrt, -0.5, JErr(ans)) * 2.0)
    ensures ApplyJErr(sqrt, UFloat(-2.0, 1.0), true, ans).e >= 1.0
  {
    var ne := Quadrature(sqrt, -0.5, JErr(ans));
    assert 1.0 / -2.0 == -0.5;
    SquareOrder(ne, 0.5) by { Square(JErr(ans)); }
  }

  // ----- integrated values -----

  /** The values `f` reads from each analysis, in order. */
  function Field(ans: seq<Analysis>, f: Analysis -> UFloat): (r: seq<UFloat>)
    ensures |r| == |ans| && forall i :: 0 <= i < |ans| ==> r[i] == f(ans[i])
  {
    seq(|ans|, i requires 0 <= i < |ans| => f(ans[i]))
  }

  function K39s(ans: seq<Analysis>): seq<UFloat> { Field(ans, (a: Analysis) => a.k39) }
  function Ca37s(ans: seq<Analysis>): seq<UFloat> { Field(ans, (a: Analysis) => a.ca37) }
  function Cl38s(ans: seq<Analysis>): seq<UFloat> { Field(ans, (a: Analysis) => a.cl38) }
  function Rad40s(ans: seq<Analysis>): seq<UFloat> { Field(ans, (a: Analysis) => a.rad40) }
  function Total40s(ans: seq<Analysis>): seq<UFloat> { Field(ans, (a: Analysis) => a.total40) }
  function MolesK39s(ans: seq<Analysis>): seq<UFloat> { Field(ans, (a: Analysis) => a.molesK39) }

  predicate HasNestedGroup(ans: seq<Analysis>)
  {
    exists i :: 0 <= i < |ans| && ans[i].isInterpretedGroup
  }

  function IsMember(ans: seq<Analysis>): nat -> bool
  {
    (i: nat) => i < |ans| && !ans[i].isInterpretedGroup
  }

  /** The analyses that are not themselves interpreted-age groups, in order. */
  function NonGroups(ans: seq<Analysis>): (r: seq<Analysis>)
    ensures !HasNestedGroup(r)
    ensures !HasNestedGroup(ans) ==> r == ans
  {
    var idx := Indices(|ans|, IsMember(ans));
    var r := Pick(ans, idx);
    assert !HasNestedGroup(ans) ==> r == ans by {
      if !HasNestedGroup(ans) {
        IndicesAll(|ans|, IsMember(ans));
      }
    }
    r
  }

  /** When the predicate accepts every index, all of them are taken in order. */
  lemma {:induction false} IndicesAll(n: nat, p: nat -> bool)
    requires forall i :: 0 <= i < n ==> p(i)
    ensures Indices(n, p) == seq(n, i => i)
  {
    if n > 0 {
      IndicesAll(n - 1, p);
      assert seq(n, i => i) == seq(n - 1, i => i) + [n - 1];
    }
  }

  /** The factor `apply_pr` multiplies by: the reciprocal of the production
      ratio, where a missing or zero ratio counts as 1. */
  function ProductionFactor(prs: map<string, real>, key: string): (r: real)
    ensures key !in prs || prs[key] == 0.0 ==> r == 1.0
    ensures key in prs && prs[key] != 0.0 ==> r * prs[key] == 1.0
  {
    if |prs| == 0 then 1.0
    else
      var pr := if key in prs then prs[key] else 1.0;
      1.0 / (if pr == 0.0 then 1.0 else pr)
  }

  /** `apply_pr(n, d, k)`: the ratio of the summed numerators to the summed
      denominators times the production factor, or 0 when the denominators sum
      to zero. */
  function IntegratedRatio(sqrt: real -> real, ns: seq<UFloat>, ds: seq<UFloat>, pr: real): (r: UFloat)
    requires IsSqrt(sqrt)
    ensures SumV(ds) == 0.0 ==> r == Zero
    ensures SumV(ds) != 0.0 ==> r.v * SumV(ds) == SumV(ns) * pr
  {
    var n := Sum(sqrt, ns);
    var d := Sum(sqrt, ds);
    if d.v == 0.0 then Zero
    else
      var q := Div(sqrt, n, d);
      var r := Scale(q, pr);
      assert r.v * d.v == (q.v * d.v) * pr;
      r
  }

  /** `_calculate_integrated_age(ans)`: 0 ± 0 for no analyses, for a nested
      group or for a zero argon-39 sum, else the age equation on the summed
      radiogenic argon-40 over the summed argon-39. */
  function IntegratedAge(rt: Routines, ans: seq<Analysis>): (r: UFloat)
    requires IsSqrt(rt.sqrt)
    ensures ans == [] || HasNestedGroup(ans) || SumV(K39s(ans)) == 0.0 ==> r == Zero
    ensures ans != [] && !HasNestedGroup(ans) && SumV(K39s(ans)) != 0.0 ==>
      r == rt.ageEquation(Div(rt.sqrt, Sum(rt.sqrt, Rad40s(ans)), Sum(rt.sqrt, K39s(ans))), ans[0].j, ans[0].ararConstants)
  {
    if ans == [] || HasNestedGroup(ans) then Zero
    else
      var rad40 := Sum(rt.sqrt, Rad40s(ans));
      var k39 := Sum(rt.sqrt, K39s(ans));
      if k39.v == 0.0 then Zero
      else rt.ageEquation(Div(rt.sqrt, rad40, k39), ans[0].j, ans[0].ararConstants)
  }

  /** `_calculate_integrated(attr, kind)` over the analyses `kind` selected:
      nested groups are dropped, and each attribute has its own integration;
      an attribute without one gives 0 ± 0. */
  function CalculateIntegrated(rt: Routines, attr: string, selected: seq<Analysis>): (r: UFloat)
    requires IsSqrt(rt.sqrt)
    ensures NonGroups(selected) == [] ==> r == Zero
    ensures attr !in ["kca", "kcl", "rad40_percent", "moles_k39", "signal_k39", "age"] ==> r == Zero
    ensures var xs := NonGroups(selected);
      xs != [] && attr == "kca" ==>
        r == IntegratedRatio(rt.sqrt, K39s(xs), Ca37s(xs), ProductionFactor(xs[0].productionRatios, "Ca_K"))
    ensures var xs := NonGroups(selected);
      xs != [] && attr == "kcl" ==>
        r == IntegratedRatio(rt.sqrt, K39s(xs), Cl38s(xs), ProductionFactor(xs[0].productionRatios, "Cl_k"))
    ensures var xs := NonGroups(selected);
      xs != [] && attr == "rad40_percent" ==>
        r == Scale(IntegratedRatio(rt.sqrt, Rad40s(xs), Total40s(xs), ProductionFactor(xs[0].productionRatios, "")), 100.0)
    ensures var xs := NonGroups(selected);
      xs != [] && attr == "moles_k39" ==> r.v == SumV(MolesK39s(xs))
    ensures var xs := NonGroups(selected);
      xs != [] && attr == "signal_k39" ==> r.v == SumV(K39s(xs))
    ensures attr == "age" ==> r == IntegratedAge(rt, NonGroups(selected))
  {
    var xs := NonGroups(selected);
    if xs == [] then Zero
    else
      var prs := xs[0].productionRatios;
      if attr == "kca" then
        IntegratedRatio(rt.sqrt, K39s(xs), Ca37s(xs), ProductionFactor(prs, "Ca_K"))
      else if attr == "kcl" then
        IntegratedRatio(rt.sqrt, K39s(xs), Cl38s(xs), ProductionFactor(prs, "Cl_k"))
      else if attr == "rad40_percent" then
        Scale(IntegratedRatio(rt.sqrt, Rad40s(xs), Total40s(xs), ProductionFactor(prs, "")), 100.0)
      else if attr == "moles_k39" then
        Sum(rt.sqrt, MolesK39s(xs))
      else if attr == "signal_k39" then
        Sum(rt.sqrt, K39s(xs))
      else if attr == "age" then
        IntegratedAge(rt, xs)
      else Zero
  }

  // ----- plateau -----

  function Ages(ans: seq<Analysis>): (r: seq<real>)
    ensures |r| == |ans|
  {
    seq(|ans|, i requires 0 <= i < |ans| => ans[i].age)
  }

  function AgeErrs(ans: seq<Analysis>): (r: seq<real>)
    ensures |r| == |ans|
  {
    seq(|ans|, i requires 0 <= i < |ans| => ans[i].ageErr)
  }

  function IsOmitted(ans: seq<Analysis>): nat -> bool
  {
    (i: nat) => i < |ans| && ans[i].omitted
  }

  /** The `excludes` handed to the plateau search: the indices of omitted steps. */
  function Excludes(ans: seq<Analysis>): seq<nat>
  {
    Indices(|ans|, IsOmitted(ans))
  }

  /** The plateau search over every step of the group. */
  function Fit(rt: Routines, ans: seq<Analysis>, opts: PlateauOptions): Option<PlateauFit>
  {
    rt.plateauAge(Ages(ans), AgeErrs(ans), Noms(K39s(ans)), opts, Excludes(ans))
  }

  /** The plateau state a found window writes: age, window, label, number of
      steps, MSWD and its validity. */
  datatype PlateauSummary = PlateauSummary(age: UFloat, steps: (nat, nat), stepsLabel: string, nsteps: nat, mswd: real, mswdValid: bool)

  /** What `_get_plateau_age` comes to: no plateau (0 ± 0), a one-step window
      (the source returns None and writes nothing), or a window. */
  datatype PlateauOutcome = NoPlateau | SingleStep | Found(summary: PlateauSummary)

  /** The ages and errors of the steps in a window. */
  function StepValues(ans: seq<Analysis>, idx: seq<nat>): (r: seq<UFloat>)
    requires forall k :: 0 <= k < |idx| ==> idx[k] < |ans|
    ensures |r| == |idx|
  {
    seq(|idx|, k requires 0 <= k < |idx| => UFloat(ans[idx[k]].age, ans[idx[k]].ageErr))
  }

  /** The bookkeeping of `_get_plateau_age` for a window the search returned. */
  function Summarize(rt: Routines, ans: seq<Analysis>, fit: PlateauFit, errorKind: string): (r: PlateauSummary)
    requires IsSqrt(rt.sqrt)
    requires fit.end < |ans|
    ensures r.steps == (fit.start, fit.end)
    ensures r.nsteps == |PlateauAnalyses(ans, Some(r.steps))|
    ensures r.stepsLabel == rt.alphas(fit.start) + "-" + rt.alphas(fit.end)
    ensures r.age.v == fit.age && r.age.e >= 0.0
    ensures var steps := StepValues(ans, Indices(|ans|, PlateauTest(ans, Some(r.steps))));
      && r.mswd == rt.mswd(Noms(steps), Errs(steps), None)
      && r.mswdValid == rt.validateMswd(r.mswd, r.nsteps)
      && (errorKind == C.SD ==> r.age.e == PopulationSd(rt.sqrt, steps))
      && (errorKind != C.SD ==> r.age.e == Max(0.0, ModifyError(rt.sqrt, fit.error, errorKind, r.mswd)))
  {
    var window := (fit.start, fit.end);
    var idx := Indices(|ans|, PlateauTest(ans, Some(window)));
    var steps := StepValues(ans, idx);
    var mswd := rt.mswd(Noms(steps), Errs(steps), None);
    var e := if errorKind == C.SD then PopulationSd(rt.sqrt, steps) else ModifyError(rt.sqrt, fit.error, errorKind, mswd);
    PlateauSummary(UFloat(fit.age, Max(0.0, e)), window, rt.alphas(fit.start) + "-" + rt.alphas(fit.end),
                   |idx|, mswd, rt.validateMswd(mswd, |idx|))
  }

  /** `_get_plateau_age` without its state: a group with a nested group, an
      empty group or a group without a plateau gives 0 ± 0; a one-step window is
      discarded; otherwise the window is summarized. */
  function Plateau(rt: Routines, ans: seq<Analysis>, opts: PlateauOptions, errorKind: string): (r: PlateauOutcome)
    requires Lawful(rt)
    ensures ans == [] || HasNestedGroup(ans) || Fit(rt, ans, opts).None? ==> r == NoPlateau
    ensures r.SingleStep? <==>
      ans != [] && !HasNestedGroup(ans) && Fit(rt, ans, opts).Some? && Fit(rt, ans, opts).value.start == Fit(rt, ans, opts).value.end
    ensures r.Found? ==>
      && ans != [] && !HasNestedGroup(ans) && Fit(rt, ans, opts).Some?
      && Fit(rt, ans, opts).value.start != Fit(rt, ans, opts).value.end
      && Fit(rt, ans, opts).value.end < |ans|
      && r.summary == Summarize(rt, ans, Fit(rt, ans, opts).value, errorKind)
  {
    if ans == [] || HasNestedGroup(ans) then NoPlateau
    else
      match Fit(rt, ans, opts)
      case None => NoPlateau
      case Some(fit) =>
        if fit.start == fit.end then SingleStep
        else Found(Summarize(rt, ans, fit, errorKind))
  }

  /** `_get_plateau_age` as written: the closing `_apply_j_err` call (its
      result unused) runs with `force` set whenever J error is included in the
      mean or in the plateau, and divides by the age, so a group without a
      plateau raises ZeroDivisionError instead of returning 0 ± 0; a negative
      plateau age with a non-zero quadrature makes it build a negative
      standard deviation, which raises too. */
  function PlateauAgeAsWritten(sqrt: real -> real, o: PlateauOutcome, force: bool, ans: seq<Analysis>): (r: Result<Option<UFloat>>)
    requires IsSqrt(sqrt)
    ensures o.SingleStep? ==> r == Ok(None)
    ensures o.NoPlateau? && force ==> r == Err(ZeroDivisionError)
    ensures o.NoPlateau? && !force ==> r == Ok(Some(Zero))
    ensures o.Found? && r.Ok? ==> r.value == Some(o.summary.age)
    ensures (o.Found? && force && o.summary.age.v < 0.0 && ans != [] &&
             Quadrature(sqrt, o.summary.age.e / o.summary.age.v, JErr(ans)) > 0.0) ==> r == Err(NegativeStdDev)
  {
    match o
    case SingleStep => Ok(None)
    case NoPlateau =>
      (match ApplyJErrAsWritten(sqrt, Zero, force, ans)
       case Ok(_) => Ok(Some(Zero))
       case Err(e) => Err(e))
    case Found(s) =>
      (match ApplyJErrAsWritten(sqrt, s.age, force, ans)
       case Ok(_) => Ok(Some(s.age))
       case Err(e) => Err(e))
  }

  // ----- argon-39 fractions -----

  /** `total_ar39`: the nominal argon-39 summed over every analysis. */
  function TotalAr39(ans: seq<Analysis>): real
  {
    if ans == [] then 0.0 else TotalAr39(ans[..|ans| - 1]) + ans[|ans| - 1].k39.v
  }

  /** How many analyses `cumulative_ar39(idx)` adds up: those at indices up to
      `idx`. */
  function PrefixLength(n: nat, idx: int): (r: nat)
    ensures r <= n
    ensures idx < 0 ==> r == 0
    ensures 0 <= idx < n ==> r == idx + 1
    ensures idx >= n ==> r == n
  {
    if idx < 0 then 0 else if idx + 1 > n then n else idx + 1
  }

  /** `cumulative_ar39(idx)`: the percentage of the total argon-39 released up
      to and including step `idx`; a zero total raises ZeroDivisionError. */
  function CumulativeAr39Of(ans: seq<Analysis>, idx: int): (r: Result<real>)
    ensures TotalAr39(ans) == 0.0 <==> r == Err(ZeroDivisionError)
    ensures r.Ok? ==> r.value * TotalAr39(ans) == TotalAr39(ans[..PrefixLength(|ans|, idx)]) * 100.0
  {
    var total := TotalAr39(ans);
    if total == 0.0 then Err(ZeroDivisionError)
    else Ok(TotalAr39(ans[..PrefixLength(|ans|, idx)]) / total * 100.0)
  }

  /** With non-negative argon-39 amounts, summing a longer prefix never gives
      less. */
  lemma {:induction false} PrefixSumMonotone(ans: seq<Analysis>, m: nat, n: nat)
    requires m <= n <= |ans|
    requires forall i :: 0 <= i < |ans| ==> ans[i].k39.v >= 0.0
    ensures TotalAr39(ans[..m]) <= TotalAr39(ans[..n])
  {
    if m < n {
      PrefixSumMonotone(ans, m, n - 1);
      assert ans[..n][..n - 1] == ans[..n - 1];
    }
  }

  lemma DivScaleMonotone(a: real, b: real, t: real)
    requires a <= b && t > 0.0
    ensures a / t * 100.0 <= b / t * 100.0
    ensures a == t ==> a / t * 100.0 == 100.0
  {
    assert a / t <= b / t;
  }

  /** The cumulative percentage is 100 at the last step, and with non-negative
      argon-39 amounts it never decreases from one step to the next. */
  lemma CumulativeAr39Monotone(ans: seq<Analysis>, i: int, j: int)
    requires forall k :: 0 <= k < |ans| ==> ans[k].k39.v >= 0.0
    requires TotalAr39(ans) != 0.0
    requires i <= j
    ensures CumulativeAr39Of(ans, i).Ok? && CumulativeAr39Of(ans, j).Ok?
    ensures CumulativeAr39Of(ans, i).value <= CumulativeAr39Of(ans, j).value
    ensures j >= |ans| - 1 ==> CumulativeAr39Of(ans, j).value == 100.0
  {
    var m := PrefixLength(|ans|, i);
    var n := PrefixLength(|ans|, j);
    PrefixSumMonotone(ans, m, n);
    PrefixSumMonotone(ans, n, |ans|);
    PrefixSumMonotone(ans, 0, |ans|);
    assert ans[..|ans|] == ans;
    assert ans[..0] == [];
    var total := TotalAr39(ans);
    assert total > 0.0;
    DivScaleMonotone(TotalAr39(ans[..m]), TotalAr39(ans[..n]), total);
    if j >= |ans| - 1 {
      assert n == |ans|;
      DivScaleMonotone(total, total, total);
    }
  }

  /** The argon-39 summed over some analyses, as a percentage of the total. */
  function Ar39Fraction(part: seq<Analysis>, ans: seq<Analysis>): (r: Result<real>)
    ensures TotalAr39(ans) == 0.0 <==> r == Err(ZeroDivisionError)
    ensures r.Ok? ==> r.value * TotalAr39(ans) == TotalAr39(part) * 100.0
  {
    var total := TotalAr39(ans);
    if total == 0.0 then Err(ZeroDivisionError) else Ok(TotalAr39(part) / total * 100.0)
  }

  /** `valid_total_ar39()`: the share of the argon-39 in the clean analyses. */
  function ValidTotalAr39(ans: seq<Analysis>): Result<real>
  {
    Ar39Fraction(Clean(ans), ans)
  }

  /** `plateau_total_ar39()`: the share of the argon-39 in the plateau steps. */
  function PlateauTotalAr39(ans: seq<Analysis>, steps: Option<(nat, nat)>): Result<real>
  {
    Ar39Fraction(PlateauAnalyses(ans, steps), ans)
  }

  lemma TotalAr39Append(a: seq<Analysis>, x: Analysis)
    ensures TotalAr39(a + [x]) == TotalAr39(a) + x.k39.v
  {
    assert (a + [x])[..|a|] == a;
  }

  /** Non-negative amounts have a non-negative total. */
  lemma {:induction false} TotalAr39Nonnegative(s: seq<Analysis>)
    requires forall a :: a in s ==> a.k39.v >= 0.0
    ensures TotalAr39(s) >= 0.0
  {
    if s != [] {
      var p := s[..|s| - 1];
      assert s == p + [s[|s| - 1]];
      TotalAr39Nonnegative(p);
      TotalAr39Append(p, s[|s| - 1]);
    }
  }

  /** With non-negative amounts, a subsequence holds at most the argon-39 of
      the whole. */
  lemma {:induction false} SubseqAr39Bounded(a: seq<Analysis>, b: seq<Analysis>)
    requires IsSubseq(a, b)
    requires forall x :: x in b ==> x.k39.v >= 0.0
    ensures TotalAr39(a) <= TotalAr39(b)
  {
    if a == [] {
      TotalAr39Nonnegative(b);
    } else {
      var a' := a[..|a| - 1];
      var b' := b[..|b| - 1];
      assert forall x :: x in b' ==> x in b;
      if a[|a| - 1] == b[|b| - 1] && IsSubseq(a', b') {
        SubseqAr39Bounded(a', b');
      } else {
        SubseqAr39Bounded(a, b');
      }
    }
  }

  /** Selecting from a prefix picks a subsequence of that prefix. */
  lemma {:induction false} PickIndicesSubseqOfPrefix<T>(s: seq<T>, n: nat, p: nat -> bool)
    requires n <= |s|
    ensures IsSubseq(Pick(s, Indices(n, p)), s[..n])
  {
    if n > 0 {
      PickIndicesSubseqOfPrefix(s, n - 1, p);
      var a := Pick(s, Indices(n - 1, p));
      assert s[..n] == s[..n - 1] + [s[n - 1]];
      if p(n - 1) {
        PickIndicesIn(s, n, p);
        SubseqBothExtended(a, s[..n - 1], s[n - 1]);
      } else {
        PickIndicesOut(s, n, p);
        SubseqRightExtended(a, s[..n - 1], s[n - 1]);
      }
    }
  }

  /** With non-negative argon-39 amounts the plateau share is at most the valid
      share, which is at most 100. */
  lemma Ar39FractionsOrdered(ans: seq<Analysis>, steps: Option<(nat, nat)>)
    requires forall i :: 0 <= i < |ans| ==> ans[i].k39.v >= 0.0
    requires TotalAr39(ans) != 0.0
    ensures PlateauTotalAr39(ans, steps).Ok? && ValidTotalAr39(ans).Ok?
    ensures PlateauTotalAr39(ans, steps).value <= ValidTotalAr39(ans).value <= 100.0
  {
    assert ans[..|ans|] == ans;
    var total := TotalAr39(ans);
    var clean := TotalAr39(Clean(ans));
    var plateau := TotalAr39(PlateauAnalyses(ans, steps));
    PickIndicesSubseqOfPrefix(ans, |ans|, IsClean(ans));
    SubseqAr39Bounded(Clean(ans), ans);
    PlateauAnalysesSubseqOfClean(ans, steps);
    SubseqAr39Bounded(PlateauAnalyses(ans, steps), Clean(ans));
    assert plateau <= clean <= total;
    TotalAr39Nonnegative(ans);
    assert total > 0.0;
    DivScaleMonotone(plateau, clean, total);
    DivScaleMonotone(clean, total, total);
    DivScaleMonotone(total, total, total);
  }

  // ----- aliquots -----

  /** The set of aliquot numbers of a group's analyses. */
  function Aliquots(ans: seq<Analysis>): (r: set<int>)
    ensures forall i :: 0 <= i < |ans| ==> ans[i].aliquot in r
    ensures forall x :: x in r ==> exists i :: 0 <= i < |ans| && ans[i].aliquot == x
  {
    set i | 0 <= i < |ans| :: ans[i].aliquot
  }

  /** A set holding two different numbers has at least two elements. */
  lemma TwoMembers(s: set<int>, a: int, b: int)
    requires a in s && b in s && a != b
    ensures |s| >= 2
  {
    var t := s - {a};
    assert b in t;
    assert |t| == |s| - 1;
  }

  /** A group has exactly one aliquot number iff it is not empty and every
      analysis shares the first one's aliquot. */
  lemma SingleAliquot(ans: seq<Analysis>)
    ensures |Aliquots(ans)| == 1 <==> ans != [] && forall i :: 0 <= i < |ans| ==> ans[i].aliquot == ans[0].aliquot
  {
    var s := Aliquots(ans);
    if ans != [] && forall i :: 0 <= i < |ans| ==> ans[i].aliquot == ans[0].aliquot {
      assert s == {ans[0].aliquot};
    }
    if |s| == 1 {
      forall i | 0 <= i < |ans|
        ensures ans[i].aliquot == ans[0].aliquot
      {
        if ans[i].aliquot != ans[0].aliquot {
          TwoMembers(s, ans[0].aliquot, ans[i].aliquot);
        }
      }
    }
  }
}
