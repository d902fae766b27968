/** Default file contents: the simple-UI action list derived from the
    `TASK_EXTENSION_DEFAULT` text, and the screen and presentation plot options. */
module FileDefaults {
  import opened Wrappers
  import opened Text

  // ------------------------------------------------------- simple UI actions

  const ActionPrefix := "- pychron."

  /** What one line of the `TASK_EXTENSION_DEFAULT` text contributes: a stripped line
      that starts with "- pychron." is split at its comma (anything but
      exactly one comma is Python's ValueError on unpacking), and its text
      before the comma is kept when `toBool` accepts the flag after it. Other
      lines contribute nothing. */
  function LineAction(line: string, toBool: string -> bool): (r: Result<Option<string>>)
    ensures r.Err? ==> r.error == ValueError
  {
    var s := Strip(line);
    if !StartsWith(s, ActionPrefix) then Ok(None)
    else match SplitPair(s, ',')
      case None => Err(ValueError)
      case Some((a, b)) => if toBool(b) then Ok(Some(a)) else Ok(None)
  }

  /** The kept actions of `lines` under the per-line rule `f`, in order, or
      the error of the first line that fails. */
  function Collect(lines: seq<string>, f: string -> Result<Option<string>>): (r: Result<seq<string>>)
    ensures r.Ok? ==> |r.value| <= |lines|
  {
    if lines == [] then Ok([])
    else
      match Collect(lines[..|lines| - 1], f)
      case Err(e) => Err(e)
      case Ok(acts) =>
        match f(lines[|lines| - 1])
        case Err(e) => Err(e)
        case Ok(None) => Ok(acts)
        case Ok(Some(a)) => Ok(acts + [a])
  }

  /** The actions kept from the lines of the `TASK_EXTENSION_DEFAULT` text. */
  function Actions(lines: seq<string>, toBool: string -> bool): Result<seq<string>>
  {
    Collect(lines, line => LineAction(line, toBool))
  }

  /** What a line that yields an action was cut from: its stripped text
      starts with the prefix and splits at its one comma into the action and
      an accepted flag. */
  lemma LineActionSome(line: string, toBool: string -> bool)
    requires LineAction(line, toBool).Ok? && LineAction(line, toBool).value.Some?
    ensures StartsWith(Strip(line), ActionPrefix) && SplitPair(Strip(line), ',').Some?
    ensures var pair := SplitPair(Strip(line), ',').value;
      toBool(pair.1) && LineAction(line, toBool).value.value == pair.0
  {
  }

  /** A line that yields an action: its stripped text is the action, one
      comma and an accepted flag, and the action keeps the "- pychron." prefix. */
  lemma LineActionShape(line: string, toBool: string -> bool)
    requires LineAction(line, toBool).Ok? && LineAction(line, toBool).value.Some?
    ensures var a := LineAction(line, toBool).value.value;
      exists flag :: Strip(line) == a + "," + flag && toBool(flag) && ',' !in flag
    ensures var a := LineAction(line, toBool).value.value;
      StartsWith(a, ActionPrefix) && ',' !in a
  {
    LineActionSome(line, toBool);
    var s := Strip(line);
    var a := SplitPair(s, ',').value.0;
    var b := SplitPair(s, ',').value.1;
    assert ',' !in ActionPrefix;
    StartsWithBeforeSep(s, ActionPrefix, a, b, ',');
    assert s == a + "," + b && toBool(b) && ',' !in b;
  }

  /** A candidate line with one comma yields the text before its comma
      exactly when its flag is accepted. */
  lemma LineActionOfEntry(line: string, a: string, flag: string, toBool: string -> bool)
    requires Strip(line) == a + "," + flag
    requires StartsWith(a, ActionPrefix) && ',' !in a && ',' !in flag
    ensures LineAction(line, toBool) == if toBool(flag) then Ok(Some(a)) else Ok(None)
  {
    assert Strip(line)[..|ActionPrefix|] == a[..|ActionPrefix|];
    SplitPairOfJoined(a, flag, ',');
  }

  /** Collecting two blocks of lines is collecting the first and then the
      second. */
  lemma {:induction false} CollectAppend(xs: seq<string>, ys: seq<string>, f: string -> Result<Option<string>>)
    requires Collect(xs, f).Ok? && Collect(ys, f).Ok?
    ensures Collect(xs + ys, f) == Ok(Collect(xs, f).value + Collect(ys, f).value)
    decreases |ys|
  {
    var a1 := Collect(xs, f).value;
    if ys == [] {
      assert xs + ys == xs;
      assert a1 + [] == a1;
    } else {
      var init, last := ys[..|ys| - 1], ys[|ys| - 1];
      var zs := xs + ys;
      assert zs[..|zs| - 1] == xs + init;
      assert zs[|zs| - 1] == last;
      var b1 := Collect(init, f).value;
      CollectAppend(xs, init, f);
      if f(last).value.Some? {
        assert a1 + b1 + [f(last).value.value] == a1 + (b1 + [f(last).value.value]);
      }
    }
  }

  /** Every line contributes what the per-line rule gives it, in order. */
  lemma {:induction false} CollectFrom(lines: seq<string>, f: string -> Result<Option<string>>)
    requires Collect(lines, f).Ok?
    ensures forall a :: a in Collect(lines, f).value ==> exists i :: 0 <= i < |lines| && f(lines[i]) == Ok(Some(a))
  {
    if lines != [] {
      var init := lines[..|lines| - 1];
      CollectFrom(init, f);
      forall a | a in Collect(init, f).value
        ensures exists i :: 0 <= i < |lines| && f(lines[i]) == Ok(Some(a))
      {
        var i :| 0 <= i < |init| && f(init[i]) == Ok(Some(a));
        assert lines[i] == init[i];
      }
    }
  }

  lemma {:induction false} CollectKeeps(lines: seq<string>, f: string -> Result<Option<string>>, i: nat, a: string)
    requires Collect(lines, f).Ok?
    requires i < |lines| && f(lines[i]) == Ok(Some(a))
    ensures a in Collect(lines, f).value
  {
    var init := lines[..|lines| - 1];
    if i < |lines| - 1 {
      assert init[i] == lines[i];
      CollectKeeps(init, f, i, a);
    }
  }

  /** The first failing line decides the outcome: later lines are never
      looked at. */
  lemma {:induction false} CollectErrStops(lines: seq<string>, f: string -> Result<Option<string>>, j: nat)
    requires j <= |lines| && Collect(lines[..j], f).Err?
    ensures Collect(lines, f) == Collect(lines[..j], f)
    decreases |lines|
  {
    if j < |lines| {
      var init := lines[..|lines| - 1];
      assert init[..j] == lines[..j];
      CollectErrStops(init, f, j);
    } else {
      assert lines[..j] == lines;
    }
  }

  /** The actions of two blocks of lines are those of the first block
      followed by those of the second: source order is kept. */
  lemma ActionsAppend(xs: seq<string>, ys: seq<string>, toBool: string -> bool)
    requires Actions(xs, toBool).Ok? && Actions(ys, toBool).Ok?
    ensures Actions(xs + ys, toBool) == Ok(Actions(xs, toBool).value + Actions(ys, toBool).value)
  {
    CollectAppend(xs, ys, line => LineAction(line, toBool));
  }

  /** Every kept action is the text before the comma of some source line
      whose flag is accepted, and it keeps its "- pychron." prefix. */
  lemma ActionsFromLines(lines: seq<string>, toBool: string -> bool)
    requires Actions(lines, toBool).Ok?
    ensures forall a :: a in Actions(lines, toBool).value ==>
      StartsWith(a, ActionPrefix) && ',' !in a &&
      exists i, flag :: 0 <= i < |lines| && Strip(lines[i]) == a + "," + flag && toBool(flag)
  {
    var f := line => LineAction(line, toBool);
    CollectFrom(lines, f);
    forall a | a in Actions(lines, toBool).value
      ensures StartsWith(a, ActionPrefix) && ',' !in a
      ensures exists i, flag :: 0 <= i < |lines| && Strip(lines[i]) == a + "," + flag && toBool(flag)
    {
      var i :| 0 <= i < |lines| && f(lines[i]) == Ok(Some(a));
      LineActionShape(lines[i], toBool);
    }
  }

  /** Every line that names an action with an accepted flag has its action
      kept. */
  lemma ActionsKeepLines(lines: seq<string>, toBool: string -> bool, i: nat, a: string, flag: string)
    requires Actions(lines, toBool).Ok?
    requires i < |lines| && Strip(lines[i]) == a + "," + flag
    requires StartsWith(a, ActionPrefix) && ',' !in a && ',' !in flag && toBool(flag)
    ensures a in Actions(lines, toBool).value
  {
    LineActionOfEntry(lines[i], a, flag, toBool);
    CollectKeeps(lines, line => LineAction(line, toBool), i, a);
  }

  /** One more line extends the kept actions by that line's action. */
  lemma ActionsSnoc(lines: seq<string>, i: nat, acts: seq<string>, toBool: string -> bool)
    requires i < |lines| && Actions(lines[..i], toBool) == Ok(acts)
    ensures Actions(lines[..i + 1], toBool) == match LineAction(lines[i], toBool)
      case Err(e) => Err(e)
      case Ok(None) => Ok(acts)
      case Ok(Some(a)) => Ok(acts + [a])
  {
    assert lines[..i + 1][..i] == lines[..i];
  }

  /** The module-level loop over the lines of the `TASK_EXTENSION_DEFAULT` text,
      appending the kept actions. */
  method CollectActions(text: string, toBool: string -> bool) returns (r: Result<seq<string>>)
    ensures r == Actions(Split(text, '\n'), toBool)
  {
    var lines := Split(text, '\n');
    var actions: seq<string> := [];
    var i := 0;
    while i < |lines|
      invariant 0 <= i <= |lines|
      invariant Actions(lines[..i], toBool) == Ok(actions)
    {
      assert lines[..i + 1][..i] == lines[..i];
      ActionsSnoc(lines, i, actions, toBool);
      var line := Strip(lines[i]);
      if StartsWith(line, ActionPrefix) {
        var pair := SplitPair(line, ',');
        if pair.None? {
          CollectErrStops(lines, line => LineAction(line, toBool), i + 1);
          return Err(ValueError);
        }
        var (a, b) := pair.value;
        if toBool(b) {
          actions := actions + [a];
        }
      }
      i := i + 1;
    }
    assert lines[..i] == lines;
    return Ok(actions);
  }

  /** `SIMPLE_UI_DEFAULT`: the kept actions joined by newlines. */
  function SimpleUiDefault(text: string, toBool: string -> bool): (r: Result<string>)
    ensures r.Ok? <==> Actions(Split(text, '\n'), toBool).Ok?
  {
    match Actions(Split(text, '\n'), toBool)
    case Err(e) => Err(e)
    case Ok(acts) => Ok(Join(acts, "\n"))
  }

  /** An action is cut from its own line. */
  lemma LineActionOneLine(line: string, toBool: string -> bool)
    requires '\n' !in line
    requires LineAction(line, toBool).Ok? && LineAction(line, toBool).value.Some?
    ensures '\n' !in LineAction(line, toBool).value.value
  {
    LineActionSome(line, toBool);
    StripKeepsOut(line, '\n');
    SplitPairKeepsOut(Strip(line), ',', '\n');
  }

  /** An action never spans a line, so splitting `SIMPLE_UI_DEFAULT` at its
      newlines gives the kept actions back. */
  lemma ActionsOneLine(lines: seq<string>, toBool: string -> bool)
    requires forall k :: 0 <= k < |lines| ==> '\n' !in lines[k]
    requires Actions(lines, toBool).Ok?
    ensures forall a :: a in Actions(lines, toBool).value ==> '\n' !in a
  {
    var f := line => LineAction(line, toBool);
    CollectFrom(lines, f);
    forall a | a in Actions(lines, toBool).value ensures '\n' !in a {
      var i :| 0 <= i < |lines| && f(lines[i]) == Ok(Some(a));
      LineActionOneLine(lines[i], toBool);
    }
  }

  lemma SimpleUiDefaultLines(text: string, toBool: string -> bool)
    requires Actions(Split(text, '\n'), toBool).Ok?
    requires |Actions(Split(text, '\n'), toBool).value| >= 1
    ensures Split(SimpleUiDefault(text, toBool).value, '\n') == Actions(Split(text, '\n'), toBool).value
  {
    SplitPartsFree(text, '\n');
    var acts := Actions(Split(text, '\n'), toBool).value;
    ActionsOneLine(Split(text, '\n'), toBool);
    assert forall k :: 0 <= k < |acts| ==> acts[k] in acts;
    SplitJoin(acts, '\n');
  }

  // ----------------------------------------------------- plot option files

  /** The option values written into the screen and presentation files. */
  datatype OptionValue = IntOpt(i: int) | StrOpt(s: string) | BoolOpt(flag: bool) | ColorOpt(red: int, green: int, blue: int)

  /** `dict.update`: every key of `obj` is kept, the keys of `kw` are added,
      and `kw`'s values replace those of `obj`. */
  function Update(obj: map<string, OptionValue>, kw: map<string, OptionValue>): (r: map<string, OptionValue>)
    ensures r.Keys == obj.Keys + kw.Keys
    ensures forall k :: k in kw ==> r[k] == kw[k]
    ensures forall k :: k in obj && k !in kw ==> r[k] == obj[k]
  {
    obj + kw
  }

  /** Updating twice with the same overrides is updating once. */
  lemma UpdateIdempotent(obj: map<string, OptionValue>, kw: map<string, OptionValue>)
    ensures Update(Update(obj, kw), kw) == Update(obj, kw)
  {
  }

  /** The options common to both files: tick lengths and grids. */
  function CommonOptions(): map<string, OptionValue>
  {
    map[
      "xtick_in" := IntOpt(1), "xtick_out" := IntOpt(5),
      "ytick_in" := IntOpt(1), "ytick_out" := IntOpt(5),
      "use_xgrid" := BoolOpt(true), "use_ygrid" := BoolOpt(true)]
  }

  function Paddings(p: int): map<string, OptionValue>
  {
    map["padding_left" := IntOpt(p), "padding_right" := IntOpt(p),
        "padding_top" := IntOpt(p), "padding_bottom" := IntOpt(p)]
  }

  const OptionKeys: set<string> := {
    "padding_left", "padding_right", "padding_top", "padding_bottom", "bgcolor", "plot_bgcolor",
    "xtick_in", "xtick_out", "ytick_in", "ytick_out", "use_xgrid", "use_ygrid"}

  function ScreenDefaults(): (r: map<string, OptionValue>)
    ensures r.Keys == OptionKeys
  {
    Paddings(100) + map["bgcolor" := StrOpt("white"), "plot_bgcolor" := StrOpt("white")] + CommonOptions()
  }

  function PresentationDefaults(): (r: map<string, OptionValue>)
    ensures r.Keys == OptionKeys
  {
    Paddings(40) + map["bgcolor" := ColorOpt(239, 238, 185), "plot_bgcolor" := ColorOpt(208, 243, 241)]
      + CommonOptions()
  }

  /** `make_screen(**kw)` before it is dumped as YAML: every default option
      is present, and the keyword overrides win. */
  function MakeScreen(kw: map<string, OptionValue>): (r: map<string, OptionValue>)
    ensures r.Keys == OptionKeys + kw.Keys
    ensures forall k :: k in kw ==> r[k] == kw[k]
    ensures forall k :: k in OptionKeys && k !in kw ==> r[k] == ScreenDefaults()[k]
  {
    Update(ScreenDefaults(), kw)
  }

  /** `make_presentation(**kw)` before it is dumped as YAML. */
  function MakePresentation(kw: map<string, OptionValue>): (r: map<string, OptionValue>)
    ensures r.Keys == OptionKeys + kw.Keys
    ensures forall k :: k in kw ==> r[k] == kw[k]
    ensures forall k :: k in OptionKeys && k !in kw ==> r[k] == PresentationDefaults()[k]
  {
    Update(PresentationDefaults(), kw)
  }

  /** The two files differ only in their paddings and colours: overriding
      those six options makes them the same. */
  lemma ScreenAndPresentationShareTicks(kw: map<string, OptionValue>)
    requires forall k :: k in OptionKeys - CommonOptions().Keys ==> k in kw
    ensures MakeScreen(kw) == MakePresentation(kw)
  {
    var screen, presentation := MakeScreen(kw), MakePresentation(kw);
    assert screen.Keys == presentation.Keys;
    forall k | k in screen.Keys
      ensures screen[k] == presentation[k]
    {
      if k !in kw {
        assert k !in OptionKeys - CommonOptions().Keys;
        DefaultsAgreeOnCommon(k);
      }
    }
  }

  /** Both files take the common options last, so they hold them unchanged. */
  lemma DefaultsAgreeOnCommon(k: string)
    requires k in CommonOptions()
    ensures ScreenDefaults()[k] == CommonOptions()[k] == PresentationDefaults()[k]
  {
  }
}
