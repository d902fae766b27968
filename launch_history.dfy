/** The experiment launch history: a file of "time,count,path" lines that
    `update_launch_history` rewrites each time an experiment is launched
    (most recent first, at most 25 lines) and `ExperimentLaunchHistory.load`
    reads back as items named after the experiment file. */
module LaunchHistory {
  import opened Wrappers
  import opened Text
  import Sorting

  /** One line of the history: when the path was last launched, how many
      times it was launched, and the path. */
  datatype Record = Record(time: string, count: int, path: string)

  /** The most lines the history keeps. */
  const MaxRecords: nat := 25

  // ------------------------------------------------------------ lines

  /** `'{},{},{}'.format(time, count, path)`: the three fields joined by
      commas. */
  function FormatLine(r: Record): (line: string)
    ensures line == Join([r.time, IntToString(r.count), r.path], ",")
  {
    var c := IntToString(r.count);
    assert [r.time, c, r.path][1..] == [c, r.path];
    assert [c, r.path][1..] == [r.path];
    assert Join([c, r.path], ",") == c + "," + r.path;
    assert Join([r.time, c, r.path], ",") == r.time + "," + (c + "," + r.path);
    r.time + "," + c + "," + r.path
  }

  /** The lines written for the records, one per record in order. */
  function FormatLines(recs: seq<Record>): (lines: seq<string>)
    ensures |lines| == |recs|
    ensures forall k :: 0 <= k < |recs| ==> lines[k] == FormatLine(recs[k])
  {
    if recs == [] then [] else FormatLines(recs[..|recs| - 1]) + [FormatLine(recs[|recs| - 1])]
  }

  /** One line of the file as `update_launch_history` reads it: a blank line
      is skipped; any other line must split at ',' into exactly three parts
      whose middle one is an integer, else Python raises ValueError. */
  function ParseLine(line: string): (r: Result<Option<Record>>)
    ensures r == Ok(None) <==> IsBlank(line)
  {
    var s := Strip(line);
    if s == [] then Ok(None)
    else
      var parts := Split(s, ',');
      if |parts| != 3 then Err(ValueError)
      else
        match ParseInt(parts[1])
        case Err(e) => Err(e)
        case Ok(n) => Ok(Some(Record(parts[0], n, parts[2])))
  }

  /** A record that its line reads back to: neither the time nor the path
      holds a comma, and the line does not start or end with whitespace
      (which `strip` would remove). */
  predicate Writable(r: Record)
  {
    && ',' !in r.time && ',' !in r.path
    && (r.time == [] || !IsSpace(r.time[0]))
    && (r.path == [] || !IsSpace(r.path[|r.path| - 1]))
  }

  lemma NatToStringNoComma(n: nat)
    ensures ',' !in NatToString(n)
  {
    var s := NatToString(n);
    assert forall i :: 0 <= i < |s| ==> IsDigit(s[i]);
  }

  lemma IntToStringShape(i: int)
    ensures ',' !in IntToString(i)
    ensures !IsSpace(IntToString(i)[0]) && !IsSpace(IntToString(i)[|IntToString(i)| - 1])
  {
    var d := NatToString(if i < 0 then -i else i);
    NatToStringNoComma(if i < 0 then -i else i);
    assert IsDigit(d[0]) && IsDigit(d[|d| - 1]);
  }

  /** The line written for a record parses back to that record. */
  lemma FormatLineRoundTrip(r: Record)
    requires Writable(r)
    ensures ParseLine(FormatLine(r)) == Ok(Some(r))
  {
    var c := IntToString(r.count);
    IntToStringShape(r.count);
    var line := FormatLine(r);
    assert line == r.time + "," + c + "," + r.path;
    assert line[0] == (if r.time == [] then ',' else r.time[0]);
    assert line[|line| - 1] == (if r.path == [] then ',' else r.path[|r.path| - 1]);
    StripUnchanged(line);
    SplitJoin([r.time, c, r.path], ',');
    ParseIntOfString(r.count);
  }

  /** The nonblank lines of the file, parsed in order; the first line that
      does not parse is the error. */
  function ParseLines(lines: seq<string>): (r: Result<seq<Record>>)
    ensures r.Ok? ==> |r.value| <= |lines|
  {
    if lines == [] then Ok([])
    else
      match ParseLines(lines[..|lines| - 1])
      case Err(e) => Err(e)
      case Ok(recs) =>
        match ParseLine(lines[|lines| - 1])
        case Err(e) => Err(e)
        case Ok(None) => Ok(recs)
        case Ok(Some(rec)) => Ok(recs + [rec])
  }

  /** The lines of written records read back to those records. */
  lemma {:induction false} FormatLinesRoundTrip(recs: seq<Record>)
    requires forall k :: 0 <= k < |recs| ==> Writable(recs[k])
    ensures ParseLines(FormatLines(recs)) == Ok(recs)
  {
    if recs != [] {
      var front := recs[..|recs| - 1];
      var last := recs[|recs| - 1];
      assert recs == front + [last];
      var lines := FormatLines(recs);
      assert lines == FormatLines(front) + [FormatLine(last)];
      assert lines[..|lines| - 1] == FormatLines(front);
      FormatLinesRoundTrip(front);
      FormatLineRoundTrip(last);
    }
  }

  // ------------------------------------------------------------ update

  /** A record after `path` is launched at `now`: the record of that path
      has its count raised by one and its time refreshed. */
  function Bump(r: Record, path: string, now: string): (b: Record)
    ensures r.path == path ==> b == Record(now, r.count + 1, path)
    ensures r.path != path ==> b == r
  {
    if r.path == path then Record(now, r.count + 1, path) else r
  }

  /** How many records are of `path`. */
  function Matches(recs: seq<Record>, path: string): (n: nat)
    ensures n <= |recs|
  {
    if recs == [] then 0
    else Matches(recs[..|recs| - 1], path) + (if recs[|recs| - 1].path == path then 1 else 0)
  }

  /** Whether any record is of `path`: the `exists` flag. */
  predicate Launched(recs: seq<Record>, path: string)
  {
    Matches(recs, path) > 0
  }

  /** A launched path is the path of some record, and the path of a record
      is launched. */
  lemma {:induction false} LaunchedIffSomeRecord(recs: seq<Record>, path: string)
    ensures Launched(recs, path) <==> exists k :: 0 <= k < |recs| && recs[k].path == path
  {
    if recs != [] {
      var front := recs[..|recs| - 1];
      LaunchedIffSomeRecord(front, path);
      if Launched(front, path) {
        var k :| 0 <= k < |front| && front[k].path == path;
        assert recs[k].path == path;
      }
      if exists k :: 0 <= k < |recs| && recs[k].path == path {
        var k :| 0 <= k < |recs| && recs[k].path == path;
        if k < |front| {
          assert front[k].path == path;
        }
      }
    }
  }

  /** Every record bumped for a launch of `path` at `now`, in order. */
  function Bumped(recs: seq<Record>, path: string, now: string): (b: seq<Record>)
    ensures |b| == |recs|
    ensures forall k :: 0 <= k < |recs| ==> b[k] == Bump(recs[k], path, now)
  {
    if recs == [] then [] else Bumped(recs[..|recs| - 1], path, now) + [Bump(recs[|recs| - 1], path, now)]
  }

  /** The records after `path` is launched at `now`: every record bumped in
      place, and a new record (now, 1, path) at the end when none was of
      `path`. */
  function Updated(recs: seq<Record>, path: string, now: string): (out: seq<Record>)
    ensures |out| == |recs| + (if Launched(recs, path) then 0 else 1)
    ensures forall k :: 0 <= k < |recs| && recs[k].path == path ==> out[k] == Record(now, recs[k].count + 1, path)
    ensures forall k :: 0 <= k < |recs| && recs[k].path != path ==> out[k] == recs[k]
    ensures !Launched(recs, path) ==> out[|recs|] == Record(now, 1, path)
  {
    var bumped := Bumped(recs, path, now);
    if Launched(recs, path) then bumped else bumped + [Record(now, 1, path)]
  }

  /** The total of the launch counts. */
  function TotalLaunches(recs: seq<Record>): int
  {
    if recs == [] then 0 else TotalLaunches(recs[..|recs| - 1]) + recs[|recs| - 1].count
  }

  lemma {:induction false} BumpedTotal(recs: seq<Record>, path: string, now: string)
    ensures TotalLaunches(Bumped(recs, path, now)) == TotalLaunches(recs) + Matches(recs, path)
  {
    if recs != [] {
      var b := Bumped(recs, path, now);
      var front := recs[..|recs| - 1];
      BumpedTotal(front, path, now);
      assert b[..|b| - 1] == Bumped(front, path, now);
    }
  }

  /** A launch adds one to the count of every record of its path, or adds a
      record counting one launch: the total grows by the number of records of
      the path, and by one when there is none. */
  lemma UpdatedTotal(recs: seq<Record>, path: string, now: string)
    ensures TotalLaunches(Updated(recs, path, now))
      == TotalLaunches(recs) + (if Launched(recs, path) then Matches(recs, path) else 1)
  {
    BumpedTotal(recs, path, now);
    var b := Bumped(recs, path, now);
    if Launched(recs, path) {
      assert Updated(recs, path, now) == b;
    } else {
      var u := b + [Record(now, 1, path)];
      assert Updated(recs, path, now) == u;
      assert u[..|u| - 1] == b;
      assert TotalLaunches(u) == TotalLaunches(b) + 1;
    }
  }

  /** Python's order on (time, count, path) tuples. */
  predicate RecordLe(a: Record, b: Record)
  {
    if a.time != b.time then StrLe(a.time, b.time)
    else if a.count != b.count then a.count < b.count
    else StrLe(a.path, b.path)
  }

  /** The order `sorted(out, reverse=True)` puts records in. */
  predicate RecordGe(a: Record, b: Record)
  {
    RecordLe(b, a)
  }

  lemma RecordGeTotalOrder()
    ensures Sorting.TotalOrder(RecordGe)
  {
    forall a, b ensures RecordGe(a, b) || RecordGe(b, a) {
      StrLeTotal(a.time, b.time);
      StrLeTotal(a.path, b.path);
    }
    forall a, b, c | RecordGe(a, b) && RecordGe(b, c) ensures RecordGe(a, c) {
      StrLeTotal(a.time, b.time);
      StrLeTotal(b.time, c.time);
      StrLeTotal(a.time, c.time);
      StrLeTotal(a.path, b.path);
      StrLeTotal(b.path, c.path);
      if c.time != a.time {
        if c.time != b.time && b.time != a.time {
          StrLeTransitive(c.time, b.time, a.time);
        }
      } else if c.path != a.path || c.count != a.count {
        if c.time != b.time {
          StrLeTransitive(c.time, b.time, a.time);
        } else if c.count == b.count && b.count == a.count {
          StrLeTransitive(c.path, b.path, a.path);
        }
      }
    }
    forall a, b | RecordGe(a, b) && RecordGe(b, a) ensures a == b {
      StrLeTotal(a.time, b.time);
      StrLeTotal(a.path, b.path);
    }
  }

  /** `sorted(out, reverse=True)`: the records, largest first. */
  function SortDescending(out: seq<Record>): (r: seq<Record>)
    ensures Sorting.Sorted(r, RecordGe)
    ensures multiset(r) == multiset(out)
    ensures |r| == |out|
  {
    assert |multiset(Sorting.Sort(out, RecordGe))| == |multiset(out)|;
    RecordGeTotalOrder();
    Sorting.SortSorted(out, RecordGe);
    Sorting.Sort(out, RecordGe)
  }

  /** `xs[:25]`. */
  function Head(xs: seq<Record>): (r: seq<Record>)
    ensures |r| == if |xs| <= MaxRecords then |xs| else MaxRecords
    ensures r == xs[..|r|]
  {
    if |xs| <= MaxRecords then xs else xs[..MaxRecords]
  }

  /** The records written back: the largest 25, largest first. */
  function Kept(out: seq<Record>): (r: seq<Record>)
  {
    Head(SortDescending(out))
  }

  /** At most 25 records are written, in descending order, every one of
      them launched or read, and none of the records left out is above a
      written one. */
  lemma KeptIsTopRecords(out: seq<Record>)
    ensures |Kept(out)| <= MaxRecords
    ensures |Kept(out)| == |out| || |Kept(out)| == MaxRecords
    ensures Sorting.Sorted(Kept(out), RecordGe)
    ensures multiset(Kept(out)) <= multiset(out)
    ensures forall k, j :: 0 <= k < |Kept(out)| <= j < |out| ==> RecordGe(Kept(out)[k], SortDescending(out)[j])
  {
    var s := SortDescending(out);
    var r := Kept(out);
    assert s == r + s[|r|..];
    assert multiset(s) == multiset(r) + multiset(s[|r|..]);
  }

  /** The records of the history file, none when there is no file. */
  function ReadFile(file: Option<seq<string>>): (r: Result<seq<Record>>)
  {
    if file.None? then Ok([]) else ParseLines(file.value)
  }

  /** The contents of the history file after `path` is launched at `now`,
      given the file's lines, or None when there is no file. */
  function UpdatedHistory(file: Option<seq<string>>, path: string, now: string): (r: Result<seq<string>>)
  {
    match ReadFile(file)
    case Err(e) => Err(e)
    case Ok(recs) =>
      Ok(FormatLines(Kept(Updated(recs, path, now))))
  }

  /** A parse that fails on a prefix of the file fails for the whole file,
      with the same error. */
  lemma {:induction false} ParseLinesErrExtends(lines: seq<string>, j: nat)
    requires j <= |lines| && ParseLines(lines[..j]).Err?
    ensures ParseLines(lines) == ParseLines(lines[..j])
    decreases |lines|
  {
    if j < |lines| {
      var front := lines[..|lines| - 1];
      assert front[..j] == lines[..j];
      ParseLinesErrExtends(front, j);
    } else {
      assert lines[..j] == lines;
    }
  }

  /** Parsing one more line of the file. */
  lemma ParseLinesNext(lines: seq<string>, i: nat, recs: seq<Record>)
    requires i < |lines| && ParseLines(lines[..i]) == Ok(recs)
    ensures ParseLine(lines[i]).Err? ==> ParseLines(lines[..i + 1]) == Err(ParseLine(lines[i]).error)
    ensures ParseLine(lines[i]) == Ok(None) ==> ParseLines(lines[..i + 1]) == Ok(recs)
    ensures ParseLine(lines[i]).Ok? && ParseLine(lines[i]).value.Some? ==>
      ParseLines(lines[..i + 1]) == Ok(recs + [ParseLine(lines[i]).value.value])
  {
    assert lines[..i + 1][..i] == lines[..i];
  }

  /** Reading one more record: it is bumped at the end, and counts as a
      match when it is of `path`. */
  lemma ReadOneMore(recs: seq<Record>, rec: Record, path: string, now: string)
    ensures Bumped(recs + [rec], path, now) == Bumped(recs, path, now) + [Bump(rec, path, now)]
    ensures Launched(recs + [rec], path) == (Launched(recs, path) || rec.path == path)
  {
    assert (recs + [rec])[..|recs|] == recs;
  }

  /** One line of the reading loop: the record it holds, bumped when it is
      of `path`. */
  method ReadLine(line: string, path: string, now: string) returns (read: Result<Option<Record>>, bumped: Record)
    ensures read == ParseLine(line)
    ensures read.Ok? && read.value.Some? ==> bumped == Bump(read.value.value, path, now)
  {
    read := ParseLine(line);
    bumped := Record("", 0, "");
    if read.Ok? && read.value.Some? {
      var l, n, p := read.value.value.time, read.value.value.count, read.value.value.path;
      if p == path {
        n := n + 1;
        l := now;
      }
      bumped := Record(l, n, p);
    }
  }

  /** The reading loop of `update_launch_history`: each nonblank line
      parsed and bumped for the launch, and whether any was of `path`. */
  method ReadHistory(lines: seq<string>, path: string, now: string) returns (r: Result<(seq<Record>, bool)>)
    ensures ParseLines(lines).Err? ==> r == Err(ParseLines(lines).error)
    ensures ParseLines(lines).Ok? ==>
      r == Ok((Bumped(ParseLines(lines).value, path, now), Launched(ParseLines(lines).value, path)))
  {
    var out: seq<Record> := [];
    var found := false;
    var parsed: seq<Record> := [];
    var i := 0;
    assert lines[..0] == [];
    while i < |lines|
      invariant 0 <= i <= |lines|
      invariant ParseLines(lines[..i]) == Ok(parsed)
      invariant out == Bumped(parsed, path, now)
      invariant found == Launched(parsed, path)
    {
      ParseLinesNext(lines, i, parsed);
      var read, bumped := ReadLine(lines[i], path, now);
      if read.Err? {
        ParseLinesErrExtends(lines, i + 1);
        return Err(read.error);
      }
      if read.value.Some? {
        var rec := read.value.value;
        ReadOneMore(parsed, rec, path, now);
        found := found || rec.path == path;
        out := out + [bumped];
        parsed := parsed + [rec];
      }
      i := i + 1;
    }
    assert lines[..|lines|] == lines;
    r := Ok((out, found));
  }

  /** The writing loop of `update_launch_history`: one line per kept record. */
  method WriteHistory(out: seq<Record>) returns (written: seq<string>)
    ensures written == FormatLines(Kept(out))
  {
    var kept := Head(SortDescending(out));
    written := [];
    var k := 0;
    while k < |kept|
      invariant 0 <= k <= |kept|
      invariant written == FormatLines(kept[..k])
    {
      assert kept[..k + 1][..k] == kept[..k] && kept[..k + 1][k] == kept[k];
      written := written + [FormatLine(kept[k])];
      k := k + 1;
    }
    assert kept[..|kept|] == kept;
  }

  /** `update_launch_history(path)`, with the file's lines (None when there
      is no file) and the clock reading `now` as parameters; the result is
      the lines written. */
  method UpdateLaunchHistory(file: Option<seq<string>>, path: string, now: string) returns (r: Result<seq<string>>)
    ensures r == UpdatedHistory(file, path, now)
  {
    var out: seq<Record> := [];
    var found := false;
    if file.Some? {
      var read := ReadHistory(file.value, path, now);
      if read.Err? {
        return Err(read.error);
      }
      out, found := read.value.0, read.value.1;
    }
    if !found {
      out := out + [Record(now, 1, path)];
    }
    var written := WriteHistory(out);
    r := Ok(written);
  }

  /** Launching keeps every record writable. */
  lemma UpdatedWritable(recs: seq<Record>, path: string, now: string)
    requires Writable(Record(now, 1, path))
    requires forall k :: 0 <= k < |recs| ==> Writable(recs[k])
    ensures forall k :: 0 <= k < |Updated(recs, path, now)| ==> Writable(Updated(recs, path, now)[k])
  {
    var out := Updated(recs, path, now);
    forall k | 0 <= k < |out| ensures Writable(out[k]) {
      if k < |recs| {
        assert Writable(recs[k]);
        assert out[k].time == (if recs[k].path == path then now else recs[k].time);
        assert out[k].path == recs[k].path;
      } else {
        assert out[k] == Record(now, 1, path);
      }
    }
  }

  /** Keeping the largest records keeps them writable. */
  lemma KeptWritable(out: seq<Record>)
    requires forall k :: 0 <= k < |out| ==> Writable(out[k])
    ensures forall k :: 0 <= k < |Kept(out)| ==> Writable(Kept(out)[k])
  {
    var kept := Kept(out);
    var s := SortDescending(out);
    forall k | 0 <= k < |kept| ensures Writable(kept[k]) {
      assert kept[k] == s[k];
      assert s[k] in multiset(out);
    }
  }

  /** A history of writable records stays readable: every line written
      reads back to the record it was written from. */
  lemma UpdatedHistoryReadable(file: Option<seq<string>>, path: string, now: string)
    requires ReadFile(file).Ok?
    requires Writable(Record(now, 1, path))
    requires forall k :: 0 <= k < |ReadFile(file).value| ==> Writable(ReadFile(file).value[k])
    ensures UpdatedHistory(file, path, now).Ok?
    ensures ParseLines(UpdatedHistory(file, path, now).value) == Ok(Kept(Updated(ReadFile(file).value, path, now)))
  {
    var recs := ReadFile(file).value;
    UpdatedWritable(recs, path, now);
    KeptWritable(Updated(recs, path, now));
    FormatLinesRoundTrip(Kept(Updated(recs, path, now)));
  }

  /** Whether the sort of `update_launch_history` meets times of two types:
      a record read back and not of `path` keeps its time as read, a string,
      while the record of `path`, bumped or new, always carries the float
      `time.time()`. */
  predicate MixedTimes(recs: seq<Record>, path: string)
  {
    Matches(recs, path) < |recs|
  }

  /** `update_launch_history` as written, under Python 3: the file's text
      after the call and the exception raised, if any. A line that does not
      parse raises before the file is touched. Otherwise the file is opened
      with 'w', which empties it, before `sorted` runs; a sort that meets a
      string time and a float time compares them and raises TypeError, so
      the file is left empty. */
  function UpdatedHistoryAsWritten(file: Option<seq<string>>, path: string, now: string): (r: (Option<seq<string>>, Option<PyException>))
    ensures ReadFile(file).Err? ==> r == (file, Some(ReadFile(file).error))
    ensures ReadFile(file).Ok? && MixedTimes(ReadFile(file).value, path) ==> r == (Some([]), Some(TypeError))
    ensures ReadFile(file).Ok? && !MixedTimes(ReadFile(file).value, path) ==>
      r == (Some(UpdatedHistory(file, path, now).value), None)
  {
    match ReadFile(file)
    case Err(e) => (file, Some(e))
    case Ok(recs) =>
      if MixedTimes(recs, path) then (Some([]), Some(TypeError))
      else (Some(FormatLines(Kept(Updated(recs, path, now)))), None)
  }

  /** The one-line history "1,1,a" reads back as the record of path "a"
      launched once at time "1". */
  lemma ReadOneLine()
    ensures ReadFile(Some(["1,1,a"])) == Ok([Record("1", 1, "a")])
  {
    var rec := Record("1", 1, "a");
    assert FormatLines([rec]) == ["1,1,a"] by {
      assert IntToString(1) == "1" by {
        assert NatToString(1) == [DigitChar(1)];
      }
      assert FormatLine(rec) == "1,1,a";
      assert [rec][..0] == [];
    }
    assert Writable(rec);
    FormatLinesRoundTrip([rec]);
  }

  /** A history of one record of another path: the source's update leaves
      the file empty and raises TypeError. */
  lemma OtherPathEmptiesHistory(file: Option<seq<string>>, path: string, now: string, rec: Record)
    requires ReadFile(file) == Ok([rec]) && rec.path != path
    ensures UpdatedHistoryAsWritten(file, path, now) == (Some([]), Some(TypeError))
  {
    assert [rec][..0] == [];
    assert MixedTimes([rec], path);
  }

  /** A history of one record of another path: the update writes two
      lines, the old record and the new one. */
  lemma OtherPathWritesBoth(file: Option<seq<string>>, path: string, now: string, rec: Record)
    requires ReadFile(file) == Ok([rec]) && rec.path != path
    ensures UpdatedHistory(file, path, now).Ok?
    ensures |UpdatedHistory(file, path, now).value| == 2
  {
    assert [rec][..0] == [];
    assert !Launched([rec], path);
    var out := Updated([rec], path, now);
    assert |out| == 2;
    KeptIsTopRecords(out);
  }

  /** Launching a second experiment empties the history: with one line of
      another path in the file, the file as written ends up empty and the
      call raises TypeError, where the update writes both records. */
  lemma SecondLaunchEmptiesHistory()
    ensures UpdatedHistoryAsWritten(Some(["1,1,a"]), "b", "2") == (Some([]), Some(TypeError))
    ensures UpdatedHistory(Some(["1,1,a"]), "b", "2").Ok?
    ensures |UpdatedHistory(Some(["1,1,a"]), "b", "2").value| == 2
  {
    ReadOneLine();
    OtherPathEmptiesHistory(Some(["1,1,a"]), "b", "2", Record("1", 1, "a"));
    OtherPathWritesBoth(Some(["1,1,a"]), "b", "2", Record("1", 1, "a"));
  }

  // ------------------------------------------------------------ load

  /** The index of the last `c` in `s`, if any (`s.rfind(c)`). */
  function LastIndex(s: string, c: char): (r: Option<nat>)
    ensures r.None? <==> c !in s
    ensures r.Some? ==> r.value < |s| && s[r.value] == c && c !in s[r.value + 1..]
  {
    if s == [] then None
    else if s[|s| - 1] == c then Some(|s| - 1)
    else
      var r := LastIndex(s[..|s| - 1], c);
      assert forall x :: x in s ==> x in s[..|s| - 1] || x == s[|s| - 1];
      if r.Some? then
        assert s[r.value + 1..] == s[..|s| - 1][r.value + 1..] + [s[|s| - 1]];
        r
      else r
  }

  /** `os.path.basename(p)`: the part after the last '/'. */
  function Basename(p: string): (r: string)
    ensures '/' !in r
    ensures |r| <= |p| && r == p[|p| - |r|..]
  {
    match LastIndex(p, '/')
    case None => p
    case Some(i) => p[i + 1..]
  }

  /** `os.path.splitext(name)[0]` for a name without '/': the name up to its
      last '.', unless that dot is preceded by dots only (a leading dot does
      not start an extension). */
  function Stem(name: string): (r: string)
    ensures r == name || (|r| < |name| && r == name[..|r|] && name[|r|] == '.' && '.' !in name[|r| + 1..])
    ensures r != name ==> exists k :: 0 <= k < |r| && r[k] != '.'
  {
    match LastIndex(name, '.')
    case None => name
    case Some(i) =>
      if forall k :: 0 <= k < i ==> name[k] == '.' then name
      else name[..i]
  }

  /** `os.path.splitext(os.path.basename(p))[0]`: a path's file name without
      its extension. */
  function ItemName(p: string): (r: string)
    ensures '/' !in r
    ensures var b := Basename(p); r == b || (|r| < |b| && r == b[..|r|] && b[|r|] == '.')
    ensures '/' !in p ==> r == Stem(p)
  {
    Stem(Basename(p))
  }

  /** One row of the launch history table. */
  datatype LaunchItem = LaunchItem(name: string, path: string, lastRunTime: string, totalLaunches: int)

  /** `factory(l)` of `load`: None for a blank line, else the item named
      after the path's file. */
  function LoadItem(line: string): (r: Result<Option<LaunchItem>>)
    ensures IsBlank(line) ==> r == Ok(None)
    ensures ParseLine(line).Err? ==> r.Err?
    ensures ParseLine(line).Ok? && ParseLine(line).value.Some? ==>
      var rec := ParseLine(line).value.value;
      r == Ok(Some(LaunchItem(ItemName(rec.path), rec.path, rec.time, rec.count)))
  {
    match ParseLine(line)
    case Err(e) => Err(e)
    case Ok(None) => Ok(None)
    case Ok(Some(rec)) => Ok(Some(LaunchItem(ItemName(rec.path), rec.path, rec.time, rec.count)))
  }

  /** The items of `load`: the item of every nonblank line, in file order. */
  function LoadItems(lines: seq<string>): (r: Result<seq<LaunchItem>>)
    ensures ParseLines(lines).Ok? <==> r.Ok?
    ensures r.Ok? ==> |r.value| == |ParseLines(lines).value|
    ensures r.Ok? ==> forall k :: 0 <= k < |r.value| ==>
      var rec := ParseLines(lines).value[k];
      r.value[k] == LaunchItem(ItemName(rec.path), rec.path, rec.time, rec.count)
  {
    if lines == [] then Ok([])
    else
      match LoadItems(lines[..|lines| - 1])
      case Err(e) => Err(e)
      case Ok(items) =>
        match LoadItem(lines[|lines| - 1])
        case Err(e) => Err(e)
        case Ok(None) => Ok(items)
        case Ok(Some(item)) => Ok(items + [item])
  }

  /** A history written by `update_launch_history` loads as one item per
      kept record, in the order written, each named after its path's file
      with the count and time it was written with. */
  lemma LoadWrittenHistory(recs: seq<Record>)
    requires forall k :: 0 <= k < |recs| ==> Writable(recs[k])
    ensures var lines := FormatLines(recs);
      && LoadItems(lines).Ok?
      && |LoadItems(lines).value| == |recs|
      && forall k :: 0 <= k < |recs| ==>
           LoadItems(lines).value[k] == LaunchItem(ItemName(recs[k].path), recs[k].path, recs[k].time, recs[k].count)
  {
    FormatLinesRoundTrip(recs);
  }

  /** The launch history window: the items read from the history file. */
  class ExperimentLaunchHistory {
    var items: seq<LaunchItem>

    constructor ()
      ensures items == []
    {
      items := [];
    }

    /** `load()`, with the file's lines as a parameter: the items replace
        the previous ones; a line that does not parse raises, and the items
        are left as they were. */
    method Load(lines: seq<string>) returns (err: Option<PyException>)
      modifies this`items
      ensures LoadItems(lines).Ok? ==> items == LoadItems(lines).value && err == None
      ensures LoadItems(lines).Err? ==> items == old(items) && err == Some(LoadItems(lines).error)
    {
      var loaded := LoadItems(lines);
      if loaded.Ok? {
        items := loaded.value;
        err := None;
      } else {
        err := Some(loaded.error);
      }
    }
  }
}
