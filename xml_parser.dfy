/** The XML helpers: `indent`, which normalises the whitespace of an element
    tree before it is saved, `XMLParser.new_element`, and `pprint_xml`, which
    re-indents a document from the token stream of its tokenizer. */
module XmlParser {
  import opened Wrappers
  import opened Text

  // ------------------------------------------------------------ elements

  /** An element: its tag and attributes, the text before its first child,
      the tail after its end tag, and its children. */
  datatype Element = Element(
    tag: string,
    attrib: map<string, string>,
    text: Option<string>,
    tail: Option<string>,
    children: seq<Element>)

  /** `not s or not s.strip()`: absent, empty or whitespace only. */
  predicate Blank(s: Option<string>)
  {
    s.None? || IsBlank(s.value)
  }

  /** `"\n" + level * "  "`, the whitespace `indent` writes at `level`. */
  function Newline(level: nat): (r: string)
    ensures |r| == 1 + 2 * level && r[0] == '\n'
    ensures IsBlank(r)
  {
    RepeatBlank("  ", level);
    "\n" + Repeat("  ", level)
  }

  lemma {:induction false} RepeatBlank(s: string, n: int)
    requires IsBlank(s)
    ensures IsBlank(Repeat(s, n))
    decreases n
  {
    if n > 0 {
      RepeatBlank(s, n - 1);
      var r := Repeat(s, n);
      assert r == s + Repeat(s, n - 1);
      forall i | 0 <= i < |r| ensures IsSpace(r[i]) {
        if i >= |s| {
          assert r[i] == Repeat(s, n - 1)[i - |s|];
        }
      }
    }
  }

  /** Appending one more copy of `s` gives `n + 1` copies. */
  lemma {:induction false} RepeatSnoc(s: string, n: nat)
    ensures Repeat(s, n) + s == Repeat(s, n + 1)
  {
    if n > 0 {
      RepeatSnoc(s, n - 1);
      assert Repeat(s, n) + s == s + (Repeat(s, n - 1) + s);
    }
  }

  /** The text `indent` gives a parent at `level`: one level deeper than its tail. */
  lemma ParentText(level: nat)
    ensures Newline(level) + "  " == Newline(level + 1)
  {
    RepeatSnoc("  ", level);
  }

  /** `indent(elem, level)`, on the value of the tree: a parent gets blank
      text replaced by the whitespace of the next level and a blank tail by
      that of its own level, and its children are indented one level deeper;
      a leaf only has a blank tail replaced, and only below the root. */
  function Indent(e: Element, level: nat): (r: Element)
    ensures r.tag == e.tag && r.attrib == e.attrib
    ensures |r.children| == |e.children|
    ensures forall k :: 0 <= k < |e.children| ==> r.children[k] == Indent(e.children[k], level + 1)
    ensures !Blank(e.text) ==> r.text == e.text
    ensures !Blank(e.tail) ==> r.tail == e.tail
    ensures e.children != [] && Blank(e.text) ==> r.text == Some(Newline(level + 1))
    ensures e.children != [] && Blank(e.tail) ==> r.tail == Some(Newline(level))
    ensures e.children == [] ==> r.text == e.text
    ensures e.children == [] && level == 0 ==> r == e
    ensures e.children == [] && level > 0 && Blank(e.tail) ==> r.tail == Some(Newline(level))
    decreases e
  {
    var i := Newline(level);
    if |e.children| > 0 then
      ParentText(level);
      var text := if Blank(e.text) then Some(i + "  ") else e.text;
      // The tail is examined again after the children; by then it is either
      // the original non-blank tail or `i`, so the second test changes nothing.
      var tail := if Blank(e.tail) then Some(i) else e.tail;
      var children := seq(|e.children|, k requires 0 <= k < |e.children| => Indent(e.children[k], level + 1));
      e.(text := text, tail := tail, children := children)
    else if level > 0 && Blank(e.tail) then
      e.(tail := Some(i))
    else
      e
  }

  /** `r` is `e` with only blank texts and tails rewritten: every element of
      the tree keeps its tag, attributes, number of children and every text
      or tail that holds something besides whitespace. */
  predicate KeepsContent(e: Element, r: Element)
    decreases e
  {
    && r.tag == e.tag && r.attrib == e.attrib
    && (!Blank(e.text) ==> r.text == e.text)
    && (!Blank(e.tail) ==> r.tail == e.tail)
    && |r.children| == |e.children|
    && forall k :: 0 <= k < |e.children| ==> KeepsContent(e.children[k], r.children[k])
  }

  /** `indent` never overwrites content, at any depth, and visits every
      element of the tree exactly once. */
  lemma {:induction false} IndentKeepsContent(e: Element, level: nat)
    ensures KeepsContent(e, Indent(e, level))
    decreases e, 1
  {
    var r := Indent(e, level);
    ChildrenKeepContent(e, level, r.children);
    TopKeepsContent(e, r);
  }

  /** The children of `e`, indented one level deeper, keep their content. */
  lemma {:induction false} ChildrenKeepContent(e: Element, level: nat, rs: seq<Element>)
    requires |rs| == |e.children|
    requires forall k :: 0 <= k < |e.children| ==> rs[k] == Indent(e.children[k], level + 1)
    ensures forall k :: 0 <= k < |e.children| ==> KeepsContent(e.children[k], rs[k])
    decreases e, 0
  {
    forall k | 0 <= k < |e.children|
      ensures KeepsContent(e.children[k], rs[k])
    {
      IndentKeepsContent(e.children[k], level + 1);
    }
  }

  /** `KeepsContent` once the top element keeps its content and every child
      keeps its own. */
  lemma TopKeepsContent(e: Element, r: Element)
    requires r.tag == e.tag && r.attrib == e.attrib && |r.children| == |e.children|
    requires !Blank(e.text) ==> r.text == e.text
    requires !Blank(e.tail) ==> r.tail == e.tail
    requires forall k :: 0 <= k < |e.children| ==> KeepsContent(e.children[k], r.children[k])
    ensures KeepsContent(e, r)
  {
  }

  /** Indenting an indented tree again changes nothing. */
  lemma {:induction false} IndentIdempotent(e: Element, level: nat)
    ensures Indent(Indent(e, level), level) == Indent(e, level)
    decreases e
  {
    var r := Indent(e, level);
    var rr := Indent(r, level);
    forall k | 0 <= k < |e.children|
      ensures rr.children[k] == r.children[k]
    {
      IndentIdempotent(e.children[k], level + 1);
    }
    assert rr.children == r.children;
  }

  /** The Python values `new_element` is given. */
  datatype PyValue = PyNone | PyStr(s: string) | PyInt(i: int) | PyBool(b: bool)

  /** `str(value)`. */
  function PyString(v: PyValue): (r: string)
    ensures v.PyStr? ==> r == v.s
    ensures v.PyInt? ==> ParseInt(r) == Ok(v.i)
  {
    match v
    case PyNone => "None"
    case PyStr(s) => s
    case PyInt(i) => ParseIntOfString(i); IntToString(i)
    case PyBool(b) => if b then "True" else "False"
  }

  /** `new_element(tag, value, **kw)`: a childless element with the keywords
      as attributes, whose text is `str(value)` unless the value is "" or
      None, in which case it has no text. */
  function NewElement(tag: string, value: PyValue, kw: map<string, string>): (r: Element)
    ensures r.tag == tag && r.attrib == kw && r.children == [] && r.tail == None
    ensures r.text.None? <==> value == PyNone || value == PyStr("")
    ensures r.text.Some? ==> r.text.value == PyString(value)
  {
    var text := if value == PyNone || value == PyStr("") then None else Some(PyString(value));
    Element(tag, kw, text, None, [])
  }

  /** A new element is already indented as a root, and as a child it only
      gains the line break of its level as its tail. */
  lemma IndentNewElement(tag: string, value: PyValue, kw: map<string, string>, level: nat)
    ensures level == 0 ==> Indent(NewElement(tag, value, kw), level) == NewElement(tag, value, kw)
    ensures level > 0 ==>
      Indent(NewElement(tag, value, kw), level) == NewElement(tag, value, kw).(tail := Some(Newline(level)))
  {
  }

  // ------------------------------------------------------------ pprint_xml

  /** The groups of the tokenizer's pattern: a tag name with its optional
      '/', '?' or '!' prefix, an entity, a word, a run of whitespace, and any
      other single character. */
  const TagCode: nat := 1
  const EntityCode: nat := 2
  const WordCode: nat := 3
  const SpaceCode: nat := 4
  const OtherCode: nat := 5

  /** One token of the tokenizer: the number of the group that matched and
      the matched text. */
  datatype Token = Token(code: nat, text: string)

  /** The four spaces `pprint_xml` indents by. */
  const Indent4 := "    "

  /** The loop state of `pprint_xml`: the pieces of the line being built,
      the lines emitted so far, the stack of open tags and whether the next
      token is skipped. */
  datatype Printer = Printer(line: seq<string>, lines: seq<string>, stack: seq<string>, skipNext: bool)

  const Start := Printer([], [], [], false)

  /** One pass of the loop body of `pprint_xml`. A closing tag pops the stack
      (an empty stack is Python's IndexError), emits the line closed by it
      indented by the remaining depth and skips the next token. An opening
      tag emits the pending line one level shallower than the stack's depth,
      pushes its name unless it is an XML declaration, and starts a new line.
      Any other token joins the line, whitespace as one space. */
  function Step(p: Printer, tok: Token): (r: Result<Printer>)
    ensures p.skipNext ==> r == Ok(p.(skipNext := false))
    ensures !p.skipNext && tok.code == TagCode && StartsWith(RStrip(tok.text), "/") ==>
      if p.stack == [] then r == Err(IndexError)
      else
        var stack := p.stack[..|p.stack| - 1];
        var line := Join(p.line + ["<" + RStrip(tok.text) + ">"], "");
        r == Ok(Printer([], p.lines + [Repeat(Indent4, |stack|) + Strip(line)], stack, true))
    ensures !p.skipNext && tok.code == TagCode && !StartsWith(RStrip(tok.text), "/") ==>
      && r.Ok?
      && r.value.lines == p.lines + [Repeat(Indent4, |p.stack| - 1) + Strip(Join(p.line, ""))]
      && r.value.line == ["<" + RStrip(tok.text)]
      && r.value.stack == (if StartsWith(RStrip(tok.text), "?xml") then p.stack else p.stack + [RStrip(tok.text)])
      && !r.value.skipNext
    ensures !p.skipNext && tok.code != TagCode ==>
      r == Ok(p.(line := p.line + [if tok.code == SpaceCode then " " else RStrip(tok.text)]))
  {
    var t := RStrip(tok.text);
    if p.skipNext then Ok(p.(skipNext := false))
    else if tok.code == TagCode then
      if StartsWith(t, "/") then
        if p.stack == [] then Err(IndexError)
        else
          var stack := p.stack[..|p.stack| - 1];
          var line := p.line + ["<" + t + ">"];
          Ok(Printer([], p.lines + [Repeat(Indent4, |stack|) + Strip(Join(line, ""))], stack, true))
      else
        var lines := p.lines + [Repeat(Indent4, |p.stack| - 1) + Strip(Join(p.line, ""))];
        var stack := if StartsWith(t, "?xml") then p.stack else p.stack + [t];
        Ok(Printer(["<" + t], lines, stack, false))
    else
      Ok(p.(line := p.line + [if tok.code == SpaceCode then " " else t]))
  }

  /** The loop of `pprint_xml` over the tokens, from state `p`. */
  function Run(p: Printer, toks: seq<Token>): (r: Result<Printer>)
    decreases |toks|
  {
    if toks == [] then Ok(p)
    else
      match Step(p, toks[0])
      case Err(e) => Err(e)
      case Ok(q) => Run(q, toks[1..])
  }

  /** A run that takes a step goes on from the state the step leaves. */
  lemma RunStep(p: Printer, toks: seq<Token>)
    requires toks != []
    ensures Step(p, toks[0]).Ok? ==> Run(p, toks) == Run(Step(p, toks[0]).value, toks[1..])
    ensures Step(p, toks[0]).Err? ==> Run(p, toks) == Err(Step(p, toks[0]).error)
  {
  }

  /** The lines once the loop ends: the pending line, if any, is emitted
      stripped. */
  function Flush(p: Printer): (r: seq<string>)
    ensures p.line == [] ==> r == p.lines
    ensures p.line != [] ==> r == p.lines + [Strip(Join(p.line, ""))]
  {
    if p.line != [] then p.lines + [Strip(Join(p.line, ""))] else p.lines
  }

  /** `[li for li in lines if li.strip()]`. */
  function NonBlank(lines: seq<string>): (r: seq<string>)
    ensures forall k :: 0 <= k < |r| ==> !IsBlank(r[k])
    ensures forall k :: 0 <= k < |r| ==> r[k] in lines
    ensures forall l :: l in lines && !IsBlank(l) ==> l in r
  {
    if lines == [] then []
    else
      var rest := NonBlank(lines[..|lines| - 1]);
      var last := lines[|lines| - 1];
      assert forall l :: l in lines ==> l in lines[..|lines| - 1] || l == last;
      if IsBlank(last) then rest else rest + [last]
  }

  /** What `pprint_xml` returns for the tokens of a document. */
  function PrettyXml(toks: seq<Token>): (r: Result<string>)
  {
    match Run(Start, toks)
    case Err(e) => Err(e)
    case Ok(p) => Ok(Join(NonBlank(Flush(p)), "\n"))
  }

  /** `pprint_xml(txt)`, over the tokens of `txt`. */
  method PprintXml(toks: seq<Token>) returns (r: Result<string>)
    ensures r == PrettyXml(toks)
  {
    var line: seq<string> := [];
    var lines: seq<string> := [];
    var stack: seq<string> := [];
    var skipNext := false;
    var i := 0;
    while i < |toks|
      invariant 0 <= i <= |toks|
      invariant Run(Start, toks) == Run(Printer(line, lines, stack, skipNext), toks[i..])
    {
      ghost var before := Printer(line, lines, stack, skipNext);
      var c := toks[i].code;
      var t := RStrip(toks[i].text);
      if skipNext {
        skipNext := false;
        assert Step(before, toks[i]) == Ok(Printer(line, lines, stack, skipNext));
      } else if c == TagCode {
        if StartsWith(t, "/") {
          if stack == [] {
            assert Step(before, toks[i]) == Err(IndexError);
            RunStep(before, toks[i..]);
            return Err(IndexError);
          }
          stack := stack[..|stack| - 1];
          line := line + ["<" + t + ">"];
          lines := lines + [Repeat(Indent4, |stack|) + Strip(Join(line, ""))];
          line := [];
          skipNext := true;
          assert Step(before, toks[i]) == Ok(Printer(line, lines, stack, skipNext));
        } else {
          lines := lines + [Repeat(Indent4, |stack| - 1) + Strip(Join(line, ""))];
          line := [];
          if !StartsWith(t, "?xml") {
            stack := stack + [t];
          }
          line := line + ["<" + t];
          assert line == ["<" + t];
          assert Step(before, toks[i]) == Ok(Printer(line, lines, stack, skipNext));
        }
      } else {
        if c == SpaceCode {
          t := " ";
        }
        line := line + [t];
        assert Step(before, toks[i]) == Ok(Printer(line, lines, stack, skipNext));
      }
      RunStep(before, toks[i..]);
      assert toks[i..][1..] == toks[i + 1..];
      i := i + 1;
    }
    if line != [] {
      lines := lines + [Strip(Join(line, ""))];
    }
    var kept := KeepNonBlank(lines);
    r := Ok(Join(kept, "\n"));
  }

  /** The filter at the end of `pprint_xml`: the lines that are not blank,
      in order. */
  method KeepNonBlank(lines: seq<string>) returns (kept: seq<string>)
    ensures kept == NonBlank(lines)
  {
    kept := [];
    var k := 0;
    while k < |lines|
      invariant 0 <= k <= |lines|
      invariant kept == NonBlank(lines[..k])
    {
      assert lines[..k + 1][..k] == lines[..k];
      if !IsBlank(lines[k]) {
        kept := kept + [lines[k]];
      }
      k := k + 1;
    }
    assert lines[..|lines|] == lines;
  }

  // ---------------------------------------------- properties of pprint_xml

  /** No stack entry is an XML declaration. */
  predicate NoDeclaration(stack: seq<string>)
  {
    forall k :: 0 <= k < |stack| ==> !StartsWith(stack[k], "?xml")
  }

  /** An XML declaration is never pushed: a run that starts without one on
      the stack ends without one. */
  lemma {:induction false} DeclarationNeverPushed(p: Printer, toks: seq<Token>)
    requires NoDeclaration(p.stack)
    ensures Run(p, toks).Ok? ==> NoDeclaration(Run(p, toks).value.stack)
    decreases |toks|
  {
    if toks != [] {
      var s := Step(p, toks[0]);
      if s.Ok? {
        StepNoDeclaration(p, toks[0]);
        DeclarationNeverPushed(s.value, toks[1..]);
      }
    }
  }

  /** One step pushes no XML declaration. */
  lemma StepNoDeclaration(p: Printer, tok: Token)
    requires NoDeclaration(p.stack)
    ensures Step(p, tok).Ok? ==> NoDeclaration(Step(p, tok).value.stack)
  {
    var t := RStrip(tok.text);
    if !p.skipNext && tok.code == TagCode && p.stack != [] && StartsWith(t, "/") {
      var stack := p.stack[..|p.stack| - 1];
      assert forall k :: 0 <= k < |stack| ==> stack[k] == p.stack[k];
    } else if !p.skipNext && tok.code == TagCode && !StartsWith(t, "/") && !StartsWith(t, "?xml") {
      var stack := p.stack + [t];
      assert forall k :: 0 <= k < |p.stack| ==> stack[k] == p.stack[k];
    }
  }

  /** A token the tokenizer can produce other than whitespace holds no line
      break. */
  predicate Scanned(tok: Token)
  {
    tok.code != SpaceCode ==> '\n' !in tok.text
  }

  /** A printer state none of whose pieces or lines holds a line break. */
  predicate SingleLines(p: Printer)
  {
    && (forall k :: 0 <= k < |p.line| ==> '\n' !in p.line[k])
    && (forall k :: 0 <= k < |p.lines| ==> '\n' !in p.lines[k])
  }

  lemma {:induction false} JoinNoBreak(parts: seq<string>)
    requires forall k :: 0 <= k < |parts| ==> '\n' !in parts[k]
    ensures '\n' !in Join(parts, "")
  {
    if |parts| > 1 {
      JoinNoBreak(parts[1..]);
    }
  }

  lemma {:induction false} RepeatNoBreak(n: int)
    ensures '\n' !in Repeat(Indent4, n)
    decreases n
  {
    if n > 0 {
      RepeatNoBreak(n - 1);
    }
  }

  /** A line emitted at any depth from pieces without a line break holds
      none. */
  lemma EmittedNoBreak(parts: seq<string>, depth: int)
    requires forall k :: 0 <= k < |parts| ==> '\n' !in parts[k]
    ensures '\n' !in Repeat(Indent4, depth) + Strip(Join(parts, ""))
  {
    JoinNoBreak(parts);
    StripKeepsOut(Join(parts, ""), '\n');
    RepeatNoBreak(depth);
  }

  /** A closing tag emits the pending line with the tag appended. */
  lemma ClosingSingleLines(p: Printer, t: string)
    requires SingleLines(p) && '\n' !in t && p.stack != []
    ensures SingleLines(Printer([], p.lines + [Repeat(Indent4, |p.stack| - 1) + Strip(Join(p.line + ["<" + t + ">"], ""))],
                                p.stack[..|p.stack| - 1], true))
  {
    var parts := p.line + ["<" + t + ">"];
    assert forall k :: 0 <= k < |parts| ==> '\n' !in parts[k] by {
      assert '\n' !in "<" + t + ">";
    }
    EmittedNoBreak(parts, |p.stack| - 1);
  }

  /** An opening tag emits the pending line and starts a new one. */
  lemma OpeningSingleLines(p: Printer, t: string, stack: seq<string>)
    requires SingleLines(p) && '\n' !in t
    ensures SingleLines(Printer(["<" + t], p.lines + [Repeat(Indent4, |p.stack| - 1) + Strip(Join(p.line, ""))], stack, false))
  {
    EmittedNoBreak(p.line, |p.stack| - 1);
    assert '\n' !in "<" + t;
  }

  /** Any other token adds one piece to the pending line. */
  lemma TextSingleLines(p: Printer, piece: string)
    requires SingleLines(p) && '\n' !in piece
    ensures SingleLines(p.(line := p.line + [piece]))
  {
  }

  /** One step over a scanned token keeps every piece and line on one line. */
  lemma StepSingleLines(p: Printer, tok: Token)
    requires SingleLines(p) && Scanned(tok)
    ensures Step(p, tok).Ok? ==> SingleLines(Step(p, tok).value)
  {
    var t := RStrip(tok.text);
    if p.skipNext {
    } else if tok.code == TagCode {
      RStripKeepsOut(tok.text, '\n');
      if StartsWith(t, "/") {
        if p.stack != [] {
          ClosingSingleLines(p, t);
        }
      } else {
        OpeningSingleLines(p, t, if StartsWith(t, "?xml") then p.stack else p.stack + [t]);
      }
    } else if tok.code == SpaceCode {
      TextSingleLines(p, " ");
    } else {
      RStripKeepsOut(tok.text, '\n');
      TextSingleLines(p, t);
    }
  }

  lemma {:induction false} RunSingleLines(p: Printer, toks: seq<Token>)
    requires SingleLines(p)
    requires forall k :: 0 <= k < |toks| ==> Scanned(toks[k])
    ensures Run(p, toks).Ok? ==> SingleLines(Run(p, toks).value)
    decreases |toks|
  {
    if toks != [] {
      StepSingleLines(p, toks[0]);
      var s := Step(p, toks[0]);
      if s.Ok? {
        RunSingleLines(s.value, toks[1..]);
      }
    }
  }

  /** Flushing the pending line keeps every line on one line. */
  lemma FlushSingleLines(p: Printer)
    requires SingleLines(p)
    ensures forall k :: 0 <= k < |Flush(p)| ==> '\n' !in Flush(p)[k]
  {
    if p.line != [] {
      JoinNoBreak(p.line);
      StripKeepsOut(Join(p.line, ""), '\n');
    }
  }

  /** `pprint_xml` never emits a whitespace-only line: for the tokens of a
      document, the output is empty or each of its lines holds something
      besides whitespace. */
  lemma NoBlankLines(toks: seq<Token>)
    requires forall k :: 0 <= k < |toks| ==> Scanned(toks[k])
    ensures PrettyXml(toks).Ok? && PrettyXml(toks).value != [] ==>
      var lines := Split(PrettyXml(toks).value, '\n');
      forall k :: 0 <= k < |lines| ==> !IsBlank(lines[k])
  {
    RunSingleLines(Start, toks);
    var run := Run(Start, toks);
    if run.Ok? {
      var flushed := Flush(run.value);
      FlushSingleLines(run.value);
      var kept := NonBlank(flushed);
      if kept != [] {
        assert forall k :: 0 <= k < |kept| ==> '\n' !in kept[k];
        SplitJoin(kept, '\n');
      }
    }
  }
}
