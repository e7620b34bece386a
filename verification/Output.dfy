/** The response buffer: elements separated by ',' within a command and by ';' between
    commands (section 8.4 of IEEE 488.2), in 32 KiB. */
module Output {

  const OUTPUT_SIZE := 32768

  /** Text so far, and what the next element needs in front of it. */
  datatype Response = Response(text: string, needSep: bool, elems: nat, overflow: bool)

  const CLEAR := Response("", false, 0, false)

  function Room(r: Response): int { OUTPUT_SIZE - |r.text| - 1 }

  function AppendChar(r: Response, c: char): Response {
    if Room(r) > 1 then r.(text := r.text + [c]) else r.(overflow := true)
  }

  /** What vsnprintf leaves of a text in a buffer that it just fills: the last character
      makes way for the terminator. */
  function Clipped(text: string, room: int): string {
    if |text| == room > 0 then text[..room - 1] + ['\0'] else text
  }

  function Separated(r: Response, newline: bool): Response {
    var r1 := if r.needSep then AppendChar(r, ';').(needSep := false, elems := 0) else r;
    if r1.elems > 0 && !newline then AppendChar(r1, ',') else r1
  }

  /** scpi_output_printf of an already formatted text. */
  function Print(r: Response, newline: bool, text: string): Response {
    var r1 := Separated(r, newline);
    var r2 := if |text| > Room(r1) then r1.(overflow := true)
              else r1.(text := r1.text + Clipped(text, Room(r1)));
    r2.(elems := r2.elems + 1)
  }

  /** scpi_output_flush: the line it writes, nothing from an empty buffer, and what it
      leaves; None when its `!err` assertion fails. */
  function Flush(r: Response): Option<(string, Response)> {
    if r.text == "" then Some(("", r))
    else if 1 > Room(Separated(r, true)) then None
    else
      var r1 := Print(r, true, "\n");
      Some((r1.text, r1.(text := "")))
  }

  datatype Option<+T> = None | Some(value: T)

  function MarkSeparator(r: Response): Response { r.(needSep := true) }

  class Buffer {
    var needSep: bool
    var numElem: nat
    var overflow: bool
    var len: nat
    const buf: array<char>

    ghost predicate Valid()
      reads this
    {
      buf.Length == OUTPUT_SIZE && len < OUTPUT_SIZE
    }

    ghost function Value(): (r: Response)
      requires Valid()
      reads this, buf
      ensures |r.text| <= OUTPUT_SIZE - 1
    {
      Response(buf[..len], needSep, numElem, overflow)
    }

    constructor ()
      ensures Valid() && Value() == CLEAR && fresh(buf)
    {
      needSep, numElem, overflow, len := false, 0, false, 0;
      buf := new char[OUTPUT_SIZE](_ => '\0');
    }

    method Append(c: char) returns (current: nat)
      requires Valid()
      modifies this`len, this`overflow, buf
      ensures Valid() && Value() == AppendChar(old(Value()), c) && current == Room(Value())
    {
      current := OUTPUT_SIZE - len - 1;
      if current > 1 {
        buf[len] := c;
        current := current - 1;
        len := len + 1;
        assert buf[..len] == old(buf[..len]) + [c];
      } else {
        overflow := true;
      }
    }

    /** vsnprintf into the rest of the buffer: as much of the text as leaves a place for
        the terminator. */
    method Format(text: string, current: nat)
      requires Valid() && current == OUTPUT_SIZE - len - 1
      modifies buf
      ensures buf[..len] == old(buf[..len])
      ensures |text| <= current ==> buf[len..len + |text|] == Clipped(text, current)
    {
      if current > 0 {
        var n := if |text| < current then |text| else current - 1;
        var i := 0;
        while i < n
          invariant 0 <= i <= n
          invariant forall k :: 0 <= k < len ==> buf[k] == old(buf[k])
          invariant forall k :: 0 <= k < i ==> buf[len + k] == text[k]
        {
          buf[len + i] := text[i];
          i := i + 1;
        }
        buf[len + n] := '\0';
      }
    }

    method Separate(newline: bool) returns (current: nat)
      requires Valid()
      modifies this, buf
      ensures Valid() && Value() == Separated(old(Value()), newline) && current == Room(Value())
    {
      current := OUTPUT_SIZE - len - 1;
      if needSep {
        current := Append(';');
        needSep := false;
        numElem := 0;
      }
      if numElem > 0 && !newline {
        current := Append(',');
      }
    }

    method Printf(newline: bool, text: string) returns (err: bool)
      requires Valid()
      modifies this, buf
      ensures Valid() && Value() == Print(old(Value()), newline, text)
      ensures err <==> |text| > Room(Separated(old(Value()), newline))
    {
      hide Separated;
      var current := Separate(newline);
      Format(text, current);
      err := |text| > current;
      if err {
        overflow := true;
      } else {
        assert buf[..len + |text|] == buf[..len] + buf[len..len + |text|];
        len := len + |text|;
      }
      numElem := numElem + 1;
    }

    /** scpi_output_flush; false when its assertion fails. */
    method FlushLine() returns (ok: bool, sent: string)
      requires Valid()
      modifies this, buf
      ensures Valid() && (ok <==> Flush(old(Value())).Some?)
      ensures ok ==> Flush(old(Value())) == Some((sent, Value()))
    {
      ok, sent := true, "";
      if len > 0 {
        var err := Printf(true, "\n");
        ok := !err;
        if ok {
          sent := buf[..len];
          len := 0;
        }
      }
    }

    method CmdSep()
      requires Valid()
      modifies this`needSep
      ensures Valid() && Value() == MarkSeparator(old(Value()))
    {
      needSep := true;
    }

    method Clear()
      requires Valid()
      modifies this, buf
      ensures Valid() && Value() == CLEAR
    {
      needSep, numElem, overflow, len := false, 0, false, 0;
      forall i | 0 <= i < buf.Length { buf[i] := '\0'; }
    }
  }

  // The reference layout

  /** What a line of commands does to its response: elements and command separators. */
  datatype Op = Elem(text: string) | Sep

  function Do(r: Response, op: Op): Response {
    match op case Elem(t) => Print(r, false, t) case Sep => MarkSeparator(r)
  }

  function Run(r: Response, ops: seq<Op>): Response
  {
    if ops == [] then r else Do(Run(r, ops[..|ops| - 1]), ops[|ops| - 1])
  }

  /** Elements grouped by the separators between them, and whether one is pending. */
  datatype Layout = Layout(groups: seq<seq<string>>, pending: bool)

  function Extend(l: Layout, op: Op): Layout
    requires l.groups != []
  {
    var n := |l.groups| - 1;
    match op
    case Sep => l.(pending := true)
    case Elem(t) => if l.pending then Layout(l.groups + [[t]], false)
                    else l.(groups := l.groups[..n] + [l.groups[n] + [t]])
  }

  function LayoutOf(ops: seq<Op>): (l: Layout)
    ensures l.groups != []
  {
    if ops == [] then Layout([[]], false) else Extend(LayoutOf(ops[..|ops| - 1]), ops[|ops| - 1])
  }

  function Join(parts: seq<string>, c: char): string {
    if parts == [] then ""
    else if |parts| == 1 then parts[0]
    else Join(parts[..|parts| - 1], c) + [c] + parts[|parts| - 1]
  }

  function JoinGroups(groups: seq<seq<string>>): seq<string> {
    seq(|groups|, i requires 0 <= i < |groups| => Join(groups[i], ','))
  }

  function Render(l: Layout): string { Join(JoinGroups(l.groups), ';') }

  predicate Plain(ops: seq<Op>) { forall i :: 0 <= i < |ops| && ops[i].Elem? ==> '\0' !in ops[i].text }

  lemma JoinSnoc(parts: seq<string>, last: string, c: char)
    ensures Join(parts + [last], c) == if parts == [] then last else Join(parts, c) + [c] + last
  {
    assert (parts + [last])[..|parts|] == parts;
  }

  /** What one element adds to the rendering: its separator and its text. */
  function Lead(l: Layout): string
    requires l.groups != []
  {
    if l.pending then ";" else if l.groups[|l.groups| - 1] != [] then "," else ""
  }

  lemma JoinGrowLast(init: seq<string>, last: string, more: string, c: char)
    ensures Join(init + [last + more], c) == Join(init + [last], c) + more
  {
    hide Join;
    JoinSnoc(init, last, c);
    JoinSnoc(init, last + more, c);
    if init != [] {
      assert Join(init, c) + [c] + (last + more) == Join(init, c) + [c] + last + more;
    }
  }

  lemma GroupsSnoc(groups: seq<seq<string>>, last: seq<string>)
    ensures JoinGroups(groups + [last]) == JoinGroups(groups) + [Join(last, ',')]
  {
  }

  lemma RenderElem(l: Layout, t: string)
    requires l.groups != []
    ensures Render(Extend(l, Elem(t))) == Render(l) + Lead(l) + t
  {
    hide Join, JoinGroups;
    if l.pending {
      GroupsSnoc(l.groups, [t]);
      JoinSnoc([], t, ',');
      assert [] + [t] == [t];
      JoinedIsNone(l.groups);
      JoinSnoc(JoinGroups(l.groups), t, ';');
    } else {
      var n := |l.groups| - 1;
      var init, last := l.groups[..n], l.groups[n];
      assert l.groups == init + [last];
      GroupsSnoc(init, last);
      GroupsSnoc(init, last + [t]);
      JoinSnoc(last, t, ',');
      JoinedIsNone(last := last);
      assert Join(last + [t], ',') == Join(last, ',') + (Lead(l) + t);
      JoinGrowLast(JoinGroups(init), Join(last, ','), Lead(l) + t, ';');
      assert Render(l) + (Lead(l) + t) == Render(l) + Lead(l) + t;
    }
  }

  lemma JoinedIsNone(groups: seq<seq<string>> := [], last: seq<string> := [])
    ensures |JoinGroups(groups)| == |groups| && (last == [] ==> Join(last, ',') == "")
  {
  }

  /** The buffer after a run: the reference layout; or it is short of it; or the last
      character it took was the terminator. */
  predicate Tracks(r: Response, l: Layout)
    requires l.groups != []
  {
    && r.needSep == l.pending && (r.elems > 0 <==> l.groups[|l.groups| - 1] != [])
    && |r.text| <= OUTPUT_SIZE - 1 && (|r.text| == OUTPUT_SIZE - 1 ==> '\0' in r.text)
    && '\0' !in Render(l)
    && (|Render(l)| <= OUTPUT_SIZE - 2 ==> r.text == Render(l) && !r.overflow)
    && (|Render(l)| > OUTPUT_SIZE - 2 ==> |r.text| < |Render(l)| || '\0' in r.text)
  }

  lemma ElemTracks(r: Response, l: Layout, t: string)
    requires l.groups != [] && Tracks(r, l) && '\0' !in t
    ensures Tracks(Print(r, false, t), Extend(l, Elem(t)))
  {
    RenderElem(l, t);
    var r1 := Separated(r, false);
    var full := Render(l) + Lead(l);
    assert Render(Extend(l, Elem(t))) == full + t;
    assert r1.text == r.text || r1.text == r.text + Lead(l);
    assert '\0' in r.text ==> '\0' in r1.text;
    assert |r1.text| <= |r.text| + |Lead(l)|;
    var r2 := Print(r, false, t);
    assert '\0' in r1.text ==> '\0' in r2.text;
    if |full + t| <= OUTPUT_SIZE - 2 {
      assert r1.text == full && |t| < Room(r1);
    }
  }

  /** From a cleared buffer, any elements and separators: the text is the reference
      layout exactly when that fits in the buffer with a byte to spare, and the length
      never passes the last byte whatever is printed. */
  lemma {:induction false} ResponseIsLayout(ops: seq<Op>)
    requires Plain(ops)
    ensures Tracks(Run(CLEAR, ops), LayoutOf(ops))
    ensures Run(CLEAR, ops).text == Render(LayoutOf(ops)) <==> |Render(LayoutOf(ops))| <= OUTPUT_SIZE - 2
    ensures |Run(CLEAR, ops).text| <= OUTPUT_SIZE - 1
  {
    if ops == [] {
      assert JoinGroups([[]]) == [""];
    } else {
      var init, op := ops[..|ops| - 1], ops[|ops| - 1];
      ResponseIsLayout(init);
      match op
      case Elem(t) =>
        assert op.text == ops[|ops| - 1].text;
        ElemTracks(Run(CLEAR, init), LayoutOf(init), t);
      case Sep =>
    }
  }

  // Reading a response back

  function Split(s: string, c: char): (parts: seq<string>)
    ensures parts != []
  {
    if s == "" then [""]
    else
      var parts := Split(s[..|s| - 1], c);
      var n := |parts| - 1;
      if s[|s| - 1] == c then parts + [""] else parts[..n] + [parts[n] + [s[|s| - 1]]]
  }

  function Parse(s: string): seq<seq<string>> {
    var pieces := Split(s, ';');
    seq(|pieces|, i requires 0 <= i < |pieces| => if pieces[i] == "" then [] else Split(pieces[i], ','))
  }

  lemma SplitOne(s: string, x: char, c: char)
    requires x != c
    ensures var parts := Split(s, c); var n := |parts| - 1;
            Split(s + [x], c) == parts[..n] + [parts[n] + [x]]
  {
    assert (s + [x])[..|s|] == s;
  }

  lemma {:induction false} SplitAppend(s: string, t: string, c: char)
    requires c !in t
    ensures var parts := Split(s, c); var n := |parts| - 1;
            Split(s + t, c) == parts[..n] + [parts[n] + t]
  {
    hide Split;
    var parts := Split(s, c);
    var n := |parts| - 1;
    if t == "" {
      assert s + t == s && parts[n] + t == parts[n];
    } else {
      var t', x := t[..|t| - 1], t[|t| - 1];
      SplitAppend(s, t', c);
      assert s + t == s + t' + [x];
      SplitOne(s + t', x, c);
      assert parts[n] + t' + [x] == parts[n] + t;
    }
  }

  lemma SplitSeparator(s: string, c: char)
    ensures Split(s + [c], c) == Split(s, c) + [""]
  {
    assert (s + [c])[..|s|] == s;
  }

  lemma {:induction false} SplitJoin(parts: seq<string>, c: char)
    requires parts != [] && forall i :: 0 <= i < |parts| ==> c !in parts[i]
    ensures Split(Join(parts, c), c) == parts
    decreases |parts|
  {
    hide Split;
    var n := |parts| - 1;
    var init, last := parts[..n], parts[n];
    if n == 0 {
      SplitPlain(last, c);
    } else {
      SplitJoin(init, c);
      SplitNext(Join(init, c), last, c);
      assert parts == init + [last];
    }
  }

  lemma SplitPlain(t: string, c: char)
    requires c !in t
    ensures Split(t, c) == [t]
  {
    SplitAppend("", t, c);
    assert "" + t == t;
  }

  /** A separator and a plain part add that part. */
  lemma SplitNext(s: string, t: string, c: char)
    requires c !in t
    ensures Split(s + [c] + t, c) == Split(s, c) + [t]
  {
    SplitSeparator(s, c);
    hide Split;
    SplitAppend(s + [c], t, c);
    assert "" + t == t;
  }

  predicate Clean(ops: seq<Op>) {
    forall i :: 0 <= i < |ops| && ops[i].Elem? ==>
      ops[i].text != "" && '\0' !in ops[i].text && ',' !in ops[i].text && ';' !in ops[i].text
  }

  /** Groups of non-empty separator-free elements; only the first group may be empty. */
  predicate CleanGroups(groups: seq<seq<string>>) {
    && groups != []
    && (forall i :: 0 < i < |groups| ==> groups[i] != [])
    && (forall i, j :: 0 <= i < |groups| && 0 <= j < |groups[i]| ==>
          groups[i][j] != "" && ',' !in groups[i][j] && ';' !in groups[i][j])
  }

  lemma {:induction false} LayoutIsClean(ops: seq<Op>)
    requires Clean(ops)
    ensures CleanGroups(LayoutOf(ops).groups)
  {
    if ops != [] {
      LayoutIsClean(ops[..|ops| - 1]);
      ExtendIsClean(LayoutOf(ops[..|ops| - 1]), ops[|ops| - 1]);
    }
  }

  lemma ExtendIsClean(l: Layout, op: Op)
    requires CleanGroups(l.groups)
    requires op.Elem? ==> op.text != "" && ',' !in op.text && ';' !in op.text
    ensures CleanGroups(Extend(l, op).groups)
  {
  }

  lemma {:induction false} JoinHasNo(parts: seq<string>, c: char, d: char)
    requires c != d && forall i :: 0 <= i < |parts| ==> d !in parts[i]
    ensures d !in Join(parts, c)
    ensures parts != [] && parts[0] != "" ==> Join(parts, c) != ""
  {
    if |parts| > 1 { JoinHasNo(parts[..|parts| - 1], c, d); }
  }

  /** One command's elements read back from its piece, which has no ';'. */
  lemma PieceReadsBack(group: seq<string>)
    requires forall j :: 0 <= j < |group| ==> group[j] != "" && ',' !in group[j] && ';' !in group[j]
    ensures ';' !in Join(group, ',') && (if Join(group, ',') == "" then [] else Split(Join(group, ','), ',')) == group
  {
    hide Split;
    JoinHasNo(group, ',', ';');
    if group != [] { SplitJoin(group, ','); }
  }

  /** A response that fits reads back as the elements of each command. */
  lemma ResponseReadsBack(ops: seq<Op>)
    requires Clean(ops) && |Render(LayoutOf(ops))| <= OUTPUT_SIZE - 2
    ensures Parse(Run(CLEAR, ops).text) == LayoutOf(ops).groups
  {
    hide Split, Join, Run, LayoutOf;
    ResponseIsLayout(ops);
    LayoutIsClean(ops);
    var groups := LayoutOf(ops).groups;
    var pieces := JoinGroups(groups);
    forall i | 0 <= i < |groups|
      ensures ';' !in pieces[i] && (if pieces[i] == "" then [] else Split(pieces[i], ',')) == groups[i]
    {
      PieceReadsBack(groups[i]);
    }
    SplitJoin(pieces, ';');
  }

  // The flushed line

  /** The line a layout is sent as: nothing when it is empty, else its rendering, a ';' if
      a separator is still pending, and a line feed. */
  function LineOf(l: Layout): string {
    if Render(l) == "" then "" else Render(l) + (if l.pending then ";" else "") + "\n"
  }

  /** What a flush adds to the text: the pending ';' and the line feed, or the terminator
      in the last place. */
  lemma FlushAdds(r: Response)
    requires r.text != ""
    ensures var n := |r.text| + if r.needSep then 1 else 0;
            && (n + 1 <= OUTPUT_SIZE - 2 ==>
                  Flush(r).Some? && Flush(r).value.0 == r.text + (if r.needSep then ";" else "") + "\n")
            && (n + 1 > OUTPUT_SIZE - 2 && Flush(r).Some? ==> '\0' in Flush(r).value.0 || |r.text| >= OUTPUT_SIZE)
            && (Flush(r).Some? ==> |Flush(r).value.0| <= n + 1 && r.text <= Flush(r).value.0 && Flush(r).value.1.text == "")
  {
    var r1 := Separated(r, true);
    assert Room(r1) == 1 ==> Clipped("\n", 1) == ['\0'];
    assert r.text + "" == r.text;
  }

  /** From a cleared buffer, any elements and separators and then a flush: the line sent
      is the reference exactly when it fits with a byte to spare. */
  lemma FlushedIsLine(ops: seq<Op>)
    requires Plain(ops)
    ensures var l := LayoutOf(ops);
            (Flush(Run(CLEAR, ops)).Some? && Flush(Run(CLEAR, ops)).value.0 == LineOf(l)) <==> |LineOf(l)| <= OUTPUT_SIZE - 2
  {
    hide Run, LayoutOf, Render, Flush;
    ResponseIsLayout(ops);
    FlushTracks(Run(CLEAR, ops), LayoutOf(ops));
  }

  lemma FlushTracks(r: Response, l: Layout)
    requires l.groups != [] && Tracks(r, l)
    ensures (Flush(r).Some? && Flush(r).value.0 == LineOf(l)) <==> |LineOf(l)| <= OUTPUT_SIZE - 2
  {
    hide Render;
    var whole := Render(l);
    if r.text == "" {
      assert |whole| <= OUTPUT_SIZE - 2 || '\0' in r.text || |r.text| < |whole|;
    } else {
      FlushAdds(r);
      hide Flush;
      assert '\0' !in LineOf(l);
    }
  }

  /** What is sent, less its line feed, reads back as the elements of each command, and an
      empty command after a separator still pending. */
  lemma FlushedReadsBack(ops: seq<Op>)
    requires Clean(ops) && |LineOf(LayoutOf(ops))| <= OUTPUT_SIZE - 2 && Render(LayoutOf(ops)) != ""
    ensures var l := LayoutOf(ops); var r := Flush(Run(CLEAR, ops));
            && r.Some? && r.value.0 != "" && r.value.0[|r.value.0| - 1] == '\n'
            && Parse(r.value.0[..|r.value.0| - 1]) == l.groups + if l.pending then [[]] else []
  {
    hide Flush, Run, LayoutOf, Render, Parse;
    var l := LayoutOf(ops);
    FlushedIsLine(ops);
    ResponseIsLayout(ops);
    ResponseReadsBack(ops);
    var line := LineOf(l);
    if l.pending {
      assert line[..|line| - 1] == Render(l) + [';'];
      ParseSeparator(Render(l));
    } else {
      assert line[..|line| - 1] == Render(l);
    }
  }

  lemma ParseSeparator(s: string)
    ensures Parse(s + [';']) == Parse(s) + [[]]
  {
    SplitSeparator(s, ';');
    hide Split;
  }

  /** What is printed after a flush and before the next line clears the buffer, such as the
      answer of a *OPC? that waited: after a flush that sent something it starts with ',',
      for the count of elements is not reset; else as the layout so far asks. */
  lemma LateElement(ops: seq<Op>, t: string)
    requires Plain(ops) && |LineOf(LayoutOf(ops))| <= OUTPUT_SIZE - 2 && |t| <= OUTPUT_SIZE - 4
    ensures var r := Flush(Run(CLEAR, ops));
            && r.Some?
            && Print(r.value.1, false, t).text == (if r.value.0 != "" then "," else Lead(LayoutOf(ops))) + t
  {
    hide Run, LayoutOf, Render;
    FlushedIsLine(ops);
    ResponseIsLayout(ops);
    var r := Run(CLEAR, ops);
    if r.text != "" {
      FlushAdds(r);
      AfterFlush(r);
    }
    PrintAfter(Flush(r).value.1, t);
    hide Print, Flush, Clipped;
  }

  lemma AfterFlush(r: Response)
    requires r.text != "" && Flush(r).Some?
    ensures var r1 := Flush(r).value.1; r1.text == "" && r1.elems > 0 && !r1.needSep
  {
  }

  lemma PrintAfter(r: Response, t: string)
    requires r.text == "" && |t| <= OUTPUT_SIZE - 4
    ensures Print(r, false, t).text == (if r.needSep then ";" else if r.elems > 0 then "," else "") + t
  {
    assert "" + [','] == "," && "" + [';'] == ";" && "" + t == t;
  }
}
