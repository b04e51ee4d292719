/** The chat's event stream: a reply comes in chunks that end anywhere, and the payloads
    taken from it do not depend on where. Text is in UTF-16 code units, decoded. */
module Stream {
  import opened Basics
  import opened Posts

  const RETURN := 13

  // ------------------------------------------------------------------------- a line

  function Trimmed(s: Text): Text {
    TrimmedLeft(TrimmedRight(s))
  }

  function TrimmedLeft(s: Text): Text {
    if s != [] && IsSpace(s[0]) then TrimmedLeft(s[1..]) else s
  }

  function TrimmedRight(s: Text): Text {
    if s != [] && IsSpace(s[|s| - 1]) then TrimmedRight(s[..|s| - 1]) else s
  }

  /** A line without the carriage return at its end. */
  function Line(s: Text): Text {
    if s != [] && s[|s| - 1] == RETURN then s[..|s| - 1] else s
  }

  const DATA: Text := Units("data:")
  const DONE: Text := Units("[DONE]")

  /** What a line yields: the payload of a data line that says something. */
  function Yields<V>(line: Text, parse: Text -> Option<V>): seq<V> {
    if !(DATA <= line) then []
    else
      var payload := Trimmed(line[|DATA|..]);
      if payload == [] || payload == DONE then []
      else match parse(payload) case Some(v) => [v] case None => []
  }

  predicate AllSpace(s: Text) { forall i :: 0 <= i < |s| ==> IsSpace(s[i]) }

  /** What a data line carries: its text without the whitespace around it, unless that is
      nothing, or the end mark, or does not parse. */
  lemma DataLine<V>(lead: Text, payload: Text, trail: Text, parse: Text -> Option<V>)
    requires AllSpace(lead) && AllSpace(trail)
    requires payload != [] ==> !IsSpace(payload[0]) && !IsSpace(payload[|payload| - 1])
    ensures Yields(Units("data:") + lead + payload + trail, parse) ==
            if payload == [] || payload == Units("[DONE]") || parse(payload).None? then [] else [parse(payload).value]
  {
    var line := Units("data:") + lead + payload + trail;
    assert line[|DATA|..] == lead + payload + trail;
    TrimTrail(lead + payload, trail);
    if payload == [] {
      assert lead + payload == lead;
      TrimTrail([], lead);
      assert [] + lead == lead;
    } else {
      TrimLead(lead, payload);
    }
  }

  lemma {:induction false} TrimTrail(s: Text, trail: Text)
    requires AllSpace(trail)
    ensures TrimmedRight(s + trail) == TrimmedRight(s)
    decreases |trail|
  {
    if trail == [] {
      assert s + trail == s;
    } else {
      assert (s + trail)[..|s + trail| - 1] == s + trail[..|trail| - 1];
      TrimTrail(s, trail[..|trail| - 1]);
    }
  }

  lemma {:induction false} TrimLead(lead: Text, s: Text)
    requires AllSpace(lead) && s != [] && !IsSpace(s[0])
    ensures TrimmedLeft(lead + s) == s
    decreases |lead|
  {
    if lead == [] {
      assert lead + s == s;
    } else {
      assert (lead + s)[1..] == lead[1..] + s;
      TrimLead(lead[1..], s);
    }
  }

  /** Any other line carries nothing, and a line's carriage return at the end is not of it. */
  lemma OtherLine<V>(line: Text, parse: Text -> Option<V>)
    ensures !(Units("data:") <= line) ==> Yields(line, parse) == []
    ensures Line(line + [13]) == line && (line == [] || line[|line| - 1] != 13 ==> Line(line) == line)
  {
  }

  // ------------------------------------------------------------------------- a text

  /** The first newline, or the length. */
  function EndOfLine(text: Text): (nl: nat)
    ensures nl <= |text| && (nl < |text| ==> text[nl] == NEWLINE)
    ensures forall i :: 0 <= i < nl ==> text[i] != NEWLINE
  {
    if text == [] || text[0] == NEWLINE then 0 else 1 + EndOfLine(text[1..])
  }

  /** What the text's lines yield, up to its last newline. */
  function Events<V>(text: Text, parse: Text -> Option<V>): seq<V>
    decreases |text|
  {
    var nl := EndOfLine(text);
    if nl == |text| then [] else Yields(Line(text[..nl]), parse) + Events(text[nl + 1..], parse)
  }

  /** The text after its last newline. */
  function Tail(text: Text): (tail: Text)
    ensures forall i :: 0 <= i < |tail| ==> tail[i] != NEWLINE
    decreases |text|
  {
    var nl := EndOfLine(text);
    if nl == |text| then text else Tail(text[nl + 1..])
  }

  lemma LineOfLonger(a: Text, b: Text)
    requires EndOfLine(a) < |a|
    ensures EndOfLine(a + b) == EndOfLine(a)
  {
    var nl := EndOfLine(a);
    assert (a + b)[nl] == NEWLINE;
    assert forall i :: 0 <= i < nl ==> (a + b)[i] != NEWLINE;
  }

  /** Text in two pieces: the first piece's lines, then what its tail begins. */
  lemma {:induction false} InTwoPieces<V>(a: Text, b: Text, parse: Text -> Option<V>)
    ensures Events(a + b, parse) == Events(a, parse) + Events(Tail(a) + b, parse)
    ensures Tail(a + b) == Tail(Tail(a) + b)
    decreases |a|
  {
    hide Yields, Line, EndOfLine;
    var nl := EndOfLine(a);
    if nl < |a| {
      LineOfLonger(a, b);
      assert (a + b)[..nl] == a[..nl] && (a + b)[nl + 1..] == a[nl + 1..] + b;
      InTwoPieces(a[nl + 1..], b, parse);
    }
  }

  /** Lines, each with its newline. */
  function Lines(lines: seq<Text>): Text {
    if lines == [] then [] else lines[0] + [NEWLINE] + Lines(lines[1..])
  }

  function YieldsOf<V>(lines: seq<Text>, parse: Text -> Option<V>): seq<V> {
    if lines == [] then [] else Yields(Line(lines[0]), parse) + YieldsOf(lines[1..], parse)
  }

  /** A text of lines yields what its data lines carry, one after another, and nothing
      of what follows the last newline. */
  lemma {:induction false} EventsAreDataLines<V>(lines: seq<Text>, tail: Text, parse: Text -> Option<V>)
    requires forall i :: 0 <= i < |lines| ==> NEWLINE !in lines[i]
    requires NEWLINE !in tail
    ensures Events(Lines(lines) + tail, parse) == YieldsOf(lines, parse) && Tail(Lines(lines) + tail) == tail
  {
    hide Yields, Line, EndOfLine;
    var text := Lines(lines) + tail;
    if lines == [] {
      assert text == tail;
    } else {
      var rest := Lines(lines[1..]) + tail;
      EventsAreDataLines(lines[1..], tail, parse);
      assert text == lines[0] + [NEWLINE] + rest;
      FirstLine(lines[0], rest, parse);
    }
  }

  lemma FirstLine<V>(line: Text, rest: Text, parse: Text -> Option<V>)
    requires NEWLINE !in line
    ensures var text := line + [NEWLINE] + rest;
            Events(text, parse) == Yields(Line(line), parse) + Events(rest, parse) && Tail(text) == Tail(rest)
  {
    hide Yields, Line, EndOfLine;
    var text, nl := line + [NEWLINE] + rest, |line|;
    assert text[nl] == NEWLINE;
    assert forall i :: 0 <= i < nl ==> text[i] == line[i];
    assert EndOfLine(text) == nl;
    assert text[..nl] == line && text[nl + 1..] == rest;
  }

  // ----------------------------------------------------------------------- the chunks

  function Whole(chunks: seq<Text>): Text {
    if chunks == [] then [] else Whole(chunks[..|chunks| - 1]) + chunks[|chunks| - 1]
  }

  /** The reader's loop: takes every whole line out of the buffer after each read. */
  method ParseStream<V>(chunks: seq<Text>, parse: Text -> Option<V>) returns (out: seq<V>, buffer: Text)
    ensures out == Events(Whole(chunks), parse)
    ensures buffer == Tail(Whole(chunks)) && NEWLINE !in buffer
  {
    out, buffer := [], [];
    for k := 0 to |chunks|
      invariant out == Events(Whole(chunks[..k]), parse) && buffer == Tail(Whole(chunks[..k]))
    {
      ghost var before := Whole(chunks[..k]);
      assert chunks[..k + 1][..k] == chunks[..k];
      InTwoPieces(before, chunks[k], parse);
      buffer := buffer + chunks[k];
      var taken;
      taken, buffer := TakeLines(buffer, parse);
      out := out + taken;
    }
    assert chunks[..|chunks|] == chunks;
  }

  method TakeLines<V>(text: Text, parse: Text -> Option<V>) returns (taken: seq<V>, buffer: Text)
    ensures taken == Events(text, parse) && buffer == Tail(text)
  {
    hide Yields, Line, EndOfLine;
    taken, buffer := [], text;
    var nl := EndOfLine(buffer);
    while nl < |buffer|
      invariant nl == EndOfLine(buffer) <= |buffer|
      invariant Events(text, parse) == taken + Events(buffer, parse) && Tail(text) == Tail(buffer)
      decreases |buffer|
    {
      var line := Line(buffer[..nl]);
      buffer := buffer[nl + 1..];
      taken := taken + Yields(line, parse);
      nl := EndOfLine(buffer);
    }
  }

  /** Two readings of one text, cut anywhere, yield the same. */
  lemma ChunksDoNotMatter<V>(some: seq<Text>, other: seq<Text>, end: Text, parse: Text -> Option<V>)
    requires Whole(some) == Whole(other)
    requires NEWLINE !in end
    ensures Events(Whole(some) + end, parse) == Events(Whole(other), parse)
  {
    InTwoPieces(Whole(some), end, parse);
    var tail := Tail(Whole(some)) + end;
    assert EndOfLine(tail) == |tail|;
  }
}
