/** Server-sent events read over a chunked stream: the buffer loop that cuts frames at
    blank lines, the frame parser, and the feed state they update. JSON parsing is a
    parameter. */
module ActivityFeed {
  import opened Options
  import opened Text

  // ---- cutting a stream into frames ----

  /** `indexOf("\n\n")`, or -1. */
  function FirstBreak(s: string): (i: int)
    ensures i == -1 || 0 <= i <= |s| - 2
  {
    if |s| < 2 then -1
    else if s[0] == '\n' && s[1] == '\n' then 0
    else var i := FirstBreak(s[1..]); if i == -1 then -1 else i + 1
  }

  predicate BreakAt(s: string, i: int) {
    0 <= i < |s| - 1 && s[i] == '\n' && s[i + 1] == '\n'
  }

  ghost predicate NoBreak(s: string) {
    forall i :: !BreakAt(s, i)
  }

  lemma {:induction false} FirstBreakIsLeftmost(s: string)
    ensures FirstBreak(s) == -1 ==> NoBreak(s)
    ensures FirstBreak(s) != -1 ==> BreakAt(s, FirstBreak(s)) && forall k :: k < FirstBreak(s) ==> !BreakAt(s, k)
  {
    if |s| >= 2 && !BreakAt(s, 0) {
      FirstBreakIsLeftmost(s[1..]);
      forall k | BreakAt(s, k) ensures BreakAt(s[1..], k - 1) {
        assert s[1..][k - 1] == s[k] && s[1..][k] == s[k + 1];
      }
      forall k | !BreakAt(s[1..], k - 1) ensures !BreakAt(s, k) {}
    }
  }

  /** The frames of a buffer and what is left over. */
  function Frames(s: string): (seq<string>, string)
    decreases |s|
  {
    var i := FirstBreak(s);
    if i == -1 then ([], s)
    else var (frames, rest) := Frames(s[i + 2..]); ([s[..i]] + frames, rest)
  }

  function Glue(frames: seq<string>): string {
    if frames == [] then "" else frames[0] + "\n\n" + Glue(frames[1..])
  }

  /** The reference definition: the string is its frames, each closed by the first blank
      line after its start, followed by a rest without a blank line. */
  ghost predicate IsCut(s: string, frames: seq<string>, rest: string) {
    && s == Glue(frames) + rest
    && (forall i :: 0 <= i < |frames| ==> NoBreak(frames[i] + "\n"))
    && NoBreak(rest)
  }

  lemma BreakAfterPrefix(f: string, more: string)
    requires NoBreak(f + "\n")
    ensures FirstBreak(f + "\n\n" + more) == |f|
    ensures (f + "\n\n" + more)[..|f|] == f && (f + "\n\n" + more)[|f| + 2..] == more
  {
    var s := f + "\n\n" + more;
    FirstBreakIsLeftmost(s);
    assert BreakAt(s, |f|);
    forall k | k < |f| ensures !BreakAt(s, k) {
      assert !BreakAt(f + "\n", k);
    }
  }

  /** The part of a string before its first blank line, and the string put together again. */
  lemma FirstCut(s: string)
    requires FirstBreak(s) != -1
    ensures NoBreak(s[..FirstBreak(s)] + "\n")
    ensures s == s[..FirstBreak(s)] + "\n\n" + s[FirstBreak(s) + 2..]
  {
    FirstBreakIsLeftmost(s);
    var i := FirstBreak(s);
    assert s[i..i + 2] == "\n\n";
    assert s == s[..i] + s[i..i + 2] + s[i + 2..];
    forall k ensures !BreakAt(s[..i] + "\n", k) {
      assert s[..i] + "\n" == s[..i + 1];
      assert k < i ==> !BreakAt(s, k);
    }
  }

  lemma CutCons(f: string, s: string, frames: seq<string>, rest: string)
    requires NoBreak(f + "\n") && IsCut(s, frames, rest)
    ensures IsCut(f + "\n\n" + s, [f] + frames, rest)
  {
    var all := [f] + frames;
    assert all[1..] == frames;
    assert f + "\n\n" + (Glue(frames) + rest) == (f + "\n\n" + Glue(frames)) + rest;
    forall i | 0 <= i < |all| ensures NoBreak(all[i] + "\n") {
      if i > 0 { assert all[i] == frames[i - 1]; }
    }
  }

  lemma {:induction false} FramesIsCut(s: string)
    ensures IsCut(s, Frames(s).0, Frames(s).1)
    decreases |s|
  {
    FirstBreakIsLeftmost(s);
    var i := FirstBreak(s);
    if i != -1 {
      FramesIsCut(s[i + 2..]);
      FirstCut(s);
      CutCons(s[..i], s[i + 2..], Frames(s[i + 2..]).0, Frames(s[i + 2..]).1);
    }
  }

  /** Only one cut of a string exists, and the buffer loop finds it. */
  lemma {:induction false} CutIsUnique(s: string, frames: seq<string>, rest: string)
    requires IsCut(s, frames, rest)
    ensures Frames(s) == (frames, rest)
    decreases |frames|
  {
    if frames == [] {
      assert s == rest;
      FirstBreakIsLeftmost(s);
    } else {
      var more := Glue(frames[1..]) + rest;
      assert s == frames[0] + "\n\n" + more;
      BreakAfterPrefix(frames[0], more);
      assert IsCut(more, frames[1..], rest);
      CutIsUnique(more, frames[1..], rest);
      assert frames == [frames[0]] + frames[1..];
    }
  }

  lemma {:induction false} GlueAppend(a: seq<string>, b: seq<string>)
    ensures Glue(a + b) == Glue(a) + Glue(b)
  {
    if a == [] {
      assert a + b == b;
    } else {
      GlueAppend(a[1..], b);
      assert (a + b)[1..] == a[1..] + b;
    }
  }

  lemma CutAppend(a: string, early: seq<string>, kept: string, b: string, late: seq<string>, rest: string)
    requires IsCut(a, early, kept) && IsCut(kept + b, late, rest)
    ensures IsCut(a + b, early + late, rest)
  {
    GlueAppend(early, late);
    assert a + b == Glue(early) + (kept + b);
    assert Glue(early) + (Glue(late) + rest) == Glue(early + late) + rest;
  }

  /** Cutting what has arrived and keeping the rest loses nothing of a longer stream. */
  lemma FramesOfAppend(a: string, b: string)
    ensures Frames(a + b) == (Frames(a).0 + Frames(Frames(a).1 + b).0, Frames(Frames(a).1 + b).1)
  {
    FramesIsCut(a);
    var kept := Frames(a).1 + b;
    FramesIsCut(kept);
    CutAppend(a, Frames(a).0, Frames(a).1, b, Frames(kept).0, Frames(kept).1);
    CutIsUnique(a + b, Frames(a).0 + Frames(kept).0, Frames(kept).1);
  }

  // ---- parsing a frame ----

  /** `split(/\r?\n/)`. */
  function Lines(s: string): (ls: seq<string>)
    ensures ls != []
  {
    if s == "" then [""]
    else if s[0] == '\n' then [""] + Lines(s[1..])
    else if s[0] == '\r' && |s| > 1 && s[1] == '\n' then [""] + Lines(s[2..])
    else var ls := Lines(s[1..]); [[s[0]] + ls[0]] + ls[1..]
  }

  predicate IsData(line: string) { "data:" <= line }

  predicate IsId(line: string) { "id:" <= line }

  function DataValue(line: string): string
    requires IsData(line)
  {
    if |line| > 5 && line[5] == ' ' then line[6..] else line[5..]
  }

  function DataParts(lines: seq<string>): seq<string> {
    if lines == [] then []
    else
      var last := lines[|lines| - 1];
      DataParts(lines[..|lines| - 1]) + if IsData(last) then [DataValue(last)] else []
  }

  function LastId(lines: seq<string>): Option<string> {
    if lines == [] then None
    else
      var last := lines[|lines| - 1];
      if !IsData(last) && IsId(last) then Some(Trim(last[3..])) else LastId(lines[..|lines| - 1])
  }

  function JoinLines(lines: seq<string>): string {
    if lines == [] then "" else if |lines| == 1 then lines[0] else lines[0] + "\n" + JoinLines(lines[1..])
  }

  /** A parsed event: its own `id` field, if it has one, and the rest. */
  datatype Event = Event(id: Option<string>, body: string)

  datatype Parsed = Parsed(id: Option<string>, event: Event)

  type Json = string -> Option<Event>

  function Parse(json: Json, frame: string): Option<Parsed> {
    var lines := Lines(frame);
    var parts := DataParts(lines);
    if parts == [] then None
    else match json(JoinLines(parts))
      case None => None
      case Some(event) => Some(Parsed(LastId(lines), event))
  }

  method ParseFrame(json: Json, frame: string) returns (parsed: Option<Parsed>)
    ensures parsed == Parse(json, frame)
  {
    var lines := Lines(frame);
    var dataParts: seq<string> := [];
    var id := None;
    for i := 0 to |lines|
      invariant dataParts == DataParts(lines[..i]) && id == LastId(lines[..i])
    {
      assert lines[..i + 1][..i] == lines[..i];
      var line := lines[i];
      if line == "" || line[0] == ':' { continue; }
      if IsData(line) { dataParts := dataParts + [DataValue(line)]; }
      else if IsId(line) { id := Some(Trim(line[3..])); }
    }
    assert lines[..|lines|] == lines;
    if dataParts == [] { return None; }
    var event := json(JoinLines(dataParts));
    parsed := match event case None => None case Some(e) => Some(Parsed(id, e));
  }

  // ---- the feed ----

  const MAX_ROWS := 100

  datatype Feed = Feed(buf: string, lastId: string, events: seq<Event>)

  function Truthy(s: Option<string>): bool { s.Some? && s.value != "" }

  function Push(f: Feed, p: Parsed): Feed {
    var rows := [p.event] + f.events;
    f.(lastId := if Truthy(p.id) then p.id.value else if Truthy(p.event.id) then p.event.id.value else f.lastId,
       events := if |rows| > MAX_ROWS then rows[..MAX_ROWS] else rows)
  }

  function PushFrame(json: Json, f: Feed, frame: string): Feed {
    match Parse(json, frame) case None => f case Some(p) => Push(f, p)
  }

  function PushFrames(json: Json, f: Feed, frames: seq<string>): Feed
    decreases |frames|
  {
    if frames == [] then f else PushFrames(json, PushFrame(json, f, frames[0]), frames[1..])
  }

  /** One turn of the read loop. */
  function Receive(json: Json, f: Feed, chunk: string): Feed {
    var (frames, rest) := Frames(f.buf + chunk);
    PushFrames(json, f, frames).(buf := rest)
  }

  function ReceiveAll(json: Json, f: Feed, chunks: seq<string>): Feed {
    if chunks == [] then f else Receive(json, ReceiveAll(json, f, chunks[..|chunks| - 1]), chunks[|chunks| - 1])
  }

  function Concat(chunks: seq<string>): string {
    if chunks == [] then "" else Concat(chunks[..|chunks| - 1]) + chunks[|chunks| - 1]
  }

  lemma {:induction false} PushFramesAppend(json: Json, f: Feed, a: seq<string>, b: seq<string>)
    ensures PushFrames(json, f, a + b) == PushFrames(json, PushFrames(json, f, a), b)
    decreases |a|
  {
    if a == [] {
      assert a + b == b;
    } else {
      var c, g := a + b, PushFrame(json, f, a[0]);
      assert c[0] == a[0] && c[1..] == a[1..] + b;
      PushFramesAppend(json, g, a[1..], b);
      assert PushFrames(json, f, c) == PushFrames(json, g, c[1..]);
      assert PushFrames(json, f, a) == PushFrames(json, g, a[1..]);
    }
  }

  lemma {:induction false} PushIgnoresBuffer(json: Json, f: Feed, frames: seq<string>, buf: string)
    ensures PushFrames(json, f.(buf := buf), frames) == PushFrames(json, f, frames).(buf := buf)
    decreases |frames|
  {
    if frames != [] {
      PushIgnoresBuffer(json, PushFrame(json, f, frames[0]), frames[1..], buf);
      assert PushFrame(json, f.(buf := buf), frames[0]) == PushFrame(json, f, frames[0]).(buf := buf);
    }
  }

  lemma ReceiveTwice(json: Json, f: Feed, a: string, b: string)
    ensures Receive(json, Receive(json, f, a), b) == Receive(json, f, a + b)
  {
    hide Frames, PushFrames;
    var (early, kept) := Frames(f.buf + a);
    var (late, rest) := Frames(kept + b);
    FramesOfAppend(f.buf + a, b);
    assert f.buf + a + b == f.buf + (a + b);
    PushFramesAppend(json, f, early, late);
    PushIgnoresBuffer(json, PushFrames(json, f, early), late, kept);
  }

  /** Chunking is invisible: however a stream is cut into chunks, the feed ends in the
      state of having received it whole — same events, same last id, same leftover. */
  lemma {:induction false} ChunkingIsInvisible(json: Json, f: Feed, chunks: seq<string>)
    requires NoBreak(f.buf)
    ensures ReceiveAll(json, f, chunks) == Receive(json, f, Concat(chunks))
    decreases |chunks|
  {
    if chunks == [] {
      assert f.buf + "" == f.buf;
      FirstBreakIsLeftmost(f.buf);
    } else {
      var front, last := chunks[..|chunks| - 1], chunks[|chunks| - 1];
      ChunkingIsInvisible(json, f, front);
      ReceiveTwice(json, f, Concat(front), last);
    }
  }

  class Reader {
    var buf: string
    var lastId: string
    var events: seq<Event>

    function Value(): Feed
      reads this
    {
      Feed(buf, lastId, events)
    }

    method PushEvent(p: Parsed)
      modifies this
      ensures Value() == Push(old(Value()), p)
    {
      if Truthy(p.id) { lastId := p.id.value; }
      else if Truthy(p.event.id) { lastId := p.event.id.value; }
      events := [p.event] + events;
      if |events| > MAX_ROWS { events := events[..MAX_ROWS]; }
    }

    method OnChunk(json: Json, chunk: string)
      modifies this
      ensures Value() == Receive(json, old(Value()), chunk)
    {
      buf := buf + chunk;
      ghost var start := Value();
      ghost var all := Frames(buf);
      var idx := FirstBreak(buf);
      while idx != -1
        invariant idx == FirstBreak(buf)
        invariant Frames(buf).1 == all.1
        invariant PushFrames(json, Value(), Frames(buf).0).(buf := "") == PushFrames(json, start, all.0).(buf := "")
        decreases |buf|
      {
        ghost var rest := Frames(buf).0;
        ghost var before := Value();
        assert rest[0] == buf[..idx];
        var parsed := ParseFrame(json, buf[..idx]);
        buf := buf[idx + 2..];
        if parsed.Some? { PushEvent(parsed.value); }
        assert rest[1..] == Frames(buf).0;
        PushIgnoresBuffer(json, PushFrame(json, before, rest[0]), rest[1..], buf);
        idx := FirstBreak(buf);
      }
      PushIgnoresBuffer(json, old(Value()), all.0, start.buf);
    }
  }

  // ---- events printed and read back ----

  /** An event as a server prints it (WHATWG HTML Living Standard, section 9.2.5): an
      optional `id:` line, an optional `event:` line with its type, and one `data:` line for
      each line of the payload; or a comment. */
  datatype Item = Message(id: Option<string>, eventType: Option<string>, data: string) | Comment(text: string)

  /** The text with a prefix after each newline. */
  function Indent(p: string, data: string): string {
    if data == "" then ""
    else if data[0] == '\n' then "\n" + (p + Indent(p, data[1..]))
    else [data[0]] + Indent(p, data[1..])
  }

  /** The lines before the data. */
  function Head(id: Option<string>, eventType: Option<string>): seq<string> {
    (match id case None => [] case Some(i) => ["id: " + i])
    + (match eventType case None => [] case Some(t) => ["event: " + t])
  }

  function PrintLines(head: seq<string>, body: string): string {
    if head == [] then body else head[0] + ("\n" + PrintLines(head[1..], body))
  }

  function Print(item: Item): string {
    match item
    case Comment(text) => ":" + text
    case Message(id, eventType, data) => PrintLines(Head(id, eventType), "data: " + Indent("data: ", data))
  }

  function PrintAll(items: seq<Item>): string {
    if items == [] then "" else Print(items[0]) + "\n\n" + PrintAll(items[1..])
  }

  /** What the server has to respect: ids are one trimmed line, event types and comments one
      line. */
  predicate Printable(item: Item) {
    match item
    case Comment(text) => '\n' !in text
    case Message(id, eventType, _) =>
      (id.Some? ==> Trimmed(id.value) && '\n' !in id.value) && (eventType.Some? ==> Plain(eventType.value))
  }

  /** The payload as the parser sees it: each CR LF has become LF. */
  function Normalized(data: string): string { JoinLines(Lines(data)) }

  function CrLfs(s: string): nat {
    if |s| < 2 then 0 else (if s[0] == '\r' && s[1] == '\n' then 1 else 0) + CrLfs(s[1..])
  }

  lemma JoinHead(x: string, ls: seq<string>)
    requires ls != []
    ensures JoinLines([x + ls[0]] + ls[1..]) == x + JoinLines(ls)
  {
    var ms := [x + ls[0]] + ls[1..];
    assert ms[1..] == ls[1..];
    if |ls| > 1 {
      assert x + ls[0] + "\n" + JoinLines(ls[1..]) == x + (ls[0] + "\n" + JoinLines(ls[1..]));
    }
  }

  lemma JoinBlank(ls: seq<string>)
    requires ls != []
    ensures JoinLines([""] + ls) == "\n" + JoinLines(ls)
  {
    assert ([""] + ls)[1..] == ls;
  }

  /** Parsing loses one character for each CR LF of the payload, and nothing else. */
  lemma {:induction false} NormalizedLength(data: string)
    ensures |Normalized(data)| == |data| - CrLfs(data)
    ensures CrLfs(data) == 0 ==> Normalized(data) == data
    decreases |data|
  {
    if data == "" {
    } else if data[0] == '\n' {
      NormalizedLength(data[1..]);
      JoinBlank(Lines(data[1..]));
      assert data == "\n" + data[1..];
    } else if data[0] == '\r' && |data| > 1 && data[1] == '\n' {
      NormalizedLength(data[2..]);
      JoinBlank(Lines(data[2..]));
      assert data[1..][1..] == data[2..];
    } else {
      NormalizedLength(data[1..]);
      JoinHead([data[0]], Lines(data[1..]));
      assert data == [data[0]] + data[1..];
    }
  }

  predicate Plain(s: string) { '\n' !in s && '\r' !in s }

  function Prefixed(p: string, ls: seq<string>): seq<string> {
    seq(|ls|, i requires 0 <= i < |ls| => p + ls[i])
  }

  /** Text without a line feed whose end does not join a line feed stays on one line. */
  lemma {:induction false} LinesAfter(p: string, s: string)
    requires '\n' !in p
    requires p != "" && p[|p| - 1] == '\r' ==> s == "" || s[0] != '\n'
    ensures Lines(p + s) == [p + Lines(s)[0]] + Lines(s)[1..]
    decreases |p|
  {
    if p == "" {
      assert p + s == s && p + Lines(s)[0] == Lines(s)[0];
    } else {
      assert (p + s)[1..] == p[1..] + s;
      LinesAfter(p[1..], s);
      assert [p[0]] + (p[1..] + Lines(s)[0]) == p + Lines(s)[0];
    }
  }

  /** One more ordinary character in front of a text leaves its line structure alone. */
  lemma IndentOneMore(p: string, c: char, data: string)
    requires Plain(p) && p != "" && c != '\n' && (c == '\r' ==> data == "" || data[0] != '\n')
    requires Lines(p + Indent(p, data)) == Prefixed(p, Lines(data))
    ensures Lines(p + ([c] + Indent(p, data))) == Prefixed(p, Lines([c] + data))
  {
    var rest := Indent(p, data);
    LinesAfter(p, rest);
    LinesAfter([c], rest);
    LinesAfter([c], data);
    LinesAfter(p, [c] + rest);
    OneMoreInFirst(p, c, Lines(rest), Lines(data));
  }

  lemma OneMoreInFirst(p: string, c: char, rs: seq<string>, ls: seq<string>)
    requires rs != [] && ls != [] && [p + rs[0]] + rs[1..] == Prefixed(p, ls)
    ensures [p + ([c] + rs[0])] + rs[1..] == Prefixed(p, [[c] + ls[0]] + ls[1..])
  {
    var all := [p + rs[0]] + rs[1..];
    assert all[0] == p + ls[0] == p + rs[0];
    assert rs[0] == (p + rs[0])[|p|..] == (p + ls[0])[|p|..] == ls[0];
    assert rs[1..] == all[1..] == Prefixed(p, ls[1..]);
  }

  lemma LinesOfNewline(t: string)
    ensures Lines("\n" + t) == [""] + Lines(t)
    ensures Lines("\r" + ("\n" + t)) == [""] + Lines(t)
  {
    assert ("\n" + t)[1..] == t;
    assert ("\r" + ("\n" + t))[2..] == t;
  }

  lemma IndentNewline(p: string, data: string)
    requires Plain(p) && p != ""
    requires Lines(p + Indent(p, data)) == Prefixed(p, Lines(data))
    ensures Lines(p + ("\n" + (p + Indent(p, data)))) == Prefixed(p, [""] + Lines(data))
    ensures Lines(p + ("\r" + ("\n" + (p + Indent(p, data))))) == Prefixed(p, [""] + Lines(data))
  {
    hide Lines, Indent;
    var t := p + Indent(p, data);
    LinesOfNewline(t);
    LinesAfter(p, "\n" + t);
    LinesAfter(p, "\r" + ("\n" + t));
    assert Prefixed(p, [""] + Lines(data)) == [p + ""] + Prefixed(p, Lines(data));
  }

  /** Each line of the payload is one prefixed line of the frame. */
  lemma {:induction false} LinesOfIndent(p: string, data: string)
    requires Plain(p) && p != ""
    ensures Lines(p + Indent(p, data)) == Prefixed(p, Lines(data))
    decreases |data|
  {
    if data == "" {
      LinesAfter(p, "");
    } else if data[0] == '\n' {
      LinesOfIndent(p, data[1..]);
      IndentNewline(p, data[1..]);
    } else if data[0] == '\r' && |data| > 1 && data[1] == '\n' {
      LinesOfIndent(p, data[2..]);
      IndentNewline(p, data[2..]);
      assert data[1..][1..] == data[2..];
    } else {
      LinesOfIndent(p, data[1..]);
      IndentOneMore(p, data[0], data[1..]);
      assert data == [data[0]] + data[1..];
    }
  }

  // ---- what the parser makes of a printed frame ----

  lemma {:induction false} DataPartsOfPrefixed(head: seq<string>, ls: seq<string>)
    requires forall i :: 0 <= i < |head| ==> !IsData(head[i])
    ensures DataParts(head + Prefixed("data: ", ls)) == ls
    ensures LastId(head + Prefixed("data: ", ls)) == LastId(head)
    decreases |head| + |ls|
  {
    var all := head + Prefixed("data: ", ls);
    if ls != [] {
      var front, last := ls[..|ls| - 1], ls[|ls| - 1];
      assert all[..|all| - 1] == head + Prefixed("data: ", front);
      assert all[|all| - 1] == "data: " + last;
      assert ("data: " + last)[6..] == last;
      DataPartsOfPrefixed(head, front);
    } else if head != [] {
      assert all == head;
      assert head[..|head| - 1] + Prefixed("data: ", ls) == head[..|head| - 1];
      DataPartsOfPrefixed(head[..|head| - 1], ls);
    }
  }

  /** What a printed item means to the reader: a message whose normalised payload is valid
      JSON is one event with the item's id; a comment is nothing. */
  function Meaning(json: Json, item: Item): Option<Parsed> {
    match item
    case Comment(_) => None
    case Message(id, _, data) =>
      match json(Normalized(data)) case None => None case Some(event) => Some(Parsed(id, event))
  }

  lemma LinesOfOneLine(s: string)
    requires '\n' !in s
    ensures Lines(s) == [s]
  {
    LinesAfter(s, "");
    assert s + "" == s;
  }

  lemma ParseComment(json: Json, text: string)
    requires '\n' !in text
    ensures Parse(json, ":" + text) == None
  {
    LinesOfOneLine(":" + text);
    assert (":" + text)[0] == ':';
    assert [":" + text][..0] == [] && DataParts([]) == [];
  }

  /** A header line stands on a line of its own. */
  predicate HeadLine(line: string) {
    line != "" && '\n' !in line && line[|line| - 1] != '\r' && !IsData(line)
  }

  lemma {:induction false} LinesOfPrinted(head: seq<string>, body: string)
    requires forall i :: 0 <= i < |head| ==> HeadLine(head[i])
    ensures Lines(PrintLines(head, body)) == head + Lines(body)
  {
    hide Lines;
    if head == [] {
      assert head + Lines(body) == Lines(body);
    } else {
      LinesOfPrinted(head[1..], body);
      assert HeadLine(head[0]);
      LinesAfterNewline(head[0], PrintLines(head[1..], body));
      assert head + Lines(body) == [head[0]] + (head[1..] + Lines(body));
    }
  }

  lemma EventTypeLine(t: string)
    requires Plain(t)
    ensures HeadLine("event: " + t) && !IsId("event: " + t)
  {
    var line := "event: " + t;
    assert line[0] == 'e';
    assert line[|line| - 1] == if t == "" then ' ' else t[|t| - 1];
  }

  lemma NoIdAdded(lines: seq<string>, line: string)
    requires !IsId(line)
    ensures LastId(lines + [line]) == LastId(lines)
  {
    assert (lines + [line])[..|lines|] == lines;
  }

  /** The header is lines the parser understands, and gives it the id. */
  lemma HeadIsRead(id: Option<string>, eventType: Option<string>)
    requires id.Some? ==> Trimmed(id.value) && '\n' !in id.value
    requires eventType.Some? ==> Plain(eventType.value)
    ensures forall i :: 0 <= i < |Head(id, eventType)| ==> HeadLine(Head(id, eventType)[i])
    ensures LastId(Head(id, eventType)) == id
  {
    hide Trimmed, HeadLine, IsId, Plain, LastId;
    var front := match id case None => [] case Some(i) => ["id: " + i];
    NoLinesNoId();
    if id.Some? { IdLine(id.value); }
    if eventType.Some? {
      EventTypeLine(eventType.value);
      NoIdAdded(front, "event: " + eventType.value);
    } else {
      assert front + [] == front;
    }
  }

  lemma NoLinesNoId()
    ensures LastId([]) == None
  {
  }

  lemma ParseLines(json: Json, head: seq<string>, data: seq<string>, frame: string)
    requires Lines(frame) == head + Prefixed("data: ", data) && data != []
    requires forall i :: 0 <= i < |head| ==> HeadLine(head[i])
    ensures Parse(json, frame) ==
      match json(JoinLines(data)) case None => None case Some(event) => Some(Parsed(LastId(head), event))
  {
    hide Lines, LastId, DataParts, Prefixed, JoinLines;
    DataPartsOfPrefixed(head, data);
  }

  /** Printing and parsing an item recovers it. */
  lemma ParsePrint(json: Json, item: Item)
    requires Printable(item)
    ensures Parse(json, Print(item)) == Meaning(json, item)
  {
    match item
    case Comment(text) => ParseComment(json, text);
    case Message(id, eventType, data) =>
      hide Parse, Lines, LastId, Indent, Prefixed, PrintLines, Head, JoinLines;
      HeadIsRead(id, eventType);
      LinesOfPrinted(Head(id, eventType), "data: " + Indent("data: ", data));
      LinesOfIndent("data: ", data);
      ParseLines(json, Head(id, eventType), Lines(data), Print(item));
  }

  lemma TrimSkipsSpace(s: string)
    requires Trimmed(s)
    ensures Trim(" " + s) == s
  {
    assert (" " + s)[1..] == s;
    assert TrimStart(" " + s) == TrimStart(s);
    TrimIsTrimmed(s);
  }

  lemma IdLine(id: string)
    requires Trimmed(id) && '\n' !in id
    ensures HeadLine("id: " + id) && LastId(["id: " + id]) == Some(id)
  {
    var line := "id: " + id;
    assert line[|line| - 1] == if id == "" then ' ' else id[|id| - 1];
    assert line[3..] == " " + id;
    TrimSkipsSpace(id);
    assert line[0] == 'i';
    assert [line][..0] == [];
  }

  lemma LinesAfterNewline(line: string, body: string)
    requires '\n' !in line && line != "" && line[|line| - 1] != '\r'
    ensures Lines(line + ("\n" + body)) == [line] + Lines(body)
  {
    LinesAfter(line, "\n" + body);
    assert ("\n" + body)[1..] == body;
    assert Lines("\n" + body) == [""] + Lines(body);
    assert line + "" == line;
  }

  // ---- a whole printed stream ----

  lemma NoBreakAfter(p: string, s: string)
    requires '\n' !in p && NoBreak(s)
    ensures NoBreak(p + s)
  {
    forall i ensures !BreakAt(p + s, i) {
      assert !BreakAt(s, i - |p|);
      if 0 <= i < |p| { assert (p + s)[i] in p; }
    }
  }

  lemma NoBreakNewline(s: string)
    requires s != "" && s[0] != '\n' && NoBreak(s)
    ensures NoBreak("\n" + s)
  {
    forall i ensures !BreakAt("\n" + s, i) {
      assert !BreakAt(s, i - 1);
      assert 0 <= i < |s| ==> ("\n" + s)[i + 1] == s[i];
    }
  }

  lemma {:induction false} IndentHasNoBreak(p: string, data: string)
    requires Plain(p) && p != ""
    ensures NoBreak(Indent(p, data) + "\n")
    decreases |data|
  {
    if data != "" {
      var rest := Indent(p, data[1..]) + "\n";
      IndentHasNoBreak(p, data[1..]);
      if data[0] == '\n' {
        NoBreakAfter(p, rest);
        assert (p + rest)[0] == p[0];
        NoBreakNewline(p + rest);
        assert Indent(p, data) + "\n" == "\n" + (p + rest);
      } else {
        NoBreakAfter([data[0]], rest);
        assert Indent(p, data) + "\n" == [data[0]] + rest;
      }
    }
  }

  lemma {:induction false} PrintLinesHasNoBreak(head: seq<string>, body: string)
    requires body != "" && body[0] != '\n' && NoBreak(body + "\n")
    requires forall i :: 0 <= i < |head| ==> HeadLine(head[i])
    ensures var s := PrintLines(head, body); s != "" && s[0] != '\n' && NoBreak(s + "\n")
  {
    if head != [] {
      var rest := PrintLines(head[1..], body);
      assert HeadLine(head[0]);
      PrintLinesHasNoBreak(head[1..], body);
      NoBreakNewline(rest + "\n");
      NoBreakAfter(head[0], "\n" + (rest + "\n"));
      assert PrintLines(head, body) + "\n" == head[0] + ("\n" + (rest + "\n"));
    }
  }

  lemma PrintHasNoBreak(item: Item)
    requires Printable(item)
    ensures NoBreak(Print(item) + "\n")
  {
    match item
    case Comment(text) => NoBreakAfter(":" + text, "\n");
    case Message(id, eventType, data) =>
      var rest := Indent("data: ", data);
      IndentHasNoBreak("data: ", data);
      NoBreakAfter("data: ", rest + "\n");
      assert ("data: " + rest) + "\n" == "data: " + (rest + "\n");
      assert ("data: " + rest)[0] == 'd';
      HeadIsRead(id, eventType);
      PrintLinesHasNoBreak(Head(id, eventType), "data: " + rest);
  }

  function Printed(items: seq<Item>): seq<string> {
    seq(|items|, i requires 0 <= i < |items| => Print(items[i]))
  }

  lemma {:induction false} PrintAllIsCut(items: seq<Item>)
    requires forall i :: 0 <= i < |items| ==> Printable(items[i])
    ensures IsCut(PrintAll(items), Printed(items), "")
  {
    var frames := Printed(items);
    forall i | 0 <= i < |frames| ensures NoBreak(frames[i] + "\n") { PrintHasNoBreak(items[i]); }
    if items != [] {
      PrintAllIsCut(items[1..]);
      assert frames[1..] == Printed(items[1..]);
    }
  }

  /** The feed after handling the items one by one. */
  function PushItems(json: Json, f: Feed, items: seq<Item>): Feed
    decreases |items|
  {
    if items == [] then f
    else
      var next := match Meaning(json, items[0]) case None => f case Some(p) => Push(f, p);
      PushItems(json, next, items[1..])
  }

  lemma {:induction false} PushPrinted(json: Json, f: Feed, items: seq<Item>)
    requires forall i :: 0 <= i < |items| ==> Printable(items[i])
    ensures PushFrames(json, f, Printed(items)) == PushItems(json, f, items)
    decreases |items|
  {
    if items != [] {
      ParsePrint(json, items[0]);
      assert Printed(items)[1..] == Printed(items[1..]);
      PushPrinted(json, PushFrame(json, f, Printed(items)[0]), items[1..]);
    }
  }

  lemma {:induction false} PushItemsKeepsBuffer(json: Json, f: Feed, items: seq<Item>)
    ensures PushItems(json, f, items).buf == f.buf
    decreases |items|
  {
    if items != [] {
      var next := match Meaning(json, items[0]) case None => f case Some(p) => Push(f, p);
      PushItemsKeepsBuffer(json, next, items[1..]);
    }
  }

  /** Events printed by a server and cut into chunks anywhere are recovered in order, with
      nothing left over. */
  lemma StreamRoundTrips(json: Json, f: Feed, items: seq<Item>, chunks: seq<string>)
    requires f.buf == "" && Concat(chunks) == PrintAll(items)
    requires forall i :: 0 <= i < |items| ==> Printable(items[i])
    ensures ReceiveAll(json, f, chunks) == PushItems(json, f, items)
  {
    ChunkingIsInvisible(json, f, chunks);
    assert f.buf + PrintAll(items) == PrintAll(items);
    PrintAllIsCut(items);
    CutIsUnique(PrintAll(items), Printed(items), "");
    PushPrinted(json, f, items);
    PushItemsKeepsBuffer(json, f, items);
  }

  // ---- what the feed shows ----

  /** The events of the frames that parse, in order. */
  function Recovered(json: Json, frames: seq<string>): seq<Parsed> {
    if frames == [] then []
    else (match Parse(json, frames[0]) case None => [] case Some(p) => [p]) + Recovered(json, frames[1..])
  }

  /** The last id that is not empty, of each event the frame's own before the event's; or
      `start` if there is none. */
  function LastGivenId(ps: seq<Parsed>, start: string): string {
    if ps == [] then start
    else
      var last := ps[|ps| - 1];
      if last.id.Some? && last.id.value != "" then last.id.value
      else if last.event.id.Some? && last.event.id.value != "" then last.event.id.value
      else LastGivenId(ps[..|ps| - 1], start)
  }

  lemma {:induction false} LastGivenIdCons(p: Parsed, ps: seq<Parsed>, start: string)
    ensures LastGivenId([p] + ps, start) == LastGivenId(ps, LastGivenId([p], start))
  {
    var all := [p] + ps;
    if ps == [] {
      assert all == [p];
    } else {
      assert all[|all| - 1] == ps[|ps| - 1] && all[..|all| - 1] == [p] + ps[..|ps| - 1];
      LastGivenIdCons(p, ps[..|ps| - 1], start);
    }
  }

  /** The feed shows the recovered events newest first, before what it showed already, and
      at most a hundred of them all; its last id is the last one given. */
  ghost predicate Shows(g: Feed, ps: seq<Parsed>, f: Feed) {
    && |g.events| == (if |ps| + |f.events| < 100 then |ps| + |f.events| else 100)
    && (forall i :: 0 <= i < |g.events| ==>
          g.events[i] == if i < |ps| then ps[|ps| - 1 - i].event else f.events[i - |ps|])
    && g.lastId == LastGivenId(ps, f.lastId)
  }

  lemma ShowsOne(f: Feed, p: Parsed)
    requires |f.events| <= 100
    ensures Shows(Push(f, p), [p], f)
  {
    hide LastGivenId;
    OneGivenId(p, f.lastId);
  }

  lemma OneGivenId(p: Parsed, start: string)
    ensures LastGivenId([p], start) ==
      if p.id.Some? && p.id.value != "" then p.id.value
      else if p.event.id.Some? && p.event.id.value != "" then p.event.id.value
      else start
  {
    assert [p][..0] == [];
  }

  lemma ShowsMore(f: Feed, p: Parsed, mid: Feed, ps: seq<Parsed>, g: Feed)
    requires |f.events| <= 100 && Shows(mid, [p], f) && Shows(g, ps, mid)
    ensures Shows(g, [p] + ps, f)
  {
    hide LastGivenId;
    LastGivenIdCons(p, ps, f.lastId);
  }

  lemma {:induction false} PushedFramesShow(json: Json, f: Feed, frames: seq<string>)
    requires |f.events| <= 100
    ensures Shows(PushFrames(json, f, frames), Recovered(json, frames), f)
    decreases |frames|
  {
    if frames != [] {
      hide Shows, Parse, Push;
      var rest := Recovered(json, frames[1..]);
      PushedFramesShow(json, PushFrame(json, f, frames[0]), frames[1..]) by {
        if Parse(json, frames[0]).Some? {
          ShowsOne(f, Parse(json, frames[0]).value);
          ShowsAtMostHundred(PushFrame(json, f, frames[0]), [Parse(json, frames[0]).value], f);
        }
      }
      match Parse(json, frames[0])
      case None => assert [] + rest == rest;
      case Some(p) =>
        ShowsOne(f, p);
        ShowsMore(f, p, Push(f, p), rest, PushFrames(json, f, frames));
    } else {
      NothingNew(f);
    }
  }

  lemma ShowsAtMostHundred(g: Feed, ps: seq<Parsed>, f: Feed)
    requires Shows(g, ps, f)
    ensures |g.events| <= 100
  {
  }

  lemma NothingNew(f: Feed)
    requires |f.events| <= 100
    ensures Shows(f, [], f)
  {
  }

  /** After any stream in any chunks the feed shows the events of the stream's frames. */
  lemma FeedShowsStream(json: Json, f: Feed, chunks: seq<string>)
    requires NoBreak(f.buf) && |f.events| <= 100
    ensures Shows(ReceiveAll(json, f, chunks), Recovered(json, Frames(f.buf + Concat(chunks)).0), f)
  {
    hide Shows, PushFrames, Recovered, Frames;
    ChunkingIsInvisible(json, f, chunks);
    var frames := Frames(f.buf + Concat(chunks)).0;
    PushedFramesShow(json, f, frames);
    ShowsIgnoresBuffer(PushFrames(json, f, frames), Frames(f.buf + Concat(chunks)).1, Recovered(json, frames), f);
  }

  lemma ShowsIgnoresBuffer(g: Feed, buf: string, ps: seq<Parsed>, f: Feed)
    requires Shows(g, ps, f)
    ensures Shows(g.(buf := buf), ps, f)
  {
  }

  /** The events of the printed messages whose payload is valid JSON, with their ids. */
  function Sent(json: Json, items: seq<Item>): seq<Parsed> {
    if items == [] then []
    else (match Meaning(json, items[0]) case None => [] case Some(p) => [p]) + Sent(json, items[1..])
  }

  lemma {:induction false} PrintedIsRecovered(json: Json, items: seq<Item>)
    requires forall i :: 0 <= i < |items| ==> Printable(items[i])
    ensures Recovered(json, Printed(items)) == Sent(json, items)
  {
    if items != [] {
      hide Parse, Meaning, Print, Printable;
      ParsePrint(json, items[0]);
      assert Printed(items)[0] == Print(items[0]) && Printed(items)[1..] == Printed(items[1..]);
      PrintedIsRecovered(json, items[1..]);
    }
  }

  /** A printed stream, received in any chunks, leaves the feed showing the events sent,
      newest first, and nothing in the buffer. */
  lemma FeedShowsPrinted(json: Json, f: Feed, items: seq<Item>, chunks: seq<string>)
    requires f.buf == "" && Concat(chunks) == PrintAll(items) && |f.events| <= 100
    requires forall i :: 0 <= i < |items| ==> Printable(items[i])
    ensures Shows(ReceiveAll(json, f, chunks), Sent(json, items), f) && ReceiveAll(json, f, chunks).buf == ""
  {
    hide Shows, PushFrames, Recovered, Frames, Printable, Sent;
    FirstBreakIsLeftmost(f.buf);
    FeedShowsStream(json, f, chunks);
    assert f.buf + PrintAll(items) == PrintAll(items);
    PrintAllIsCut(items);
    CutIsUnique(PrintAll(items), Printed(items), "");
    PrintedIsRecovered(json, items);
    StreamRoundTrips(json, f, items, chunks);
    PushItemsKeepsBuffer(json, f, items);
  }

  /** A data field's value loses one leading space and no more; of several ids the last
      counts. */
  lemma FieldValues(v: string, lines: seq<string>)
    ensures IsData("data: " + v) && DataValue("data: " + v) == v
    ensures v == "" || v[0] != ' ' ==> IsData("data:" + v) && DataValue("data:" + v) == v
    ensures LastId(lines + ["id:" + v]) == Some(Trim(v))
  {
    var line := "id:" + v;
    assert ("data: " + v)[6..] == v && ("data:" + v)[5..] == v && line[3..] == v;
    assert (lines + [line])[..|lines|] == lines && line[0] == 'i';
  }

  /** The payload itself comes back exactly when it holds no CR LF pair. */
  lemma {:induction false} PayloadRecoveredIff(data: string)
    ensures Normalized(data) == data <==> CrLfs(data) == 0
  {
    NormalizedLength(data);
  }
}
