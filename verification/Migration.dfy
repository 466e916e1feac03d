/** The additive-migration validator: splitting SQL text into statements outside quoted
    strings, and comparing the schema before and after. */
module Migration {
  import opened Options
  import opened Text

  // ---- comments ----

  /** Removes each `--` with the rest of its line, but not the newline. */
  function StripLineComments(s: string): string
    decreases |s|
  {
    if |s| < 2 then s
    else if s[0] == '-' && s[1] == '-' then StripLineComments(AfterLine(s))
    else [s[0]] + StripLineComments(s[1..])
  }

  /** What is left from the first newline on. */
  function AfterLine(s: string): (r: string)
    ensures |r| <= |s| && (s != "" && s[0] != '\n' ==> |r| < |s|)
  {
    if s == "" || s[0] == '\n' then s else AfterLine(s[1..])
  }

  /** The text after the first closing mark of a block comment, if there is one. */
  function AfterClose(s: string): (r: Option<string>)
    ensures r.Some? ==> |r.value| + 2 <= |s|
  {
    if |s| < 2 then None
    else if s[0] == '*' && s[1] == '/' then Some(s[2..])
    else AfterClose(s[1..])
  }

  /** Block comments, shortest match first; one that is never closed is kept. */
  function StripBlockComments(s: string): string
    decreases |s|
  {
    if |s| < 2 then s
    else if s[0] == '/' && s[1] == '*' && AfterClose(s[2..]).Some? then StripBlockComments(AfterClose(s[2..]).value)
    else [s[0]] + StripBlockComments(s[1..])
  }

  function StripComments(s: string): string { StripBlockComments(StripLineComments(s)) }

  predicate HasMarker(s: string) {
    exists i :: 0 <= i < |s| - 1 && ((s[i] == '-' && s[i + 1] == '-') || (s[i] == '/' && s[i + 1] == '*'))
  }

  lemma TailHasNoMarker(s: string)
    requires !HasMarker(s) && s != ""
    ensures !HasMarker(s[1..])
  {
    forall i | 0 <= i < |s[1..]| - 1
      ensures !((s[1..][i] == '-' && s[1..][i + 1] == '-') || (s[1..][i] == '/' && s[1..][i + 1] == '*'))
    {
      assert s[1..][i] == s[i + 1] && s[1..][i + 1] == s[i + 2];
    }
  }

  lemma NoMarkerAhead(s: string)
    requires !HasMarker(s) && |s| > 1
    ensures !(s[0] == '-' && s[1] == '-') && !(s[0] == '/' && s[1] == '*')
  {
    assert s[0] == s[0 + 0] && s[1] == s[0 + 1];
  }

  lemma {:induction false} AfterLineSkips(c: string, b: string)
    requires '\n' !in c
    ensures AfterLine(c + ("\n" + b)) == "\n" + b
  {
    if c == "" {
      assert c + ("\n" + b) == "\n" + b;
    } else {
      assert (c + ("\n" + b))[0] == c[0] && (c + ("\n" + b))[1..] == c[1..] + ("\n" + b);
      AfterLineSkips(c[1..], b);
    }
  }

  lemma LineStep(s: string)
    requires |s| >= 2
    ensures StripLineComments(s) ==
      if s[0] == '-' && s[1] == '-' then StripLineComments(AfterLine(s)) else [s[0]] + StripLineComments(s[1..])
  {
  }

  /** `a` followed by `rest`, seen from its first character. */
  lemma FirstOfConcat(a: string, rest: string, tail: string)
    requires a != "" && rest != ""
    ensures var s := a + rest;
      s[0] == a[0] && s[1..] == a[1..] + rest && s[1] == if |a| > 1 then a[1] else rest[0]
    ensures [a[0]] + (a[1..] + tail) == a + tail
  {
  }

  /** Text without markers is copied up to a line comment, which is then skipped. */
  lemma {:induction false} LineCommentGoes(a: string, rest: string)
    requires !HasMarker(a) && (a == "" || a[|a| - 1] != '-')
    requires |rest| >= 2 && rest[0] == '-' && rest[1] == '-'
    ensures StripLineComments(a + rest) == a + StripLineComments(AfterLine(rest))
    decreases |a|
  {
    hide HasMarker, AfterLine, StripLineComments;
    LineStep(a + rest);
    if a == "" {
      assert a + rest == rest;
    } else {
      FirstOfConcat(a, rest, StripLineComments(AfterLine(rest)));
      if |a| > 1 { NoMarkerAhead(a); }
      TailHasNoMarker(a);
      LineCommentGoes(a[1..], rest);
    }
  }

  /** A line comment is invisible up to its newline. */
  lemma LineCommentVanishes(a: string, c: string, b: string)
    requires !HasMarker(a) && (a == "" || a[|a| - 1] != '-') && '\n' !in c
    ensures StripLineComments(a + ("--" + c + ("\n" + b))) == a + StripLineComments("\n" + b)
  {
    hide HasMarker, AfterLine, StripLineComments;
    AfterLineSkips("--" + c, b);
    LineCommentGoes(a, "--" + c + ("\n" + b));
  }

  predicate HasClose(s: string) {
    exists i :: 0 <= i < |s| - 1 && s[i] == '*' && s[i + 1] == '/'
  }

  lemma {:induction false} AfterCloseSkips(c: string, b: string)
    requires !HasClose(c)
    ensures AfterClose(c + ("*/" + b)) == Some(b)
  {
    var s := c + ("*/" + b);
    if c == "" {
      assert s == "*/" + b && s[2..] == b;
    } else {
      assert s[0] == c[0] && s[1..] == c[1..] + ("*/" + b);
      assert s[1] == if |c| > 1 then c[1] else '*';
      assert !HasClose(c[1..]) by {
        forall i | 0 <= i < |c[1..]| - 1 ensures !(c[1..][i] == '*' && c[1..][i + 1] == '/') {
          assert c[1..][i] == c[i + 1] && c[1..][i + 1] == c[i + 2];
        }
      }
      AfterCloseSkips(c[1..], b);
    }
  }

  lemma BlockStep(s: string)
    requires |s| >= 2
    ensures StripBlockComments(s) ==
      if s[0] == '/' && s[1] == '*' && AfterClose(s[2..]).Some? then StripBlockComments(AfterClose(s[2..]).value)
      else [s[0]] + StripBlockComments(s[1..])
  {
  }

  /** Text without markers is copied up to a closed block comment, which is then skipped. */
  lemma {:induction false} BlockCommentGoes(a: string, rest: string)
    requires !HasMarker(a) && (a == "" || a[|a| - 1] != '/')
    requires |rest| >= 2 && rest[0] == '/' && rest[1] == '*' && AfterClose(rest[2..]).Some?
    ensures StripBlockComments(a + rest) == a + StripBlockComments(AfterClose(rest[2..]).value)
    decreases |a|
  {
    hide HasMarker, AfterClose, StripBlockComments;
    BlockStep(a + rest);
    if a == "" {
      assert a + rest == rest;
    } else {
      FirstOfConcat(a, rest, StripBlockComments(AfterClose(rest[2..]).value));
      if |a| > 1 { NoMarkerAhead(a); }
      TailHasNoMarker(a);
      BlockCommentGoes(a[1..], rest);
    }
  }

  /** A block comment is invisible up to the first closing mark. */
  lemma BlockCommentVanishes(a: string, c: string, b: string)
    requires !HasMarker(a) && (a == "" || a[|a| - 1] != '/') && !HasClose(c)
    ensures StripBlockComments(a + ("/*" + (c + ("*/" + b)))) == a + StripBlockComments(b)
  {
    hide HasMarker, HasClose, AfterClose, StripBlockComments;
    var rest := "/*" + (c + ("*/" + b));
    AfterCloseSkips(c, b);
    assert rest[2..] == c + ("*/" + b);
    BlockCommentGoes(a, rest);
  }

  // ---- splitting ----

  /** The scanner's state: finished statements, the one being read, and whether it is
      inside quotes. */
  datatype Scan = Scan(done: seq<string>, current: string, inString: bool)

  function Finished(done: seq<string>, current: string): seq<string> {
    if Trim(current) == "" then done else done + [Trim(current)]
  }

  function ScanChar(st: Scan, ch: char): Scan {
    var inString := if ch == '\'' then !st.inString else st.inString;
    if ch == ';' && !inString then Scan(Finished(st.done, st.current), "", inString)
    else Scan(st.done, st.current + [ch], inString)
  }

  function ScanAll(st: Scan, text: string): Scan {
    if text == "" then st else ScanChar(ScanAll(st, text[..|text| - 1]), text[|text| - 1])
  }

  function SplitStatements(sql: string): seq<string> {
    var end := ScanAll(Scan([], "", false), StripComments(sql));
    Finished(end.done, end.current)
  }

  method Split(sql: string) returns (statements: seq<string>)
    ensures statements == SplitStatements(sql)
  {
    var cleaned := StripComments(sql);
    statements := [];
    var current := "";
    var inString := false;
    for i := 0 to |cleaned|
      invariant Scan(statements, current, inString) == ScanAll(Scan([], "", false), cleaned[..i])
    {
      assert cleaned[..i + 1][..i] == cleaned[..i];
      var ch := cleaned[i];
      if ch == '\'' { inString := !inString; }
      if ch == ';' && !inString {
        var trimmed := Trim(current);
        if |trimmed| > 0 { statements := statements + [trimmed]; }
        current := "";
        continue;
      }
      current := current + [ch];
    }
    assert cleaned[..|cleaned|] == cleaned;
    var trimmed := Trim(current);
    if |trimmed| > 0 { statements := statements + [trimmed]; }
  }

  // ---- what the splitter guarantees ----

  /** Whether a reader that starts `inside` quotes or not is inside them after `s`. */
  function Inside(inside: bool, s: string): bool
    decreases |s|
  {
    if s == "" then inside else Inside(if s[0] == '\'' then !inside else inside, s[1..])
  }

  /** A semicolon outside quotes, for a reader that starts outside. */
  ghost predicate HasBareSemicolon(s: string) {
    exists i :: 0 <= i < |s| && s[i] == ';' && !Inside(false, s[..i])
  }

  lemma {:induction false} InsideAppend(inside: bool, a: string, b: string)
    ensures Inside(inside, a + b) == Inside(Inside(inside, a), b)
    decreases |a|
  {
    if a == "" {
      assert a + b == b;
    } else {
      assert (a + b)[1..] == a[1..] + b;
      InsideAppend(if a[0] == '\'' then !inside else inside, a[1..], b);
    }
  }

  lemma InsideOne(inside: bool, c: char)
    ensures Inside(inside, [c]) == if c == '\'' then !inside else inside
  {
    assert [c][1..] == "";
  }

  /** The scanner knows whether it is inside quotes, and never stores a bare semicolon. */
  ghost predicate ScanOk(st: Scan) {
    && st.inString == Inside(false, st.current)
    && !HasBareSemicolon(st.current)
    && (forall i :: 0 <= i < |st.done| ==> Statement(st.done[i]))
  }

  ghost predicate Statement(s: string) {
    s != "" && Trimmed(s) && !HasBareSemicolon(s)
  }

  lemma AppendKeepsBare(s: string, c: char)
    requires !HasBareSemicolon(s) && (c == ';' ==> Inside(false, s))
    ensures !HasBareSemicolon(s + [c])
  {
    forall i | 0 <= i < |s + [c]| && (s + [c])[i] == ';' ensures Inside(false, (s + [c])[..i]) {
      if i < |s| {
        assert (s + [c])[..i] == s[..i];
      } else {
        assert (s + [c])[..i] == s;
      }
    }
  }

  lemma {:induction false} TrimStartKeepsBare(s: string)
    requires !HasBareSemicolon(s)
    ensures !HasBareSemicolon(TrimStart(s))
  {
    if s != "" && IsSpace(s[0]) {
      forall i | 0 <= i < |s[1..]| && s[1..][i] == ';' ensures Inside(false, s[1..][..i]) {
        assert s[..i + 1][1..] == s[1..][..i];
        assert s[i + 1] == ';';
      }
      TrimStartKeepsBare(s[1..]);
    }
  }

  lemma TrimKeepsBare(s: string)
    requires !HasBareSemicolon(s)
    ensures !HasBareSemicolon(Trim(s)) && Trimmed(Trim(s))
  {
    TrimStartKeepsBare(s);
    TrimIsTrimmed(s);
    var t := TrimStart(s);
    forall i | 0 <= i < |Trim(s)| && Trim(s)[i] == ';' ensures Inside(false, Trim(s)[..i]) {
      assert Trim(s)[..i] == t[..i];
    }
  }

  lemma {:induction false} ScanKeepsOk(st: Scan, text: string)
    requires ScanOk(st)
    ensures ScanOk(ScanAll(st, text))
  {
    if text != "" {
      var p, ch := ScanAll(st, text[..|text| - 1]), text[|text| - 1];
      ScanKeepsOk(st, text[..|text| - 1]);
      InsideAppend(false, p.current, [ch]);
      InsideOne(Inside(false, p.current), ch);
      if !(ch == ';' && !p.inString) {
        AppendKeepsBare(p.current, ch);
      }
      TrimKeepsBare(p.current);
    }
  }

  /** On any input, every statement returned is trimmed and non-empty and has no semicolon
      outside quotes. */
  lemma SplitGivesStatements(sql: string, i: nat)
    requires i < |SplitStatements(sql)|
    ensures Statement(SplitStatements(sql)[i])
  {
    ScanKeepsOk(Scan([], "", false), StripComments(sql));
    TrimKeepsBare(ScanAll(Scan([], "", false), StripComments(sql)).current);
  }

  // ---- splitting inverts joining ----

  function Join(stmts: seq<string>): string {
    if stmts == [] then ""
    else if |stmts| == 1 then stmts[0]
    else Join(stmts[..|stmts| - 1]) + ";" + stmts[|stmts| - 1]
  }

  lemma {:induction false} ScanAppend(st: Scan, a: string, b: string)
    ensures ScanAll(st, a + b) == ScanAll(ScanAll(st, a), b)
  {
    if b == "" {
      assert a + b == a;
    } else {
      assert (a + b)[..|a + b| - 1] == a + b[..|b| - 1];
      ScanAppend(st, a, b[..|b| - 1]);
    }
  }

  /** Reading text without a bare semicolon from a fresh start only collects it. */
  lemma {:induction false} ScanStatement(done: seq<string>, s: string)
    requires !HasBareSemicolon(s)
    ensures ScanAll(Scan(done, "", false), s) == Scan(done, s, Inside(false, s))
  {
    if s != "" {
      var front, ch := s[..|s| - 1], s[|s| - 1];
      assert s == front + [ch];
      forall i | 0 <= i < |front| && front[i] == ';' ensures Inside(false, front[..i]) {
        assert s[i] == ';' && s[..i] == front[..i];
      }
      ScanStatement(done, front);
      InsideAppend(false, front, [ch]);
      InsideOne(Inside(false, front), ch);
      assert ch == ';' ==> Inside(false, s[..|s| - 1]);
    }
  }

  /** The trimmed pieces that are not blank. */
  function TrimmedPieces(pieces: seq<string>): seq<string> {
    if pieces == [] then []
    else
      var last := Trim(pieces[|pieces| - 1]);
      TrimmedPieces(pieces[..|pieces| - 1]) + if last == "" then [] else [last]
  }

  /** The pieces between the semicolons outside quotes. */
  ghost predicate ArePieces(pieces: seq<string>) {
    && pieces != []
    && (forall i :: 0 <= i < |pieces| ==> !HasBareSemicolon(pieces[i]))
    && (forall i :: 0 <= i < |pieces| - 1 ==> !Inside(false, pieces[i]))
  }

  lemma ScanSemicolon(done: seq<string>, s: string)
    ensures ScanAll(Scan(done, s, false), ";") == Scan(done + (if Trim(s) == "" then [] else [Trim(s)]), "", false)
  {
    assert ";"[..0] == "";
    assert done + [] == done;
  }

  lemma {:induction false} ScanPieces(pieces: seq<string>)
    requires ArePieces(pieces)
    ensures var front, last := pieces[..|pieces| - 1], pieces[|pieces| - 1];
      ScanAll(Scan([], "", false), Join(pieces)) == Scan(TrimmedPieces(front), last, Inside(false, last))
  {
    hide ScanAll, HasBareSemicolon, Inside, Trim;
    var start := Scan([], "", false);
    var front, last := pieces[..|pieces| - 1], pieces[|pieces| - 1];
    if front == [] {
      ScanStatement([], last);
    } else {
      ScanPieces(front);
      var prev := front[|front| - 1];
      assert prev == pieces[|pieces| - 2];
      assert Join(pieces) == Join(front) + ";" + last;
      ScanAppend(start, Join(front) + ";", last);
      ScanAppend(start, Join(front), ";");
      ScanSemicolon(TrimmedPieces(front[..|front| - 1]), prev);
      ScanStatement(TrimmedPieces(front), last);
    }
  }

  /** Text without comment markers is split into exactly its trimmed pieces, blank ones left
      out. */
  lemma SplitIsTrimmedPieces(pieces: seq<string>)
    requires ArePieces(pieces) && !HasMarker(Join(pieces))
    ensures SplitStatements(Join(pieces)) == TrimmedPieces(pieces)
  {
    hide HasBareSemicolon, Inside, Trim, Join, HasMarker, StripLineComments, StripBlockComments, ScanAll;
    NoMarkerNothingStripped(Join(pieces));
    ScanPieces(pieces);
    var front := TrimmedPieces(pieces[..|pieces| - 1]);
    assert front + [] == front;
  }

  lemma StartPiece(ps: seq<string>)
    requires ArePieces(ps) && !Inside(false, ps[|ps| - 1])
    ensures ArePieces(ps + [""]) && Join(ps + [""]) == Join(ps) + ";"
  {
    hide Inside;
    assert (ps + [""])[..|ps|] == ps;
    assert Join(ps) + ";" + "" == Join(ps) + ";";
  }

  lemma GrowPiece(ps: seq<string>, ch: char)
    requires ArePieces(ps) && (ch == ';' ==> Inside(false, ps[|ps| - 1]))
    ensures var more := ps[..|ps| - 1] + [ps[|ps| - 1] + [ch]]; ArePieces(more) && Join(more) == Join(ps) + [ch]
  {
    hide Inside, HasBareSemicolon, Join;
    var rest, last := ps[..|ps| - 1], ps[|ps| - 1];
    AppendKeepsBare(last, ch);
    JoinLast(rest, last, [ch]);
    assert ps == rest + [last];
    var more := rest + [last + [ch]];
    forall i | 0 <= i < |more| ensures !HasBareSemicolon(more[i]) && (i < |more| - 1 ==> !Inside(false, more[i])) {
      if i < |rest| { assert more[i] == ps[i]; }
    }
  }

  /** Every text is the join of such pieces, so the law covers every text without markers. */
  lemma {:induction false} EveryTextHasPieces(s: string) returns (pieces: seq<string>)
    ensures ArePieces(pieces) && Join(pieces) == s
  {
    if s == "" {
      pieces := [""];
    } else {
      hide ArePieces, Inside, Join;
      var front, ch := s[..|s| - 1], s[|s| - 1];
      var ps := EveryTextHasPieces(front);
      SomePiece(ps);
      assert s == front + [ch];
      if ch == ';' && !Inside(false, ps[|ps| - 1]) {
        StartPiece(ps);
        pieces := ps + [""];
      } else {
        GrowPiece(ps, ch);
        pieces := ps[..|ps| - 1] + [ps[|ps| - 1] + [ch]];
      }
    }
  }

  lemma SomePiece(ps: seq<string>)
    requires ArePieces(ps)
    ensures ps != []
  {
  }

  lemma JoinLast(rest: seq<string>, last: string, more: string)
    ensures Join(rest + [last + more]) == Join(rest + [last]) + more
  {
    assert (rest + [last + more])[..|rest|] == rest && (rest + [last])[..|rest|] == rest;
    if rest != [] { assert Join(rest) + ";" + (last + more) == Join(rest) + ";" + last + more; }
  }

  lemma {:induction false} NoMarkerNothingStripped(s: string)
    requires !HasMarker(s)
    ensures StripLineComments(s) == s && StripBlockComments(s) == s
  {
    if |s| >= 2 {
      TailHasNoMarker(s);
      NoMarkerNothingStripped(s[1..]);
      assert s == [s[0]] + s[1..];
    }
  }

  lemma MarkerOfConcat(a: string, b: string)
    requires !HasMarker(a) && !HasMarker(b)
    ensures !HasMarker(a + ";" + b)
  {
    var s := a + ";" + b;
    forall i | 0 <= i < |s| - 1
      ensures !((s[i] == '-' && s[i + 1] == '-') || (s[i] == '/' && s[i + 1] == '*'))
    {
      if i + 1 < |a| {
        assert s[i] == a[i] && s[i + 1] == a[i + 1];
      } else if i > |a| {
        assert s[i] == b[i - |a| - 1] && s[i + 1] == b[i - |a|];
      }
    }
  }

  lemma {:induction false} JoinHasNoMarker(stmts: seq<string>)
    requires forall i :: 0 <= i < |stmts| ==> !HasMarker(stmts[i])
    ensures !HasMarker(Join(stmts))
  {
    if |stmts| > 1 {
      JoinHasNoMarker(stmts[..|stmts| - 1]);
      MarkerOfConcat(Join(stmts[..|stmts| - 1]), stmts[|stmts| - 1]);
    }
  }

  lemma {:induction false} StatementsAreTheirTrims(stmts: seq<string>)
    requires forall i :: 0 <= i < |stmts| ==> Statement(stmts[i])
    ensures TrimmedPieces(stmts) == stmts
  {
    if stmts != [] {
      hide HasBareSemicolon, Trim;
      var front, last := stmts[..|stmts| - 1], stmts[|stmts| - 1];
      StatementsAreTheirTrims(front);
      assert Statement(last);
      TrimIsTrimmed(last);
      assert stmts == front + [last];
    }
  }

  /** Splitting inverts joining: statements that are trimmed, non-empty, balanced in quotes
      but for the last, and free of bare semicolons and comment markers come back exactly. */
  lemma SplitInvertsJoin(stmts: seq<string>)
    requires forall i :: 0 <= i < |stmts| ==> Statement(stmts[i]) && !HasMarker(stmts[i])
    requires forall i :: 0 <= i < |stmts| - 1 ==> !Inside(false, stmts[i])
    ensures SplitStatements(Join(stmts)) == stmts
  {
    hide HasBareSemicolon, Inside, TrimStart, TrimEnd, HasMarker, SplitStatements, Trimmed;
    JoinHasNoMarker(stmts);
    if stmts == [] {
      SplitNothing();
    } else {
      SplitIsTrimmedPieces(stmts);
      StatementsAreTheirTrims(stmts);
    }
  }

  lemma SplitNothing()
    ensures Join([]) == "" && SplitStatements("") == []
  {
  }

  // ---- comments do not matter ----

  lemma {:induction false} LineCopies(a: string, rest: string)
    requires !HasMarker(a) && (a == "" || a[|a| - 1] != '-') && rest != ""
    ensures StripLineComments(a + rest) == a + StripLineComments(rest)
    decreases |a|
  {
    hide HasMarker, StripLineComments;
    if a == "" {
      assert a + rest == rest && a + StripLineComments(rest) == StripLineComments(rest);
    } else {
      LineStep(a + rest);
      FirstOfConcat(a, rest, StripLineComments(rest));
      if |a| > 1 { NoMarkerAhead(a); }
      TailHasNoMarker(a);
      LineCopies(a[1..], rest);
    }
  }

  lemma {:induction false} BlockCopies(a: string, rest: string)
    requires !HasMarker(a) && (a == "" || a[|a| - 1] != '/')
    ensures StripBlockComments(a + rest) == a + StripBlockComments(rest)
    decreases |a|
  {
    hide HasMarker, StripBlockComments;
    if a == "" {
      assert a + rest == rest && a + StripBlockComments(rest) == StripBlockComments(rest);
    } else if rest == "" {
      assert a + rest == a;
      NoMarkerNothingStripped(a);
      NoMarkerInNothing();
      NoMarkerNothingStripped(rest);
    } else {
      BlockStep(a + rest);
      FirstOfConcat(a, rest, StripBlockComments(rest));
      if |a| > 1 { NoMarkerAhead(a); }
      TailHasNoMarker(a);
      BlockCopies(a[1..], rest);
    }
  }

  lemma NoMarkerInNothing()
    ensures !HasMarker("")
  {
  }

  /** The statements of a text are those of the text without a line comment. */
  lemma LineCommentsDoNotMatter(a: string, c: string, b: string)
    requires !HasMarker(a) && (a == "" || a[|a| - 1] != '-') && '\n' !in c
    ensures SplitStatements(a + ("--" + c + ("\n" + b))) == SplitStatements(a + ("\n" + b))
  {
    hide HasMarker, StripLineComments, StripBlockComments, ScanAll;
    LineCommentVanishes(a, c, b);
    LineCopies(a, "\n" + b);
  }

  predicate HasDashes(s: string) {
    exists i :: 0 <= i < |s| - 1 && s[i] == '-' && s[i + 1] == '-'
  }

  lemma {:induction false} NoDashesNothingStripped(s: string)
    requires !HasDashes(s)
    ensures StripLineComments(s) == s
  {
    if |s| >= 2 {
      assert s[0 + 1] == s[1];
      forall i | 0 <= i < |s[1..]| - 1 ensures !(s[1..][i] == '-' && s[1..][i + 1] == '-') {
        assert s[1..][i] == s[i + 1] && s[1..][i + 1] == s[i + 2];
      }
      NoDashesNothingStripped(s[1..]);
      assert s == [s[0]] + s[1..];
    }
  }

  /** The statements of a text without line comments are those of the text without a block
      comment. */
  lemma BlockCommentsDoNotMatter(a: string, c: string, b: string)
    requires !HasMarker(a) && (a == "" || a[|a| - 1] != '/') && !HasClose(c)
    requires !HasDashes(a + ("/*" + (c + ("*/" + b)))) && !HasDashes(a + b)
    ensures SplitStatements(a + ("/*" + (c + ("*/" + b)))) == SplitStatements(a + b)
  {
    hide HasMarker, HasClose, HasDashes, StripLineComments, StripBlockComments, ScanAll;
    NoDashesNothingStripped(a + ("/*" + (c + ("*/" + b))));
    NoDashesNothingStripped(a + b);
    BlockCommentVanishes(a, c, b);
    BlockCopies(a, b);
  }

  // ---- comparing schemas ----

  datatype Column = Column(name: string, columnType: string)
  datatype MasterRow = MasterRow(kind: string, name: string, sql: string)

  /** `sqlite_master` and the columns of every table. */
  datatype Schema = Schema(master: seq<MasterRow>, tables: map<string, seq<Column>>)

  function KeyOf(r: MasterRow): (string, string) { (r.kind, r.name) }

  /** The recorded sql of each object that is not a table; a later row wins. */
  function Objects(rows: seq<MasterRow>): map<(string, string), string> {
    if rows == [] then map[]
    else
      var last := rows[|rows| - 1];
      var front := Objects(rows[..|rows| - 1]);
      if last.kind == "table" then front else front[KeyOf(last) := last.sql]
  }

  predicate ColumnsKept(before: seq<Column>, after: seq<Column>) {
    before <= after
  }

  /** Additive: every table survives with its columns as a prefix, and every other object
      present in both has unchanged sql. */
  ghost predicate Additive(before: Schema, after: Schema) {
    && (forall t :: t in before.tables ==> t in after.tables && ColumnsKept(before.tables[t], after.tables[t]))
    && (forall r :: r in after.master ==> SameSql(Objects(before.master), r))
  }

  predicate SameSql(objects: map<(string, string), string>, r: MasterRow) {
    r.kind != "table" && KeyOf(r) in objects ==> objects[KeyOf(r)] == r.sql
  }

  /** The column at `i` is missing or different afterwards. */
  predicate ChangedAt(before: seq<Column>, after: seq<Column>, i: nat)
    requires i < |before|
  {
    i >= |after| || after[i] != before[i]
  }

  datatype Problem = Rewritten(name: string) | Dropped(table: string) | ColumnChanged(of: string, position: nat)

  ghost predicate IsProblem(p: Problem, before: Schema, after: Schema) {
    match p
    case Rewritten(name) => exists r :: r in after.master && RewrittenBy(before, r, name)
    case Dropped(table) => table in before.tables && table !in after.tables
    case ColumnChanged(table, i) =>
      table in before.tables && table in after.tables && i < |before.tables[table]| &&
      ChangedAt(before.tables[table], after.tables[table], i)
  }

  predicate RewrittenBy(before: Schema, r: MasterRow, name: string) {
    r.name == name && !SameSql(Objects(before.master), r)
  }

  /** A change is additive exactly when it has no problem. */
  lemma AdditiveIffNoProblem(before: Schema, after: Schema)
    ensures Additive(before, after) <==> forall p :: !IsProblem(p, before, after)
  {
    if forall p :: !IsProblem(p, before, after) {
      forall r | r in after.master ensures SameSql(Objects(before.master), r) {
        assert !IsProblem(Rewritten(r.name), before, after);
        assert !RewrittenBy(before, r, r.name);
      }
      forall t | t in before.tables ensures t in after.tables && ColumnsKept(before.tables[t], after.tables[t]) {
        assert !IsProblem(Dropped(t), before, after);
        forall i: nat | i < |before.tables[t]| ensures !ChangedAt(before.tables[t], after.tables[t], i) {
          assert !IsProblem(ColumnChanged(t, i), before, after);
        }
        KeptIffNothingChanged(before.tables[t], after.tables[t]);
      }
    } else {
      var p :| IsProblem(p, before, after);
      if p.ColumnChanged? { KeptIffNothingChanged(before.tables[p.of], after.tables[p.of]); }
    }
  }

  lemma KeptIffNothingChanged(before: seq<Column>, after: seq<Column>)
    ensures ColumnsKept(before, after) <==> forall i: nat :: i < |before| ==> !ChangedAt(before, after, i)
  {
    if forall i: nat :: i < |before| ==> !ChangedAt(before, after, i) {
      if |before| > 0 { assert !ChangedAt(before, after, |before| - 1); }
      forall i | 0 <= i < |before| ensures before[i] == after[i] {
        assert !ChangedAt(before, after, i);
      }
    }
  }

  method DiffColumns(table: string, before: seq<Column>, after: seq<Column>) returns (problems: seq<Problem>)
    ensures forall p :: p in problems <==>
      p.ColumnChanged? && p.of == table && p.position < |before| && ChangedAt(before, after, p.position)
  {
    problems := [];
    for i := 0 to |before|
      invariant forall p :: p in problems <==>
        p.ColumnChanged? && p.of == table && p.position < i && ChangedAt(before, after, p.position)
    {
      if i >= |after| || after[i].name != before[i].name || after[i].columnType != before[i].columnType {
        problems := problems + [ColumnChanged(table, i)];
      }
    }
  }

  /** A problem of an object, or of one of the tables in `seen`. */
  ghost predicate ProblemAmong(p: Problem, before: Schema, after: Schema, seen: set<string>) {
    IsProblem(p, before, after) && (p.Dropped? ==> p.table in seen) && (p.ColumnChanged? ==> p.of in seen)
  }

  /** `diffSnapshots` lists exactly the problems, and accepts exactly the additive changes. */
  method DiffSnapshots(before: Schema, after: Schema) returns (valid: bool, problems: seq<Problem>)
    ensures forall p :: p in problems <==> IsProblem(p, before, after)
    ensures valid <==> Additive(before, after)
  {
    problems := [];
    var beforeMaster := map[];
    for i := 0 to |before.master|
      invariant beforeMaster == Objects(before.master[..i])
    {
      assert before.master[..i + 1][..i] == before.master[..i];
      var r := before.master[i];
      if r.kind != "table" { beforeMaster := beforeMaster[KeyOf(r) := r.sql]; }
    }
    assert before.master[..|before.master|] == before.master;
    for i := 0 to |after.master|
      invariant forall p :: p in problems <==>
        p.Rewritten? && exists k :: 0 <= k < i && RewrittenBy(before, after.master[k], p.name)
    {
      var r := after.master[i];
      if r.kind == "table" { continue; }
      if KeyOf(r) in beforeMaster && beforeMaster[KeyOf(r)] != r.sql {
        problems := problems + [Rewritten(r.name)];
      }
    }
    assert forall p :: p in problems <==> ProblemAmong(p, before, after, {});
    var left := before.tables.Keys;
    while left != {}
      invariant left <= before.tables.Keys
      invariant forall p :: p in problems <==> ProblemAmong(p, before, after, before.tables.Keys - left)
      decreases left
    {
      var table :| table in left;
      left := left - {table};
      if table !in after.tables {
        problems := problems + [Dropped(table)];
      } else {
        var more := DiffColumns(table, before.tables[table], after.tables[table]);
        problems := problems + more;
      }
    }
    AdditiveIffNoProblem(before, after);
    valid := problems == [];
    if problems != [] { assert problems[0] in problems; }
  }

  // ---- chains of accepted migrations ----

  ghost predicate Chain(schemas: seq<Schema>) {
    forall i :: 0 <= i < |schemas| - 1 ==> Additive(schemas[i], schemas[i + 1])
  }

  /** Over any chain of accepted migrations every original table survives with its original
      columns as a prefix. */
  lemma {:induction false} ChainsKeepColumns(schemas: seq<Schema>, table: string)
    requires Chain(schemas) && schemas != [] && table in schemas[0].tables
    ensures var last := schemas[|schemas| - 1];
      table in last.tables && ColumnsKept(schemas[0].tables[table], last.tables[table])
  {
    if |schemas| > 1 {
      var front := schemas[..|schemas| - 1];
      forall i | 0 <= i < |front| - 1 ensures Additive(front[i], front[i + 1]) {
        assert Additive(schemas[i], schemas[i + 1]);
      }
      ChainsKeepColumns(front, table);
      assert Additive(schemas[|schemas| - 2], schemas[|schemas| - 1]);
    }
  }

  /** No two rows of a schema share kind and name, as sqlite guarantees. */
  ghost predicate UniqueRows(rows: seq<MasterRow>) {
    forall i, j :: 0 <= i < j < |rows| ==> rows[i].kind != rows[j].kind || rows[i].name != rows[j].name
  }

  lemma {:induction false} ObjectsHolds(rows: seq<MasterRow>, r: MasterRow)
    requires UniqueRows(rows) && r in rows && r.kind != "table"
    ensures KeyOf(r) in Objects(rows) && Objects(rows)[KeyOf(r)] == r.sql
  {
    var front, last := rows[..|rows| - 1], rows[|rows| - 1];
    assert rows == front + [last];
    if r != last {
      ObjectsHolds(front, r);
      var i :| 0 <= i < |front| && front[i] == r;
      assert KeyOf(rows[i]) != KeyOf(rows[|rows| - 1]);
    }
  }

  /** Two rows of one object that is not a table. */
  predicate SameObject(q: MasterRow, r: MasterRow) { q.kind == r.kind && q.name == r.name && q.kind != "table" }

  /** Additive in terms of the rows themselves: every table survives with its columns as a
      prefix, and no object other than a table has different sql before and after. */
  lemma AdditiveMeans(before: Schema, after: Schema)
    requires UniqueRows(before.master)
    ensures Additive(before, after) <==>
      && (forall t :: t in before.tables ==> t in after.tables && before.tables[t] <= after.tables[t])
      && (forall q, r :: q in before.master && r in after.master && SameObject(q, r) ==> q.sql == r.sql)
  {
    forall q | q in before.master && q.kind != "table"
      ensures KeyOf(q) in Objects(before.master) && Objects(before.master)[KeyOf(q)] == q.sql
    {
      ObjectsHolds(before.master, q);
    }
    forall r | r in after.master && r.kind != "table" && KeyOf(r) in Objects(before.master)
      ensures exists q :: q in before.master && q.kind == r.kind && q.name == r.name
    {
      ObjectsComeFromRows(before.master, KeyOf(r));
    }
    if Additive(before, after) {
      forall q, r | q in before.master && r in after.master && SameObject(q, r) ensures q.sql == r.sql
      {
        assert SameSql(Objects(before.master), r);
      }
    }
  }

  lemma {:induction false} ObjectsComeFromRows(rows: seq<MasterRow>, key: (string, string))
    requires key in Objects(rows)
    ensures exists q :: q in rows && q.kind != "table" && KeyOf(q) == key
  {
    var front, last := rows[..|rows| - 1], rows[|rows| - 1];
    assert rows == front + [last];
    if last.kind == "table" || KeyOf(last) != key { ObjectsComeFromRows(front, key); }
  }

  /** An index or other object keeps its sql over a chain that never drops it. */
  lemma {:induction false} ChainsKeepObjects(schemas: seq<Schema>, rows: seq<MasterRow>)
    requires Chain(schemas) && schemas != [] && |rows| == |schemas|
    requires forall i :: 0 <= i < |schemas| ==> UniqueRows(schemas[i].master) && rows[i] in schemas[i].master
    requires forall i :: 0 <= i < |rows| ==> rows[i].kind != "table" && KeyOf(rows[i]) == KeyOf(rows[0])
    ensures rows[|rows| - 1].sql == rows[0].sql
  {
    if |schemas| > 1 {
      var n := |schemas| - 1;
      var front := schemas[..n];
      forall i | 0 <= i < |front| - 1 ensures Additive(front[i], front[i + 1]) {
        assert Additive(schemas[i], schemas[i + 1]);
      }
      ChainsKeepObjects(front, rows[..n]);
      ObjectsHolds(schemas[n - 1].master, rows[n - 1]);
      assert Additive(schemas[n - 1], schemas[n]);
      assert SameSql(Objects(schemas[n - 1].master), rows[n]);
    }
  }

  /** Without that an object's sql may change in two accepted steps: dropped, then created
      differently. */
  lemma DroppedObjectsMayChange(key: string, a: string, b: string)
    requires a != b
    ensures var x, y := Schema([MasterRow("index", key, a)], map[]), Schema([], map[]);
      var z := Schema([MasterRow("index", key, b)], map[]);
      Additive(x, y) && Additive(y, z) && !Additive(x, z)
  {
    var x, z := Schema([MasterRow("index", key, a)], map[]), Schema([MasterRow("index", key, b)], map[]);
    assert x.master[..0] == [];
    assert Objects(x.master)[("index", key)] == a;
    assert z.master[0] in z.master && !SameSql(Objects(x.master), z.master[0]);
  }
}
