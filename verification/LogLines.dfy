/** When the lines the log reader logs are the lines of the stream. */
module LogLines {
  import opened Wrappers
  import opened LogReader

  /** The text up to its last newline ... */
  function Finished(t: string): string {
    t[..RFind(t) + 1]
  }

  /** ... and what follows it. */
  function Unfinished(t: string): string {
    t[RFind(t) + 1..]
  }

  /** A reader that logged exactly the finished lines of the text and holds exactly the rest. */
  function Exactly(t: string): Reader {
    Reader(SanitizeAll(SplitLines(Finished(t))), Unfinished(t))
  }

  // ---------- A newline closes a line, or makes an empty one ----------

  /** The text ends inside a line: a newline behind it adds no line. */
  predicate InsideLine(body: string) {
    body != "" && (body[|body| - 1] == '\r' || !IsTerminator(body[|body| - 1]))
  }

  lemma {:induction false} LineEndAppend(a: string, b: string)
    requires LineEnd(a) < |a|
    ensures LineEnd(a + b) == LineEnd(a)
  {
    if !IsTerminator(a[0]) {
      assert (a + b)[1..] == a[1..] + b;
      LineEndAppend(a[1..], b);
    }
  }

  /** Splitting a text that has a terminator: its first line, and the rest. */
  lemma SplitStep(s: string)
    requires LineEnd(s) < |s|
    ensures SplitLines(s) == [s[..LineEnd(s)]] + SplitLines(s[Skip(s, LineEnd(s))..])
  {
  }

  /** ... also in front of further text, unless that completes a CR LF pair. */
  lemma SplitStepAppend(a: string, b: string)
    requires LineEnd(a) < |a| && !(LineEnd(a) == |a| - 1 && a[|a| - 1] == '\r')
    ensures var m := Skip(a, LineEnd(a)); SplitLines(a + b) == [a[..LineEnd(a)]] + SplitLines(a[m..] + b)
  {
    var n := LineEnd(a);
    LineEndAppend(a, b);
    SplitStep(a + b);
    SliceAppend(a, b, n);
    SkipAppend(a, b, n);
    SliceAppend(a, b, Skip(a, n));
  }

  lemma SliceAppend(a: string, b: string, n: nat)
    requires n <= |a|
    ensures (a + b)[..n] == a[..n] && (a + b)[n..] == a[n..] + b
  {
  }

  lemma SkipAppend(a: string, b: string, n: nat)
    requires n < |a| && !(n == |a| - 1 && a[n] == '\r')
    ensures Skip(a + b, n) == Skip(a, n)
  {
  }

  lemma ClosedCr(body: string)
    requires LineEnd(body) == |body| - 1 && body[|body| - 1] == '\r'
    ensures SplitLines(body + "\n") == SplitLines(body)
  {
    var n := LineEnd(body);
    LineEndAppend(body, "\n");
    SplitStep(body);
    SplitStep(body + "\n");
    assert (body + "\n")[..n] == body[..n];
    assert body[n + 1..] == "" == (body + "\n")[n + 2..];
  }

  lemma InsideRest(body: string, n: nat)
    requires n < |body| && IsTerminator(body[n]) && !(n == |body| - 1 && body[n] == '\r')
    ensures InsideLine(body) <==> InsideLine(body[Skip(body, n)..])
  {
    var m := Skip(body, n);
    if m < |body| {
      LastOfRest(body, m);
    } else {
      assert body[m..] == "" && body[|body| - 1] != '\r' && IsTerminator(body[|body| - 1]);
    }
  }

  lemma LastOfRest(s: string, m: nat)
    requires m < |s|
    ensures s[m..][|s[m..]| - 1] == s[|s| - 1]
  {
  }

  /** The lines of a text with a newline behind it. */
  function Newlined(body: string): seq<string> {
    SplitLines(body) + if InsideLine(body) then [] else [""]
  }

  lemma NewlinedStep(body: string, line: string, rest: string)
    requires SplitLines(body) == [line] + SplitLines(rest) && (InsideLine(body) <==> InsideLine(rest))
    ensures Newlined(body) == [line] + Newlined(rest)
  {
    Prepend(line, SplitLines(rest), if InsideLine(rest) then [] else [""]);
  }

  lemma NewlinedLine(body: string)
    requires IsLine(body)
    ensures SplitLines(body + "\n") == Newlined(body)
  {
    OneLine(body);
    SplitLast(body);
    assert body != "" ==> body[|body| - 1] in body;
  }

  lemma LineEndsAtEnd(body: string)
    requires LineEnd(body) == |body|
    ensures IsLine(body)
  {
  }

  /** A newline behind the text adds an empty line exactly when the text does not end inside
      a line. */
  lemma {:induction false} SplitWithNewline(body: string)
    ensures SplitLines(body + "\n") == Newlined(body)
    decreases |body|
  {
    var n := LineEnd(body);
    if n == |body| {
      LineEndsAtEnd(body);
      NewlinedLine(body);
    } else if n == |body| - 1 && body[n] == '\r' {
      ClosedCr(body);
    } else {
      SplitStep(body);
      InsideRest(body, n);
      NewlinedStep(body, body[..n], body[Skip(body, n)..]);
      SplitStepAppend(body, "\n");
      SplitWithNewline(body[Skip(body, n)..]);
    }
  }

  /** The text is empty or ends with a newline. */
  predicate Closed(t: string) {
    t == "" || t[|t| - 1] == '\n'
  }

  lemma ClosedRest(a: string)
    requires a != "" && Closed(a)
    ensures LineEnd(a) < |a| && Closed(a[Skip(a, LineEnd(a))..])
  {
    assert IsTerminator(a[|a| - 1]);
  }

  /** Behind a newline, splitting starts afresh. */
  lemma {:induction false} SplitAppend(a: string, b: string)
    requires Closed(a)
    ensures SplitLines(a + b) == SplitLines(a) + SplitLines(b)
    decreases |a|
  {
    if a == "" {
      assert a + b == b;
    } else {
      ClosedRest(a);
      SplitAppend(a[Skip(a, LineEnd(a))..], b);
      SplitStep(a);
      SplitStepAppend(a, b);
      Prepend(a[..LineEnd(a)], SplitLines(a[Skip(a, LineEnd(a))..]), SplitLines(b));
    }
  }

  lemma Prepend(line: string, a: seq<string>, b: seq<string>)
    ensures [line] + (a + b) == ([line] + a) + b
  {
  }

  // ---------- One step ----------

  /** Rest and chunk end in a line that is not empty, or are a single character. */
  predicate StepsWhole(s: string) {
    s != "" && if s[|s| - 1] == '\n' then InsideLine(s[..|s| - 1]) else |s| == 1
  }

  lemma RFindIs(s: string, r: int)
    requires -1 <= r < |s| && (r >= 0 ==> s[r] == '\n') && forall i :: r < i < |s| ==> s[i] != '\n'
    ensures RFind(s) == r
  {
  }

  /** A closed text in front of one without newlines is what is finished of both. */
  lemma Parts(f: string, u: string)
    requires Closed(f) && '\n' !in u
    ensures Finished(f + u) == f && Unfinished(f + u) == u
  {
    forall i | |f| - 1 < i < |f + u| ensures (f + u)[i] != '\n' { assert (f + u)[i] == u[i - |f|]; }
    RFindIs(f + u, |f| - 1);
  }

  lemma PartsOf(t: string)
    ensures t == Finished(t) + Unfinished(t) && Closed(Finished(t)) && '\n' !in Unfinished(t)
  {
  }

  /** Splitting what is finished so far from the rest goes on with the rest alone. */
  lemma FinishedAppend(t: string, chunk: string)
    ensures var s := Unfinished(t) + chunk;
            Finished(t + chunk) == Finished(t) + Finished(s) && Unfinished(t + chunk) == Unfinished(s)
  {
    var s := Unfinished(t) + chunk;
    PartsOf(t);
    PartsOf(s);
    Associate(Finished(t), Unfinished(t), chunk);
    Associate(Finished(t), Finished(s), Unfinished(s));
    Parts(Finished(t) + Finished(s), Unfinished(s));
  }

  lemma ExactlyAppend(t: string, chunk: string)
    ensures var s := Unfinished(t) + chunk;
            Exactly(t + chunk) == Reader(Exactly(t).logged + SanitizeAll(SplitLines(Finished(s))), Unfinished(s))
  {
    var s := Unfinished(t) + chunk;
    FinishedAppend(t, chunk);
    PartsOf(t);
    SplitAppend(Finished(t), Finished(s));
    SanitizeAllAppend(SplitLines(Finished(t)), SplitLines(Finished(s)));
  }

  lemma {:induction false} SanitizeAllLength(lines: seq<string>)
    ensures |SanitizeAll(lines)| == |lines|
  {
    if lines != [] { SanitizeAllLength(lines[1..]); }
  }

  /** The lines logged of `s` are its finished lines, and what is kept is the rest. */
  predicate LogsAndKeeps(s: string)
    requires s != ""
  {
    SanitizeAll(SplitLines(s[..Cut(s)])) == SanitizeAll(SplitLines(Finished(s))) && NewPrefix(s) == Unfinished(s)
  }

  lemma ClosedStep(s: string)
    requires s != "" && s[|s| - 1] == '\n'
    ensures LogsAndKeeps(s) <==> StepsWhole(s)
  {
    var body := s[..|s| - 1];
    RFindIs(s, |s| - 1);
    assert s == body + "\n" && Finished(s) == s && Unfinished(s) == "";
    SplitWithNewline(body);
    if InsideLine(body) { assert Newlined(body) == SplitLines(body); }
    SanitizeAllLength(SplitLines(body));
    SanitizeAllLength(SplitLines(s));
  }

  lemma OpenStep(s: string)
    requires s != "" && s[|s| - 1] != '\n'
    ensures LogsAndKeeps(s) <==> StepsWhole(s)
  {
    if RFind(s) >= 0 {
      assert |NewPrefix(s)| == |Unfinished(s)| + 1;
    } else {
      assert Unfinished(s) == s && Finished(s) == "";
      assert |NewPrefix(s)| == 1;
      if |s| == 1 { assert s[..0] == "" && s[0..] == s; }
    }
  }

  lemma Cancel(l: seq<string>, a: seq<string>, b: seq<string>)
    ensures l + a == l + b <==> a == b
  {
    assert (l + a)[|l|..] == a && (l + b)[|l|..] == b;
  }

  /** A step of an exact reader stays exact exactly when rest and chunk end in a line that is
      not empty, or are a single character. */
  lemma StepExactIff(t: string, chunk: string)
    requires chunk != ""
    ensures Feed(Exactly(t), chunk) == Exactly(t + chunk) <==> StepsWhole(Unfinished(t) + chunk)
  {
    var s := Unfinished(t) + chunk;
    ExactlyAppend(t, chunk);
    Cancel(Exactly(t).logged, SanitizeAll(SplitLines(s[..Cut(s)])), SanitizeAll(SplitLines(Finished(s))));
    if s[|s| - 1] == '\n' { ClosedStep(s); } else { OpenStep(s); }
  }

  // ---------- A whole stream ----------

  /** After every chunk, exactly the finished lines are logged and exactly the rest is held. */
  ghost predicate ExactThroughout(chunks: seq<string>) {
    forall i :: 0 <= i <= |chunks| ==> ExactAfter(chunks, i)
  }

  predicate ExactAfter(chunks: seq<string>, i: nat)
    requires i <= |chunks|
  {
    FeedAll(chunks[..i]) == Some(Exactly(Concat(chunks[..i])))
  }

  /** Chunk number i closes a line that is not empty, or is the first character of one. */
  predicate ArrivesWhole(chunks: seq<string>, i: nat)
    requires i < |chunks|
  {
    StepsWhole(Unfinished(Concat(chunks[..i])) + chunks[i])
  }

  lemma NextExactIff(chunks: seq<string>, i: nat)
    requires i < |chunks| && chunks[i] != "" && ExactAfter(chunks, i)
    ensures ExactAfter(chunks, i + 1) <==> ArrivesWhole(chunks, i)
  {
    assert chunks[..i + 1][..i] == chunks[..i];
    StepExactIff(Concat(chunks[..i]), chunks[i]);
  }

  lemma {:induction false} ExactUpTo(chunks: seq<string>, n: nat)
    requires n <= |chunks| && forall i :: 0 <= i < |chunks| ==> chunks[i] != ""
    requires forall i :: 0 <= i < n ==> ArrivesWhole(chunks, i)
    ensures ExactAfter(chunks, n)
  {
    if n == 0 {
      assert chunks[..0] == [];
    } else {
      ExactUpTo(chunks, n - 1);
      NextExactIff(chunks, n - 1);
    }
  }

  /** Lines stay whole throughout a stream of non-empty chunks exactly when every chunk closes
      a line that is not empty, or is the first character of one. */
  lemma ExactThroughoutIff(chunks: seq<string>)
    requires forall i :: 0 <= i < |chunks| ==> chunks[i] != ""
    ensures ExactThroughout(chunks) <==> forall i :: 0 <= i < |chunks| ==> ArrivesWhole(chunks, i)
  {
    if ExactThroughout(chunks) {
      forall i | 0 <= i < |chunks| ensures ArrivesWhole(chunks, i) {
        assert ExactAfter(chunks, i) && ExactAfter(chunks, i + 1);
        NextExactIff(chunks, i);
      }
    } else if forall i :: 0 <= i < |chunks| ==> ArrivesWhole(chunks, i) {
      var n :| 0 <= n <= |chunks| && !ExactAfter(chunks, n);
      ExactUpTo(chunks, n);
    }
  }

  // ---------- Whole lines ----------

  predicate IsLine(l: string) {
    forall c :: c in l ==> !IsTerminator(c)
  }

  function Unlines(lines: seq<string>): string {
    if lines == [] then "" else lines[0] + "\n" + Unlines(lines[1..])
  }

  lemma {:induction false} LineEndIs(l: string, rest: string)
    requires IsLine(l) && (rest != "" ==> IsTerminator(rest[0]))
    ensures LineEnd(l + rest) == |l|
  {
    if l == "" {
      assert l + rest == rest;
    } else {
      assert l[0] in l && forall c :: c in l[1..] ==> c in l;
      assert (l + rest)[1..] == l[1..] + rest;
      LineEndIs(l[1..], rest);
    }
  }

  lemma SplitFirst(l: string, rest: string)
    requires IsLine(l)
    ensures SplitLines(l + "\n" + rest) == [l] + SplitLines(rest)
  {
    var s := l + ("\n" + rest);
    assert s == l + "\n" + rest;
    LineEndIs(l, "\n" + rest);
    assert s[..|l|] == l && s[|l|] == '\n' && s[|l| + 1..] == rest;
  }

  lemma SplitLast(l: string)
    requires IsLine(l)
    ensures SplitLines(l) == if l == "" then [] else [l]
  {
  }

  /** LF, VT, FF, CR, three separators, NEL, and two of Unicode. */
  predicate EndsLine(c: char) {
    || c == '\n' || c == '\U{0B}' || c == '\U{0C}' || c == '\r' || c == '\U{1C}' || c == '\U{1D}' || c == '\U{1E}'
    || c == '\U{85}' || c == '\U{2028}' || c == '\U{2029}'
  }

  /** What splitting means: a text in which no line ends is one line, or none if it is empty;
      and the first line of any other is what stands before its end, which is one character, or
      CR and LF together. */
  lemma SplitsAtEnds(l: string, c: char, rest: string)
    requires EndsLine(c) && forall x :: x in l ==> !EndsLine(x)
    ensures SplitLines(l) == if l == "" then [] else [l]
    ensures SplitLines(l + ([c] + rest))
            == [l] + SplitLines(if c == '\r' && rest != "" && rest[0] == '\n' then rest[1..] else rest)
  {
    assert IsLine(l);
    SplitLast(l);
    var s := l + ([c] + rest);
    LineEndIs(l, [c] + rest);
    assert s[..|l|] == l && s[|l|] == c && s[|l| + 1..] == rest;
    if rest != "" { assert s[|l| + 1] == rest[0] && s[|l| + 2..] == rest[1..]; }
  }

  /** The lines of a text that ends with `last`: an empty rest is not a line. */
  function WithLast(lines: seq<string>, last: string): seq<string> {
    if last == "" then lines else lines + [last]
  }

  lemma UnlinesStep(lines: seq<string>, last: string)
    requires lines != []
    ensures Unlines(lines) + last == lines[0] + "\n" + (Unlines(lines[1..]) + last)
    ensures WithLast(lines, last) == [lines[0]] + WithLast(lines[1..], last)
  {
    Associate(lines[0] + "\n", Unlines(lines[1..]), last);
  }

  /** Splitting undoes writing out lines, with or without a newline behind the last one. */
  lemma {:induction false} SplitUnlines(lines: seq<string>, last: string)
    requires (forall l :: l in lines ==> IsLine(l)) && IsLine(last)
    ensures SplitLines(Unlines(lines) + last) == WithLast(lines, last)
  {
    if lines == [] {
      assert "" + last == last;
      SplitLast(last);
    } else {
      UnlinesStep(lines, last);
      SplitFirst(lines[0], Unlines(lines[1..]) + last);
      SplitUnlines(lines[1..], last);
    }
  }

  lemma FeedWholeLines(r: Reader, body: string)
    requires r.prefix == ""
    ensures Feed(r, body + "\n") == Reader(r.logged + SanitizeAll(SplitLines(body)), "")
  {
    var s := body + "\n";
    assert "" + s == s && s[|s| - 1] == '\n';
    assert s[..|s| - 1] == body;
  }

  /** A chunk of whole lines is logged line by line; of an empty line at its end, and only
      of that, nothing is logged. */
  lemma WholeLinesLogged(r: Reader, lines: seq<string>, last: string)
    requires r.prefix == "" && (forall l :: l in lines ==> IsLine(l)) && IsLine(last)
    ensures Feed(r, Unlines(lines) + last + "\n") == Reader(r.logged + SanitizeAll(WithLast(lines, last)), "")
  {
    FeedWholeLines(r, Unlines(lines) + last);
    SplitUnlines(lines, last);
  }

  // ---------- Where lines do not stay whole ----------

  /** Without a newline in sight, all but the last character is logged at once. */
  lemma StepWithoutNewline(r: Reader, chunk: string, body: string, c: char)
    requires r.prefix + chunk == body + [c] && '\n' !in body + [c]
    ensures Feed(r, chunk) == Reader(r.logged + SanitizeAll(SplitLines(body)), [c])
  {
    var s := body + [c];
    RFindIs(s, -1);
    assert s[..|s| - 1] == body && s[|s| - 1..] == [c];
  }

  /** A rest behind a newline is held together with the newline. */
  lemma StepMidLine(r: Reader, chunk: string, body: string, rest: string)
    requires r.prefix + chunk == body + ("\n" + rest) && '\n' !in rest && rest != ""
    ensures Feed(r, chunk) == Reader(r.logged + SanitizeAll(SplitLines(body)), "\n" + rest)
  {
    var s := body + ("\n" + rest);
    assert s[|body|] == '\n';
    forall i | |body| < i < |s| ensures s[i] != '\n' { assert s[i] == rest[i - |body| - 1]; }
    RFindIs(s, |body|);
    assert s[|s| - 1] == rest[|rest| - 1];
    assert s[..|body|] == body && s[|body|..] == "\n" + rest;
  }

  lemma StepClosing(r: Reader, chunk: string, body: string)
    requires r.prefix + chunk == body + "\n"
    ensures Feed(r, chunk) == Reader(r.logged + SanitizeAll(SplitLines(body)), "")
  {
    var s := body + "\n";
    RFindIs(s, |s| - 1);
    assert s[..|s| - 1] == body;
  }

  const EMPTY := Reader([], "")

  /** The same for the first chunk of a stream. */
  lemma FirstStep(chunk: string, kept: string, lines: seq<string>)
    requires chunk != "" && Feed(EMPTY, chunk) == Reader(EMPTY.logged + SanitizeAll(lines), kept)
    ensures FeedAll([chunk]) == Some(Reader(SanitizeAll(lines), kept))
  {
    FirstFeed(chunk);
    NothingBefore(SanitizeAll(lines));
  }

  lemma NothingBefore(lines: seq<string>)
    ensures [] + lines == lines
  {
  }

  lemma FirstFeed(chunk: string)
    requires chunk != ""
    ensures FeedAll([chunk]) == Some(Feed(EMPTY, chunk))
  {
    assert [chunk][..0] == [] && FeedAll([]) == Some(EMPTY);
    assert EMPTY.prefix + chunk == chunk;
  }

  lemma SecondStep(a: string, b: string, r: Reader)
    requires b != "" && FeedAll([a]) == Some(r)
    ensures FeedAll([a, b]) == Some(Feed(r, b))
  {
    assert [a, b][..1] == [a];
  }

  lemma FirstMidLine(body: string, rest: string)
    requires '\n' !in rest && rest != ""
    ensures FeedAll([body + ("\n" + rest)]) == Some(Reader(SanitizeAll(SplitLines(body)), "\n" + rest))
  {
    assert EMPTY.prefix + (body + ("\n" + rest)) == body + ("\n" + rest);
    StepMidLine(EMPTY, body + ("\n" + rest), body, rest);
    FirstStep(body + ("\n" + rest), "\n" + rest, SplitLines(body));
  }

  lemma SplitTwo(a: string, b: string)
    requires IsLine(a) && IsLine(b)
    ensures SplitLines(a + "\n" + b) == WithLast([a], b)
  {
    SplitFirst(a, b);
    SplitLast(b);
  }

  lemma OneLine(a: string)
    requires IsLine(a)
    ensures SplitLines(a + "\n") == [a]
  {
    SplitFirst(a, "");
    assert a + "\n" + "" == a + "\n";
  }

  lemma NoNewline(a: string, c: char)
    requires IsLine(a) && !IsTerminator(c)
    ensures '\n' !in a + [c]
  {
  }

  /** A first chunk without a newline is torn, whatever follows. */
  lemma TornLine(a: string, c: char)
    requires IsLine(a) && a != "" && !IsTerminator(c)
    ensures FeedAll([a + [c]]) == Some(Reader(SanitizeAll([a]), [c]))
  {
    NoNewline(a, c);
    assert EMPTY.prefix + (a + [c]) == a + [c];
    StepWithoutNewline(EMPTY, a + [c], a, c);
    FirstStep(a + [c], [c], SplitLines(a));
    SplitLast(a);
  }

  /** A newline held back adds an empty line to the log. */
  lemma HeldNewlineAddsLine(r: Reader, b: string, c: string)
    requires r.prefix == "\n" + b && IsLine(b) && IsLine(c) && b != ""
    ensures Feed(r, c + "\n") == Reader(r.logged + SanitizeAll(["", b + c]), "")
  {
    var body := "" + "\n" + (b + c);
    assert r.prefix + (c + "\n") == body + "\n";
    StepClosing(r, c + "\n", body);
    SplitTwo("", b + c);
    assert [""] + [b + c] == ["", b + c];
  }

  /** So a chunk that ends in the middle of a later line logs a line the stream never had. */
  lemma AddedLine(a: string, b: string, c: string)
    requires IsLine(a) && IsLine(b) && IsLine(c) && a != "" && b != ""
    ensures FeedAll([a + ("\n" + b), c + "\n"]) == Some(Reader(SanitizeAll([a]) + SanitizeAll(["", b + c]), ""))
    ensures SplitLines(a + "\n" + (b + c)) == WithLast([a], b + c)
  {
    FirstMidLine(a, b);
    SplitLast(a);
    var r := Reader(SanitizeAll([a]), "\n" + b);
    SecondStep(a + ("\n" + b), c + "\n", r);
    HeldNewlineAddsLine(r, b, c);
    SplitTwo(a, b + c);
  }

  /** An empty last line of a chunk is not logged. */
  lemma LostLine(a: string)
    requires IsLine(a) && a != ""
    ensures FeedAll([a + "\n" + "\n"]) == Some(Reader(SanitizeAll([a]), ""))
    ensures SplitLines(a + "\n" + "\n") == SplitLines(a + "\n") + [""]
  {
    var body := a + "\n";
    assert EMPTY.prefix + (body + "\n") == body + "\n";
    StepClosing(EMPTY, body + "\n", body);
    FirstStep(body + "\n", "", SplitLines(body));
    OneLine(a);
    SplitWithNewline(body);
  }

  /** A line lost and a line added can cancel out, so that the log looks right in the end: this
      is why exactness is asked for after every chunk. */
  lemma LostAndAddedCancel(a: string, b: string, c: string)
    requires IsLine(a) && IsLine(b) && IsLine(c) && b != ""
    ensures FeedAll([a + "\n" + ("\n" + b), c + "\n"]) == Some(Reader(SanitizeAll([a]) + SanitizeAll(["", b + c]), ""))
    ensures SplitLines(a + "\n" + ("" + "\n" + (b + c))) == [a] + WithLast([""], b + c)
  {
    var body := a + "\n";
    FirstMidLine(body, b);
    OneLine(a);
    var r := Reader(SanitizeAll([a]), "\n" + b);
    SecondStep(body + ("\n" + b), c + "\n", r);
    HeldNewlineAddsLine(r, b, c);
    SplitFirst(a, "" + "\n" + (b + c));
    SplitTwo("", b + c);
  }
}
