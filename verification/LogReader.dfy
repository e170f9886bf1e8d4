/** Splitting a stream of log chunks into lines. */
module LogReader {
  import opened Wrappers

  /** The characters at which Python's `splitlines` breaks a line. */
  predicate IsTerminator(c: char) {
    || '\n' <= c <= '\r' || '\U{1C}' <= c <= '\U{1E}' || c == '\U{85}' || c == '\U{2028}' || c == '\U{2029}'
  }

  /** The text without its line terminators. */
  function Strip(s: string): string {
    if s == "" then "" else (if IsTerminator(s[0]) then "" else [s[0]]) + Strip(s[1..])
  }

  /** The length of the first line of `s`. */
  function LineEnd(s: string): (n: nat)
    ensures n <= |s|
    ensures forall i :: 0 <= i < n ==> !IsTerminator(s[i])
    ensures n < |s| ==> IsTerminator(s[n])
  {
    if s == "" || IsTerminator(s[0]) then 0 else 1 + LineEnd(s[1..])
  }

  /** Where the line after the terminator at `n` begins: a CR LF pair is one terminator. */
  function Skip(s: string, n: nat): (m: nat)
    requires n < |s|
    ensures n < m <= |s|
  {
    if s[n] == '\r' && n + 1 < |s| && s[n + 1] == '\n' then n + 2 else n + 1
  }

  /** Python's `splitlines`. */
  function SplitLines(s: string): seq<string>
    decreases |s|
  {
    if s == "" then []
    else
      var n := LineEnd(s);
      if n == |s| then [s] else [s[..n]] + SplitLines(s[Skip(s, n)..])
  }

  function Join(lines: seq<string>): string {
    if lines == [] then "" else lines[0] + Join(lines[1..])
  }

  /** Python's `s.rfind("\n")`. */
  function RFind(s: string): (r: int)
    ensures -1 <= r < |s|
    ensures r >= 0 ==> s[r] == '\n'
    ensures forall i :: r < i < |s| ==> s[i] != '\n'
  {
    if s == "" then -1 else if s[|s| - 1] == '\n' then |s| - 1 else RFind(s[..|s| - 1])
  }

  /** A slice bound of -1 counts from the end of the string. */
  function Cut(s: string): nat
    requires s != ""
  {
    if RFind(s) < 0 then |s| - 1 else RFind(s)
  }

  function SanitizeChar(c: char): char { if c == '\0' then '\U{FFFD}' else c }

  function Sanitize(s: string): string {
    if s == "" then "" else [SanitizeChar(s[0])] + Sanitize(s[1..])
  }

  function SanitizeAll(lines: seq<string>): seq<string> {
    if lines == [] then [] else [Sanitize(lines[0])] + SanitizeAll(lines[1..])
  }

  function Concat(chunks: seq<string>): string {
    if chunks == [] then "" else Concat(chunks[..|chunks| - 1]) + chunks[|chunks| - 1]
  }

  // ---------- Text is neither lost nor reordered ----------

  lemma {:induction false} StripAppend(a: string, b: string)
    ensures Strip(a + b) == Strip(a) + Strip(b)
  {
    if a == "" {
      assert a + b == b;
    } else {
      assert (a + b)[1..] == a[1..] + b;
      StripAppend(a[1..], b);
    }
  }

  lemma {:induction false} StripOfPlain(s: string)
    requires forall c :: c in s ==> !IsTerminator(c)
    ensures Strip(s) == s
  {
    if s != "" {
      assert s[0] in s && forall c :: c in s[1..] ==> c in s;
      StripOfPlain(s[1..]);
    }
  }

  lemma {:induction false} StripOfTerminators(s: string)
    requires forall c :: c in s ==> IsTerminator(c)
    ensures Strip(s) == ""
  {
    if s != "" {
      assert s[0] in s && forall c :: c in s[1..] ==> c in s;
      StripOfTerminators(s[1..]);
    }
  }

  lemma StripLine(line: string, ending: string, rest: string)
    requires forall c :: c in line ==> !IsTerminator(c)
    requires forall c :: c in ending ==> IsTerminator(c)
    ensures Strip(line + ending + rest) == line + Strip(rest) && Strip(line) == line
  {
    StripAppend(line + ending, rest);
    StripAppend(line, ending);
    StripOfPlain(line);
    StripOfTerminators(ending);
    assert line + "" == line;
  }

  lemma ThreeParts(s: string, n: nat, m: nat)
    requires n <= m <= |s|
    ensures s == s[..n] + s[n..m] + s[m..]
  {
  }

  lemma SkipsTerminators(s: string, n: nat)
    requires n < |s| && IsTerminator(s[n])
    ensures forall i :: n <= i < Skip(s, n) ==> IsTerminator(s[i])
  {
  }

  /** Joined, the lines are the text without its terminators, and none is left in a line. */
  lemma {:induction false} SplitLinesKeepsText(s: string)
    ensures Join(SplitLines(s)) == Strip(s)
    ensures forall l :: l in SplitLines(s) ==> Strip(l) == l
    decreases |s|
  {
    if s != "" {
      var n := LineEnd(s);
      if n == |s| {
        StripOfPlain(s);
        assert [s][1..] == [] && Join([s]) == s + Join([]);
      } else {
        var m := Skip(s, n);
        SplitLinesKeepsText(s[m..]);
        SkipsTerminators(s, n);
        StripLine(s[..n], s[n..m], s[m..]);
        ThreeParts(s, n, m);
        var rest := SplitLines(s[m..]);
        assert ([s[..n]] + rest)[1..] == rest;
      }
    }
  }

  lemma {:induction false} JoinAppend(a: seq<string>, b: seq<string>)
    ensures Join(a + b) == Join(a) + Join(b)
  {
    if a == [] {
      assert a + b == b;
    } else {
      assert (a + b)[1..] == a[1..] + b;
      JoinAppend(a[1..], b);
    }
  }

  lemma {:induction false} SanitizeAppend(a: string, b: string)
    ensures Sanitize(a + b) == Sanitize(a) + Sanitize(b)
  {
    if a == "" {
      assert a + b == b;
    } else {
      assert (a + b)[1..] == a[1..] + b;
      SanitizeAppend(a[1..], b);
    }
  }

  /** Only NUL characters are replaced, one by one, and nothing else. */
  lemma {:induction false} SanitizeReplacesNul(s: string)
    ensures |Sanitize(s)| == |s|
    ensures forall i :: 0 <= i < |s| ==> Sanitize(s)[i] == if s[i] == '\0' then '\U{FFFD}' else s[i]
  {
    if s != "" { SanitizeReplacesNul(s[1..]); }
  }

  lemma {:induction false} SanitizeAllReplacesNul(lines: seq<string>)
    ensures |SanitizeAll(lines)| == |lines|
    ensures forall k :: 0 <= k < |lines| ==>
              && |SanitizeAll(lines)[k]| == |lines[k]|
              && forall i :: 0 <= i < |lines[k]| ==> SanitizeAll(lines)[k][i] == if lines[k][i] == '\0' then '\U{FFFD}' else lines[k][i]
  {
    if lines != [] {
      SanitizeReplacesNul(lines[0]);
      SanitizeAllReplacesNul(lines[1..]);
      forall k | 0 < k < |lines| ensures SanitizeAll(lines)[k] == SanitizeAll(lines[1..])[k - 1] && lines[k] == lines[1..][k - 1] {}
    }
  }

  lemma {:induction false} SanitizeJoin(lines: seq<string>)
    ensures Join(SanitizeAll(lines)) == Sanitize(Join(lines))
  {
    if lines != [] {
      SanitizeJoin(lines[1..]);
      SanitizeAppend(lines[0], Join(lines[1..]));
    }
  }

  function NewPrefix(s: string): string
    requires s != ""
  {
    if s[|s| - 1] == '\n' then "" else s[Cut(s)..]
  }

  lemma Halves(s: string, n: nat)
    requires n <= |s|
    ensures s[..n] + s[n..] == s
  {
  }

  lemma StripParts(front: string, back: string, s: string)
    requires front + back == s
    ensures Strip(front) + Strip(back) == Strip(s)
  {
    StripAppend(front, back);
  }

  lemma PrefixText(s: string)
    requires s != ""
    ensures Strip(NewPrefix(s)) == Strip(s[Cut(s)..])
  {
  }

  /** One chunk: the lines emitted and the prefix kept hold the text of prefix and chunk. */
  lemma ChunkKeepsText(s: string)
    requires s != ""
    ensures Join(SplitLines(s[..Cut(s)])) + Strip(NewPrefix(s)) == Strip(s)
  {
    PrefixText(s);
    SplitLinesKeepsText(s[..Cut(s)]);
    Halves(s, Cut(s));
    StripParts(s[..Cut(s)], s[Cut(s)..], s);
  }

  // ---------- The stream ----------

  /** The lines logged so far, and the text kept for the next chunk. */
  datatype Reader = Reader(logged: seq<string>, prefix: string)

  function Feed(r: Reader, chunk: string): Reader
    requires r.prefix + chunk != ""
  {
    var s := r.prefix + chunk;
    Reader(r.logged + SanitizeAll(SplitLines(s[..Cut(s)])), NewPrefix(s))
  }

  /** None is the index error of looking for the last character of an empty string. */
  function FeedAll(chunks: seq<string>): Option<Reader> {
    if chunks == [] then Some(Reader([], ""))
    else
      var chunk := chunks[|chunks| - 1];
      match FeedAll(chunks[..|chunks| - 1])
      case None => None
      case Some(r) => if r.prefix + chunk == "" then None else Some(Feed(r, chunk))
  }

  lemma {:induction false} FailedStays(chunks: seq<string>, i: nat)
    requires i <= |chunks| && FeedAll(chunks[..i]).None?
    ensures FeedAll(chunks).None?
  {
    if i < |chunks| {
      assert chunks[..|chunks| - 1][..i] == chunks[..i];
      FailedStays(chunks[..|chunks| - 1], i);
    } else {
      assert chunks[..i] == chunks;
    }
  }

  lemma FeedNext(chunks: seq<string>, i: nat)
    requires i < |chunks| && FeedAll(chunks[..i]).Some?
    ensures var r := FeedAll(chunks[..i]).value;
            FeedAll(chunks[..i + 1]) == if r.prefix + chunks[i] == "" then None else Some(Feed(r, chunks[i]))
  {
    assert chunks[..i + 1][..i] == chunks[..i];
  }

  /** `log_reader_loop`. */
  method LogReaderLoop(chunks: seq<string>) returns (r: Option<Reader>)
    ensures r == FeedAll(chunks)
  {
    var logged: seq<string>, prefix := [], "";
    for i := 0 to |chunks|
      invariant FeedAll(chunks[..i]) == Some(Reader(logged, prefix))
    {
      FeedNext(chunks, i);
      var s := prefix + chunks[i];
      if s == "" {
        FailedStays(chunks, i + 1);
        return None;
      }
      prefix := if s[|s| - 1] == '\n' then "" else s[Cut(s)..];
      var lines := SplitLines(s[..Cut(s)]);
      ghost var earlier := logged;
      for k := 0 to |lines|
        invariant logged == earlier + SanitizeAll(lines[..k])
      {
        SanitizeNext(lines, k);
        logged := logged + [Sanitize(lines[k])];
      }
      assert lines[..|lines|] == lines;
    }
    assert chunks[..|chunks|] == chunks;
    r := Some(Reader(logged, prefix));
  }

  lemma {:induction false} SanitizeAllAppend(a: seq<string>, b: seq<string>)
    ensures SanitizeAll(a + b) == SanitizeAll(a) + SanitizeAll(b)
  {
    if a == [] {
      assert a + b == b;
    } else {
      assert (a + b)[1..] == a[1..] + b;
      SanitizeAllAppend(a[1..], b);
    }
  }

  lemma SanitizeOne(line: string)
    ensures SanitizeAll([line]) == [Sanitize(line)]
  {
    assert [line][1..] == [];
  }

  lemma SanitizeNext(lines: seq<string>, k: nat)
    requires k < |lines|
    ensures SanitizeAll(lines[..k + 1]) == SanitizeAll(lines[..k]) + [Sanitize(lines[k])]
  {
    assert lines[..k + 1] == lines[..k] + [lines[k]];
    SanitizeAllAppend(lines[..k], [lines[k]]);
    SanitizeOne(lines[k]);
  }

  lemma StripSanitizeAppend(a: string, b: string)
    ensures Sanitize(Strip(a + b)) == Sanitize(Strip(a)) + Sanitize(Strip(b))
  {
    StripAppend(a, b);
    SanitizeAppend(Strip(a), Strip(b));
  }

  /** The text a reader has seen, without line terminators. */
  function TextOf(r: Reader): string {
    Join(r.logged) + Sanitize(Strip(r.prefix))
  }

  lemma FeedAddsText(r: Reader, chunk: string)
    requires r.prefix + chunk != ""
    ensures TextOf(Feed(r, chunk)) == TextOf(r) + Sanitize(Strip(chunk))
  {
    var s := r.prefix + chunk;
    var lines := SplitLines(s[..Cut(s)]);
    JoinAppend(r.logged, SanitizeAll(lines));
    SanitizeJoin(lines);
    SanitizeAppend(Join(lines), Strip(NewPrefix(s)));
    ChunkKeepsText(s);
    StripSanitizeAppend(r.prefix, chunk);
    Associate(Join(r.logged), Sanitize(Join(lines)), Sanitize(Strip(NewPrefix(s))));
    Associate(Join(r.logged), Sanitize(Strip(r.prefix)), Sanitize(Strip(chunk)));
  }

  lemma Associate(a: string, b: string, c: string)
    ensures (a + b) + c == a + (b + c)
  {
  }

  /** The lines logged, joined and followed by the text still held, are the whole stream
      without its line terminators: nothing is lost, doubled or reordered. */
  lemma {:induction false} StreamKeepsText(chunks: seq<string>)
    requires FeedAll(chunks).Some?
    ensures TextOf(FeedAll(chunks).value) == Sanitize(Strip(Concat(chunks)))
  {
    if chunks != [] {
      var front, chunk := chunks[..|chunks| - 1], chunks[|chunks| - 1];
      StreamKeepsText(front);
      FeedAddsText(FeedAll(front).value, chunk);
      StripSanitizeAppend(Concat(front), chunk);
    }
  }

  // ---------- When the reader fails ----------

  /** The text stops in the middle of a line. */
  predicate MidLine(text: string) {
    text != "" && text[|text| - 1] != '\n'
  }

  lemma NewPrefixIs(s: string)
    requires s != ""
    ensures NewPrefix(s) != "" <==> MidLine(s)
    ensures NewPrefix(s) != "" ==> NewPrefix(s)[|NewPrefix(s)| - 1] == s[|s| - 1]
  {
  }

  predicate HoldsTail(prefix: string, text: string) {
    && (prefix != "" <==> MidLine(text))
    && (prefix != "" ==> prefix[|prefix| - 1] == text[|text| - 1])
  }

  lemma FeedHoldsTail(r: Reader, chunk: string, text: string)
    requires r.prefix + chunk != "" && HoldsTail(r.prefix, text)
    ensures HoldsTail(Feed(r, chunk).prefix, text + chunk)
  {
    NewPrefixIs(r.prefix + chunk);
    if chunk == "" {
      assert text + chunk == text && r.prefix + chunk == r.prefix;
    } else {
      assert (r.prefix + chunk)[|r.prefix + chunk| - 1] == chunk[|chunk| - 1] == (text + chunk)[|text + chunk| - 1];
    }
  }

  /** Something is held back exactly in the middle of a line. */
  lemma {:induction false} HoldsIffMidLine(chunks: seq<string>)
    requires FeedAll(chunks).Some?
    ensures HoldsTail(FeedAll(chunks).value.prefix, Concat(chunks))
  {
    if chunks != [] {
      var n := |chunks| - 1;
      HoldsIffMidLine(chunks[..n]);
      FeedHoldsTail(FeedAll(chunks[..n]).value, chunks[n], Concat(chunks[..n]));
    }
  }

  /** Chunk number i is empty, and nothing is held when it arrives. */
  predicate Starves(chunks: seq<string>, i: nat)
    requires i < |chunks|
  {
    chunks[i] == "" && !MidLine(Concat(chunks[..i]))
  }

  lemma StarvesInFront(chunks: seq<string>, n: nat, i: nat)
    requires i < n <= |chunks|
    ensures Starves(chunks[..n], i) <==> Starves(chunks, i)
  {
    assert chunks[..n][..i] == chunks[..i];
  }

  lemma FailsAtLast(chunks: seq<string>)
    requires chunks != []
    ensures var n := |chunks| - 1;
            FeedAll(chunks).None? <==> FeedAll(chunks[..n]).None? || Starves(chunks, n)
  {
    var n := |chunks| - 1;
    if FeedAll(chunks[..n]).Some? { HoldsIffMidLine(chunks[..n]); }
  }

  /** The reader fails exactly when an empty chunk comes first or right behind a newline. */
  lemma {:induction false} FailsIff(chunks: seq<string>)
    ensures FeedAll(chunks).None? <==> exists i :: 0 <= i < |chunks| && Starves(chunks, i)
  {
    if chunks != [] {
      var n := |chunks| - 1;
      FailsAtLast(chunks);
      FailsIff(chunks[..n]);
      forall i | 0 <= i < n ensures Starves(chunks[..n], i) <==> Starves(chunks, i) {
        StarvesInFront(chunks, n, i);
      }
      if i :| 0 <= i < n && Starves(chunks[..n], i) { assert Starves(chunks, i); }
    }
  }
}
