/**
  Redaction of JWTs (pkg/redact/redact.go): the pattern, its leftmost greedy
  match, and what replacing every match promises.
*/
module Redact {
  // ----- the pattern -----

  /** [\w-] */
  predicate Word(c: char) {
    '0' <= c <= '9' || 'A' <= c <= 'Z' || 'a' <= c <= 'z' || c == '_' || c == '-'
  }

  ghost predicate Words(s: string) { forall c :: c in s ==> Word(c) }

  /** (?:\.[\w-]+)+ */
  ghost predicate Segments(t: string)
    decreases |t|
  {
    |t| >= 2 && t[0] == '.' && exists k :: 2 <= k <= |t| && Words(t[1..k]) && (k == |t| || Segments(t[k..]))
  }

  /** eyJ[\w-]{8,}(?:\.[\w-]+)+ */
  ghost predicate Jwt(t: string) {
    "eyJ" <= t && exists k :: 11 <= k <= |t| && Words(t[3..k]) && Segments(t[k..])
  }

  // ----- its longest match at the front of a text -----

  /** How many of [\w-] a text begins with. */
  function Run(s: string): (n: nat)
    ensures n <= |s| && Words(s[..n]) && (n < |s| ==> !Word(s[n]))
  {
    if s == "" || !Word(s[0]) then 0 else
      var n := 1 + Run(s[1..]);
      assert s[..n] == [s[0]] + s[1..][..n - 1];
      n
  }

  function SegmentsLen(u: string): (n: nat)
    ensures n <= |u|
    decreases |u|
  {
    if u == "" || u[0] != '.' || Run(u[1..]) == 0 then 0
    else
      var k := 1 + Run(u[1..]);
      k + SegmentsLen(u[k..])
  }

  /** The length of the match at the front, 0 for none. */
  function MatchLen(s: string): (n: nat)
    ensures n <= |s|
  {
    if !("eyJ" <= s) then 0
    else
      var k := 3 + Run(s[3..]);
      if k < 11 || SegmentsLen(s[k..]) == 0 then 0 else k + SegmentsLen(s[k..])
  }

  lemma RunIs(s: string, k: nat)
    requires k <= |s| && Words(s[..k])
    ensures k <= Run(s)
    ensures k < |s| && !Word(s[k]) ==> Run(s) == k
  {
    var n := Run(s);
    assert k >= n || s[..n][k] == s[k];
  }

  lemma {:induction false} SegmentsMatch(u: string)
    requires SegmentsLen(u) > 0
    ensures Segments(u[..SegmentsLen(u)])
    decreases |u|
  {
    var k, n := 1 + Run(u[1..]), SegmentsLen(u);
    if n > k {
      SegmentsMatch(u[k..]);
      assert u[..n][k..] == u[k..][..n - k];
    }
    assert u[1..][..k - 1] == u[..n][1..k];
    SegmentsFrom(u[..n], k);
  }

  lemma SegmentsFrom(t: string, k: nat)
    requires 2 <= k <= |t| && t[0] == '.' && Words(t[1..k]) && (k == |t| || Segments(t[k..]))
    ensures Segments(t)
  {
  }

  lemma {:induction false} SegmentsLongest(u: string, n: nat)
    requires n <= |u| && Segments(u[..n])
    ensures n <= SegmentsLen(u)
    decreases |u|
  {
    var t := u[..n];
    var k :| 2 <= k <= |t| && Words(t[1..k]) && (k == |t| || Segments(t[k..]));
    assert u[1..][..k - 1] == t[1..k];
    RunIs(u[1..], k - 1);
    if k < n {
      assert t[k..][0] == u[k] == u[1..][k - 1];
      assert u[k..][..n - k] == t[k..];
      SegmentsLongest(u[k..], n - k);
    }
  }

  lemma MatchIsJwt(s: string)
    requires MatchLen(s) > 0
    ensures Jwt(s[..MatchLen(s)])
  {
    hide Segments;
    var k, m := 3 + Run(s[3..]), MatchLen(s);
    var t := s[..m];
    SegmentsMatch(s[k..]);
    assert m == k + SegmentsLen(s[k..]);
    assert t[3..k] == s[3..][..k - 3];
    assert t[k..] == s[k..][..m - k];
    assert "eyJ" <= t;
  }

  /** MatchLen is the length of the longest match at the front of a text, and 0 exactly when there is none. */
  lemma MatchIsLongest(s: string, n: nat)
    requires n <= |s|
    ensures MatchLen(s) > 0 ==> Jwt(s[..MatchLen(s)])
    ensures Jwt(s[..n]) ==> 0 < n <= MatchLen(s)
  {
    if MatchLen(s) > 0 {
      MatchIsJwt(s);
    }
    if Jwt(s[..n]) {
      MatchIsMaximal(s, n);
    }
  }

  lemma SegmentsStart(t: string)
    requires Segments(t)
    ensures t != "" && t[0] == '.'
  {
  }

  lemma MatchIsMaximal(s: string, n: nat)
    requires n <= |s| && Jwt(s[..n])
    ensures 0 < n <= MatchLen(s)
  {
    hide Segments, Words, SegmentsLen, Run;
    var t := s[..n];
    var k :| 11 <= k <= |t| && Words(t[3..k]) && Segments(t[k..]);
    SegmentsStart(t[k..]);
    assert s[3..][..k - 3] == t[3..k];
    assert t[k..][0] == s[k] == s[3..][k - 3];
    RunIs(s[3..], k - 3);
    assert s[k..][..n - k] == t[k..];
    SegmentsLongest(s[k..], n - k);
    assert s[..3] == t[..3];
  }

  // ----- the match a greedy backtracking matcher prefers -----

  /** The lengths the segments may match at the front, in the order they are tried: more before fewer. */
  function SegmentsTried(u: string): seq<nat>
    decreases |u|, |u| + 1
  {
    if u == "" || u[0] != '.' then [] else SegmentTried(u, Run(u[1..]))
  }

  /** With at most k characters in the first segment: that many, then another round if there is one; then fewer. */
  function SegmentTried(u: string, k: nat): seq<nat>
    requires u != "" && k < |u|
    decreases |u|, k
  {
    if k == 0 then []
    else Shifted(SegmentsTried(u[1 + k..]), 1 + k) + [1 + k] + SegmentTried(u, k - 1)
  }

  function Shifted(lengths: seq<nat>, front: nat): (r: seq<nat>)
    ensures |r| == |lengths| && forall i :: 0 <= i < |r| ==> r[i] == lengths[i] + front
  {
    seq(|lengths|, i requires 0 <= i < |lengths| => lengths[i] + front)
  }

  /** The head with at most k characters after "eyJ", as many as possible first. */
  function HeadTried(s: string, k: nat): seq<nat>
    requires 3 + k <= |s|
    decreases k
  {
    if k < 8 then [] else Shifted(SegmentsTried(s[3 + k..]), 3 + k) + HeadTried(s, k - 1)
  }

  function Tried(s: string): seq<nat> {
    if "eyJ" <= s then HeadTried(s, Run(s[3..])) else []
  }

  lemma {:induction false} SegmentsPreferred(u: string)
    ensures SegmentsLen(u) == 0 <==> SegmentsTried(u) == []
    ensures SegmentsLen(u) > 0 ==> SegmentsTried(u)[0] == SegmentsLen(u)
    decreases |u|
  {
    if u != "" && u[0] == '.' && Run(u[1..]) > 0 {
      var k := Run(u[1..]);
      SegmentsPreferred(u[1 + k..]);
    }
  }

  lemma {:induction false} FewerFails(s: string, k: nat)
    requires "eyJ" <= s && k < Run(s[3..])
    ensures HeadTried(s, k) == []
  {
    if k >= 8 {
      assert s[3..][..Run(s[3..])][k] == s[3 + k] && s[3 + k] in s[3..][..Run(s[3..])];
      FewerFails(s, k - 1);
    }
  }

  /** Greed finds the longest: the first match tried is the one MatchLen gives, and without it there is none. */
  lemma GreedyIsLongest(s: string)
    ensures MatchLen(s) == 0 <==> Tried(s) == []
    ensures MatchLen(s) > 0 ==> Tried(s)[0] == MatchLen(s)
  {
    if "eyJ" <= s {
      var k := Run(s[3..]);
      SegmentsPreferred(s[3 + k..]);
      if k >= 8 {
        FewerFails(s, k - 1);
      }
    }
  }

  // ----- replacing -----

  const MARKER := "[redacted JWT]"

  datatype Piece = Kept(c: char) | Redacted(token: string)

  /** From left to right: the match at the front if there is one, otherwise one character. */
  function Scan(s: string): seq<Piece>
    decreases |s|
  {
    if s == "" then []
    else if MatchLen(s) > 0 then [Redacted(s[..MatchLen(s)])] + Scan(s[MatchLen(s)..])
    else [Kept(s[0])] + Scan(s[1..])
  }

  function Render(pieces: seq<Piece>): string
    decreases |pieces|
  {
    if pieces == [] then ""
    else (if pieces[0].Kept? then [pieces[0].c] else MARKER) + Render(pieces[1..])
  }

  function Original(pieces: seq<Piece>): string
    decreases |pieces|
  {
    if pieces == [] then ""
    else (if pieces[0].Kept? then [pieces[0].c] else pieces[0].token) + Original(pieces[1..])
  }

  function ReplaceAll(s: string): string { Render(Scan(s)) }

  predicate Contains(s: string, part: string)
    decreases |s|
  {
    part <= s || (s != "" && Contains(s[1..], part))
  }

  /** Tokens */
  function Tokens(s: string): string {
    if !Contains(s, "eyJ") then s else ReplaceAll(s)
  }

  // ----- what it promises -----

  ghost predicate NoMatch(s: string) {
    forall i, j :: 0 <= i <= j <= |s| ==> !Jwt(s[i..j])
  }

  ghost predicate NoneStarts(s: string) {
    forall i :: 0 <= i <= |s| ==> MatchLen(s[i..]) == 0
  }

  lemma NoneBetween(s: string, i: nat, j: nat)
    requires i <= j <= |s| && MatchLen(s[i..]) == 0
    ensures !Jwt(s[i..j])
  {
    hide Jwt, MatchLen;
    MatchIsLongest(s[i..], j - i);
    assert s[i..][..j - i] == s[i..j];
  }

  lemma MatchIsSomewhere(s: string, i: nat)
    requires i <= |s| && NoMatch(s)
    ensures MatchLen(s[i..]) == 0
  {
    hide Jwt;
    var n := MatchLen(s[i..]);
    MatchIsLongest(s[i..], n);
    assert s[i..][..n] == s[i..i + n];
  }

  lemma NoMatchIs(s: string)
    ensures NoMatch(s) <==> NoneStarts(s)
  {
    hide Jwt, MatchLen;
    if NoMatch(s) {
      forall i | 0 <= i <= |s|
        ensures MatchLen(s[i..]) == 0
      {
        MatchIsSomewhere(s, i);
      }
    }
    if NoneStarts(s) {
      forall i, j | 0 <= i <= j <= |s|
        ensures !Jwt(s[i..j])
      {
        NoneBetween(s, i, j);
      }
    }
  }

  lemma {:induction false} SkipIsSafe(s: string)
    requires NoneStarts(s)
    ensures ReplaceAll(s) == s
    decreases |s|
  {
    hide MatchLen, Run;
    if s != "" {
      assert s[0..] == s;
      assert forall i :: 0 <= i <= |s[1..]| ==> s[1..][i..] == s[i + 1..];
      SkipIsSafe(s[1..]);
      assert Scan(s)[1..] == Scan(s[1..]);
    }
  }

  lemma {:induction false} NowhereContained(s: string, part: string, i: nat)
    requires !Contains(s, part) && i <= |s|
    ensures !(part <= s[i..])
    decreases i
  {
    if i > 0 {
      NowhereContained(s[1..], part, i - 1);
      assert s[1..][i - 1..] == s[i..];
    } else {
      assert s[0..] == s;
    }
  }

  /** Returning early when there is no "eyJ" at all agrees with the scan. */
  lemma EarlyExitAgrees(s: string)
    ensures Tokens(s) == ReplaceAll(s)
  {
    if !Contains(s, "eyJ") {
      forall i | 0 <= i <= |s|
        ensures MatchLen(s[i..]) == 0
      {
        NowhereContained(s, "eyJ", i);
      }
      SkipIsSafe(s);
    }
  }

  lemma {:induction false} SegmentsChars(t: string)
    requires Segments(t)
    ensures forall c :: c in t ==> Word(c) || c == '.'
    decreases |t|
  {
    var k :| 2 <= k <= |t| && Words(t[1..k]) && (k == |t| || Segments(t[k..]));
    assert t == [t[0]] + t[1..k] + t[k..];
    if k < |t| {
      SegmentsChars(t[k..]);
    }
  }

  lemma JwtChars(t: string)
    requires Jwt(t)
    ensures |t| > 3 && forall c :: c in t ==> Word(c) || c == '.'
  {
    var k :| 11 <= k <= |t| && Words(t[3..k]) && Segments(t[k..]);
    SegmentsChars(t[k..]);
    assert t == t[..3] + t[3..k] + t[k..];
    assert t[..3] == ['e', 'y', 'J'];
  }

  /** As far as the output has no '[' from the front, it is the input. */
  lemma {:induction false} KeptPrefix(s: string, n: nat)
    requires n <= |ReplaceAll(s)| && '[' !in ReplaceAll(s)[..n]
    ensures n <= |s| && ReplaceAll(s)[..n] == s[..n]
    decreases |s|
  {
    if n > 0 {
      assert ReplaceAll(s)[..n][0] != '[';
      assert Scan(s)[1..] == Scan(s[1..]);
      assert ReplaceAll(s)[..n] == [s[0]] + ReplaceAll(s[1..])[..n - 1];
      KeptPrefix(s[1..], n - 1);
      assert s[..n] == [s[0]] + s[1..][..n - 1];
    }
  }

  /** No match starts at the front of the output: a match has no '[', so it would have been in the input. */
  lemma NoMatchAtFront(s: string)
    requires MatchLen(s) == 0
    ensures MatchLen(ReplaceAll(s)) == 0
  {
    var out := ReplaceAll(s);
    var n := MatchLen(out);
    MatchIsLongest(out, n);
    if n > 0 {
      JwtChars(out[..n]);
      assert '[' !in out[..n];
      KeptPrefix(s, n);
      MatchIsLongest(s, n);
    }
  }

  lemma NoMatchInMarker(rest: string, i: nat)
    requires i < |MARKER|
    ensures MatchLen((MARKER + rest)[i..]) == 0
  {
    var t := (MARKER + rest)[i..];
    assert t[0] == MARKER[i] && (i + 1 < |MARKER| ==> t[1] == MARKER[i + 1]);
  }

  lemma {:induction false} OutputHasNoMatch(s: string, i: nat)
    requires i <= |ReplaceAll(s)|
    ensures MatchLen(ReplaceAll(s)[i..]) == 0
    decreases |s|
  {
    hide MatchLen, Scan, Render, ReplaceAll;
    NothingMatches();
    ReplaceStep(s);
    if s != "" {
      var rest := s[if MatchLen(s) > 0 then MatchLen(s) else 1..];
      if MatchLen(s) > 0 && i < |MARKER| {
        NoMatchInMarker(ReplaceAll(rest), i);
      } else if i == 0 {
        NoMatchAtFront(s);
        assert ReplaceAll(s)[0..] == ReplaceAll(s);
      } else {
        var skip := |ReplaceAll(s)| - |ReplaceAll(rest)|;
        OutputHasNoMatch(rest, i - skip);
        assert ReplaceAll(s)[i..] == ReplaceAll(rest)[i - skip..];
      }
    }
  }

  lemma ReplaceStep(s: string)
    ensures s == "" ==> ReplaceAll(s) == "" && MatchLen(s) == 0
    ensures MatchLen(s) > 0 ==> ReplaceAll(s) == MARKER + ReplaceAll(s[MatchLen(s)..])
    ensures s != "" && MatchLen(s) == 0 ==> ReplaceAll(s) == [s[0]] + ReplaceAll(s[1..])
  {
    if s != "" {
      assert Scan(s)[1..] == Scan(s[if MatchLen(s) > 0 then MatchLen(s) else 1..]);
    }
  }

  lemma NothingMatches()
    ensures MatchLen("") == 0
  {
  }

  /** Nothing in the output matches the pattern. */
  lemma RedactionIsComplete(s: string)
    ensures NoMatch(Tokens(s))
  {
    EarlyExitAgrees(s);
    forall i | 0 <= i <= |ReplaceAll(s)|
      ensures MatchLen(ReplaceAll(s)[i..]) == 0
    {
      OutputHasNoMatch(s, i);
    }
    NoMatchIs(Tokens(s));
  }

  /** Redacting twice is redacting once. */
  lemma RedactionIsIdempotent(s: string)
    ensures Tokens(Tokens(s)) == Tokens(s)
  {
    var out := Tokens(s);
    RedactionIsComplete(s);
    NoMatchIs(out);
    SkipIsSafe(out);
    EarlyExitAgrees(out);
  }

  /** Text without a match is left as it is, and text with one is not. */
  lemma UntouchedWhen(s: string)
    ensures Tokens(s) == s <==> NoMatch(s)
  {
    NoMatchIs(s);
    EarlyExitAgrees(s);
    if NoMatch(s) {
      SkipIsSafe(s);
    } else {
      RedactionIsComplete(s);
    }
  }

  /** Where piece k of the scan starts in the text. */
  function Offset(pieces: seq<Piece>, k: nat): nat
    requires k <= |pieces|
  {
    |Original(pieces[..k])|
  }

  lemma {:induction false} PiecesInOrder(s: string)
    ensures Original(Scan(s)) == s
    decreases |s|
  {
    if s != "" {
      var n := if MatchLen(s) > 0 then MatchLen(s) else 1;
      PiecesInOrder(s[n..]);
      assert Scan(s)[1..] == Scan(s[n..]);
      assert s == s[..n] + s[n..];
    }
  }

  /** A character is kept where no match starts; what is redacted is the longest match that starts there. */
  ghost predicate Right(s: string, at: nat, p: Piece) {
    && at < |s|
    && (p.Kept? ==> p.c == s[at] && forall j :: at <= j <= |s| ==> !Jwt(s[at..j]))
    && (p.Redacted? ==> at + |p.token| <= |s| && p.token == s[at..at + |p.token|] && Jwt(p.token))
    && (p.Redacted? ==> forall j :: at <= j <= |s| && Jwt(s[at..j]) ==> j <= at + |p.token|)
  }

  lemma RightAtFront(s: string)
    requires s != ""
    ensures Right(s, 0, Scan(s)[0])
  {
    hide Jwt;
    MatchIsLongest(s, 0);
    forall j | 0 <= j <= |s|
      ensures Jwt(s[0..j]) ==> 0 < j <= MatchLen(s)
    {
      MatchIsLongest(s, j);
      assert s[0..j] == s[..j];
    }
    assert s[0..MatchLen(s)] == s[..MatchLen(s)];
  }

  lemma RightFurtherOn(s: string, n: nat, at: nat, p: Piece)
    requires n <= |s| && Right(s[n..], at, p)
    ensures Right(s, n + at, p)
  {
    hide Jwt;
    var rest, m := s[n..], n + at;
    assert forall j {:trigger s[m..j]} :: m <= j <= |s| ==> s[m..j] == rest[at..j - n];
  }

  function Width(p: Piece): nat { if p.Kept? then 1 else |p.token| }

  lemma ScanStep(s: string)
    requires s != ""
    ensures Scan(s) != [] && 0 < Width(Scan(s)[0]) <= |s| && Scan(s) == [Scan(s)[0]] + Scan(s[Width(Scan(s)[0])..])
  {
  }

  lemma OffsetStep(p: Piece, rest: seq<Piece>, k: nat)
    requires 0 < k <= |rest| + 1
    ensures Offset([p] + rest, k) == Width(p) + Offset(rest, k - 1)
  {
    assert ([p] + rest)[..k][1..] == rest[..k - 1];
  }

  /** The pieces of the scan are the text, in order, and each is right. */
  lemma {:induction false} PiecesAreRight(s: string, k: nat)
    requires k < |Scan(s)|
    ensures Original(Scan(s)) == s
    ensures Right(s, Offset(Scan(s), k), Scan(s)[k])
    decreases |s|
  {
    hide Right, Scan, Offset, Original, MatchLen;
    PiecesInOrder(s);
    SomePieces(s);
    if k == 0 {
      RightAtFront(s);
      OffsetOfFirst(Scan(s));
    } else {
      ScanStep(s);
      var n := Width(Scan(s)[0]);
      PiecesAreRight(s[n..], k - 1);
      OffsetStep(Scan(s)[0], Scan(s[n..]), k);
      RightFurtherOn(s, n, Offset(Scan(s[n..]), k - 1), Scan(s)[k]);
    }
  }

  lemma SomePieces(s: string)
    ensures Scan(s) != [] <==> s != ""
  {
  }

  lemma OffsetOfFirst(pieces: seq<Piece>)
    ensures Offset(pieces, 0) == 0
  {
  }
}
