/**
 The scanner for vt:// tokens: a hand-written loop for the pattern vt://[^/]+/[A-Za-z0-9_-]+ and the proof
 that it finds the leftmost, longest, non-overlapping matches of that pattern.
 */
module Scanner {
  import opened Common

  const SCHEME := "vt://"

  predicate IsData(c: char) {
    'A' <= c <= 'Z' || 'a' <= c <= 'z' || '0' <= c <= '9' || c == '_' || c == '-'
  }

  // ---------------------------------------------------------------------------
  // The pattern, read as a declaration
  // ---------------------------------------------------------------------------

  /** `s[i..e]` matches with the second slash at `h`. */
  ghost predicate MatchesVia(s: string, i: nat, h: nat, e: nat) {
    && i + 5 < h && h + 1 < e <= |s|
    && OccursAt(s, SCHEME, i)
    && (forall k | i + 5 <= k < h :: s[k] != '/')
    && s[h] == '/'
    && (forall k | h < k < e :: IsData(s[k]))
  }

  ghost predicate Matches(s: string, i: nat, e: nat) {
    exists h :: MatchesVia(s, i, h, e)
  }

  /** A string that is a match as a whole. */
  ghost predicate IsToken(t: string) {
    Matches(t, 0, |t|)
  }

  // ---------------------------------------------------------------------------
  // The scanner
  // ---------------------------------------------------------------------------

  function HostEnd(s: string, j: nat): (h: nat)
    requires j <= |s|
    ensures j <= h <= |s| && (forall k | j <= k < h :: s[k] != '/') && (h < |s| ==> s[h] == '/')
    decreases |s| - j
  {
    if j < |s| && s[j] != '/' then HostEnd(s, j + 1) else j
  }

  function DataEnd(s: string, j: nat): (e: nat)
    requires j <= |s|
    ensures j <= e <= |s| && (forall k | j <= k < e :: IsData(s[k])) && (e < |s| ==> !IsData(s[e]))
    decreases |s| - j
  {
    if j < |s| && IsData(s[j]) then DataEnd(s, j + 1) else j
  }

  /** Where the longest match that starts at `i` ends. */
  function MatchEnd(s: string, i: nat): (r: Option<nat>)
    ensures r.Some? ==> i < r.value <= |s|
  {
    if !OccursAt(s, SCHEME, i) then None
    else
      var h := HostEnd(s, i + 5);
      if h == i + 5 || h == |s| then None
      else
        var e := DataEnd(s, h + 1);
        if e == h + 1 then None else Some(e)
  }

  lemma LaterSlash(s: string, i: nat, h: nat, e: nat)
    requires MatchesVia(s, i, h, e)
    ensures h == HostEnd(s, i + 5) && e <= DataEnd(s, h + 1)
  {
    var h' := HostEnd(s, i + 5);
    var d := DataEnd(s, h + 1);
    if d < e {
      assert false;
    }
  }

  /** The scanner's answer at one position is the longest match of the pattern there, if there is any. */
  lemma MatchEndIsLongest(s: string, i: nat)
    ensures MatchEnd(s, i).None? ==> forall e: nat :: !Matches(s, i, e)
    ensures MatchEnd(s, i).Some? ==> i < MatchEnd(s, i).value <= |s| && Matches(s, i, MatchEnd(s, i).value)
    ensures forall e: nat | Matches(s, i, e) :: MatchEnd(s, i).Some? && e <= MatchEnd(s, i).value
  {
    if MatchEnd(s, i).Some? {
      assert MatchesVia(s, i, HostEnd(s, i + 5), MatchEnd(s, i).value);
    }
    forall e: nat | Matches(s, i, e) ensures MatchEnd(s, i).Some? && e <= MatchEnd(s, i).value {
      var h: nat :| MatchesVia(s, i, h, e);
      LaterSlash(s, i, h, e);
    }
  }

  predicate Fits(s: string, ms: seq<(nat, nat)>) {
    forall k | 0 <= k < |ms| :: ms[k].0 <= ms[k].1 <= |s|
  }

  /** All matches from position `i` on. */
  function Scan(s: string, i: nat): (ms: seq<(nat, nat)>)
    requires i <= |s|
    ensures Fits(s, ms)
    decreases |s| - i
  {
    if i == |s| then []
    else
      match MatchEnd(s, i)
      case None => Scan(s, i + 1)
      case Some(e) => [(i, e)] + Scan(s, e)
  }

  /** The matches are in order and do not overlap. */
  predicate Separate(ms: seq<(nat, nat)>, i: nat, n: nat) {
    && (forall k | 0 <= k < |ms| :: i <= ms[k].0 < ms[k].1 <= n)
    && (forall k, m | 0 <= k < m < |ms| :: ms[k].1 <= ms[m].0)
  }

  /** Position `p` lies in one of the matches. */
  predicate Covered(ms: seq<(nat, nat)>, p: nat) {
    exists k | 0 <= k < |ms| :: ms[k].0 <= p < ms[k].1
  }

  lemma {:induction false} ScanSeparates(s: string, i: nat)
    requires i <= |s|
    ensures Separate(Scan(s, i), i, |s|)
    decreases |s| - i
  {
    if i < |s| {
      match MatchEnd(s, i)
      case None => ScanSeparates(s, i + 1);
      case Some(e) => ScanSeparates(s, e);
    }
  }

  lemma {:induction false} ScanReportsLongest(s: string, i: nat, k: nat)
    requires i <= |s| && k < |Scan(s, i)|
    ensures MatchEnd(s, Scan(s, i)[k].0) == Some(Scan(s, i)[k].1)
    decreases |s| - i
  {
    match MatchEnd(s, i)
    case None => ScanReportsLongest(s, i + 1, k);
    case Some(e) =>
      if k > 0 {
        assert Scan(s, i)[k] == Scan(s, e)[k - 1];
        ScanReportsLongest(s, e, k - 1);
      }
  }

  lemma {:induction false} ScanCovers(s: string, i: nat, p: nat)
    requires i <= p < |s| && MatchEnd(s, p).Some?
    ensures Covered(Scan(s, i), p)
    decreases |s| - i
  {
    match MatchEnd(s, i)
    case None => ScanCovers(s, i + 1, p);
    case Some(e) =>
      if p < e {
        assert Scan(s, i)[0] == (i, e);
      } else {
        ScanCovers(s, e, p);
        var rest := Scan(s, e);
        var k :| 0 <= k < |rest| && rest[k].0 <= p < rest[k].1;
        assert Scan(s, i)[k + 1] == rest[k];
      }
  }

  /** The reported matches do not overlap, each is the longest at its place, and every position at which the
      pattern matches lies in one of them: they are the leftmost ones. */
  lemma ScanIsLeftmostLongest(s: string)
    ensures Separate(Scan(s, 0), 0, |s|)
    ensures forall k | 0 <= k < |Scan(s, 0)| ::
      Matches(s, Scan(s, 0)[k].0, Scan(s, 0)[k].1)
      && forall e: nat | Matches(s, Scan(s, 0)[k].0, e) :: e <= Scan(s, 0)[k].1
    ensures forall p: nat, e: nat | Matches(s, p, e) :: Covered(Scan(s, 0), p)
  {
    ScanSeparates(s, 0);
    forall k | 0 <= k < |Scan(s, 0)|
      ensures Matches(s, Scan(s, 0)[k].0, Scan(s, 0)[k].1)
      ensures forall e: nat | Matches(s, Scan(s, 0)[k].0, e) :: e <= Scan(s, 0)[k].1
    {
      ScanReportsLongest(s, 0, k);
      MatchEndIsLongest(s, Scan(s, 0)[k].0);
    }
    forall p: nat, e: nat | Matches(s, p, e) ensures Covered(Scan(s, 0), p) {
      MatchEndIsLongest(s, p);
      ScanCovers(s, 0, p);
    }
  }

  /** One position: skip the host, then the data. */
  method MatchAt(s: string, i: nat) returns (end: Option<nat>)
    ensures end == MatchEnd(s, i)
  {
    if !OccursAt(s, SCHEME, i) { return None; }
    var h := i + 5;
    while h < |s| && s[h] != '/'
      invariant i + 5 <= h <= |s| && HostEnd(s, h) == HostEnd(s, i + 5)
    {
      h := h + 1;
    }
    if h == i + 5 || h == |s| { return None; }
    var e := h + 1;
    while e < |s| && IsData(s[e])
      invariant h < e <= |s| && DataEnd(s, e) == DataEnd(s, h + 1)
    {
      e := e + 1;
    }
    return if e == h + 1 then None else Some(e);
  }

  /** The texts of the matches from position `i` on, from left to right. */
  function Found(s: string, i: nat): seq<string>
    requires i <= |s|
    decreases |s| - i
  {
    if i == |s| then []
    else
      match MatchEnd(s, i)
      case None => Found(s, i + 1)
      case Some(e) => [s[i..e]] + Found(s, e)
  }

  lemma {:induction false} FoundAreMatches(s: string, i: nat)
    requires i <= |s|
    ensures |Found(s, i)| == |Scan(s, i)|
    ensures forall k | 0 <= k < |Scan(s, i)| :: Found(s, i)[k] == s[Scan(s, i)[k].0..Scan(s, i)[k].1]
    decreases |s| - i
  {
    if i < |s| {
      match MatchEnd(s, i)
      case None => FoundAreMatches(s, i + 1);
      case Some(e) => FoundAreMatches(s, e);
    }
  }

  method FindMatches(s: string) returns (found: seq<string>)
    ensures found == Found(s, 0)
  {
    found := [];
    var i := 0;
    while i < |s|
      invariant i <= |s| && Found(s, 0) == found + Found(s, i)
    {
      var end := MatchAt(s, i);
      if end.Some? {
        found := found + [s[i..end.value]];
        i := end.value;
      } else {
        i := i + 1;
      }
    }
  }

  // ---------------------------------------------------------------------------
  // Tokens
  // ---------------------------------------------------------------------------

  /** Cutting a match out of its text gives a token. */
  lemma MatchIsToken(s: string, i: nat, e: nat)
    requires i <= e <= |s| && Matches(s, i, e)
    ensures IsToken(s[i..e])
  {
    var h: nat :| MatchesVia(s, i, h, e);
    var t := s[i..e];
    assert t[..5] == s[i..i + 5];
    assert MatchesVia(t, 0, h - i, |t|);
  }

  /** A token that occurs somewhere is matched there. */
  lemma OccurrenceMatches(s: string, t: string, p: nat)
    requires IsToken(t) && OccursAt(s, t, p)
    ensures Matches(s, p, p + |t|)
  {
    var h: nat :| MatchesVia(t, 0, h, |t|);
    assert s[p..p + |t|] == t;
    assert s[p..p + 5] == t[..5];
    forall k | p + 5 <= k < p + h ensures s[k] != '/' { assert s[k] == t[k - p]; }
    forall k | p + h < k < p + |t| ensures IsData(s[k]) { assert s[k] == t[k - p]; }
    assert MatchesVia(s, p, p + h, p + |t|);
  }

  /** Two slashes in a row stand only at offset 3 of a token. */
  lemma DoubleSlash(t: string, j: nat)
    requires IsToken(t) && j + 1 < |t| && t[j] == '/' && t[j + 1] == '/'
    ensures j == 3
  {
    var h: nat :| MatchesVia(t, 0, h, |t|);
    assert t[..5] == SCHEME;
    if j < 5 {
      assert t[j] == SCHEME[j];
    }
  }

  /** A token inside a token is a prefix of it. */
  lemma TokenInsideToken(t: string, u: string, p: nat)
    requires IsToken(t) && IsToken(u) && OccursAt(t, u, p)
    ensures p == 0 && u <= t
  {
    var h: nat :| MatchesVia(u, 0, h, |u|);
    assert u[..5] == SCHEME;
    assert t[p + 3] == t[p..p + |u|][3] && t[p + 4] == t[p..p + |u|][4];
    assert u[3] == u[..5][3] && u[4] == u[..5][4];
    DoubleSlash(t, p + 3);
  }

  /** What a token prefix leaves of a token is data. */
  lemma RestIsData(t: string, u: string)
    requires IsToken(t) && IsToken(u) && u <= t
    ensures forall k | |u| <= k < |t| :: IsData(t[k])
  {
    var h: nat :| MatchesVia(t, 0, h, |t|);
    var g: nat :| MatchesVia(u, 0, g, |u|);
    assert u[g] == t[g];
    if h < g {
      assert false;
    }
  }

  /** The scanner reports a token as one match that covers it whole. */
  lemma TokenIsOneMatch(t: string)
    requires IsToken(t)
    ensures Scan(t, 0) == [(0, |t|)] && Found(t, 0) == [t]
  {
    MatchEndIsLongest(t, 0);
    assert MatchEnd(t, 0) == Some(|t|);
    assert t[0..|t|] == t;
  }
}
