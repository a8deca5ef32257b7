/**
 Swapping tokens for secrets. The code collects the matches of all texts into one unordered map and then
 replaces the map's entries in every text one after another. Here is what that amounts to, for every order.
 */
module Substitution {
  import opened Common
  import opened Scanner

  type SecretMap = map<string, string>

  // ---------------------------------------------------------------------------
  // What the code does: replace all occurrences, one key after another
  // ---------------------------------------------------------------------------

  /** All non-overlapping occurrences of `key`, from left to right. */
  function ReplaceAll(s: string, key: string, value: string): string
    requires key != ""
    decreases |s|
  {
    if |s| < |key| then s
    else if s[..|key|] == key then value + ReplaceAll(s[|key|..], key, value)
    else [s[0]] + ReplaceAll(s[1..], key, value)
  }

  predicate UsableKeys(order: seq<string>, m: SecretMap) {
    forall i | 0 <= i < |order| :: order[i] in m && order[i] != ""
  }

  function ReplaceInOrder(s: string, order: seq<string>, m: SecretMap): string
    requires UsableKeys(order, m)
    decreases |order|
  {
    if order == [] then s
    else ReplaceInOrder(ReplaceAll(s, order[0], m[order[0]]), order[1..], m)
  }

  /** An iteration order of the map: every key once. */
  ghost predicate IsOrder(order: seq<string>, m: SecretMap) {
    && (forall i, j | 0 <= i < j < |order| :: order[i] != order[j])
    && (forall k :: k in order <==> k in m)
  }

  // ---------------------------------------------------------------------------
  // What is wanted: every match swapped for its own value, all at once
  // ---------------------------------------------------------------------------

  predicate MatchesIn(s: string, i: nat, keys: set<string>)
    requires i <= |s|
  {
    forall t | t in Found(s, i) :: t in keys
  }

  /** The text with every match exchanged; the scanner never looks at what it has exchanged. */
  function Swapped(s: string, i: nat, m: SecretMap): string
    requires i <= |s| && MatchesIn(s, i, m.Keys)
    decreases |s| - i
  {
    if i == |s| then ""
    else
      match MatchEnd(s, i)
      case None => [s[i]] + Swapped(s, i + 1, m)
      case Some(e) => m[s[i..e]] + Swapped(s, e, m)
  }

  // ---------------------------------------------------------------------------
  // When the texts are well separated
  // ---------------------------------------------------------------------------

  predicate KeyChar(keys: set<string>, c: char) {
    exists k | k in keys :: c in k
  }

  /** Next to a match there is the end of the text or a character that occurs in no key. */
  predicate Bordered(s: string, keys: set<string>) {
    forall k | 0 <= k < |Scan(s, 0)| ::
      var (a, b) := Scan(s, 0)[k];
      (a > 0 ==> !KeyChar(keys, s[a - 1])) && (b < |s| ==> !KeyChar(keys, s[b]))
  }

  ghost predicate PlainValues(m: SecretMap) {
    forall k | k in m :: !Contains(m[k], SCHEME)
  }

  /** No key is a proper prefix of a match of the text. */
  predicate PrefixFree(s: string, keys: set<string>) {
    forall t, key | t in Found(s, 0) && key in keys && key <= t :: key == t
  }

  // ---------------------------------------------------------------------------
  // ReplaceAll on concatenations
  // ---------------------------------------------------------------------------

  /** An occurrence that contains the first character of `y` or the last one of `x` cannot be the key's. */
  predicate NoStraddle(x: string, y: string, key: string) {
    x == "" || y == "" || x[|x| - 1] !in key || y[0] !in key
  }

  lemma SplitConcat(x: string, y: string, k: nat)
    requires k <= |x|
    ensures (x + y)[..k] == x[..k] && (x + y)[k..] == x[k..] + y
  {
  }

  lemma {:induction false} ReplaceAllConcat(x: string, y: string, key: string, value: string)
    requires key != "" && NoStraddle(x, y, key)
    ensures ReplaceAll(x + y, key, value) == ReplaceAll(x, key, value) + ReplaceAll(y, key, value)
    decreases |x|
  {
    if x == "" {
      assert x + y == y;
    } else if y == "" {
      assert x + y == x;
    } else if |x| >= |key| && x[..|key|] == key {
      SplitConcat(x, y, |key|);
      ReplaceAllConcat(x[|key|..], y, key, value);
    } else {
      SplitConcat(x, y, 1);
      if |x| < |key| { NoOccurrenceAcross(x, y, key); } else { SplitConcat(x, y, |key|); }
      ReplaceAllConcat(x[1..], y, key, value);
      assert ReplaceAll(x, key, value) == [x[0]] + ReplaceAll(x[1..], key, value) by { ShortUnfolds(x, key, value); }
      assert ReplaceAll(x + y, key, value) == [x[0]] + ReplaceAll((x + y)[1..], key, value) by {
        if |x + y| < |key| { ShortUnfolds(x + y, key, value); }
      }
    }
  }

  /** A text that does not begin with the key is copied one character at a time. */
  lemma ShortUnfolds(x: string, key: string, value: string)
    requires key != "" && x != "" && !(|x| >= |key| && x[..|key|] == key)
    ensures ReplaceAll(x, key, value) == [x[0]] + ReplaceAll(x[1..], key, value)
  {
    if |x| < |key| { assert [x[0]] + x[1..] == x; }
  }

  lemma StraddlerHasBoth(x: string, y: string, n: nat)
    requires 0 < |x| < n <= |x + y|
    ensures y[0] in (x + y)[..n] && x[|x| - 1] in (x + y)[..n]
  {
    var w := (x + y)[..n];
    assert w[|x|] == y[0] && w[|x| - 1] == x[|x| - 1];
  }

  lemma NoOccurrenceAcross(x: string, y: string, key: string)
    requires NoStraddle(x, y, key) && 0 < |x| < |key| && y != ""
    ensures |key| <= |x + y| ==> (x + y)[..|key|] != key
  {
    if |key| <= |x + y| { StraddlerHasBoth(x, y, |key|); }
  }

  lemma {:induction false} ReplaceAllAbsent(s: string, key: string, value: string)
    requires key != "" && !Contains(s, key)
    ensures ReplaceAll(s, key, value) == s
    decreases |s|
  {
    if |s| >= |key| {
      assert !OccursAt(s, key, 0);
      assert !Contains(s[1..], key) by {
        if at :| 0 <= at <= |s[1..]| && OccursAt(s[1..], key, at) {
          assert s[1..][at..at + |key|] == s[at + 1..at + 1 + |key|];
          assert OccursAt(s, key, at + 1);
        }
      }
      ReplaceAllAbsent(s[1..], key, value);
    }
  }

  // ---------------------------------------------------------------------------
  // A text as literals and tokens
  // ---------------------------------------------------------------------------

  datatype Piece = Lit(text: string) | Tok(token: string)

  function Reads(p: Piece, cur: SecretMap): string
    requires p.Tok? ==> p.token in cur
  {
    if p.Lit? then p.text else cur[p.token]
  }

  /** The text in which every token reads what `cur` says; literals never change. */
  function Render(ps: seq<Piece>, cur: SecretMap): string
    requires forall i | 0 <= i < |ps| && ps[i].Tok? :: ps[i].token in cur
  {
    if ps == [] then "" else Reads(ps[0], cur) + Render(ps[1..], cur)
  }

  /** The pieces fit the keys: tokens are keys, literals contain no key, and where a token meets a literal
      the literal's nearest character occurs in no key. */
  ghost predicate PiecesOk(ps: seq<Piece>, keys: set<string>) {
    && (forall i | 0 <= i < |ps| ::
          match ps[i]
          case Tok(t) => t in keys
          case Lit(c) => c != "" && forall k | k in keys :: !Contains(c, k))
    && (forall i | 0 <= i < |ps| - 1 :: Meets(ps[i], ps[i + 1], keys))
  }

  predicate Meets(p: Piece, q: Piece, keys: set<string>) {
    match (p, q)
    case (Tok(_), Lit(c)) => c != "" && !KeyChar(keys, c[0])
    case (Lit(c), Tok(_)) => c != "" && !KeyChar(keys, c[|c| - 1])
    case (_, _) => false
  }

  /** One replacement on one token's current text. */
  function Advance(cur: SecretMap, key: string, value: string): SecretMap
    requires key != ""
  {
    map t | t in cur :: ReplaceAll(cur[t], key, value)
  }

  lemma TailOk(ps: seq<Piece>, keys: set<string>)
    requires PiecesOk(ps, keys) && ps != []
    ensures PiecesOk(ps[1..], keys)
  {
    forall i | 0 <= i < |ps[1..]| - 1 ensures Meets(ps[1..][i], ps[1..][i + 1], keys) {
      assert Meets(ps[i + 1], ps[i + 2], keys);
    }
  }

  lemma TailStartsOutside(ps: seq<Piece>, cur: SecretMap, keys: set<string>, key: string)
    requires PiecesOk(ps, keys) && ps != [] && cur.Keys == keys && key in keys
    ensures NoStraddle(Reads(ps[0], cur), Render(ps[1..], cur), key)
  {
    if |ps| > 1 {
      assert Meets(ps[0], ps[1], keys);
    }
  }

  /** Replacing one key in the whole text is the same as replacing it in every token on its own. */
  lemma {:induction false} TokensEvolveAlone(ps: seq<Piece>, cur: SecretMap, keys: set<string>, key: string, value: string)
    requires PiecesOk(ps, keys) && cur.Keys == keys && key in keys && key != ""
    ensures ReplaceAll(Render(ps, cur), key, value) == Render(ps, Advance(cur, key, value))
    decreases |ps|
  {
    if ps != [] {
      var x, y := Reads(ps[0], cur), Render(ps[1..], cur);
      TailStartsOutside(ps, cur, keys, key);
      ReplaceAllConcat(x, y, key, value);
      TailOk(ps, keys);
      TokensEvolveAlone(ps[1..], cur, keys, key, value);
      if ps[0].Lit? { ReplaceAllAbsent(x, key, value); }
    }
  }

  function AdvanceAll(cur: SecretMap, order: seq<string>, m: SecretMap): SecretMap
    requires UsableKeys(order, m)
  {
    if order == [] then cur else AdvanceAll(Advance(cur, order[0], m[order[0]]), order[1..], m)
  }

  lemma {:induction false} TextEvolvesByTokens(ps: seq<Piece>, cur: SecretMap, order: seq<string>, m: SecretMap)
    requires UsableKeys(order, m) && PiecesOk(ps, m.Keys) && cur.Keys == m.Keys
    ensures AdvanceAll(cur, order, m).Keys == m.Keys
    ensures ReplaceInOrder(Render(ps, cur), order, m) == Render(ps, AdvanceAll(cur, order, m))
    decreases |order|
  {
    if order != [] {
      TokensEvolveAlone(ps, cur, m.Keys, order[0], m[order[0]]);
      TextEvolvesByTokens(ps, Advance(cur, order[0], m[order[0]]), order[1..], m);
    }
  }

  // ---------------------------------------------------------------------------
  // From the scanner to the pieces
  // ---------------------------------------------------------------------------

  function NextMatch(s: string, i: nat): (p: nat)
    requires i <= |s|
    ensures i <= p <= |s| && (forall q | i <= q < p :: MatchEnd(s, q).None?) && (p < |s| ==> MatchEnd(s, p).Some?)
    decreases |s| - i
  {
    if i == |s| || MatchEnd(s, i).Some? then i else NextMatch(s, i + 1)
  }

  function Pieces(s: string, i: nat): seq<Piece>
    requires i <= |s|
    decreases |s| - i
  {
    var p := NextMatch(s, i);
    if i < p then [Lit(s[i..p])] + Pieces(s, p)
    else if i == |s| then []
    else [Tok(s[i..MatchEnd(s, i).value])] + Pieces(s, MatchEnd(s, i).value)
  }

  lemma {:induction false} SkipsToNext(s: string, i: nat)
    requires i <= |s|
    ensures Scan(s, i) == Scan(s, NextMatch(s, i)) && Found(s, i) == Found(s, NextMatch(s, i))
    decreases |s| - i
  {
    if i < |s| && MatchEnd(s, i).None? { SkipsToNext(s, i + 1); }
  }

  lemma SwapStep(s: string, i: nat, m: SecretMap)
    requires i < |s| && MatchEnd(s, i).None? && MatchesIn(s, i, m.Keys)
    ensures MatchesIn(s, i + 1, m.Keys) && Swapped(s, i, m) == [s[i]] + Swapped(s, i + 1, m)
  {
    assert Found(s, i) == Found(s, i + 1);
  }

  lemma GlueChar(s: string, i: nat, p: nat, rest: string)
    requires i < p <= |s|
    ensures [s[i]] + (s[i + 1..p] + rest) == s[i..p] + rest
  {
    assert s[i..p] == [s[i]] + s[i + 1..p];
  }

  lemma GlueSlices(s: string, i: nat, p: nat)
    requires i <= p <= |s|
    ensures s[i..p] + s[p..] == s[i..]
  {
  }

  lemma {:induction false} SwapsToNext(s: string, i: nat, m: SecretMap)
    requires i <= |s| && MatchesIn(s, i, m.Keys)
    ensures MatchesIn(s, NextMatch(s, i), m.Keys)
    ensures Swapped(s, i, m) == s[i..NextMatch(s, i)] + Swapped(s, NextMatch(s, i), m)
    decreases |s| - i
  {
    if i < |s| && MatchEnd(s, i).None? {
      SwapStep(s, i, m);
      SwapsToNext(s, i + 1, m);
      GlueChar(s, i, NextMatch(s, i), Swapped(s, NextMatch(s, i), m));
    }
  }

  ghost predicate Renders(ps: seq<Piece>, m: SecretMap) {
    forall i | 0 <= i < |ps| && ps[i].Tok? :: ps[i].token in m
  }

  /** Exchanging the tokens of the pieces is what `Swapped` does with the text. */
  lemma {:induction false} PiecesSwap(s: string, i: nat, m: SecretMap)
    requires i <= |s| && MatchesIn(s, i, m.Keys)
    ensures Renders(Pieces(s, i), m) && Render(Pieces(s, i), m) == Swapped(s, i, m)
    decreases |s| - i
  {
    var p := NextMatch(s, i);
    if i < p {
      SwapsToNext(s, i, m);
      PiecesSwap(s, p, m);
      assert Pieces(s, i)[1..] == Pieces(s, p);
    } else if i < |s| {
      var e := MatchEnd(s, i).value;
      assert Found(s, i) == [s[i..e]] + Found(s, e);
      PiecesSwap(s, e, m);
      assert Pieces(s, i)[1..] == Pieces(s, e);
    }
  }

  /** With every token reading itself, the pieces are the text. */
  lemma {:induction false} PiecesJoin(s: string, i: nat, m: SecretMap)
    requires i <= |s| && Renders(Pieces(s, i), m) && forall t | t in m :: m[t] == t
    ensures Render(Pieces(s, i), m) == s[i..]
    decreases |s| - i
  {
    var p := NextMatch(s, i);
    if i < p {
      assert Pieces(s, i)[1..] == Pieces(s, p);
      PiecesJoin(s, p, m);
      GlueSlices(s, i, p);
    } else if i < |s| {
      var e := MatchEnd(s, i).value;
      assert Pieces(s, i)[1..] == Pieces(s, e);
      PiecesJoin(s, e, m);
      GlueSlices(s, i, e);
    }
  }

  predicate BorderedFrom(s: string, i: nat, keys: set<string>)
    requires i <= |s|
  {
    forall k | 0 <= k < |Scan(s, i)| ::
      var (a, b) := Scan(s, i)[k];
      (a > 0 ==> !KeyChar(keys, s[a - 1])) && (b < |s| ==> !KeyChar(keys, s[b]))
  }

  ghost predicate AllTokens(keys: set<string>) {
    forall k | k in keys :: IsToken(k)
  }

  lemma SliceOfSlice(s: string, i: nat, p: nat, a: nat, b: nat)
    requires i <= p <= |s| && a <= b <= p - i
    ensures s[i..p][a..b] == s[i + a..i + b]
  {
    var l, r := s[i..p][a..b], s[i + a..i + b];
    forall k | 0 <= k < |l| ensures l[k] == r[k] { assert l[k] == s[i..p][a + k]; }
  }

  lemma KeyInGap(s: string, i: nat, p: nat, key: string, at: nat)
    requires i <= p <= |s| && IsToken(key) && OccursAt(s[i..p], key, at)
    ensures i + at < p && MatchEnd(s, i + at).Some?
  {
    SliceOfSlice(s, i, p, at, at + |key|);
    OccurrenceMatches(s, key, i + at);
    MatchEndIsLongest(s, i + at);
  }

  /** The scanner leaves no key behind in a gap: where a key occurs, the pattern matches. */
  lemma GapHasNoKey(s: string, i: nat, key: string)
    requires i <= |s| && IsToken(key)
    ensures !Contains(s[i..NextMatch(s, i)], key)
  {
    var p := NextMatch(s, i);
    forall at: nat | at <= p - i ensures !OccursAt(s[i..p], key, at) {
      if OccursAt(s[i..p], key, at) { KeyInGap(s, i, p, key, at); }
    }
  }

  lemma ScanTail(s: string, i: nat, e: nat, keys: set<string>)
    requires i <= |s| && MatchEnd(s, i) == Some(e) && BorderedFrom(s, i, keys) && MatchesIn(s, i, keys)
    ensures BorderedFrom(s, e, keys) && MatchesIn(s, e, keys)
    ensures s[i..e] in keys && (i > 0 ==> !KeyChar(keys, s[i - 1])) && (e < |s| ==> !KeyChar(keys, s[e]))
  {
    assert Scan(s, i)[0] == (i, e);
    assert forall k | 0 <= k < |Scan(s, e)| :: Scan(s, e)[k] == Scan(s, i)[k + 1];
    assert Found(s, i) == [s[i..e]] + Found(s, e);
  }

  /** The pieces fit, and the first of them starts where the text does. */
  ghost predicate FitFrom(s: string, i: nat, keys: set<string>)
    requires i <= |s|
  {
    var ps := Pieces(s, i);
    && PiecesOk(ps, keys)
    && (i < |s| ==> ps != [] && if MatchEnd(s, i).Some? then ps[0].Tok? else ps[0].Lit? && ps[0].text != "" && ps[0].text[0] == s[i])
    && (i == |s| ==> ps == [])
  }

  lemma {:induction false} PiecesFit(s: string, i: nat, keys: set<string>)
    requires i <= |s| && AllTokens(keys) && BorderedFrom(s, i, keys) && MatchesIn(s, i, keys)
    ensures FitFrom(s, i, keys)
    decreases |s| - i
  {
    var p := NextMatch(s, i);
    if i < p {
      SkipsToNext(s, i);
      PiecesFit(s, p, keys);
      if p < |s| { ScanTail(s, p, MatchEnd(s, p).value, keys); }
      GapFits(s, i, keys);
    } else if i < |s| {
      var e := MatchEnd(s, i).value;
      ScanTail(s, i, e, keys);
      PiecesFit(s, e, keys);
      MatchFits(s, i, e, keys);
    }
  }

  lemma GapFits(s: string, i: nat, keys: set<string>)
    requires i <= |s| && i < NextMatch(s, i) && AllTokens(keys) && FitFrom(s, NextMatch(s, i), keys)
    requires NextMatch(s, i) < |s| ==> !KeyChar(keys, s[NextMatch(s, i) - 1])
    ensures FitFrom(s, i, keys)
  {
    var p := NextMatch(s, i);
    forall k | k in keys ensures !Contains(s[i..p], k) { GapHasNoKey(s, i, k); }
    ConsOk(Lit(s[i..p]), Pieces(s, p), keys);
  }

  /** No match follows right after another: the first one would have swallowed the letter it starts with. */
  lemma NoAdjacentMatch(s: string, i: nat, e: nat)
    requires MatchEnd(s, i) == Some(e)
    ensures MatchEnd(s, e).None?
  {
  }

  lemma MatchFits(s: string, i: nat, e: nat, keys: set<string>)
    requires i < |s| && MatchEnd(s, i) == Some(e) && FitFrom(s, e, keys) && s[i..e] in keys
    requires e < |s| ==> !KeyChar(keys, s[e])
    ensures FitFrom(s, i, keys)
  {
    NoAdjacentMatch(s, i, e);
    ConsOk(Tok(s[i..e]), Pieces(s, e), keys);
  }

  lemma ConsOk(p: Piece, rest: seq<Piece>, keys: set<string>)
    requires PiecesOk(rest, keys) && (rest != [] ==> Meets(p, rest[0], keys))
    requires match p case Tok(t) => t in keys case Lit(c) => c != "" && forall k | k in keys :: !Contains(c, k)
    ensures PiecesOk([p] + rest, keys)
  {
    var ps := [p] + rest;
    forall i | 0 <= i < |ps| - 1 ensures Meets(ps[i], ps[i + 1], keys) {
      if i > 0 { assert Meets(rest[i - 1], rest[i], keys); }
    }
  }

  // ---------------------------------------------------------------------------
  // What becomes of one token
  // ---------------------------------------------------------------------------

  /** The first key of the order that is a prefix of the token decides; what follows the prefix stays. */
  function Outcome(t: string, order: seq<string>, m: SecretMap): string
    requires UsableKeys(order, m)
  {
    if order == [] then t
    else if order[0] <= t then m[order[0]] + t[|order[0]|..]
    else Outcome(t, order[1..], m)
  }

  /** Data after a plain value makes no token. */
  lemma NoKeyInSettled(value: string, rest: string, key: string)
    requires !Contains(value, SCHEME) && (forall c | c in rest :: IsData(c)) && IsToken(key)
    ensures !Contains(value + rest, key)
  {
    var w := value + rest;
    if at: nat :| at <= |w| && OccursAt(w, key, at) {
      var h: nat :| MatchesVia(key, 0, h, |key|);
      assert key[..5] == SCHEME;
      assert w[at..at + 5] == w[at..at + |key|][..5];
      if at + 5 <= |value| {
        assert w[at..at + 5] == value[at..at + 5];
        assert OccursAt(value, SCHEME, at);
      } else {
        assert w[at + 4] == SCHEME[4] && w[at + 4] == rest[at + 4 - |value|];
        assert w[at + 4] in rest;
      }
    }
  }

  lemma {:induction false} SettledStays(w: string, order: seq<string>, m: SecretMap)
    requires UsableKeys(order, m) && forall k | k in m :: !Contains(w, k)
    ensures ReplaceInOrder(w, order, m) == w
    decreases |order|
  {
    if order != [] {
      ReplaceAllAbsent(w, order[0], m[order[0]]);
      SettledStays(w, order[1..], m);
    }
  }

  lemma ReplaceAtFront(t: string, key: string, value: string)
    requires key != "" && key <= t && !Contains(t[|key|..], key)
    ensures ReplaceAll(t, key, value) == value + t[|key|..]
  {
    assert t[..|key|] == key;
    ReplaceAllAbsent(t[|key|..], key, value);
  }

  lemma RestHasNoKey(t: string, u: string, key: string)
    requires IsToken(t) && IsToken(u) && u <= t && IsToken(key)
    ensures !Contains(t[|u|..], key) && forall c | c in t[|u|..] :: IsData(c)
  {
    RestIsData(t, u);
    var rest := t[|u|..];
    assert forall c | c in rest :: IsData(c);
    assert !OccursAt("", SCHEME, 0);
    NoKeyInSettled("", rest, key);
    assert "" + rest == rest;
  }

  lemma {:induction false} TokenOutcome(t: string, order: seq<string>, m: SecretMap)
    requires UsableKeys(order, m) && AllTokens(m.Keys) && PlainValues(m) && IsToken(t)
    ensures ReplaceInOrder(t, order, m) == Outcome(t, order, m)
    decreases |order|
  {
    if order != [] {
      var key := order[0];
      assert IsToken(key);
      if key <= t {
        RestHasNoKey(t, key, key);
        ReplaceAtFront(t, key, m[key]);
        var rest := t[|key|..];
        forall k | k in m ensures !Contains(m[key] + rest, k) { NoKeyInSettled(m[key], rest, k); }
        SettledStays(m[key] + rest, order[1..], m);
      } else {
        if at: nat :| at <= |t| && OccursAt(t, key, at) { TokenInsideToken(t, key, at); }
        ReplaceAllAbsent(t, key, m[key]);
        TokenOutcome(t, order[1..], m);
      }
    }
  }

  lemma {:induction false} TokensAdvance(cur: SecretMap, order: seq<string>, m: SecretMap, t: string)
    requires UsableKeys(order, m) && t in cur
    ensures t in AdvanceAll(cur, order, m) && AdvanceAll(cur, order, m)[t] == ReplaceInOrder(cur[t], order, m)
    decreases |order|
  {
    if order != [] {
      TokensAdvance(Advance(cur, order[0], m[order[0]]), order[1..], m, t);
    }
  }

  // ---------------------------------------------------------------------------
  // Whole texts
  // ---------------------------------------------------------------------------

  /** The text, the keys and the values are as the theorems need them. */
  ghost predicate WellSeparated(s: string, m: SecretMap) {
    AllTokens(m.Keys) && PlainValues(m) && MatchesIn(s, 0, m.Keys) && Bordered(s, m.Keys)
  }

  function Outcomes(order: seq<string>, m: SecretMap): SecretMap
    requires UsableKeys(order, m)
  {
    map t | t in m :: Outcome(t, order, m)
  }

  lemma OrderIsUsable(order: seq<string>, m: SecretMap)
    requires IsOrder(order, m) && AllTokens(m.Keys)
    ensures UsableKeys(order, m)
  {
    forall i | 0 <= i < |order| ensures order[i] in m && order[i] != "" {
      assert order[i] in order;
      assert IsToken(order[i]);
    }
  }

  lemma TokenPiecesIn(s: string, i: nat, m: SecretMap)
    requires i <= |s| && MatchesIn(s, i, m.Keys)
    ensures Renders(Pieces(s, i), m)
  {
    PiecesSwap(s, i, m);
  }

  /** For every order: the result is the text in which each match reads its outcome under that order. */
  lemma SequentialResult(s: string, order: seq<string>, m: SecretMap)
    requires WellSeparated(s, m) && IsOrder(order, m)
    ensures UsableKeys(order, m) && Renders(Pieces(s, 0), m)
    ensures ReplaceInOrder(s, order, m) == Render(Pieces(s, 0), Outcomes(order, m))
  {
    OrderIsUsable(order, m);
    var ps := Pieces(s, 0);
    var self := map t | t in m :: t;
    PiecesFit(s, 0, m.Keys);
    TokenPiecesIn(s, 0, m);
    PiecesJoin(s, 0, self);
    assert s[0..] == s;
    TextEvolvesByTokens(ps, self, order, m);
    TokensReachOutcomes(self, order, m);
  }

  lemma TokensReachOutcomes(self: SecretMap, order: seq<string>, m: SecretMap)
    requires UsableKeys(order, m) && AllTokens(m.Keys) && PlainValues(m)
    requires self.Keys == m.Keys && (forall t | t in self :: self[t] == t) && AdvanceAll(self, order, m).Keys == m.Keys
    ensures AdvanceAll(self, order, m) == Outcomes(order, m)
  {
    forall t | t in m ensures AdvanceAll(self, order, m)[t] == Outcome(t, order, m) {
      TokensAdvance(self, order, m, t);
      TokenOutcome(t, order, m);
    }
  }

  lemma {:induction false} RenderAgrees(ps: seq<Piece>, a: SecretMap, b: SecretMap)
    requires Renders(ps, a) && Renders(ps, b)
    requires forall i | 0 <= i < |ps| && ps[i].Tok? :: a[ps[i].token] == b[ps[i].token]
    ensures Render(ps, a) == Render(ps, b)
  {
    if ps != [] { RenderAgrees(ps[1..], a, b); }
  }

  /** A token no key properly begins gets its own value, whatever the order. */
  lemma {:induction false} OwnValue(t: string, order: seq<string>, m: SecretMap)
    requires UsableKeys(order, m) && t in order && t in m
    requires forall k | k in m && k <= t :: k == t
    ensures Outcome(t, order, m) == m[t]
    decreases |order|
  {
    if order[0] != t {
      OwnValue(t, order[1..], m);
    } else {
      assert m[t] + t[|t|..] == m[t];
    }
  }

  /** The tokens of the pieces are the texts of the scanner's matches. */
  lemma {:induction false} PieceIsMatch(s: string, i: nat, t: string)
    requires i <= |s|
    ensures Tok(t) in Pieces(s, i) <==> t in Found(s, i)
    decreases |s| - i
  {
    var p := NextMatch(s, i);
    if i < p {
      SkipsToNext(s, i);
      PieceIsMatch(s, p, t);
    } else if i < |s| {
      var e := MatchEnd(s, i).value;
      assert Found(s, i) == [s[i..e]] + Found(s, e);
      PieceIsMatch(s, e, t);
    }
  }

  /** The substitution theorem: when no key is a proper prefix of a match, replacing the entries in any order
      gives the text with every match swapped for its own value. */
  lemma SubstitutionIsSimultaneous(s: string, order: seq<string>, m: SecretMap)
    requires WellSeparated(s, m) && IsOrder(order, m) && PrefixFree(s, m.Keys)
    ensures UsableKeys(order, m) && ReplaceInOrder(s, order, m) == Swapped(s, 0, m)
  {
    SequentialResult(s, order, m);
    PiecesSwap(s, 0, m);
    var ps := Pieces(s, 0);
    forall n | 0 <= n < |ps| && ps[n].Tok? ensures Outcomes(order, m)[ps[n].token] == m[ps[n].token] {
      assert ps[n] in ps;
      PieceIsMatch(s, 0, ps[n].token);
      OwnValue(ps[n].token, order, m);
    }
    RenderAgrees(ps, Outcomes(order, m), m);
  }

  // ---------------------------------------------------------------------------
  // Exactly when the order does not matter
  // ---------------------------------------------------------------------------

  /** Whatever the secrets are and whatever the order is, the result is the simultaneous one. */
  ghost predicate OrderNeverMatters(s: string, keys: set<string>) {
    forall m: SecretMap, order | m.Keys == keys && WellSeparated(s, m) && IsOrder(order, m) ::
      UsableKeys(order, m) && ReplaceInOrder(s, order, m) == Swapped(s, 0, m)
  }

  lemma {:induction false} SomeOrder(keys: set<string>) returns (order: seq<string>)
    ensures forall k :: k in order <==> k in keys
    ensures forall i, j | 0 <= i < j < |order| :: order[i] != order[j]
    decreases keys
  {
    if keys == {} {
      order := [];
    } else {
      var k :| k in keys;
      var rest := SomeOrder(keys - {k});
      order := [k] + rest;
      assert forall x :: x in order <==> x == k || x in rest;
    }
  }

  lemma {:induction false} RenderLonger(ps: seq<Piece>, a: SecretMap, b: SecretMap, n: nat)
    requires Renders(ps, a) && Renders(ps, b) && n < |ps| && ps[n].Tok?
    requires forall i | 0 <= i < |ps| && ps[i].Tok? :: |a[ps[i].token]| <= |b[ps[i].token]|
    requires |a[ps[n].token]| < |b[ps[n].token]|
    ensures |Render(ps, a)| < |Render(ps, b)|
  {
    if n == 0 {
      RenderNotShorter(ps[1..], a, b);
    } else {
      RenderLonger(ps[1..], a, b, n - 1);
    }
  }

  lemma {:induction false} RenderNotShorter(ps: seq<Piece>, a: SecretMap, b: SecretMap)
    requires Renders(ps, a) && Renders(ps, b)
    requires forall i | 0 <= i < |ps| && ps[i].Tok? :: |a[ps[i].token]| <= |b[ps[i].token]|
    ensures |Render(ps, a)| <= |Render(ps, b)|
  {
    if ps != [] { RenderNotShorter(ps[1..], a, b); }
  }

  /** If a key properly begins a match, empty secrets and that key first leave the rest of the match behind. */
  lemma ProperPrefixMatters(s: string, keys: set<string>, t: string, key: string)
    requires AllTokens(keys) && MatchesIn(s, 0, keys) && Bordered(s, keys)
    requires t in Found(s, 0) && key in keys && key < t
    ensures !OrderNeverMatters(s, keys)
  {
    var m: SecretMap := map x | x in keys :: "";
    assert !OccursAt("", SCHEME, 0);
    assert WellSeparated(s, m);
    var order := OrderFrom(key, m);
    SequentialResult(s, order, m);
    LeavesRest(s, order, m, t);
  }

  lemma OrderFrom(key: string, m: SecretMap) returns (order: seq<string>)
    requires key in m
    ensures IsOrder(order, m) && order != [] && order[0] == key
  {
    var rest := SomeOrder(m.Keys - {key});
    order := [key] + rest;
    assert forall x :: x in order <==> x == key || x in rest;
  }

  /** With empty secrets every outcome is at least as long as the secret, and here one is longer. */
  lemma LeavesRest(s: string, order: seq<string>, m: SecretMap, t: string)
    requires WellSeparated(s, m) && UsableKeys(order, m) && order != [] && forall k | k in m :: m[k] == ""
    requires t in Found(s, 0) && order[0] < t && Renders(Pieces(s, 0), m)
    ensures Render(Pieces(s, 0), Outcomes(order, m)) != Swapped(s, 0, m)
  {
    PiecesSwap(s, 0, m);
    PieceIsMatch(s, 0, t);
    var n :| 0 <= n < |Pieces(s, 0)| && Pieces(s, 0)[n] == Tok(t);
    assert Outcomes(order, m)[t] == "" + t[|order[0]|..];
    RenderLonger(Pieces(s, 0), m, Outcomes(order, m), n);
  }

  /** For bordered texts: the order never matters if and only if no key is a proper prefix of a match. */
  lemma OrderMattersIffPrefix(s: string, keys: set<string>)
    requires AllTokens(keys) && MatchesIn(s, 0, keys) && Bordered(s, keys)
    ensures OrderNeverMatters(s, keys) <==> PrefixFree(s, keys)
  {
    if PrefixFree(s, keys) {
      forall m: SecretMap, order | m.Keys == keys && WellSeparated(s, m) && IsOrder(order, m)
        ensures UsableKeys(order, m) && ReplaceInOrder(s, order, m) == Swapped(s, 0, m)
      {
        SubstitutionIsSimultaneous(s, order, m);
      }
    } else {
      var t, key :| t in Found(s, 0) && key in keys && key <= t && key != t;
      ProperPrefixMatters(s, keys, t, key);
    }
  }

  lemma ReplaceItself(key: string, value: string)
    requires key != ""
    ensures ReplaceAll(key, key, value) == value
  {
    assert key[..|key|] == key && key[|key|..] == "";
    assert value + "" == value;
  }

  lemma NotInside(a: string, b: string)
    requires IsToken(a) && IsToken(b) && !(b <= a)
    ensures ReplaceAll(a, b, "") == a
  {
    forall at: nat | at <= |a| ensures !OccursAt(a, b, at) {
      if OccursAt(a, b, at) { TokenInsideToken(a, b, at); }
    }
    ReplaceAllAbsent(a, b, "");
  }

  /** The values must be plain: a secret that is itself another token makes the order matter. */
  lemma TokenValuesMatter(a: string, b: string)
    requires IsToken(a) && IsToken(b) && !(b <= a)
    ensures var m: SecretMap := map[a := b, b := ""];
      UsableKeys([a, b], m) && UsableKeys([b, a], m)
      && ReplaceInOrder(a, [a, b], m) == "" && ReplaceInOrder(a, [b, a], m) == b
  {
    var m: SecretMap := map[a := b, b := ""];
    ReplaceItself(a, b);
    ReplaceItself(b, "");
    NotInside(a, b);
    assert [a, b][1..] == [b] && [b, a][1..] == [a];
    assert ReplaceInOrder(b, [b], m) == ReplaceInOrder("", [], m) by { assert [b][1..] == []; }
    assert ReplaceInOrder(a, [a], m) == ReplaceInOrder(b, [], m) by { assert [a][1..] == []; }
  }

  lemma BehindV(a: string, key: string, value: string)
    requires IsToken(a) && IsToken(key)
    ensures ReplaceAll("v" + a, key, value) == "v" + ReplaceAll(a, key, value)
  {
    var s := "v" + a;
    assert a[..5] == SCHEME && key[..5] == SCHEME;
    assert a[0] == a[..5][0] && key[1] == key[..5][1];
    if |key| <= |s| {
      assert s[1] == a[0];
      assert s[..|key|][1] == s[1];
    } else {
      assert ReplaceAll(a, key, value) == a;
    }
    assert s[1..] == a;
  }

  /** The borders matter: behind a stray `v`, a secret can complete another token. */
  lemma BordersMatter(a: string, b: string)
    requires IsToken(a) && IsToken(b) && !(b <= a)
    ensures var m: SecretMap := map[a := b[1..], b := ""];
      UsableKeys([a, b], m) && UsableKeys([b, a], m)
      && ReplaceInOrder("v" + a, [a, b], m) == "" && ReplaceInOrder("v" + a, [b, a], m) == b
  {
    var m: SecretMap := map[a := b[1..], b := ""];
    BehindV(a, a, b[1..]);
    BehindV(a, b, "");
    ReplaceItself(a, b[1..]);
    ReplaceItself(b, "");
    NotInside(a, b);
    assert "v" + b[1..] == b by { assert b[..5] == SCHEME && b[0] == b[..5][0]; }
    assert [a, b][1..] == [b] && [b, a][1..] == [a];
    assert ReplaceInOrder(b, [b], m) == ReplaceInOrder("", [], m) by { assert [b][1..] == []; }
    assert ReplaceInOrder("v" + a, [a], m) == ReplaceInOrder(b, [], m) by { assert [a][1..] == []; }
  }
}
