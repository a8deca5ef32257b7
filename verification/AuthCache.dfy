/**
 The authorization cache: a map from (context, fingerprint) to the instant at which the grant expires.
 The class updates the map in place and keeps, as a ghost, the history of everything done to it; the
 lemmas prove that looking at the map gives the answer one gets from the history.
 */
module AuthCache {
  import opened Common

  datatype Ttl = Ttl(sign: nat, decrypt: nat) {
    function For(isDecrypt: bool): nat {
      if isDecrypt then decrypt else sign
    }
  }

  type Entries = map<(nat, string), nat>

  datatype CacheEvent =
    | Grant(context: nat, fingerprint: string, isDecrypt: bool, at: nat)
    | Clear
    | Sweep(at: nat)

  // ---------------------------------------------------------------------------
  // What the operations do to the map
  // ---------------------------------------------------------------------------

  predicate IsAuthorized(entries: Entries, context: nat, fingerprint: string, now: nat) {
    (context, fingerprint) in entries && now < entries[(context, fingerprint)]
  }

  function AfterGrant(ttl: Ttl, entries: Entries, context: nat, fingerprint: string, isDecrypt: bool, now: nat): Entries {
    entries[(context, fingerprint) := now + ttl.For(isDecrypt)]
  }

  function AfterSweep(entries: Entries, now: nat): Entries {
    map key | key in entries && now < entries[key] :: entries[key]
  }

  function Apply(ttl: Ttl, entries: Entries, e: CacheEvent): Entries {
    match e
    case Grant(c, f, d, at) => AfterGrant(ttl, entries, c, f, d, at)
    case Clear => map[]
    case Sweep(at) => AfterSweep(entries, at)
  }

  function Replay(ttl: Ttl, h: seq<CacheEvent>): Entries {
    if h == [] then map[] else Apply(ttl, Replay(ttl, h[..|h| - 1]), h[|h| - 1])
  }

  lemma ReplayStep(ttl: Ttl, h: seq<CacheEvent>, e: CacheEvent)
    ensures Replay(ttl, h + [e]) == Apply(ttl, Replay(ttl, h), e)
  {
    assert (h + [e])[..|h|] == h;
  }

  // ---------------------------------------------------------------------------
  // What a history allows, with no map in sight
  // ---------------------------------------------------------------------------

  predicate Covers(ttl: Ttl, e: CacheEvent, context: nat, fingerprint: string, t: nat) {
    && e.Grant? && e.context == context && e.fingerprint == fingerprint
    && e.at <= t < e.at + (if e.isDecrypt then ttl.decrypt else ttl.sign)
  }

  ghost predicate NotClearedSince(h: seq<CacheEvent>, g: nat) {
    forall i | g < i < |h| :: !h[i].Clear?
  }

  ghost predicate Allowed(ttl: Ttl, h: seq<CacheEvent>, context: nat, fingerprint: string, t: nat) {
    exists g | 0 <= g < |h| :: Covers(ttl, h[g], context, fingerprint, t) && NotClearedSince(h, g)
  }

  /** The clock never runs backwards: every event happens no later than `now` and events are in order. */
  ghost predicate Chronological(h: seq<CacheEvent>, now: nat)
    decreases |h|
  {
    h == [] ||
    var e := h[|h| - 1];
    match e
    case Clear => Chronological(h[..|h| - 1], now)
    case _ => e.at <= now && Chronological(h[..|h| - 1], e.at)
  }

  /** The kind of a grant, and so its lifetime, is fixed by the fingerprint. */
  ghost predicate KindFixed(h: seq<CacheEvent>) {
    forall i, j | 0 <= i < |h| && 0 <= j < |h| && h[i].Grant? && h[j].Grant? && h[i].fingerprint == h[j].fingerprint ::
      h[i].isDecrypt == h[j].isDecrypt
  }

  lemma ChronologicalLater(h: seq<CacheEvent>, t: nat, u: nat)
    requires Chronological(h, t) && t <= u
    ensures Chronological(h, u)
  {
    if h != [] && h[|h| - 1].Clear? {
      ChronologicalLater(h[..|h| - 1], t, u);
    }
  }

  lemma ChronologicalAll(h: seq<CacheEvent>, now: nat)
    requires Chronological(h, now)
    ensures forall i | 0 <= i < |h| && !h[i].Clear? :: h[i].at <= now
  {
    if h != [] {
      var init, e := h[..|h| - 1], h[|h| - 1];
      ChronologicalAll(init, if e.Clear? then now else e.at);
      forall i | 0 <= i < |h| && !h[i].Clear? ensures h[i].at <= now {
        if i < |init| { assert h[i] == init[i]; }
      }
    }
  }

  /** Event `g` is a grant for the key that nothing has cleared and that runs until `expiry`. */
  ghost predicate IsSource(ttl: Ttl, h: seq<CacheEvent>, g: nat, c: nat, f: string, expiry: nat)
    requires g < |h|
  {
    && h[g].Grant? && h[g].context == c && h[g].fingerprint == f
    && h[g].at + (if h[g].isDecrypt then ttl.decrypt else ttl.sign) == expiry && NotClearedSince(h, g)
  }

  /** What the map holds for a key comes from the latest uncleared grant for it. */
  lemma {:induction false} EntryHasGrant(ttl: Ttl, h: seq<CacheEvent>, c: nat, f: string)
    requires (c, f) in Replay(ttl, h)
    ensures exists g | 0 <= g < |h| :: IsSource(ttl, h, g, c, f, Replay(ttl, h)[(c, f)])
  {
    var init, e := h[..|h| - 1], h[|h| - 1];
    if e.Grant? && e.context == c && e.fingerprint == f {
      assert IsSource(ttl, h, |h| - 1, c, f, Replay(ttl, h)[(c, f)]);
    } else {
      EntryHasGrant(ttl, init, c, f);
      var g :| 0 <= g < |init| && IsSource(ttl, init, g, c, f, Replay(ttl, init)[(c, f)]);
      assert h[g] == init[g];
      assert NotClearedSince(h, g) by {
        forall i | g < i < |h| ensures !h[i].Clear? {
          if i < |init| { assert h[i] == init[i]; }
        }
      }
      assert IsSource(ttl, h, g, c, f, Replay(ttl, h)[(c, f)]);
    }
  }

  /** An uncleared grant that is still running at `t` is covered by what the map holds, if all grants for one
      fingerprint have one lifetime. */
  lemma {:induction false} GrantStaysCovered(ttl: Ttl, h: seq<CacheEvent>, c: nat, f: string, t: nat, g: nat)
    requires Chronological(h, t) && (KindFixed(h) || ttl.sign == ttl.decrypt)
    requires g < |h| && Covers(ttl, h[g], c, f, t) && NotClearedSince(h, g)
    ensures IsAuthorized(Replay(ttl, h), c, f, t)
  {
    var init, e := h[..|h| - 1], h[|h| - 1];
    if g < |h| - 1 {
      assert init[g] == h[g];
      assert !e.Clear?;
      if e.Grant? && e.context == c && e.fingerprint == f {
        ChronologicalAll(init, e.at);
      } else {
        ChronologicalLater(init, e.at, t);
        assert KindFixed(h) ==> KindFixed(init) by {
          forall i, j | 0 <= i < |init| && 0 <= j < |init| && init[i].Grant? && init[j].Grant?
                        && init[i].fingerprint == init[j].fingerprint && KindFixed(h)
            ensures init[i].isDecrypt == init[j].isDecrypt
          {
            assert init[i] == h[i] && init[j] == h[j];
          }
        }
        assert NotClearedSince(init, g) by {
          forall i | g < i < |init| ensures !init[i].Clear? { assert init[i] == h[i]; }
        }
        GrantStaysCovered(ttl, init, c, f, t, g);
      }
    }
  }

  /** The map answers exactly what the history allows: overwriting with the latest grant loses nothing. */
  lemma CacheRefinesHistory(ttl: Ttl, h: seq<CacheEvent>, c: nat, f: string, t: nat)
    requires Chronological(h, t) && KindFixed(h)
    ensures IsAuthorized(Replay(ttl, h), c, f, t) <==> Allowed(ttl, h, c, f, t)
  {
    if IsAuthorized(Replay(ttl, h), c, f, t) {
      EntryHasGrant(ttl, h, c, f);
      ChronologicalAll(h, t);
    }
    if Allowed(ttl, h, c, f, t) {
      var g :| 0 <= g < |h| && Covers(ttl, h[g], c, f, t) && NotClearedSince(h, g);
      GrantStaysCovered(ttl, h, c, f, t, g);
    }
  }

  predicate IsFor(e: CacheEvent, c: nat, f: string) {
    e.Clear? || (e.Grant? && e.context == c && e.fingerprint == f)
  }

  /** How long a grant lasts: with no clear and no other grant for its key since, the answer at `t` is yes if and only if
      less than the decrypt lifetime has passed since a decrypt grant, or less than the sign lifetime since another. */
  lemma {:induction false} GrantLasts(ttl: Ttl, h: seq<CacheEvent>, later: seq<CacheEvent>, c: nat, f: string,
                                      isDecrypt: bool, g: nat, t: nat)
    requires Chronological(h + [Grant(c, f, isDecrypt, g)] + later, t)
    requires forall i | 0 <= i < |later| :: !IsFor(later[i], c, f)
    ensures IsAuthorized(Replay(ttl, h + [Grant(c, f, isDecrypt, g)] + later), c, f, t) <==>
      t < g + (if isDecrypt then ttl.decrypt else ttl.sign)
    decreases |later|
  {
    var start := h + [Grant(c, f, isDecrypt, g)];
    if later == [] {
      assert start + later == start;
      ReplayStep(ttl, h, Grant(c, f, isDecrypt, g));
    } else {
      var n := |later| - 1;
      var e := later[n];
      assert start + later == start + later[..n] + [e];
      assert (start + later)[..|start + later| - 1] == start + later[..n];
      ChronologicalLater(start + later[..n], e.at, t);
      GrantLasts(ttl, h, later[..n], c, f, isDecrypt, g, t);
      ReplayStep(ttl, start + later[..n], e);
    }
  }

  /** Does the map agree with the history at every instant, whatever was granted for which fingerprint? */
  ghost predicate RefinesWithoutKinds(ttl: Ttl) {
    forall h, c: nat, f, t: nat | Chronological(h, t) ::
      IsAuthorized(Replay(ttl, h), c, f, t) <==> Allowed(ttl, h, c, f, t)
  }

  /**
   Without the fixed kinds the cache can forget a longer grant by overwriting it with a shorter one. That
   happens exactly when the two lifetimes differ.
   */
  lemma KindsMatterUnlessLifetimesAgree(ttl: Ttl)
    ensures RefinesWithoutKinds(ttl) <==> ttl.sign == ttl.decrypt
  {
    if ttl.sign == ttl.decrypt {
      forall h, c: nat, f, t: nat | Chronological(h, t)
        ensures IsAuthorized(Replay(ttl, h), c, f, t) <==> Allowed(ttl, h, c, f, t)
      {
        if IsAuthorized(Replay(ttl, h), c, f, t) {
          EntryHasGrant(ttl, h, c, f);
          ChronologicalAll(h, t);
        }
        if Allowed(ttl, h, c, f, t) {
          var g :| 0 <= g < |h| && Covers(ttl, h[g], c, f, t) && NotClearedSince(h, g);
          GrantStaysCovered(ttl, h, c, f, t, g);
        }
      }
    } else {
      var longIsDecrypt := ttl.sign < ttl.decrypt;
      var g0, g1 := Grant(0, "", longIsDecrypt, 0), Grant(0, "", !longIsDecrypt, 0);
      var h := [g0, g1];
      var t := ttl.For(!longIsDecrypt);
      assert h[..1] == [g0] && [g0][..0] == [];
      assert Replay(ttl, [g0]) == AfterGrant(ttl, map[], 0, "", longIsDecrypt, 0);
      assert Chronological([g0], 0);
      assert Chronological(h, t);
      assert Covers(ttl, h[0], 0, "", t) && NotClearedSince(h, 0);
      assert Allowed(ttl, h, 0, "", t);
      assert !IsAuthorized(Replay(ttl, h), 0, "", t);
    }
  }

  // ---------------------------------------------------------------------------
  // Sweeping is invisible
  // ---------------------------------------------------------------------------

  function WithoutSweeps(h: seq<CacheEvent>): seq<CacheEvent> {
    if h == [] then []
    else
      var init, e := WithoutSweeps(h[..|h| - 1]), h[|h| - 1];
      if e.Sweep? then init else init + [e]
  }

  /** Two maps that give the same answer at every instant from `now` on. */
  ghost predicate SameFrom(m: Entries, m': Entries, now: nat) {
    forall c: nat, f, t: nat | now <= t :: IsAuthorized(m, c, f, t) <==> IsAuthorized(m', c, f, t)
  }

  /** Sweeping at any points of a run changes no later answer. */
  lemma {:induction false} SweepingIsInvisible(ttl: Ttl, h: seq<CacheEvent>, now: nat)
    requires Chronological(h, now)
    ensures SameFrom(Replay(ttl, h), Replay(ttl, WithoutSweeps(h)), now)
  {
    if h != [] {
      var init, e := h[..|h| - 1], h[|h| - 1];
      var kept := WithoutSweeps(init);
      SweepingIsInvisible(ttl, init, if e.Clear? then now else e.at);
      if !e.Sweep? {
        assert (kept + [e])[..|kept|] == kept;
        assert Replay(ttl, WithoutSweeps(h)) == Apply(ttl, Replay(ttl, kept), e);
      }
      forall c: nat, f, t: nat | now <= t
        ensures IsAuthorized(Replay(ttl, h), c, f, t) <==> IsAuthorized(Replay(ttl, WithoutSweeps(h)), c, f, t)
      {
        var before := IsAuthorized(Replay(ttl, init), c, f, t) <==> IsAuthorized(Replay(ttl, kept), c, f, t);
        assert before;
      }
    }
  }

  // ---------------------------------------------------------------------------
  // The cache object
  // ---------------------------------------------------------------------------

  class Cache {
    var entries: Entries
    const ttl: Ttl
    ghost var history: seq<CacheEvent>

    ghost predicate Valid()
      reads this
    {
      entries == Replay(ttl, history)
    }

    constructor (signSeconds: nat, decryptSeconds: nat)
      ensures Valid() && history == [] && ttl == Ttl(signSeconds, decryptSeconds)
    {
      entries, ttl, history := map[], Ttl(signSeconds, decryptSeconds), [];
    }

    /** The answer agrees with the history of grants and clears. */
    method Authorized(context: nat, fingerprint: string, now: nat) returns (yes: bool)
      requires Valid() && Chronological(history, now) && KindFixed(history)
      ensures yes <==> Allowed(ttl, history, context, fingerprint, now)
    {
      if (context, fingerprint) in entries {
        yes := now < entries[(context, fingerprint)];
      } else {
        yes := false;
      }
      CacheRefinesHistory(ttl, history, context, fingerprint, now);
    }

    method GrantAt(context: nat, fingerprint: string, isDecrypt: bool, now: nat)
      requires Valid()
      modifies this
      ensures Valid() && history == old(history) + [Grant(context, fingerprint, isDecrypt, now)]
    {
      var lifetime := if isDecrypt then ttl.decrypt else ttl.sign;
      assert lifetime == ttl.For(isDecrypt);
      ghost var grant := Grant(context, fingerprint, isDecrypt, now);
      entries := entries[(context, fingerprint) := now + lifetime];
      assert entries == Apply(ttl, old(entries), grant);
      ReplayStep(ttl, history, Grant(context, fingerprint, isDecrypt, now));
      history := history + [Grant(context, fingerprint, isDecrypt, now)];
    }

    method ClearAll()
      requires Valid()
      modifies this
      ensures Valid() && entries == map[] && history == old(history) + [Clear]
    {
      entries := map[];
      ReplayStep(ttl, history, Clear);
      history := history + [Clear];
    }

    method SweepExpired(now: nat)
      requires Valid()
      modifies this
      ensures Valid() && history == old(history) + [Sweep(now)]
      ensures SameFrom(entries, old(entries), now)
      ensures forall key | key in entries :: now < entries[key]
    {
      entries := map key | key in entries && now < entries[key] :: entries[key];
      ReplayStep(ttl, history, Sweep(now));
      history := history + [Sweep(now)];
    }
  }
}
