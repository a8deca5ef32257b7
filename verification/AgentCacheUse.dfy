/**
 The cache in use: a request that may go by the cache does so exactly when the trace holds a grant for its key and
 context that still runs and was not cleared. The cache of the running agent is the one of its history.
 */
module AgentCacheUse {
  import opened Common
  import opened AncestorWalk
  import opened AgentMachine
  import opened AgentGuards
  import opened AgentAuthorization
  import AuthCache

  // ---------------------------------------------------------------------------
  // The trace as a history of the cache
  // ---------------------------------------------------------------------------

  function AsCacheEvent(e: Event): Option<AuthCache.CacheEvent> {
    match e
    case Granted(_, _, context, fp, isDecrypt, at, _) => Some(AuthCache.Grant(context, fp, isDecrypt, at))
    case CacheCleared(_, _) => Some(AuthCache.Clear)
    case CacheSwept(at) => Some(AuthCache.Sweep(at))
    case _ => None
  }

  function History(tr: Trace): seq<AuthCache.CacheEvent> {
    if tr == [] then []
    else
      var before := History(tr[..|tr| - 1]);
      match AsCacheEvent(tr[|tr| - 1]) case Some(e) => before + [e] case None => before
  }

  lemma HistoryStep(tr: Trace, e: Event)
    ensures History(tr + [e]) == match AsCacheEvent(e) case Some(x) => History(tr) + [x] case None => History(tr)
  {
    assert (tr + [e])[..|tr|] == tr;
  }

  lemma {:induction false} CacheIsReplay(ttl: AuthCache.Ttl, tr: Trace)
    ensures CacheOf(ttl, tr) == AuthCache.Replay(ttl, History(tr))
  {
    if tr != [] {
      var init, e := tr[..|tr| - 1], tr[|tr| - 1];
      CacheIsReplay(ttl, init);
      if AsCacheEvent(e).Some? { AuthCache.ReplayStep(ttl, History(init), AsCacheEvent(e).value); }
    }
  }

  /** Where event `j` of the trace stands in the history. */
  function Place(tr: Trace, j: nat): (i: nat)
    requires j < |tr| && AsCacheEvent(tr[j]).Some?
  {
    |History(tr[..j])|
  }

  lemma {:induction false} PlaceHolds(tr: Trace, j: nat)
    requires j < |tr| && AsCacheEvent(tr[j]).Some?
    ensures Place(tr, j) < |History(tr)| && History(tr)[Place(tr, j)] == AsCacheEvent(tr[j]).value
  {
    var n := |tr| - 1;
    if j < n {
      assert tr[..n][..j] == tr[..j] && tr[..n][j] == tr[j];
      PlaceHolds(tr[..n], j);
    }
  }

  /** Every entry of the history has its event in the trace, later entries later events. */
  lemma {:induction false} EventOf(tr: Trace, i: nat) returns (j: nat)
    requires i < |History(tr)|
    ensures j < |tr| && AsCacheEvent(tr[j]) == Some(History(tr)[i]) && Place(tr, j) == i
  {
    var n := |tr| - 1;
    var init := tr[..n];
    if i < |History(init)| {
      j := EventOf(init, i);
      assert tr[j] == init[j] && tr[..j] == init[..j];
    } else {
      j := n;
    }
  }

  lemma {:induction false} PlacesGrow(tr: Trace, j: nat, k: nat)
    requires j < k < |tr| && AsCacheEvent(tr[j]).Some? && AsCacheEvent(tr[k]).Some?
    ensures Place(tr, j) < Place(tr, k)
  {
    assert tr[..k][j] == tr[j] && tr[..k][..j] == tr[..j];
    PlaceHolds(tr[..k], j);
  }

  lemma NoClearInHistory(tr: Trace, g: nat, i: nat)
    requires g < |tr| && tr[g].Granted? && NoClearSince(tr, g) && Place(tr, g) < i < |History(tr)|
    ensures !History(tr)[i].Clear?
  {
    var j := EventOf(tr, i);
    if j < g { PlacesGrow(tr, j, g); }
  }

  lemma ClearInHistory(tr: Trace, g: nat, j: nat)
    requires g < j < |tr| && tr[g].Granted? && tr[j].CacheCleared?
    ensures !AuthCache.NotClearedSince(History(tr), Place(tr, g))
  {
    PlacesGrow(tr, g, j);
    PlaceHolds(tr, j);
  }

  lemma ClearsAgree(tr: Trace, g: nat)
    requires g < |tr| && tr[g].Granted?
    ensures NoClearSince(tr, g) <==> AuthCache.NotClearedSince(History(tr), Place(tr, g))
  {
    if NoClearSince(tr, g) {
      forall i | Place(tr, g) < i < |History(tr)| ensures !History(tr)[i].Clear? { NoClearInHistory(tr, g, i); }
    } else {
      var j :| g < j < |tr| && tr[j].CacheCleared?;
      ClearInHistory(tr, g, j);
    }
  }

  // ---------------------------------------------------------------------------
  // Time and kinds
  // ---------------------------------------------------------------------------

  ghost predicate Timely(s: System) {
    AuthCache.Chronological(History(s.trace), s.now)
  }

  lemma LocalIsTimely(c: Config, now: nat, procs: ProcessTable, t: nat, sh: Shared, k: Task, ch: Choice)
    requires TaskOk(k) && !k.pc.Idle? && Wants(k.pc).None?
    ensures var e := LocalEffect(c, now, procs, t, sh, k, ch).event;
      e.Some? && (e.value.Granted? || e.value.CacheSwept?) ==> e.value.at == now
  {
    match k.pc
    case AtAuth(_) => AuthIsTimely(c, now, procs, t, sh, k, ch);
    case AtSweep(_) => SweepIsTimely(c, now, t, sh, k);
    case AtLock(_) => LockGrantsNothing(t, sh, k, if k.op.LockAgent? then k.op.hash else []);
    case AtUnlock(_) => UnlockGrantsNothing(t, sh, k, if k.op.UnlockAgent? then k.op.hash else [], ch);
    case _ =>
  }

  lemma AuthIsTimely(c: Config, now: nat, procs: ProcessTable, t: nat, sh: Shared, k: Task, ch: Choice)
    requires k.pc.AtAuth? && Wants(k.pc).None?
    ensures var e := AuthEffect(c, now, procs, t, sh, k, k.pc.a, ch).event;
      e.Some? && (e.value.Granted? || e.value.CacheSwept?) ==> e.value.at == now
  {
  }

  lemma SweepIsTimely(c: Config, now: nat, t: nat, sh: Shared, k: Task)
    requires k.pc.AtSweep? && Wants(k.pc).None?
    ensures var e := SweepEffect(c, now, t, sh, k, k.pc.w).event;
      e.Some? && (e.value.Granted? || e.value.CacheSwept?) ==> e.value.at == now
  {
  }

  lemma LockGrantsNothing(t: nat, sh: Shared, k: Task, hash: Digest)
    requires k.pc.AtLock? && Wants(k.pc).None?
    ensures var e := LockEffect(t, sh, k, k.pc.l, hash).event; e.Some? ==> !e.value.Granted? && !e.value.CacheSwept?
  {
  }

  lemma UnlockGrantsNothing(t: nat, sh: Shared, k: Task, hash: Digest, ch: Choice)
    requires k.pc.AtUnlock? && Wants(k.pc).None?
    ensures var e := UnlockEffect(t, sh, k, k.pc.u, hash, ch).event; e.Some? ==> !e.value.Granted? && !e.value.CacheSwept?
  {
  }

  lemma CodeIsTimely(c: Config, s: System, t: nat, ch: Choice)
    requires GuardInv(s) && Timely(s) && Enabled(s, Local(t, ch))
    ensures Timely(Next(c, s, Local(t, ch)))
  {
    assert TaskOk(s.tasks[t]);
    LocalIsTimely(c, s.now, s.procs, t, s.shared, s.tasks[t], ch);
    var e := LocalEffect(c, s.now, s.procs, t, s.shared, s.tasks[t], ch).event;
    if e.Some? { EventIsTimely(s.trace, e.value, s.now); }
  }

  lemma StepIsTimely(c: Config, s: System, a: Label)
    requires GuardInv(s) && Timely(s) && Enabled(s, a)
    ensures Timely(Next(c, s, a))
  {
    if a.Tick? {
      AuthCache.ChronologicalLater(History(s.trace), s.now, a.now);
    } else if a.Arrive? {
      EventIsTimely(s.trace, Arrived(a.t, a.op, s.tasks[a.t].peer), s.now);
    } else if a.Local? {
      CodeIsTimely(c, s, a.t, a.choice);
    } else {
      assert Next(c, s, a).trace == s.trace && Next(c, s, a).now == s.now;
    }
  }

  lemma EventIsTimely(tr: Trace, e: Event, now: nat)
    requires AuthCache.Chronological(History(tr), now) && (e.Granted? || e.CacheSwept? ==> e.at == now)
    ensures AuthCache.Chronological(History(tr + [e]), now)
  {
    HistoryStep(tr, e);
    if AsCacheEvent(e).Some? {
      var h := History(tr) + [AsCacheEvent(e).value];
      assert h[..|h| - 1] == History(tr);
    }
  }

  lemma {:induction false} RunIsTimely(c: Config, s0: System, labels: seq<Label>)
    requires Init(s0) && Exec(c, s0, labels).Some?
    ensures Timely(Exec(c, s0, labels).value)
  {
    if labels != [] {
      var before := labels[..|labels| - 1];
      RunIsTimely(c, s0, before);
      GuardsAlwaysHold(c, s0, before);
      StepIsTimely(c, Exec(c, s0, before).value, labels[|labels| - 1]);
    }
  }

  lemma KindsAreFixed(c: Config, tr: Trace)
    requires TraceOk(c, tr)
    ensures AuthCache.KindFixed(History(tr))
  {
    var h := History(tr);
    forall i | 0 <= i < |h| && h[i].Grant? ensures h[i].isDecrypt <==> h[i].fingerprint == DECRYPT_FINGERPRINT {
      var j := EventOf(tr, i);
      assert EventOk(c, tr[..j], tr[j]);
    }
  }

  // ---------------------------------------------------------------------------
  // When the cache answers
  // ---------------------------------------------------------------------------

  /** Event `g` granted this context and fingerprint, its lifetime has not passed, and the cache was not cleared since. */
  ghost predicate Runs(c: Config, tr: Trace, g: nat, context: nat, fp: string, now: nat) {
    && g < |tr| && tr[g].Granted? && tr[g].context == context && tr[g].fingerprint == fp && NoClearSince(tr, g)
    && tr[g].at <= now < tr[g].at + (if tr[g].isDecrypt then c.ttl.decrypt else c.ttl.sign)
  }

  lemma AnswersAgree(c: Config, tr: Trace, context: nat, fp: string, now: nat)
    requires TraceOk(c, tr) && AuthCache.Chronological(History(tr), now)
    ensures AuthCache.IsAuthorized(CacheOf(c.ttl, tr), context, fp, now) <==> exists g :: Runs(c, tr, g, context, fp, now)
  {
    CacheIsReplay(c.ttl, tr);
    KindsAreFixed(c, tr);
    var h := History(tr);
    AuthCache.CacheRefinesHistory(c.ttl, h, context, fp, now);
    if AuthCache.Allowed(c.ttl, h, context, fp, now) {
      var i :| 0 <= i < |h| && AuthCache.Covers(c.ttl, h[i], context, fp, now) && AuthCache.NotClearedSince(h, i);
      var g := EventOf(tr, i);
      ClearsAgree(tr, g);
      assert Runs(c, tr, g, context, fp, now);
    }
    if g: nat :| Runs(c, tr, g, context, fp, now) {
      PlaceHolds(tr, g);
      ClearsAgree(tr, g);
      assert AuthCache.Covers(c.ttl, h[Place(tr, g)], context, fp, now);
    }
  }

  /** In every run, a request that asks the cache is let through without a touch if and only if some grant for its key
      and context still runs; otherwise it is sent to the prompt. */
  lemma CacheAnswersExactly(c: Config, s0: System, labels: seq<Label>, t: nat, ch: Choice)
    requires Init(s0) && Exec(c, s0, labels).Some? && Enabled(Exec(c, s0, labels).value, Local(t, ch))
    requires Exec(c, s0, labels).value.tasks[t].pc == AtAuth(HitRead)
    ensures var s := Exec(c, s0, labels).value;
      var k := s.tasks[t];
      var k' := Next(c, s, Local(t, ch)).tasks[t];
      && k.context.Some? && (k.op.Sign? || k.op.Decrypt?)
      && k'.pc == (if exists g :: Runs(c, s.trace, g, k.context.value, CacheFingerprint(k.op), s.now)
                   then AtAuth(Approve) else AtAuth(TouchToGrant))
  {
    var s := Exec(c, s0, labels).value;
    GuardsAlwaysHold(c, s0, labels);
    AuthAlwaysHolds(c, s0, labels);
    RunIsTimely(c, s0, labels);
    assert TaskOk(s.tasks[t]);
    AnswersAgree(c, s.trace, s.tasks[t].context.value, CacheFingerprint(s.tasks[t].op), s.now);
  }
}
