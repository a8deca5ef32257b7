/**
 The process-tree walk that turns a peer process into the cache context of per-app mode. The process table
 is arbitrary: it may be cyclic, have holes, or name parents that do not exist.
 */
module AncestorWalk {
  import opened Common

  type u32 = n: int | 0 <= n < 0x1_0000_0000
  type u64 = n: int | 0 <= n < 0x1_0000_0000_0000_0000
  type i32 = n: int | -0x8000_0000 <= n < 0x8000_0000

  datatype ProcInfo = ProcInfo(ppid: u32, tty: u32)

  datatype ProcessTable = ProcessTable(info: map<i32, ProcInfo>, paths: map<i32, string>)

  const APP_MARKER := ".app/Contents/"
  const MAX_WALK := 64

  /** The cast of an unsigned pid to a signed one, which wraps around. */
  function AsI32(n: u32): i32 {
    if n < 0x8000_0000 then n else n - 0x1_0000_0000
  }

  /** The cast of a signed pid to u64, which sign-extends. */
  function AsU64(n: i32): u64 {
    if n < 0 then n + 0x1_0000_0000_0000_0000 else n
  }

  predicate IsApp(t: ProcessTable, pid: i32) {
    pid in t.paths && Contains(t.paths[pid], APP_MARKER)
  }

  /** The next process of the walk, if there is one. */
  function Parent(t: ProcessTable, pid: i32): Option<i32> {
    if pid in t.info && t.info[pid].ppid > 0 && AsI32(t.info[pid].ppid) != pid
    then Some(AsI32(t.info[pid].ppid))
    else None
  }

  /** The process reached after `k` steps up from `peer`; the walk goes on only from pids above 1. */
  function Ancestor(t: ProcessTable, peer: i32, k: nat): Option<i32> {
    if k == 0 then Some(peer)
    else
      match Ancestor(t, peer, k - 1)
      case None => None
      case Some(pid) => if pid <= 1 then None else Parent(t, pid)
  }

  predicate AppAt(t: ProcessTable, peer: i32, k: nat) {
    var pid := Ancestor(t, peer, k);
    pid.Some? && pid.value > 1 && IsApp(t, pid.value)
  }

  /** The walk meets its first application after exactly `k` steps, within the bound. */
  ghost predicate FirstAppAt(t: ProcessTable, peer: i32, k: nat) {
    k < MAX_WALK && AppAt(t, peer, k) && forall j | 0 <= j < k :: !AppAt(t, peer, j)
  }

  function Fallback(t: ProcessTable, peer: i32): u64 {
    if peer in t.info then t.info[peer].ppid else AsU64(peer)
  }

  /** The number of steps to the first application among the steps from `k` on, if any. */
  function FirstApp(t: ProcessTable, peer: i32, k: nat): (r: Option<nat>)
    requires k <= MAX_WALK
    ensures r.Some? ==> k <= r.value < MAX_WALK && AppAt(t, peer, r.value) && forall j | k <= j < r.value :: !AppAt(t, peer, j)
    ensures r.None? ==> forall j | k <= j < MAX_WALK :: !AppAt(t, peer, j)
    decreases MAX_WALK - k
  {
    if k == MAX_WALK then None
    else if AppAt(t, peer, k) then Some(k)
    else FirstApp(t, peer, k + 1)
  }

  function AppPid(t: ProcessTable, peer: i32): u64 {
    match FirstApp(t, peer, 0)
    case Some(k) => AsU64(Ancestor(t, peer, k).value)
    case None => Fallback(t, peer)
  }

  function TtyOf(t: ProcessTable, peer: i32): u64 {
    if peer in t.info then t.info[peer].tty else 0
  }

  /** Once the walk has ended, it stays ended. */
  lemma WalkEnds(t: ProcessTable, peer: i32, k: nat, j: nat)
    requires k <= j && (Ancestor(t, peer, k).None? || Ancestor(t, peer, k).value <= 1)
    ensures !AppAt(t, peer, j)
    ensures k < j ==> Ancestor(t, peer, j).None?
    decreases j
  {
    if k < j {
      WalkEnds(t, peer, k, j - 1);
    }
  }

  /** The walk itself: at most 64 iterations, each looking at one process and moving to its parent. */
  method FindAppPid(t: ProcessTable, peer: i32) returns (result: u64)
    ensures forall k: nat | FirstAppAt(t, peer, k) :: result == Ancestor(t, peer, k).value
    ensures (forall k: nat | k < MAX_WALK :: !AppAt(t, peer, k)) ==> result == Fallback(t, peer)
    ensures result == AppPid(t, peer)
  {
    var current := peer;
    for k := 0 to MAX_WALK
      invariant Ancestor(t, peer, k) == Some(current)
      invariant forall j | 0 <= j < k :: !AppAt(t, peer, j)
    {
      if current <= 1 {
        forall j | k <= j < MAX_WALK ensures !AppAt(t, peer, j) { WalkEnds(t, peer, k, j); }
        break;
      }
      if current in t.paths && Contains(t.paths[current], APP_MARKER) {
        assert IsApp(t, current) && AppAt(t, peer, k);
        assert FirstApp(t, peer, 0) == Some(k);
        return AsU64(current);
      }
      assert !AppAt(t, peer, k);
      if current in t.info && t.info[current].ppid > 0 && AsI32(t.info[current].ppid) != current {
        current := AsI32(t.info[current].ppid);
      } else {
        forall j | k < j < MAX_WALK ensures !AppAt(t, peer, j) { WalkEnds(t, peer, k + 1, j); }
        break;
      }
    }
    result := if peer in t.info then t.info[peer].ppid else AsU64(peer);
  }

  lemma {:induction false} AncestorCompose(t: ProcessTable, peer: i32, m: nat, q: i32, k: nat)
    requires Ancestor(t, peer, m) == Some(q)
    ensures Ancestor(t, q, k) == Ancestor(t, peer, m + k)
  {
    if k > 0 {
      AncestorCompose(t, peer, m, q, k - 1);
    }
  }

  lemma AppAtCompose(t: ProcessTable, peer: i32, m: nat, q: i32, k: nat)
    requires Ancestor(t, peer, m) == Some(q)
    ensures AppAt(t, q, k) == AppAt(t, peer, m + k)
  {
    AncestorCompose(t, peer, m, q, k);
  }

  /** Two peers whose walks first reach the same application share one cache context. */
  lemma SameAppSameContext(t: ProcessTable, p: i32, q: i32, i: nat, j: nat)
    requires FirstAppAt(t, p, i) && FirstAppAt(t, q, j) && Ancestor(t, p, i) == Ancestor(t, q, j)
    ensures AppPid(t, p) == AppPid(t, q)
  {
    assert FirstApp(t, p, 0) == Some(i) && FirstApp(t, q, 0) == Some(j);
  }

  lemma FirstAppCompose(t: ProcessTable, peer: i32, m: nat, q: i32, k: nat)
    requires FirstAppAt(t, peer, m + k) && Ancestor(t, peer, m) == Some(q)
    ensures FirstAppAt(t, q, k)
  {
    forall j: nat | j <= k ensures AppAt(t, q, j) == (j == k) {
      AppAtCompose(t, peer, m, q, j);
      var i := m + j;
      assert i < m + k ==> !AppAt(t, peer, i);
    }
  }

  /** In particular every process on the way up to the application has the context of the peer below it. */
  lemma AncestorsShareContext(t: ProcessTable, peer: i32, k: nat, m: nat)
    requires FirstAppAt(t, peer, k) && m <= k
    ensures Ancestor(t, peer, m).Some? && AppPid(t, Ancestor(t, peer, m).value) == AppPid(t, peer)
  {
    if Ancestor(t, peer, m).None? {
      WalkEnds(t, peer, m, k);
    } else {
      var q := Ancestor(t, peer, m).value;
      var rest: nat := k - m;
      FirstAppCompose(t, peer, m, q, rest);
      AncestorCompose(t, peer, m, q, rest);
      SameAppSameContext(t, q, peer, rest, k);
    }
  }

  // ---------------------------------------------------------------------------
  // The two contexts, read off the process table
  // ---------------------------------------------------------------------------

  /** A list of processes, each but the first the parent of the one before it; the walk stops at pid 1. */
  ghost predicate ParentChain(t: ProcessTable, peer: i32, w: seq<i32>) {
    && w != [] && w[0] == peer && w[|w| - 1] > 1
    && forall j | 0 <= j < |w| - 1 ::
         && w[j] > 1 && w[j] in t.info && t.info[w[j]].ppid > 0 && w[j + 1] != w[j]
         && w[j + 1] == (if t.info[w[j]].ppid < 0x8000_0000 then t.info[w[j]].ppid else t.info[w[j]].ppid - 0x1_0000_0000)
  }

  ghost predicate InBundle(t: ProcessTable, pid: i32) {
    pid in t.paths && Contains(t.paths[pid], ".app/Contents/")
  }

  /** The chain ends at the first process of an application bundle, at most 64 processes up. */
  ghost predicate ChainToApp(t: ProcessTable, peer: i32, w: seq<i32>) {
    ParentChain(t, peer, w) && |w| <= 64 && InBundle(t, w[|w| - 1]) && forall j | 0 <= j < |w| - 1 :: !InBundle(t, w[j])
  }

  /** In per-app mode: the application's pid, else the pid of the parent, else the peer's own. */
  ghost predicate IsAppContext(t: ProcessTable, peer: i32, context: int) {
    if exists w :: ChainToApp(t, peer, w) then exists w :: ChainToApp(t, peer, w) && context == w[|w| - 1]
    else if peer in t.info then context == t.info[peer].ppid
    else context == if peer < 0 then peer + 0x1_0000_0000_0000_0000 else peer
  }

  /** In per-session mode: the terminal of the peer, 0 if the peer is not known. */
  ghost predicate IsTtyContext(t: ProcessTable, peer: i32, context: int) {
    (peer in t.info && context == t.info[peer].tty) || (peer !in t.info && context == 0)
  }

  lemma {:induction false} ChainIsWalk(t: ProcessTable, peer: i32, w: seq<i32>, k: nat)
    requires ParentChain(t, peer, w) && k < |w|
    ensures Ancestor(t, peer, k) == Some(w[k]) && w[k] > 1
  {
    if k > 0 { ChainIsWalk(t, peer, w, k - 1); }
  }

  lemma {:induction false} WalkIsChain(t: ProcessTable, peer: i32, k: nat) returns (w: seq<i32>)
    requires Ancestor(t, peer, k).Some? && Ancestor(t, peer, k).value > 1
    ensures |w| == k + 1 && ParentChain(t, peer, w)
  {
    if k == 0 {
      w := [peer];
    } else {
      w := WalkIsChain(t, peer, k - 1);
      ChainIsWalk(t, peer, w, k - 1);
      w := w + [Ancestor(t, peer, k).value];
    }
  }

  lemma ChainMeetsApp(t: ProcessTable, peer: i32, w: seq<i32>)
    requires ChainToApp(t, peer, w)
    ensures FirstAppAt(t, peer, |w| - 1) && Ancestor(t, peer, |w| - 1) == Some(w[|w| - 1])
  {
    ChainIsWalk(t, peer, w, |w| - 1);
    forall j | 0 <= j < |w| - 1 ensures !AppAt(t, peer, j) { ChainIsWalk(t, peer, w, j); }
  }

  lemma AppHasChain(t: ProcessTable, peer: i32, k: nat) returns (w: seq<i32>)
    requires FirstAppAt(t, peer, k)
    ensures ChainToApp(t, peer, w) && |w| == k + 1
  {
    w := WalkIsChain(t, peer, k);
    forall j | 0 <= j <= k ensures InBundle(t, w[j]) <==> j == k {
      ChainIsWalk(t, peer, w, j);
      assert AppAt(t, peer, j) <==> j == k;
    }
  }

  /** The walk finds the context of per-app mode. */
  lemma AppPidIsContext(t: ProcessTable, peer: i32)
    ensures IsAppContext(t, peer, AppPid(t, peer))
  {
    match FirstApp(t, peer, 0)
    case Some(k) =>
      var w := AppHasChain(t, peer, k);
      ChainMeetsApp(t, peer, w);
    case None =>
      forall w ensures !ChainToApp(t, peer, w) {
        if ChainToApp(t, peer, w) { ChainMeetsApp(t, peer, w); }
      }
  }

  lemma TtyIsContext(t: ProcessTable, peer: i32)
    ensures IsTtyContext(t, peer, TtyOf(t, peer))
  {
  }
}
