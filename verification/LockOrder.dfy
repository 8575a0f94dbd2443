/** The three mutexes: which of them each thread holds and waits for, from call to call, and
    that nobody ever waits in a circle. `sq_lock` comes before the two others, of which no
    thread takes both. Here a step is the taking or giving back of a lock; a `cond_wait` is a
    giving back and, some time later, a taking. */
module LockOrder {

  datatype Lock = SqLock | CqLock | WorkListLock

  datatype Role = Client | Worker | OtherCaller

  /** Under which call `post_cqe` or `queue_work` runs: `gw_ring_submit`, which holds `sq_lock`,
      a worker's `func`, or none. */
  datatype Under = Submit | Func | Nothing

  /** Where a thread stands between two operations on a lock. `…Want` is inside `mutex_lock`, or
      on the way back from `cond_wait`. */
  datatype Place =
    | Outside
    | GetSqeWant | GetSqeIn
    | SubmitWant | SubmitIn
    | PostWant(under: Under) | PostIn(under: Under)
    | QueueWant(under: Under) | QueueIn(under: Under) | QueueSleep(under: Under)
    | WaitCqeWant | WaitCqeIn | WaitCqeSleep
    | StopWantSq | StopWantCq | StopIn | StopLeaving
    | DestroyWant | DestroyIn | Joining(worker: nat) | DestroyAgainWant | DestroyAgainIn
    | DrainWant | DrainIn | DrainSleep
    | WorkerWant | WorkerIn | WorkerSleep | FuncRuns | DeleterRuns | Exited

  datatype Thread = Thread(role: Role, place: Place)

  type State = seq<Thread>

  function HeldUnder(under: Under): set<Lock> {
    if under.Submit? then {SqLock} else {}
  }

  function Held(p: Place): set<Lock> {
    match p
    case GetSqeIn => {SqLock}
    case SubmitIn => {SqLock}
    case PostWant(under) => HeldUnder(under)
    case PostIn(under) => HeldUnder(under) + {CqLock}
    case QueueWant(under) => HeldUnder(under)
    case QueueIn(under) => HeldUnder(under) + {WorkListLock}
    case QueueSleep(under) => HeldUnder(under)
    case WaitCqeIn => {CqLock}
    case StopWantCq => {SqLock}
    case StopIn => {SqLock, CqLock}
    case StopLeaving => {SqLock}
    case DestroyIn => {WorkListLock}
    case DestroyAgainIn => {WorkListLock}
    case DrainIn => {WorkListLock}
    case WorkerIn => {WorkListLock}
    case _ => {}
  }

  /** The locks a thread is inside `mutex_lock` for: none or one. */
  function Wants(p: Place): set<Lock> {
    if p.GetSqeWant? || p.SubmitWant? || p.StopWantSq? then {SqLock}
    else if p.PostWant? || p.WaitCqeWant? || p.StopWantCq? then {CqLock}
    else if p.QueueWant? || p.DestroyWant? || p.DestroyAgainWant? || p.DrainWant? || p.WorkerWant? then {WorkListLock}
    else {}
  }

  predicate Sleeps(p: Place) {
    p.QueueSleep? || p.WaitCqeSleep? || p.DrainSleep? || p.WorkerSleep?
  }

  // ---------------------------------------------------------------- the control flow

  /** Back from `post_cqe` or `queue_work`. */
  function Return(under: Under): Place {
    match under
    case Submit => SubmitIn
    case Func => FuncRuns
    case Nothing => Outside
  }

  /** One step of the ring's client. */
  predicate ClientFlow(p: Place, q: Place) {
    match p
    case Outside => q in {GetSqeWant, SubmitWant, WaitCqeWant, StopWantSq}
    case GetSqeWant => q == GetSqeIn
    case GetSqeIn => q == Outside
    case SubmitWant => q == SubmitIn
    case SubmitIn => q in {PostWant(Submit), QueueWant(Submit), SubmitIn, Outside}
    case WaitCqeWant => q == WaitCqeIn
    case WaitCqeIn => q in {WaitCqeSleep, Outside}
    case WaitCqeSleep => q == WaitCqeWant
    case StopWantSq => q == StopWantCq
    case StopWantCq => q == StopIn
    case StopIn => q == StopLeaving
    case StopLeaving => q == DestroyWant
    case DestroyWant => q == DestroyIn
    case DestroyIn => q.Joining? || q == DestroyAgainWant
    case Joining(w) => (q.Joining? && q.worker > w) || q == DestroyAgainWant
    case DestroyAgainWant => q == DestroyAgainIn
    case DestroyAgainIn => q == Exited
    case _ => PostFlow(Submit, p, q) || QueueFlow(Submit, p, q)
  }

  predicate PostFlow(under: Under, p: Place, q: Place) {
    || (p == PostWant(under) && q == PostIn(under))
    || (p == PostIn(under) && q == Return(under))
  }

  predicate QueueFlow(under: Under, p: Place, q: Place) {
    || (p == QueueWant(under) && q == QueueIn(under))
    || (p == QueueIn(under) && (q == QueueSleep(under) || q == Return(under)))
    || (p == QueueSleep(under) && q == QueueWant(under))
  }

  /** `worker_func`; `func` may post a completion. */
  predicate WorkerFlow(p: Place, q: Place) {
    match p
    case Outside => q == WorkerWant
    case WorkerWant => q == WorkerIn
    case WorkerIn => q in {WorkerSleep, FuncRuns, Exited}
    case WorkerSleep => q == WorkerWant
    case FuncRuns => q in {PostWant(Func), DeleterRuns}
    case DeleterRuns => q == WorkerWant
    case _ => PostFlow(Func, p, q)
  }

  /** Any other thread that queues works or waits for all of them. */
  predicate OtherFlow(p: Place, q: Place) {
    match p
    case Outside => q in {QueueWant(Nothing), DrainWant}
    case DrainWant => q == DrainIn
    case DrainIn => q in {DrainSleep, Outside}
    case DrainSleep => q == DrainWant
    case _ => QueueFlow(Nothing, p, q)
  }

  predicate Flow(role: Role, p: Place, q: Place) {
    match role
    case Client => ClientFlow(p, q)
    case Worker => WorkerFlow(p, q)
    case OtherCaller => OtherFlow(p, q)
  }

  // ---------------------------------------------------------------- steps and runs

  /** Whether nobody but `t` holds any of `locks`. */
  predicate Available(s: State, t: nat, locks: set<Lock>) {
    forall u :: 0 <= u < |s| && u != t ==> Held(s[u].place) !! locks
  }

  predicate HasExited(s: State, t: nat) {
    t < |s| ==> s[t].place.Exited?
  }

  /** Thread `t` goes to `q`: a lock it takes is free, a thread it has joined has exited. */
  predicate CanGo(s: State, t: nat, q: Place) {
    && t < |s| && Flow(s[t].role, s[t].place, q)
    && Available(s, t, Held(q) - Held(s[t].place))
    && (s[t].place.Joining? ==> HasExited(s, s[t].place.worker))
    && (q.Joining? ==> q.worker < |s| && s[q.worker].role.Worker?)
  }

  function Go(s: State, t: nat, q: Place): State
    requires t < |s|
  {
    s[t := s[t].(place := q)]
  }

  /** Thread `t` goes to `place`. */
  datatype Move = Move(t: nat, place: Place)

  ghost predicate IsLockRun(states: seq<State>, moves: seq<Move>) {
    && |states| == |moves| + 1
    && forall k {:trigger moves[k]} :: 0 <= k < |moves| ==>
         CanGo(states[k], moves[k].t, moves[k].place)
         && states[k + 1] == Go(states[k], moves[k].t, moves[k].place)
  }

  /** Every thread outside, and one client. */
  predicate IsLockInit(s: State) {
    && (forall t :: 0 <= t < |s| ==> s[t].place.Outside?)
    && (forall t, u :: 0 <= t < u < |s| ==> !(s[t].role.Client? && s[u].role.Client?))
  }

  ghost predicate ReachableLocks(s: State) {
    exists states: seq<State>, moves: seq<Move> ::
      IsLockRun(states, moves) && IsLockInit(states[0]) && states[|moves|] == s
  }

  // ---------------------------------------------------------------- the invariant

  /** The places a thread of each role can be at. */
  predicate PlaceFits(role: Role, p: Place) {
    match role
    case Client => !p.DrainWant? && !p.DrainIn? && !p.DrainSleep? && !p.WorkerWant? && !p.WorkerIn?
      && !p.WorkerSleep? && !p.FuncRuns? && !p.DeleterRuns?
      && (p.PostWant? || p.PostIn? || p.QueueWant? || p.QueueIn? || p.QueueSleep? ==> p.under.Submit?)
    case Worker => p in {Outside, PostWant(Func), PostIn(Func), WorkerWant, WorkerIn, WorkerSleep, FuncRuns,
                         DeleterRuns, Exited}
    case OtherCaller => p in {Outside, QueueWant(Nothing), QueueIn(Nothing), QueueSleep(Nothing), DrainWant, DrainIn,
                              DrainSleep}
  }

  ghost predicate LockInv(s: State) {
    // every lock is held by one thread at most
    && (forall t, u :: 0 <= t < u < |s| ==> Held(s[t].place) !! Held(s[u].place))
    && (forall t :: 0 <= t < |s| ==> PlaceFits(s[t].role, s[t].place))
    && (forall t, u :: 0 <= t < u < |s| ==> !(s[t].role.Client? && s[u].role.Client?))
    && (forall t :: 0 <= t < |s| && s[t].place.Joining? ==>
          s[t].place.worker < |s| && s[s[t].place.worker].role.Worker?)
  }

  lemma FlowFits(role: Role, p: Place, q: Place)
    requires Flow(role, p, q) && PlaceFits(role, p)
    ensures PlaceFits(role, q)
  {
    if role.Client? {
      ClientFlowFits(p, q);
    }
    hide ClientFlow;
  }

  lemma ClientFlowFits(p: Place, q: Place)
    requires ClientFlow(p, q) && PlaceFits(Client, p)
    ensures PlaceFits(Client, q)
  {
  }

  lemma InitHasLockInv(s: State)
    requires IsLockInit(s)
    ensures LockInv(s)
  {
  }

  lemma StepKeepsLockInv(s: State, t: nat, q: Place)
    requires LockInv(s) && CanGo(s, t, q)
    ensures LockInv(Go(s, t, q))
  {
    FlowFits(s[t].role, s[t].place, q);
    hide Flow, PlaceFits, Held;
    var s' := Go(s, t, q);
    forall a, b | 0 <= a < b < |s'| ensures Held(s'[a].place) !! Held(s'[b].place) {
      assert Held(s[a].place) !! Held(s[b].place);
      var taken := Held(q) - Held(s[t].place);
      if a == t {
        assert Held(s[b].place) !! taken;
      } else if b == t {
        assert Held(s[a].place) !! taken;
      }
    }
  }

  lemma {:induction false} RunKeepsLockInv(states: seq<State>, moves: seq<Move>, n: nat)
    requires IsLockRun(states, moves) && IsLockInit(states[0]) && n <= |moves|
    ensures LockInv(states[n])
  {
    if n == 0 {
      InitHasLockInv(states[0]);
    } else {
      hide CanGo, Go, LockInv, IsLockInit;
      RunKeepsLockInv(states, moves, n - 1);
      var m := moves[n - 1];
      StepKeepsLockInv(states[n - 1], m.t, m.place);
    }
  }

  /** Mutual exclusion, at every point of every run. */
  lemma LocksAreExclusive(s: State, t: nat, u: nat)
    requires ReachableLocks(s) && t < u < |s|
    ensures Held(s[t].place) !! Held(s[u].place)
  {
    ReachableHasLockInv(s);
  }

  lemma ReachableHasLockInv(s: State)
    requires ReachableLocks(s)
    ensures LockInv(s)
  {
    var states: seq<State>, moves: seq<Move> :|
      IsLockRun(states, moves) && IsLockInit(states[0]) && states[|moves|] == s;
    RunKeepsLockInv(states, moves, |moves|);
  }

  // ---------------------------------------------------------------- waiting

  /** `t` waits for a lock that `u` holds, or for `u` to exit. */
  predicate WaitsFor(s: State, t: nat, u: nat)
    requires t < |s| && u < |s|
  {
    || (t != u && Wants(s[t].place) * Held(s[u].place) != {})
    || (s[t].place == Joining(u) && !s[u].place.Exited?)
  }

  /** How far up in the lock order a thread is waiting. */
  function Rank(p: Place): nat {
    if p.Joining? then 1
    else if SqLock in Wants(p) then 2
    else if Wants(p) != {} then 3
    else 4
  }

  /** Whoever is waited for is itself waiting higher up, if at all. */
  lemma WaitingAscends(s: State, t: nat, u: nat)
    requires LockInv(s) && t < |s| && u < |s| && WaitsFor(s, t, u)
    ensures Rank(s[t].place) < Rank(s[u].place)
  {
    assert PlaceFits(s[u].role, s[u].place);
  }

  ghost predicate IsWaitPath(s: State, path: seq<nat>) {
    && |path| >= 1
    && (forall k :: 0 <= k < |path| ==> path[k] < |s|)
    && forall k :: 0 <= k < |path| - 1 ==> WaitsFor(s, path[k], path[k + 1])
  }

  lemma {:induction false} PathAscends(s: State, path: seq<nat>)
    requires LockInv(s) && IsWaitPath(s, path)
    ensures Rank(s[path[0]].place) + |path| - 1 <= Rank(s[path[|path| - 1]].place)
  {
    hide LockInv, Rank, WaitsFor;
    if |path| > 1 {
      var rest := path[1..];
      assert forall k :: 0 <= k < |rest| ==> rest[k] == path[k + 1];
      PathAscends(s, rest);
      WaitingAscends(s, path[0], path[1]);
    }
  }

  /** No deadlock: nobody waits, directly or through others, for itself; and no chain of
      waiting threads is longer than three. */
  lemma WaitGraphAcyclic(s: State, path: seq<nat>)
    requires ReachableLocks(s) && IsWaitPath(s, path) && |path| > 1
    ensures path[0] != path[|path| - 1] && |path| <= 4
  {
    ReachableHasLockInv(s);
    PathAscends(s, path);
  }

  /** A worker neither takes nor waits for `sq_lock`. The thread it waits for is running: not
      asleep on a condition and not waiting for another lock. So a client asleep in
      `queue_work`, with `sq_lock` held, never stops a worker from completing its work or
      posting its completion. */
  lemma WorkersWaitForRunningThreads(s: State, t: nat, u: nat)
    requires ReachableLocks(s) && t < |s| && s[t].role.Worker?
    ensures SqLock !in Held(s[t].place) + Wants(s[t].place)
    ensures u < |s| && WaitsFor(s, t, u) ==>
              !Sleeps(s[u].place) && !s[u].place.Joining? && Wants(s[u].place) == {}
  {
    ReachableHasLockInv(s);
    assert PlaceFits(s[t].role, s[t].place);
    if u < |s| { assert PlaceFits(s[u].role, s[u].place); }
  }

  /** Nobody at all waits for a lock whose holder sleeps: the one lock held across a
      `cond_wait` is `sq_lock`, which only the sleeper itself takes. */
  lemma NobodyWaitsForSleepers(s: State, t: nat, u: nat)
    requires ReachableLocks(s) && t < |s| && u < |s| && t != u && Sleeps(s[u].place)
    ensures Wants(s[t].place) !! Held(s[u].place)
  {
    ReachableHasLockInv(s);
    assert PlaceFits(s[u].role, s[u].place) && PlaceFits(s[t].role, s[t].place);
    assert t < u ==> !(s[t].role.Client? && s[u].role.Client?);
    assert u < t ==> !(s[u].role.Client? && s[t].role.Client?);
  }

  /** Where a thread that holds a lock, and is not waiting or asleep, can always go. */
  function Onward(p: Place): Place {
    match p
    case PostIn(under) => Return(under)
    case QueueIn(under) => Return(under)
    case StopIn => StopLeaving
    case StopLeaving => DestroyWant
    case DestroyIn => DestroyAgainWant
    case DestroyAgainIn => Exited
    case WorkerIn => Exited
    case _ => Outside
  }

  lemma HolderCanMove(s: State, u: nat)
    requires LockInv(s) && u < |s|
    requires Held(s[u].place) != {} && Wants(s[u].place) == {} && !Sleeps(s[u].place)
    ensures CanGo(s, u, Onward(s[u].place))
  {
    var p := s[u].place;
    assert PlaceFits(s[u].role, p);
    assert Held(Onward(p)) - Held(p) == {};
  }

  /** The place after `mutex_lock`, or after `cond_wait`. */
  function Taken(p: Place): Place {
    match p
    case GetSqeWant => GetSqeIn
    case SubmitWant => SubmitIn
    case PostWant(under) => PostIn(under)
    case QueueWant(under) => QueueIn(under)
    case WaitCqeWant => WaitCqeIn
    case StopWantSq => StopWantCq
    case StopWantCq => StopIn
    case DestroyWant => DestroyIn
    case DestroyAgainWant => DestroyAgainIn
    case DrainWant => DrainIn
    case WorkerWant => WorkerIn
    case _ => p
  }

  lemma WaiterCanMove(s: State, t: nat)
    requires LockInv(s) && t < |s| && Wants(s[t].place) != {}
    requires Available(s, t, Wants(s[t].place))
    ensures CanGo(s, t, Taken(s[t].place))
  {
    var p := s[t].place;
    assert PlaceFits(s[t].role, p);
    assert Held(Taken(p)) - Held(p) <= Wants(p);
  }

  /** Whenever a thread waits for a lock, someone the wait comes down to can move: the thread
      itself, the holder of its lock, or the holder of the lock that holder waits for. */
  lemma SomeoneCanMove(s: State, t: nat) returns (u: nat, q: Place)
    requires ReachableLocks(s) && t < |s| && Wants(s[t].place) != {}
    ensures CanGo(s, u, q)
    ensures u == t || WaitsFor(s, t, u) || exists v: nat :: v < |s| && WaitsFor(s, t, v) && WaitsFor(s, v, u)
  {
    ReachableHasLockInv(s);
    u, q := t, Taken(s[t].place);
    if Available(s, t, Wants(s[t].place)) {
      WaiterCanMove(s, t);
      return;
    }
    u := HolderFor(s, t);
    if Wants(s[u].place) == {} {
      HolderCanMove(s, u);
      q := Onward(s[u].place);
      return;
    }
    var v := u;
    if Available(s, v, Wants(s[v].place)) {
      WaiterCanMove(s, v);
      q := Taken(s[v].place);
      return;
    }
    u := HolderFor(s, v);
    WaitingAscends(s, t, v);
    WaitingAscends(s, v, u);
    HolderCanMove(s, u);
    q := Onward(s[u].place);
  }

  /** Who holds the lock `t` waits for. */
  lemma HolderFor(s: State, t: nat) returns (u: nat)
    requires ReachableLocks(s) && t < |s| && !Available(s, t, Wants(s[t].place))
    ensures u < |s| && WaitsFor(s, t, u) && Held(s[u].place) != {} && !Sleeps(s[u].place)
  {
    u :| u < |s| && u != t && !(Held(s[u].place) !! Wants(s[t].place));
    if Sleeps(s[u].place) { NobodyWaitsForSleepers(s, t, u); }
    var l :| l in Held(s[u].place) && l in Wants(s[t].place);
    assert l in Wants(s[t].place) * Held(s[u].place);
  }
}
