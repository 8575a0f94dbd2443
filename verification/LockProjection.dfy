/** The transition system of ring and queue, seen as a run over the three mutexes: between its
    steps every thread stands at a place of `LockOrder`, and every step is a run there. */
module LockProjection {
  import opened WorkQueueModel
  import opened RingModel
  import RingInvariant
  import RingSafety
  import RingShutdown
  import L = LockOrder

  function ClientPlace(s: System): L.Place {
    match s.client
    case Idle => L.Outside
    case Submitting => L.SubmitIn
    case Blocked =>
      if CLIENT in s.wq.queuers && s.wq.queuers[CLIENT].wait.Roused? then L.QueueWant(L.Submit)
      else L.QueueSleep(L.Submit)
    case CqWait(wait) => if wait.Roused? then L.WaitCqeWant else L.WaitCqeSleep
  }

  function WorkerPlace(p: Phase): L.Place {
    match p
    case Free => L.Outside
    case Starting => L.Outside
    case Asleep => L.WorkerSleep
    case Woken => L.WorkerWant
    case Executing(_) => L.FuncRuns
    case Deleting(_) => L.DeleterRuns
    case Done(_) => L.WorkerWant
    case Exited => L.Exited
  }

  /** The client, and after it the worker slots. */
  function Project(s: System): L.State {
    [L.Thread(L.Client, ClientPlace(s))]
    + seq(|s.wq.workers|, w requires 0 <= w < |s.wq.workers| => L.Thread(L.Worker, WorkerPlace(s.wq.workers[w])))
  }

  // ---------------------------------------------------------------- paths over the locks

  ghost predicate Path(s: L.State, s': L.State) {
    exists states: seq<L.State>, moves: seq<L.Move> ::
      L.IsLockRun(states, moves) && states[0] == s && states[|moves|] == s'
  }

  lemma NoPath(s: L.State)
    ensures Path(s, s)
  {
    var states: seq<L.State>, moves: seq<L.Move> := [s], [];
    assert L.IsLockRun(states, moves);
  }

  lemma PathThenMove(s: L.State, s': L.State, t: nat, q: L.Place)
    requires Path(s, s') && L.CanGo(s', t, q)
    ensures Path(s, L.Go(s', t, q))
  {
    hide L.Flow, L.Available;
    var states: seq<L.State>, moves: seq<L.Move> :|
      L.IsLockRun(states, moves) && states[0] == s && states[|moves|] == s';
    var states', moves' := states + [L.Go(s', t, q)], moves + [L.Move(t, q)];
    forall k {:trigger moves'[k]} | 0 <= k < |moves'|
      ensures L.CanGo(states'[k], moves'[k].t, moves'[k].place)
      ensures states'[k + 1] == L.Go(states'[k], moves'[k].t, moves'[k].place)
    {
      if k < |moves| { assert moves'[k] == moves[k]; }
    }
    assert L.IsLockRun(states', moves') && states'[0] == s && states'[|moves'|] == L.Go(s', t, q);
  }

  /** What a thread goes through in one step, the first place being where it stands. */
  ghost predicate IsRoute(role: L.Role, route: seq<L.Place>) {
    && route != []
    && forall i :: 0 <= i < |route| - 1 ==> IsLeg(role, route, i)
  }

  predicate IsLeg(role: L.Role, route: seq<L.Place>, i: int)
    requires 0 <= i < |route| - 1
  {
    L.Flow(role, route[i], route[i + 1]) && !route[i].Joining? && !route[i + 1].Joining?
  }

  lemma RestIsRoute(role: L.Role, route: seq<L.Place>)
    requires IsRoute(role, route) && |route| > 1
    ensures IsRoute(role, route[1..])
  {
    hide L.Flow;
    var rest := route[1..];
    forall i | 0 <= i < |rest| - 1 ensures IsLeg(role, rest, i) {
      assert IsLeg(role, route, i + 1);
      assert rest[i] == route[i + 1] && rest[i + 1] == route[i + 2];
    }
  }

  /** No other thread holds what thread `t` takes on its way. */
  ghost predicate IsClear(s: L.State, t: nat, route: seq<L.Place>) {
    forall u, i :: 0 <= u < |s| && u != t && 0 <= i < |route| ==> L.Held(s[u].place) !! L.Held(route[i])
  }

  lemma {:induction false} RouteIsPath(s0: L.State, s: L.State, t: nat, route: seq<L.Place>)
    requires t < |s| && IsRoute(s[t].role, route) && s[t].place == route[0] && IsClear(s, t, route)
    requires Path(s0, s)
    ensures Path(s0, s[t := s[t].(place := route[|route| - 1])])
    decreases |route|
  {
    hide Path, L.Flow, L.Held;
    if |route| == 1 {
      assert s[t := s[t].(place := route[0])] == s;
    } else {
      var q, rest := route[1], route[1..];
      assert IsLeg(s[t].role, route, 0);
      var s' := L.Go(s, t, q);
      assert L.CanGo(s, t, q) by { CanGoOn(s, t, q); }
      PathThenMove(s0, s, t, q);
      RestIsRoute(s[t].role, route);
      forall u, i | 0 <= u < |s'| && u != t && 0 <= i < |rest|
        ensures L.Held(s'[u].place) !! L.Held(rest[i])
      {
        assert rest[i] == route[i + 1];
      }
      RouteIsPath(s0, s', t, rest);
      assert s'[t := s'[t].(place := rest[|rest| - 1])] == s[t := s[t].(place := route[|route| - 1])];
    }
  }

  lemma CanGoOn(s: L.State, t: nat, q: L.Place)
    requires t < |s| && L.Flow(s[t].role, s[t].place, q) && !s[t].place.Joining? && !q.Joining?
    requires forall u :: 0 <= u < |s| && u != t ==> L.Held(s[u].place) !! L.Held(q)
    ensures L.CanGo(s, t, q)
  {
    hide L.Flow, L.Held;
  }

  /** A thread stays where it is, or is woken. */
  predicate StaysOrWakes(p: L.Place, q: L.Place) {
    || q == p
    || (p == L.QueueSleep(L.Submit) && q == L.QueueWant(L.Submit))
    || (p == L.WaitCqeSleep && q == L.WaitCqeWant)
    || (p == L.WorkerSleep && q == L.WorkerWant)
  }

  ghost predicate OnlyWakes(s: L.State, s': L.State) {
    && |s'| == |s|
    && forall u :: 0 <= u < |s| ==>
         s'[u].role == s[u].role && StaysOrWakes(s[u].place, s'[u].place) && L.PlaceFits(s[u].role, s[u].place)
  }

  lemma WakingIsAMove(s: L.State, u: nat, q: L.Place)
    requires u < |s| && StaysOrWakes(s[u].place, q) && q != s[u].place && L.PlaceFits(s[u].role, s[u].place)
    ensures L.CanGo(s, u, q)
  {
    assert L.Held(q) - L.Held(s[u].place) == {};
  }

  lemma {:induction false} WakesArePath(s0: L.State, s: L.State, s': L.State, n: nat)
    requires Path(s0, s) && OnlyWakes(s, s') && n <= |s|
    ensures Path(s0, s'[..n] + s[n..])
  {
    hide Path, StaysOrWakes, L.PlaceFits;
    if n == 0 {
      assert s'[..0] + s[0..] == s;
    } else {
      WakesArePath(s0, s, s', n - 1);
      var mid, u := s'[..n - 1] + s[n - 1..], n - 1;
      assert mid[u] == s[u];
      if s'[u] == s[u] {
        assert s'[..n] + s[n..] == mid;
      } else {
        assert s'[u].place != s[u].place;
        WakingIsAMove(mid, u, s'[u].place);
        PathThenMove(s0, mid, u, s'[u].place);
        assert L.Go(mid, u, s'[u].place) == s'[..n] + s[n..];
      }
    }
  }

  // ---------------------------------------------------------------- the steps

  /** The step of thread `t` along `route`, after which other threads have been woken, takes `s`
      to `s'`. */
  ghost predicate Projects(s: System, s': System, t: nat, route: seq<L.Place>) {
    var p, p' := Project(s), Project(s');
    && t < |p| && route != []
    && IsRoute(p[t].role, route) && p[t].place == route[0] && IsClear(p, t, route)
    && OnlyWakes(p[t := p[t].(place := route[|route| - 1])], p')
  }

  lemma ProjectsIsPath(s0: L.State, s: System, s': System, t: nat, route: seq<L.Place>)
    requires Projects(s, s', t, route) && Path(s0, Project(s))
    ensures Path(s0, Project(s'))
  {
    hide Path, IsRoute, IsClear, OnlyWakes;
    var p, p' := Project(s), Project(s');
    var mid := p[t := p[t].(place := route[|route| - 1])];
    RouteIsPath(s0, p, t, route);
    assert |mid| == |p'| by { hide StaysOrWakes; SameLength(mid, p'); }
    WakesArePath(s0, mid, p', |mid|);
    assert p'[..|mid|] + mid[|mid|..] == p';
  }

  lemma SameLength(s: L.State, s': L.State)
    requires OnlyWakes(s, s')
    ensures |s'| == |s|
  {
  }

  /** What the threads other than the mover may find done to them. */
  ghost predicate WorkersWake(ws: seq<Phase>, ws': seq<Phase>) {
    && |ws'| == |ws|
    && forall w :: 0 <= w < |ws| ==> StaysOrWakes(WorkerPlace(ws[w]), WorkerPlace(ws'[w]))
  }

  /** A step of the client, with the workers woken or not. */
  lemma ClientProjects(s: System, s': System, route: seq<L.Place>)
    requires route != [] && IsRoute(L.Client, route)
    requires route[0] == ClientPlace(s)
    requires StaysOrWakes(route[|route| - 1], ClientPlace(s')) && L.PlaceFits(L.Client, route[|route| - 1])
    requires WorkersWake(s.wq.workers, s'.wq.workers)
    ensures Projects(s, s', 0, route)
  {
    hide IsRoute, StaysOrWakes;
    var p := Project(s);
    forall u, i | 0 <= u < |p| && u != 0 && 0 <= i < |route| ensures L.Held(p[u].place) !! L.Held(route[i]) {
      assert p[u] == L.Thread(L.Worker, WorkerPlace(s.wq.workers[u - 1]));
      assert L.Held(p[u].place) == {};
    }
    var mid := p[0 := p[0].(place := route[|route| - 1])];
    forall u | 0 <= u < |mid|
      ensures Project(s')[u].role == mid[u].role && StaysOrWakes(mid[u].place, Project(s')[u].place)
      ensures L.PlaceFits(mid[u].role, mid[u].place)
    {
      if u > 0 { assert StaysOrWakes(WorkerPlace(s.wq.workers[u - 1]), WorkerPlace(s'.wq.workers[u - 1])); }
    }
  }

  /** A step of worker `w`, with the client woken or not. */
  lemma WorkerProjects(s: System, s': System, w: nat, route: seq<L.Place>)
    requires w < |s.wq.workers| == |s'.wq.workers| && s'.wq.workers == s.wq.workers[w := s'.wq.workers[w]]
    requires route != [] && IsRoute(L.Worker, route) && route[0] == WorkerPlace(s.wq.workers[w])
    requires route[|route| - 1] == WorkerPlace(s'.wq.workers[w])
    requires forall i :: 0 <= i < |route| ==> L.SqLock !in L.Held(route[i])
    requires StaysOrWakes(ClientPlace(s), ClientPlace(s'))
    ensures Projects(s, s', w + 1, route)
  {
    hide IsRoute, StaysOrWakes, ClientPlace, WorkerPlace, L.Held, L.PlaceFits;
    var p := Project(s);
    forall u | 0 <= u < |p| ensures u != 0 ==> L.Held(p[u].place) == {} {
      if u != 0 { PhaseFits(s.wq.workers[u - 1]); }
    }
    ClientFits(s);
    PhaseFits(s'.wq.workers[w]);
    assert IsClear(p, w + 1, route);
    var mid := p[w + 1 := p[w + 1].(place := route[|route| - 1])];
    forall u | 0 <= u < |mid|
      ensures Project(s')[u].role == mid[u].role && StaysOrWakes(mid[u].place, Project(s')[u].place)
      ensures L.PlaceFits(mid[u].role, mid[u].place)
    {
      StaysItself(mid[u].place);
      if u != 0 { PhaseFits(s.wq.workers[u - 1]); }
    }
  }

  /** Between its steps a worker holds nothing. */
  lemma PhaseFits(p: Phase)
    ensures L.Held(WorkerPlace(p)) == {} && L.PlaceFits(L.Worker, WorkerPlace(p))
  {
  }

  /** Between its steps the client holds at most `sq_lock`. */
  lemma ClientFits(s: System)
    ensures L.Held(ClientPlace(s)) <= {L.SqLock} && L.PlaceFits(L.Client, ClientPlace(s))
  {
  }

  lemma StaysItself(p: L.Place)
    ensures StaysOrWakes(p, p)
  {
  }

  lemma StayingWorkers(ws: seq<Phase>)
    ensures WorkersWake(ws, ws)
  {
  }

  // ---------------------------------------------------------------- the client's events

  /** The client's events that leave the queue alone. */
  predicate LeavesQueue(e: Event) {
    || e.FillSqe? || e.BeginSubmit? || e.EndSubmit? || e.WaitCqe? || e.WaitCqeAgain? || e.SpuriousClient?
    || e.Advance? || e.IssueNop? || e.IssueUnknown? || e.PuntNoMemory?
  }

  /** The client's way through `sq_lock` and `cq_lock` in such an event. */
  function ClientRoute(s: System, e: Event): seq<L.Place>
    requires Possible(s, e) && LeavesQueue(e)
  {
    var last := ClientPlace(Next(s, e));
    match e
    case FillSqe(_) => [L.Outside, L.GetSqeWant, L.GetSqeIn, last]
    case BeginSubmit => [L.Outside, L.SubmitWant, last]
    case IssueNop => [L.SubmitIn, L.PostWant(L.Submit), L.PostIn(L.Submit), last]
    case EndSubmit => [L.SubmitIn, last]
    case WaitCqe => [L.Outside, L.WaitCqeWant, L.WaitCqeIn, last]
    case WaitCqeAgain => [L.WaitCqeWant, L.WaitCqeIn, last]
    case SpuriousClient => [L.WaitCqeSleep, last]
    case _ => [last]
  }

  lemma ClientEventProjects(s: System, e: Event)
    requires Possible(s, e) && LeavesQueue(e)
    ensures Projects(s, Next(s, e), 0, ClientRoute(s, e))
  {
    var s', route := Next(s, e), ClientRoute(s, e);
    ClientEventIsRoute(s, e);
    StayingWorkers(s.wq.workers);
    StaysItself(ClientPlace(s'));
    ClientFits(s');
    hide Possible, Next, IsRoute, ClientPlace, L.PlaceFits, StaysOrWakes, WorkersWake, Projects;
    ClientProjects(s, s', route);
  }

  lemma ClientEventIsRoute(s: System, e: Event)
    requires Possible(s, e) && LeavesQueue(e)
    ensures
      var route := ClientRoute(s, e);
      && IsRoute(L.Client, route) && route[0] == ClientPlace(s) && Next(s, e).wq == s.wq
      && route[|route| - 1] == ClientPlace(Next(s, e))
  {
    ClientEventEnds(s, e);
    hide Possible, Next, ClientPlace, IsRoute;
    ClientRoutes(ClientPlace(Next(s, e)));
  }

  /** Where the client stands before and after. */
  lemma ClientEventEnds(s: System, e: Event)
    requires Possible(s, e) && LeavesQueue(e)
    ensures
      var s', last := Next(s, e), ClientPlace(Next(s, e));
      && s'.wq == s.wq && ClientRoute(s, e)[0] == ClientPlace(s)
      && (e.FillSqe? || e.EndSubmit? ==> last == L.Outside)
      && (e.BeginSubmit? || e.IssueNop? ==> last == L.SubmitIn)
      && (e.WaitCqe? || e.WaitCqeAgain? ==> last == L.Outside || last == L.WaitCqeSleep)
      && (e.SpuriousClient? ==> last == L.WaitCqeWant)
  {
    hide CqFull, CqReady, SqFull;
  }

  lemma ClientRoutes(last: L.Place)
    ensures IsRoute(L.Client, [last])
    ensures last == L.Outside ==>
              IsRoute(L.Client, [L.Outside, L.GetSqeWant, L.GetSqeIn, last]) && IsRoute(L.Client, [L.SubmitIn, last])
    ensures last == L.SubmitIn ==>
              && IsRoute(L.Client, [L.Outside, L.SubmitWant, last])
              && IsRoute(L.Client, [L.SubmitIn, L.PostWant(L.Submit), L.PostIn(L.Submit), last])
    ensures last == L.Outside || last == L.WaitCqeSleep ==>
              && IsRoute(L.Client, [L.Outside, L.WaitCqeWant, L.WaitCqeIn, last])
              && IsRoute(L.Client, [L.WaitCqeWant, L.WaitCqeIn, last])
    ensures last == L.WaitCqeWant ==> IsRoute(L.Client, [L.WaitCqeSleep, last])
  {
  }

  // ---------------------------------------------------------------- handing over to the queue

  lemma TryQueueWakes(wq: Queue<Data>, work: Work<Data>, signal: set<nat>)
    ensures
      var wq' := TryQueue(wq, CLIENT, work, signal);
      && WorkersWake(wq.workers, wq'.workers)
      && (TryVerdict(wq).Again? ==> CLIENT in wq'.queuers && wq'.queuers[CLIENT].wait.Sleeping?)
  {
    hide TryVerdict;
  }

  function PuntRoute(first: bool, last: L.Place): seq<L.Place> {
    if first then [L.SubmitIn, L.QueueWant(L.Submit), L.QueueIn(L.Submit), last]
    else [L.QueueWant(L.Submit), L.QueueIn(L.Submit), last]
  }

  lemma PuntRoutes(first: bool, last: L.Place)
    requires last == L.SubmitIn || last == L.QueueSleep(L.Submit)
    ensures IsRoute(L.Client, PuntRoute(first, last)) && L.PlaceFits(L.Client, last)
  {
  }

  lemma PuntRoundPlaces(s: System, wq: Queue<Data>, signal: set<nat>, mallocs: multiset<nat>)
    requires s.ring.sqHead < |s.ring.requests|
    ensures
      var s' := PuntRound(s, wq, signal).(mallocs := mallocs);
      && (ClientPlace(s') == L.SubmitIn || ClientPlace(s') == L.QueueSleep(L.Submit))
      && WorkersWake(wq.workers, s'.wq.workers)
  {
    TryQueueWakes(wq, PuntWork(s), signal);
    hide TryQueue, TryVerdict, WorkersWake;
  }

  lemma PuntProjects(s: System, e: Event)
    requires Possible(s, e) && (e.Punt? || e.PuntAgain?)
    ensures Projects(s, Next(s, e), 0, PuntRoute(e.Punt?, ClientPlace(Next(s, e))))
  {
    PuntStarts(s, e);
    hide Possible, Next, PuntRound, ClientPlace, L.PlaceFits, StaysOrWakes, WorkersWake, Projects, IsRoute;
    var s', last := Next(s, e), ClientPlace(Next(s, e));
    var wq := if e.Punt? then s.wq else Unqueue(s.wq, CLIENT);
    RingShutdown.PuntIsRound(s, e);
    PuntRoundPlaces(s, wq, e.signal, s'.mallocs);
    assert s'.(mallocs := s'.mallocs) == s';
    PuntRoutes(e.Punt?, last);
    StaysItself(last);
    ClientProjects(s, s', PuntRoute(e.Punt?, last));
  }

  lemma PuntStarts(s: System, e: Event)
    requires Possible(s, e) && (e.Punt? || e.PuntAgain?)
    ensures ClientPlace(s) == if e.Punt? then L.SubmitIn else L.QueueWant(L.Submit)
  {
    hide ArmSignal, TryVerdict;
  }

  // ---------------------------------------------------------------- the workers' events

  /** A worker's way through `work_list_lock`. */
  function WorkerRoute(step: Step<Data>, p: Phase): seq<L.Place> {
    var last := WorkerPlace(p);
    match step
    case Start(_) => [L.Outside, L.WorkerWant, L.WorkerIn, last]
    case Resume(_) => [L.WorkerWant, L.WorkerIn, last]
    case Finish(_, _) => [L.WorkerWant, L.WorkerIn, last]
    case RunDeleter(_) => [L.DeleterRuns, last]
    case _ => [L.WorkerSleep, last]
  }

  predicate IsWorkersOwn(step: Step<Data>) {
    step.Start? || step.Resume? || step.Finish? || step.RunDeleter? || step.SpuriousWorker?
  }

  /** What a step of worker `w` does to the threads. */
  ghost predicate MovesWorker(wq: Queue<Data>, wq': Queue<Data>, w: nat, step: Step<Data>) {
    && w < |wq.workers| == |wq'.workers| && wq'.workers == wq.workers[w := wq'.workers[w]]
    && var route := WorkerRoute(step, wq'.workers[w]);
       && IsRoute(L.Worker, route) && route[0] == WorkerPlace(wq.workers[w])
       && forall i :: 0 <= i < |route| ==> L.SqLock !in L.Held(route[i])
  }

  /** The submitters inside stay, perhaps woken. */
  ghost predicate QueuersWake(wq: Queue<Data>, wq': Queue<Data>) {
    && wq'.queuers.Keys == wq.queuers.Keys
    && forall c :: c in wq.queuers ==> wq.queuers[c].wait.Roused? ==> wq'.queuers[c].wait.Roused?
  }

  lemma WorkerRoutes(step: Step<Data>, p: Phase)
    requires
      || ((step.Start? || step.Resume? || step.Finish?) && (p.Executing? || p.Asleep? || p.Exited?))
      || (step.RunDeleter? && p.Done?) || (step.SpuriousWorker? && p.Woken?)
    ensures IsRoute(L.Worker, WorkerRoute(step, p))
    ensures forall i :: 0 <= i < |WorkerRoute(step, p)| ==> L.SqLock !in L.Held(WorkerRoute(step, p)[i])
  {
  }

  lemma WaitForEventMoves(wq: Queue<Data>, w: nat, step: Step<Data>)
    requires w < |wq.workers| && (step.Start? || step.Resume? || step.Finish?)
    requires WorkerPlace(wq.workers[w]) == if step.Start? then L.Outside else L.WorkerWant
    ensures MovesWorker(wq, WaitForEvent(wq, w), w, step)
    ensures WaitForEvent(wq, w).queuers == wq.queuers
  {
    var wq' := WaitForEvent(wq, w);
    assert wq'.workers[w].Executing? || wq'.workers[w].Asleep? || wq'.workers[w].Exited?;
    WorkerRoutes(step, wq'.workers[w]);
    hide RouseDrainers, Pending, IsRoute, L.Held;
  }

  lemma WorkerStepMoves(wq: Queue<Data>, step: Step<Data>)
    requires Enabled(wq, step) && IsWorkersOwn(step)
    ensures MovesWorker(wq, Apply(wq, step), step.w, step) && QueuersWake(wq, Apply(wq, step))
  {
    if step.RunDeleter? || step.SpuriousWorker? {
      PlainStepMoves(wq, step);
    } else {
      LockStepMoves(wq, step);
    }
  }

  lemma PlainStepMoves(wq: Queue<Data>, step: Step<Data>)
    requires Enabled(wq, step) && (step.RunDeleter? || step.SpuriousWorker?)
    ensures MovesWorker(wq, Apply(wq, step), step.w, step) && QueuersWake(wq, Apply(wq, step))
  {
    hide DeleterCalls, IsRoute, L.Held;
    var wq' := Apply(wq, step);
    assert wq'.workers == wq.workers[step.w := wq'.workers[step.w]] && wq'.queuers == wq.queuers;
    assert if step.RunDeleter? then wq'.workers[step.w].Done? else wq'.workers[step.w].Woken?;
    hide Apply;
    WorkerRoutes(step, wq'.workers[step.w]);
  }

  lemma LockStepMoves(wq: Queue<Data>, step: Step<Data>)
    requires Enabled(wq, step) && (step.Start? || step.Resume? || step.Finish?)
    ensures MovesWorker(wq, Apply(wq, step), step.w, step) && QueuersWake(wq, Apply(wq, step))
  {
    hide WaitForEvent, MovesWorker, FinishSignal;
    match step
    case Start(w) =>
      var mid := wq.(nrOnlineWorkers := wq.nrOnlineWorkers + 1);
      WaitForEventMoves(mid, w, step);
      MovesFrame(mid, wq, Apply(wq, step), w, step);
    case Resume(w) =>
      var mid := wq.(nrSleepingWorkers := wq.nrSleepingWorkers - 1);
      WaitForEventMoves(mid, w, step);
      MovesFrame(mid, wq, Apply(wq, step), w, step);
    case Finish(w, signal) =>
      var mid := wq.(nrRunningWorkers := wq.nrRunningWorkers - 1, queuers := RouseQueuers(wq.queuers, signal));
      WaitForEventMoves(mid, w, step);
      MovesFrame(mid, wq, Apply(wq, step), w, step);
  }

  lemma MovesFrame(wq0: Queue<Data>, wq: Queue<Data>, wq': Queue<Data>, w: nat, step: Step<Data>)
    requires MovesWorker(wq0, wq', w, step) && wq.workers == wq0.workers
    ensures MovesWorker(wq, wq', w, step)
  {
  }

  lemma ClientMayWake(s: System, s': System)
    requires QueuersWake(s.wq, s'.wq) && s'.client == s.client
    ensures StaysOrWakes(ClientPlace(s), ClientPlace(s'))
  {
  }

  lemma WorkerEventProjects(s: System, step: Step<Data>)
    requires Possible(s, Worker(step)) && IsWorkersOwn(step)
    ensures
      var s' := Next(s, Worker(step));
      && step.w < |s'.wq.workers|
      && Projects(s, s', step.w + 1, WorkerRoute(step, s'.wq.workers[step.w]))
  {
    hide Possible, Next, Enabled, Apply, Projects, IsRoute, L.Held, ClientPlace, StaysOrWakes;
    var s' := Next(s, Worker(step));
    RingInvariant.WorkerNextFields(s, step);
    WorkerStepMoves(s.wq, step);
    ClientMayWake(s, s');
    WorkerProjects(s, s', step.w, WorkerRoute(step, s'.wq.workers[step.w]));
  }

  const EXEC_ROUTE: seq<L.Place> :=
    [L.FuncRuns, L.PostWant(L.Func), L.PostIn(L.Func), L.FuncRuns, L.DeleterRuns]

  lemma ExecIsRoute()
    ensures IsRoute(L.Worker, EXEC_ROUTE)
    ensures forall i :: 0 <= i < |EXEC_ROUTE| ==> L.SqLock !in L.Held(EXEC_ROUTE[i])
  {
  }

  lemma ExecEventMoves(s: System, w: nat, res: int)
    requires Possible(s, Exec(w, res))
    ensures
      var s' := Next(s, Exec(w, res));
      && w < |s.wq.workers| == |s'.wq.workers| && s'.wq.workers == s.wq.workers[w := s'.wq.workers[w]]
      && s.wq.workers[w].Executing? && s'.wq.workers[w].Deleting? && s'.wq.queuers == s.wq.queuers
      && (s'.client == s.client || s'.client == RouseClient(s.client))
  {
    hide FuncCalls, CqFull;
  }

  lemma ExecEventProjects(s: System, w: nat, res: int)
    requires Possible(s, Exec(w, res))
    ensures Projects(s, Next(s, Exec(w, res)), w + 1, EXEC_ROUTE)
  {
    hide Possible, Next, Projects, IsRoute, L.Held;
    var s' := Next(s, Exec(w, res));
    ExecEventMoves(s, w, res);
    ExecIsRoute();
    assert StaysOrWakes(ClientPlace(s), ClientPlace(s'));
    hide StaysOrWakes, ClientPlace;
    WorkerProjects(s, s', w, EXEC_ROUTE);
  }

  /** The spurious wake-up of a submitter, which is the client. */
  lemma QueuerEventProjects(s: System, c: nat)
    requires Possible(s, Worker(SpuriousQueuer(c)))
    ensures
      var s' := Next(s, Worker(SpuriousQueuer(c)));
      Projects(s, s', 0, [ClientPlace(s)])
  {
    var s' := Next(s, Worker(SpuriousQueuer(c)));
    StayingWorkers(s.wq.workers);
    ClientFits(s);
    assert s'.wq.workers == s.wq.workers && StaysOrWakes(ClientPlace(s), ClientPlace(s'));
    hide Possible, Next, ClientPlace, StaysOrWakes, Projects, WorkersWake, L.PlaceFits;
    ClientProjects(s, s', [ClientPlace(s)]);
  }

  // ---------------------------------------------------------------- every run

  /** Every event up to the teardown is a run over the locks. */
  lemma EventProjects(s0: L.State, s: System, e: Event)
    requires Path(s0, Project(s)) && Possible(s, e) && !e.StopRing? && !e.DestroyWq?
    ensures Path(s0, Project(Next(s, e)))
  {
    hide Path, Project, Projects, Next, Possible;
    var s' := Next(s, e);
    if LeavesQueue(e) {
      ClientEventProjects(s, e);
      ProjectsIsPath(s0, s, s', 0, ClientRoute(s, e));
    } else if e.Punt? || e.PuntAgain? {
      PuntProjects(s, e);
      ProjectsIsPath(s0, s, s', 0, PuntRoute(e.Punt?, ClientPlace(s')));
    } else if e.Exec? {
      ExecEventProjects(s, e.w, e.res);
      ProjectsIsPath(s0, s, s', e.w + 1, EXEC_ROUTE);
    } else if IsWorkersOwn(e.step) {
      WorkerEventProjects(s, e.step);
      ProjectsIsPath(s0, s, s', e.step.w + 1, WorkerRoute(e.step, s'.wq.workers[e.step.w]));
    } else {
      OnlyQueuersLeft(s, e);
      QueuerEventProjects(s, e.step.caller);
      ProjectsIsPath(s0, s, s', 0, [ClientPlace(s)]);
    }
  }

  lemma OnlyQueuersLeft(s: System, e: Event)
    requires Possible(s, e) && e.Worker? && !IsWorkersOwn(e.step)
    ensures e.step.SpuriousQueuer?
  {
    hide Enabled;
  }

  lemma {:induction false} RunProjects(states: seq<System>, events: seq<Event>, k: nat)
    requires RingSafety.IsSystemRun(states, events) && k <= |events|
    requires forall j :: 0 <= j < |events| ==> !events[j].StopRing? && !events[j].DestroyWq?
    ensures Path(Project(states[0]), Project(states[k]))
  {
    hide Path, Project, Next, Possible;
    if k == 0 {
      NoPath(Project(states[0]));
    } else {
      RunProjects(states, events, k - 1);
      EventProjects(Project(states[0]), states[k - 1], events[k - 1]);
    }
  }

  /** Up to the teardown, every state of ring and queue is a reachable state of the three mutexes:
      what `LockOrder` says of those holds of the threads that work them. */
  lemma SystemsAreReachableLocks(states: seq<System>, events: seq<Event>)
    requires RingSafety.IsSystemRun(states, events) && IsInitSystem(states[0])
    requires forall j :: 0 <= j < |events| ==> !events[j].StopRing? && !events[j].DestroyWq?
    ensures L.ReachableLocks(Project(states[|events|]))
  {
    RunProjects(states, events, |events|);
    InitProjects(states[0]);
    hide Project, Next, Possible, IsInitSystem, L.CanGo, L.Go, L.IsLockInit;
    var locks: seq<L.State>, moves: seq<L.Move> :|
      L.IsLockRun(locks, moves) && locks[0] == Project(states[0]) && locks[|moves|] == Project(states[|events|]);
  }

  lemma InitProjects(s: System)
    requires IsInitSystem(s)
    ensures L.IsLockInit(Project(s))
  {
  }
}
