/** The ring on top of the work queue, as a transition system: one client thread that fills
    submission entries, submits them, waits for completions and advances over them, and the
    queue's workers, which execute the asynchronous requests and post their completions.

    A step is one critical section of `cq_lock` or of the queue's lock. `sq_lock` is held by the
    client alone, across its whole `gw_ring_submit`; the client's steps in between are the
    issuing of one entry, and the waits inside `queue_work`. */
module RingModel {
  import opened Uint32
  import opened Circular
  import opened WorkQueueModel

  const OP_NOP: nat := 0
  const OP_TG_API_CALL: nat := 1
  const OP_MODULE_HANDLE: nat := 2
  const API_GET_UPDATES: nat := 0
  const EOPNOTSUPP: int := 95

  datatype Payload = ApiCall(callOp: nat, offset: int) | Handle(update: uint64) | NoPayload

  datatype Sqe = Sqe(op: nat, userData: nat, payload: Payload)

  datatype Cqe = Cqe(op: nat, res: int, flags: nat, userData: nat)

  /** The two rings. `requests` are all entries ever filled and `posted` all completions ever
      posted, so their lengths are the free-running tails; the program keeps heads and tails
      modulo 2^32. */
  datatype Rings = Rings(
    shouldStop: bool,
    waitFlag: bool,
    sqCapacity: nat,
    cqLimit: nat,
    requests: seq<Sqe>,
    sqHead: nat,
    posted: seq<Cqe>,
    cqHead: nat)

  /** The heap copy handed to the work queue, with the number of the request it copies. */
  datatype Data = Data(request: nat, sqe: Sqe)

  datatype Client = Idle | Submitting | Blocked | CqWait(wait: Waiter)

  /** How a request left the submission ring. */
  datatype Exit = PostedAt(index: nat) | NopDropped | Punted(id: nat) | PuntFailed | NoMemory | UnknownOp

  /** `accepted` and `submitFrom` belong to the current `gw_ring_submit`: its return value so
      far, and the first request it issued. `origin[i]` is the request behind completion `i`,
      `exits[k]` how request `k` left the submission ring, `dropped` the requests that will
      never complete, `freed` those whose update the ring has released, in `nrFrees` calls;
      `mallocs` and `dataFrees` record, by request, each allocation and each release of a heap
      copy (`struct wq_sqe_data`). */
  datatype System = System(
    ring: Rings,
    wq: Queue<Data>,
    client: Client,
    accepted: nat,
    submitFrom: nat,
    origin: seq<nat>,
    exits: seq<Exit>,
    dropped: set<nat>,
    freed: set<nat>,
    nrFrees: nat,
    mallocs: multiset<nat>,
    dataFrees: multiset<nat>)

  /** The client's name among the callers of `queue_work`. */
  const CLIENT: nat := 0

  datatype Event =
    | FillSqe(sqe: Sqe)
    | BeginSubmit
    | IssueNop
    | IssueUnknown
    | PuntNoMemory
    | Punt(signal: set<nat>)
    | PuntAgain(signal: set<nat>)
    | EndSubmit
    | WaitCqe
    | WaitCqeAgain
    | SpuriousClient
    | Advance(n: nat)
    | Worker(step: Step<Data>)
    | Exec(w: nat, res: int)
    | StopRing
    | DestroyWq(signal: set<nat>)

  // ---------------------------------------------------------------- the rings

  /** `gw_ring_get_sqe` finds no room. */
  predicate SqFull(r: Rings) {
    Refuses(r.sqHead, |r.requests|, r.sqCapacity)
  }

  predicate CqFull(r: Rings) {
    Refuses(r.cqHead, |r.posted|, r.cqLimit)
  }

  /** The test of `gw_ring_wait_cqe`: the ring is not empty and the distance, as an `int`, is
      positive. */
  predicate CqReady(r: Rings) {
    r.cqHead != |r.posted| && ReadyCount(r.cqHead, |r.posted|) > 0
  }

  function CqeFor(sqe: Sqe, res: int): Cqe {
    Cqe(sqe.op, res, 0, sqe.userData)
  }

  /** `gw_ring_get_sqe`, and the entry filled in. */
  function FillRing(r: Rings, sqe: Sqe): Rings {
    r.(requests := r.requests + [sqe])
  }

  /** `post_cqe`. */
  function PostRing(r: Rings, sqe: Sqe, res: int): Rings {
    if CqFull(r) then r else r.(posted := r.posted + [CqeFor(sqe, res)])
  }

  /** `gw_ring_cq_advance`. */
  function AdvanceRing(r: Rings, n: nat): Rings {
    r.(cqHead := r.cqHead + n)
  }

  // ---------------------------------------------------------------- steps

  function Filled(s: System, sqe: Sqe): System {
    s.(ring := FillRing(s.ring, sqe))
  }

  function Advanced(s: System, n: nat): System {
    s.(ring := AdvanceRing(s.ring, n))
  }

  function RouseClient(client: Client): Client {
    if client.CqWait? then CqWait(Roused) else client
  }

  /** `post_cqe` for request `k`. */
  function PostCqe(s: System, k: nat, sqe: Sqe, res: int): System {
    if CqFull(s.ring) then
      s.(dropped := s.dropped + {k})
    else
      s.(ring := PostRing(s.ring, sqe, res),
         origin := s.origin + [k],
         client := if s.ring.waitFlag then RouseClient(s.client) else s.client)
  }

  /** The client moves on to the next entry of the submission ring. */
  function Leave(s: System, exit: Exit, counted: bool): System {
    s.(ring := s.ring.(sqHead := s.ring.sqHead + 1), exits := s.exits + [exit],
       accepted := s.accepted + (if counted then 1 else 0), client := Submitting)
  }

  function Free(s: System, k: nat): System {
    s.(freed := s.freed + {k}, nrFrees := s.nrFrees + 1)
  }

  function FreeData(s: System, k: nat): System {
    s.(dataFrees := s.dataFrees + multiset{k})
  }

  /** A request whose `punt_to_io_wq` failed. */
  function FailPunt(s: System, exit: Exit): System
    requires s.ring.sqHead < |s.ring.requests|
  {
    var k := s.ring.sqHead;
    var s' := Leave(s.(dropped := s.dropped + {k}), exit, false);
    if s.ring.requests[k].op == OP_MODULE_HANDLE then Free(s', k) else s'
  }

  function PuntWork(s: System): Work<Data>
    requires s.ring.sqHead < |s.ring.requests|
  {
    Work(true, Data(s.ring.sqHead, s.ring.requests[s.ring.sqHead]), true)
  }

  /** One round of `queue_work` on behalf of the client, `wq` being the queue it finds. */
  function PuntRound(s: System, wq: Queue<Data>, signal: set<nat>): System
    requires s.ring.sqHead < |s.ring.requests|
  {
    var s' := s.(wq := TryQueue(wq, CLIENT, PuntWork(s), signal));
    match TryVerdict(wq)
    case Accepted => Leave(s', Punted(|wq.works|), true)
    case OwnerDead => FailPunt(FreeData(s', s.ring.sqHead), PuntFailed)
    case Again => s'.(client := Blocked)
  }

  /** The loop of `gw_ring_wait_cqe`, up to its return or its `cond_wait`. */
  function WaitLoop(s: System): System {
    if s.ring.shouldStop || CqReady(s.ring) then
      s.(client := Idle)
    else
      s.(ring := s.ring.(waitFlag := true), client := CqWait(Sleeping))
  }

  predicate IsAsync(op: nat) {
    op == OP_TG_API_CALL || op == OP_MODULE_HANDLE
  }

  /** The results `gw_ring_wq_sqe_exec` can post for a request. */
  predicate LegalResult(sqe: Sqe, res: int) {
    && (sqe.op == OP_NOP ==> res == 0)
    && (sqe.op == OP_TG_API_CALL && sqe.payload.ApiCall? && sqe.payload.callOp != API_GET_UPDATES ==>
          res == -EOPNOTSUPP)
  }

  /** The pending requests, and among them those that hold an update. */
  function PendingRequests(wq: Queue<Data>): set<nat> {
    set id: nat | id < |wq.works| && IsPending(wq, id) :: wq.works[id].arg.request
  }

  function PendingHandles(wq: Queue<Data>): set<nat> {
    set id: nat | id < |wq.works| && IsPending(wq, id) && wq.works[id].arg.sqe.op == OP_MODULE_HANDLE
      :: wq.works[id].arg.request
  }

  /** The requests behind `works`, one for each. */
  function RequestsOf(works: seq<Work<Data>>): multiset<nat> {
    if works == [] then multiset{}
    else RequestsOf(works[..|works| - 1]) + multiset{works[|works| - 1].arg.request}
  }

  /** The heap copies `clear_pending_works` releases, one for each pending work. */
  function PendingData(wq: Queue<Data>): multiset<nat> {
    if wq.head <= |wq.works| then RequestsOf(wq.works[wq.head..]) else multiset{}
  }

  predicate AtEntry(s: System) {
    s.client.Submitting? && s.ring.sqHead < |s.ring.requests|
  }

  function EntryOp(s: System): nat
    requires AtEntry(s)
  {
    s.ring.requests[s.ring.sqHead].op
  }

  /** The client issues an entry of the submission ring. */
  predicate IsIssue(e: Event) {
    e.IssueNop? || e.IssueUnknown? || e.PuntNoMemory? || e.Punt? || e.PuntAgain?
  }

  predicate IsWorkerEvent(step: Step<Data>) {
    step.Start? || step.Resume? || step.RunDeleter? || step.Finish? || step.SpuriousWorker? || step.SpuriousQueuer?
  }

  predicate Possible(s: System, e: Event) {
    match e
    case FillSqe(sqe) => s.client.Idle? && !SqFull(s.ring)
    case BeginSubmit => s.client.Idle? && !s.ring.shouldStop
    case IssueNop => AtEntry(s) && EntryOp(s) == OP_NOP
    case IssueUnknown => AtEntry(s) && EntryOp(s) > OP_MODULE_HANDLE
    case PuntNoMemory => AtEntry(s) && IsAsync(EntryOp(s))
    case Punt(signal) =>
      AtEntry(s) && IsAsync(EntryOp(s)) && Enabled(s.wq, Submit(CLIENT, PuntWork(s), signal))
    case PuntAgain(signal) =>
      s.client.Blocked? && s.ring.sqHead < |s.ring.requests| && Enabled(s.wq, Resubmit(CLIENT, signal))
    case EndSubmit => s.client.Submitting? && s.ring.sqHead == |s.ring.requests|
    case WaitCqe => s.client.Idle?
    case WaitCqeAgain => s.client == CqWait(Roused)
    case SpuriousClient => s.client == CqWait(Sleeping)
    case Advance(n) => s.client.Idle? && s.ring.cqHead + n <= |s.ring.posted|
    case Worker(step) => IsWorkerEvent(step) && Enabled(s.wq, step)
    case Exec(w, res) =>
      Enabled(s.wq, RunFunc(w)) && LegalResult(s.wq.works[s.wq.workers[w].id].arg.sqe, res)
    case StopRing => s.client.Idle? || s.client.CqWait?
    case DestroyWq(signal) => s.client.Idle? && s.ring.shouldStop && Enabled(s.wq, Destroy(signal))
  }

  /** `gw_ring_wq_sqe_delete`, where the step is that. */
  function WorkerNext(s: System, step: Step<Data>): System
    requires Enabled(s.wq, step)
  {
    var s' := s.(wq := Apply(s.wq, step));
    if step.RunDeleter? then
      var d := s.wq.works[s.wq.workers[step.w].id].arg;
      FreeData(if d.sqe.op == OP_MODULE_HANDLE then Free(s', d.request) else s', d.request)
    else s'
  }

  /** `gw_ring_wq_sqe_exec`. */
  function ExecNext(s: System, w: nat, res: int): System
    requires Enabled(s.wq, RunFunc(w))
  {
    var d := s.wq.works[s.wq.workers[w].id].arg;
    var s' := s.(wq := Apply(s.wq, RunFunc(w)));
    if d.sqe.op <= OP_MODULE_HANDLE then PostCqe(s', d.request, d.sqe, res) else s'
  }

  function Next(s: System, e: Event): System
    requires Possible(s, e)
  {
    match e
    case FillSqe(sqe) => Filled(s, sqe)
    case BeginSubmit => s.(client := Submitting, accepted := 0, submitFrom := s.ring.sqHead)
    case IssueNop =>
      var k := s.ring.sqHead;
      Leave(PostCqe(s, k, s.ring.requests[k], 0),
            if CqFull(s.ring) then NopDropped else PostedAt(|s.ring.posted|), !CqFull(s.ring))
    case IssueUnknown => Leave(s.(dropped := s.dropped + {s.ring.sqHead}), UnknownOp, false)
    case PuntNoMemory => FailPunt(s, NoMemory)
    case Punt(signal) =>
      PuntRound(s, s.wq, signal).(mallocs := s.mallocs + multiset{s.ring.sqHead})
    case PuntAgain(signal) => PuntRound(s, Unqueue(s.wq, CLIENT), signal)
    case EndSubmit => s.(client := Idle)
    case WaitCqe => WaitLoop(s)
    case WaitCqeAgain => WaitLoop(s.(ring := s.ring.(waitFlag := false)))
    case SpuriousClient => s.(client := CqWait(Roused))
    case Advance(n) => Advanced(s, n)
    case Worker(step) => WorkerNext(s, step)
    case Exec(w, res) => ExecNext(s, w, res)
    case StopRing =>
      s.(ring := s.ring.(shouldStop := true),
         client := if s.ring.waitFlag then RouseClient(s.client) else s.client)
    case DestroyWq(signal) =>
      s.(wq := Apply(s.wq, Destroy(signal)),
         dropped := s.dropped + PendingRequests(s.wq),
         freed := s.freed + PendingHandles(s.wq),
         nrFrees := s.nrFrees + |PendingHandles(s.wq)|,
         dataFrees := s.dataFrees + PendingData(s.wq))
  }

  // ---------------------------------------------------------------- initial states

  /** `gw_ring_init` for a submission ring of `capacity` entries; the completion ring holds
      twice as many, computed in `uint32_t`. */
  function InitRings(capacity: nat): Rings {
    Rings(false, false, capacity, Wrap(2 * capacity), [], 0, [], 0)
  }

  function InitSystem(capacity: nat, wq: Queue<Data>): System {
    System(InitRings(capacity), wq, Idle, 0, 0, [], [], {}, {}, 0, multiset{}, multiset{})
  }

  ghost predicate IsInitSystem(s: System) {
    exists capacity: nat, wq: Queue<Data> ::
      IsCapacity(capacity) && capacity >= 2 && WorkQueueModel.IsInit(wq) && s == InitSystem(capacity, wq)
  }
}
