/** Runs of the bot on replies that break the API's promise. */
module BotRuns {
  import opened Wrappers
  import opened Uint32
  import opened WorkQueueModel
  import opened RingModel
  import opened BotModel
  import BI = BotInvariant
  import opened BotUpdates

  lemma StartIsReachable(sys: System)
    requires IsInitSystem(sys)
    ensures ReachableBot(InitBot(sys))
  {
    var states: seq<Bot>, moves: seq<Move> := [InitBot(sys)], [];
    assert IsBotRun(states, moves);
  }

  lemma MoveIsReachable(b: Bot, m: Move)
    requires ReachableBot(b) && CanMove(b, m)
    ensures ReachableBot(Moved(b, m))
  {
    hide CanMove, Moved, IsInitBot;
    var states: seq<Bot>, moves: seq<Move> :|
      IsBotRun(states, moves) && IsInitBot(states[0]) && states[|moves|] == b;
    var states', moves' := states + [Moved(b, m)], moves + [m];
    forall k {:trigger moves'[k]} | 0 <= k < |moves'|
      ensures CanMove(states'[k], moves'[k]) && states'[k + 1] == Moved(states'[k], moves'[k])
    {
      if k < |moves| { assert moves'[k] == moves[k]; }
    }
    assert IsBotRun(states', moves');
  }

  // ---------------------------------------------------------------- one reply

  const ASK: Sqe := UpdatesSqe(1)
  const ANSWER: Cqe := CqeFor(ASK, 0)

  /** The ring with the first request filled in, and `submitted` and `posted` or not. */
  function RingsWith(submitted: nat, posted: seq<Cqe>): Rings {
    Rings(false, false, 2, 4, [ASK], submitted, posted, 0)
  }

  /** The queue with the first request, its worker in `phase`. */
  function QueueWith(phase: Phase, online: nat, taken: nat, running: nat, calls: seq<Call>): Queue<Data> {
    Queue(false, false, false, 0, 0, online, running, 2, taken, [Work(true, Data(0, ASK), true)], [calls], {},
          [phase], map[], map[])
  }

  function SystemWith(ring: Rings, wq: Queue<Data>, client: Client, origin: seq<nat>): System {
    System(ring, wq, client, 1, 0, origin, [Punted(0)], {}, {}, 0, multiset{0}, multiset{})
  }

  /** The first getUpdates request has been submitted. */
  function Asked(): Bot {
    Bot(SystemWith(RingsWith(1, []), QueueWith(Starting, 0, 0, 0, []), Submitting, []), TopSubmit(true),
        0, 0, 0, 0, None, 0, [], 0, [], At(0), 0, 0)
  }

  function IdleQueue(): Queue<Data> {
    Queue(false, false, false, 0, 0, 0, 0, 2, 0, [], [], {}, [Free], map[], map[])
  }

  lemma IdleQueueIsInit()
    ensures IsInitSystem(InitSystem(2, IdleQueue()))
  {
    assert 2 == Pow2(1);
    assert IdleQueue() == Init(1, 0, 2);
    assert IsInit(IdleQueue());
  }

  /** It is filled in, and about to be issued. */
  function Asking(): Bot {
    var s := InitSystem(2, IdleQueue());
    InitBot(s).(sys := s.(ring := RingsWith(0, []), client := Submitting), pc := TopSubmit(true), token := At(0))
  }

  lemma AskingIsReachable()
    ensures ReachableBot(Asking())
  {
    IdleQueueIsInit();
    var b0 := InitBot(InitSystem(2, IdleQueue()));
    StartIsReachable(b0.sys);
    hide ReachableBot, IsInitSystem;
    MoveIsReachable(b0, Fill);
    MoveIsReachable(Moved(b0, Fill), TopBegin);
    assert Moved(Moved(b0, Fill), TopBegin) == Asking();
  }

  lemma AskedIsReachable()
    ensures ReachableBot(Asked())
  {
    AskingIsReachable();
    hide ReachableBot;
    var b := Asking();
    assert FirstFree(b.sys.wq.workers) == 0;
    MoveIsReachable(b, InRing(Punt({})));
    assert Moved(b, InRing(Punt({}))) == Asked();
  }

  /** A worker is executing it, and has left the reply. */
  function Replied(ids: seq<uint64>): Bot {
    Asked().(sys := SystemWith(RingsWith(1, []), QueueWith(Executing(0), 1, 1, 1, []), Idle, []),
             pc := Wait, updates := Some(ids))
  }

  lemma RepliedIsReachable(ids: seq<uint64>)
    ensures ReachableBot(Replied(ids))
  {
    AskedIsReachable();
    hide ReachableBot;
    var b0 := Asked();
    MoveIsReachable(b0, InRing(EndSubmit));
    var b1 := b0.(sys := b0.sys.(client := Idle), pc := Wait);
    assert b1 == Moved(b0, InRing(EndSubmit));
    var start := Background(Worker(Start(0)));
    MoveIsReachable(b1, start);
    var b2 := b1.(sys := b1.sys.(wq := QueueWith(Executing(0), 1, 1, 1, [])));
    assert b2 == Moved(b1, start);
    MoveIsReachable(b2, Reply(0, ids));
  }

  /** It has been executed, and its completion posted. */
  function Answered(ids: seq<uint64>): Bot {
    Replied(ids).(sys := SystemWith(RingsWith(1, [ANSWER]), QueueWith(Deleting(0), 1, 1, 1, [Func]), Idle, [0]))
  }

  lemma AnsweredIsReachable(ids: seq<uint64>)
    ensures ReachableBot(Answered(ids))
  {
    RepliedIsReachable(ids);
    hide ReachableBot;
    var b, e := Replied(ids), Background(Exec(0, 0));
    MoveIsReachable(b, e);
    var wq := b.sys.wq;
    assert [] + FuncCalls(wq.works[0]) == [Func];
    assert Apply(wq, RunFunc(0)) == QueueWith(Deleting(0), 1, 1, 1, [Func]);
    assert !CqFull(b.sys.ring);
    assert [] + [ANSWER] == [ANSWER] && [] + [0] == [0];
    assert PostRing(b.sys.ring, ASK, 0) == RingsWith(1, [ANSWER]);
    assert Next(b.sys, Exec(0, 0)) == Answered(ids).sys;
  }

  /** The main thread has taken up the reply. */
  function Taken(ids: seq<uint64>): Bot {
    Answered(ids).(pc := Batch(0), ret := 1, count := 1, visited := [ANSWER], token := InHand)
  }

  lemma TakenIsReachable(ids: seq<uint64>)
    ensures ReachableBot(Taken(ids))
  {
    AnsweredIsReachable(ids);
    hide ReachableBot;
    var b0 := Answered(ids);
    MoveIsReachable(b0, InRing(WaitCqe));
    var b1 := b0.(pc := Visit, ret := 1);
    assert b1 == Moved(b0, InRing(WaitCqe));
    MoveIsReachable(b1, VisitNext);
    assert Moved(b1, VisitNext) == Taken(ids);
  }

  // ---------------------------------------------------------------- what comes of it

  /** A reply of 2^32 updates or more takes the main thread into a batch that never ends. */
  lemma OversizedBatchIsReachable(ids: seq<uint64>) returns (b: Bot)
    requires |ids| >= MODULUS
    ensures ReachableBot(b) && BI.InBatch(b.pc) && b.updates == Some(ids) && !BatchFits(b)
  {
    TakenIsReachable(ids);
    b := Taken(ids);
  }

  /** After a reply with the one id `id`, and the update dispatched, the next request is armed. */
  lemma OneUpdateHandled(id: uint64) returns (b: Bot)
    ensures ReachableBot(b) && b.pc.Arm? && CanMove(b, Fill) && b.dispatched == [id]
    ensures b.maxUpdateId == if AsInt64(id) > 0 then AsInt64(id) else 0
  {
    TakenIsReachable([id]);
    hide ReachableBot;
    var b0 := Taken([id]);
    MoveIsReachable(b0, NextUpdate);
    var b1 := Moved(b0, NextUpdate);
    MoveIsReachable(b1, Fill);
    var b2 := Moved(b1, Fill);
    MoveIsReachable(b2, NextUpdate);
    b := Moved(b2, NextUpdate);
  }

  /** An id from 2^63 - 1 on breaks the offset armed next: at 2^63 - 1 it does not fit an
      `int64_t`, and from 2^63 on it is 1, below the id dispatched. */
  lemma HugeIdBreaksOffset(id: uint64) returns (b: Bot)
    requires id >= INT64_MAX
    ensures ReachableBot(b) && b.pc.Arm? && CanMove(b, Fill) && b.dispatched == [id]
    ensures if id == INT64_MAX then b.maxUpdateId + 1 > INT64_MAX else b.maxUpdateId + 1 == 1 < id
  {
    b := OneUpdateHandled(id);
  }
}
