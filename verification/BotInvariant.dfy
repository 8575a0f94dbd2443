/** What every move of the bot keeps, whatever the API replies: one getUpdates request, a gapless
    completion stream, a reference for every update, offsets above every id dispatched. */
module BotInvariant {
  import opened Wrappers
  import opened Uint32
  import Circular
  import opened WorkQueueModel
  import WI = WorkQueueInvariant
  import opened RingModel
  import opened RingInvariant
  import opened RingSafety
  import opened RingSubmit
  import opened BotModel

  // ---------------------------------------------------------------- the invariant

  /** The main thread is between taking a getUpdates completion off the ring and arming the
      next request. */
  predicate HoldsToken(pc: Pc) {
    pc.Arm? || pc.ArmSubmit? || pc.Batch? || pc.HandleOne? || pc.HandleSubmit?
  }

  /** The client state that goes with each place of the main thread. */
  ghost predicate PlaceOk(b: Bot) {
    && (InSubmit(b.pc) ==> b.sys.client.Submitting? || b.sys.client.Blocked?)
    && (b.pc.Wait? ==> b.sys.client.Idle? || b.sys.client.CqWait?)
    && (!InSubmit(b.pc) && !b.pc.Wait? ==> b.sys.client.Idle?)
    && ((b.pc.Arm? && b.pc.retry) || (b.pc.HandleOne? && b.pc.retry) ==>
          b.sys.ring.sqHead == |b.sys.ring.requests|)
    && (!b.pc.Stopped? ==> !b.sys.ring.shouldStop)
  }

  /** The completions processed are the first ones posted, in order, and the local cursor and
      count of the for-each loop agree with them. */
  ghost predicate StreamOk(b: Bot) {
    && b.visited <= b.sys.ring.posted
    && (match b.pc
        case Visit => b.head == |b.visited|
        case _ => HoldsToken(b.pc) && !AtBoot(b.pc) ==> b.head + 1 == |b.visited|)
    && (if b.pc.Visit? || b.pc.AdvanceCq? || (HoldsToken(b.pc) && !AtBoot(b.pc)) then
          b.sys.ring.cqHead + b.count == |b.visited|
        else b.sys.ring.cqHead == |b.visited|)
  }

  predicate AtBoot(pc: Pc) {
    (pc.Arm? || pc.ArmSubmit?) && pc.after.Boot?
  }

  /** The bot fills in two kinds of request. */
  ghost predicate RequestsOk(b: Bot) {
    forall k: nat :: k < |b.sys.ring.requests| ==> RequestOk(b.sys.ring.requests[k])
  }

  predicate RequestOk(sqe: Sqe) {
    || (sqe.payload.ApiCall? && sqe == UpdatesSqe(sqe.payload.offset))
    || (sqe.payload.Handle? && sqe == HandleSqe(sqe.payload.update))
  }

  /** A getUpdates request that has been neither dropped nor processed. */
  predicate LiveUpdates(b: Bot, k: nat) {
    && k < |b.sys.ring.requests| && b.sys.ring.requests[k].op == OP_TG_API_CALL
    && k !in b.sys.dropped && |b.visited| <= |b.sys.origin| && k !in b.sys.origin[..|b.visited|]
  }

  ghost predicate TokenOk(b: Bot) {
    && (HoldsToken(b.pc) <==> b.token.InHand?)
    && (forall k: nat :: LiveUpdates(b, k) <==> b.token == At(k))
    && (b.token.Lost? ==> b.sys.dropped != {})
  }

  /** `maxUpdateId` is the maximum of zero and the ids dispatched, as `int64_t`, the update in
      hand included. */
  ghost predicate SeenOk(b: Bot) {
    && 0 <= b.maxUpdateId <= INT64_MAX
    && (forall j :: 0 <= j < |b.dispatched| ==> AsInt64(b.dispatched[j]) <= b.maxUpdateId)
    && (b.maxUpdateId == 0
        || (exists j :: 0 <= j < |b.dispatched| && AsInt64(b.dispatched[j]) == b.maxUpdateId)
        || (HasUpdateInHand(b.pc) && b.updates.Some? && b.i < |b.updates.value|
            && AsInt64(b.updates.value[b.i]) == b.maxUpdateId))
  }

  /** The reference to an update has been taken, but its request is not filled in yet. */
  predicate HasUpdateInHand(pc: Pc) {
    pc.HandleOne? || pc.HandleSubmit?
  }

  /** The outstanding request asks for ids above `maxUpdateId`. */
  ghost predicate OffsetOk(b: Bot) {
    b.token.At? ==>
      && b.token.k < |b.sys.ring.requests|
      && b.sys.ring.requests[b.token.k] == UpdatesSqe(b.maxUpdateId + 1)
  }

  predicate InBatch(pc: Pc) {
    pc.Batch? || pc.HandleOne? || pc.HandleSubmit?
  }

  /** How many updates of the current batch have been dispatched. */
  function Progress(b: Bot): int {
    |b.dispatched| - b.before
  }

  /** Inside a batch, `i` is the number of updates dispatched from it, modulo 2^32; what has been
      dispatched of one that `i` can count is its first `i` updates; and the update in hand has
      been noted. */
  ghost predicate BatchOk(b: Bot) {
    InBatch(b.pc) ==>
      && b.updates.Some? && b.i <= |b.updates.value|
      && Progress(b) >= 0 && b.i == Wrap(Progress(b))
      && (|b.updates.value| < MODULUS ==> b.dispatched[b.before..] == b.updates.value[..b.i])
      && (!b.pc.Batch? ==> b.i < |b.updates.value| && AsInt64(b.updates.value[b.i]) <= b.maxUpdateId)
  }

  /** `tgapi_inc_ref_update` has been called once for each MODULE_HANDLE request, and for the
      one about to be filled in. */
  ghost predicate RefsOk(b: Bot) {
    b.incRefs == |HandleRequests(b.sys)| + WI.Indicator(HasUpdateInHand(b.pc))
  }

  ghost predicate BotInv(b: Bot) {
    && SysInv(b.sys) && PlaceOk(b) && StreamOk(b) && RequestsOk(b) && TokenOk(b)
    && SeenOk(b) && OffsetOk(b) && BatchOk(b) && RefsOk(b)
  }

  // ---------------------------------------------------------------- moves of the ring alone

  /** The ring moved without a request being filled in or consumed. */
  ghost predicate RingMoved(s: System, s': System) {
    && s'.ring.requests == s.ring.requests && s'.ring.cqHead == s.ring.cqHead
    && s.ring.posted <= s'.ring.posted && s.origin <= s'.origin && s.dropped <= s'.dropped
  }

  /** After the client issued an entry, or went to sleep over it. */
  ghost predicate IssueMoved(s: System, s': System) {
    && RingMoved(s, s') && s'.ring.shouldStop == s.ring.shouldStop
    && (s'.client.Submitting? || s'.client.Blocked?)
  }

  lemma PuntMovesRing(s: System, wq: Queue<Data>, signal: set<nat>, mallocs: multiset<nat>)
    requires s.ring.sqHead < |s.ring.requests|
    ensures IssueMoved(s, PuntRound(s, wq, signal).(mallocs := mallocs))
  {
    hide TryQueue, TryVerdict;
  }

  lemma IssueMovesRing(s: System, e: Event)
    requires Possible(s, e) && IsIssue(e)
    ensures IssueMoved(s, Next(s, e))
  {
    if e.Punt? {
      hide Enabled, PuntRound, IssueMoved;
      PuntMovesRing(s, s.wq, e.signal, s.mallocs + multiset{s.ring.sqHead});
    } else if e.PuntAgain? {
      hide Enabled, PuntRound, IssueMoved, Unqueue;
      var s' := PuntRound(s, Unqueue(s.wq, CLIENT), e.signal);
      PuntMovesRing(s, Unqueue(s.wq, CLIENT), e.signal, s'.mallocs);
      assert s'.(mallocs := s'.mallocs) == s';
    } else {
      hide CqFull;
    }
  }

  lemma BackgroundMovesRing(s: System, e: Event)
    requires Possible(s, e) && IsBackground(e)
    ensures
      var s' := Next(s, e);
      && RingMoved(s, s') && s'.ring.shouldStop == s.ring.shouldStop
      && s'.ring.sqHead == s.ring.sqHead
      && (s'.client == s.client || (s.client.CqWait? && s'.client.CqWait?))
  {
    hide Apply, Enabled, CqFull;
  }

  lemma ClientMovesRing(s: System, e: Event)
    requires Possible(s, e) && (IsWait(e) || e.EndSubmit? || e.BeginSubmit?)
    ensures
      var s' := Next(s, e);
      && RingMoved(s, s') && s'.ring.shouldStop == s.ring.shouldStop
      && (IsWait(e) ==> s'.client.Idle? || s'.client.CqWait?)
      && (e == SpuriousClient ==> s'.client.CqWait?)
      && (e.BeginSubmit? ==> s'.client.Submitting?)
      && (e.EndSubmit? ==> s'.client.Idle? && s'.ring.sqHead == |s'.ring.requests|)
  {
    hide CqReady;
  }

  lemma EventMovesRing(s: System, e: Event)
    requires Possible(s, e) && (IsIssue(e) || IsWait(e) || IsBackground(e) || e.EndSubmit? || e.BeginSubmit?)
    ensures RingMoved(s, Next(s, e))
  {
    hide Possible, Next, RingMoved;
    if IsIssue(e) { IssueMovesRing(s, e); }
    else if IsBackground(e) { BackgroundMovesRing(s, e); }
    else { ClientMovesRing(s, e); }
  }

  lemma RingMovedKeepsStream(b: Bot, sys': System, pc': Pc)
    requires SysInv(b.sys) && SysInv(sys') && RingMoved(b.sys, sys') && StreamOk(b)
    requires HoldsToken(pc') == HoldsToken(b.pc) && AtBoot(pc') == AtBoot(b.pc)
    requires pc'.Visit? == b.pc.Visit? && pc'.AdvanceCq? == b.pc.AdvanceCq?
    ensures StreamOk(Ring(b, sys').(pc := pc'))
  {
    hide SysInv;
  }

  lemma RingMovedKeepsToken(b: Bot, sys': System, pc': Pc)
    requires SysInv(b.sys) && SysInv(sys') && RingMoved(b.sys, sys') && TokenOk(b) && StreamOk(b)
    requires HoldsToken(pc') == HoldsToken(b.pc)
    ensures TokenOk(Ring(b, sys').(pc := pc'))
  {
    assert |b.visited| <= |b.sys.origin| == |b.sys.ring.posted|;
    hide SysInv, HoldsToken, StreamOk;
    var b' := Ring(b, sys').(pc := pc');
    assert sys'.origin[..|b.visited|] == b.sys.origin[..|b.visited|];
    forall k: nat ensures LiveUpdates(b', k) <==> b'.token == At(k) {
      assert LiveUpdates(b, k) <==> b.token == At(k);
      assert LiveUpdates(b', k) <==> LiveUpdates(b, k) && k !in sys'.dropped;
    }
  }

  lemma RingMovedKeepsRest(b: Bot, sys': System)
    requires RingMoved(b.sys, sys') && RequestsOk(b) && SeenOk(b) && OffsetOk(b)
    ensures
      var b' := Ring(b, sys');
      RequestsOk(b') && SeenOk(b') && OffsetOk(b') && HandleRequests(sys') == HandleRequests(b.sys)
  {
    hide RequestOk;
  }

  lemma RingMovedKeepsRefs(b: Bot, sys': System, pc': Pc)
    requires RingMoved(b.sys, sys') && RefsOk(b) && BatchOk(b)
    requires HasUpdateInHand(pc') == HasUpdateInHand(b.pc)
    requires pc'.Batch? == b.pc.Batch?
    ensures RefsOk(Ring(b, sys').(pc := pc')) && BatchOk(Ring(b, sys').(pc := pc'))
  {
    assert HandleRequests(sys') == HandleRequests(b.sys);
  }

  /** The main thread's place after a move of the ring that leaves the loop's state alone. */
  predicate SameStage(pc: Pc, pc': Pc) {
    && HoldsToken(pc') == HoldsToken(pc) && AtBoot(pc') == AtBoot(pc)
    && pc'.Visit? == pc.Visit? && pc'.AdvanceCq? == pc.AdvanceCq? && pc'.Batch? == pc.Batch?
    && HasUpdateInHand(pc') == HasUpdateInHand(pc)
  }

  lemma RingMovedKeepsInv(b: Bot, sys': System, pc': Pc)
    requires BotInv(b) && SysInv(sys') && RingMoved(b.sys, sys') && SameStage(b.pc, pc')
    requires PlaceOk(Ring(b, sys').(pc := pc'))
    ensures BotInv(Ring(b, sys').(pc := pc'))
  {
    hide SysInv, RequestsOk, SeenOk, OffsetOk, StreamOk, TokenOk, RefsOk, BatchOk, PlaceOk, RingMoved, HoldsToken, AtBoot;
    RingMovedKeepsStream(b, sys', pc');
    RingMovedKeepsToken(b, sys', pc');
    RingMovedKeepsRest(b, sys');
    RingMovedKeepsRefs(b, sys', pc');
    PcIrrelevant(Ring(b, sys'), pc');
  }

  lemma PcIrrelevant(b: Bot, pc': Pc)
    requires RequestsOk(b) && SeenOk(b) && OffsetOk(b) && HasUpdateInHand(pc') == HasUpdateInHand(b.pc)
    ensures RequestsOk(b.(pc := pc')) && SeenOk(b.(pc := pc')) && OffsetOk(b.(pc := pc'))
  {
    hide RequestOk;
  }

  lemma EventPlace(s: System, e: Event)
    requires Possible(s, e) && (IsIssue(e) || IsWait(e) || IsBackground(e) || e.EndSubmit? || e.BeginSubmit?)
    ensures
      var s' := Next(s, e);
      && s'.ring.shouldStop == s.ring.shouldStop
      && (IsIssue(e) ==> s'.client.Submitting? || s'.client.Blocked?)
      && (IsWait(e) ==> s'.client.Idle? || s'.client.CqWait?)
      && (e == SpuriousClient ==> s'.client.CqWait?)
      && (e.BeginSubmit? ==> s'.client.Submitting?)
      && (e.EndSubmit? ==> s'.client.Idle? && s'.ring.sqHead == |s'.ring.requests|)
      && (IsBackground(e) ==>
            && s'.ring.sqHead == s.ring.sqHead && s'.ring.requests == s.ring.requests
            && (s'.client == s.client || (s.client.CqWait? && s'.client.CqWait?)))
  {
    hide Possible, Next;
    if IsIssue(e) { IssueMovesRing(s, e); }
    else if IsBackground(e) { BackgroundMovesRing(s, e); }
    else { ClientMovesRing(s, e); }
  }

  lemma BackgroundKeepsInv(b: Bot, e: Event)
    requires BotInv(b) && CanMove(b, Background(e))
    ensures BotInv(Moved(b, Background(e)))
  {
    hide SysInv, RequestsOk, SeenOk, OffsetOk, StreamOk, TokenOk, RefsOk, BatchOk, RingMoved, Possible, Next;
    StepKeepsSysInv(b.sys, e);
    EventMovesRing(b.sys, e);
    EventPlace(b.sys, e);
    RingMovedKeepsInv(b, Next(b.sys, e), b.pc);
    assert Ring(b, Next(b.sys, e)).(pc := b.pc) == Ring(b, Next(b.sys, e));
  }

  lemma SubmitMoveKeepsInv(b: Bot, e: Event, pc': Pc)
    requires BotInv(b) && Possible(b.sys, e)
    requires if e.BeginSubmit? then
               && (b.pc == TopSubmit(false) || b.pc.Arm? || b.pc.HandleOne?)
               && pc' == (match b.pc case Arm(after, _) => ArmSubmit(after) case HandleOne(res, _) => HandleSubmit(res)
                          case _ => TopSubmit(true))
             else InSubmit(b.pc) && (IsIssue(e) || e.EndSubmit?)
                  && pc' == if e.EndSubmit? then AfterSubmit(b.pc) else b.pc
    ensures BotInv(Ring(b, Next(b.sys, e)).(pc := pc'))
  {
    hide SysInv, RequestsOk, SeenOk, OffsetOk, StreamOk, TokenOk, RefsOk, BatchOk, RingMoved, Possible, Next;
    StepKeepsSysInv(b.sys, e);
    EventMovesRing(b.sys, e);
    EventPlace(b.sys, e);
    RingMovedKeepsInv(b, Next(b.sys, e), pc');
  }

  /** Beginning a submission drops nothing, so the token stays where it is. */
  lemma BeginSubmitKeepsToken(b: Bot)
    requires BotInv(b) && Possible(b.sys, BeginSubmit)
    ensures Ring(b, Next(b.sys, BeginSubmit)) == b.(sys := Next(b.sys, BeginSubmit))
  {
    hide SysInv, StreamOk, HoldsToken;
    if b.token.At? { assert LiveUpdates(b, b.token.k); }
  }

  lemma WaitMoveKeepsInv(b: Bot, e: Event)
    requires BotInv(b) && b.pc.Wait? && IsWait(e) && Possible(b.sys, e)
    ensures BotInv(Ring(b, Next(b.sys, e)))
    ensures !e.SpuriousClient? ==> BotInv(AfterWait(Ring(b, Next(b.sys, e))))
  {
    hide SysInv, RequestsOk, SeenOk, OffsetOk, StreamOk, TokenOk, RefsOk, BatchOk, RingMoved, Possible, Next;
    var b' := Ring(b, Next(b.sys, e));
    StepKeepsSysInv(b.sys, e);
    EventMovesRing(b.sys, e);
    EventPlace(b.sys, e);
    RingMovedKeepsInv(b, Next(b.sys, e), b.pc);
    assert b'.(pc := b.pc) == b';
    if !e.SpuriousClient? && b'.sys.client.Idle? { AfterWaitKeepsInv(b'); }
  }

  lemma AfterWaitKeepsInv(b: Bot)
    requires BotInv(b) && b.pc.Wait? && b.sys.client.Idle?
    ensures BotInv(AfterWait(b))
  {
    hide SysInv, LiveUpdates;
    var b' := AfterWait(b);
    forall k: nat ensures LiveUpdates(b', k) <==> b'.token == At(k) {
      LiveFrame(b, b', k);
      assert LiveUpdates(b, k) <==> b.token == At(k);
    }
  }

  /** Being live depends on the ring and on what has been visited only. */
  lemma LiveFrame(b: Bot, b': Bot, k: nat)
    requires b'.visited == b.visited && b'.sys.origin == b.sys.origin && b'.sys.dropped == b.sys.dropped
    requires b'.sys.ring.requests == b.sys.ring.requests
    ensures LiveUpdates(b, k) <==> LiveUpdates(b', k)
  {
  }

  // ---------------------------------------------------------------- filling in requests

  lemma FillEffect(s: System, sqe: Sqe)
    requires SysInv(s) && s.client.Idle? && !SqFull(s.ring)
    ensures SysInv(Filled(s, sqe))
    ensures |s.ring.requests| !in s.dropped && |s.ring.requests| !in s.origin
    ensures HandleRequests(Filled(s, sqe))
         == HandleRequests(s) + (if sqe.op == OP_MODULE_HANDLE then {|s.ring.requests|} else {})
    ensures |s.ring.requests| !in HandleRequests(s)
  {
    hide SysInv, SqFull;
    StepKeepsSysInv(s, FillSqe(sqe));
    NewRequestFresh(s);
    var s' := Filled(s, sqe);
    forall k: nat
      ensures k in HandleRequests(s')
         <==> k in HandleRequests(s) || (sqe.op == OP_MODULE_HANDLE && k == |s.ring.requests|)
    {
      if k < |s.ring.requests| { assert s'.ring.requests[k] == s.ring.requests[k]; }
    }
  }

  lemma NewRequestFresh(s: System)
    requires SysInv(s)
    ensures |s.ring.requests| !in s.dropped && |s.ring.requests| !in s.origin
  {
    hide WI.Inv, ClientOk;
    var k := |s.ring.requests|;
    forall i: nat | i < |s.origin| ensures s.origin[i] != k { assert CompletionOf(s, i); }
  }

  lemma PrefixExcludes(a: seq<nat>, n: nat, x: nat)
    requires n <= |a| && x !in a
    ensures x !in a[..n]
  {
  }

  /** Filling in a request makes a getUpdates request live, and changes nothing else. */
  lemma FillLive(b: Bot, b': Bot, sqe: Sqe)
    requires b'.sys == b.sys.(ring := b.sys.ring.(requests := b.sys.ring.requests + [sqe]))
    requires b'.visited == b.visited && |b.visited| <= |b.sys.origin|
    requires |b.sys.ring.requests| !in b.sys.dropped && |b.sys.ring.requests| !in b.sys.origin
    requires RequestsOk(b) && RequestOk(sqe)
    ensures RequestsOk(b')
    ensures forall k: nat :: LiveUpdates(b', k)
              <==> LiveUpdates(b, k) || (k == |b.sys.ring.requests| && sqe.op == OP_TG_API_CALL)
  {
    var n := |b.sys.ring.requests|;
    PrefixExcludes(b.sys.origin, |b.visited|, n);
    forall k: nat | k < |b'.sys.ring.requests| ensures RequestOk(b'.sys.ring.requests[k]) {
      if k < n { assert b'.sys.ring.requests[k] == b.sys.ring.requests[k]; }
    }
  }

  /** The arming of the next request, for the ring as it becomes. */
  ghost predicate Armed(b: Bot, b': Bot) {
    && b.pc.Arm? && b'.token == At(|b.sys.ring.requests|) && !HoldsToken(b'.pc)
    && b'.sys == b.sys.(ring := b.sys.ring.(
                   requests := b.sys.ring.requests + [UpdatesSqe(b.maxUpdateId + 1)]))
    && b'.visited == b.visited && b'.updates == None
    && b'.maxUpdateId == b.maxUpdateId && b'.dispatched == b.dispatched && b'.incRefs == b.incRefs
    && b'.count == b.count
    && match b.pc.after
       case Boot => b'.pc == TopSubmit(false) && b'.head == b.head
       case Process(res) => if b'.pc.Visit? then b'.head == b.head + 1 else b'.pc.AdvanceCq? && b'.head == b.head
  }

  lemma ArmFillArms(b: Bot)
    requires b.pc.Arm?
    ensures Armed(b, ArmFill(b))
  {
  }

  lemma ArmedKeepsToken(b: Bot, b': Bot)
    requires Armed(b, b') && TokenOk(b) && RequestsOk(b) && |b.visited| <= |b.sys.origin|
    requires |b.sys.ring.requests| !in b.sys.dropped && |b.sys.ring.requests| !in b.sys.origin
    ensures TokenOk(b') && RequestsOk(b')
  {
    hide LiveUpdates;
    FillLive(b, b', UpdatesSqe(b.maxUpdateId + 1));
    hide RequestsOk;
    forall k: nat ensures LiveUpdates(b', k) <==> b'.token == At(k) {
      assert LiveUpdates(b, k) <==> b.token == At(k);
    }
  }

  lemma ArmedKeepsLoop(b: Bot, b': Bot)
    requires Armed(b, b') && PlaceOk(b) && StreamOk(b) && SeenOk(b)
    ensures PlaceOk(b') && StreamOk(b') && SeenOk(b') && OffsetOk(b') && BatchOk(b')
  {
  }

  lemma ArmedKeepsRefs(b: Bot, b': Bot)
    requires Armed(b, b') && RefsOk(b) && HandleRequests(b'.sys) == HandleRequests(b.sys)
    ensures RefsOk(b')
  {
    hide HandleRequests;
  }

  lemma ArmFillKeepsInv(b: Bot)
    requires BotInv(b) && b.pc.Arm? && !SqFull(b.sys.ring)
    ensures BotInv(ArmFill(b))
  {
    ArmFillArms(b);
    hide SysInv, HandleRequests, SqFull, TokenOk, StreamOk, OffsetOk, SeenOk, BatchOk, RefsOk, RequestsOk, ArmFill;
    var b' := ArmFill(b);
    FillEffect(b.sys, UpdatesSqe(b.maxUpdateId + 1));
    VisitedBounded(b);
    ArmedKeepsToken(b, b');
    ArmedKeepsLoop(b, b');
    ArmedKeepsRefs(b, b');
  }

  lemma VisitedBounded(b: Bot)
    requires SysInv(b.sys) && StreamOk(b)
    ensures |b.visited| <= |b.sys.origin|
  {
    OriginLength(b.sys);
  }

  lemma OriginLength(s: System)
    requires SysInv(s)
    ensures |s.origin| == |s.ring.posted| && s.ring.cqHead <= |s.ring.posted|
  {
  }

  lemma HandleFillKeepsInv(b: Bot)
    requires BotInv(b) && b.pc.HandleOne? && !SqFull(b.sys.ring)
    requires b.updates.Some? && b.i < |b.updates.value|
    ensures BotInv(HandleFill(b))
  {
    hide SysInv, HandleRequests, SeenOk, BatchOk, LiveUpdates, SqFull;
    var sqe := HandleSqe(b.updates.value[b.i]);
    FillEffect(b.sys, sqe);
    OriginLength(b.sys);
    HandleFillKeepsBatch(b);
    HandleFillKeepsSeen(b);
    var b' := HandleFill(b);
    FillLive(b, b', sqe);
    hide RequestsOk;
    assert TokenOk(b') by {
      forall k: nat ensures LiveUpdates(b', k) <==> b'.token == At(k) {
        assert LiveUpdates(b, k) <==> b.token == At(k);
      }
    }
    assert PlaceOk(b') && StreamOk(b') && OffsetOk(b');
  }

  lemma HandleFillKeepsBatch(b: Bot)
    requires BatchOk(b) && b.pc.HandleOne?
    requires b.updates.Some? && b.i < |b.updates.value|
    ensures BatchOk(HandleFill(b))
  {
    hide Wrap, AsInt64;
    var b', batch := HandleFill(b), b.updates.value;
    Circular.IndexMoves(Progress(b), 1);
    SmallIsItself(b.i + 1);
    assert batch[..b.i + 1] == batch[..b.i] + [batch[b.i]];
    assert b'.dispatched[b.before..] == b.dispatched[b.before..] + [batch[b.i]];
  }

  lemma SmallIsItself(x: nat)
    ensures Wrap(x) <= x && (x < MODULUS ==> Wrap(x) == x)
  {
  }

  lemma HandleFillKeepsSeen(b: Bot)
    requires SeenOk(b) && BatchOk(b) && b.pc.HandleOne?
    requires b.updates.Some? && b.i < |b.updates.value|
    ensures SeenOk(HandleFill(b))
  {
    hide Wrap, AsInt64;
    var b' := HandleFill(b);
    assert b'.dispatched[|b.dispatched|] == b.updates.value[b.i];
    if j :| 0 <= j < |b.dispatched| && AsInt64(b.dispatched[j]) == b.maxUpdateId {
      assert b'.dispatched[j] == b.dispatched[j];
    }
  }

  // ---------------------------------------------------------------- visiting completions

  /** The next completion to visit, and the request behind it. */
  lemma NextCompletion(b: Bot)
    requires BotInv(b) && b.pc.Visit? && b.head < |b.sys.ring.posted|
    ensures |b.sys.origin| == |b.sys.ring.posted| && b.head == |b.visited|
    ensures
      var k := b.sys.origin[b.head];
      && k < |b.sys.ring.requests| && k !in b.sys.dropped && k !in b.sys.origin[..b.head]
      && b.sys.ring.posted[b.head].op == b.sys.ring.requests[k].op
      && b.sys.ring.posted[b.head].userData == b.sys.ring.requests[k].userData
      && b.sys.origin[..b.head + 1] == b.sys.origin[..b.head] + [k]
  {
    hide WI.Inv, ClientOk, WorksOk, ExitsOk, DroppedOk, FinishedOk, FreesOk;
    assert CompletionOf(b.sys, b.head);
  }

  /** Visiting the completion of request `r` leaves every other request as live as it was. */
  lemma VisitLive(b: Bot, b': Bot, r: nat)
    requires b'.sys == b.sys && |b'.visited| == |b.visited| + 1 <= |b.sys.origin|
    requires b.sys.origin[..|b.visited| + 1] == b.sys.origin[..|b.visited|] + [r]
    ensures forall k: nat :: LiveUpdates(b', k) <==> LiveUpdates(b, k) && k != r
  {
  }

  lemma VisitKeepsToken(b: Bot)
    requires BotInv(b) && b.pc.Visit? && b.head < |b.sys.ring.posted|
    ensures TokenOk(VisitCqe(b))
  {
    NextCompletion(b);
    var b', r := VisitCqe(b), b.sys.origin[b.head];
    hide SysInv, StreamOk, SeenOk, OffsetOk, BatchOk, RefsOk, PlaceOk;
    VisitLive(b, b', r);
    assert RequestOk(b.sys.ring.requests[r]);
    assert LiveUpdates(b, r) <==> b.sys.ring.requests[r].op == OP_TG_API_CALL;
    hide LiveUpdates;
    assert LiveUpdates(b, r) <==> b.token == At(r);
    forall k: nat ensures LiveUpdates(b', k) <==> b'.token == At(k) {
      assert LiveUpdates(b, k) <==> b.token == At(k);
    }
  }

  /** The token depends on the ring, on what has been visited, and on the stage only. */
  lemma TokenFrame(b: Bot, b': Bot)
    requires TokenOk(b) && b'.token == b.token && HoldsToken(b'.pc) == HoldsToken(b.pc)
    requires b'.visited == b.visited && b'.sys.origin == b.sys.origin && b'.sys.dropped == b.sys.dropped
    requires b'.sys.ring.requests == b.sys.ring.requests
    ensures TokenOk(b')
  {
    hide LiveUpdates;
    forall k: nat ensures LiveUpdates(b', k) <==> b'.token == At(k) {
      LiveFrame(b, b', k);
      assert LiveUpdates(b, k) <==> b.token == At(k);
    }
  }

  lemma VisitKeepsStream(b: Bot)
    requires StreamOk(b) && b.pc.Visit? && b.sys.ring.cqHead <= |b.sys.ring.posted|
    ensures StreamOk(VisitCqe(b))
  {
    if b.head < |b.sys.ring.posted| {
      var posted := b.sys.ring.posted;
      assert b.visited + [posted[b.head]] == posted[..b.head + 1];
    }
  }

  lemma VisitKeepsBatch(b: Bot)
    requires BotInv(b) && b.pc.Visit?
    requires VisitCqe(b).token.InHand? ==> b.token.At?
    ensures BatchOk(VisitCqe(b)) && OffsetOk(VisitCqe(b)) && SeenOk(VisitCqe(b))
  {
    hide SysInv, TokenOk, StreamOk, RefsOk, RequestsOk;
  }

  /** A getUpdates completion is that of the token. */
  lemma VisitTakesToken(b: Bot)
    requires BotInv(b) && b.pc.Visit? && VisitCqe(b).token.InHand?
    ensures b.token.At?
  {
    NextCompletion(b);
    hide SysInv, StreamOk, SeenOk, OffsetOk, BatchOk, RefsOk, PlaceOk;
    var r := b.sys.origin[b.head];
    assert LiveUpdates(b, r);
  }

  lemma VisitKeepsInv(b: Bot)
    requires BotInv(b) && b.pc.Visit?
    ensures BotInv(VisitCqe(b))
  {
    hide SysInv, TokenOk, StreamOk, SeenOk, OffsetOk, BatchOk, PlaceOk, RefsOk, RequestsOk, VisitCqe;
    OriginLength(b.sys);
    if b.head < |b.sys.ring.posted| { VisitKeepsToken(b); } else { VisitEndKeepsToken(b); }
    if VisitCqe(b).token.InHand? { VisitTakesToken(b); }
    VisitKeepsStream(b);
    VisitKeepsBatch(b);
    VisitKeepsRest(b);
  }

  lemma VisitEndKeepsToken(b: Bot)
    requires TokenOk(b) && b.pc.Visit? && b.head >= |b.sys.ring.posted|
    ensures TokenOk(VisitCqe(b)) && !VisitCqe(b).token.InHand?
  {
    hide LiveUpdates;
    TokenFrame(b, VisitCqe(b));
  }

  lemma VisitKeepsRest(b: Bot)
    requires PlaceOk(b) && RefsOk(b) && RequestsOk(b) && b.pc.Visit?
    ensures PlaceOk(VisitCqe(b)) && RefsOk(VisitCqe(b)) && RequestsOk(VisitCqe(b)) && VisitCqe(b).sys == b.sys
  {
    hide RequestOk, HandleRequests;
  }

  // ---------------------------------------------------------------- the batch

  lemma NextInBatchKeepsLoop(b: Bot)
    requires PlaceOk(b) && StreamOk(b) && RequestsOk(b) && OffsetOk(b) && TokenOk(b)
    requires b.pc.Batch? && b.updates.Some?
    ensures
      var b' := NextInBatch(b);
      PlaceOk(b') && StreamOk(b') && RequestsOk(b') && OffsetOk(b')
  {
    hide LiveUpdates, RequestOk;
  }

  lemma NextInBatchKeepsRest(b: Bot)
    requires SeenOk(b) && BatchOk(b) && RefsOk(b) && b.pc.Batch? && b.updates.Some?
    ensures
      var b' := NextInBatch(b);
      SeenOk(b') && BatchOk(b') && RefsOk(b')
  {
    hide HandleRequests;
  }

  lemma NextInBatchKeepsInv(b: Bot)
    requires BotInv(b) && CanMove(b, NextUpdate)
    ensures BotInv(NextInBatch(b))
  {
    hide SysInv, HandleRequests, TokenOk, Possible;
    var b' := NextInBatch(b);
    TokenFrame(b, b');
    NextInBatchKeepsLoop(b);
    NextInBatchKeepsRest(b);
  }

  // ---------------------------------------------------------------- replies

  /** A worker executing a getUpdates request is executing the token. */
  lemma ExecutingIsToken(b: Bot, w: nat)
    requires BotInv(b) && w < |b.sys.wq.workers| && b.sys.wq.workers[w].Executing?
    requires b.sys.wq.workers[w].id < |b.sys.wq.works|
    requires b.sys.wq.works[b.sys.wq.workers[w].id].arg.sqe.op == OP_TG_API_CALL
    ensures b.token == At(b.sys.wq.works[b.sys.wq.workers[w].id].arg.request)
    ensures b.token.k < |b.sys.ring.requests|
    ensures b.sys.wq.works[b.sys.wq.workers[w].id].arg.sqe == b.sys.ring.requests[b.token.k]
  {
    var id := b.sys.wq.workers[w].id;
    var k := b.sys.wq.works[id].arg.request;
    assert WorkOf(b.sys, id);
    ExecutingNotYetCalled(b.sys.wq, w);
    OutstandingRequest(b.sys, id);
    OriginLength(b.sys);
    hide SysInv;
    PrefixExcludes(b.sys.origin, |b.visited|, k);
    assert LiveUpdates(b, k);
  }

  lemma ExecutingNotYetCalled(wq: Queue<Data>, w: nat)
    requires WI.Inv(wq) && w < |wq.workers| && wq.workers[w].Executing? && wq.workers[w].id < |wq.works|
    ensures !Executed(wq, wq.workers[w].id) && wq.workers[w].id !in wq.cancelled
  {
    assert WI.Is(wq.workers[w], WI.RunningClass);
  }

  lemma ReplyKeepsInv(b: Bot, w: nat, ids: seq<uint64>)
    requires BotInv(b) && CanMove(b, Reply(w, ids))
    ensures BotInv(b.(updates := Some(ids)))
  {
    ExecutingIsToken(b, w);
    hide SysInv, TokenOk, SeenOk, RequestsOk, PlaceOk, StreamOk, OffsetOk, BatchOk, RefsOk;
    TokenFrame(b, b.(updates := Some(ids)));
    ReplyKeepsRest(b, ids);
    ReplyKeepsOffset(b, ids);
  }

  lemma ReplyKeepsRest(b: Bot, ids: seq<uint64>)
    requires StreamOk(b) && SeenOk(b) && RequestsOk(b) && PlaceOk(b) && RefsOk(b) && !HoldsToken(b.pc)
    ensures
      var b' := b.(updates := Some(ids));
      StreamOk(b') && SeenOk(b') && RequestsOk(b') && PlaceOk(b') && RefsOk(b')
  {
    hide RequestOk, HandleRequests;
  }

  lemma ReplyKeepsOffset(b: Bot, ids: seq<uint64>)
    requires OffsetOk(b) && TokenOk(b) && b.token.At?
    ensures OffsetOk(b.(updates := Some(ids))) && BatchOk(b.(updates := Some(ids)))
  {
    hide LiveUpdates;
  }

  // ---------------------------------------------------------------- advancing and teardown

  lemma AdvanceKeepsInv(b: Bot, b': Bot)
    requires BotInv(b) && b.pc.AdvanceCq? && Possible(b.sys, Advance(b.count))
    requires b' == b.(pc := b'.pc, sys := Advanced(b.sys, b.count)) && (b'.pc == TopSubmit(false) || b'.pc.Stopped?)
    ensures BotInv(b')
  {
    hide SysInv, TokenOk, SeenOk, RequestsOk, PlaceOk, StreamOk, OffsetOk, BatchOk, RefsOk;
    StepKeepsSysInv(b.sys, Advance(b.count));
    TokenFrame(b, b');
    PcIrrelevantFrame(b, b');
    AdvanceKeepsLoop(b, b');
  }

  lemma AdvanceKeepsLoop(b: Bot, b': Bot)
    requires PlaceOk(b) && StreamOk(b) && OffsetOk(b) && RefsOk(b)
    requires b.pc.AdvanceCq? && (b'.pc == TopSubmit(false) || b'.pc.Stopped?)
    requires b' == b.(pc := b'.pc, sys := Advanced(b.sys, b.count))
    ensures PlaceOk(b') && StreamOk(b') && OffsetOk(b') && BatchOk(b') && RefsOk(b')
  {
    assert HandleRequests(b'.sys) == HandleRequests(b.sys);
    hide HandleRequests;
  }

  lemma PcIrrelevantFrame(b: Bot, b': Bot)
    requires RequestsOk(b) && SeenOk(b)
    requires b'.sys.ring.requests == b.sys.ring.requests
    requires b'.maxUpdateId == b.maxUpdateId && b'.dispatched == b.dispatched
    requires !HasUpdateInHand(b.pc) && !HasUpdateInHand(b'.pc)
    ensures RequestsOk(b') && SeenOk(b')
  {
  }

  lemma TeardownKeepsInv(b: Bot, e: Event)
    requires BotInv(b) && CanMove(b, Teardown(e))
    ensures BotInv(Moved(b, Teardown(e)))
  {
    StepKeepsSysInv(b.sys, e);
    TeardownMovesRing(b.sys, e);
    hide SysInv, RequestsOk, SeenOk, OffsetOk, StreamOk, TokenOk, RefsOk, BatchOk, RingMoved;
    var b' := Ring(b, Next(b.sys, e));
    RingMovedKeepsInv(b, Next(b.sys, e), b.pc);
    assert b'.(pc := b.pc) == b';
  }

  lemma TeardownMovesRing(s: System, e: Event)
    requires Possible(s, e) && (e.StopRing? || e.DestroyWq?) && s.client.Idle?
    ensures RingMoved(s, Next(s, e))
    ensures Next(s, e).client == s.client
  {
    hide Apply, PendingRequests, PendingHandles;
  }

  // ---------------------------------------------------------------- every move

  /** Every move keeps the invariant of the bot. */
  lemma MoveKeepsInv(b: Bot, m: Move)
    requires BotInv(b) && CanMove(b, m)
    ensures BotInv(Moved(b, m))
  {
    hide BotInv;
    match m
    case Fill => if b.pc.Arm? { ArmFillKeepsInv(b); } else { HandleFillKeepsInv(b); }
    case NestedSubmit =>
      BeginSubmitKeepsToken(b);
      SubmitMoveKeepsInv(b, BeginSubmit, if b.pc.Arm? then ArmSubmit(b.pc.after) else HandleSubmit(b.pc.res));
    case TopBegin =>
      BeginSubmitKeepsToken(b);
      SubmitMoveKeepsInv(b, BeginSubmit, TopSubmit(true));
    case InRing(e) => InRingKeepsInv(b, e);
    case Background(e) => BackgroundKeepsInv(b, e);
    case VisitNext => VisitKeepsInv(b);
    case NextUpdate => NextInBatchKeepsInv(b);
    case AdvanceNow => AdvanceKeepsInv(b, Moved(b, m));
    case Reply(w, ids) => ReplyKeepsInv(b, w, ids);
    case Teardown(e) => TeardownKeepsInv(b, e);
  }

  lemma InRingKeepsInv(b: Bot, e: Event)
    requires BotInv(b) && CanMove(b, InRing(e))
    ensures BotInv(Moved(b, InRing(e)))
  {
    hide BotInv, Next, Possible;
    if b.pc.Wait? {
      WaitMoveKeepsInv(b, e);
    } else {
      SubmitMoveKeepsInv(b, e, if e.EndSubmit? then AfterSubmit(b.pc) else b.pc);
      var b' := Ring(b, Next(b.sys, e));
      assert !e.EndSubmit? ==> b'.(pc := b.pc) == b';
    }
  }

  lemma InitHasBotInv(sys: System)
    requires IsInitSystem(sys)
    ensures BotInv(InitBot(sys))
  {
    InitialFacts(sys);
    hide SysInv;
    assert HandleRequests(sys) == {};
  }

  lemma {:induction false} BotRunKeepsInv(states: seq<Bot>, moves: seq<Move>, k: nat)
    requires IsBotRun(states, moves) && BotInv(states[0]) && k <= |moves|
    ensures BotInv(states[k])
  {
    hide BotInv, CanMove, Moved;
    if k > 0 {
      BotRunKeepsInv(states, moves, k - 1);
      MoveKeepsInv(states[k - 1], moves[k - 1]);
    }
  }

  lemma ReachableHasBotInv(b: Bot)
    requires ReachableBot(b)
    ensures BotInv(b)
  {
    hide BotInv, CanMove, Moved;
    var states: seq<Bot>, moves: seq<Move> :|
      IsBotRun(states, moves) && IsInitBot(states[0]) && states[|moves|] == b;
    InitHasBotInv(states[0].sys);
    BotRunKeepsInv(states, moves, |moves|);
  }
}
