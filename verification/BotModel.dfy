/** The getUpdates loop of the bot, driving the ring. The main thread is the ring's client; the
    replies of the Telegram API are the environment's. */
module BotModel {
  import opened Wrappers
  import opened Uint32
  import opened Circular
  import opened RingModel

  /** Where `arm_update_sqe` returns to: the start of the loop, or `process_cqe` with the value
      `process_tg_api_updates` returns. */
  datatype After = Boot | Process(res: int)

  /** Where the main thread stands. `retry` is set on the second `gw_ring_get_sqe`, after the
      nested `gw_ring_submit`. */
  datatype Pc =
    | Arm(after: After, retry: bool)
    | ArmSubmit(after: After)
    | TopSubmit(begun: bool)
    | Wait
    | Visit
    | Batch(res: int)
    | HandleOne(res: int, retry: bool)
    | HandleSubmit(res: int)
    | AdvanceCq
    | Stopped

  /** The one getUpdates request: a request of the ring, in the main thread's hands, or lost
      with a failed post or punt. */
  datatype Token = At(k: nat) | InHand | Lost

  /** `head`, `count`, `ret` and `i` are locals of `run_tg_bot_loop` and
      `process_tg_api_updates`; `updates`, `maxUpdateId` are fields of the bot's context;
      `visited` are the completions processed so far, `dispatched` the update ids handed to the
      modules; `base` and `before` recall `maxUpdateId` and `|dispatched|` at the start of the
      current batch. `i` is a `uint32_t`. */
  datatype Bot = Bot(
    sys: System,
    pc: Pc,
    head: nat,
    count: nat,
    ret: int,
    i: nat,
    updates: Option<seq<uint64>>,
    maxUpdateId: int,
    dispatched: seq<uint64>,
    incRefs: nat,
    visited: seq<Cqe>,
    token: Token,
    base: int,
    before: nat)

  datatype Move =
    | Fill
    | NestedSubmit
    | TopBegin
    | InRing(e: Event)
    | VisitNext
    | NextUpdate
    | AdvanceNow
    | Background(e: Event)
    | Reply(w: nat, ids: seq<uint64>)
    | Teardown(e: Event)

  /** What the API promises to answer to a getUpdates call with `offset`: distinct, fully
      parsed ids from `offset` on, fewer than 2^32 of them. */
  ghost predicate LegalReply(ids: seq<uint64>, offset: int) {
    && |ids| < MODULUS
    && (forall j :: 0 <= j < |ids| ==> offset <= ids[j] < INT64_MAX)
    && (forall j, l :: 0 <= j < l < |ids| ==> ids[j] != ids[l])
  }

  function UpdatesSqe(offset: int): Sqe {
    Sqe(OP_TG_API_CALL, API_GET_UPDATES, ApiCall(API_GET_UPDATES, offset))
  }

  function HandleSqe(update: uint64): Sqe {
    Sqe(OP_MODULE_HANDLE, 0, Handle(update))
  }

  /** The ring has moved to `sys`; a token that was dropped is lost. */
  function Ring(b: Bot, sys: System): Bot {
    b.(sys := sys, token := if b.token.At? && b.token.k in sys.dropped then Lost else b.token)
  }

  predicate IsWait(e: Event) {
    e.WaitCqe? || e.WaitCqeAgain? || e.SpuriousClient?
  }

  predicate IsBackground(e: Event) {
    e.Worker? || e.Exec?
  }

  predicate InSubmit(pc: Pc) {
    pc.ArmSubmit? || pc.HandleSubmit? || pc == TopSubmit(true)
  }

  /** The request worker `w` is executing. */
  function AskedBy(b: Bot, w: nat): Sqe
    requires w < |b.sys.wq.workers| && b.sys.wq.workers[w].Executing?
    requires b.sys.wq.workers[w].id < |b.sys.wq.works|
  {
    b.sys.wq.works[b.sys.wq.workers[w].id].arg.sqe
  }

  predicate CanMove(b: Bot, m: Move) {
    match m
    case Fill => (b.pc.Arm? || (b.pc.HandleOne? && b.updates.Some? && b.i < |b.updates.value|))
                 && b.sys.client.Idle? && !SqFull(b.sys.ring)
    case NestedSubmit =>
      ((b.pc.Arm? && !b.pc.retry) || (b.pc.HandleOne? && !b.pc.retry)) && SqFull(b.sys.ring)
      && Possible(b.sys, BeginSubmit)
    case TopBegin => b.pc == TopSubmit(false) && Possible(b.sys, BeginSubmit)
    case InRing(e) =>
      && (if b.pc.Wait? then IsWait(e) else InSubmit(b.pc) && (IsIssue(e) || e.EndSubmit?))
      && Possible(b.sys, e)
    case VisitNext => b.pc.Visit?
    case NextUpdate => b.pc.Batch? && b.updates.Some?
    case AdvanceNow => b.pc.AdvanceCq? && Possible(b.sys, Advance(b.count))
    case Background(e) => IsBackground(e) && Possible(b.sys, e)
    case Reply(w, ids) =>
      && w < |b.sys.wq.workers| && b.sys.wq.workers[w].Executing? && b.sys.wq.workers[w].id < |b.sys.wq.works|
      && AskedBy(b, w).op == OP_TG_API_CALL
    case Teardown(e) => b.pc.Stopped? && (e.StopRing? || e.DestroyWq?) && Possible(b.sys, e)
  }

  /** `arm_update_sqe` has a submission entry. */
  function ArmFill(b: Bot): Bot
    requires b.pc.Arm?
  {
    var k := |b.sys.ring.requests|;
    var b' := b.(sys := Filled(b.sys, UpdatesSqe(b.maxUpdateId + 1)), updates := None, token := At(k));
    match b.pc.after
    case Boot => b'.(pc := TopSubmit(false))
    case Process(res) => if res == 0 then b'.(ret := 0, head := b.head + 1, pc := Visit)
                         else b'.(ret := res, pc := AdvanceCq)
  }

  /** `prep_update_handle` has a submission entry for the current update. */
  function HandleFill(b: Bot): Bot
    requires b.pc.HandleOne? && b.updates.Some? && b.i < |b.updates.value|
  {
    var id := b.updates.value[b.i];
    b.(sys := Filled(b.sys, HandleSqe(id)), dispatched := b.dispatched + [id],
       i := Wrap(b.i + 1), pc := Batch(b.pc.res))
  }

  /** The for-each test, and `process_cqe` up to the next access to the ring. */
  function VisitCqe(b: Bot): Bot {
    if b.head < |b.sys.ring.posted| then
      var cqe := b.sys.ring.posted[b.head];
      var b' := b.(count := b.count + 1, visited := b.visited + [cqe]);
      if cqe.op == OP_TG_API_CALL && cqe.userData == API_GET_UPDATES then
        if cqe.res < 0 then b'.(token := InHand, pc := Arm(Process(0), false))
        else if b.updates.None? then b'.(token := InHand, pc := Arm(Process(cqe.res), false))
        else b'.(token := InHand, pc := Batch(cqe.res), i := 0, base := b.maxUpdateId, before := |b.dispatched|)
      else b'.(ret := 0, head := b.head + 1)
    else b.(pc := AdvanceCq)
  }

  /** The loop test of `process_tg_api_updates`, and its body up to `gw_ring_get_sqe`. */
  function NextInBatch(b: Bot): Bot
    requires b.pc.Batch? && b.updates.Some?
  {
    if b.i < |b.updates.value| then
      var id := b.updates.value[b.i];
      b.(maxUpdateId := if AsInt64(id) > b.maxUpdateId then AsInt64(id) else b.maxUpdateId,
         incRefs := b.incRefs + 1, pc := HandleOne(b.pc.res, false))
    else b.(pc := Arm(Process(b.pc.res), false))
  }

  /** A return of `gw_ring_wait_cqe`, if the client is no longer waiting. */
  function AfterWait(b: Bot): Bot {
    if !b.sys.client.Idle? then b
    else if b.sys.ring.shouldStop then b.(pc := Stopped)
    else b.(ret := ReadyCount(b.sys.ring.cqHead, |b.sys.ring.posted|), head := b.sys.ring.cqHead, count := 0,
            pc := Visit)
  }

  function AfterSubmit(pc: Pc): Pc
    requires InSubmit(pc)
  {
    match pc
    case ArmSubmit(after) => Arm(after, true)
    case HandleSubmit(res) => HandleOne(res, true)
    case _ => Wait
  }

  function Moved(b: Bot, m: Move): Bot
    requires CanMove(b, m)
  {
    match m
    case Fill => if b.pc.Arm? then ArmFill(b) else HandleFill(b)
    case NestedSubmit =>
      b.(sys := Next(b.sys, BeginSubmit),
         pc := if b.pc.Arm? then ArmSubmit(b.pc.after) else HandleSubmit(b.pc.res))
    case TopBegin => b.(sys := Next(b.sys, BeginSubmit), pc := TopSubmit(true))
    case InRing(e) =>
      var b' := Ring(b, Next(b.sys, e));
      if b.pc.Wait? && !e.SpuriousClient? then AfterWait(b')
      else if e.EndSubmit? then b'.(pc := AfterSubmit(b.pc))
      else b'
    case VisitNext => VisitCqe(b)
    case NextUpdate => NextInBatch(b)
    case AdvanceNow =>
      b.(sys := Advanced(b.sys, b.count), pc := if b.ret == 0 then TopSubmit(false) else Stopped)
    case Background(e) => Ring(b, Next(b.sys, e))
    case Reply(w, ids) => b.(updates := Some(ids))
    case Teardown(e) => Ring(b, Next(b.sys, e))
  }

  /** The bot when `run_tg_bot` is about to arm its first request. */
  function InitBot(sys: System): Bot {
    Bot(sys, Arm(Boot, false), 0, 0, 0, 0, None, 0, [], 0, [], InHand, 0, 0)
  }

  ghost predicate IsInitBot(b: Bot) {
    IsInitSystem(b.sys) && b == InitBot(b.sys)
  }

  ghost predicate IsBotRun(states: seq<Bot>, moves: seq<Move>) {
    && |states| == |moves| + 1
    && forall k {:trigger moves[k]} :: 0 <= k < |moves| ==>
         CanMove(states[k], moves[k]) && states[k + 1] == Moved(states[k], moves[k])
  }

  /** A reply keeps the API's promise. Nothing else is up to the API. */
  ghost predicate IsLegal(b: Bot, m: Move)
    requires CanMove(b, m)
  {
    m.Reply? ==>
      && AskedBy(b, m.w).payload.ApiCall?
      && LegalReply(m.ids, AskedBy(b, m.w).payload.offset)
  }

  ghost predicate IsLegalRun(states: seq<Bot>, moves: seq<Move>) {
    && IsBotRun(states, moves)
    && forall k {:trigger moves[k]} :: 0 <= k < |moves| ==> IsLegal(states[k], moves[k])
  }

  /** Reachable with legal replies only. */
  ghost predicate ReachableLegally(b: Bot) {
    exists states: seq<Bot>, moves: seq<Move> ::
      IsLegalRun(states, moves) && IsInitBot(states[0]) && states[|moves|] == b
  }

  ghost predicate ReachableBot(b: Bot) {
    exists states: seq<Bot>, moves: seq<Move> ::
      IsBotRun(states, moves) && IsInitBot(states[0]) && states[|moves|] == b
  }
}
