/** What the processing of completions does to the bot's context, as functions; and that the
    moves of the transition system, however they interleave with the workers, come to just
    that. */
module BotUpdates {
  import opened Wrappers
  import opened Uint32
  import opened WorkQueueModel
  import opened RingModel
  import opened RingInvariant
  import opened BotModel
  import opened BotInvariant
  import BS = BotSafety

  /** The bot's context, with the requests it has filled in, the update ids it has handed to
      the modules and the number of references it has taken. */
  datatype Context = Context(
    updates: Option<seq<uint64>>,
    maxUpdateId: int,
    dispatched: seq<uint64>,
    incRefs: nat,
    requests: seq<Sqe>)

  /** An update of the batch is looked at, and its reference taken. */
  function Noted(c: Context, id: uint64): Context {
    c.(maxUpdateId := if AsInt64(id) > c.maxUpdateId then AsInt64(id) else c.maxUpdateId, incRefs := c.incRefs + 1)
  }

  function HandedOver(c: Context, id: uint64): Context {
    c.(dispatched := c.dispatched + [id], requests := c.requests + [HandleSqe(id)])
  }

  function Handled(c: Context, ids: seq<uint64>): Context
    decreases |ids|
  {
    if ids == [] then c else Handled(HandedOver(Noted(c, ids[0]), ids[0]), ids[1..])
  }

  /** `arm_update_sqe`. */
  function Rearmed(c: Context): Context {
    c.(updates := None, requests := c.requests + [UpdatesSqe(c.maxUpdateId + 1)])
  }

  /** `process_tg_api_updates`. */
  function UpdatesProcessed(c: Context, res: int): Context {
    if res < 0 || c.updates.None? then Rearmed(c) else Rearmed(Handled(c, c.updates.value))
  }

  predicate IsUpdatesCqe(cqe: Cqe) {
    cqe.op == OP_TG_API_CALL && cqe.userData == API_GET_UPDATES
  }

  /** `process_cqe`: the context it leaves, and its result. */
  function Processed(c: Context, cqe: Cqe): Context {
    if IsUpdatesCqe(cqe) then UpdatesProcessed(c, cqe.res) else c
  }

  function ProcessResult(cqe: Cqe): int {
    if IsUpdatesCqe(cqe) && cqe.res >= 0 then cqe.res else 0
  }

  function AllProcessed(c: Context, cqes: seq<Cqe>): Context {
    if cqes == [] then c else Processed(AllProcessed(c, cqes[..|cqes| - 1]), cqes[|cqes| - 1])
  }

  // ---------------------------------------------------------------- what a batch comes to

  /** One MODULE_HANDLE request for each update. */
  function HandleSqes(ids: seq<uint64>): seq<Sqe> {
    seq(|ids|, j requires 0 <= j < |ids| => Sqe(OP_MODULE_HANDLE, 0, Handle(ids[j])))
  }

  /** Every update of the batch is handed over once, in order, with one reference taken for
      it, and `maxUpdateId` becomes the maximum of its old value and the batch, as `int64_t`. */
  lemma {:induction false} BatchHandedOver(c: Context, ids: seq<uint64>)
    ensures
      var c' := Handled(c, ids);
      && c'.dispatched == c.dispatched + ids
      && c'.requests == c.requests + HandleSqes(ids)
      && c'.incRefs == c.incRefs + |ids|
      && c'.updates == c.updates
      && c'.maxUpdateId >= c.maxUpdateId
      && (forall j :: 0 <= j < |ids| ==> c'.maxUpdateId >= AsInt64(ids[j]))
      && (c'.maxUpdateId == c.maxUpdateId || exists j :: 0 <= j < |ids| && c'.maxUpdateId == AsInt64(ids[j]))
    decreases |ids|
  {
    BatchMaximum(c, ids);
    if ids != [] {
      hide AsInt64;
      var c1 := HandedOver(Noted(c, ids[0]), ids[0]);
      BatchHandedOver(c1, ids[1..]);
      assert [ids[0]] + ids[1..] == ids;
      assert HandleSqes(ids) == [HandleSqe(ids[0])] + HandleSqes(ids[1..]);
      assert c1.requests + HandleSqes(ids[1..]) == c.requests + HandleSqes(ids);
    }
  }

  lemma {:induction false} BatchMaximum(c: Context, ids: seq<uint64>)
    ensures
      var max := Handled(c, ids).maxUpdateId;
      && max >= c.maxUpdateId && (forall j :: 0 <= j < |ids| ==> max >= AsInt64(ids[j]))
      && (max == c.maxUpdateId || exists j :: 0 <= j < |ids| && max == AsInt64(ids[j]))
    decreases |ids|
  {
    if ids != [] {
      hide AsInt64;
      var rest, max := ids[1..], Handled(c, ids).maxUpdateId;
      BatchMaximum(HandedOver(Noted(c, ids[0]), ids[0]), rest);
      forall j | 0 <= j < |ids| ensures max >= AsInt64(ids[j]) {
        if j > 0 { assert ids[j] == rest[j - 1]; }
      }
      if j :| 0 <= j < |rest| && max == AsInt64(rest[j]) {
        assert ids[j + 1] == rest[j];
      }
    }
  }

  /** Any other completion leaves the context alone, and lets the loop go on; the result of a
      getUpdates completion is that of the call, or 0 if that failed. */
  lemma OtherCompletionsIgnored(c: Context, cqe: Cqe)
    ensures cqe.op != OP_TG_API_CALL || cqe.userData != API_GET_UPDATES ==>
              Processed(c, cqe) == c && ProcessResult(cqe) == 0
    ensures cqe.op == OP_TG_API_CALL && cqe.userData == API_GET_UPDATES ==>
              ProcessResult(cqe) == if cqe.res < 0 then 0 else cqe.res
  {
  }

  /** A getUpdates completion leaves exactly one new getUpdates request, the last one filled
      in, for the ids above every id dispatched so far, as `int64_t`; and the batch is used up. */
  lemma UpdatesRearmed(c: Context, cqe: Cqe)
    requires cqe.op == OP_TG_API_CALL && cqe.userData == API_GET_UPDATES
    requires forall j :: 0 <= j < |c.dispatched| ==> AsInt64(c.dispatched[j]) <= c.maxUpdateId
    ensures
      var c' := Processed(c, cqe);
      var ids := if cqe.res < 0 || c.updates.None? then [] else c.updates.value;
      && c'.updates.None?
      && c'.requests == c.requests + HandleSqes(ids)
                        + [Sqe(OP_TG_API_CALL, API_GET_UPDATES, ApiCall(API_GET_UPDATES, c'.maxUpdateId + 1))]
      && c'.dispatched == c.dispatched + ids && c'.incRefs == c.incRefs + |ids|
      && forall j :: 0 <= j < |c'.dispatched| ==> AsInt64(c'.dispatched[j]) < c'.maxUpdateId + 1
  {
    if !(cqe.res < 0 || c.updates.None?) {
      BatchHandedOver(c, c.updates.value);
    }
  }

  // ---------------------------------------------------------------- the moves refine it

  function ContextOf(b: Bot): Context {
    Context(b.updates, b.maxUpdateId, b.dispatched, b.incRefs, b.sys.ring.requests)
  }

  /** Holding the token, and with a batch to hand over if it is in the middle of one. */
  predicate HasOutcome(b: Bot) {
    && HoldsToken(b.pc)
    && (InBatch(b.pc) ==> b.updates.Some? && b.i <= |b.updates.value|)
    && (InBatch(b.pc) && !b.pc.Batch? ==> b.i < |b.updates.value|)
  }

  /** The context the main thread is on its way to when it next lets go of the token. */
  function Outcome(b: Bot): Context
    requires HasOutcome(b)
  {
    var c := ContextOf(b);
    if b.pc.Batch? then Rearmed(Handled(c, c.updates.value[b.i..]))
    else if InBatch(b.pc) then
      Rearmed(Handled(HandedOver(c, c.updates.value[b.i]), c.updates.value[b.i + 1..]))
    else Rearmed(c)
  }

  /** The result `process_cqe` is on its way to. */
  function PendingResult(pc: Pc): int
    requires HoldsToken(pc)
  {
    match pc
    case Batch(res) => res
    case HandleOne(res, _) => res
    case HandleSubmit(res) => res
    case Arm(Process(res), _) => res
    case ArmSubmit(Process(res)) => res
    case _ => 0
  }

  /** The main thread is taken up by a getUpdates completion: the outcome is that of
      `process_cqe` on it. */
  ghost predicate Takes(b: Bot, b': Bot) {
    && |b'.visited| == |b.visited| + 1
    && var cqe := b'.visited[|b.visited|];
       && IsUpdatesCqe(cqe) && HasOutcome(b')
       && Outcome(b') == Processed(ContextOf(b), cqe) && PendingResult(b'.pc) == ProcessResult(cqe)
  }

  /** It goes on with it, whatever the workers do: the outcome stays. */
  ghost predicate GoesOn(b: Bot, b': Bot) {
    && HasOutcome(b) && HasOutcome(b') && b'.visited == b.visited
    && Outcome(b') == Outcome(b) && PendingResult(b'.pc) == PendingResult(b.pc)
  }

  /** It is done with it: the outcome is reached, and the for-each loop left exactly if the
      result is not zero. */
  ghost predicate Releases(b: Bot, b': Bot) {
    && HasOutcome(b) && ContextOf(b') == Outcome(b) && b'.visited == b.visited
    && (!AtBoot(b.pc) ==>
          b'.ret == PendingResult(b.pc) && b'.pc == if b'.ret == 0 then Visit else AdvanceCq)
  }

  /** It is not holding the token: the context stays, but for the reply of a getUpdates
      request, and completions visited are ones `process_cqe` ignores. */
  ghost predicate Idles(b: Bot, m: Move, b': Bot) {
    && ContextOf(b') == ContextOf(b).(updates := if m.Reply? then Some(m.ids) else b.updates)
    && b.visited <= b'.visited
    && forall j :: |b.visited| <= j < |b'.visited| ==> !IsUpdatesCqe(b'.visited[j])
  }

  /** The `uint32_t` counter of the batch's loop can reach its end. */
  predicate BatchFits(b: Bot) {
    InBatch(b.pc) && b.updates.Some? ==> |b.updates.value| < MODULUS
  }

  /** At the loop test, `i` is the number of updates dispatched from the batch modulo 2^32, and
      the loop is left if and only if the whole batch has been dispatched and has fewer than 2^32
      updates. */
  lemma BatchLoopExit(b: Bot)
    requires ReachableBot(b) && CanMove(b, NextUpdate)
    ensures Progress(b) >= 0 && b.i == Wrap(Progress(b)) && b.i <= |b.updates.value|
    ensures BatchFits(b) ==> b.dispatched[b.before..] == b.updates.value[..b.i]
    ensures Moved(b, NextUpdate).pc.Arm? <==> BatchFits(b) && b.dispatched[b.before..] == b.updates.value
    ensures InBatch(Moved(b, NextUpdate).pc) <==> !Moved(b, NextUpdate).pc.Arm?
  {
    hide SysInv, TokenOk, OffsetOk, SeenOk, StreamOk, RefsOk, RequestsOk, PlaceOk, ReachableBot, Possible;
    ReachableHasBotInv(b);
    assert b.updates.value[..|b.updates.value|] == b.updates.value;
    assert |b.updates.value[..b.i]| == b.i;
  }

  lemma OversizedBatchGoesOn(b: Bot, m: Move)
    requires BotInv(b) && CanMove(b, m) && InBatch(b.pc) && !BatchFits(b)
    ensures
      var b' := Moved(b, m);
      InBatch(b'.pc) && b'.updates == b.updates && b'.visited == b.visited
  {
    hide SysInv, TokenOk, OffsetOk, SeenOk, StreamOk, RefsOk, RequestsOk;
    if m.Reply? {
      ExecutingIsToken(b, m.w);
      TokenNotInHand(b);
    }
    hide Possible, Next;
  }

  lemma TokenNotInHand(b: Bot)
    requires TokenOk(b)
    ensures b.token.At? ==> !HoldsToken(b.pc)
  {
    hide LiveUpdates;
  }

  /** A batch of 2^32 updates or more is never done with: whatever happens from then on, the main
      thread is in it, with the same updates, and visits no further completion. */
  lemma {:induction false} OversizedBatchNeverEnds(states: seq<Bot>, moves: seq<Move>, i: nat, j: nat)
    requires IsBotRun(states, moves) && IsInitBot(states[0]) && i <= j <= |moves|
    requires InBatch(states[i].pc) && !BatchFits(states[i])
    ensures InBatch(states[j].pc) && states[j].updates == states[i].updates
    ensures states[j].visited == states[i].visited
    decreases j - i
  {
    hide BotInv, CanMove, Moved;
    if i < j {
      InitHasBotInv(states[0].sys);
      BotRunKeepsInv(states, moves, j - 1);
      OversizedBatchNeverEnds(states, moves, i, j - 1);
      OversizedBatchGoesOn(states[j - 1], moves[j - 1]);
    }
  }

  /** Every move of every run is one of these four, as the token tells, whatever the API
      replies; save for a batch that never ends. */
  lemma MovesRefineProcessing(b: Bot, m: Move)
    requires ReachableBot(b) && CanMove(b, m) && BatchFits(b)
    ensures
      var b' := Moved(b, m);
      if HoldsToken(b.pc) then if HoldsToken(b'.pc) then GoesOn(b, b') else Releases(b, b')
      else if HoldsToken(b'.pc) then Takes(b, b') else Idles(b, m, b')
  {
    ReachableHasBotInv(b);
    match m
    case Fill => FillRefines(b);
    case NextUpdate => NextUpdateRefines(b);
    case VisitNext => VisitRefines(b);
    case Reply(w, ids) =>
      if HoldsToken(b.pc) { BS.UpdatesNotShared(b, w); }
    case AdvanceNow =>
    case NestedSubmit => RingMoveRefines(b, m, BeginSubmit);
    case TopBegin => RingMoveRefines(b, m, BeginSubmit);
    case InRing(e) => RingMoveRefines(b, m, e);
    case Background(e) => RingMoveRefines(b, m, e);
    case Teardown(e) => TeardownRefines(b, e);
  }

  lemma FillRefines(b: Bot)
    requires BotInv(b) && CanMove(b, Fill) && BatchFits(b)
    ensures
      var b' := Moved(b, Fill);
      if HoldsToken(b'.pc) then GoesOn(b, b') else Releases(b, b')
  {
    hide SysInv, TokenOk, OffsetOk, SeenOk, StreamOk, RefsOk, RequestsOk, PlaceOk, SqFull;
  }

  lemma NextUpdateRefines(b: Bot)
    requires BotInv(b) && CanMove(b, NextUpdate)
    ensures GoesOn(b, Moved(b, NextUpdate))
  {
    hide SysInv, TokenOk, OffsetOk, SeenOk, StreamOk, RefsOk, RequestsOk, PlaceOk;
    var rest := b.updates.value[b.i..];
    if b.i < |b.updates.value| { assert rest[1..] == b.updates.value[b.i + 1..]; }
  }

  lemma VisitRefines(b: Bot)
    requires BotInv(b) && CanMove(b, VisitNext)
    ensures
      var b' := Moved(b, VisitNext);
      if HoldsToken(b'.pc) then Takes(b, b') else Idles(b, VisitNext, b')
  {
    hide SysInv, TokenOk, OffsetOk, SeenOk, RefsOk, RequestsOk, PlaceOk;
    if b.updates.Some? { assert b.updates.value[0..] == b.updates.value; }
  }

  /** The context, and how far the main thread has come with it, are as before. */
  ghost predicate SameProgress(b: Bot, b': Bot) {
    && ContextOf(b') == ContextOf(b) && b'.i == b.i && b'.visited == b.visited
    && HoldsToken(b'.pc) == HoldsToken(b.pc) && InBatch(b'.pc) == InBatch(b.pc) && b'.pc.Batch? == b.pc.Batch?
    && (HoldsToken(b.pc) ==> PendingResult(b'.pc) == PendingResult(b.pc))
  }

  lemma SameProgressRefines(b: Bot, m: Move, b': Bot)
    requires BatchOk(b) && SameProgress(b, b') && !m.Reply?
    ensures if HoldsToken(b.pc) then GoesOn(b, b') else Idles(b, m, b')
  {
  }

  lemma RingMoveSameProgress(b: Bot, m: Move, e: Event)
    requires CanMove(b, m) && Possible(b.sys, e) && RingMoved(b.sys, Next(b.sys, e))
    requires m == InRing(e) || m == Background(e) || (e.BeginSubmit? && (m.NestedSubmit? || m.TopBegin?))
    ensures SameProgress(b, Moved(b, m))
  {
    hide Possible, Next, CqReady, IsIssue, IsWait;
  }

  lemma RingMoveRefines(b: Bot, m: Move, e: Event)
    requires BotInv(b) && CanMove(b, m)
    requires m == InRing(e) || m == Background(e) || (e.BeginSubmit? && (m.NestedSubmit? || m.TopBegin?))
    ensures
      var b' := Moved(b, m);
      && HoldsToken(b'.pc) == HoldsToken(b.pc)
      && if HoldsToken(b.pc) then GoesOn(b, b') else Idles(b, m, b')
  {
    assert Possible(b.sys, e);
    hide SysInv, TokenOk, OffsetOk, SeenOk, StreamOk, RefsOk, RequestsOk, PlaceOk, Possible, Next, Moved, RingMoved, Outcome;
    EventMovesRing(b.sys, e);
    RingMoveSameProgress(b, m, e);
    SameProgressRefines(b, m, Moved(b, m));
  }

  lemma TeardownRefines(b: Bot, e: Event)
    requires BotInv(b) && CanMove(b, Teardown(e))
    ensures Idles(b, Teardown(e), Moved(b, Teardown(e)))
  {
    hide SysInv, TokenOk, OffsetOk, SeenOk, StreamOk, RefsOk, RequestsOk, PlaceOk;
    hide Apply, Enabled, PendingRequests, PendingHandles;
  }
}
