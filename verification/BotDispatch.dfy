/** Dispatch at most once: what the bot makes of replies that keep the API's promise. */
module BotDispatch {
  import opened Uint32
  import opened Wrappers
  import opened RingModel
  import opened RingInvariant
  import opened BotModel
  import opened BotInvariant

  // ---------------------------------------------------------------- the invariant

  /** No id is dispatched twice, and the next offset fits an `int64_t`. */
  ghost predicate OnceOk(b: Bot) {
    && 0 <= b.maxUpdateId < INT64_MAX
    && (forall j :: 0 <= j < |b.dispatched| ==> b.dispatched[j] <= b.maxUpdateId)
    && forall j, l :: 0 <= j < l < |b.dispatched| ==> b.dispatched[j] != b.dispatched[l]
  }

  /** A reply that is waiting is above every id seen. */
  ghost predicate AnswerOk(b: Bot) {
    b.token.At? && b.updates.Some? ==> LegalReply(b.updates.value, b.maxUpdateId + 1)
  }

  /** Inside a batch, what was dispatched before it is below it. */
  ghost predicate ShareOk(b: Bot) {
    InBatch(b.pc) ==>
      && b.updates.Some? && LegalReply(b.updates.value, b.base + 1)
      && b.before <= |b.dispatched| && forall j :: 0 <= j < b.before ==> b.dispatched[j] <= b.base
  }

  ghost predicate DispatchInv(b: Bot) {
    OnceOk(b) && AnswerOk(b) && ShareOk(b)
  }

  // ---------------------------------------------------------------- moves

  /** A move that leaves the updates alone. */
  ghost predicate SameShare(b: Bot, b': Bot) {
    && b'.updates == b.updates && b'.maxUpdateId == b.maxUpdateId && b'.dispatched == b.dispatched
    && b'.i == b.i && b'.base == b.base && b'.before == b.before
    && (b'.token.At? ==> b.token.At?) && (InBatch(b'.pc) ==> InBatch(b.pc))
  }

  lemma SameShareKeepsDispatch(b: Bot, b': Bot)
    requires DispatchInv(b) && SameShare(b, b')
    ensures DispatchInv(b')
  {
    hide LegalReply;
  }

  lemma OtherMoveKeepsShare(b: Bot, m: Move)
    requires CanMove(b, m) && !m.Fill? && !m.VisitNext? && !m.NextUpdate? && !m.Reply?
    ensures SameShare(b, Moved(b, m))
  {
    hide Possible, Next;
  }

  lemma ArmKeepsDispatch(b: Bot)
    requires DispatchInv(b) && b.pc.Arm?
    ensures DispatchInv(ArmFill(b))
  {
    hide LegalReply;
  }

  /** The id dispatched is new: it is above everything dispatched before the batch, and
      differs from the rest of the batch. */
  lemma HandleKeepsDispatch(b: Bot)
    requires DispatchInv(b) && b.pc.HandleOne? && BatchOk(b) && TokenOk(b)
    ensures b.updates.Some? && b.i < |b.updates.value| && DispatchInv(HandleFill(b))
  {
    hide LiveUpdates;
    var b', batch := HandleFill(b), b.updates.value;
    var id := batch[b.i];
    forall j | 0 <= j < |b.dispatched| ensures b.dispatched[j] != id {
      if j >= b.before {
        assert b.dispatched[j] == b.dispatched[b.before..][j - b.before] == batch[..b.i][j - b.before];
      }
    }
  }

  lemma VisitKeepsDispatch(b: Bot)
    requires DispatchInv(b) && BotInv(b) && b.pc.Visit?
    ensures DispatchInv(VisitCqe(b))
  {
    hide SysInv, TokenOk, StreamOk, RefsOk, RequestsOk, PlaceOk, OffsetOk, BatchOk, DispatchInv, VisitCqe;
    if VisitCqe(b).token.InHand? { VisitTakesToken(b); }
    TakenBatchIsAbove(b);
  }

  lemma TakenBatchIsAbove(b: Bot)
    requires DispatchInv(b) && SeenOk(b) && b.pc.Visit? && (VisitCqe(b).token.InHand? ==> b.token.At?)
    ensures DispatchInv(VisitCqe(b))
  {
    hide LegalReply;
    assert b.dispatched[..|b.dispatched|] == b.dispatched;
  }

  lemma NextKeepsDispatch(b: Bot)
    requires DispatchInv(b) && TokenOk(b) && b.pc.Batch? && b.updates.Some?
    ensures DispatchInv(NextInBatch(b))
  {
    hide LiveUpdates;
  }

  lemma ReplyKeepsDispatch(b: Bot, w: nat, ids: seq<uint64>)
    requires DispatchInv(b) && BotInv(b) && CanMove(b, Reply(w, ids)) && IsLegal(b, Reply(w, ids))
    ensures DispatchInv(b.(updates := Some(ids)))
  {
    ReplyHasOffset(b, w);
    hide BotInv, SysInv, CanMove, LegalReply;
  }

  /** The offset asked for is above every id seen, and the batch before it is done with. */
  lemma ReplyHasOffset(b: Bot, w: nat)
    requires BotInv(b) && w < |b.sys.wq.workers| && b.sys.wq.workers[w].Executing?
    requires b.sys.wq.workers[w].id < |b.sys.wq.works| && AskedBy(b, w).op == OP_TG_API_CALL
    ensures AskedBy(b, w) == UpdatesSqe(b.maxUpdateId + 1) && b.token.At? && !InBatch(b.pc)
  {
    hide SysInv, StreamOk, RefsOk, RequestsOk, LiveUpdates, SeenOk, BatchOk, PlaceOk;
    ExecutingIsToken(b, w);
  }

  /** A move whose reply, if it is one, is legal keeps ids from being dispatched twice. */
  lemma MoveKeepsDispatch(b: Bot, m: Move)
    requires BotInv(b) && DispatchInv(b) && CanMove(b, m) && IsLegal(b, m)
    ensures DispatchInv(Moved(b, m))
  {
    match m
    case Fill =>
      hide DispatchInv, SysInv;
      if b.pc.Arm? { ArmKeepsDispatch(b); } else { HandleKeepsDispatch(b); }
    case VisitNext => VisitKeepsDispatch(b);
    case NextUpdate =>
      hide DispatchInv, SysInv;
      NextKeepsDispatch(b);
    case Reply(w, ids) => ReplyKeepsDispatch(b, w, ids);
    case _ =>
      hide DispatchInv, SysInv, CanMove, Moved;
      OtherMoveKeepsShare(b, m);
      SameShareKeepsDispatch(b, Moved(b, m));
  }

  lemma {:induction false} LegalRunKeepsDispatch(states: seq<Bot>, moves: seq<Move>, k: nat)
    requires IsLegalRun(states, moves) && IsInitBot(states[0]) && k <= |moves|
    ensures BotInv(states[k]) && DispatchInv(states[k])
  {
    hide BotInv, CanMove, Moved, IsLegal;
    if k == 0 {
      InitHasBotInv(states[0].sys);
    } else {
      LegalRunKeepsDispatch(states, moves, k - 1);
      MoveKeepsInv(states[k - 1], moves[k - 1]);
      MoveKeepsDispatch(states[k - 1], moves[k - 1]);
    }
  }

  // ---------------------------------------------------------------- what the modules are handed

  /** The updates of the MODULE_HANDLE requests, in the order they were filled in. */
  function HandedUpdates(requests: seq<Sqe>): seq<uint64> {
    if requests == [] then []
    else
      var last := requests[|requests| - 1];
      HandedUpdates(requests[..|requests| - 1])
      + if last.op == OP_MODULE_HANDLE && last.payload.Handle? then [last.payload.update] else []
  }

  lemma HandedOneMore(requests: seq<Sqe>, sqe: Sqe)
    ensures HandedUpdates(requests + [sqe])
         == HandedUpdates(requests)
            + if sqe.op == OP_MODULE_HANDLE && sqe.payload.Handle? then [sqe.payload.update] else []
  {
    assert (requests + [sqe])[..|requests|] == requests;
  }

  lemma OtherMoveFillsNothing(b: Bot, m: Move)
    requires BotInv(b) && CanMove(b, m) && !m.Fill?
    ensures Moved(b, m).sys.ring.requests == b.sys.ring.requests && Moved(b, m).dispatched == b.dispatched
  {
    hide SysInv, StreamOk, RefsOk, RequestsOk, TokenOk, OffsetOk, SeenOk, BatchOk;
    match m
    case NestedSubmit => EventMovesRing(b.sys, BeginSubmit);
    case TopBegin => EventMovesRing(b.sys, BeginSubmit);
    case InRing(e) => EventMovesRing(b.sys, e);
    case Background(e) => EventMovesRing(b.sys, e);
    case Teardown(e) => TeardownMovesRing(b.sys, e);
    case _ =>
    hide Possible, Next;
  }

  lemma MoveKeepsHanded(b: Bot, m: Move)
    requires BotInv(b) && CanMove(b, m) && HandedUpdates(b.sys.ring.requests) == b.dispatched
    ensures HandedUpdates(Moved(b, m).sys.ring.requests) == Moved(b, m).dispatched
  {
    hide HandedUpdates, BotInv, CanMove, Moved;
    if m.Fill? {
      var sqe := FillAppends(b);
      HandedOneMore(b.sys.ring.requests, sqe);
    } else {
      OtherMoveFillsNothing(b, m);
    }
  }

  /** The request filled in hands over the id that is recorded, or none. */
  lemma FillAppends(b: Bot) returns (sqe: Sqe)
    requires CanMove(b, Fill)
    ensures
      var b' := Moved(b, Fill);
      && b'.sys.ring.requests == b.sys.ring.requests + [sqe]
      && b'.dispatched == b.dispatched
                          + if sqe.op == OP_MODULE_HANDLE && sqe.payload.Handle? then [sqe.payload.update] else []
  {
    hide SqFull;
    sqe := if b.pc.Arm? then UpdatesSqe(b.maxUpdateId + 1) else HandleSqe(b.updates.value[b.i]);
  }

  lemma {:induction false} RunKeepsHanded(states: seq<Bot>, moves: seq<Move>, k: nat)
    requires IsBotRun(states, moves) && IsInitBot(states[0]) && k <= |moves|
    ensures BotInv(states[k]) && HandedUpdates(states[k].sys.ring.requests) == states[k].dispatched
  {
    hide BotInv, CanMove, Moved, HandedUpdates;
    if k == 0 {
      InitHasBotInv(states[0].sys);
      NothingHanded(states[0]);
    } else {
      RunKeepsHanded(states, moves, k - 1);
      MoveKeepsInv(states[k - 1], moves[k - 1]);
      MoveKeepsHanded(states[k - 1], moves[k - 1]);
    }
  }

  lemma NothingHanded(b: Bot)
    requires IsInitBot(b)
    ensures HandedUpdates(b.sys.ring.requests) == b.dispatched
  {
  }

  /** The updates of the MODULE_HANDLE requests filled in over a run, in order, are the ids that
      `dispatched` records. */
  lemma DispatchedAreHanded(b: Bot)
    requires ReachableBot(b)
    ensures HandedUpdates(b.sys.ring.requests) == b.dispatched
  {
    hide BotInv, CanMove, Moved, HandedUpdates, IsInitBot;
    var states: seq<Bot>, moves: seq<Move> :|
      IsBotRun(states, moves) && IsInitBot(states[0]) && states[|moves|] == b;
    RunKeepsHanded(states, moves, |moves|);
  }

  // ---------------------------------------------------------------- whole runs

  /** As long as the replies are legal, no update id is dispatched twice, and `max_update_id + 1`
      never leaves the range of `int64_t`. */
  lemma UpdatesDispatchedOnce(b: Bot)
    requires ReachableLegally(b)
    ensures forall i, j :: 0 <= i < j < |b.dispatched| ==> b.dispatched[i] != b.dispatched[j]
    ensures HandedUpdates(b.sys.ring.requests) == b.dispatched
    ensures b.maxUpdateId < INT64_MAX
  {
    hide BotInv, CanMove, Moved, IsLegal, HandedUpdates, IsInitBot;
    var states: seq<Bot>, moves: seq<Move> :|
      IsLegalRun(states, moves) && IsInitBot(states[0]) && states[|moves|] == b;
    LegalRunKeepsDispatch(states, moves, |moves|);
    RunKeepsHanded(states, moves, |moves|);
  }
}
