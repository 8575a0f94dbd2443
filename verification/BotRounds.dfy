/** The rounds of the bot: submit, wait, visit, advance; and when it stops. */
module BotRounds {
  import opened Uint32
  import opened RingModel
  import opened RingInvariant
  import opened BotModel
  import opened BotInvariant
  import opened BotUpdates

  // ---------------------------------------------------------------- the invariant

  /** The result of the last completion visited: that of a getUpdates call that did not fail, and
      0 of anything else. */
  function LastResult(b: Bot): int {
    if b.visited == [] then 0
    else
      var cqe := b.visited[|b.visited| - 1];
      if cqe.op == OP_TG_API_CALL && cqe.userData == API_GET_UPDATES && cqe.res >= 0 then cqe.res else 0
  }

  /** A round visits one completion at least, and goes on to the next only with result 0; its
      result is that of the last completion it visited. */
  ghost predicate RoundOk(b: Bot) {
    && (b.pc.Visit? ==> if b.count == 0 then b.head < |b.sys.ring.posted| else b.ret == 0 && LastResult(b) == 0)
    && (HoldsToken(b.pc) && !AtBoot(b.pc) ==> b.count > 0 && PendingResult(b.pc) == LastResult(b))
    && (b.pc.AdvanceCq? ==> b.count > 0 && b.ret == LastResult(b))
    && (b.pc.Stopped? ==> LastResult(b) != 0)
  }

  // ---------------------------------------------------------------- moves

  lemma FillKeepsRound(b: Bot)
    requires RoundOk(b) && CanMove(b, Fill)
    ensures RoundOk(Moved(b, Fill))
  {
    hide SqFull;
  }

  lemma VisitKeepsRound(b: Bot)
    requires RoundOk(b) && StreamOk(b) && b.pc.Visit?
    ensures RoundOk(VisitCqe(b))
  {
    if b.head < |b.sys.ring.posted| {
      var cqe := b.sys.ring.posted[b.head];
      assert VisitCqe(b).visited[|b.visited|] == cqe;
    }
  }

  /** The return of `gw_ring_wait_cqe`. */
  lemma WaitKeepsRound(b: Bot, e: Event)
    requires BotInv(b) && CanMove(b, InRing(e)) && b.pc.Wait?
    ensures RoundOk(Moved(b, InRing(e)))
  {
    hide BotInv, CanMove, Moved;
    WaitStarts(b, e);
  }

  lemma WaitStarts(b: Bot, e: Event)
    requires BotInv(b) && CanMove(b, InRing(e)) && b.pc.Wait?
    ensures
      var b' := Moved(b, InRing(e));
      && b'.sys.ring.posted == b.sys.ring.posted
      && (b'.pc.Wait? || (b'.pc.Visit? && b'.count == 0 && b'.head == b.sys.ring.cqHead < |b.sys.ring.posted|))
  {
    OriginLength(b.sys);
    hide SysInv, StreamOk, RefsOk, RequestsOk, TokenOk, OffsetOk, SeenOk, BatchOk;
    EventPlace(b.sys, e);
    ReadyWhenIdle(b.sys, e);
    hide Possible, Next, CqReady;
  }

  lemma ReadyWhenIdle(s: System, e: Event)
    requires Possible(s, e) && IsWait(e) && !s.ring.shouldStop && s.ring.cqHead <= |s.ring.posted|
    ensures
      var s' := Next(s, e);
      && s'.ring.posted == s.ring.posted && s'.ring.cqHead == s.ring.cqHead
      && (!e.SpuriousClient? && s'.client.Idle? ==> s.ring.cqHead < |s.ring.posted|)
  {
  }

  /** A move of the ring beside the main thread's loop. */
  lemma RingKeepsRound(b: Bot, m: Move)
    requires BotInv(b) && CanMove(b, m) && RoundOk(b)
    requires m.NestedSubmit? || m.TopBegin? || (m.InRing? && !b.pc.Wait?) || m.Background? || m.Teardown?
    ensures
      var b' := Moved(b, m);
      && RoundOk(b') && b'.visited == b.visited
      && (b'.pc == b.pc || m.NestedSubmit? || (m.TopBegin? && b'.pc == TopSubmit(true))
          || (m.InRing? && m.e.EndSubmit? && b'.pc == AfterSubmit(b.pc)))
  {
    hide SysInv, StreamOk, RefsOk, RequestsOk, TokenOk, OffsetOk, SeenOk, BatchOk;
    RingMoveGrows(b, m);
    hide Possible, Next, LastResult;
    assert Moved(b, m).visited == b.visited && Moved(b, m).ret == b.ret && Moved(b, m).count == b.count
        && Moved(b, m).head == b.head;
    SameLast(b, Moved(b, m));
  }

  lemma SameLast(b: Bot, b': Bot)
    requires b'.visited == b.visited
    ensures LastResult(b') == LastResult(b)
  {
  }

  lemma RingMoveGrows(b: Bot, m: Move)
    requires CanMove(b, m) && PlaceOk(b)
    requires m.NestedSubmit? || m.TopBegin? || (m.InRing? && !b.pc.Wait?) || m.Background? || m.Teardown?
    ensures b.sys.ring.posted <= Moved(b, m).sys.ring.posted
  {
    match m
    case NestedSubmit => EventMovesRing(b.sys, BeginSubmit);
    case TopBegin => EventMovesRing(b.sys, BeginSubmit);
    case InRing(e) => EventMovesRing(b.sys, e);
    case Background(e) => EventMovesRing(b.sys, e);
    case Teardown(e) => TeardownMovesRing(b.sys, e);
    hide Possible, Next;
  }

  lemma OtherMoveKeepsRound(b: Bot, m: Move)
    requires CanMove(b, m) && RoundOk(b) && (m.NextUpdate? || m.AdvanceNow? || m.Reply?)
    ensures RoundOk(Moved(b, m))
  {
    hide Possible, LastResult;
    SameLast(b, Moved(b, m));
  }

  lemma MoveKeepsRound(b: Bot, m: Move)
    requires BotInv(b) && RoundOk(b) && CanMove(b, m)
    ensures RoundOk(Moved(b, m))
  {
    hide RoundOk, SysInv, PlaceOk, RefsOk, RequestsOk, TokenOk, OffsetOk, SeenOk, BatchOk;
    match m
    case Fill => FillKeepsRound(b);
    case VisitNext => VisitKeepsRound(b);
    case InRing(e) =>
      hide StreamOk;
      if b.pc.Wait? { WaitKeepsRound(b, e); } else { RingKeepsRound(b, m); }
    case NextUpdate => OtherMoveKeepsRound(b, m);
    case AdvanceNow => OtherMoveKeepsRound(b, m);
    case Reply(_, _) => OtherMoveKeepsRound(b, m);
    case _ =>
      hide StreamOk;
      RingKeepsRound(b, m);
  }

  lemma {:induction false} RunKeepsRound(states: seq<Bot>, moves: seq<Move>, k: nat)
    requires IsBotRun(states, moves) && IsInitBot(states[0]) && k <= |moves|
    ensures BotInv(states[k]) && RoundOk(states[k])
  {
    hide BotInv, CanMove, Moved, RoundOk;
    if k == 0 {
      InitHasBotInv(states[0].sys);
      InitRound(states[0]);
    } else {
      RunKeepsRound(states, moves, k - 1);
      MoveKeepsInv(states[k - 1], moves[k - 1]);
      MoveKeepsRound(states[k - 1], moves[k - 1]);
    }
  }

  lemma InitRound(b: Bot)
    requires IsInitBot(b)
    ensures RoundOk(b)
  {
  }

  lemma ReachableHasRound(b: Bot)
    requires ReachableBot(b)
    ensures BotInv(b) && RoundOk(b)
  {
    hide BotInv, CanMove, Moved, RoundOk, IsInitBot;
    var states: seq<Bot>, moves: seq<Move> :|
      IsBotRun(states, moves) && IsInitBot(states[0]) && states[|moves|] == b;
    RunKeepsRound(states, moves, |moves|);
  }

  // ---------------------------------------------------------------- the rounds

  /** The bot has stopped only if the last completion it visited is that of a getUpdates call with
      a positive result. */
  lemma StoppedByResult(b: Bot)
    requires ReachableBot(b) && b.pc.Stopped?
    ensures b.visited != []
    ensures
      var cqe := b.visited[|b.visited| - 1];
      cqe.op == OP_TG_API_CALL && cqe.userData == API_GET_UPDATES && cqe.res > 0
  {
    hide BotInv, ReachableBot;
    ReachableHasRound(b);
  }

  /** At the end of a round the bot goes back to the submission, unless the last completion it
      visited is that of a getUpdates call with a positive result: then it stops. */
  lemma RoundEnds(b: Bot)
    requires ReachableBot(b) && CanMove(b, AdvanceNow)
    ensures b.visited != []
    ensures
      var b', cqe := Moved(b, AdvanceNow), b.visited[|b.visited| - 1];
      if cqe.op == OP_TG_API_CALL && cqe.userData == API_GET_UPDATES && cqe.res > 0 then b'.pc.Stopped?
      else b'.pc == TopSubmit(false)
  {
    hide SysInv, PlaceOk, RefsOk, RequestsOk, TokenOk, OffsetOk, SeenOk, BatchOk, ReachableBot, Possible;
    ReachableHasRound(b);
  }

  /** The order of a round. A submission ends in the wait, and the wait, with a completion to
      visit, in the for-each loop; the loop takes the next completion as long as there is one, going
      straight on to the one after unless it is that of a getUpdates call; and is left for the
      advance when there is none. Once stopped, the bot stays so. A nested submission returns to
      the second `gw_ring_get_sqe`. */
  lemma RoundOrder(b: Bot, m: Move)
    requires ReachableBot(b) && CanMove(b, m)
    ensures
      var b' := Moved(b, m);
      && (b.pc == TopSubmit(false) ==> b'.pc == b.pc || b'.pc == TopSubmit(true))
      && (b.pc == TopSubmit(true) ==> b'.pc == if m == InRing(EndSubmit) then Wait else b.pc)
      && (b.pc.Wait? ==> b'.pc.Wait? || (b'.pc.Visit? && b'.count == 0 && b'.head == b.sys.ring.cqHead < |b.sys.ring.posted|))
      && (b.pc.Visit? && m.VisitNext? ==>
            if b.head < |b.sys.ring.posted| then
              var cqe := b.sys.ring.posted[b.head];
              && b'.visited == b.visited + [cqe] && b'.count == b.count + 1
              && (cqe.op != OP_TG_API_CALL || cqe.userData != API_GET_UPDATES ==> b'.pc.Visit? && b'.head == b.head + 1)
            else b'.pc.AdvanceCq?)
      && (b.pc.Visit? && !m.VisitNext? ==> b'.pc.Visit?)
      && (b.pc.AdvanceCq? && !m.AdvanceNow? ==> b'.pc.AdvanceCq?)
      && (b.pc.Stopped? ==> b'.pc.Stopped?)
      && (b.pc.ArmSubmit? && m == InRing(EndSubmit) ==> b'.pc == Arm(b.pc.after, true))
      && (b.pc.HandleSubmit? && m == InRing(EndSubmit) ==> b'.pc == HandleOne(b.pc.res, true))
  {
    hide SysInv, RefsOk, RequestsOk, TokenOk, OffsetOk, SeenOk, BatchOk, StreamOk, ReachableBot, RoundOk, SqFull;
    ReachableHasRound(b);
    if m.InRing? && b.pc.Wait? {
      WaitStarts(b, m.e);
    }
    hide Possible, Next, CqReady;
  }
}
