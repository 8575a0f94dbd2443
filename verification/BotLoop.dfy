/** The bot's context itself: the fields of `struct tg_bot_ctx`, updated in place over the
    ring's, each method proved against the functions of BotUpdates. */
module BotLoop {
  import opened Wrappers
  import opened Uint32
  import opened Circular
  import opened RingModel
  import opened BotModel
  import opened BotUpdates
  import BotInvariant
  import R = Ring

  /** Only the bot's two kinds of request have been filled in; none of them is a NOP. */
  ghost predicate OwnRequests(requests: seq<Sqe>) {
    forall k :: 0 <= k < |requests| ==> BotInvariant.RequestOk(requests[k])
  }

  lemma OwnRequestsAsync(requests: seq<Sqe>)
    requires OwnRequests(requests)
    ensures forall k :: 0 <= k < |requests| ==> requests[k].op != OP_NOP
  {
    forall k | 0 <= k < |requests| ensures requests[k].op != OP_NOP {
      assert BotInvariant.RequestOk(requests[k]);
    }
  }

  /** The ring after the main thread has filled in more requests, which may have taken
      submissions, while the workers used up `budget - left` posts. */
  ghost predicate RingFilled(r: Rings, r': Rings, budget: nat, left: nat) {
    && r' == r.(requests := r'.requests, sqHead := r'.sqHead, posted := r'.posted)
    && r.requests <= r'.requests && r.sqHead <= r'.sqHead
    && r.posted <= r'.posted && left <= budget && |r'.posted| + left == |r.posted| + budget
  }

  /** `seen` are the completions posted at `from` and after, in order and once each. */
  ghost predicate Seen(seen: seq<Cqe>, posted: seq<Cqe>, from: nat) {
    from + |seen| <= |posted| && seen == posted[from..from + |seen|]
  }

  /** The results that keep the for-each loop going: all but perhaps the last are zero. */
  ghost predicate Uninterrupted(seen: seq<Cqe>, ret: int) {
    && (forall j :: 0 <= j < |seen| - 1 ==> ProcessResult(seen[j]) == 0)
    && ret == if seen == [] then 0 else ProcessResult(seen[|seen| - 1])
  }

  lemma SeenLater(seen: seq<Cqe>, posted: seq<Cqe>, posted': seq<Cqe>, from: nat)
    requires Seen(seen, posted, from) && posted <= posted'
    ensures Seen(seen, posted', from)
  {
    assert posted'[from..from + |seen|] == posted[from..from + |seen|];
  }

  lemma SeenOneMore(seen: seq<Cqe>, posted: seq<Cqe>, from: nat, cqe: Cqe)
    requires Seen(seen, posted, from) && from + |seen| < |posted| && cqe == posted[from + |seen|]
    requires Uninterrupted(seen, 0)
    ensures Seen(seen + [cqe], posted, from) && Uninterrupted(seen + [cqe], ProcessResult(cqe))
  {
    hide ProcessResult;
  }

  lemma VisitedOneMore(c: Context, seen: seq<Cqe>, cqe: Cqe)
    ensures AllProcessed(c, seen + [cqe]) == Processed(AllProcessed(c, seen), cqe)
  {
    assert (seen + [cqe])[..|seen|] == seen;
  }

  /** From `c` and `r`, the for-each loop has come to `c'` and `r'`, having visited `seen`. */
  ghost predicate Progressed(c: Context, r: Rings, seen: seq<Cqe>, c': Context, r': Rings, budget: nat, left: nat) {
    c' == AllProcessed(c, seen) && RingFilled(r, r', budget, left) && Seen(seen, r'.posted, r.cqHead)
  }

  lemma NotYetProgressed(c: Context, r: Rings, budget: nat)
    requires r.cqHead <= |r.posted|
    ensures Progressed(c, r, [], c, r, budget, budget) && Uninterrupted([], 0)
  {
  }

  lemma ProgressedLater(c: Context, r: Rings, seen: seq<Cqe>, c': Context, r': Rings, r'': Rings, budget: nat,
                        left: nat, left': nat)
    requires Progressed(c, r, seen, c', r', budget, left) && RingFilled(r', r'', left, left')
    ensures Progressed(c, r, seen, c', r'', budget, left')
    ensures |r''.posted| + left' == |r.posted| + budget && r''.cqHead == r.cqHead && |r.posted| <= |r''.posted|
    ensures r.cqHead + |seen| <= |r''.posted|
  {
    SeenLater(seen, r'.posted, r''.posted, r.cqHead);
  }

  lemma ProgressedOneMore(c: Context, r: Rings, seen: seq<Cqe>, c': Context, r': Rings, budget: nat, left: nat)
    requires Progressed(c, r, seen, c', r', budget, left)
    requires r.cqHead + |seen| < |r'.posted| && Uninterrupted(seen, 0)
    ensures
      var cqe := r'.posted[r.cqHead + |seen|];
      && Progressed(c, r, seen + [cqe], Processed(c', cqe), r', budget, left)
      && Uninterrupted(seen + [cqe], ProcessResult(cqe))
  {
    var cqe := r'.posted[r.cqHead + |seen|];
    VisitedOneMore(c, seen, cqe);
    SeenOneMore(seen, r'.posted, r.cqHead, cqe);
  }

  class TgBotContext {
    const ring: R.GwRing
    var updates: Option<seq<uint64>>
    var maxUpdateId: int
    /** The update ids handed to the modules, and the references taken. */
    ghost var dispatched: seq<uint64>
    ghost var incRefs: nat

    ghost predicate Valid()
      reads this, ring, ring.sqes, ring.cqes
    {
      ring.Valid() && !ring.model.shouldStop && OwnRequests(ring.model.requests)
    }

    ghost function Ctx(): Context
      reads this, ring
    {
      Context(updates, maxUpdateId, dispatched, incRefs, ring.model.requests)
    }

    constructor (ring: R.GwRing)
      requires ring.Valid() && !ring.model.shouldStop && ring.model.requests == []
      ensures Valid() && this.ring == ring
      ensures Ctx() == Context(None, 0, [], 0, [])
    {
      this.ring := ring;
      updates, maxUpdateId := None, 0;
      dispatched, incRefs := [], 0;
    }

    /** `gw_ring_get_sqe`, with a `gw_ring_submit` and a second call if there is no room. The
        second call never fails. */
    method FillEntry(sqe: Sqe, budget: nat) returns (left: nat)
      requires Valid() && BotInvariant.RequestOk(sqe)
      modifies ring, ring.sqes, ring.cqes
      ensures Valid() && RingFilled(old(ring.model), ring.model, budget, left)
      ensures ring.model.requests == old(ring.model.requests) + [sqe]
      ensures !SqFull(old(ring.model)) ==> ring.model == FillRing(old(ring.model), sqe)
    {
      left := budget;
      var ok := ring.FillSqe(sqe);
      if !ok {
        ghost var m := ring.model;
        var punts: nat -> R.Punt := *;
        var ret;
        ghost var outcomes, places;
        ret, left, outcomes, places := ring.Submit(budget, punts);
        OwnRequestsAsync(m.requests);
        R.NoOwnPosts(m.requests, m.sqHead, outcomes);
        ok := ring.FillSqe(sqe);
        assert ok;
      }
    }

    /** `arm_update_sqe`. */
    method ArmUpdateSqe(budget: nat) returns (left: nat)
      requires Valid()
      modifies this, ring, ring.sqes, ring.cqes
      ensures Valid() && Ctx() == Rearmed(old(Ctx()))
      ensures ring.model.requests
           == old(ring.model.requests)
              + [Sqe(OP_TG_API_CALL, API_GET_UPDATES, ApiCall(API_GET_UPDATES, old(maxUpdateId) + 1))]
      ensures updates.None? && maxUpdateId == old(maxUpdateId)
      ensures dispatched == old(dispatched) && incRefs == old(incRefs)
      ensures RingFilled(old(ring.model), ring.model, budget, left)
    {
      left := FillEntry(UpdatesSqe(maxUpdateId + 1), budget);
      updates := None;
    }

    /** `process_tg_api_update`, the reference taken first. */
    method ProcessTgApiUpdate(id: uint64, budget: nat) returns (left: nat)
      requires Valid()
      modifies this, ring, ring.sqes, ring.cqes
      ensures Valid() && Ctx() == HandedOver(old(Ctx()).(incRefs := old(incRefs) + 1), id)
      ensures ring.model.requests == old(ring.model.requests) + [Sqe(OP_MODULE_HANDLE, 0, Handle(id))]
      ensures dispatched == old(dispatched) + [id] && incRefs == old(incRefs) + 1
      ensures updates == old(updates) && maxUpdateId == old(maxUpdateId)
      ensures RingFilled(old(ring.model), ring.model, budget, left)
    {
      incRefs := incRefs + 1;
      left := FillEntry(HandleSqe(id), budget);
      dispatched := dispatched + [id];
    }

    /** `process_tg_api_updates`. */
    method ProcessTgApiUpdates(res: int, budget: nat) returns (ret: int, left: nat)
      requires Valid() && (updates.Some? ==> |updates.value| < MODULUS)
      modifies this, ring, ring.sqes, ring.cqes
      ensures Valid() && Ctx() == UpdatesProcessed(old(Ctx()), res)
      ensures ret == if res < 0 then 0 else res
      ensures RingFilled(old(ring.model), ring.model, budget, left)
    {
      ret, left := res, budget;
      ghost var c, r := Ctx(), ring.model;
      if res < 0 {
        ret := 0;
      } else if updates.Some? {
        var i: uint32 := 0;
        while i < |updates.value|
          invariant Valid() && updates == c.updates && i <= |updates.value|
          invariant Handled(Ctx(), updates.value[i..]) == Handled(c, c.updates.value)
          invariant RingFilled(r, ring.model, budget, left)
        {
          var id := updates.value[i];
          if AsInt64(id) > maxUpdateId {
            maxUpdateId := AsInt64(id);
          }
          left := ProcessTgApiUpdate(id, left);
          i := i + 1;
        }
      }
      left := ArmUpdateSqe(left);
    }

    /** `process_cqe`. */
    method ProcessCqe(cqe: Cqe, budget: nat) returns (ret: int, left: nat)
      requires Valid() && (updates.Some? ==> |updates.value| < MODULUS)
      modifies this, ring, ring.sqes, ring.cqes
      ensures Valid() && Ctx() == Processed(old(Ctx()), cqe) && ret == ProcessResult(cqe)
      ensures if cqe.op == OP_TG_API_CALL && cqe.userData == API_GET_UPDATES then
                ret == if cqe.res < 0 then 0 else cqe.res
              else Ctx() == old(Ctx()) && ring.model == old(ring.model) && ret == 0
      ensures updates.None? || updates == old(updates)
      ensures RingFilled(old(ring.model), ring.model, budget, left)
    {
      ret, left := 0, budget;
      if cqe.op == OP_TG_API_CALL && cqe.userData == API_GET_UPDATES {
        ret, left := ProcessTgApiUpdates(cqe.res, budget);
      }
    }

    /** One turn of the for-each loop of `run_tg_bot_loop`, which has come to the `h`-th
        completion: its test, the workers posting meanwhile, and `process_cqe`. */
    method VisitNext(head: uint32, ghost h: nat, budget: nat)
      returns (found: bool, ret: int, left: nat, ghost cqe: Cqe)
      requires Valid() && (updates.Some? ==> |updates.value| < MODULUS)
      requires ring.model.cqHead <= h <= |ring.model.posted| && head == Wrap(h)
      modifies this, ring, ring.sqes, ring.cqes
      ensures Valid() && (updates.None? || updates == old(updates))
      ensures RingFilled(old(ring.model), ring.model, budget, left)
      ensures found ==> h < |ring.model.posted| && cqe == ring.model.posted[h]
      ensures found ==> Ctx() == Processed(old(Ctx()), cqe) && ret == ProcessResult(cqe)
      ensures !found ==> Ctx() == old(Ctx()) && h == |ring.model.posted|
    {
      hide R.GwRing.Valid, Processed, ProcessResult, OwnRequests, Wrap;
      left := ring.WorkersPost(budget);
      ghost var m := ring.model;
      var next := ring.LoadHeadCqe(head, h);
      found, ret, cqe := next.Some?, 0, *;
      if found {
        cqe := next.value;
        ret, left := ProcessCqe(next.value, left);
      }
    }

    /** That turn as part of the loop, which began with `c` and `r` and has visited `seen`. */
    method VisitTurn(head: uint32, ghost c: Context, ghost r: Rings, ghost seen: seq<Cqe>,
                     ghost budget: nat, unused: nat)
      returns (found: bool, ret: int, left: nat, ghost seen': seq<Cqe>)
      requires Valid() && (updates.Some? ==> |updates.value| < MODULUS)
      requires Progressed(c, r, seen, Ctx(), ring.model, budget, unused) && ring.model.cqHead == r.cqHead
      requires r.cqHead + |seen| <= |ring.model.posted| && head == Wrap(r.cqHead + |seen|) && Uninterrupted(seen, 0)
      modifies this, ring, ring.sqes, ring.cqes
      ensures Valid() && (updates.Some? ==> |updates.value| < MODULUS)
      ensures Progressed(c, r, seen', Ctx(), ring.model, budget, left) && ring.model.cqHead == r.cqHead
      ensures r.cqHead + |seen'| <= |ring.model.posted| <= |r.posted| + budget
      ensures |seen'| == (if found then |seen| + 1 else |seen|) < MODULUS && Uninterrupted(seen', ret)
      ensures !found ==> ret == 0 && r.cqHead + |seen'| >= |r.posted|
    {
      hide R.GwRing.Valid, Processed, ProcessResult, OwnRequests, Wrap, Uninterrupted, RingFilled, Progressed;
      ghost var c', m := Ctx(), ring.model;
      ghost var cqe;
      found, ret, left, cqe := VisitNext(head, r.cqHead + |seen|, unused);
      ring.ValidBounds();
      ProgressedLater(c, r, seen, c', m, ring.model, budget, unused, left);
      seen' := seen;
      if found {
        ProgressedOneMore(c, r, seen, c', ring.model, budget, left);
        seen' := seen + [cqe];
      } else {
        ret := 0;
      }
    }

    /** The for-each loop of `run_tg_bot_loop`, from the return of `gw_ring_wait_cqe` on, the
        workers posting up to `budget` completions meanwhile. `seen` are the completions
        visited. */
    method VisitCqes(budget: nat) returns (ret: int, left: nat, ghost seen: seq<Cqe>)
      requires Valid() && (updates.Some? ==> |updates.value| < MODULUS)
      modifies this, ring, ring.sqes, ring.cqes
      ensures Valid() && Ctx() == AllProcessed(old(Ctx()), seen)
      ensures RingFilled(old(ring.model), ring.model.(cqHead := old(ring.model.cqHead)), budget, left)
      // what is visited is what is released
      ensures Seen(seen, ring.model.posted, old(ring.model.cqHead))
      ensures ring.model.cqHead == old(ring.model.cqHead) + |seen|
      // the loop ends at the first non-zero result, or with nothing left that was there before
      ensures Uninterrupted(seen, ret)
      ensures ret == 0 ==> ring.model.cqHead >= |old(ring.model.posted)|
    {
      ghost var c, r := Ctx(), ring.model;
      ring.ValidBounds();
      NotYetProgressed(c, r, budget);
      hide R.GwRing.Valid, OwnRequests, Wrap, Uninterrupted, RingFilled, Progressed, Seen;
      var head: int, i: uint32 := ring.cqHead, 0;
      ret, left, seen := 0, budget, [];
      while true
        invariant Valid() && (updates.Some? ==> |updates.value| < MODULUS)
        invariant Progressed(c, r, seen, Ctx(), ring.model, budget, left) && ring.model.cqHead == r.cqHead
        invariant r.cqHead + |seen| <= |ring.model.posted| <= |r.posted| + budget
        invariant i == |seen| && head == Wrap(r.cqHead + |seen|) && Uninterrupted(seen, ret) && ret == 0
        decreases |r.posted| + budget - r.cqHead - |seen|
      {
        var found: bool;
        ghost var h := r.cqHead + |seen|;
        found, ret, left, seen := VisitTurn(head, c, r, seen, budget, left);
        if !found {
          break;
        }
        i := i + 1;
        if ret != 0 {
          break;
        }
        IndexMoves(h, 1);
        head := Wrap(head + 1);
      }
      left := Finish(c, r, seen, i, budget, left);
    }

    /** `gw_ring_cq_advance` by the `i` completions visited, after any further posts. */
    method Finish(ghost c: Context, ghost r: Rings, ghost seen: seq<Cqe>, i: uint32, budget: nat, unused: nat)
      returns (left: nat)
      requires Valid() && Progressed(c, r, seen, Ctx(), ring.model, budget, unused) && i == |seen|
      modifies ring, ring.cqes
      ensures Valid() && Ctx() == AllProcessed(c, seen)
      ensures RingFilled(r, ring.model.(cqHead := r.cqHead), budget, left)
      ensures Seen(seen, ring.model.posted, r.cqHead) && ring.model.cqHead == r.cqHead + |seen|
      ensures |ring.model.posted| >= |old(ring.model.posted)|
    {
      ghost var m := ring.model;
      left := ring.WorkersPost(unused);
      SeenLater(seen, m.posted, ring.model.posted, r.cqHead);
      hide R.GwRing.Valid, AllProcessed;
      ring.CqAdvance(i);
    }
  }
}
