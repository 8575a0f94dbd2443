/** The ring itself: the fields of `struct gw_ring`, updated in place, each method proved against
    the functions the transition system is made of. */
module Ring {
  import opened Wrappers
  import opened Uint32
  import opened Circular
  import opened RingModel
  import RI = RingInvariant
  import WM = WorkQueueModel
  import WQ = WorkQueue

  const EOWNERDEAD: int := 130

  /** One round of `gw_ring_wait_cqe`: it returns an error, or a count and the oldest
      completion, or goes to sleep. */
  datatype WaitResult = Stopped | Ready(count: int, cqe: Cqe) | MustWait

  /** What became of a `punt_to_io_wq`: no memory for the copy, or what `queue_work` makes of it. */
  datatype Punt = NoRoom | Queued(verdict: WM.Verdict)

  predicate IsTaken(punt: Punt) {
    punt == Queued(WM.Accepted)
  }

  function CountTrue(bits: seq<bool>): nat {
    if bits == [] then 0 else CountTrue(bits[..|bits| - 1]) + if bits[|bits| - 1] then 1 else 0
  }

  lemma CountOneMore(bits: seq<bool>, bit: bool)
    ensures CountTrue(bits + [bit]) == CountTrue(bits) + if bit then 1 else 0
  {
    assert (bits + [bit])[..|bits|] == bits;
  }

  lemma {:induction false} CountIsSize(bits: seq<bool>)
    ensures CountTrue(bits) == |set j: nat | j < |bits| && bits[j]|
  {
    var trues := set j: nat | j < |bits| && bits[j];
    if bits == [] {
      assert trues == {};
    } else {
      var n := |bits| - 1;
      CountIsSize(bits[..n]);
      var before := set j: nat | j < n && bits[..n][j];
      assert trues == if bits[n] then before + {n} else before;
      assert n !in before;
    }
  }

  ghost predicate InBounds(r: Rings) {
    && IsCapacity(r.sqCapacity) && r.cqLimit == Wrap(2 * r.sqCapacity)
    && r.sqHead <= |r.requests| <= r.sqHead + r.sqCapacity
    && r.cqHead <= |r.posted| <= r.cqHead + r.cqLimit
  }

  lemma BoundsFit(r: Rings)
    requires InBounds(r)
    ensures 1 <= r.sqCapacity <= 0x8000_0000 && Wrap(r.sqCapacity) == r.sqCapacity
    ensures r.cqLimit == if r.sqCapacity <= 0x4000_0000 then 2 * r.sqCapacity else 0
    ensures r.cqLimit > 0 ==> IsCapacity(r.cqLimit)
    ensures Wrap(Wrap(2 * r.sqCapacity - 1) + 1) == r.cqLimit
    ensures r.cqLimit > 0 ==> Wrap(2 * r.sqCapacity - 1) == r.cqLimit - 1
  {
    CapacityRange(r.sqCapacity);
    RI.CqLimitIsCapacity(r.sqCapacity);
  }

  /** `slots` is a masked array of `limit` entries holding the live part of `history`. */
  ghost predicate Held<X>(slots: seq<X>, limit: nat, history: seq<X>, head: nat) {
    |slots| == limit && (limit > 0 ==> IsCapacity(limit) && Stored(slots, history, head))
  }

  lemma SlotInside(limit: nat, i: nat)
    requires IsCapacity(limit)
    ensures limit > 0 && And(Wrap(i), limit - 1) == Slot(i, limit) < limit
  {
    SlotIsModulo(i, limit);
  }

  lemma HeldInsert<X>(slots: seq<X>, limit: nat, history: seq<X>, head: nat, x: X)
    requires Held(slots, limit, history, head) && head <= |history| < head + limit
    ensures And(Wrap(|history|), limit - 1) < limit
    ensures Held(slots[And(Wrap(|history|), limit - 1) := x], limit, history + [x], head)
  {
    SlotInside(limit, |history|);
    InsertStored(slots, history, head, x);
  }

  lemma HeldAt<X>(slots: seq<X>, limit: nat, history: seq<X>, head: nat, h: nat)
    requires Held(slots, limit, history, head) && head <= h < |history| <= head + limit
    ensures And(Wrap(h), limit - 1) < limit && slots[And(Wrap(h), limit - 1)] == history[h]
  {
    SlotInside(limit, h);
    AdvanceStored(slots, history, head, h);
    RemoveStored(slots, history, h);
  }

  lemma HeldAdvance<X>(slots: seq<X>, limit: nat, history: seq<X>, head: nat, head': nat)
    requires Held(slots, limit, history, head) && head <= head'
    ensures Held(slots, limit, history, head')
  {
    if limit > 0 { AdvanceStored(slots, history, head, head'); }
  }

  class GwRing {
    var shouldStop: bool
    var waitCqeCondFlag: bool
    var sqHead: uint32
    var sqTail: uint32
    const sqMask: uint32
    var cqHead: uint32
    var cqTail: uint32
    const cqMask: uint32
    const sqes: array<Sqe>
    const cqes: array<Cqe>
    /** The rings these fields stand for. */
    ghost var model: Rings

    ghost predicate Valid()
      reads this, sqes, cqes
    {
      && InBounds(model)
      && shouldStop == model.shouldStop && waitCqeCondFlag == model.waitFlag
      && sqMask == model.sqCapacity - 1 && cqMask == Wrap(2 * model.sqCapacity - 1)
      && sqHead == Wrap(model.sqHead) && sqTail == Wrap(|model.requests|)
      && cqHead == Wrap(model.cqHead) && cqTail == Wrap(|model.posted|)
      && sqes.Length == model.sqCapacity && cqes.Length == model.cqLimit
      && Held(sqes[..], model.sqCapacity, model.requests, model.sqHead)
      && Held(cqes[..], model.cqLimit, model.posted, model.cqHead)
    }

    lemma ValidBounds()
      requires Valid()
      ensures model.cqHead <= |model.posted| <= model.cqHead + model.cqLimit
      ensures model.cqLimit < MODULUS && cqHead == Wrap(model.cqHead)
    {
    }

    /** `gw_ring_init`. By Uint32.DoublingStops the bound names the sizes for which it returns. */
    constructor (size: uint32, sqe: Sqe, cqe: Cqe)
      requires size <= 0x8000_0000
      ensures Valid() && fresh(sqes) && fresh(cqes)
      ensures IsRoundUp(model.sqCapacity, size) && model == InitRings(model.sqCapacity)
      ensures model.requests == [] && model.posted == [] && model.sqHead == model.cqHead == 0
      ensures !model.shouldStop && !model.waitFlag && sqes.Length == model.sqCapacity && cqes.Length == model.cqLimit
      ensures size <= 0x4000_0000 ==> cqes.Length == 2 * sqes.Length
      ensures size > 0x4000_0000 ==> cqes.Length == 0 && CqFull(model)
    {
      var max: int := RoundUp(size);
      SizesFit(max, size);
      hide IsCapacity, IsRoundUp, Wrap, CqFull, And;
      shouldStop, waitCqeCondFlag := false, false;
      sqHead, sqTail, cqHead, cqTail := 0, 0, 0, 0;
      sqMask := max - 1;
      cqMask := Wrap(Wrap(max * 2) - 1);
      sqes := new Sqe[max](_ => sqe);
      cqes := new Cqe[Wrap(2 * max)](_ => cqe);
      model := InitRings(max);
    }

    /** `gw_ring_get_sqe`, and the caller's filling in of the entry it is given. */
    method FillSqe(sqe: Sqe) returns (ok: bool)
      requires Valid()
      modifies this`sqTail, this`model, sqes
      ensures Valid()
      ensures ok <==> !SqFull(old(model))
      ensures ok <==> HasSpace(old(model).sqHead, |old(model).requests|, old(model).sqCapacity)
      ensures model == if ok then FillRing(old(model), sqe) else old(model)
      ensures model.requests == old(model).requests + if ok then [sqe] else []
    {
      hide Held, IsCapacity, Wrap, And;
      BoundsFit(model);
      SpaceExact(model.sqHead, |model.requests|, model.sqCapacity);
      if AbsDiff(sqHead, sqTail) >= Wrap(sqMask + 1) {
        return false;
      }
      HeldInsert(sqes[..], model.sqCapacity, model.requests, model.sqHead, sqe);
      IndexMoves(|model.requests|, 1);
      sqes[And(sqTail, sqMask)] := sqe;
      sqTail := Wrap(sqTail + 1);
      model := FillRing(model, sqe);
      ok := true;
    }

    /** `post_cqe`; `roused` tells whether the waiting client was woken. */
    method PostCqe(sqe: Sqe, res: int) returns (ok: bool, roused: bool)
      requires Valid()
      modifies this`cqTail, this`model, cqes
      ensures Valid()
      ensures ok <==> !CqFull(old(model))
      ensures ok <==> HasSpace(old(model).cqHead, |old(model).posted|, old(model).cqLimit)
      ensures model == PostRing(old(model), sqe, res)
      ensures model.posted == old(model).posted + if ok then [Cqe(sqe.op, res, 0, sqe.userData)] else []
      ensures roused <==> ok && old(model).waitFlag
    {
      hide Held, IsCapacity, Wrap, And;
      BoundsFit(model);
      SpaceExact(model.cqHead, |model.posted|, model.cqLimit);
      if AbsDiff(cqTail, cqHead) >= Wrap(cqMask + 1) {
        return false, false;
      }
      HeldInsert(cqes[..], model.cqLimit, model.posted, model.cqHead, CqeFor(sqe, res));
      IndexMoves(|model.posted|, 1);
      cqes[And(cqTail, cqMask)] := Cqe(sqe.op, res, 0, sqe.userData);
      cqTail := Wrap(cqTail + 1);
      model := PostRing(model, sqe, res);
      return true, waitCqeCondFlag;
    }

    /** `gw_ring_load_head_cqe`, for a consumer that has come to the `h`-th completion. */
    method LoadHeadCqe(head: uint32, ghost h: nat) returns (cqe: Option<Cqe>)
      requires Valid() && model.cqHead <= h <= |model.posted| && head == Wrap(h)
      ensures cqe.Some? <==> h < |model.posted|
      ensures cqe.Some? ==> cqe.value == model.posted[h]
    {
      hide Held, IsCapacity, Wrap, And;
      BoundsFit(model);
      EmptyExact(h, |model.posted|);
      if head == cqTail {
        return None;
      }
      HeldAt(cqes[..], model.cqLimit, model.posted, model.cqHead, h);
      return Some(cqes[And(head, cqMask)]);
    }

    /** `gw_ring_cq_advance`. */
    method CqAdvance(n: uint32)
      requires Valid() && model.cqHead + n <= |model.posted|
      modifies this`cqHead, this`model
      ensures Valid() && model == old(model).(cqHead := old(model).cqHead + n)
    {
      hide Held, IsCapacity, Wrap, And;
      BoundsFit(model);
      HeldAdvance(cqes[..], model.cqLimit, model.posted, model.cqHead, model.cqHead + n);
      IndexMoves(model.cqHead, n);
      cqHead := Wrap(cqHead + n);
      model := AdvanceRing(model, n);
    }

    /** One round of the loop of `gw_ring_wait_cqe`. */
    method WaitCqe() returns (r: WaitResult)
      requires Valid()
      modifies this`waitCqeCondFlag, this`model
      ensures Valid()
      ensures r.Stopped? <==> old(model).shouldStop
      ensures r.Ready? <==> !old(model).shouldStop && CqReady(old(model))
      ensures r.Ready? ==> r.count == |model.posted| - model.cqHead && r.cqe == old(model).posted[old(model).cqHead]
      ensures model == if r.MustWait? then old(model).(waitFlag := true) else old(model)
    {
      hide Held, IsCapacity, Wrap, And;
      BoundsFit(model);
      EmptyExact(model.cqHead, |model.posted|);
      if shouldStop {
        return Stopped;
      }
      if cqTail != cqHead {
        ReadyCountExact(model.cqHead, |model.posted|);
        var ret := ToInt(AbsDiff(cqTail, cqHead));
        if ret > 0 {
          var cqe := LoadHeadCqe(cqHead, model.cqHead);
          return Ready(ret, cqe.value);
        }
      }
      waitCqeCondFlag := true;
      model := model.(waitFlag := true);
      r := MustWait;
    }

    /** Back from `cond_wait`. */
    method WokenUp()
      requires Valid()
      modifies this`waitCqeCondFlag, this`model
      ensures Valid() && model == old(model).(waitFlag := false)
    {
      waitCqeCondFlag := false;
      model := model.(waitFlag := false);
    }

    /** `gw_ring_destroy`, up to the queue's own; `roused` tells whether waiters were woken. */
    method Stop() returns (roused: bool)
      requires Valid()
      modifies this`shouldStop, this`model
      ensures Valid() && model == old(model).(shouldStop := true)
      ensures roused <==> model.waitFlag
    {
      shouldStop := true;
      model := model.(shouldStop := true);
      roused := waitCqeCondFlag;
    }

    // -------------------------------------------------------------- submission

    /** What the workers may do to the ring while the client is not looking: post any
        completions, at most `budget` of them. */
    method WorkersPost(budget: nat) returns (left: nat)
      requires Valid()
      modifies this`cqTail, this`model, cqes
      ensures Valid() && left <= budget
      ensures old(model).posted <= model.posted && |model.posted| + left == |old(model).posted| + budget
      ensures model == old(model).(posted := model.posted)
    {
      left := budget;
      var going: bool := *;
      while left > 0 && going
        invariant left <= budget && Valid()
        invariant old(model).posted <= model.posted && |model.posted| + left == |old(model).posted| + budget
        invariant model == old(model).(posted := model.posted)
        decreases left, going
      {
        var sqe: Sqe, res: int := *, *;
        var ok, roused := PostCqe(sqe, res);
        if ok {
          left := left - 1;
        } else {
          going := false;
        }
      }
    }

    /** `submit_sqe`; `punt` is what becomes of the entry's `punt_to_io_wq`, if it comes to that. */
    method SubmitSqe(sqe: Sqe, punt: Punt) returns (ok: bool)
      requires Valid()
      modifies this`cqTail, this`model, cqes
      ensures Valid()
      ensures sqe.op == OP_NOP ==>
                && (ok <==> HasSpace(old(model).cqHead, |old(model).posted|, old(model).cqLimit))
                && model == old(model).(posted := old(model).posted + if ok then [Cqe(OP_NOP, 0, 0, sqe.userData)] else [])
      ensures sqe.op != OP_NOP ==> model == old(model)
      ensures IsAsync(sqe.op) ==> (ok <==> IsTaken(punt))
      ensures sqe.op > OP_MODULE_HANDLE ==> !ok
    {
      if sqe.op == OP_NOP {
        var roused;
        ok, roused := PostCqe(sqe, 0);
      } else if sqe.op == OP_TG_API_CALL || sqe.op == OP_MODULE_HANDLE {
        ok := IsTaken(punt);
      } else {
        ok := false;
      }
    }

    /** `gw_ring_submit`, the workers posting up to `budget` completions meanwhile, and `punts(j)`
        being what becomes of a punt of the `j`-th entry. Every entry is issued once, in order;
        the return value counts those that went through. `places` are the completion indices of
        the NOPs among them. */
    method Submit(budget: nat, punts: nat -> Punt)
      returns (ret: int, left: nat, ghost outcomes: seq<bool>, ghost places: seq<nat>)
      requires Valid()
      modifies this`sqHead, this`cqTail, this`model, cqes
      ensures Valid() && Issues(old(model), model, punts, outcomes, places, budget, left)
      ensures old(model).shouldStop ==> ret == -EOWNERDEAD && model == old(model)
      ensures !old(model).shouldStop ==>
                && model.sqHead == |model.requests| && !SqFull(model)
                && |outcomes| == |model.requests| - old(model).sqHead
                && ret == |set j: nat | j < |outcomes| && outcomes[j]|
    {
      hide Held, IsCapacity, Wrap, And, Issues;
      BoundsFit(model);
      outcomes, places, left := [], [], budget;
      ghost var m, h := model, model.sqHead;
      NothingIssued(m, punts, budget);
      if shouldStop {
        return -EOWNERDEAD, left, outcomes, places;
      }
      var head: int, n: nat := sqHead, 0;
      ret := 0;
      EmptyExact(h, |model.requests|);
      while head != sqTail
        invariant Valid() && h == m.sqHead + n <= |m.requests| && head == Wrap(h) && n == |outcomes|
        invariant model == m.(posted := model.posted)
        invariant head != sqTail <==> h < |m.requests|
        invariant Issues(m, model, punts, outcomes, places, budget, left) && ret == CountTrue(outcomes)
        decreases |m.requests| - h
      {
        ghost var m0 := model;
        var left' := WorkersPost(left);
        var sqe := LoadSqe(head, h);
        ghost var m1 := model;
        var ok := SubmitSqe(sqe, punts(n));
        places := IssuesOneMore(m, m0, m1, model, punts, outcomes, places, budget, left, left', ok);
        CountOneMore(outcomes, ok);
        outcomes, left := outcomes + [ok], left';
        if ok {
          ret := ret + 1;
        }
        IndexMoves(h, 1);
        head := Wrap(head + 1);
        h, n := h + 1, n + 1;
        EmptyExact(h, |m.requests|);
      }
      HeldAdvance(sqes[..], model.sqCapacity, model.requests, model.sqHead, h);
      sqHead := head;
      IssuesThen(m, model, h, punts, outcomes, places, budget, left);
      model := model.(sqHead := h);
      SpaceExact(h, |model.requests|, model.sqCapacity);
      CountIsSize(outcomes);
    }

    /** The entry of the submission ring at free-running index `h`. */
    method LoadSqe(head: uint32, ghost h: nat) returns (sqe: Sqe)
      requires Valid() && model.sqHead <= h < |model.requests| && head == Wrap(h)
      ensures sqe == model.requests[h]
    {
      hide Held, IsCapacity, Wrap, And;
      HeldAt(sqes[..], model.sqCapacity, model.requests, model.sqHead, h);
      sqe := sqes[And(head, sqMask)];
    }
  }

  // ---------------------------------------------------------------- punting

  /** `punt_to_io_wq`, up to its return or its sleep inside `queue_work`. `freed` tells whether
      the copy was released again. */
  method PuntToIoWq(wq: WQ.WorkQueue<Sqe>, sqe: Sqe, memory: bool)
    returns (punt: Punt, freed: bool, ghost signal: set<nat>)
    requires wq.Valid() && WM.Outside(wq.model, CLIENT) && |wq.model.queuers| + 1 < MODULUS
    modifies wq, wq.workList, wq.occupied
    ensures wq.Valid()
    ensures punt.Queued? <==> memory
    ensures memory ==> punt.verdict == WM.TryVerdict(old(wq.model)) && WQ.IsVerdict(old(wq.model), punt.verdict)
    ensures freed <==> punt == Queued(WM.OwnerDead)
    ensures !memory ==> wq.model == old(wq.model)
    ensures memory ==>
              && WM.Enabled(old(wq.model), WM.Submit(CLIENT, WM.Work(true, sqe, true), signal))
              && wq.model == WM.Apply(old(wq.model), WM.Submit(CLIENT, WM.Work(true, sqe, true), signal))
  {
    signal := {};
    if !memory {
      return NoRoom, false, signal;
    }
    var verdict;
    verdict, signal := wq.QueueWork(CLIENT, WM.Work(true, sqe, true));
    return Queued(verdict), verdict == WM.OwnerDead, signal;
  }

  /** `punt_to_io_wq` after a sleep. */
  method PuntToIoWqAgain(wq: WQ.WorkQueue<Sqe>, sqe: Sqe) returns (punt: Punt, freed: bool, ghost signal: set<nat>)
    requires wq.Valid() && |wq.model.queuers| < MODULUS
    requires CLIENT in wq.model.queuers
    requires wq.model.queuers[CLIENT] == WM.Queuer(WM.Roused, WM.Work(true, sqe, true))
    modifies wq, wq.workList, wq.occupied
    ensures wq.Valid()
    ensures punt.Queued? && WQ.IsVerdict(old(wq.model), punt.verdict)
    ensures punt.verdict == WM.TryVerdict(old(wq.model)) && (freed <==> punt == Queued(WM.OwnerDead))
    ensures WM.Enabled(old(wq.model), WM.Resubmit(CLIENT, signal))
    ensures wq.model == WM.Apply(old(wq.model), WM.Resubmit(CLIENT, signal))
  {
    var verdict;
    verdict, signal := wq.QueueWorkAgain(CLIENT, WM.Work(true, sqe, true));
    return Queued(verdict), verdict == WM.OwnerDead, signal;
  }

  // ---------------------------------------------------------------- what a submission comes to

  /** At some moment between `m` and `m'` the completion ring took no more. */
  ghost predicate FoundFull(m: Rings, m': Rings) {
    exists t: nat :: |m.posted| <= t <= |m'.posted| && !HasSpace(m.cqHead, t, m.cqLimit)
  }

  /** The `j`-th entry of a submission that began in `m` went through, or not: an unknown
      operation does not, an asynchronous one does if the work queue takes it, and a NOP unless
      the completion ring is full. */
  ghost predicate Issued(m: Rings, m': Rings, punts: nat -> Punt, j: nat, ok: bool) {
    && m.sqHead + j < |m.requests|
    && var op := m.requests[m.sqHead + j].op;
       && (op > OP_MODULE_HANDLE ==> !ok) && (IsAsync(op) ==> (ok <==> IsTaken(punts(j))))
       && (op == OP_NOP && !ok ==> FoundFull(m, m'))
  }

  /** The entries from `from` on that the client itself has completed, in order. */
  ghost function OwnPosts(requests: seq<Sqe>, from: nat, outcomes: seq<bool>): seq<Sqe>
    requires from + |outcomes| <= |requests|
  {
    if outcomes == [] then [] else
      var j := |outcomes| - 1;
      OwnPosts(requests, from, outcomes[..j])
      + if outcomes[j] && requests[from + j].op == OP_NOP then [requests[from + j]] else []
  }

  /** The completions of `own` are at `places`, in this order, in `posted` from `start` on. */
  ghost predicate PostedInOrder(own: seq<Sqe>, places: seq<nat>, start: nat, posted: seq<Cqe>) {
    && |places| == |own|
    && (forall i :: 0 <= i < |places| ==>
          start <= places[i] < |posted| && posted[places[i]] == Cqe(OP_NOP, 0, 0, own[i].userData))
    && forall i, j :: 0 <= i < j < |places| ==> places[i] < places[j]
  }

  /** A submission that began in `m` has come to `m'`, having issued `|outcomes|` entries while
      the workers used `budget - left` posts. Nothing but those posts and the client's own
      completions, one for each NOP that went through and in their order, has reached the
      completion ring. */
  ghost predicate Issues(m: Rings, m': Rings, punts: nat -> Punt, outcomes: seq<bool>, places: seq<nat>,
                         budget: nat, left: nat) {
    && m' == m.(sqHead := m'.sqHead, posted := m'.posted)
    && m.posted <= m'.posted && left <= budget
    && m.sqHead + |outcomes| <= |m.requests|
    && |m'.posted| + left == |m.posted| + budget + |places|
    && PostedInOrder(OwnPosts(m.requests, m.sqHead, outcomes), places, |m.posted|, m'.posted)
    && forall j :: 0 <= j < |outcomes| ==> Issued(m, m', punts, j, outcomes[j])
  }

  lemma NothingIssued(m: Rings, punts: nat -> Punt, budget: nat)
    requires m.sqHead <= |m.requests|
    ensures Issues(m, m, punts, [], [], budget, budget)
  {
  }

  lemma IssuesThen(m: Rings, m': Rings, h: nat, punts: nat -> Punt, outcomes: seq<bool>, places: seq<nat>,
                   budget: nat, left: nat)
    requires Issues(m, m', punts, outcomes, places, budget, left)
    ensures Issues(m, m'.(sqHead := h), punts, outcomes, places, budget, left)
  {
    hide PostedInOrder;
    IssuedLater(m, m', m'.(sqHead := h), punts, outcomes);
  }

  lemma FullLater(m: Rings, m': Rings, m'': Rings)
    requires FoundFull(m, m') && m'.posted <= m''.posted
    ensures FoundFull(m, m'')
  {
    var t: nat :| |m.posted| <= t <= |m'.posted| && !HasSpace(m.cqHead, t, m.cqLimit);
  }

  lemma IssuedLater(m: Rings, m': Rings, m'': Rings, punts: nat -> Punt, outcomes: seq<bool>)
    requires m'.posted <= m''.posted
    requires forall j :: 0 <= j < |outcomes| ==> Issued(m, m', punts, j, outcomes[j])
    ensures forall j :: 0 <= j < |outcomes| ==> Issued(m, m'', punts, j, outcomes[j])
  {
    hide FoundFull;
    forall j | 0 <= j < |outcomes| ensures Issued(m, m'', punts, j, outcomes[j]) {
      assert Issued(m, m', punts, j, outcomes[j]);
      if FoundFull(m, m') { FullLater(m, m', m''); }
    }
  }

  lemma PostedLater(own: seq<Sqe>, places: seq<nat>, start: nat, posted: seq<Cqe>, posted': seq<Cqe>)
    requires PostedInOrder(own, places, start, posted) && posted <= posted'
    ensures PostedInOrder(own, places, start, posted')
  {
    forall i | 0 <= i < |places| ensures posted'[places[i]] == Cqe(OP_NOP, 0, 0, own[i].userData) {
      assert posted[places[i]] == posted'[places[i]];
    }
  }

  lemma PostedOneMore(own: seq<Sqe>, places: seq<nat>, start: nat, posted: seq<Cqe>, sqe: Sqe)
    requires PostedInOrder(own, places, start, posted) && start <= |posted|
    ensures PostedInOrder(own + [sqe], places + [|posted|], start, posted + [Cqe(OP_NOP, 0, 0, sqe.userData)])
  {
    PostedLater(own, places, start, posted, posted + [Cqe(OP_NOP, 0, 0, sqe.userData)]);
  }

  lemma IssuedOneMore(m: Rings, m': Rings, punts: nat -> Punt, outcomes: seq<bool>, ok: bool)
    requires forall j :: 0 <= j < |outcomes| ==> Issued(m, m', punts, j, outcomes[j])
    requires Issued(m, m', punts, |outcomes|, ok)
    ensures forall j :: 0 <= j < |outcomes| + 1 ==> Issued(m, m', punts, j, (outcomes + [ok])[j])
  {
    hide Issued;
  }

  /** One more entry: the workers take `m0` to `m1`, the entry `m1` to `m2`. */
  lemma IssuesOneMore(m: Rings, m0: Rings, m1: Rings, m2: Rings, punts: nat -> Punt, outcomes: seq<bool>,
                      places: seq<nat>, budget: nat, left: nat, left': nat, ok: bool)
    returns (places': seq<nat>)
    requires Issues(m, m0, punts, outcomes, places, budget, left) && m0.sqHead == m.sqHead
    requires m.sqHead + |outcomes| < |m.requests|
    requires m1 == m0.(posted := m1.posted) && m0.posted <= m1.posted
    requires left' <= left && |m1.posted| + left' == |m0.posted| + left
    requires
      var sqe := m.requests[m.sqHead + |outcomes|];
      && (sqe.op == OP_NOP ==>
            && (ok <==> HasSpace(m1.cqHead, |m1.posted|, m1.cqLimit))
            && m2 == m1.(posted := m1.posted + if ok then [Cqe(OP_NOP, 0, 0, sqe.userData)] else []))
      && (sqe.op != OP_NOP ==> m2 == m1)
      && (IsAsync(sqe.op) ==> (ok <==> IsTaken(punts(|outcomes|))))
      && (sqe.op > OP_MODULE_HANDLE ==> !ok)
    ensures Issues(m, m2, punts, outcomes + [ok], places', budget, left')
  {
    hide HasSpace, PostedInOrder, IsTaken;
    IssuedLater(m, m0, m2, punts, outcomes);
    assert Issued(m, m2, punts, |outcomes|, ok);
    hide FoundFull, Issued;
    IssuedOneMore(m, m2, punts, outcomes, ok);
    var sqe, own := m.requests[m.sqHead + |outcomes|], OwnPosts(m.requests, m.sqHead, outcomes);
    assert (outcomes + [ok])[..|outcomes|] == outcomes;
    assert own + [] == own && m1.posted + [] == m1.posted;
    PostedLater(own, places, |m.posted|, m0.posted, m1.posted);
    if ok && sqe.op == OP_NOP {
      PostedOneMore(own, places, |m.posted|, m1.posted, sqe);
      places' := places + [|m1.posted|];
    } else {
      places' := places;
    }
  }

  // ---------------------------------------------------------------- NOPs alone

  lemma {:induction false} OwnPostsOfNops(requests: seq<Sqe>, from: nat, outcomes: seq<bool>)
    requires from + |outcomes| <= |requests|
    requires forall k :: from <= k < from + |outcomes| ==> requests[k].op == OP_NOP
    ensures |OwnPosts(requests, from, outcomes)| <= |outcomes|
    ensures (exists j :: 0 <= j < |outcomes| && !outcomes[j]) ==> |OwnPosts(requests, from, outcomes)| < |outcomes|
    ensures (forall j :: 0 <= j < |outcomes| ==> outcomes[j]) ==>
              OwnPosts(requests, from, outcomes) == requests[from..from + |outcomes|]
  {
    if outcomes != [] {
      var n := |outcomes| - 1;
      OwnPostsOfNops(requests, from, outcomes[..n]);
      assert forall j :: 0 <= j < n ==> outcomes[..n][j] == outcomes[j];
      assert requests[from..from + n] + [requests[from + n]] == requests[from..from + n + 1];
    }
  }

  lemma Squeezed(places: seq<nat>, start: nat, i: nat)
    requires forall i, j :: 0 <= i < j < |places| ==> places[i] < places[j]
    requires forall i :: 0 <= i < |places| ==> start <= places[i] < start + |places|
    requires i < |places|
    ensures places[i] == start + i
  {
    AtLeast(places, start, i);
    AtMost(places, start + |places|, i);
  }

  lemma {:induction false} AtLeast(places: seq<nat>, start: nat, i: nat)
    requires forall i, j :: 0 <= i < j < |places| ==> places[i] < places[j]
    requires i < |places| && start <= places[0]
    ensures start + i <= places[i]
  {
    if i > 0 { AtLeast(places, start, i - 1); }
  }

  lemma {:induction false} AtMost(places: seq<nat>, end: nat, i: nat)
    requires forall i, j :: 0 <= i < j < |places| ==> places[i] < places[j]
    requires i < |places| && places[|places| - 1] < end
    ensures places[i] + |places| - i <= end
    decreases |places| - i
  {
    if i < |places| - 1 { AtMost(places, end, i + 1); }
  }

  function NopCompletions(nops: seq<Sqe>): seq<Cqe> {
    seq(|nops|, j requires 0 <= j < |nops| => Cqe(OP_NOP, 0, 0, nops[j].userData))
  }

  /** What a `gw_ring_submit` of `n` NOPs comes to with room for their completions, with the workers
      quiet and no wrap on the way: it returns `n`, and posts the `n` completions, in order. */
  lemma NopsComplete(m: Rings, m': Rings, punts: nat -> Punt, outcomes: seq<bool>, places: seq<nat>, budget: nat)
    requires Issues(m, m', punts, outcomes, places, budget, budget)
    requires forall k :: m.sqHead <= k < m.sqHead + |outcomes| ==> m.requests[k].op == OP_NOP
    requires forall t: nat :: |m.posted| <= t < |m.posted| + |outcomes| ==> HasSpace(m.cqHead, t, m.cqLimit)
    ensures |set j: nat | j < |outcomes| && outcomes[j]| == |outcomes|
    ensures m'.posted == m.posted + NopCompletions(m.requests[m.sqHead..m.sqHead + |outcomes|])
  {
    hide HasSpace;
    NopsGoThrough(m, m', punts, outcomes, places, budget);
    AllTrue(outcomes);
    CountIsSize(outcomes);
    OwnPostsOfNops(m.requests, m.sqHead, outcomes);
    hide Issued, OwnPosts;
    var nops := m.requests[m.sqHead..m.sqHead + |outcomes|];
    forall i | 0 <= i < |nops| ensures m'.posted[|m.posted| + i] == NopCompletions(nops)[i] {
      Squeezed(places, |m.posted|, i);
    }
    assert forall i :: |m.posted| <= i < |m'.posted| ==> m'.posted[i] == NopCompletions(nops)[i - |m.posted|] by {
      forall i | |m.posted| <= i < |m'.posted| ensures m'.posted[i] == NopCompletions(nops)[i - |m.posted|] {
        assert m'.posted[|m.posted| + (i - |m.posted|)] == NopCompletions(nops)[i - |m.posted|];
      }
    }
  }

  /** There is room, for instance, in an empty completion ring of at least `n` entries. */
  lemma EmptyRingHasSpace(head: nat, n: nat, limit: nat)
    requires n <= limit && Wrap(head) + n <= MODULUS
    ensures forall t: nat :: head <= t < head + n ==> HasSpace(head, t, limit)
  {
    forall t: nat | head <= t < head + n ensures HasSpace(head, t, limit) {
      assert Wrap(t) == Wrap(head) + (t - head);
    }
  }

  lemma NopsGoThrough(m: Rings, m': Rings, punts: nat -> Punt, outcomes: seq<bool>, places: seq<nat>, budget: nat)
    requires Issues(m, m', punts, outcomes, places, budget, budget)
    requires forall k :: m.sqHead <= k < m.sqHead + |outcomes| ==> m.requests[k].op == OP_NOP
    requires forall t: nat :: |m.posted| <= t < |m.posted| + |outcomes| ==> HasSpace(m.cqHead, t, m.cqLimit)
    ensures forall j :: 0 <= j < |outcomes| ==> outcomes[j]
  {
    hide HasSpace;
    OwnPostsOfNops(m.requests, m.sqHead, outcomes);
    forall j | 0 <= j < |outcomes| ensures outcomes[j] {
      assert Issued(m, m', punts, j, outcomes[j]);
      assert !outcomes[j] ==> |m'.posted| < |m.posted| + |outcomes|;
    }
  }

  lemma {:induction false} AllTrue(bits: seq<bool>)
    requires forall j :: 0 <= j < |bits| ==> bits[j]
    ensures CountTrue(bits) == |bits|
  {
    if bits != [] {
      AllTrue(bits[..|bits| - 1]);
    }
  }

  lemma {:induction false} NoOwnPosts(requests: seq<Sqe>, from: nat, outcomes: seq<bool>)
    requires from + |outcomes| <= |requests|
    requires forall k :: 0 <= k < |requests| ==> requests[k].op != OP_NOP
    ensures OwnPosts(requests, from, outcomes) == []
  {
    if outcomes != [] { NoOwnPosts(requests, from, outcomes[..|outcomes| - 1]); }
  }

  /** The sizes of the two rings, and the state they start in. */
  lemma SizesFit(max: int, size: uint32)
    requires IsRoundUp(max, size)
    ensures 2 <= max <= 0x8000_0000 && InBounds(InitRings(max)) && Wrap(0) == 0
    ensures Wrap(max * 2) == Wrap(2 * max) == if size <= 0x4000_0000 then 2 * max else 0
    ensures Wrap(Wrap(max * 2) as int - 1) == Wrap(2 * max - 1)
    ensures size > 0x4000_0000 ==> CqFull(InitRings(max))
    ensures IsCapacity(max) && (size <= 0x4000_0000 ==> IsCapacity(2 * max))
  {
    CapacityRange(max);
    RI.CqLimitIsCapacity(max);
    RoundUpHalf(max, size);
  }

  /** A rounded-up size is at most 2^30 exactly when the request is. */
  lemma RoundUpHalf(max: int, size: uint32)
    requires IsRoundUp(max, size)
    ensures max <= 0x4000_0000 <==> size <= 0x4000_0000
  {
    Pow2At31();
    assert Pow2(30) == 0x4000_0000;
    var k: nat :| k <= 31 && max == Pow2(k);
    if k <= 30 { Pow2Monotone(k, 30); }
  }
}
