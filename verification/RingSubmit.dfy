/** What `gw_ring_submit` returns, and what it leaves behind. */
module RingSubmit {
  import opened Uint32
  import opened Circular
  import opened WorkQueueModel
  import opened RingModel
  import opened RingInvariant
  import opened RingSafety

  /** The requests that were handed on: posted at once, or accepted by the work queue. */
  function CountAccepted(exits: seq<Exit>): nat {
    if exits == [] then 0
    else
      var last := exits[|exits| - 1];
      CountAccepted(exits[..|exits| - 1]) + if IsHandedOn(last) then 1 else 0
  }

  /** While a submission is going on, its return value counts the requests handed on so far. */
  ghost predicate SubmitCounted(s: System) {
    s.client.Submitting? || s.client.Blocked? ==>
      s.submitFrom <= |s.exits| && s.accepted == CountAccepted(s.exits[s.submitFrom..])
  }

  lemma CountOneMore(exits: seq<Exit>, from: nat, exit: Exit)
    requires from <= |exits|
    ensures CountAccepted((exits + [exit])[from..])
         == CountAccepted(exits[from..]) + if IsHandedOn(exit) then 1 else 0
  {
    assert (exits + [exit])[from..] == exits[from..] + [exit];
    assert (exits[from..] + [exit])[..|exits| - from] == exits[from..];
  }

  lemma {:induction false} CountIsSize(exits: seq<Exit>, from: nat)
    requires from <= |exits|
    ensures CountAccepted(exits[from..])
         == |set k: nat | from <= k < |exits| && (exits[k].PostedAt? || exits[k].Punted?)|
    decreases |exits| - from
  {
    var handed := set k: nat | from <= k < |exits| && (exits[k].PostedAt? || exits[k].Punted?);
    if from == |exits| {
      assert handed == {};
    } else {
      var n := |exits| - 1;
      CountIsSize(exits[..n], from);
      var before := set k: nat | from <= k < n && (exits[..n][k].PostedAt? || exits[..n][k].Punted?);
      assert handed == if IsHandedOn(exits[n]) then before + {n} else before;
      assert n !in before && exits[from..][..n - from] == exits[..n][from..];
    }
  }

  predicate IsHandedOn(exit: Exit) {
    exit.PostedAt? || exit.Punted?
  }

  /** At most one entry left the submission ring, and was counted if it was handed on. */
  ghost predicate Counted(s: System, s': System) {
    && s'.submitFrom == s.submitFrom
    && ((s'.exits == s.exits && s'.accepted == s.accepted)
        || (s'.exits != [] && s'.exits == s.exits + [s'.exits[|s'.exits| - 1]]
            && s'.accepted == s.accepted + if IsHandedOn(s'.exits[|s'.exits| - 1]) then 1 else 0))
  }

  lemma PuntIsCounted(s: System, wq: Queue<Data>, signal: set<nat>, mallocs: multiset<nat>)
    requires s.ring.sqHead < |s.ring.requests|
    ensures Counted(s, PuntRound(s, wq, signal).(mallocs := mallocs))
  {
    hide TryQueue, TryVerdict;
  }

  lemma LeavingIsCounted(s: System, e: Event)
    requires Possible(s, e) && IsIssue(e)
    ensures Counted(s, Next(s, e))
  {
    if e.Punt? {
      hide Enabled, PuntRound, Counted;
      PuntIsCounted(s, s.wq, e.signal, s.mallocs + multiset{s.ring.sqHead});
    } else if e.PuntAgain? {
      hide Enabled, PuntRound, Counted, Unqueue;
      var s' := PuntRound(s, Unqueue(s.wq, CLIENT), e.signal);
      PuntIsCounted(s, Unqueue(s.wq, CLIENT), e.signal, s'.mallocs);
      assert s'.(mallocs := s'.mallocs) == s';
    } else {
      hide CqFull;
    }
  }

  lemma LeavingStepCounts(s: System, e: Event)
    requires RingsOk(s) && Possible(s, e) && IsIssue(e) && SubmitCounted(s)
    ensures SubmitCounted(Next(s, e))
  {
    assert s.client.Submitting? || s.client.Blocked?;
    LeavingIsCounted(s, e);
    hide CountAccepted, Possible, Next, IsCapacity;
    var s' := Next(s, e);
    if s'.exits != s.exits {
      CountOneMore(s.exits, s.submitFrom, s'.exits[|s.exits|]);
    }
  }

  lemma OtherStepCounts(s: System, e: Event)
    requires RingsOk(s) && Possible(s, e) && !IsIssue(e) && SubmitCounted(s)
    ensures SubmitCounted(Next(s, e))
  {
    hide Apply, CqFull, Enabled, IsCapacity, CqReady;
  }

  lemma {:induction false} SystemRunCounts(states: seq<System>, events: seq<Event>, k: nat)
    requires IsSystemRun(states, events) && k <= |events| && SysInv(states[0]) && SubmitCounted(states[0])
    ensures SubmitCounted(states[k])
  {
    hide SysInv, Possible, Next, SubmitCounted;
    if k > 0 {
      SystemRunCounts(states, events, k - 1);
      SystemRunKeepsInv(states, events, k - 1);
      OneStepCounts(states[k - 1], events[k - 1]);
    }
  }

  lemma OneStepCounts(s: System, e: Event)
    requires SysInv(s) && Possible(s, e) && SubmitCounted(s)
    ensures SubmitCounted(Next(s, e))
  {
    hide ClientOk, Requests, SubmitCounted, Possible, Next;
    if IsIssue(e) { LeavingStepCounts(s, e); } else { OtherStepCounts(s, e); }
  }

  /** `gw_ring_submit`, when it returns, has drained the submission ring; its return value is
      the number of requests it handed on; and `gw_ring_get_sqe` finds room at once, wherever
      the indices stand relative to the wrap. */
  lemma SubmitDrains(states: seq<System>, events: seq<Event>)
    requires IsSystemRun(states, events) && IsInitSystem(states[0])
    requires Possible(states[|events|], EndSubmit)
    ensures
      var s := states[|events|];
      && s.submitFrom <= |s.exits| == |s.ring.requests|
      && s.accepted == |set k: nat | s.submitFrom <= k < |s.exits| && (s.exits[k].PostedAt? || s.exits[k].Punted?)|
      && Next(s, EndSubmit).client.Idle? && !SqFull(Next(s, EndSubmit).ring)
  {
    hide SysInv, CountAccepted, IsInitSystem, Refuses;
    InitialFacts(states[0]);
    SystemRunKeepsInv(states, events, |events|);
    SystemRunCounts(states, events, |events|);
    EmptySubmissionRing(states[|events|]);
    CountIsSize(states[|events|].exits, states[|events|].submitFrom);
  }

  lemma InitialFacts(s: System)
    requires IsInitSystem(s)
    ensures SysInv(s) && SubmitCounted(s)
  {
    var capacity: nat, wq: Queue<Data> :|
      IsCapacity(capacity) && capacity >= 2 && WorkQueueModel.IsInit(wq) && s == InitSystem(capacity, wq);
    InitHasSysInv(capacity, wq);
    hide SysInv;
  }

  /** An empty submission ring has room. */
  lemma EmptySubmissionRing(s: System)
    requires SysInv(s)
    ensures |s.exits| == s.ring.sqHead <= |s.ring.requests|
    ensures s.ring.sqHead == |s.ring.requests| ==> !SqFull(s.ring)
  {
    hide ClientOk, Requests;
    CapacityRange(s.ring.sqCapacity);
    RefusalExact(s.ring.sqHead, |s.ring.requests|, s.ring.sqCapacity);
  }
}
