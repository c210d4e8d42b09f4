/**
 The bounded scheduler of the service (src/model_council/service.py): a semaphore of
 worker and queue slots, the set of scheduled runs, and the queue of runs waiting to be
 taken up again. Every method runs under the state lock.
 */
module Scheduler {

  predicate Distinct(xs: seq<string>) {
    forall i, j | 0 <= i < j < |xs| :: xs[i] != xs[j]
  }

  /** What became of handing a run to the executor. */
  datatype Submission = Submitted | AlreadyScheduled | SubmitRaised

  /** What `bind_run` and what follows it in `create_run` came to. */
  datatype Binding = Created | Replayed | Conflict | Disabled | BindRaised

  datatype Creation = QueueFull | ReplayedRun | NotPermitted | Accepted | FailedSafely | FailedInCleanup

  /** The first of these runs that the executor refuses. */
  function FirstRefused(runs: seq<string>, refused: set<string>): (i: nat)
    ensures i <= |runs|
    ensures forall k | 0 <= k < i :: runs[k] !in refused
    ensures i < |runs| ==> runs[i] in refused
  {
    if runs == [] then 0 else if runs[0] in refused then 0 else 1 + FirstRefused(runs[1..], refused)
  }

  function SetOf(runs: seq<string>): set<string> {
    set r | r in runs
  }

  class Scheduler {
    const capacity: nat
    var free: nat
    var scheduled: set<string>
    var pending: seq<string>
    var pendingIds: set<string>
    var closed: bool
    /** Runs that exist in the run store; none is ever deleted. */
    var known: set<string>
    /** Slots that were acquired and never given back. */
    ghost var lost: nat
    /** Waiting runs that were taken off the queue and not started. */
    ghost var dropped: set<string>
    /** The last drain of the queue was cut short by a refusal. */
    ghost var stalled: bool

    /** Slots are conserved: each is free, held by exactly one scheduled run, or lost. */
    ghost predicate Conserved()
      reads this
    {
      free + |scheduled| + lost == capacity
    }

    /** The queue and its index agree, no run is both scheduled and waiting, and all of them exist. */
    ghost predicate Indexed()
      reads `pending, `pendingIds, `scheduled, `known
    {
      && Distinct(pending) && (forall r :: r in pending <==> r in pendingIds)
      && scheduled !! pendingIds && scheduled <= known && pendingIds <= known
    }

    /** While the service is open nobody waits beside a free slot. */
    ghost predicate NoIdleSlot()
      reads this
    {
      closed || pending == [] || free == 0
    }

    ghost predicate Valid()
      reads this
    {
      Conserved() && Indexed() && (stalled || NoIdleSlot())
    }

    constructor (maxWorkers: nat, maxQueue: nat, known: set<string>)
      ensures Valid() && capacity == free == maxWorkers + maxQueue && scheduled == {} && pending == [] && !closed
      ensures lost == 0 && dropped == {} && !stalled && this.known == known
    {
      capacity, free := maxWorkers + maxQueue, maxWorkers + maxQueue;
      scheduled, pending, pendingIds, closed := {}, [], {}, false;
      lost, dropped, stalled := 0, {}, false;
      this.known := known;
    }

    /** `BoundedSemaphore.release`: raises when nothing was acquired, which its callers exclude. */
    method Release()
      requires free < capacity
      modifies `free
      ensures free == old(free) + 1
    {
      free := free + 1;
    }

    /** Hands over a run under a slot the caller has acquired; the slot is then the run's until it finishes. */
    method SubmitAcquired(run: string, refused: bool) returns (s: Submission)
      requires free + 1 + |scheduled| + lost == capacity && run in known
      modifies `free, `scheduled
      ensures s == if run in old(scheduled) then AlreadyScheduled else if refused then SubmitRaised else Submitted
      ensures scheduled == if s == Submitted then old(scheduled) + {run} else old(scheduled)
      ensures free == if s == AlreadyScheduled then old(free) + 1 else old(free)
    {
      if run in scheduled {
        Release();
        return AlreadyScheduled;
      }
      scheduled := scheduled + {run};
      if refused {
        scheduled := scheduled - {run};
        assert scheduled == old(scheduled);
        return SubmitRaised;
      }
      s := Submitted;
    }

    method QueueRecovery(run: string)
      requires Conserved() && Indexed() && run in known
      modifies `pending, `pendingIds
      ensures Conserved() && Indexed()
      ensures scheduled + pendingIds == old(scheduled + pendingIds) + {run}
      ensures pending == if run in scheduled || run in old(pendingIds) then old(pending) else old(pending) + [run]
    {
      if run in scheduled || run in pendingIds {
        assert scheduled + pendingIds == old(scheduled + pendingIds) + {run};
        return;
      }
      pending := pending + [run];
      pendingIds := pendingIds + {run};
    }

    /** How many of the waiting runs there are slots for. */
    function Room(): (r: nat)
      reads this
      ensures r <= |pending|
    {
      if closed then 0 else if free <= |pending| then free else |pending|
    }

    /** The waiting runs there are slots for. */
    function Startable(): (r: seq<string>)
      reads this
    {
      pending[..Room()]
    }

    /**
     Starts waiting runs while there are free slots. A run the executor refuses is taken off the queue all the same,
     its slot is given back, and the rest of the queue goes on waiting: this happens exactly when one of the runs there
     are slots for is refused.
     */
    method DrainPending(refused: set<string>) returns (raised: bool)
      requires Conserved() && Indexed()
      modifies `free, `scheduled, `pending, `pendingIds, `dropped, `stalled
      ensures Valid() && stalled == raised
      ensures var n := FirstRefused(old(Startable()), refused);
              && (raised <==> n < |old(Startable())|)
              && scheduled == old(scheduled) + SetOf(old(pending)[..n]) && free == old(free) - n
              && pending == old(pending)[n + if raised then 1 else 0..]
              && dropped == old(dropped) + if raised then {old(pending)[n]} else {}
    {
      hide Indexed, SetOf, FirstRefused;
      ghost var n, queue, startable := 0, pending, Startable();
      assert |startable| == Room() && forall k | 0 <= k < |startable| :: startable[k] == queue[k];
      raised, n := StartWaiting(refused);
      OnlyFirst(startable, refused, n);
      dropped := dropped + if raised then {queue[n]} else {};
      stalled := raised;
    }

    /** The loop: `n` runs are started, up to the end of the queue, the last slot, or a refusal. */
    method StartWaiting(refused: set<string>) returns (raised: bool, ghost n: nat)
      requires Conserved() && Indexed()
      modifies `free, `scheduled, `pending, `pendingIds
      ensures Conserved() && Indexed() && (raised || NoIdleSlot())
      ensures n <= old(Room()) && (raised <==> n < old(Room()))
      ensures (forall k | 0 <= k < n :: old(pending)[k] !in refused) && (raised ==> old(pending)[n] in refused)
      ensures scheduled == old(scheduled) + SetOf(old(pending)[..n]) && free == old(free) - n
      ensures pending == old(pending)[n + if raised then 1 else 0..]
    {
      hide Indexed, SetOf;
      raised, n := false, 0;
      ghost var queue := pending;
      Unstarted(queue);
      while pending != [] && !closed && free > 0
        invariant Conserved() && Indexed() && !raised
        invariant n + Room() == old(Room()) && pending == queue[n..]
        invariant free == old(free) - n && scheduled == old(scheduled) + SetOf(queue[..n])
        invariant forall k | 0 <= k < n :: queue[k] !in refused
        decreases |pending|
      {
        OneOn(queue, n);
        var run, started := StartFirst(refused);
        if !started {
          raised := true;
          return;
        }
        n := n + 1;
      }
    }

    /** Takes a slot and the first waiting run off the queue, and hands the run over. */
    method StartFirst(refused: set<string>) returns (run: string, started: bool)
      requires Conserved() && Indexed() && pending != [] && free > 0
      modifies `free, `scheduled, `pending, `pendingIds
      ensures Conserved() && Indexed()
      ensures run == old(pending[0]) && pending == old(pending[1..]) && pendingIds == old(pendingIds) - {run}
      ensures started <==> run !in refused
      ensures scheduled == if started then old(scheduled) + {run} else old(scheduled)
      ensures free == if started then old(free) - 1 else old(free)
    {
      free := free - 1;
      run := pending[0];
      assert pending == [run] + pending[1..];
      pending, pendingIds := pending[1..], pendingIds - {run};
      var s := SubmitAcquired(run, run in refused);
      started := s == Submitted;
      if !started {
        Release();
      }
    }

    /** A run that is in flight is left alone; any other is queued and, if there is room, started. */
    method EnsureScheduled(run: string, terminal: bool, refused: set<string>) returns (raised: bool)
      requires Valid() && run in known
      modifies `free, `scheduled, `pending, `pendingIds, `dropped, `stalled
      ensures Valid()
      ensures terminal ==> !raised
      ensures !terminal ==> run in scheduled || run in pendingIds || run in dropped
      ensures !terminal && !raised ==> run in scheduled + pendingIds
    {
      raised := false;
      if !terminal && run !in scheduled && run !in pendingIds {
        QueueRecovery(run);
        ghost var queue, n := pending, FirstRefused(Startable(), refused);
        raised := DrainPending(refused);
        Parts(queue, n, raised, run);
      }
    }

    method QueueAll(runs: seq<string>)
      requires Conserved() && Indexed() && forall r | r in runs :: r in known
      modifies `pending, `pendingIds
      ensures Conserved() && Indexed()
      ensures forall r | r in runs :: r in scheduled || r in pending
    {
      for i := 0 to |runs|
        invariant Conserved() && Indexed()
        invariant forall r | r in runs[..i] :: r in scheduled || r in pending
      {
        assert runs[..i + 1] == runs[..i] + [runs[i]];
        QueueRecovery(runs[i]);
      }
      assert runs[..|runs|] == runs;
    }

    /** At startup every run that is not finished is queued, in order, and as many as fit are started. */
    method RecoverNonterminal(runs: seq<string>, refused: set<string>) returns (raised: bool)
      requires Valid() && forall r | r in runs :: r in known
      modifies `free, `scheduled, `pending, `pendingIds, `dropped, `stalled
      ensures Valid()
      ensures forall r | r in runs :: r in scheduled || r in pending || (raised && r in dropped)
      ensures !raised ==> dropped == old(dropped)
    {
      hide Indexed, FirstRefused;
      QueueAll(runs);
      ghost var queue, before, n := pending, scheduled, FirstRefused(Startable(), refused);
      raised := DrainPending(refused);
      forall r | r in runs ensures r in scheduled || r in pending || (raised && r in dropped) {
        if r in queue {
          Parts(queue, n, raised, r);
        }
      }
    }

    /** The end of a run gives its slot back. */
    method Retire(run: string)
      requires Conserved() && Indexed() && run in scheduled
      modifies `free, `scheduled
      ensures Conserved() && Indexed() && free == old(free) + 1 && scheduled == old(scheduled) - {run}
    {
      scheduled := scheduled - {run};
      Release();
    }

    /** The done-callback of a run. */
    method RunFinished(run: string, refused: set<string>) returns (raised: bool)
      requires Valid() && run in scheduled
      modifies `free, `scheduled, `pending, `pendingIds, `dropped, `stalled
      ensures Valid() && stalled == raised
      ensures forall r | r in old(pending) :: r in scheduled || r in pending || (raised && r in dropped)
      ensures forall r | r in old(scheduled) && r != run :: r in scheduled
      ensures if raised then exists r :: r in refused && r in old(pending) && dropped == old(dropped) + {r} else dropped == old(dropped)
    {
      hide Indexed, FirstRefused;
      Retire(run);
      ghost var queue, n := pending, FirstRefused(Startable(), refused);
      ghost var startable := Startable();
      raised := DrainPending(refused);
      assert raised ==> queue[n] == startable[n] && queue[n] in queue && startable[n] in refused;
      forall r | r in queue ensures r in scheduled || r in pending || (raised && r in dropped) {
        Parts(queue, n, raised, r);
      }
    }

    method Close()
      requires Valid()
      modifies `closed
      ensures Valid() && closed
    {
      closed := true;
    }

    /** A new run of this id has never been scheduled: ids are fresh, and only known runs are scheduled. */
    lemma FreshIsUnscheduled(run: string)
      requires Indexed() && run !in known
      ensures run !in scheduled && run !in pendingIds
    {
    }

    /**
     `create_run` for a new key: a slot is taken first, and is given back on every way out that does
     not start the run, save one: when the cleanup after a failure itself raises, the slot is lost.
     */
    method CreateRun(run: string, binding: Binding, created: bool, prepared: bool, refused: bool, cleanupRaises: bool)
      returns (outcome: Creation)
      requires Valid() && !closed && run !in known && (prepared ==> created)
      modifies `free, `scheduled, `known, `lost
      ensures Valid()
      ensures outcome == QueueFull <==> old(free) == 0
      ensures outcome == Accepted <==> old(free) > 0 && binding == Created && prepared && !refused
      ensures outcome == FailedInCleanup <==>
                old(free) > 0 && binding == Created && cleanupRaises && (!prepared || refused)
      ensures lost == old(lost) + if outcome == FailedInCleanup then 1 else 0
      ensures scheduled == if outcome == Accepted then old(scheduled) + {run} else old(scheduled)
      ensures free == if outcome == Accepted || outcome == FailedInCleanup then old(free) - 1 else old(free)
      ensures known == if old(free) > 0 && binding == Created && created then old(known) + {run} else old(known)
    {
      if free == 0 {
        return QueueFull;
      }
      free := free - 1;
      match binding {
        case Conflict => Release(); outcome := NotPermitted;
        case Disabled => Release(); outcome := NotPermitted;
        case BindRaised => Release(); outcome := FailedSafely;
        case Replayed => Release(); outcome := ReplayedRun;
        case Created =>
          FreshIsUnscheduled(run);
          if created {
            known := known + {run};
          }
          var s := SubmitRaised;
          if prepared {
            s := SubmitAcquired(run, refused);
          }
          if s == Submitted {
            return Accepted;
          }
          if cleanupRaises {
            lost := lost + 1;
            return FailedInCleanup;
          }
          Release();
          outcome := FailedSafely;
      }
    }

    /** `create_run` for a known key whose run was never stored: the run is created now, under the id it was bound to. */
    method RepairRun(run: string, created: bool, prepared: bool, refused: bool) returns (outcome: Creation)
      requires Valid() && !closed && run !in known && (prepared ==> created)
      modifies `free, `scheduled, `known
      ensures Valid()
      ensures outcome == QueueFull <==> old(free) == 0
      ensures outcome == Accepted <==> old(free) > 0 && prepared && !refused
      ensures scheduled == if outcome == Accepted then old(scheduled) + {run} else old(scheduled)
      ensures free == if outcome == Accepted then old(free) - 1 else old(free)
    {
      if free == 0 {
        return QueueFull;
      }
      free := free - 1;
      if created {
        known := known + {run};
      }
      var s := SubmitRaised;
      if prepared {
        s := SubmitAcquired(run, refused);
      }
      if s == Submitted {
        return Accepted;
      }
      Release();
      outcome := FailedSafely;
    }
  }

  lemma Unstarted(queue: seq<string>)
    ensures queue[0..] == queue && SetOf(queue[..0]) == {}
  {
  }

  lemma OneOn(queue: seq<string>, n: nat)
    requires n < |queue|
    ensures queue[n..][0] == queue[n] && queue[n..][1..] == queue[n + 1..]
    ensures SetOf(queue[..n + 1]) == SetOf(queue[..n]) + {queue[n]}
  {
    assert queue[..n + 1] == queue[..n] + [queue[n]];
  }

  lemma OnlyFirst(runs: seq<string>, refused: set<string>, i: nat)
    requires i <= |runs| && (forall k | 0 <= k < i :: runs[k] !in refused) && (i < |runs| ==> runs[i] in refused)
    ensures FirstRefused(runs, refused) == i
  {
  }

  /** Each run of a queue is among those started, the one dropped, or those left. */
  lemma Parts(queue: seq<string>, n: nat, raised: bool, run: string)
    requires run in queue && n + (if raised then 1 else 0) <= |queue|
    ensures run in SetOf(queue[..n]) || (raised && run == queue[n]) || run in queue[n + if raised then 1 else 0..]
  {
    var i :| 0 <= i < |queue| && queue[i] == run;
    if i < n {
      assert queue[..n][i] == run;
    } else if !raised || i > n {
      var d := if raised then 1 else 0;
      assert queue[n + d..][i - n - d] == run;
    }
  }

  /** One slot, one run whose dispatch is refused and whose cleanup raises: nothing runs, and nothing ever can. */
  method LeakExample() returns (first: Creation, second: Creation, running: set<string>)
    ensures first == FailedInCleanup && second == QueueFull && running == {}
  {
    var s := new Scheduler(1, 0, {});
    first := s.CreateRun("a", Created, true, true, true, true);
    second := s.CreateRun("b", Created, true, true, false, false);
    running := s.scheduled;
  }

  /** A service with one slot and two runs waiting for it. */
  method TwoWaiting(a: string, b: string) returns (s: Scheduler)
    requires a != b
    ensures fresh(s) && s.Conserved() && s.Indexed() && !s.closed
    ensures s.pending == [a, b] && s.free == 1 && s.scheduled == {}
  {
    s := new Scheduler(1, 0, {a, b});
    s.QueueRecovery(a);
    s.QueueRecovery(b);
  }

  /** The executor refuses the first of two waiting runs: it is dropped, and the second waits beside a free slot. */
  method DropExample(a: string, b: string) returns (raised: bool, running: set<string>, waiting: seq<string>, free: nat)
    requires a != b
    ensures raised && running == {} && waiting == [b] && free == 1
  {
    var s := TwoWaiting(a, b);
    ghost var queue := s.pending;
    assert s.Startable() == [a] && queue[1..] == [b] && SetOf(queue[..0]) == {} && FirstRefused([a], {a}) == 0;
    raised := s.DrainPending({a});
    running, waiting, free := s.scheduled, s.pending, s.free;
  }
}
