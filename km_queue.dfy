/**
 * The per-key write queue of routes/kilometrage.js (`withFileLock` and the
 * module-level `writeQueues` map). Each key holds a promise chain; here a chain
 * is the sequence of operations not yet settled, in the order they were
 * enqueued, the first of them being the one that runs. The promise interleaving
 * becomes two explicit steps: an operation is enqueued, or the running
 * operation of a key settles.
 *
 * `current.then(fn)` has no rejection handler: when an operation rejects, every
 * operation chained behind it skips its `fn` and rejects with the same error.
 * That rejection is the `carried` part of a chain. It disappears only with the
 * map entry, which the `finally` callback deletes when the operation settling
 * is still the recorded tail.
 */
module KmQueue {
  import opened Optional

  /** How an operation's promise settles. */
  datatype Outcome = Fulfilled | Rejected(error: string)

  /** One key's chain: unsettled operations in enqueue order (the head runs), and the
      rejection left by the last operation of this chain that settled, if it rejected. */
  datatype Chain<T> = Chain(pending: seq<T>, carried: Option<string>)

  /** `writeQueues`: a key is present exactly while its chain has an unsettled operation. */
  type Queues<T> = map<string, Chain<T>>

  ghost predicate QueuesValid<T>(qs: Queues<T>) {
    forall k :: k in qs ==> qs[k].pending != []
  }

  /** The unsettled operations of `key`, oldest first. */
  function PendingOf<T>(qs: Queues<T>, key: string): seq<T> {
    if key in qs then qs[key].pending else []
  }

  /** `withFileLock(key, fn)`: `fn` is chained behind the recorded tail of `key`, or
      starts a fresh chain (behind `Promise.resolve()`) when `key` has no entry. */
  function Enqueue<T>(qs: Queues<T>, key: string, op: T): (r: Queues<T>)
    ensures key in r && r[key].pending == PendingOf(qs, key) + [op]
    ensures key !in qs ==> r[key].carried == None
    ensures key in qs ==> r[key].carried == qs[key].carried
    ensures forall k :: k != key ==> (k in r <==> k in qs) && (k in qs ==> r[k] == qs[k])
  {
    if key in qs then qs[key := Chain(qs[key].pending + [op], qs[key].carried)]
    else qs[key := Chain([op], None)]
  }

  /** What one settlement reports: which operation settled, whether its `fn` ran, and
      how its promise settled. */
  datatype Settled<T> = Settled(key: string, op: T, ran: bool, outcome: Outcome)

  /** The head of `key` settles. When the chain carries a rejection the `fn` is skipped
      and the promise rejects with that same error; otherwise `fn` runs and `attempt`
      is how it ended. */
  function SettleResult<T>(qs: Queues<T>, key: string, attempt: Outcome): Settled<T>
    requires key in qs && qs[key].pending != []
  {
    var c := qs[key];
    match c.carried
    case Some(e) => Settled(key, c.pending[0], false, Rejected(e))
    case None => Settled(key, c.pending[0], true, attempt)
  }

  /** The rejection a settled promise hands to the operation chained behind it. */
  function CarriedBy(o: Outcome): Option<string> {
    match o
    case Rejected(e) => Some(e)
    case Fulfilled => None
  }

  /** The queue map after the head of `key` settled: the `finally` callback deletes the
      entry when the settling operation is still the tail, otherwise the next one
      becomes the head and inherits the settled promise's rejection. */
  function Settle<T>(qs: Queues<T>, key: string, attempt: Outcome): (r: Queues<T>)
    requires key in qs && qs[key].pending != []
    ensures PendingOf(r, key) == qs[key].pending[1..]
    ensures key in r <==> |qs[key].pending| > 1
    ensures key in r ==> r[key].carried == CarriedBy(SettleResult(qs, key, attempt).outcome)
    ensures forall k :: k != key ==> (k in r <==> k in qs) && (k in qs ==> r[k] == qs[k])
  {
    var c := qs[key];
    if |c.pending| == 1 then qs - {key}
    else
      qs[key := Chain(c.pending[1..], CarriedBy(SettleResult(qs, key, attempt).outcome))]
  }

  lemma EnqueueValid<T>(qs: Queues<T>, key: string, op: T)
    requires QueuesValid(qs)
    ensures QueuesValid(Enqueue(qs, key, op))
  {
  }

  lemma SettleValid<T>(qs: Queues<T>, key: string, attempt: Outcome)
    requires QueuesValid(qs) && key in qs
    ensures QueuesValid(Settle(qs, key, attempt))
  {
  }

  /** The two kinds of step the queue takes. */
  datatype Event<T> = Enq(key: string, op: T) | Done(key: string, attempt: Outcome)

  function Step<T>(qs: Queues<T>, ev: Event<T>): Queues<T>
    requires ev.Done? ==> ev.key in qs && qs[ev.key].pending != []
  {
    match ev
    case Enq(k, op) => Enqueue(qs, k, op)
    case Done(k, a) => Settle(qs, k, a)
  }

  /** A trace only settles keys that have a running operation. */
  predicate WellFormed<T>(qs: Queues<T>, evs: seq<Event<T>>)
    decreases |evs|
  {
    evs == [] ||
    ((evs[0].Done? ==> evs[0].key in qs && qs[evs[0].key].pending != []) &&
     WellFormed(Step(qs, evs[0]), evs[1..]))
  }

  /** The queue map after a trace. */
  function Run<T>(qs: Queues<T>, evs: seq<Event<T>>): Queues<T>
    requires WellFormed(qs, evs)
    decreases |evs|
  {
    if evs == [] then qs else Run(Step(qs, evs[0]), evs[1..])
  }

  /** What one event reports: a settlement for `Done`, nothing for `Enq`. */
  function StepLog<T>(qs: Queues<T>, ev: Event<T>): seq<Settled<T>>
    requires ev.Done? ==> ev.key in qs && qs[ev.key].pending != []
  {
    match ev
    case Done(k, a) => [SettleResult(qs, k, a)]
    case Enq(_, _) => []
  }

  /** The settlements of a trace, in the order they happen. */
  function Log<T>(qs: Queues<T>, evs: seq<Event<T>>): seq<Settled<T>>
    requires WellFormed(qs, evs)
    decreases |evs|
  {
    if evs == [] then [] else StepLog(qs, evs[0]) + Log(Step(qs, evs[0]), evs[1..])
  }

  /** The operations a trace enqueues on `key`, in order. */
  function EnqueuedOn<T>(evs: seq<Event<T>>, key: string): seq<T> {
    if evs == [] then []
    else
      match evs[0]
      case Enq(k, op) => (if k == key then [op] else []) + EnqueuedOn(evs[1..], key)
      case Done(_, _) => EnqueuedOn(evs[1..], key)
  }

  /** The operations of `key` in a settlement log, in the order they settled. */
  function SettledOn<T>(log: seq<Settled<T>>, key: string): seq<T> {
    if log == [] then []
    else (if log[0].key == key then [log[0].op] else []) + SettledOn(log[1..], key)
  }

  lemma {:induction false} SettledOnAppend<T>(a: seq<Settled<T>>, b: seq<Settled<T>>, key: string)
    ensures SettledOn(a + b, key) == SettledOn(a, key) + SettledOn(b, key)
  {
    if a != [] {
      assert (a + b)[1..] == a[1..] + b;
      SettledOnAppend(a[1..], b, key);
    } else {
      assert a + b == b;
    }
  }

  lemma {:induction false} RunValid<T>(qs: Queues<T>, evs: seq<Event<T>>)
    requires QueuesValid(qs) && WellFormed(qs, evs)
    ensures QueuesValid(Run(qs, evs))
    decreases |evs|
  {
    if evs != [] {
      match evs[0] {
        case Enq(k, op) => EnqueueValid(qs, k, op);
        case Done(k, a) => SettleValid(qs, k, a);
      }
      RunValid(Step(qs, evs[0]), evs[1..]);
    }
  }

  /** One event keeps the FIFO balance of `key`. */
  lemma StepFifo<T>(qs: Queues<T>, ev: Event<T>, key: string)
    requires ev.Done? ==> ev.key in qs && qs[ev.key].pending != []
    ensures SettledOn(StepLog(qs, ev), key) + PendingOf(Step(qs, ev), key)
         == PendingOf(qs, key) + EnqueuedOn([ev], key)
  {
    match ev
    case Enq(k, op) => EnqFifo(qs, k, op, key);
    case Done(k, a) => DoneFifo(qs, k, a, key);
  }

  lemma EnqFifo<T>(qs: Queues<T>, k: string, op: T, key: string)
    ensures SettledOn(StepLog(qs, Enq(k, op)), key) + PendingOf(Step(qs, Enq(k, op)), key)
         == PendingOf(qs, key) + EnqueuedOn([Enq(k, op)], key)
  {
    var ev := Enq(k, op);
    assert StepLog(qs, ev) == [];
    assert [ev][1..] == [];
    assert EnqueuedOn([ev], key) == if k == key then [op] else [];
    assert PendingOf(Step(qs, ev), key) == PendingOf(qs, key) + if k == key then [op] else [];
  }

  lemma DoneFifo<T>(qs: Queues<T>, k: string, a: Outcome, key: string)
    requires k in qs && qs[k].pending != []
    ensures SettledOn(StepLog(qs, Done(k, a)), key) + PendingOf(Step(qs, Done(k, a)), key)
         == PendingOf(qs, key) + EnqueuedOn([Done(k, a)], key)
  {
    var ev: Event<T> := Done(k, a);
    var s := SettleResult(qs, k, a);
    assert StepLog(qs, ev) == [s];
    assert [s][1..] == [] && [ev][1..] == [];
    assert EnqueuedOn([ev], key) == [];
    assert SettledOn([s], key) == if k == key then [qs[k].pending[0]] else [];
    if k == key {
      assert qs[k].pending == [qs[k].pending[0]] + qs[k].pending[1..];
    }
  }

  lemma EnqueuedOnCons<T>(evs: seq<Event<T>>, key: string)
    requires evs != []
    ensures EnqueuedOn(evs, key) == EnqueuedOn([evs[0]], key) + EnqueuedOn(evs[1..], key)
  {
    assert [evs[0]][1..] == [];
  }

  /** The bookkeeping step of the FIFO induction: balances of one step and of the rest compose. */
  lemma Regroup<T>(a: seq<T>, b: seq<T>, p0: seq<T>, p1: seq<T>, p2: seq<T>, e0: seq<T>, e1: seq<T>)
    requires b + p2 == p1 + e1 && a + p1 == p0 + e0
    ensures a + b + p2 == p0 + (e0 + e1)
  {
    calc {
      a + b + p2;
      a + (b + p2);
      a + (p1 + e1);
      (a + p1) + e1;
      (p0 + e0) + e1;
    }
  }

  /** FIFO per key: the operations of `key` settle exactly in the order they were
      enqueued, and whatever has not settled yet is still queued, in that order. Only
      the head of a chain ever settles, so at most one operation per key runs at a time. */
  lemma {:induction false} FifoPerKey<T>(qs: Queues<T>, evs: seq<Event<T>>, key: string)
    requires WellFormed(qs, evs)
    ensures SettledOn(Log(qs, evs), key) + PendingOf(Run(qs, evs), key)
         == PendingOf(qs, key) + EnqueuedOn(evs, key)
    decreases |evs|
  {
    if evs != [] {
      var ev, rest := evs[0], evs[1..];
      var next := Step(qs, ev);
      var a, b := SettledOn(StepLog(qs, ev), key), SettledOn(Log(next, rest), key);
      var p0, p1, p2 := PendingOf(qs, key), PendingOf(next, key), PendingOf(Run(next, rest), key);
      var e0, e1 := EnqueuedOn([ev], key), EnqueuedOn(rest, key);
      FifoPerKey(next, rest, key);
      StepFifo(qs, ev, key);
      assert SettledOn(Log(qs, evs), key) == a + b by {
        assert Log(qs, evs) == StepLog(qs, ev) + Log(next, rest);
        SettledOnAppend(StepLog(qs, ev), Log(next, rest), key);
      }
      assert PendingOf(Run(qs, evs), key) == p2;
      assert EnqueuedOn(evs, key) == e0 + e1 by {
        EnqueuedOnCons(evs, key);
      }
      Regroup(a, b, p0, p1, p2, e0, e1);
    }
  }

  /** Once every operation that was queued or enqueued on each key has settled, the
      map is empty: idle keys leave no entry behind. */
  lemma Drained<T>(qs: Queues<T>, evs: seq<Event<T>>)
    requires QueuesValid(qs) && WellFormed(qs, evs)
    requires forall k :: |SettledOn(Log(qs, evs), k)| == |PendingOf(qs, k)| + |EnqueuedOn(evs, k)|
    ensures Run(qs, evs) == map[]
  {
    var r := Run(qs, evs);
    RunValid(qs, evs);
    forall k | k in r
      ensures false
    {
      FifoPerKey(qs, evs, k);
    }
    assert r.Keys == {};
  }

  /** Operations on other keys never touch the chain of `key`: what runs there, and when
      it may start, does not depend on them. */
  lemma {:induction false} OtherKeysUntouched<T>(qs: Queues<T>, evs: seq<Event<T>>, key: string)
    requires WellFormed(qs, evs)
    requires forall i :: 0 <= i < |evs| ==> evs[i].key != key
    ensures key in Run(qs, evs) <==> key in qs
    ensures key in qs ==> Run(qs, evs)[key] == qs[key]
    decreases |evs|
  {
    if evs != [] {
      OtherKeysUntouched(Step(qs, evs[0]), evs[1..], key);
    }
  }

  /** `key` keeps its map entry before every event of the trace: its chain is not
      deleted until (at the earliest) the last event. */
  predicate AliveBefore<T>(qs: Queues<T>, evs: seq<Event<T>>, key: string)
    requires WellFormed(qs, evs)
    decreases |evs|
  {
    evs == [] || (key in qs && AliveBefore(Step(qs, evs[0]), evs[1..], key))
  }

  /** Failure propagation: while a chain carries the rejection `e`, every operation of
      that key settling before the entry is deleted (the deleting one included) skips
      its `fn` and rejects with `e`, whatever it would have done. */
  lemma {:induction false} PoisonPropagates<T>(qs: Queues<T>, evs: seq<Event<T>>, key: string, e: string)
    requires WellFormed(qs, evs) && AliveBefore(qs, evs, key)
    requires key in qs && qs[key].carried == Some(e)
    ensures forall s :: s in Log(qs, evs) && s.key == key ==> !s.ran && s.outcome == Rejected(e)
    decreases |evs|
  {
    if evs != [] {
      var next := Step(qs, evs[0]);
      if |evs| > 1 {
        assert key in next;
        assert next[key].carried == Some(e);
        PoisonPropagates(next, evs[1..], key, e);
      }
    }
  }

  /** A failure starts the propagation: when the running `fn` of a key rejects with `e`
      and other operations are chained behind it, the next head inherits `e`. */
  lemma FailureIsCarried<T>(qs: Queues<T>, key: string, e: string)
    requires key in qs && |qs[key].pending| > 1 && qs[key].carried == None
    ensures SettleResult(qs, key, Rejected(e)) == Settled(key, qs[key].pending[0], true, Rejected(e))
    ensures Settle(qs, key, Rejected(e))[key].carried == Some(e)
  {
  }

  /** A fresh chain: after its entry is deleted, the next operation on a key runs its
      `fn`, whatever happened to the operations before it. */
  lemma FreshChainRuns<T>(qs: Queues<T>, key: string, op: T, attempt: Outcome)
    requires key !in qs
    ensures SettleResult(Enqueue(qs, key, op), key, attempt) == Settled(key, op, true, attempt)
  {
  }

  /** The `writeQueues` map of the running server. */
  class WriteQueues {
    var chains: Queues<nat>

    ghost predicate Valid()
      reads this
    {
      QueuesValid(chains)
    }

    constructor ()
      ensures Valid() && chains == map[]
    {
      chains := map[];
    }

    /** `withFileLock(key, fn)` for the operation `op`; `startsNow` says whether its `fn`
        may run at once (no chain for `key`). */
    method WithFileLock(key: string, op: nat) returns (startsNow: bool)
      requires Valid()
      modifies this
      ensures Valid()
      ensures chains == Enqueue(old(chains), key, op)
      ensures startsNow <==> key !in old(chains)
    {
      startsNow := key !in chains;
      if startsNow {
        chains := chains[key := Chain([op], None)];
      } else {
        var c := chains[key];
        chains := chains[key := Chain(c.pending + [op], c.carried)];
      }
    }

    /** The running operation of `key` settles; `attempt` is how its `fn` would end. */
    method Complete(key: string, attempt: Outcome) returns (s: Settled<nat>)
      requires Valid() && key in chains
      modifies this
      ensures Valid()
      ensures s == SettleResult(old(chains), key, attempt)
      ensures chains == Settle(old(chains), key, attempt)
    {
      var c := chains[key];
      if c.carried.Some? {
        s := Settled(key, c.pending[0], false, Rejected(c.carried.value));
      } else {
        s := Settled(key, c.pending[0], true, attempt);
      }
      if |c.pending| == 1 {
        chains := chains - {key};
      } else {
        var carried := if s.outcome.Rejected? then Some(s.outcome.error) else None;
        chains := chains[key := Chain(c.pending[1..], carried)];
      }
    }

    /** `writeQueues.size`, reported by the health probe. */
    method PendingKeys() returns (n: nat)
      requires Valid()
      ensures n == |chains.Keys|
      ensures n == 0 <==> chains == map[]
    {
      n := |chains.Keys|;
      if n == 0 {
        assert chains.Keys == {};
      }
    }
  }
}
