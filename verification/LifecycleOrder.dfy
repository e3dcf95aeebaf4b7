/**
 * Confluence of the reducer. Whatever the order, repetition or omission of
 * arrivals, and however host liveness is interleaved, the session state is the
 * in-order fold of the longest received prefix, with everything beyond the gap
 * buffered in order, followed by the last host observation.
 */
module LifecycleOrder {
  import opened Common
  import opened Lifecycle

  /** The event that first arrived under each sequence number. */
  type Received = map<nat, Kind>

  datatype Op = Arrive(event: Event) | Observe(gone: bool)

  /** The reducer over a whole run, from a session's first state. */
  function Run(ops: seq<Op>): State {
    if ops == [] then INITIAL
    else
      var s := Run(ops[..|ops| - 1]);
      match ops[|ops| - 1]
      case Arrive(e) => Reduce(s, e).state
      case Observe(gone) => ObserveGone(s, gone)
  }

  function First(ops: seq<Op>): Received {
    if ops == [] then map[]
    else Receive(First(ops[..|ops| - 1]), ops[|ops| - 1])
  }

  function Receive(m: Received, op: Op): Received {
    if op.Arrive? && op.event.seqno > 0 && op.event.seqno !in m then m[op.event.seqno := op.event.kind] else m
  }

  function LastObserved(ops: seq<Op>): Option<bool> {
    if ops == [] then None
    else if ops[|ops| - 1].Observe? then Some(ops[|ops| - 1].gone)
    else LastObserved(ops[..|ops| - 1])
  }

  /** The reference: producer events applied one after the other, numbered from 1. */
  function Fold(kinds: seq<Kind>): State {
    if kinds == [] then INITIAL
    else Apply(Fold(kinds[..|kinds| - 1]), Event(|kinds|, kinds[|kinds| - 1]))
  }

  predicate Holds(m: Received, k: nat) { forall j :: 1 <= j <= k ==> j in m }

  function Taken(m: Received, k: nat): seq<Kind>
    requires Holds(m, k)
  {
    seq(k, i requires 0 <= i < k => m[i + 1])
  }

  function Above(m: Received, k: nat): set<nat> { set q | q in m && q > k }

  /** The received events under the given numbers, ascending. */
  function Queue(m: Received, keys: set<nat>): seq<Event>
    requires keys <= m.Keys
  {
    if keys == {} then []
    else var x := Least(keys); [Event(x, m[x])] + Queue(m, keys - {x})
  }

  /** The received events beyond k, ascending. */
  function Beyond(m: Received, k: nat): seq<Event> { Queue(m, Above(m, k)) }

  /** The longest contiguous received prefix that extends 1..k. */
  function PrefixFrom(m: Received, k: nat): (r: nat)
    requires Holds(m, k)
    ensures k <= r && Holds(m, r) && r + 1 !in m
    decreases |Above(m, k)|
  {
    if k + 1 in m then
      assert Above(m, k) == Above(m, k + 1) + {k + 1};
      PrefixFrom(m, k + 1)
    else k
  }

  function Prefix(m: Received): nat { PrefixFrom(m, 0) }

  function WithQueue(s: State, queue: seq<Event>): State {
    Finish(s.(pending := queue, sequenceGap := queue != []))
  }

  /** The one state every arrival order of m leads to. */
  function Canonical(m: Received): State {
    WithQueue(Fold(Taken(m, Prefix(m))), Beyond(m, Prefix(m)))
  }

  function Settle(m: Received, observed: Option<bool>): State {
    match observed
    case None => Canonical(m)
    case Some(gone) => ObserveGone(Canonical(m), gone)
  }

  // ---- the fields that the gap bookkeeping can touch -------------------------

  function Strip(s: State): State { s.(availability := Unknown, sequenceGap := false) }

  lemma StripApply(a: State, b: State, e: Event)
    requires Strip(a) == Strip(b) && e.seqno > 0
    ensures Strip(Apply(a, e)) == Strip(Apply(b, e))
  {
  }

  lemma StripFinish(a: State, b: State, gap: bool)
    requires Strip(a) == Strip(b)
    ensures Finish(a.(sequenceGap := gap)) == Finish(b.(sequenceGap := gap))
  {
  }

  lemma {:induction false} FoldFacts(kinds: seq<Kind>)
    ensures var s := Fold(kinds);
            s.producerSeq == |kinds| && s.pending == [] && !s.sequenceGap && Finish(s) == s
  {
    if kinds != [] {
      FoldFacts(kinds[..|kinds| - 1]);
    }
  }

  // ---- the buffer -----------------------------------------------------------

  lemma {:induction false} EnqueueInQueue(m: Received, keys: set<nat>, x: nat)
    requires keys <= m.Keys && x in m && x !in keys
    ensures Enqueue(Queue(m, keys), Event(x, m[x])) == Queue(m, keys + {x})
    decreases |keys|
  {
    if keys == {} {
      assert keys + {x} - {x} == {};
    } else {
      var least := Least(keys);
      if x < least {
        assert Least(keys + {x}) == x;
        assert keys + {x} - {x} == keys;
      } else {
        assert Least(keys + {x}) == least;
        assert keys + {x} - {least} == (keys - {least}) + {x};
        EnqueueInQueue(m, keys - {least}, x);
      }
    }
  }

  lemma {:induction false} QueueMembers(m: Received, keys: set<nat>, seqno: nat)
    requires keys <= m.Keys
    ensures Buffered(Queue(m, keys), seqno) <==> seqno in keys
    decreases |keys|
  {
    if keys != {} {
      var x := Least(keys);
      QueueMembers(m, keys - {x}, seqno);
      var q, rest := Queue(m, keys), Queue(m, keys - {x});
      assert q[0].seqno == x && q[1..] == rest;
      if Buffered(rest, seqno) {
        var i :| 0 <= i < |rest| && rest[i].seqno == seqno;
        assert q[i + 1].seqno == seqno;
      }
      if Buffered(q, seqno) && seqno != x {
        var i :| 0 <= i < |q| && q[i].seqno == seqno;
        assert rest[i - 1].seqno == seqno;
      }
    }
  }

  lemma BufferedIff(m: Received, k: nat, seqno: nat)
    ensures Buffered(Beyond(m, k), seqno) <==> seqno in Above(m, k)
  {
    QueueMembers(m, Above(m, k), seqno);
  }

  lemma {:induction false} QueueAgrees(m: Received, m': Received, keys: set<nat>)
    requires keys <= m.Keys && keys <= m'.Keys && forall q :: q in keys ==> m[q] == m'[q]
    ensures Queue(m, keys) == Queue(m', keys)
    decreases |keys|
  {
    if keys != {} {
      QueueAgrees(m, m', keys - {Least(keys)});
    }
  }

  /** Buffering an event beyond the gap keeps the queue canonical. */
  lemma BeyondGrows(m: Received, k: nat, e: Event)
    requires e.seqno > k && e.seqno !in m
    ensures var m' := m[e.seqno := e.kind]; Enqueue(Beyond(m, k), e) == Beyond(m', k)
  {
    var m' := m[e.seqno := e.kind];
    assert Above(m', k) == Above(m, k) + {e.seqno};
    EnqueueInQueue(m', Above(m, k), e.seqno);
    QueueAgrees(m, m', Above(m, k));
  }

  /** The head of the queue is the next event exactly when that event has arrived. */
  lemma BeyondHead(m: Received, k: nat)
    ensures var b := Beyond(m, k);
            (b != [] && b[0].seqno == k + 1) <==> k + 1 in m
    ensures k + 1 in m ==> Beyond(m, k) == [Event(k + 1, m[k + 1])] + Beyond(m, k + 1)
  {
    var keys := Above(m, k);
    if k + 1 in m {
      assert k + 1 in keys;
      assert Least(keys) == k + 1;
      assert keys - {k + 1} == Above(m, k + 1);
    } else if keys != {} {
      assert Least(keys) in keys;
    }
  }

  // ---- draining -------------------------------------------------------------

  lemma {:induction false} DrainIsFold(s: State, m: Received, k: nat)
    requires Holds(m, k)
    requires Strip(s) == Strip(Fold(Taken(m, k)).(pending := Beyond(m, k)))
    ensures var r := PrefixFrom(m, k);
            Strip(Drain(s)) == Strip(Fold(Taken(m, r)).(pending := Beyond(m, r)))
    decreases |s.pending|
  {
    BeyondHead(m, k);
    FoldFacts(Taken(m, k));
    if k + 1 in m {
      var next := Event(k + 1, m[k + 1]);
      var popped := s.(pending := s.pending[1..]);
      var base := Fold(Taken(m, k));
      StripApply(popped, base.(pending := Beyond(m, k + 1)), next);
      ApplyIgnoresQueue(base, Beyond(m, k + 1), next);
      assert Taken(m, k + 1)[..k] == Taken(m, k);
      assert s.pending[0] == next && s.pending[1..] == Beyond(m, k + 1);
      DrainIsFold(Apply(popped, next), m, k + 1);
    }
  }

  lemma ApplyIgnoresQueue(s: State, queue: seq<Event>, e: Event)
    requires e.seqno > 0
    ensures Apply(s.(pending := queue), e) == Apply(s, e).(pending := queue)
  {
  }

  // ---- one arrival ----------------------------------------------------------

  lemma TakenNext(m: Received, e: Event)
    requires e.seqno == Prefix(m) + 1
    ensures var k, m' := Prefix(m), m[e.seqno := e.kind];
            && Holds(m', k + 1) && Beyond(m', k + 1) == Beyond(m, k)
            && Fold(Taken(m', k + 1)) == Apply(Fold(Taken(m, k)), e)
  {
    var k, m' := Prefix(m), m[e.seqno := e.kind];
    assert Taken(m', k + 1)[..k] == Taken(m, k);
    assert Above(m', k + 1) == Above(m, k);
    QueueAgrees(m, m', Above(m, k));
  }

  lemma ApplyNext(m: Received, e: Event)
    requires e.seqno == Prefix(m) + 1
    ensures var m' := m[e.seqno := e.kind];
            && Holds(m', Prefix(m) + 1)
            && Strip(Apply(Canonical(m), e))
               == Strip(Fold(Taken(m', Prefix(m) + 1)).(pending := Beyond(m', Prefix(m) + 1)))
  {
    var k := Prefix(m);
    var base := Fold(Taken(m, k));
    TakenNext(m, e);
    FoldFacts(Taken(m, k));
    StripApply(Canonical(m), base.(pending := Beyond(m, k)), e);
    ApplyIgnoresQueue(base, Beyond(m, k), e);
  }

  lemma ArrivalNext(m: Received, e: Event)
    requires e.seqno == Prefix(m) + 1
    ensures Reduce(Canonical(m), e).state == Canonical(m[e.seqno := e.kind])
  {
    var k, m' := Prefix(m), m[e.seqno := e.kind];
    FoldFacts(Taken(m, k));
    BufferedIff(m, k, e.seqno);
    ApplyNext(m, e);
    DrainIsFold(Apply(Canonical(m), e), m', k + 1);
    PrefixSplit(m', k + 1);
    var r := Prefix(m');
    var d := Drain(Apply(Canonical(m), e));
    StripFinish(d, Fold(Taken(m', r)).(pending := Beyond(m', r)), d.pending != []);
  }

  /** The longest received prefix is unique. */
  lemma PrefixSplit(m: Received, k: nat)
    requires Holds(m, k)
    ensures Prefix(m) == PrefixFrom(m, k)
  {
  }

  lemma ArrivalGap(m: Received, e: Event)
    requires e.seqno > Prefix(m) + 1 && e.seqno !in m
    ensures Reduce(Canonical(m), e).state == Canonical(m[e.seqno := e.kind])
  {
    var k, m' := Prefix(m), m[e.seqno := e.kind];
    FoldFacts(Taken(m, k));
    BufferedIff(m, k, e.seqno);
    BeyondGrows(m, k, e);
    PrefixSplit(m', k);
    assert Taken(m', k) == Taken(m, k);
    BeyondHead(m', k);
  }

  lemma ArrivalStale(m: Received, e: Event)
    requires e.seqno <= 0 || e.seqno in m
    ensures Reduce(Canonical(m), e).state == Canonical(m)
  {
    FoldFacts(Taken(m, Prefix(m)));
    if e.seqno > Prefix(m) {
      BufferedIff(m, Prefix(m), e.seqno);
    }
  }

  lemma Arrival(m: Received, e: Event)
    ensures Reduce(Canonical(m), e).state == Canonical(Receive(m, Arrive(e)))
  {
    var k := Prefix(m);
    if e.seqno <= 0 || e.seqno in m {
      ArrivalStale(m, e);
    } else if e.seqno == k + 1 {
      ArrivalNext(m, e);
    } else {
      assert Holds(m, k);
      ArrivalGap(m, e);
    }
  }

  // ---- host liveness --------------------------------------------------------

  lemma ObserveApply(s: State, e: Event, gone: bool)
    requires e.seqno > 0
    ensures Strip(ObserveGone(Apply(s, e), gone)) == Strip(Apply(ObserveGone(s, gone), e))
  {
  }

  lemma {:induction false} ObserveDrain(s: State, t: State, gone: bool)
    requires Strip(t) == Strip(ObserveGone(s, gone))
    ensures Strip(Drain(t)) == Strip(ObserveGone(Drain(s), gone))
    decreases |s.pending|
  {
    if s.pending != [] && s.pending[0].seqno == s.producerSeq + 1 {
      var popped := s.(pending := s.pending[1..]);
      ObserveApply(popped, s.pending[0], gone);
      StripApply(t.(pending := t.pending[1..]), ObserveGone(popped, gone), s.pending[0]);
      ObserveDrain(Apply(popped, s.pending[0]), Apply(t.(pending := t.pending[1..]), t.pending[0]), gone);
    }
  }

  /** A host observation commutes with any arrival, drained and buffered events included. */
  lemma ObserveCommutes(s: State, e: Event, gone: bool)
    requires Finish(s) == s
    ensures Reduce(ObserveGone(s, gone), e).state == ObserveGone(Reduce(s, e).state, gone)
  {
    var o := ObserveGone(s, gone);
    if 0 < e.seqno == s.producerSeq + 1 && !Buffered(s.pending, e.seqno) {
      ObserveApply(s, e, gone);
      ObserveDrain(Apply(s, e), Apply(o, e), gone);
      var d, f := Drain(Apply(o, e)), Drain(Apply(s, e));
      StripFinish(d, ObserveGone(f, gone), d.pending != []);
    }
  }

  lemma CanonicalFinished(m: Received)
    ensures Finish(Canonical(m)) == Canonical(m)
  {
  }

  /** Settling adds only the buffer, the gap flag and host liveness to the fold. */
  lemma SettleFacts(m: Received, observed: Option<bool>)
    ensures var s, f := Settle(m, observed), Fold(Taken(m, Prefix(m)));
            && s.back == f.back && s.front == f.front && s.sessionEnded == f.sessionEnded
            && s.producerSeq == Prefix(m) && s.pending == Beyond(m, Prefix(m))
            && s.sequenceGap == (s.pending != []) && Finish(s) == s
  {
    FoldFacts(Taken(m, Prefix(m)));
  }

  /** One more arrival moves the settled state to the settled state of what is then received. */
  lemma SettleArrives(m: Received, observed: Option<bool>, e: Event)
    ensures Reduce(Settle(m, observed), e).state == Settle(Receive(m, Arrive(e)), observed)
  {
    Arrival(m, e);
    if observed.Some? {
      CanonicalFinished(m);
      ObserveCommutes(Canonical(m), e, observed.value);
    }
  }

  lemma SettleObserves(m: Received, observed: Option<bool>, gone: bool)
    ensures ObserveGone(Settle(m, observed), gone) == Settle(m, Some(gone))
  {
  }

  // ---- whole runs -----------------------------------------------------------

  /** Every run ends in the settled state of what arrived first under each number. */
  lemma {:induction false} RunSettles(ops: seq<Op>)
    ensures Run(ops) == Settle(First(ops), LastObserved(ops))
  {
    if ops == [] {
      assert Above(map[], 0) == {};
    } else {
      var before, op := ops[..|ops| - 1], ops[|ops| - 1];
      RunSettles(before);
      var m := First(before);
      match op
      case Arrive(e) => SettleArrives(m, LastObserved(before), e);
      case Observe(gone) => SettleObserves(m, LastObserved(before), gone);
    }
  }

  /** Ops deliver exactly the producer history: each event at least once, in any order. */
  predicate Delivers(ops: seq<Op>, history: seq<Kind>) {
    && (forall i :: 0 <= i < |ops| && ops[i].Arrive? ==> FromHistory(ops[i].event, history))
    && (forall i :: 0 <= i < |history| ==> Arrived(ops, i + 1, history[i]))
  }

  predicate Arrived(ops: seq<Op>, seqno: nat, kind: Kind) { Arrive(Event(seqno, kind)) in ops }

  predicate FromHistory(e: Event, history: seq<Kind>) {
    1 <= e.seqno <= |history| && e.kind == history[e.seqno - 1]
  }

  lemma {:induction false} FirstFromHistory(ops: seq<Op>, history: seq<Kind>)
    requires forall i :: 0 <= i < |ops| && ops[i].Arrive? ==> FromHistory(ops[i].event, history)
    ensures forall q :: q in First(ops) ==> 1 <= q <= |history| && First(ops)[q] == history[q - 1]
    ensures forall i :: 0 <= i < |ops| && ops[i].Arrive? ==> ops[i].event.seqno in First(ops)
  {
    if ops != [] {
      var before := ops[..|ops| - 1];
      assert forall i :: 0 <= i < |before| ==> before[i] == ops[i];
      FirstFromHistory(before, history);
    }
  }

  /** m holds exactly the events of a history, under the numbers 1 up to its length. */
  predicate Records(m: Received, history: seq<Kind>) {
    && (forall q :: q in m ==> 1 <= q <= |history| && m[q] == history[q - 1])
    && (forall q :: 1 <= q <= |history| ==> q in m)
  }

  /** A completely received history settles to its in-order fold, then the observation. */
  lemma CompleteSettles(m: Received, history: seq<Kind>, observed: Option<bool>)
    requires Records(m, history)
    ensures Settle(m, observed) == match observed
                                   case None => Fold(history)
                                   case Some(gone) => ObserveGone(Fold(history), gone)
    ensures Prefix(m) == |history| && Beyond(m, Prefix(m)) == []
  {
    PrefixSplit(m, |history|);
    assert PrefixFrom(m, |history|) == |history|;
    assert Taken(m, |history|) == history;
    assert Above(m, |history|) == {};
    FoldFacts(history);
  }

  /**
   * All complete arrival orders end in the in-order fold of the history, with
   * no gap and nothing buffered, followed by the last host observation.
   */
  lemma CompleteRunsConverge(ops: seq<Op>, history: seq<Kind>)
    requires Delivers(ops, history)
    ensures Run(ops) == match LastObserved(ops)
                        case None => Fold(history)
                        case Some(gone) => ObserveGone(Fold(history), gone)
    ensures Run(ops).pending == [] && !Run(ops).sequenceGap && Run(ops).producerSeq == |history|
  {
    RunSettles(ops);
    FirstFromHistory(ops, history);
    var m := First(ops);
    forall n | 1 <= n <= |history| ensures n in m {
      assert Arrived(ops, n, history[n - 1]);
      var i :| 0 <= i < |ops| && ops[i] == Arrive(Event(n, history[n - 1]));
      assert ops[i].event.seqno == n;
    }
    CompleteSettles(m, history, LastObserved(ops));
    FoldFacts(history);
  }

  /** A gap is reported exactly while received events wait behind a missing one. */
  lemma GapIffMissing(ops: seq<Op>)
    ensures var m := First(ops);
            Run(ops).sequenceGap <==> exists q, p :: q in m && 1 <= p < q && p !in m
    ensures Run(ops).pending == Beyond(First(ops), Prefix(First(ops)))
    ensures Run(ops).producerSeq == Prefix(First(ops))
  {
    RunSettles(ops);
    var m := First(ops);
    var k := Prefix(m);
    SettleFacts(m, LastObserved(ops));
    if Beyond(m, k) != [] {
      var q := Least(Above(m, k));
      assert q in m && 1 <= k + 1 < q && k + 1 !in m;
    }
    if q, p :| q in m && 1 <= p < q && p !in m {
      assert q in Above(m, k);
    }
  }

  /** Nothing revives an ended session. */
  lemma {:induction false} EndedIsTerminal(ops: seq<Op>, more: seq<Op>)
    requires Run(ops).sessionEnded
    ensures var s := Run(ops + more); s.sessionEnded && s.sessionGone && s.availability == Gone
  {
    if more == [] {
      assert ops + more == ops;
      RunSettles(ops);
      FoldEnded(Taken(First(ops), Prefix(First(ops))));
    } else {
      var less := more[..|more| - 1];
      EndedIsTerminal(ops, less);
      assert (ops + more)[..|ops + more| - 1] == ops + less;
      var s := Run(ops + less);
      if more[|more| - 1].Arrive? {
        ReduceEnded(s, more[|more| - 1].event);
      }
    }
  }

  lemma {:induction false} FoldEnded(kinds: seq<Kind>)
    ensures Fold(kinds).sessionEnded ==> Fold(kinds).sessionGone
  {
    if kinds != [] {
      FoldEnded(kinds[..|kinds| - 1]);
    }
  }

  lemma {:induction false} DrainEnded(s: State)
    requires s.sessionEnded && s.sessionGone
    ensures Drain(s).sessionEnded && Drain(s).sessionGone
    decreases |s.pending|
  {
    if s.pending != [] && s.pending[0].seqno == s.producerSeq + 1 {
      DrainEnded(Apply(s.(pending := s.pending[1..]), s.pending[0]));
    }
  }

  lemma ReduceEnded(s: State, e: Event)
    requires s.sessionEnded && s.sessionGone && s.availability == Gone
    ensures var r := Reduce(s, e).state; r.sessionEnded && r.sessionGone && r.availability == Gone
  {
    if 0 < e.seqno == s.producerSeq + 1 {
      DrainEnded(Apply(s, e));
    }
  }
}
