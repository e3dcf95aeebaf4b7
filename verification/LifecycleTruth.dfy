/**
 * Soundness of "quiescent". A producer's history is paired with the set of
 * jobs that really run. Producers may omit stop edges, and may omit starts
 * except between two turns of a certified session, but what they do report is
 * true. Then no arrival order, host observation or adapter edge ever lets the
 * reducer call a session quiescent while a job of that moment still runs.
 */
module LifecycleTruth {
  import opened Common
  import opened Lifecycle
  import Order = LifecycleOrder

  /** One producer event, with the jobs running just before it takes effect. */
  datatype Tick = Tick(running: set<JobId>, kind: Kind)

  function Kinds(h: seq<Tick>): seq<Kind> { seq(|h|, i requires 0 <= i < |h| => h[i].kind) }

  function JobsAfter(tick: Tick): set<JobId> {
    match tick.kind
    case BackgroundStart(j) => tick.running + {j}
    case BackgroundStop(j) => tick.running - {j}
    case SessionEnd => {}
    case _ => tick.running
  }

  /** The jobs really running once the whole history has happened. */
  function Live(h: seq<Tick>): set<JobId> {
    if h == [] then {} else JobsAfter(h[|h| - 1])
  }

  /** The producer has ended its turn and its baseline is certified: now it must report starts. */
  predicate BetweenTurns(s: State) { s.front.foreground.Stopped? && s.back.certified }

  /**
   * The tick is true of the jobs it describes: a certified clear and a count
   * are exact, a stop names a running job, and no job starts unreported
   * between turns.
   */
  predicate Truthful(s: State, before: set<JobId>, tick: Tick) {
    && (BetweenTurns(s) ==> tick.running <= before)
    && match tick.kind
       case TurnStop(CertifiedClear) => tick.running == {}
       case BackgroundSnapshot(n) => |tick.running| == n
       case BackgroundStop(j) => j in tick.running
       case _ => true
  }

  /** Every tick is truthful until the session has ended; afterwards anything may be said. */
  predicate TruthfulHistory(h: seq<Tick>) {
    h == [] ||
    var before := h[..|h| - 1];
    var s := Order.Fold(Kinds(before));
    TruthfulHistory(before) && (s.sessionEnded || Truthful(s, Live(before), h[|h| - 1]))
  }

  /** Unnamed running jobs are covered by the anonymous count whenever a baseline is certified. */
  predicate Covered(b: Back, live: set<JobId>) {
    && (b.certified ==> |live - b.jobs| <= b.anonymous)
    && (b.background.Clear? && b.isFresh ==> b.certified && b.jobs == {} && b.anonymous == 0)
  }

  /** The foreground is not stopped, or what runs is covered. */
  predicate Accounted(s: State, live: set<JobId>) {
    s.sessionEnded || !s.front.foreground.Stopped? || Covered(s.back, live)
  }

  lemma StartCovered(b: Back, live: set<JobId>, run: set<JobId>, j: JobId)
    requires Covered(b, live) && (b.certified ==> run <= live)
    ensures Covered(BackAfter(b, BackgroundStart(j)), run + {j})
  {
    if b.certified {
      SubsetCardinality((run + {j}) - (b.jobs + {j}), live - b.jobs);
    }
  }

  lemma StopCovered(b: Back, live: set<JobId>, run: set<JobId>, j: JobId)
    requires Covered(b, live) && (b.certified ==> run <= live) && j in run
    ensures Covered(BackAfter(b, BackgroundStop(j)), run - {j})
  {
    if b.certified {
      SubsetCardinality(run - b.jobs, live - b.jobs);
      if j in b.jobs {
        assert (run - {j}) - (b.jobs - {j}) == run - b.jobs;
      } else {
        assert (run - {j}) - b.jobs == (run - b.jobs) - {j};
        assert j in run - b.jobs;
      }
    }
  }

  /** Between turns every tick keeps what runs covered. */
  lemma CoveredStep(b: Back, live: set<JobId>, tick: Tick)
    requires Covered(b, live) && (b.certified ==> tick.running <= live)
    requires tick.kind.BackgroundSnapshot? ==> |tick.running| == tick.kind.activeCount
    requires tick.kind == TurnStop(CertifiedClear) ==> tick.running == {}
    requires tick.kind.BackgroundStop? ==> tick.kind.stopped in tick.running
    ensures Covered(BackAfter(b, tick.kind), JobsAfter(tick))
  {
    match tick.kind
    case BackgroundStart(j) => StartCovered(b, live, tick.running, j);
    case BackgroundStop(j) => StopCovered(b, live, tick.running, j);
    case BackgroundSnapshot(n) => assert tick.running - {} == tick.running;
    case TurnStop(_) => TurnStopCovers(b, tick);
    case SessionEnd =>
    case _ => if b.certified { SubsetCardinality(tick.running - b.jobs, live - b.jobs); }
  }

  /** The end of a turn covers what runs, whatever happened within the turn. */
  lemma TurnStopCovers(b: Back, tick: Tick)
    requires tick.kind.TurnStop? && (tick.kind == TurnStop(CertifiedClear) ==> tick.running == {})
    ensures Covered(BackAfter(b, tick.kind), JobsAfter(tick))
  {
    assert tick.running - {} == tick.running;
  }

  // ---- a state that follows the history ---------------------------------------------

  /**
   * The state stands at moment producerSeq of the history: it agrees with the
   * in-order fold on the foreground and the session's end, is certified only
   * when the fold is, and accounts for what runs at that moment.
   */
  predicate Tracks(s: State, h: seq<Tick>) {
    && s.producerSeq <= |h|
    && var f := Order.Fold(Kinds(h[..s.producerSeq]));
    && f.sessionEnded == s.sessionEnded && f.front.foreground == s.front.foreground
    && (s.back.certified ==> f.back.certified)
    && Accounted(s, Live(h[..s.producerSeq]))
  }

  lemma {:induction false} TruthfulPrefix(h: seq<Tick>, k: nat)
    requires TruthfulHistory(h) && k <= |h|
    ensures TruthfulHistory(h[..k])
  {
    if k < |h| {
      TruthfulPrefix(h[..|h| - 1], k);
      assert h[..|h| - 1][..k] == h[..k];
    } else {
      assert h[..k] == h;
    }
  }

  lemma FoldSnoc(h: seq<Tick>, tick: Tick)
    ensures Order.Fold(Kinds(h + [tick])) == Apply(Order.Fold(Kinds(h)), Event(|h| + 1, tick.kind))
    ensures Live(h + [tick]) == JobsAfter(tick)
  {
    assert Kinds(h + [tick])[..|h|] == Kinds(h);
  }

  lemma TruthSnoc(h: seq<Tick>, tick: Tick)
    ensures TruthfulHistory(h + [tick]) <==>
            TruthfulHistory(h) && (Order.Fold(Kinds(h)).sessionEnded || Truthful(Order.Fold(Kinds(h)), Live(h), tick))
  {
    assert (h + [tick])[..|h|] == h;
  }

  /** The moment after k ticks: the fold's step, the tick, and its truth. */
  lemma NextMoment(h: seq<Tick>, k: nat)
    requires TruthfulHistory(h) && k < |h|
    ensures var f := Order.Fold(Kinds(h[..k]));
            && Order.Fold(Kinds(h[..k + 1])) == Apply(f, Event(k + 1, h[k].kind))
            && Live(h[..k + 1]) == JobsAfter(h[k])
            && (f.sessionEnded || Truthful(f, Live(h[..k]), h[k]))
  {
    OneMore(h, k);
    TruthfulPrefix(h, k + 1);
    FoldSnoc(h[..k], h[k]);
    TruthSnoc(h[..k], h[k]);
  }

  lemma OneMore<T>(s: seq<T>, k: nat)
    requires k < |s|
    ensures s[..k + 1] == s[..k] + [s[k]]
  {
  }

  /** What runs stays accounted for across one tick, given what the fold allowed to start in silence. */
  lemma BackAccounts(front: Front, b: Back, live: set<JobId>, tick: Tick)
    requires front.foreground.Stopped? ==> Covered(b, live) && (b.certified ==> tick.running <= live)
    requires tick.kind.BackgroundSnapshot? ==> |tick.running| == tick.kind.activeCount
    requires tick.kind == TurnStop(CertifiedClear) ==> tick.running == {}
    requires tick.kind.BackgroundStop? ==> tick.kind.stopped in tick.running
    requires !tick.kind.SessionEnd?
    ensures FrontAfter(front, tick.kind).foreground.Stopped? ==> Covered(BackAfter(b, tick.kind), JobsAfter(tick))
  {
    if tick.kind.TurnStop? {
      TurnStopCovers(b, tick);
    } else if front.foreground.Stopped? {
      CoveredStep(b, live, tick);
    }
  }

  lemma CertifiedTogether(b: Back, c: Back, kind: Kind)
    requires b.certified ==> c.certified
    ensures BackAfter(b, kind).certified ==> BackAfter(c, kind).certified
  {
  }

  /** One step of a state that follows the fold f of the history so far. */
  lemma ApplyAccounts(s: State, f: State, live: set<JobId>, tick: Tick, e: Event)
    requires e.seqno > 0 && e.kind == tick.kind && Accounted(s, live)
    requires f.sessionEnded == s.sessionEnded && f.front.foreground == s.front.foreground
    requires s.back.certified ==> f.back.certified
    requires f.sessionEnded || Truthful(f, live, tick)
    ensures var n, g := Apply(s, e), Apply(f, e);
            && g.sessionEnded == n.sessionEnded && g.front.foreground == n.front.foreground
            && (n.back.certified ==> g.back.certified) && Accounted(n, JobsAfter(tick))
  {
    if s.sessionEnded {
    } else if tick.kind.SessionEnd? {
    } else {
      CertifiedTogether(s.back, f.back, e.kind);
      BackAccounts(s.front, s.back, live, tick);
      ApplyFields(s, e);
      ApplyFields(f, e);
    }
  }

  lemma ApplyFields(s: State, e: Event)
    requires e.seqno > 0 && !s.sessionEnded
    ensures var n := Apply(s, e);
            && n.back == BackAfter(s.back, e.kind) && n.front == FrontAfter(s.front, e.kind)
            && n.sessionEnded == e.kind.SessionEnd?
  {
  }

  lemma ApplyTracks(s: State, h: seq<Tick>, e: Event)
    requires TruthfulHistory(h) && Tracks(s, h)
    requires e.seqno == s.producerSeq + 1 && Order.FromHistory(e, Kinds(h))
    ensures Tracks(Apply(s, e), h)
  {
    var k := s.producerSeq;
    NextMoment(h, k);
    ApplyAccounts(s, Order.Fold(Kinds(h[..k])), Live(h[..k]), h[k], e);
  }

  predicate AllFrom(queue: seq<Event>, h: seq<Tick>) {
    forall i :: 0 <= i < |queue| ==> Order.FromHistory(queue[i], Kinds(h))
  }

  lemma {:induction false} EnqueueFrom(queue: seq<Event>, e: Event, h: seq<Tick>)
    requires AllFrom(queue, h) && Order.FromHistory(e, Kinds(h))
    ensures AllFrom(Enqueue(queue, e), h)
  {
    if queue != [] && e.seqno >= queue[0].seqno {
      EnqueueFrom(queue[1..], e, h);
    }
  }

  lemma {:induction false} DrainTracks(s: State, h: seq<Tick>)
    requires TruthfulHistory(h) && Tracks(s, h) && AllFrom(s.pending, h)
    ensures Tracks(Drain(s), h) && AllFrom(Drain(s).pending, h)
    decreases |s.pending|
  {
    if s.pending != [] && s.pending[0].seqno == s.producerSeq + 1 {
      var popped := s.(pending := s.pending[1..]);
      ApplyTracks(popped, h, s.pending[0]);
      DrainTracks(Apply(popped, s.pending[0]), h);
    }
  }

  // ---- any run, adapter edges included ------------------------------------------------

  datatype Happening = Arrived(event: Event) | Observed(gone: bool) | AdapterEdge(connected: bool)

  function Next(s: State, what: Happening): State {
    match what
    case Arrived(e) => Reduce(s, e).state
    case Observed(gone) => ObserveGone(s, gone)
    case AdapterEdge(connected) => SetAdapterConnected(s, connected)
  }

  /** The session after a run of arrivals, host observations and adapter edges. */
  function After(run: seq<Happening>): State {
    if run == [] then INITIAL else Next(After(run[..|run| - 1]), run[|run| - 1])
  }

  /** The run delivers events of the history only, in any order and number. */
  predicate Carries(run: seq<Happening>, h: seq<Tick>) {
    forall i :: 0 <= i < |run| && run[i].Arrived? ==> Order.FromHistory(run[i].event, Kinds(h))
  }

  predicate Following(s: State, h: seq<Tick>) {
    Tracks(s, h) && AllFrom(s.pending, h) && s.sequenceGap == (s.pending != []) && Finish(s) == s
  }

  lemma ReduceFollows(s: State, h: seq<Tick>, e: Event)
    requires TruthfulHistory(h) && Following(s, h) && Order.FromHistory(e, Kinds(h))
    ensures Following(Reduce(s, e).state, h)
  {
    if e.seqno > s.producerSeq + 1 {
      EnqueueFrom(s.pending, e, h);
    } else if e.seqno == s.producerSeq + 1 {
      ApplyTracks(s, h, e);
      DrainTracks(Apply(s, e), h);
    }
  }

  /** Losing or regaining the adapter voids both axes: quiescence then needs new facts on each of them. */
  lemma AdapterFollows(s: State, h: seq<Tick>, connected: bool)
    requires Following(s, h)
    ensures var r := SetAdapterConnected(s, connected); Following(r, h) && r.availability in {Gone, Unknown}
  {
  }

  lemma {:induction false} RunFollows(h: seq<Tick>, run: seq<Happening>)
    requires TruthfulHistory(h) && Carries(run, h)
    ensures Following(After(run), h)
  {
    if run == [] {
      assert h[..0] == [] && Kinds([]) == [];
    } else {
      var before := run[..|run| - 1];
      assert forall i :: 0 <= i < |before| ==> before[i] == run[i];
      RunFollows(h, before);
      match run[|run| - 1]
      case Arrived(e) => ReduceFollows(After(before), h, e);
      case Observed(_) =>
      case AdapterEdge(connected) => AdapterFollows(After(before), h, connected);
    }
  }

  lemma QuiescentMeans(s: State, h: seq<Tick>)
    requires Following(s, h) && s.availability == Quiescent
    ensures Live(h[..s.producerSeq]) == {} && s.pending == []
  {
    var live := Live(h[..s.producerSeq]);
    assert Covered(s.back, live);
    assert live - {} == live;
  }

  /**
   * Whatever part of a truthful history has arrived, in whatever order and
   * however often, and whatever host observations and adapter edges came in
   * between: a quiescent session runs no job at the producer moment it reached.
   */
  lemma QuiescentIsTrue(h: seq<Tick>, run: seq<Happening>)
    requires TruthfulHistory(h) && Carries(run, h) && After(run).availability == Quiescent
    ensures After(run).producerSeq <= |h| && Live(h[..After(run).producerSeq]) == {}
    ensures After(run).pending == []
  {
    RunFollows(h, run);
    QuiescentMeans(After(run), h);
  }

  lemma {:induction false} FoldFollows(h: seq<Tick>)
    requires TruthfulHistory(h)
    ensures Accounted(Order.Fold(Kinds(h)), Live(h))
  {
    if h != [] {
      var k := |h| - 1;
      FoldFollows(h[..k]);
      NextMoment(h, k);
      assert h[..k + 1] == h;
      var f := Order.Fold(Kinds(h[..k]));
      ApplyAccounts(f, f, Live(h[..k]), h[k], Event(k + 1, h[k].kind));
    }
  }

  /** After the whole history in order, quiescent means that no job runs. */
  lemma QuiescentInOrder(h: seq<Tick>)
    requires TruthfulHistory(h) && Order.Fold(Kinds(h)).availability == Quiescent
    ensures Live(h) == {}
  {
    FoldFollows(h);
    Order.FoldFacts(Kinds(h));
    assert Live(h) - {} == Live(h);
  }

  // ---- the hypothesis is met within turns and needed between them ---------------------

  /** A turn that starts a background shell, of which the producer sends no edge, and counts it when it stops. */
  const SHELL_TURN: seq<Tick> := [
    Tick({}, TurnStop(CertifiedClear)), Tick({}, TurnStart),
    Tick({7}, TurnStop(CertifiedActive)), Tick({7}, BackgroundSnapshot(1))]

  lemma ShellTurnIsTruthful()
    ensures TruthfulHistory(SHELL_TURN)
  {
    var h := SHELL_TURN;
    assert Kinds([]) == [];
    forall i | 0 <= i < 4 ensures h[..i + 1] == h[..i] + [h[i]] {}
    FoldSnoc(h[..0], h[0]);
    FoldSnoc(h[..1], h[1]);
    FoldSnoc(h[..2], h[2]);
    TruthSnoc(h[..0], h[0]);
    TruthSnoc(h[..1], h[1]);
    TruthSnoc(h[..2], h[2]);
    TruthSnoc(h[..3], h[3]);
    assert h[..4] == h;
  }

  /**
   * Between turns a start must be reported: after any truthful history that
   * ends quiescent, a job that starts in silence runs behind a quiescent session.
   */
  lemma SilentStartIsMissed(h: seq<Tick>, j: JobId)
    requires TruthfulHistory(h) && Order.Fold(Kinds(h)).availability == Quiescent
    ensures var grown := h + [Tick({j}, SessionRegister)];
            && BetweenTurns(Order.Fold(Kinds(h))) && !TruthfulHistory(grown)
            && Order.Fold(Kinds(grown)).availability == Quiescent && Live(grown) == {j}
  {
    var grown := h + [Tick({j}, SessionRegister)];
    QuiescentInOrder(h);
    FoldFollows(h);
    Order.FoldFacts(Kinds(h));
    assert grown[..|h|] == h && Kinds(grown)[..|h|] == Kinds(h);
    assert j in {j};
  }

  /** Such histories exist. */
  lemma SilentStartExists()
    ensures TruthfulHistory([Tick({}, TurnStop(CertifiedClear))])
    ensures Order.Fold(Kinds([Tick({}, TurnStop(CertifiedClear))])).availability == Quiescent
  {
    var h := [Tick({}, TurnStop(CertifiedClear))];
    assert h[..0] == [] && Kinds(h) == [TurnStop(CertifiedClear)] && Kinds(h)[..0] == [];
  }
}
