/**
 * What each availability means, read off the history of producer events and
 * the jobs that really run: when a session is busy, waits for background work,
 * is quiescent, unknown or gone, for every history and every run of arrivals.
 */
module LifecycleMeaning {
  import opened Common
  import opened Lifecycle
  import opened LifecycleTruth
  import Order = LifecycleOrder

  // ---- what a history says --------------------------------------------------------

  predicate Ended(kinds: seq<Kind>) { SessionEnd in kinds }

  /** The last edge of the foreground turn, if there was one. */
  function LastTurn(kinds: seq<Kind>): Option<Kind> {
    if kinds == [] then None
    else
      var last := kinds[|kinds| - 1];
      if last.TurnStart? || last.TurnStop? then Some(last) else LastTurn(kinds[..|kinds| - 1])
  }

  /** An exact statement of the background work, which voids everything said before. */
  predicate Counts(kind: Kind) { kind == TurnStop(CertifiedClear) || kind.BackgroundSnapshot? }

  /** The last event that speaks of all background work at once gave an exact count. */
  predicate Certified(kinds: seq<Kind>) {
    kinds != [] &&
    var last := kinds[|kinds| - 1];
    if last.TurnStop? || last.BackgroundSnapshot? then Counts(last) else Certified(kinds[..|kinds| - 1])
  }

  /** Job j was reported started, and neither stopped nor overtaken by a count since. */
  ghost predicate Named(kinds: seq<Kind>, j: JobId) {
    exists i :: 0 <= i < |kinds| && kinds[i] == BackgroundStart(j) && Lasts(kinds, i, j)
  }

  predicate Lasts(kinds: seq<Kind>, i: nat, j: JobId) {
    forall m :: i < m < |kinds| ==> kinds[m] != BackgroundStop(j) && !Counts(kinds[m])
  }

  /** How many jobs of the last count are left, each unexpected stop having ended one of them. */
  ghost function Unnamed(kinds: seq<Kind>): nat {
    if kinds == [] then 0
    else
      var before, last := kinds[..|kinds| - 1], kinds[|kinds| - 1];
      if last.BackgroundSnapshot? then last.activeCount
      else if Counts(last) then 0
      else if Unexpected(before, last) && Unnamed(before) > 0 then Unnamed(before) - 1
      else Unnamed(before)
  }

  /** A stop of a job whose start was not reported. */
  ghost predicate Unexpected(before: seq<Kind>, kind: Kind) { kind.BackgroundStop? && !Named(before, kind.stopped) }

  ghost predicate NothingKnown(kinds: seq<Kind>) { Unnamed(kinds) == 0 && forall j :: !Named(kinds, j) }

  /** Activity was claimed while no job was known of, and neither a count nor an unexpected stop explained it since. */
  ghost predicate Presumed(kinds: seq<Kind>) {
    exists i :: 0 <= i < |kinds| && kinds[i] == TurnStop(CertifiedActive) && NothingKnown(kinds[..i]) && Unexplained(kinds, i)
  }

  ghost predicate Explains(before: seq<Kind>, kind: Kind) {
    Counts(kind) || (Unexpected(before, kind) && Unnamed(before) == 0)
  }

  ghost predicate Unexplained(kinds: seq<Kind>, i: nat) {
    forall m :: i < m < |kinds| ==> !Explains(kinds[..m], kinds[m])
  }

  /** Some background work is believed to run. */
  ghost predicate Believed(kinds: seq<Kind>) {
    (exists j :: Named(kinds, j)) || Unnamed(kinds) > 0 || Presumed(kinds)
  }

  // ---- one more event ---------------------------------------------------------------

  lemma NamedSnoc(kinds: seq<Kind>, kind: Kind, j: JobId)
    ensures Named(kinds + [kind], j) <==>
            kind == BackgroundStart(j) || (Named(kinds, j) && kind != BackgroundStop(j) && !Counts(kind))
  {
    var all := kinds + [kind];
    if kind == BackgroundStart(j) {
      assert all[|kinds|] == kind && Lasts(all, |kinds|, j);
    }
    if Named(kinds, j) && kind != BackgroundStop(j) && !Counts(kind) {
      var i :| 0 <= i < |kinds| && kinds[i] == BackgroundStart(j) && Lasts(kinds, i, j);
      assert all[i] == BackgroundStart(j) && Lasts(all, i, j);
    }
    if Named(all, j) && kind != BackgroundStart(j) {
      var i :| 0 <= i < |all| && all[i] == BackgroundStart(j) && Lasts(all, i, j);
      assert all[|kinds|] == kind;
      assert forall m :: i < m < |kinds| ==> all[m] == kinds[m];
      assert kinds[i] == BackgroundStart(j) && Lasts(kinds, i, j);
    }
  }

  lemma PresumedSnoc(kinds: seq<Kind>, kind: Kind)
    ensures Presumed(kinds + [kind]) <==>
            (kind == TurnStop(CertifiedActive) && NothingKnown(kinds)) || (Presumed(kinds) && !Explains(kinds, kind))
  {
    var all := kinds + [kind];
    assert all[..|kinds|] == kinds && all[|kinds|] == kind;
    forall m | 0 <= m < |kinds| ensures all[..m] == kinds[..m] && all[m] == kinds[m] {}
    if kind == TurnStop(CertifiedActive) && NothingKnown(kinds) {
      assert Unexplained(all, |kinds|);
    }
    if Presumed(kinds) && !Explains(kinds, kind) {
      var i :| 0 <= i < |kinds| && kinds[i] == TurnStop(CertifiedActive) && NothingKnown(kinds[..i]) && Unexplained(kinds, i);
      assert Unexplained(all, i);
    }
    if Presumed(all) {
      var i :| 0 <= i < |all| && all[i] == TurnStop(CertifiedActive) && NothingKnown(all[..i]) && Unexplained(all, i);
      if i < |kinds| {
        assert Unexplained(kinds, i);
      }
    }
  }

  /** The reducer's record of background work is exactly what the history says of it. */
  ghost predicate Records(b: Back, kinds: seq<Kind>) {
    && (forall j :: j in b.jobs <==> Named(kinds, j))
    && b.anonymous == Unnamed(kinds) && b.presenceOnly == Presumed(kinds)
  }

  lemma RecordsMore(b: Back, kinds: seq<Kind>, kind: Kind)
    requires Records(b, kinds) && !kind.SessionEnd?
    ensures Records(BackAfter(b, kind), kinds + [kind])
  {
    var all := kinds + [kind];
    assert all[..|all| - 1] == kinds;
    forall j ensures j in BackAfter(b, kind).jobs <==> Named(all, j) { NamedSnoc(kinds, kind, j); }
    PresumedSnoc(kinds, kind);
    if b.jobs == {} && b.anonymous == 0 {
      assert NothingKnown(kinds);
    } else if b.jobs != {} {
      var j :| j in b.jobs;
      assert Named(kinds, j);
    }
  }

  lemma PositiveIsBelieved(b: Back, kinds: seq<Kind>)
    requires Records(b, kinds)
    ensures b.Positive() <==> Believed(kinds)
  {
    assert b.jobs != {} <==> exists j :: j in b.jobs;
  }

  // ---- histories with adapter edges -----------------------------------------------------

  /** What reaches a session in order: a producer event, or the loss or return of its adapter. */
  datatype Signal = Said(kind: Kind) | Edge(connected: bool)

  /** The session after signals in order, its events numbered from 1. */
  function Told(signals: seq<Signal>): State {
    if signals == [] then INITIAL
    else
      var s := Told(signals[..|signals| - 1]);
      match signals[|signals| - 1]
      case Said(kind) => Apply(s, Event(s.producerSeq + 1, kind))
      case Edge(connected) => SetAdapterConnected(s, connected)
  }

  /** Every event of the history. */
  function Events(signals: seq<Signal>): seq<Kind> {
    if signals == [] then []
    else
      var before, last := signals[..|signals| - 1], signals[|signals| - 1];
      if last.Said? then Events(before) + [last.kind] else Events(before)
  }

  /** The events since the last adapter edge. */
  function Recent(signals: seq<Signal>): seq<Kind> {
    if signals == [] then []
    else
      var before, last := signals[..|signals| - 1], signals[|signals| - 1];
      if last.Said? then Recent(before) + [last.kind] else []
  }

  predicate HadEdge(signals: seq<Signal>) { exists i :: 0 <= i < |signals| && signals[i].Edge? }

  /** Some event says something of background work. */
  predicate Mentions(kinds: seq<Kind>) { exists i :: 0 <= i < |kinds| && Mention(kinds[i]) }

  predicate Mention(kind: Kind) {
    kind.BackgroundStart? || kind.BackgroundStop? || kind.BackgroundSnapshot?
    || (kind.TurnStop? && kind.certainty != Uncertified)
  }

  /** The background axis: its record, and a fresh value drawn from it once something was said since the last edge. */
  ghost predicate BackFollows(b: Back, signals: seq<Signal>) {
    && Records(b, Events(signals)) && b.certified == Certified(Recent(signals))
    && b.isFresh == (!HadEdge(signals) || Mentions(Recent(signals)))
    && Drawn(b)
  }

  /** The foreground axis: the last turn edge since the last adapter edge. */
  predicate FrontFollows(f: Front, signals: seq<Signal>) {
    var turn := LastTurn(Recent(signals));
    && !f.blocked
    && if turn.Some? then f == Front(if turn.value.TurnStart? then Running else Stopped, true, false)
       else !f.isFresh || f.foreground == ForegroundUnknown
  }

  lemma MentionsSnoc(kinds: seq<Kind>, kind: Kind)
    ensures Mentions(kinds + [kind]) <==> Mentions(kinds) || Mention(kind)
  {
    var all := kinds + [kind];
    assert all[|kinds|] == kind;
    if i :| 0 <= i < |kinds| && Mention(kinds[i]) { assert Mention(all[i]); }
    if i :| 0 <= i < |all| && Mention(all[i]) && i < |kinds| { assert Mention(kinds[i]); }
  }

  lemma EdgeSnoc(signals: seq<Signal>, signal: Signal)
    ensures HadEdge(signals + [signal]) <==> HadEdge(signals) || signal.Edge?
  {
    var all := signals + [signal];
    assert all[|signals|] == signal;
    if i :| 0 <= i < |signals| && signals[i].Edge? { assert all[i].Edge?; }
    if i :| 0 <= i < |all| && all[i].Edge? && i < |signals| { assert signals[i].Edge?; }
  }

  /** A fresh value of the background axis is drawn from its record. */
  predicate Drawn(b: Back) {
    b.isFresh ==> (b.background.Active? <==> b.Positive()) && (b.background.Clear? <==> !b.Positive() && b.certified)
  }

  lemma BackStaysDrawn(b: Back, kind: Kind)
    requires Drawn(b) && !kind.SessionEnd?
    ensures var n := BackAfter(b, kind);
            && Drawn(n) && n.isFresh == (b.isFresh || Mention(kind))
            && n.certified == if kind.TurnStop? || kind.BackgroundSnapshot? then Counts(kind) else b.certified
  {
  }

  lemma CertifiedSnoc(kinds: seq<Kind>, kind: Kind)
    ensures Certified(kinds + [kind])
            == if kind.TurnStop? || kind.BackgroundSnapshot? then Counts(kind) else Certified(kinds)
  {
    assert (kinds + [kind])[..|kinds|] == kinds;
  }

  lemma HistorySnoc(signals: seq<Signal>, kind: Kind)
    ensures Events(signals + [Said(kind)]) == Events(signals) + [kind]
    ensures Recent(signals + [Said(kind)]) == Recent(signals) + [kind]
  {
    assert (signals + [Said(kind)])[..|signals|] == signals;
  }

  lemma BackFollowsMore(b: Back, signals: seq<Signal>, kind: Kind)
    requires BackFollows(b, signals) && !kind.SessionEnd?
    ensures BackFollows(BackAfter(b, kind), signals + [Said(kind)])
  {
    HistorySnoc(signals, kind);
    RecordsMore(b, Events(signals), kind);
    MentionsSnoc(Recent(signals), kind);
    EdgeSnoc(signals, Said(kind));
    CertifiedSnoc(Recent(signals), kind);
    BackStaysDrawn(b, kind);
  }

  lemma FrontFollowsMore(f: Front, signals: seq<Signal>, kind: Kind)
    requires FrontFollows(f, signals) && !kind.SessionEnd?
    ensures FrontFollows(FrontAfter(f, kind), signals + [Said(kind)])
  {
    HistorySnoc(signals, kind);
    TurnSnoc(Recent(signals), kind);
  }

  lemma TurnSnoc(kinds: seq<Kind>, kind: Kind)
    ensures LastTurn(kinds + [kind]) == if kind.TurnStart? || kind.TurnStop? then Some(kind) else LastTurn(kinds)
  {
    assert (kinds + [kind])[..|kinds|] == kinds;
  }

  ghost predicate Follows(s: State, signals: seq<Signal>) {
    && BackFollows(s.back, signals) && FrontFollows(s.front, signals)
    && !s.sessionEnded && !s.sessionGone && !s.sequenceGap && Finish(s) == s
    && s.adapterConnected == (signals == [] || signals[|signals| - 1] != Edge(false))
  }

  lemma {:induction false} ToldFollows(signals: seq<Signal>)
    requires !Ended(Events(signals))
    ensures Follows(Told(signals), signals)
  {
    if signals != [] {
      var before, last := signals[..|signals| - 1], signals[|signals| - 1];
      assert signals == before + [last];
      ToldFollows(before);
      EdgeSnoc(before, last);
      if last.Said? {
        BackFollowsMore(Told(before).back, before, last.kind);
        FrontFollowsMore(Told(before).front, before, last.kind);
      }
    }
  }

  /**
   * The availability of a session that has not ended, from its history alone.
   * It is unknown until a turn edge since the last adapter edge, busy within a
   * turn, and between turns, once background work was mentioned since that
   * edge, it waits while some is believed to run, is quiescent when an exact
   * count leaves none, and is unknown when nothing certifies that.
   */
  lemma AvailabilityMeans(signals: seq<Signal>)
    requires !Ended(Events(signals))
    ensures var a, recent, turn := Told(signals).availability, Recent(signals), LastTurn(Recent(signals));
            var between := turn.Some? && turn.value.TurnStop?;
            var believed := Mentions(recent) && Believed(Events(signals));
            && (a == Busy <==> turn == Some(TurnStart))
            && (a == WaitingBackground <==> between && believed)
            && (a == Quiescent <==> between && Mentions(recent) && !believed && Certified(recent))
            && (a == Unknown <==> turn.None? || (between && !believed && !(Mentions(recent) && Certified(recent))))
  {
    ToldFollows(signals);
    TurnIsTurn(Recent(signals));
    PositiveIsBelieved(Told(signals).back, Events(signals));
    if !HadEdge(signals) && !Mentions(Recent(signals)) {
      NoEdge(signals);
      Unmentioned(Recent(signals));
    }
  }

  lemma {:induction false} NoEdge(signals: seq<Signal>)
    requires !HadEdge(signals)
    ensures Recent(signals) == Events(signals)
  {
    if signals != [] {
      var before, last := signals[..|signals| - 1], signals[|signals| - 1];
      assert signals == before + [last];
      EdgeSnoc(before, last);
      NoEdge(before);
    }
  }

  /** What was never mentioned is neither believed nor certified. */
  lemma {:induction false} Unmentioned(kinds: seq<Kind>)
    requires !Mentions(kinds)
    ensures !Believed(kinds) && !Certified(kinds)
  {
    if kinds != [] {
      var before, last := kinds[..|kinds| - 1], kinds[|kinds| - 1];
      assert kinds == before + [last];
      MentionsSnoc(before, last);
      Unmentioned(before);
      PresumedSnoc(before, last);
      forall j ensures !Named(kinds, j) { NamedSnoc(before, last, j); }
    }
  }

  lemma FirstAfterEdge(signals: seq<Signal>, connected: bool, kind: Kind)
    requires !Ended(Events(signals)) && (kind == TurnStart || (kind.TurnStop? && kind.certainty != Uncertified))
    ensures Told(signals + [Edge(connected)] + [Said(kind)]).availability
            == if kind.TurnStart? then Busy
               else if kind.certainty == CertifiedClear then Quiescent else WaitingBackground
  {
    var cut := signals + [Edge(connected)];
    assert cut[..|signals|] == signals && (cut + [Said(kind)])[..|cut|] == cut;
    ToldFollows(signals);
    ToldFollows(cut);
  }

  /** What an adapter edge leaves is unknown, whichever way it goes; the next certified turn edge is believed again. */
  lemma EdgeForgets(signals: seq<Signal>, connected: bool)
    requires !Ended(Events(signals))
    ensures Told(signals + [Edge(connected)]).availability == Unknown
    ensures Told(signals + [Edge(connected)]).adapterConnected == connected
    ensures Told(signals + [Edge(connected)] + [Said(TurnStart)]).availability == Busy
    ensures Told(signals + [Edge(connected)] + [Said(TurnStop(CertifiedClear))]).availability == Quiescent
    ensures Told(signals + [Edge(connected)] + [Said(TurnStop(CertifiedActive))]).availability == WaitingBackground
  {
    assert (signals + [Edge(connected)])[..|signals|] == signals;
    ToldFollows(signals);
    FirstAfterEdge(signals, connected, TurnStart);
    FirstAfterEdge(signals, connected, TurnStop(CertifiedClear));
    FirstAfterEdge(signals, connected, TurnStop(CertifiedActive));
  }

  // ---- histories of events alone -----------------------------------------------------------

  function Spoken(kinds: seq<Kind>): seq<Signal> { seq(|kinds|, i requires 0 <= i < |kinds| => Said(kinds[i])) }

  lemma {:induction false} FoldIsTold(kinds: seq<Kind>)
    ensures Told(Spoken(kinds)) == Order.Fold(kinds) && Order.Fold(kinds).producerSeq == |kinds|
    ensures Events(Spoken(kinds)) == kinds && Recent(Spoken(kinds)) == kinds && !HadEdge(Spoken(kinds))
  {
    Order.FoldFacts(kinds);
    if kinds != [] {
      var before := kinds[..|kinds| - 1];
      FoldIsTold(before);
      assert Spoken(kinds)[..|kinds| - 1] == Spoken(before);
      assert kinds == before + [kinds[|kinds| - 1]];
    }
  }

  lemma FoldFollows(kinds: seq<Kind>)
    requires !Ended(kinds)
    ensures var s := Order.Fold(kinds);
            && Records(s.back, kinds) && s.back.certified == Certified(kinds) && s.back.isFresh
            && (s.back.background.Active? <==> s.back.Positive())
            && (s.back.background.Clear? <==> !s.back.Positive() && s.back.certified)
            && !s.sessionEnded && !s.sessionGone && s.adapterConnected && !s.sequenceGap && Finish(s) == s
  {
    FoldIsTold(kinds);
    ToldFollows(Spoken(kinds));
  }

  /** The availability of an unfinished session after its events in order. */
  lemma AvailabilityInOrder(kinds: seq<Kind>)
    requires !Ended(kinds)
    ensures var a, turn := Order.Fold(kinds).availability, LastTurn(kinds);
            var between := turn.Some? && turn.value.TurnStop?;
            && (a == Busy <==> turn == Some(TurnStart))
            && (a == WaitingBackground <==> between && Believed(kinds))
            && (a == Quiescent <==> between && !Believed(kinds) && Certified(kinds))
            && (a == Unknown <==> turn.None? || (between && !Believed(kinds) && !Certified(kinds)))
  {
    FoldIsTold(kinds);
    AvailabilityMeans(Spoken(kinds));
    if !Mentions(kinds) { Unmentioned(kinds); }
  }

  /** The set of the named jobs, and no other. */
  ghost predicate AreNamed(jobs: set<JobId>, kinds: seq<Kind>) { forall j :: j in jobs <==> Named(kinds, j) }

  lemma CountOfFold(kinds: seq<Kind>)
    requires !Ended(kinds)
    ensures var b := Order.Fold(kinds).back;
            b.ActiveCount() == if Certified(kinds) then Some(|b.jobs| + b.anonymous) else None
  {
    FoldFollows(kinds);
  }

  /** The number of background jobs is given exactly while a count certifies it: the named and the unnamed ones. */
  lemma CountMeans(kinds: seq<Kind>, jobs: set<JobId>)
    requires !Ended(kinds) && AreNamed(jobs, kinds)
    ensures Order.Fold(kinds).back.ActiveCount() == if Certified(kinds) then Some(|jobs| + Unnamed(kinds)) else None
  {
    FoldFollows(kinds);
    CountOfFold(kinds);
    assert jobs == Order.Fold(kinds).back.jobs;
  }

  lemma {:induction false} TurnIsTurn(kinds: seq<Kind>)
    ensures LastTurn(kinds).Some? ==> LastTurn(kinds).value.TurnStart? || LastTurn(kinds).value.TurnStop?
  {
    if kinds != [] { TurnIsTurn(kinds[..|kinds| - 1]); }
  }

  lemma {:induction false} EndedIsGone(kinds: seq<Kind>)
    requires Ended(kinds)
    ensures var s := Order.Fold(kinds);
            && s.sessionEnded && s.sessionGone && s.availability == Gone
            && s.front.foreground == Stopped && s.back.background == Clear && s.back.ActiveCount() == Some(0)
  {
    var before, last := kinds[..|kinds| - 1], kinds[|kinds| - 1];
    if Ended(before) {
      EndedIsGone(before);
    } else {
      FoldFollows(before);
    }
  }

  /** Something was received beyond the number k. */
  predicate BehindGap(m: Order.Received, k: nat) { exists q: nat :: q in m && q > k }

  /**
   * The same for whatever part of the history was received, in any order: gone
   * when the session ended or the host last said so, otherwise unknown behind
   * a gap, otherwise that of the longest received prefix.
   */
  lemma SettledAvailability(m: Order.Received, observed: Option<bool>)
    ensures var k := Order.Prefix(m);
            var kinds, s := Order.Taken(m, k), Order.Settle(m, observed);
            && (s.availability == Gone <==> Ended(kinds) || observed == Some(true))
            && (s.availability != Gone ==>
                  s.availability == if BehindGap(m, k) then Unknown else Order.Fold(kinds).availability)
  {
    var k := Order.Prefix(m);
    var kinds := Order.Taken(m, k);
    Order.SettleFacts(m, observed);
    if Ended(kinds) {
      EndedIsGone(kinds);
    } else {
      FoldFollows(kinds);
    }
    BeyondIff(m, k);
  }

  /** The availability after any run of arrivals and host observations. */
  lemma RunAvailability(ops: seq<Order.Op>)
    ensures var m := Order.First(ops);
            var k := Order.Prefix(m);
            var kinds, s := Order.Taken(m, k), Order.Run(ops);
            && (s.availability == Gone <==> Ended(kinds) || Order.LastObserved(ops) == Some(true))
            && (s.availability != Gone ==>
                  s.availability == if BehindGap(m, k) then Unknown else Order.Fold(kinds).availability)
  {
    Order.RunSettles(ops);
    SettledAvailability(Order.First(ops), Order.LastObserved(ops));
  }

  lemma BeyondIff(m: Order.Received, k: nat)
    ensures Order.Beyond(m, k) != [] <==> BehindGap(m, k)
  {
    if BehindGap(m, k) {
      var q: nat :| q in m && q > k;
      assert q in Order.Above(m, k);
    }
  }

  /** Every number below this one was received. */
  predicate AllBelow(m: Order.Received, seqno: int) { forall q: nat :: 1 <= q < seqno ==> q in m }

  /** How the reducer answers an arrival after any run: by whether the number came before, comes next, or leaves a gap. */
  lemma DispositionMeans(ops: seq<Order.Op>, e: Event)
    ensures var d, m := Reduce(Order.Run(ops), e).disposition, Order.First(ops);
            && (d == InvalidSeq <==> e.seqno <= 0)
            && (d == StaleSeq <==> e.seqno > 0 && e.seqno in m)
            && (d == Applied <==> e.seqno > 0 && e.seqno !in m && AllBelow(m, e.seqno))
            && (d == SeqGap <==> e.seqno > 0 && e.seqno !in m && !AllBelow(m, e.seqno))
  {
    var m := Order.First(ops);
    var k := Order.Prefix(m);
    Order.RunSettles(ops);
    Order.SettleFacts(m, Order.LastObserved(ops));
    if e.seqno > k { Order.BufferedIff(m, k, e.seqno); }
    assert Order.Holds(m, k) && k + 1 !in m;
  }

  // ---- what really runs --------------------------------------------------------------------

  /** The tick states the running jobs exactly. */
  predicate CountsTruly(tick: Tick) {
    || (tick.kind == TurnStop(CertifiedClear) && tick.running == {})
    || (tick.kind.BackgroundSnapshot? && |tick.running| == tick.kind.activeCount)
  }

  /** The tick reports every change of what runs: what started was not running, what stopped was. */
  predicate Reports(before: set<JobId>, tick: Tick) {
    && tick.running == before && !Counts(tick.kind)
    && (tick.kind.BackgroundStart? ==> tick.kind.started !in before)
    && (tick.kind.BackgroundStop? ==> tick.kind.stopped in before)
    && (tick.kind == TurnStop(CertifiedActive) ==> before != {})
  }

  /** Since its last true count, or from its start with nothing running, the history reported every change. */
  predicate Reported(h: seq<Tick>) {
    h == [] || CountsTruly(h[|h| - 1]) || (Reported(h[..|h| - 1]) && Reports(Live(h[..|h| - 1]), h[|h| - 1]))
  }

  /** The record is exact: the named jobs run, and the unnamed count is that of the others. */
  predicate Exact(b: Back, live: set<JobId>) { b.jobs <= live && |live - b.jobs| == b.anonymous && !b.presenceOnly }

  lemma StartIsExact(b: Back, live: set<JobId>, j: JobId)
    requires Exact(b, live) && j !in live
    ensures Exact(BackAfter(b, BackgroundStart(j)), live + {j})
  {
    assert (live + {j}) - (b.jobs + {j}) == live - b.jobs;
  }

  lemma StopIsExact(b: Back, live: set<JobId>, j: JobId)
    requires Exact(b, live) && j in live
    ensures Exact(BackAfter(b, BackgroundStop(j)), live - {j})
  {
    if j in b.jobs {
      assert (live - {j}) - (b.jobs - {j}) == live - b.jobs;
    } else {
      assert (live - {j}) - b.jobs == (live - b.jobs) - {j};
      assert j in live - b.jobs;
    }
  }

  lemma TurnStopIsExact(b: Back, live: set<JobId>, certainty: Certainty)
    requires Exact(b, live) && (certainty == CertifiedActive ==> live != {}) && certainty != CertifiedClear
    ensures Exact(BackAfter(b, TurnStop(certainty)), live)
  {
    if b.jobs == {} {
      assert live - b.jobs == live;
    }
  }

  lemma ReportKeepsExact(b: Back, live: set<JobId>, tick: Tick)
    requires Exact(b, live) && Reports(live, tick) && !tick.kind.SessionEnd?
    ensures Exact(BackAfter(b, tick.kind), JobsAfter(tick))
  {
    match tick.kind
    case BackgroundStart(j) => StartIsExact(b, live, j);
    case BackgroundStop(j) => StopIsExact(b, live, j);
    case TurnStop(certainty) => TurnStopIsExact(b, live, certainty);
    case _ =>
  }

  lemma CountIsExact(b: Back, tick: Tick)
    requires CountsTruly(tick)
    ensures Exact(BackAfter(b, tick.kind), JobsAfter(tick))
  {
    assert tick.running - {} == tick.running;
  }

  lemma FoldBackSnoc(before: seq<Tick>, tick: Tick)
    requires !Ended(Kinds(before + [tick]))
    ensures !Ended(Kinds(before)) && !tick.kind.SessionEnd?
    ensures Order.Fold(Kinds(before + [tick])).back == BackAfter(Order.Fold(Kinds(before)).back, tick.kind)
  {
    assert Kinds(before + [tick]) == Kinds(before) + [tick.kind];
    FoldSnoc(before, tick);
    FoldFollows(Kinds(before));
  }

  lemma {:induction false} ReportedIsExact(h: seq<Tick>)
    requires Reported(h) && !Ended(Kinds(h))
    ensures Exact(Order.Fold(Kinds(h)).back, Live(h))
  {
    if h != [] {
      var before, tick := h[..|h| - 1], h[|h| - 1];
      assert h == before + [tick];
      FoldBackSnoc(before, tick);
      if CountsTruly(tick) {
        CountIsExact(Order.Fold(Kinds(before)).back, tick);
      } else {
        ReportedIsExact(before);
        ReportKeepsExact(Order.Fold(Kinds(before)).back, Live(before), tick);
      }
    } else {
      assert Kinds(h) == [];
    }
  }

  /**
   * Completeness: between the turns of a session whose producer reported every
   * change since a true count, availability is exactly what really runs.
   */
  lemma ReportedIsTrue(h: seq<Tick>)
    requires Reported(h) && !Ended(Kinds(h))
    requires LastTurn(Kinds(h)).Some? && LastTurn(Kinds(h)).value.TurnStop?
    ensures Order.Fold(Kinds(h)).availability
            == if Live(h) != {} then WaitingBackground else if Certified(Kinds(h)) then Quiescent else Unknown
  {
    ReportedIsExact(h);
    FoldFollows(Kinds(h));
    AvailabilityInOrder(Kinds(h));
    PositiveIsBelieved(Order.Fold(Kinds(h)).back, Kinds(h));
    ExactPositive(Order.Fold(Kinds(h)).back, Live(h));
  }

  lemma ExactPositive(b: Back, live: set<JobId>)
    requires Exact(b, live)
    ensures b.Positive() <==> live != {}
  {
    assert b.jobs == {} ==> live - b.jobs == live;
    assert live == {} ==> live - b.jobs == {};
  }

  /** And while a count certifies it, the reported number of background jobs is that of those running. */
  lemma ReportedCount(h: seq<Tick>)
    requires Reported(h) && !Ended(Kinds(h)) && Certified(Kinds(h))
    ensures Order.Fold(Kinds(h)).back.ActiveCount() == Some(|Live(h)|)
  {
    ReportedIsExact(h);
    CountOfFold(Kinds(h));
    ExactCount(Order.Fold(Kinds(h)).back, Live(h));
  }

  lemma ExactCount(b: Back, live: set<JobId>)
    requires Exact(b, live)
    ensures |b.jobs| + b.anonymous == |live|
  {
    assert live == b.jobs + (live - b.jobs);
  }
}
