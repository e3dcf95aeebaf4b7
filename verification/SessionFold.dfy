/**
 * The persisted session rows over whole runs of the store: decoded from its
 * document, each is the in-order fold of what was durably accepted first under
 * each producer number, the buffered rest, and the last pane the host reported
 * for one of its rows.
 */
module SessionFold {
  import opened Common
  import opened Report
  import opened Store
  import StoreRuns
  import Lifecycle
  import Order = LifecycleOrder
  import Meaning = LifecycleMeaning

  /** The events of one session that the log holds, by producer number, first one kept. */
  function Received(events: seq<Envelope>, session: SessionId): Order.Received {
    if events == [] then map[]
    else
      var ev := events[|events| - 1];
      var before := Received(events[..|events| - 1], session);
      if ev.session == session then Order.Receive(before, Order.Arrive(Lifecycle.Event(ev.seqno, ev.kind))) else before
  }

  /** What session s was last told of its pane, given what it had been told before the step. */
  function ToldBy(t: Tables, step: Step, s: SessionId, before: Option<bool>): Option<bool> {
    if step.LivenessStep? && step.pane.Some? && s in SessionsOf(t.inbox, step.task) then Some(!step.pane.value) else before
  }

  /** Whether session s was last reported gone, over a run of transactions. */
  function LastTold(steps: seq<Step>, s: SessionId): Option<bool> {
    if steps == [] then None
    else ToldBy(After(steps[..|steps| - 1]), steps[|steps| - 1], s, LastTold(steps[..|steps| - 1], s))
  }

  predicate Explained(inbox: Inbox, session: SessionId, told: Option<bool>) {
    SessionState(inbox, session) == Order.Settle(Received(inbox.events, session), told)
  }

  /** Production steps: the host reports panes and never adapter facts. */
  predicate PanesOnly(step: Step) { step.LivenessStep? ==> step.adapter == None }

  lemma NothingReceived()
    ensures Order.Canonical(map[]) == Lifecycle.INITIAL
  {
    Order.RunSettles([]);
  }

  /** Accepting an event moves its session to the fold with that event received, and no other session. */
  lemma AcceptFolds(t: Tables, ev: Envelope, s: SessionId, told: Option<bool>)
    requires Explained(t.inbox, s, told) && ev.seqno > 0
    ensures Explained(InboxAfter(t, ev), s, told)
  {
    var n := InboxAfter(t, ev);
    assert n.events[..|n.events| - 1] == t.inbox.events;
    if s == ev.session {
      var e := Lifecycle.Event(ev.seqno, ev.kind);
      Order.SettleArrives(Received(t.inbox.events, s), told, e);
      Lifecycle.DocumentRoundTrip(ReducedBy(t, ev).state);
    }
  }

  lemma LivenessState(t: Tables, session: SessionId, task: TaskId, pane: Option<bool>)
    requires LivenessRow(t, session, task, pane, None).Some? && session in t.inbox.sessions
    ensures SessionState(LivenessRow(t, session, task, pane, None).value.inbox, session)
            == Observed(SessionState(t.inbox, session), pane, None)
  {
    Lifecycle.DocumentRoundTrip(Observed(SessionState(t.inbox, session), pane, None));
  }

  lemma LivenessElsewhere(t: Tables, session: SessionId, task: TaskId, pane: Option<bool>, s: SessionId)
    requires LivenessRow(t, session, task, pane, None).Some? && (s != session || session !in t.inbox.sessions)
    ensures SessionState(LivenessRow(t, session, task, pane, None).value.inbox, s) == SessionState(t.inbox, s)
  {
  }

  /** One row of an observation: the session is told, when its row exists and the pane is known. */
  lemma LivenessRowFolds(t: Tables, session: SessionId, task: TaskId, pane: Option<bool>, s: SessionId, told: Option<bool>)
    requires StoreRuns.StoreInv(t) && session in t.inbox.sessions && Explained(t.inbox, s, told)
    ensures LivenessRow(t, session, task, pane, None).Some?
    ensures Explained(LivenessRow(t, session, task, pane, None).value.inbox, s,
                      if s == session && pane.Some? then Some(!pane.value) else told)
  {
    StoreRuns.LivenessRowKeeps(t, session, task, pane, None);
    var n := LivenessRow(t, session, task, pane, None).value.inbox;
    assert n.events == t.inbox.events;
    if s == session {
      LivenessState(t, session, task, pane);
      if pane.Some? {
        Order.SettleObserves(Received(n.events, s), told, !pane.value);
      }
    } else {
      LivenessElsewhere(t, session, task, pane, s);
    }
  }

  /** Sessions are never removed by an observation. */
  lemma RowKeepsKeys(t: Tables, session: SessionId, task: TaskId, pane: Option<bool>)
    requires LivenessRow(t, session, task, pane, None).Some?
    ensures LivenessRow(t, session, task, pane, None).value.inbox.sessions.Keys == t.inbox.sessions.Keys
  {
  }

  lemma {:induction false} LivenessRowsFold(t: Tables, rows: seq<SessionId>, task: TaskId, pane: Option<bool>,
                                            s: SessionId, told: Option<bool>)
    requires StoreRuns.StoreInv(t) && Explained(t.inbox, s, told)
    requires forall r :: r in rows ==> r in t.inbox.sessions
    ensures LivenessRows(t, rows, task, pane, None).Some?
    ensures Explained(LivenessRows(t, rows, task, pane, None).value.inbox, s,
                      if s in rows && pane.Some? then Some(!pane.value) else told)
    decreases |rows|
  {
    if rows != [] {
      assert rows == [rows[0]] + rows[1..];
      StoreRuns.LivenessRowKeeps(t, rows[0], task, pane, None);
      LivenessRowFolds(t, rows[0], task, pane, s, told);
      RowKeepsKeys(t, rows[0], task, pane);
      LivenessRowsFold(LivenessRow(t, rows[0], task, pane, None).value, rows[1..], task, pane, s,
                       if s == rows[0] && pane.Some? then Some(!pane.value) else told);
    }
  }

  lemma {:induction false} MatchingStored(inbox: Inbox, order: seq<SessionId>, task: TaskId)
    ensures forall s :: s in Matching(inbox, order, task) ==> s in inbox.sessions
    decreases |order|
  {
    if order != [] {
      MatchingStored(inbox, order[1..], task);
    }
  }

  lemma AcceptStepFolds(t: Tables, ev: Envelope, folder: Folder, s: SessionId, told: Option<bool>)
    requires StoreRuns.StoreInv(t) && Explained(t.inbox, s, told)
    ensures Explained(AcceptEvent(t, ev, folder).0.inbox, s, told)
  {
    if Find(t.inbox.events, ev.id).None? {
      StoreRuns.AcceptFresh(t, ev, folder);
      if Obstacle(t, ev).None? {
        AcceptFolds(t, ev, s, told);
      }
    }
  }

  lemma LivenessStepFolds(t: Tables, task: TaskId, pane: Option<bool>, s: SessionId, told: Option<bool>)
    requires StoreRuns.StoreInv(t) && Explained(t.inbox, s, told)
    ensures Explained(ReconcileLiveness(t, task, pane, None).inbox, s, ToldBy(t, LivenessStep(task, pane, None), s, told))
  {
    MatchingStored(t.inbox, t.inbox.order, task);
    LivenessRowsFold(t, SessionsOf(t.inbox, task), task, pane, s, told);
  }

  /** Every production transaction keeps each session at its fold, under what it was told by then. */
  lemma StepFolds(t: Tables, step: Step, s: SessionId, told: Option<bool>)
    requires StoreRuns.StoreInv(t) && PanesOnly(step) && Explained(t.inbox, s, told)
    ensures Explained(Next(t, step).inbox, s, ToldBy(t, step, s, told))
  {
    match step
    case AcceptStep(ev, folder) => AcceptStepFolds(t, ev, folder, s, told);
    case LivenessStep(task, pane, _) => LivenessStepFolds(t, task, pane, s, told);
    case _ =>
  }

  /**
   * Over every production run each persisted session is the fold of its
   * accepted events, as last told of its pane, and of nothing else.
   */
  lemma {:induction false} RunFolds(steps: seq<Step>, s: SessionId)
    requires forall i :: 0 <= i < |steps| ==> PanesOnly(steps[i])
    ensures Explained(After(steps).inbox, s, LastTold(steps, s))
  {
    if steps == [] {
      NothingReceived();
    } else {
      var before := steps[..|steps| - 1];
      assert forall i :: 0 <= i < |before| ==> before[i] == steps[i];
      RunFolds(before, s);
      StoreRuns.RunKeepsInv(before);
      StepFolds(After(before), steps[|steps| - 1], s, LastTold(before, s));
    }
  }

  /**
   * The persisted availability of a session over every production run: gone
   * when its accepted history ended it or the host last reported it so, unknown
   * behind a gap, and otherwise that of its history in order.
   */
  lemma PersistedAvailability(steps: seq<Step>, s: SessionId)
    requires forall i :: 0 <= i < |steps| ==> PanesOnly(steps[i])
    ensures var m := Received(After(steps).inbox.events, s);
            var k := Order.Prefix(m);
            var kinds, a := Order.Taken(m, k), SessionState(After(steps).inbox, s).availability;
            && (a == Lifecycle.Gone <==> Meaning.Ended(kinds) || LastTold(steps, s) == Some(true))
            && (a != Lifecycle.Gone ==>
                  a == if Meaning.BehindGap(m, k) then Lifecycle.Unknown else Order.Fold(kinds).availability)
  {
    RunFolds(steps, s);
    Meaning.SettledAvailability(Received(After(steps).inbox.events, s), LastTold(steps, s));
  }

  // ---- which sessions a task has ----------------------------------------------------------

  /** The insertion order names every stored session exactly once. */
  ghost predicate Listed(inbox: Inbox) {
    && (forall s :: s in inbox.order <==> s in inbox.sessions)
    && (forall i, j :: 0 <= i < j < |inbox.order| ==> inbox.order[i] != inbox.order[j])
  }

  lemma {:induction false} RowsKeepOrder(t: Tables, rows: seq<SessionId>, task: TaskId, pane: Option<bool>, adapter: Option<bool>)
    requires LivenessRows(t, rows, task, pane, adapter).Some?
    ensures var n := LivenessRows(t, rows, task, pane, adapter).value.inbox;
            && n.order == t.inbox.order && n.sessions.Keys == t.inbox.sessions.Keys
            && forall s :: s in t.inbox.sessions ==> n.sessions[s].identity == t.inbox.sessions[s].identity
    decreases |rows|
  {
    if rows != [] {
      RowKeepsOrder(t, rows[0], task, pane, adapter);
      RowsKeepOrder(LivenessRow(t, rows[0], task, pane, adapter).value, rows[1..], task, pane, adapter);
    }
  }

  lemma RowKeepsOrder(t: Tables, session: SessionId, task: TaskId, pane: Option<bool>, adapter: Option<bool>)
    requires LivenessRow(t, session, task, pane, adapter).Some?
    ensures var n := LivenessRow(t, session, task, pane, adapter).value.inbox;
            && n.order == t.inbox.order && n.sessions.Keys == t.inbox.sessions.Keys
            && forall s :: s in t.inbox.sessions ==> n.sessions[s].identity == t.inbox.sessions[s].identity
  {
  }

  lemma StepKeepsListed(t: Tables, step: Step)
    requires StoreRuns.StoreInv(t) && Listed(t.inbox)
    ensures Listed(Next(t, step).inbox)
  {
    match step
    case AcceptStep(ev, folder) =>
      if Find(t.inbox.events, ev.id).None? { StoreRuns.AcceptFresh(t, ev, folder); }
    case LivenessStep(task, pane, adapter) =>
      StoreRuns.LivenessRowsKeep(t, SessionsOf(t.inbox, task), task, pane, adapter);
      RowsKeepOrder(t, SessionsOf(t.inbox, task), task, pane, adapter);
    case _ =>
  }

  lemma {:induction false} RunKeepsListed(steps: seq<Step>)
    ensures Listed(After(steps).inbox)
  {
    if steps != [] {
      var before := steps[..|steps| - 1];
      RunKeepsListed(before);
      StoreRuns.RunKeepsInv(before);
      StepKeepsListed(After(before), steps[|steps| - 1]);
    }
  }

  lemma {:induction false} MatchingMembers(inbox: Inbox, order: seq<SessionId>, task: TaskId)
    requires forall i, j :: 0 <= i < j < |order| ==> order[i] != order[j]
    ensures var r := Matching(inbox, order, task);
            && (forall s :: s in r <==> s in order && s in inbox.sessions && inbox.sessions[s].identity.task == Some(task))
            && (forall i, j :: 0 <= i < j < |r| ==> r[i] != r[j])
    decreases |order|
  {
    if order != [] {
      MatchingMembers(inbox, order[1..], task);
      assert order == [order[0]] + order[1..];
      var rest := Matching(inbox, order[1..], task);
      forall i | 0 <= i < |rest| ensures rest[i] != order[0] {
        assert rest[i] in order[1..];
      }
    }
  }

  /** After every run an observation of a task visits each stored session of the task exactly once, and no other. */
  lemma EverySessionIsVisited(steps: seq<Step>, task: TaskId)
    ensures var inbox := After(steps).inbox;
            var rows := SessionsOf(inbox, task);
            && (forall s :: s in rows <==> s in inbox.sessions && inbox.sessions[s].identity.task == Some(task))
            && (forall i, j :: 0 <= i < j < |rows| ==> rows[i] != rows[j])
  {
    RunKeepsListed(steps);
    MatchingMembers(After(steps).inbox, After(steps).inbox.order, task);
  }
}
