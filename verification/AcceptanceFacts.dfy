/**
 * What an accepted event and a host observation write, table by table: the
 * task's row, and exactly when that row takes a generation, under which
 * reason and which priority.
 */
module AcceptanceFacts {
  import opened Common
  import opened Report
  import opened Generations
  import opened Delivery
  import opened Store
  import opened StoreRuns
  import Lifecycle

  // ---- when a row counts as news ------------------------------------------------------

  /** The event writes the row of its task: a crew event of a session registered by then. */
  predicate WritesRow(t: Tables, ev: Envelope) {
    ev.identity.role.Crew? && ev.identity.task.Some?
    && (ev.kind.SessionRegister? || (ev.session in t.inbox.sessions && t.inbox.sessions[ev.session].registered))
  }

  /** A codex turn ended with a valid report whose state or verdict is not the one known. */
  predicate ReportEnded(ev: Envelope, before: Option<Projection>, q: Projection) {
    && ev.identity.harness == Codex && ev.kind.TurnStop? && q.reportState == Valid
    && (before.None? || before.value.reportState != Valid || before.value.verdict != q.verdict)
  }

  /** A native producer that registers or starts its turn has had no chance to write a report yet. */
  predicate TooEarly(ev: Envelope, q: Projection) {
    && ev.identity.harness in {Pi, Codex} && q.reportState == Missing
    && (ev.kind.SessionRegister? || (ev.kind.TurnStart? && q.availability == Lifecycle.Busy))
  }

  /** Something a driver can see differs between the rows. */
  predicate Differs(before: Option<Projection>, q: Projection) {
    before.None?
    || before.value.availability != q.availability || before.value.reportState != q.reportState
    || before.value.verdict != q.verdict || before.value.reason != q.reason || before.value.detail != q.detail
  }

  /** The written row wakes the drivers. */
  predicate Wakes(ev: Envelope, before: Option<Projection>, q: Projection) {
    ReportEnded(ev, before, q) || (q.reason != NoReason && Differs(before, q) && !TooEarly(ev, q))
  }

  /** The reason the wake is recorded under. */
  function WakeReason(ev: Envelope, before: Option<Projection>, q: Projection): Reason {
    if ReportEnded(ev, before, q) then NativeTurnEnded else q.reason
  }

  /** A wake is urgent when the report asks for the driver, unless the task's session is gone. */
  predicate IsUrgent(ev: Envelope, before: Option<Projection>, q: Projection) {
    && q.reportState == Valid && q.verdict in {BLOCKED, FAILED, NEEDS_ACTION}
    && (q.availability != Lifecycle.Gone || ReportEnded(ev, before, q))
  }

  // ---- what a generation records --------------------------------------------------------

  /** The next generation, of one task: its number, reason and priority, every driver's cursor, and every row frozen. */
  ghost predicate Takes(t: Tables, n: Tables, task: TaskId, reason: Reason, urgent: bool) {
    var g := t.board.latest + 1;
    && n.board.latest == g
    && n.board.generations == t.board.generations[g := if urgent then Urgent else Normal]
    && n.board.changed == t.board.changed[GenTask(g, task) := reason]
    && (forall k: GenTask :: k.gen != g ==> (k in n.board.snaps <==> k in t.board.snaps))
    && (forall k: GenTask :: k.gen != g && k in n.board.snaps ==> n.board.snaps[k] == t.board.snaps[k])
    && (forall k: GenTask :: k.gen == g ==> (k in n.board.snaps <==> k.task in n.board.projections))
    && (forall k: GenTask :: k.gen == g && k in n.board.snaps ==> n.board.snaps[k] == n.board.projections[k.task])
    && n.board.members == n.board.snaps.Keys
    && Raises(t.desk, n.desk, g)
  }

  /** Every driver's latest cursor stands at g, and nothing else on the desk changed. */
  ghost predicate Raises(k: Desk, n: Desk, g: nat) {
    && n.registrations == k.registrations && n.offers == k.offers && n.disabled == k.disabled
    && n.deliveries.Keys == k.deliveries.Keys
    && forall d :: d in k.deliveries ==> n.deliveries[d] == k.deliveries[d].(latest := g)
  }

  /** No generation is taken. */
  ghost predicate Quiet(t: Tables, n: Tables) {
    && n.board.latest == t.board.latest && n.board.generations == t.board.generations
    && n.board.changed == t.board.changed && n.board.snaps == t.board.snaps && n.board.members == t.board.members
    && n.desk == t.desk
  }

  /** The projections differ at most in the row of one task. */
  ghost predicate OnlyRow(b: Board, n: Board, task: TaskId) {
    && task in n.projections && n.projections.Keys == b.projections.Keys + {task}
    && forall x :: x in b.projections && x != task ==> n.projections[x] == b.projections[x]
  }

  /** A bump of a sound board, as tables before and after. */
  lemma BumpTakes(t: Tables, c: Change)
    requires StoreInv(t) && ChangeLegal(t.board, c)
    ensures BumpAll(t, c).Some?
    ensures var n := BumpAll(t, c).value;
            && Takes(t, n, c.task, c.reason, c.priority == Urgent) && n.inbox == t.inbox
            && n.board.projections
               == t.board.projections[c.task := t.board.projections[c.task].(generation := n.board.latest)]
  {
    BumpAllKeeps(t, c);
    BumpFacts(t.board, c);
  }

  // ---- the row an event writes -----------------------------------------------------------

  /** The row carries the session's availability and axes, and the captured handoff's state, verdict and summary. */
  predicate RowSays(q: Projection, session: SessionId, s: Lifecycle.State, present: bool, report: Summary, durable: nat) {
    && q.availability == s.availability && q.reportState == report.state && q.verdict == report.verdict
    && q.lastEvent == durable
    && q.detail == Detail(present, session, s.front.foreground, s.back.background, s.back.ActiveCount(),
                          s.availability, None, report)
    && ReasonSays(q.reason, q.availability, q.reportState, q.verdict)
  }

  /** Each reason, by its exact condition on the availability and the report. */
  predicate ReasonSays(r: Reason, a: Lifecycle.Availability, state: ReportState, verdict: Option<Handoff.Value>) {
    var here := state == Valid && a != Lifecycle.Gone;
    && (r == MissingReport <==> state == Missing)
    && (r == MalformedReport <==> state == Malformed)
    && (r == GoneTask <==> state == Valid && a == Lifecycle.Gone)
    && (r == NeedsActionTask <==> here && verdict == NEEDS_ACTION)
    && (r == FailedTask <==> here && verdict == FAILED)
    && (r == BlockedTask <==> here && verdict == BLOCKED)
    && (r == WaitingTask <==> here && verdict == WAITING && a == Lifecycle.WaitingBackground)
    && (r == UnknownTask <==> here && verdict == WAITING && a != Lifecycle.WaitingBackground)
    && (r == QuiescentTask <==> here && verdict == DONE && a == Lifecycle.Quiescent)
    && (r == NoReason <==> here && verdict == DONE && a != Lifecycle.Quiescent)
  }

  lemma ReasonMeans(a: Lifecycle.Availability, state: ReportState, verdict: Option<Handoff.Value>)
    requires Reportable(state, verdict)
    ensures ActionableReason(a, state, verdict).Some?
    ensures ReasonSays(ActionableReason(a, state, verdict).value, a, state, verdict)
  {
    ReasonTotal(a, state, verdict);
  }

  lemma ChangeMeans(ev: Envelope, task: TaskId, before: Option<Projection>, q: Projection)
    requires ReasonSays(q.reason, q.availability, q.reportState, q.verdict)
    ensures ChangeFor(ev, task, before, Some(q))
            == if !Wakes(ev, before, q) then None
               else Some(Change(task, WakeReason(ev, before, q), if IsUrgent(ev, before, q) then Urgent else Normal,
                                ReportEnded(ev, before, q)))
  {
  }

  /** The tables after writing, before any generation is taken. */
  lemma RowIsWritten(t: Tables, ev: Envelope, folder: Folder)
    requires StoreInv(t) && Find(t.inbox.events, ev.id).None? && Obstacle(t, ev).None? && WritesRow(t, ev)
    ensures Written(t, ev, folder).Some?
    ensures var n, task := Written(t, ev, folder).value, ev.identity.task.value;
            && Quiet(t, n) && OnlyRow(t.board, n.board, task)
            && RowSays(n.board.projections[task], ev.session, ReducedBy(t, ev).state, folder.present,
                    Summarize(folder.capture), |t.inbox.events| + 1)
            && n.board.projections[task].generation
               == (if task in t.board.projections then t.board.projections[task].generation else 0)
  {
    WrittenKeeps(t, ev, folder);
    SummariesAreReportable(folder.capture);
    var s := Summarize(folder.capture);
    ReasonMeans(ReducedBy(t, ev).state.availability, s.state, s.verdict);
  }

  /** The session row an accepted event leaves: its state reduced by exactly this event. */
  ghost predicate SessionWritten(t: Tables, n: Tables, ev: Envelope) {
    && n.inbox.events == t.inbox.events + [ev]
    && ev.session in n.inbox.sessions && n.inbox.sessions.Keys == t.inbox.sessions.Keys + {ev.session}
    && n.inbox.order == (if ev.session in t.inbox.sessions then t.inbox.order else t.inbox.order + [ev.session])
    && (forall s :: s in t.inbox.sessions && s != ev.session ==> n.inbox.sessions[s] == t.inbox.sessions[s])
    && SessionState(n.inbox, ev.session)
       == Lifecycle.Reduce(SessionState(t.inbox, ev.session), Lifecycle.Event(ev.seqno, ev.kind)).state
    && var row := n.inbox.sessions[ev.session];
    && row.identity == ev.identity && row.lastEvent == |t.inbox.events| + 1
    && row.registered == (ev.kind.SessionRegister?
                          || (ev.session in t.inbox.sessions && t.inbox.sessions[ev.session].registered))
  }

  lemma SessionIsWritten(t: Tables, ev: Envelope)
    ensures SessionWritten(t, t.(inbox := InboxAfter(t, ev)), ev)
  {
    Lifecycle.DocumentRoundTrip(ReducedBy(t, ev).state);
  }

  lemma TakesThrough(t: Tables, n: Tables, m: Tables, task: TaskId, reason: Reason, urgent: bool)
    requires Quiet(t, n) && Takes(n, m, task, reason, urgent)
    ensures Takes(t, m, task, reason, urgent)
  {
  }

  lemma OnlyRowThrough(b: Board, n: Board, m: Board, task: TaskId, q: Projection)
    requires OnlyRow(b, n, task) && m.projections == n.projections[task := q]
    ensures OnlyRow(b, m, task) && m.projections[task] == q
  {
  }

  /** Taking a generation after writing one row, seen from the tables before the write. */
  lemma WriteThenTake(t: Tables, n: Tables, c: Change)
    requires StoreInv(n) && ChangeLegal(n.board, c) && Quiet(t, n) && OnlyRow(t.board, n.board, c.task)
    ensures BumpAll(n, c).Some?
    ensures var m := BumpAll(n, c).value;
            && Takes(t, m, c.task, c.reason, c.priority == Urgent) && OnlyRow(t.board, m.board, c.task)
            && m.inbox == n.inbox
            && m.board.projections[c.task] == n.board.projections[c.task].(generation := t.board.latest + 1)
  {
    BumpTakes(n, c);
    var m := BumpAll(n, c).value;
    TakesThrough(t, n, m, c.task, c.reason, c.priority == Urgent);
    OnlyRowThrough(t.board, n.board, m.board, c.task, n.board.projections[c.task].(generation := m.board.latest));
  }

  function RowBefore(b: Board, task: TaskId): Option<Projection> {
    if task in b.projections then Some(b.projections[task]) else None
  }

  /** What the row q and the tables n hold of an accepted event, and the generation its answer names. */
  ghost predicate AcceptedAs(t: Tables, n: Tables, ev: Envelope, task: TaskId, q: Projection, answer: Option<nat>) {
    var before := RowBefore(t.board, task);
    if Wakes(ev, before, q) then
      && answer == Some(t.board.latest + 1) && q.generation == t.board.latest + 1
      && Takes(t, n, task, WakeReason(ev, before, q), IsUrgent(ev, before, q))
    else
      && answer == None && q.generation == (if before.Some? then before.value.generation else 0)
      && Quiet(t, n)
  }

  lemma GenerationIsNoNews(ev: Envelope, before: Option<Projection>, q: Projection, g: nat)
    ensures var p := q.(generation := g);
            && Wakes(ev, before, p) == Wakes(ev, before, q) && WakeReason(ev, before, p) == WakeReason(ev, before, q)
            && IsUrgent(ev, before, p) == IsUrgent(ev, before, q)
  {
  }

  /** Tables m are tables n with the next generation taken for the row of the task. */
  ghost predicate TakenFor(t: Tables, n: Tables, m: Tables, ev: Envelope, task: TaskId)
    requires task in n.board.projections
  {
    && m.inbox == n.inbox && OnlyRow(t.board, m.board, task)
    && m.board.projections[task] == n.board.projections[task].(generation := t.board.latest + 1)
    && AcceptedAs(t, m, ev, task, m.board.projections[task], Some(t.board.latest + 1))
  }

  lemma WokenIsAccepted(t: Tables, n: Tables, ev: Envelope, task: TaskId, c: Change)
    requires StoreInv(n) && Quiet(t, n) && OnlyRow(t.board, n.board, task)
    requires var q, before := n.board.projections[task], RowBefore(t.board, task);
             && Wakes(ev, before, q)
             && c == Change(task, WakeReason(ev, before, q), if IsUrgent(ev, before, q) then Urgent else Normal,
                            ReportEnded(ev, before, q))
    ensures BumpAll(n, c).Some? && BumpAll(n, c).value.board.latest == t.board.latest + 1
    ensures TakenFor(t, n, BumpAll(n, c).value, ev, task)
  {
    WriteThenTake(t, n, c);
    GenerationIsNoNews(ev, RowBefore(t.board, task), n.board.projections[task], t.board.latest + 1);
  }

  lemma WrittenIsAccepted(t: Tables, n: Tables, ev: Envelope, task: TaskId)
    requires StoreInv(n) && ev.identity.task == Some(task) && Quiet(t, n) && OnlyRow(t.board, n.board, task)
    requires var q := n.board.projections[task]; var before := RowBefore(t.board, task);
             && ReasonSays(q.reason, q.availability, q.reportState, q.verdict)
             && q.generation == (if before.Some? then before.value.generation else 0)
    ensures match BumpedBy(t, n, ev)
            case None => ChangeBetween(t, n, ev).None? && AcceptedAs(t, n, ev, task, n.board.projections[task], None)
            case Some(m) => m.board.latest == t.board.latest + 1 && TakenFor(t, n, m, ev, task)
  {
    var q, before := n.board.projections[task], RowBefore(t.board, task);
    ChangeMeans(ev, task, before, q);
    if Wakes(ev, before, q) {
      WokenIsAccepted(t, n, ev, task, ChangeBetween(t, n, ev).value);
    }
  }

  /**
   * A fresh, admissible event is accepted under the next durable number. It
   * takes a generation iff the row it writes wakes the drivers, and then
   * exactly one, of its own task, with the reason and priority of that row.
   */
  lemma AcceptedMeans(t: Tables, ev: Envelope, folder: Folder)
    requires StoreInv(t) && Find(t.inbox.events, ev.id).None? && Obstacle(t, ev).None? && WritesRow(t, ev)
    ensures var (n, r) := AcceptEvent(t, ev, folder);
            && r.Accept? && r.result.durable == |t.inbox.events| + 1 && !r.result.duplicate
            && SessionWritten(t, n, ev)
            && var task := ev.identity.task.value;
            && OnlyRow(t.board, n.board, task)
            && var q := n.board.projections[task];
            && RowSays(q, ev.session, SessionState(n.inbox, ev.session), folder.present, Summarize(folder.capture),
                       |t.inbox.events| + 1)
            && AcceptedAs(t, n, ev, task, q, r.result.generation)
  {
    FreshOutcome(t, ev, folder);
    WrittenKeeps(t, ev, folder);
    RowIsWritten(t, ev, folder);
    SessionIsWritten(t, ev);
    WrittenIsAccepted(t, Written(t, ev, folder).value, ev, ev.identity.task.value);
  }

  /** Any other fresh, admissible event writes its session row only. */
  lemma OthersWriteNoRow(t: Tables, ev: Envelope, folder: Folder)
    requires StoreInv(t) && Find(t.inbox.events, ev.id).None? && Obstacle(t, ev).None? && !WritesRow(t, ev)
    ensures var (n, r) := AcceptEvent(t, ev, folder);
            && SessionWritten(t, n, ev) && n.board == t.board && n.desk == t.desk
            && r == Accept(Accepted(|t.inbox.events| + 1, false, None))
  {
    FreshOutcome(t, ev, folder);
    SessionIsWritten(t, ev);
  }

  /** An event id that was logged before is a duplicate if its envelope is the same, and a conflict if not. */
  lemma RepeatMeans(t: Tables, ev: Envelope, folder: Folder, i: nat)
    requires StoreInv(t) && i < |t.inbox.events| && t.inbox.events[i].id == ev.id
    ensures AcceptEvent(t, ev, folder)
            == (t, if t.inbox.events[i] == ev then Accept(Accepted(i + 1, true, None)) else Reject(ConflictingEnvelope))
  {
    assert Find(t.inbox.events, ev.id) == Some(i);
  }

  lemma ObstacleMeans(t: Tables, ev: Envelope)
    ensures var o, crew := Obstacle(t, ev), ev.identity.role.Crew?;
            var moved := ev.session in t.inbox.sessions && t.inbox.sessions[ev.session].identity != ev.identity;
            var proper := ev.identity.task.Some? == crew && ev.identity.driver.None? == crew;
            && (o == Some(BadSequence) <==> ev.seqno <= 0)
            && (o == Some(ImmutableIdentity) <==> ev.seqno > 0 && moved)
            && (o == Some(InvalidIdentity) <==> ev.seqno > 0 && !moved && !proper)
            && (o == None <==> ev.seqno > 0 && !moved && proper)
  {
  }

  /** A new event is rejected for its number, a changed identity or an improper one, in this order, and only for these. */
  lemma RejectedMeans(t: Tables, ev: Envelope, folder: Folder)
    requires StoreInv(t) && forall i :: 0 <= i < |t.inbox.events| ==> t.inbox.events[i].id != ev.id
    ensures var (n, r) := AcceptEvent(t, ev, folder);
            var moved := ev.session in t.inbox.sessions && t.inbox.sessions[ev.session].identity != ev.identity;
            var crew := ev.identity.role.Crew?;
            var proper := ev.identity.task.Some? == crew && ev.identity.driver.None? == crew;
            && (r == Reject(BadSequence) <==> ev.seqno <= 0)
            && (r == Reject(ImmutableIdentity) <==> ev.seqno > 0 && moved)
            && (r == Reject(InvalidIdentity) <==> ev.seqno > 0 && !moved && !proper)
            && (r.Accept? <==> ev.seqno > 0 && !moved && proper)
            && (r.Reject? ==> n == t)
  {
    assert Find(t.inbox.events, ev.id).None?;
    AcceptFresh(t, ev, folder);
    ObstacleMeans(t, ev);
  }

  // ---- host observations ---------------------------------------------------------------------

  /**
   * What the host's facts change of a session's state: a pane level decides
   * whether it counts as gone, an adapter level voids both axes, and an
   * unknown level leaves everything as it was.
   */
  lemma ObservationMeans(s: Lifecycle.State, pane: Option<bool>, adapter: Option<bool>)
    ensures var n := Observed(s, pane, adapter);
            && n.producerSeq == s.producerSeq && n.pending == s.pending && n.sequenceGap == s.sequenceGap
            && n.sessionEnded == s.sessionEnded
            && n.sessionGone == (if pane.Some? then s.sessionEnded || !pane.value else s.sessionGone)
            && n.adapterConnected == (if adapter.Some? then adapter.value else s.adapterConnected)
            && n.front == (if adapter.Some? then s.front.(isFresh := false) else s.front)
            && n.back == (if adapter.Some? then s.back.(isFresh := false, certified := false) else s.back)
            && (pane == None && adapter == None ==> n == s)
            && (pane.Some? || adapter.Some? ==> (n.availability == Lifecycle.Gone <==> n.sessionEnded || n.sessionGone))
            && (adapter.Some? ==> n.availability in {Lifecycle.Gone, Lifecycle.Unknown})
  {
  }

  /** The refreshed row: the session's availability and axes, the report as it was, and the reason the two give. */
  predicate RowRefreshed(p: Projection, q: Projection, s: Lifecycle.State, pane: Option<bool>) {
    && q.availability == s.availability && q.reportState == p.reportState && q.verdict == p.verdict
    && q.lastEvent == p.lastEvent
    && q.detail == Detail(p.detail.folderPresent, p.detail.session, s.front.foreground, s.back.background,
                          s.back.ActiveCount(), s.availability, if pane.Some? then pane else p.detail.paneExists,
                          p.detail.report)
    && ReasonSays(q.reason, q.availability, q.reportState, q.verdict)
  }

  /** The observation enters an actionable reason, or is the loss of a connected adapter. */
  predicate IsEdge(before: Reason, after: Reason, lost: bool) { (after != NoReason && after != before) || lost }

  /** A lost adapter wakes a driver even where the row gives no reason. */
  function EdgeReason(after: Reason, lost: bool): Reason { if lost && after == NoReason then UnknownTask else after }

  lemma EdgeMeans(task: TaskId, before: Reason, after: Reason, lost: bool)
    ensures EdgeFor(task, before, after, lost)
            == if !IsEdge(before, after, lost) then None
               else Some(Change(task, EdgeReason(after, lost),
                                PriorityOf(EdgeReason(after, lost) in {GoneTask, BlockedTask, FailedTask, NeedsActionTask}),
                                after == NoReason))
  {
  }

  lemma LegalIsReportable(p: Projection)
    requires TupleLegal(p)
    ensures Reportable(p.reportState, p.verdict)
  {
    MatrixIsExact(p.reportState, p.verdict, p.reason);
  }

  lemma RowIsRefreshed(t: Tables, session: SessionId, task: TaskId, pane: Option<bool>, adapter: Option<bool>)
    requires StoreInv(t) && session in t.inbox.sessions && task in t.board.projections
    ensures LivenessWritten(t, session, task, pane, adapter).Some?
    ensures var n := LivenessWritten(t, session, task, pane, adapter).value;
            var s := Observed(SessionState(t.inbox, session), pane, adapter);
            && Quiet(t, n) && OnlyRow(t.board, n.board, task) && n.inbox == SessionObserved(t.inbox, session, s)
            && RowRefreshed(t.board.projections[task], n.board.projections[task], s, pane)
            && n.board.projections[task].generation == t.board.projections[task].generation
  {
    LivenessWrittenKeeps(t, session, task, pane, adapter);
    var p := t.board.projections[task];
    assert ProjectionLegal(p, t.board.latest);
    var s := Observed(SessionState(t.inbox, session), pane, adapter);
    LegalIsReportable(p);
    ReasonMeans(s.availability, p.reportState, p.verdict);
  }

  /** The inbox with one session at another state: no other column and no other row differs. */
  function SessionObserved(inbox: Inbox, session: SessionId, s: Lifecycle.State): Inbox
    requires session in inbox.sessions
  {
    inbox.(sessions := inbox.sessions[session := inbox.sessions[session].(document := Lifecycle.ToDocument(s))])
  }

  /** Tables m are the refreshed tables n, with a generation taken iff the refresh was an edge. */
  ghost predicate EdgeTaken(t: Tables, n: Tables, m: Tables, task: TaskId, lost: bool)
    requires task in t.board.projections && task in n.board.projections
  {
    var p, q := t.board.projections[task], n.board.projections[task];
    && m.inbox == n.inbox && OnlyRow(t.board, m.board, task)
    && if IsEdge(p.reason, q.reason, lost) then
         var reason := EdgeReason(q.reason, lost);
         && m.board.projections[task] == q.(generation := t.board.latest + 1)
         && Takes(t, m, task, reason, reason in {GoneTask, BlockedTask, FailedTask, NeedsActionTask})
       else m == n && Quiet(t, m)
  }

  lemma EdgeIsTaken(t: Tables, n: Tables, task: TaskId, lost: bool)
    requires task in t.board.projections && StoreInv(n) && Quiet(t, n) && OnlyRow(t.board, n.board, task)
    ensures var c := EdgeFor(task, t.board.projections[task].reason, n.board.projections[task].reason, lost);
            && (c.None? ==> EdgeTaken(t, n, n, task, lost))
            && (c.Some? ==> BumpAll(n, c.value).Some? && EdgeTaken(t, n, BumpAll(n, c.value).value, task, lost))
  {
    var p, q := t.board.projections[task], n.board.projections[task];
    EdgeMeans(task, p.reason, q.reason, lost);
    var c := EdgeFor(task, p.reason, q.reason, lost);
    if c.Some? {
      WriteThenTake(t, n, c.value);
    }
  }

  /**
   * One row of a host observation: the session moves as observed, its task's
   * row is refreshed, and the drivers are woken iff that is an edge.
   */
  lemma ObservedRowMeans(t: Tables, session: SessionId, task: TaskId, pane: Option<bool>, adapter: Option<bool>)
    requires StoreInv(t) && session in t.inbox.sessions && task in t.board.projections
    ensures LivenessRow(t, session, task, pane, adapter).Some?
    ensures var n := LivenessRow(t, session, task, pane, adapter).value;
            var p, s := t.board.projections[task], Observed(SessionState(t.inbox, session), pane, adapter);
            var lost := adapter == Some(false) && SessionState(t.inbox, session).adapterConnected;
            && n.inbox == SessionObserved(t.inbox, session, s) && OnlyRow(t.board, n.board, task)
            && var q := n.board.projections[task];
            && RowRefreshed(p, q, s, pane)
            && if IsEdge(p.reason, q.reason, lost) then
                 var reason := EdgeReason(q.reason, lost);
                 && q.generation == t.board.latest + 1
                 && Takes(t, n, task, reason, reason in {GoneTask, BlockedTask, FailedTask, NeedsActionTask})
               else q.generation == p.generation && Quiet(t, n)
  {
    RowIsRefreshed(t, session, task, pane, adapter);
    LivenessWrittenKeeps(t, session, task, pane, adapter);
    EdgeIsTaken(t, LivenessWritten(t, session, task, pane, adapter).value, task,
                adapter == Some(false) && SessionState(t.inbox, session).adapterConnected);
  }
}
