/**
 * The whole durable store: the event log and session rows, the generation
 * board, and the driver desk, with every transaction that writes them.
 */
module Store {
  import opened Common
  import opened Report
  import opened Generations
  import opened Delivery
  import Lifecycle
  import Order = LifecycleOrder

  datatype Role = Crew | Watchtower

  datatype Identity = Identity(harness: Harness, role: Role, task: Option<TaskId>, driver: Option<DriverId>)
  {
    /** A crew session names a task and no driver; a watchtower session the reverse. */
    predicate Valid() {
      match role
      case Crew => task.Some? && driver.None?
      case Watchtower => task.None? && driver.Some?
    }
  }

  /** A producer envelope; its identity fields and number are part of what must not change. */
  datatype Envelope = Envelope(id: string, session: SessionId, identity: Identity, seqno: int, kind: Lifecycle.Kind)

  datatype SessionRow = SessionRow(identity: Identity, document: Lifecycle.Document, registered: bool, lastEvent: nat)

  /** events: position i holds durable sequence i + 1; order: session rows in insertion order. */
  datatype Inbox = Inbox(events: seq<Envelope>, sessions: map<SessionId, SessionRow>, order: seq<SessionId>)

  datatype Tables = Tables(inbox: Inbox, board: Board, desk: Desk)

  const EMPTY_STORE := Tables(Inbox([], map[], []), EMPTY, VACANT)

  datatype Accepted = Accepted(durable: nat, duplicate: bool, generation: Option<nat>)

  datatype Rejection = ConflictingEnvelope | BadSequence | ImmutableIdentity | InvalidIdentity | NoVerdict | BoardConflict

  datatype Acceptance = Accept(result: Accepted) | Reject(why: Rejection)

  // ---- accepting an event -----------------------------------------------------

  /** The stored position of an event id. */
  function Find(events: seq<Envelope>, id: string): (r: Option<nat>)
    ensures r.Some? ==> r.value < |events| && events[r.value].id == id
    ensures r.None? ==> forall i :: 0 <= i < |events| ==> events[i].id != id
  {
    if events == [] then None
    else if events[|events| - 1].id == id then Some(|events| - 1)
    else Find(events[..|events| - 1], id)
  }

  function SessionState(inbox: Inbox, session: SessionId): Lifecycle.State {
    if session in inbox.sessions then Lifecycle.FromDocument(inbox.sessions[session].document) else Lifecycle.INITIAL
  }

  function Persist(inbox: Inbox, ev: Envelope, state: Lifecycle.State, registered: bool): Inbox {
    var row := SessionRow(ev.identity, Lifecycle.ToDocument(state), registered, |inbox.events|);
    inbox.(sessions := inbox.sessions[ev.session := row],
           order := if ev.session in inbox.sessions then inbox.order else inbox.order + [ev.session])
  }

  function ProjectionOf(ev: Envelope, durable: nat, state: Lifecycle.State, folder: Folder, reason: Reason): Projection {
    var summary := Summarize(folder.capture);
    Projection(state.availability, summary.state, summary.verdict, reason, 0, durable,
               Detail(folder.present, ev.session, state.front.foreground, state.back.background,
                      state.back.ActiveCount(), state.availability, None, summary))
  }

  /** What makes two projection rows count as different for a wake. */
  predicate SameRow(p: Projection, q: Projection) {
    && p.availability == q.availability && p.reportState == q.reportState && p.verdict == q.verdict
    && p.reason == q.reason && p.detail == q.detail
  }

  function PriorityOf(urgent: bool): Priority { if urgent then Urgent else Normal }

  /** The wake an accepted event of a task causes, from its projection before and after. */
  function ChangeFor(ev: Envelope, task: TaskId, before: Option<Projection>, after: Option<Projection>): Option<Change> {
    match after
    case None => None
    case Some(p) =>
      var startup := ev.identity.harness in {Pi, Codex} && p.reason == MissingReport
                     && (ev.kind.SessionRegister? || (ev.kind.TurnStart? && p.availability.Busy?));
      var nativeReport := ev.identity.harness == Codex && ev.kind.TurnStop? && p.reportState == Valid
                          && (before.None? || before.value.reportState != p.reportState || before.value.verdict != p.verdict);
      if nativeReport then
        Some(Change(task, NativeTurnEnded, PriorityOf(p.verdict in {BLOCKED, FAILED, NEEDS_ACTION}), true))
      else if !startup && p.reason != NoReason && (before.None? || !SameRow(before.value, p)) then
        Some(Change(task, p.reason, PriorityOf(p.reason in {BlockedTask, FailedTask, NeedsActionTask}), false))
      else None
  }

  function Projected(b: Board, task: TaskId): Option<Projection> {
    if task in b.projections then Some(b.projections[task]) else None
  }

  function BumpAll(t: Tables, c: Change): Option<Tables> {
    match Bump(t.board, c)
    case None => None
    case Some(b) => Some(t.(board := b, desk := Advance(t.desk, b.latest)))
  }

  /** Write the crew task's projection, as the reducer transaction does for registered sessions. */
  function WriteProjection(b: Board, ev: Envelope, durable: nat, state: Lifecycle.State, registered: bool,
                           folder: Folder): Option<Board>
  {
    if registered && ev.identity.role.Crew? && ev.identity.task.Some? then
      var summary := Summarize(folder.capture);
      match ActionableReason(state.availability, summary.state, summary.verdict)
      case None => None
      case Some(reason) => Some(Upsert(b, ev.identity.task.value, ProjectionOf(ev, durable, state, folder, reason)))
    else Some(b)
  }

  function ReducedBy(t: Tables, ev: Envelope): Lifecycle.Reduction {
    Lifecycle.Reduce(SessionState(t.inbox, ev.session), Lifecycle.Event(ev.seqno, ev.kind))
  }

  function RegisteredBy(t: Tables, ev: Envelope): bool {
    ev.kind.SessionRegister? || (ev.session in t.inbox.sessions && t.inbox.sessions[ev.session].registered)
  }

  /** Why an envelope that is not a duplicate cannot be applied, if it cannot. */
  function Obstacle(t: Tables, ev: Envelope): Option<Rejection> {
    if ReducedBy(t, ev).disposition.InvalidSeq? then Some(BadSequence)
    else if ev.session in t.inbox.sessions && t.inbox.sessions[ev.session].identity != ev.identity then Some(ImmutableIdentity)
    else if !ev.identity.Valid() then Some(InvalidIdentity)
    else None
  }

  function InboxAfter(t: Tables, ev: Envelope): Inbox {
    Persist(t.inbox.(events := t.inbox.events + [ev]), ev, ReducedBy(t, ev).state, RegisteredBy(t, ev))
  }

  /** The event row, session row and projection of a fresh envelope. */
  function Written(t: Tables, ev: Envelope, folder: Folder): Option<Tables> {
    match WriteProjection(t.board, ev, |t.inbox.events| + 1, ReducedBy(t, ev).state, RegisteredBy(t, ev), folder)
    case None => None
    case Some(board) => Some(Tables(InboxAfter(t, ev), board, t.desk))
  }

  function ChangeBetween(t: Tables, n: Tables, ev: Envelope): Option<Change> {
    if ev.identity.task.None? then None
    else
      var task := ev.identity.task.value;
      ChangeFor(ev, task, Projected(t.board, task), Projected(n.board, task))
  }

  /** Durably accept once; a duplicate changes nothing, and a rejected event leaves no trace. */
  function AcceptEvent(t: Tables, ev: Envelope, folder: Folder): (Tables, Acceptance) {
    match Find(t.inbox.events, ev.id)
    case Some(i) =>
      if t.inbox.events[i] == ev then (t, Accept(Accepted(i + 1, true, None)))
      else (t, Reject(ConflictingEnvelope))
    case None =>
      if Obstacle(t, ev).Some? then (t, Reject(Obstacle(t, ev).value))
      else
        match Written(t, ev, folder)
        case None => (t, Reject(NoVerdict))
        case Some(n) =>
          match ChangeBetween(t, n, ev)
          case None => (n, Accept(Accepted(|t.inbox.events| + 1, false, None)))
          case Some(c) =>
            match BumpAll(n, c)
            case None => (t, Reject(BoardConflict))
            case Some(m) => (m, Accept(Accepted(|t.inbox.events| + 1, false, Some(m.board.latest))))
  }

  // ---- host liveness ----------------------------------------------------------

  /** The sessions of a task, in row order. */
  function SessionsOf(inbox: Inbox, task: TaskId): seq<SessionId> { Matching(inbox, inbox.order, task) }

  function Matching(inbox: Inbox, order: seq<SessionId>, task: TaskId): seq<SessionId> {
    if order == [] then []
    else
      var s := order[0];
      (if s in inbox.sessions && inbox.sessions[s].identity.task == Some(task) then [s] else [])
      + Matching(inbox, order[1..], task)
  }

  function Observed(s: Lifecycle.State, pane: Option<bool>, adapter: Option<bool>): Lifecycle.State {
    var hosted := if pane.Some? then Lifecycle.ObserveGone(s, !pane.value) else s;
    if adapter.Some? then Lifecycle.SetAdapterConnected(hosted, adapter.value) else hosted
  }

  /** Refresh the projection's availability facts; None when no reason exists for its report. */
  function Refresh(p: Projection, s: Lifecycle.State, pane: Option<bool>): Option<Projection> {
    var detail := p.detail.(foreground := s.front.foreground, background := s.back.background,
                            backgroundCount := s.back.ActiveCount(), availability := s.availability,
                            paneExists := if pane.Some? then pane else p.detail.paneExists);
    match ActionableReason(s.availability, detail.report.state, detail.report.verdict)
    case None => None
    case Some(reason) => Some(p.(availability := s.availability, reason := reason, detail := detail))
  }

  /** The edge a refreshed projection causes, if any. */
  function EdgeFor(task: TaskId, before: Reason, after: Reason, disconnected: bool): Option<Change> {
    if (after != NoReason && before != after) || disconnected then
      var edge := if disconnected && after == NoReason then UnknownTask else after;
      Some(Change(task, edge, PriorityOf(edge in {GoneTask, BlockedTask, FailedTask, NeedsActionTask}), edge != after))
    else None
  }

  /** The session row and the projection after an observation; None when no reason exists. */
  function LivenessWritten(t: Tables, session: SessionId, task: TaskId, pane: Option<bool>, adapter: Option<bool>): Option<Tables> {
    if session !in t.inbox.sessions then Some(t)
    else
      var row := t.inbox.sessions[session];
      var state := Observed(Lifecycle.FromDocument(row.document), pane, adapter);
      var inbox := t.inbox.(sessions := t.inbox.sessions[session := row.(document := Lifecycle.ToDocument(state))]);
      if task !in t.board.projections then Some(t.(inbox := inbox))
      else
        match Refresh(t.board.projections[task], state, pane)
        case None => None
        case Some(q) => Some(Tables(inbox, t.board.(projections := t.board.projections[task := q]), t.desk))
  }

  /** The edge that the observation caused between the tables before and after writing it. */
  function LivenessEdge(t: Tables, n: Tables, session: SessionId, task: TaskId, adapter: Option<bool>): Option<Change> {
    if session in t.inbox.sessions && task in t.board.projections && task in n.board.projections then
      EdgeFor(task, t.board.projections[task].reason, n.board.projections[task].reason,
              adapter == Some(false) && Lifecycle.FromDocument(t.inbox.sessions[session].document).adapterConnected)
    else None
  }

  /** One session row of a liveness observation; None aborts the transaction. */
  function LivenessRow(t: Tables, session: SessionId, task: TaskId, pane: Option<bool>, adapter: Option<bool>): Option<Tables> {
    match LivenessWritten(t, session, task, pane, adapter)
    case None => None
    case Some(n) =>
      match LivenessEdge(t, n, session, task, adapter)
      case None => Some(n)
      case Some(c) => BumpAll(n, c)
  }

  function LivenessRows(t: Tables, rows: seq<SessionId>, task: TaskId, pane: Option<bool>, adapter: Option<bool>): Option<Tables>
    decreases |rows|
  {
    if rows == [] then Some(t)
    else
      match LivenessRow(t, rows[0], task, pane, adapter)
      case None => None
      case Some(n) => LivenessRows(n, rows[1..], task, pane, adapter)
  }

  /** Apply certified host facts to every session of the task in one transaction. */
  function ReconcileLiveness(t: Tables, task: TaskId, pane: Option<bool>, adapter: Option<bool>): Tables {
    match LivenessRows(t, SessionsOf(t.inbox, task), task, pane, adapter)
    case None => t
    case Some(n) => n
  }

  // ---- every transaction --------------------------------------------------------

  datatype Step =
    | AcceptStep(ev: Envelope, folder: Folder)
    | LivenessStep(task: TaskId, pane: Option<bool>, adapter: Option<bool>)
    | RegisterStep(d: DriverId, session: SessionId, harness: Harness)
    | OfferStep(d: DriverId, session: SessionId, epoch: Epoch)
    | WithdrawStep(d: DriverId, session: SessionId, epoch: Epoch, gen: nat)
    | RecordStep(d: DriverId, session: SessionId, epoch: Epoch, gen: nat, state: DeliveryState, error: Option<string>)
    | ConfirmStep(d: DriverId, session: SessionId, epoch: Epoch, gen: nat)
    | ReconcileStep(d: DriverId, full: bool)
    | AckDeliveredStep(d: DriverId, through: nat)
    | AckGenerationStep(d: DriverId, session: SessionId, epoch: Epoch, through: nat)
    | DisableStep(d: DriverId)

  function DeskStep(b: Board, k: Desk, step: Step): Desk
    requires !step.AcceptStep? && !step.LivenessStep?
  {
    match step
    case RegisterStep(d, session, harness) => Register(b.latest, k, d, session, harness).desk
    case OfferStep(d, session, e) => OfferNotification(b, k, d, session, e).desk
    case WithdrawStep(d, session, e, g) => Withdraw(k, d, session, e, g).desk
    case RecordStep(d, session, e, g, state, error) => RecordOutcome(k, d, session, e, g, state, error).desk
    case ConfirmStep(d, session, e, g) => ConfirmDelivery(k, d, session, e, g).desk
    case ReconcileStep(d, full) => ReconcileDelivered(b, k, d, full).desk
    case AckDeliveredStep(d, through) => AckDelivered(k, d, through).desk
    case AckGenerationStep(d, session, e, through) => AckGeneration(k, d, session, e, through).desk
    case DisableStep(d) => Disable(k, d).desk
  }

  function Next(t: Tables, step: Step): Tables {
    match step
    case AcceptStep(ev, folder) => AcceptEvent(t, ev, folder).0
    case LivenessStep(task, pane, adapter) => ReconcileLiveness(t, task, pane, adapter)
    case _ => t.(desk := DeskStep(t.board, t.desk, step))
  }

  /** The store after a run of transactions from an empty database. */
  function After(steps: seq<Step>): Tables {
    if steps == [] then EMPTY_STORE else Next(After(steps[..|steps| - 1]), steps[|steps| - 1])
  }
}
