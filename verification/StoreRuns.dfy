/** Safety of the store over every run of its transactions from an empty database. */
module StoreRuns {
  import opened Common
  import opened Report
  import opened Generations
  import opened Delivery
  import opened Store
  import opened DeliveryFacts
  import Lifecycle
  import Order = LifecycleOrder

  ghost predicate UniqueIds(events: seq<Envelope>) {
    forall i, j :: 0 <= i < j < |events| ==> events[i].id != events[j].id
  }

  ghost predicate StoreInv(t: Tables) {
    BoardInv(t.board) && DeskInv(t.board.latest, t.desk) && UniqueIds(t.inbox.events)
  }

  lemma EmptyInv()
    ensures StoreInv(EMPTY_STORE)
  {
    VacantInv();
  }

  // ---- board and desk move together ----------------------------------------------

  lemma BumpAllKeeps(t: Tables, c: Change)
    requires BoardInv(t.board) && DeskInv(t.board.latest, t.desk) && ChangeLegal(t.board, c)
    ensures BumpAll(t, c).Some?
    ensures var n := BumpAll(t, c).value;
            && BoardInv(n.board) && DeskInv(n.board.latest, n.desk) && Extends(t.board, n.board)
            && n.inbox == t.inbox && n.desk == Advance(t.desk, n.board.latest)
  {
    BumpNeverCollides(t.board, c);
    BumpKeepsInv(t.board, c);
    BumpExtends(t.board, c);
    AdvanceKeepsInv(t.board.latest, t.desk, Bump(t.board, c).value.latest);
  }

  /** A legal bump of tables that extend t: still a sound store, and still an extension of t. */
  lemma BumpedStoreKeeps(t: Tables, n: Tables, c: Change)
    requires StoreInv(n) && Extends(t.board, n.board) && ChangeLegal(n.board, c)
    ensures BumpAll(n, c).Some?
    ensures var m := BumpAll(n, c).value;
            StoreInv(m) && Extends(t.board, m.board) && m.inbox == n.inbox && m.desk == Advance(n.desk, m.board.latest)
  {
    BumpAllKeeps(n, c);
    ExtendsTransitive(t.board, n.board, BumpAll(n, c).value.board);
  }

  lemma PutProjection(b: Board, task: TaskId, p: Projection)
    requires BoardInv(b) && ProjectionLegal(p, b.latest)
    ensures var n := b.(projections := b.projections[task := p]); BoardInv(n) && Extends(b, n)
  {
    var n := b.(projections := b.projections[task := p]);
    forall g | 1 <= g <= n.latest ensures Bumped(n, g) { assert Bumped(b, g); }
  }

  // ---- accepting --------------------------------------------------------------------

  lemma WriteProjectionKeeps(b: Board, ev: Envelope, durable: nat, state: Lifecycle.State, registered: bool, folder: Folder)
    requires BoardInv(b)
    ensures WriteProjection(b, ev, durable, state, registered, folder).Some?
    ensures var n := WriteProjection(b, ev, durable, state, registered, folder).value;
            BoardInv(n) && Extends(b, n) && n.latest == b.latest
  {
    if registered && ev.identity.role.Crew? && ev.identity.task.Some? {
      ReasonNeverRaises(state.availability, folder.capture);
      var s := Summarize(folder.capture);
      var p := ProjectionOf(ev, durable, state, folder, ActionableReason(state.availability, s.state, s.verdict).value);
      assert TupleLegal(p);
      UpsertKeepsInv(b, ev.identity.task.value, p);
    }
  }

  lemma ChangeIsLegal(ev: Envelope, task: TaskId, before: Option<Projection>, b: Board)
    requires ChangeFor(ev, task, before, Projected(b, task)).Some?
    ensures ChangeLegal(b, ChangeFor(ev, task, before, Projected(b, task)).value)
  {
  }

  lemma UniqueSnoc(events: seq<Envelope>, ev: Envelope)
    requires UniqueIds(events) && Find(events, ev.id).None?
    ensures UniqueIds(events + [ev])
  {
  }

  lemma PutTogether(t: Tables, inbox: Inbox, board: Board)
    requires StoreInv(t) && BoardInv(board) && board.latest == t.board.latest && UniqueIds(inbox.events)
    ensures StoreInv(Tables(inbox, board, t.desk))
  {
  }

  lemma LoggedLast(t: Tables, ev: Envelope)
    ensures InboxAfter(t, ev).events == t.inbox.events + [ev]
  {
  }

  /** The board after writing the projection of a fresh envelope. */
  function BoardAfter(t: Tables, ev: Envelope, folder: Folder): Option<Board> {
    WriteProjection(t.board, ev, |t.inbox.events| + 1, ReducedBy(t, ev).state, RegisteredBy(t, ev), folder)
  }

  lemma WrittenIs(t: Tables, ev: Envelope, folder: Folder)
    requires BoardAfter(t, ev, folder).Some?
    ensures Written(t, ev, folder) == Some(Tables(InboxAfter(t, ev), BoardAfter(t, ev, folder).value, t.desk))
  {
  }

  lemma BoardAfterKeeps(t: Tables, ev: Envelope, folder: Folder)
    requires BoardInv(t.board)
    ensures var b := BoardAfter(t, ev, folder);
            b.Some? && BoardInv(b.value) && Extends(t.board, b.value) && b.value.latest == t.board.latest
  {
    WriteProjectionKeeps(t.board, ev, |t.inbox.events| + 1, ReducedBy(t, ev).state, RegisteredBy(t, ev), folder);
  }

  lemma WrittenKeeps(t: Tables, ev: Envelope, folder: Folder)
    requires StoreInv(t) && Find(t.inbox.events, ev.id).None?
    ensures Written(t, ev, folder).Some?
    ensures var n := Written(t, ev, folder).value;
            StoreInv(n) && Extends(t.board, n.board) && n.inbox == InboxAfter(t, ev) && n.desk == t.desk
  {
    BoardAfterKeeps(t, ev, folder);
    WrittenIs(t, ev, folder);
    UniqueSnoc(t.inbox.events, ev);
    LoggedLast(t, ev);
    PutTogether(t, InboxAfter(t, ev), BoardAfter(t, ev, folder).value);
  }

  /** The desk differs at most in the latest cursor, which a bump raises. */
  ghost predicate OnlyAdvanced(k: Desk, n: Desk, latest: nat) { n == k || n == Advance(k, latest) }

  /**
   * A fresh envelope is rejected exactly for its number or its identity: no
   * reason is ever missing and no board key ever collides.
   */
  lemma AcceptFresh(t: Tables, ev: Envelope, folder: Folder)
    requires StoreInv(t) && Find(t.inbox.events, ev.id).None?
    ensures var r := AcceptEvent(t, ev, folder);
            if Obstacle(t, ev).Some? then r == (t, Reject(Obstacle(t, ev).value))
            else
              && r.1.Accept? && r.1.result.durable == |t.inbox.events| + 1 && !r.1.result.duplicate
              && StoreInv(r.0) && Extends(t.board, r.0.board)
              && r.0.inbox == InboxAfter(t, ev) && OnlyAdvanced(t.desk, r.0.desk, r.0.board.latest)
  {
    WrittenKeeps(t, ev, folder);
    var n := Written(t, ev, folder).value;
    var change := ChangeBetween(t, n, ev);
    if change.Some? {
      ChangeIsLegal(ev, ev.identity.task.value, Projected(t.board, ev.identity.task.value), n.board);
      BumpedStoreKeeps(t, n, change.value);
    }
  }

  /** The bump a written envelope causes, if it causes one. */
  function BumpedBy(t: Tables, n: Tables, ev: Envelope): Option<Tables> {
    match ChangeBetween(t, n, ev)
    case None => None
    case Some(c) => BumpAll(n, c)
  }

  /** A fresh, admissible envelope ends in the written tables, bumped when it caused a change. */
  lemma FreshOutcome(t: Tables, ev: Envelope, folder: Folder)
    requires StoreInv(t) && Find(t.inbox.events, ev.id).None? && Obstacle(t, ev).None?
    ensures Written(t, ev, folder).Some?
    ensures var n := Written(t, ev, folder).value;
            var bumped := BumpedBy(t, n, ev);
            && n.inbox.events == t.inbox.events + [ev]
            && AcceptEvent(t, ev, folder)
               == (match bumped
                   case None => (n, Accept(Accepted(|t.inbox.events| + 1, false, None)))
                   case Some(m) => (m, Accept(Accepted(|t.inbox.events| + 1, false, Some(m.board.latest)))))
  {
    WrittenKeeps(t, ev, folder);
    AcceptFresh(t, ev, folder);
  }

  lemma AcceptKeeps(t: Tables, ev: Envelope, folder: Folder)
    requires StoreInv(t)
    ensures var n := AcceptEvent(t, ev, folder).0;
            StoreInv(n) && Extends(t.board, n.board) && OnlyAdvanced(t.desk, n.desk, n.board.latest)
  {
    if Find(t.inbox.events, ev.id).None? {
      AcceptFresh(t, ev, folder);
    }
  }

  // ---- liveness -----------------------------------------------------------------------

  lemma RefreshIsLegal(p: Projection, bound: nat, s: Lifecycle.State, pane: Option<bool>)
    requires ProjectionLegal(p, bound)
    ensures Refresh(p, s, pane).Some? && ProjectionLegal(Refresh(p, s, pane).value, bound)
  {
    MatrixIsExact(p.reportState, p.verdict, p.reason);
    ReasonTotal(s.availability, p.reportState, p.verdict);
  }

  lemma LivenessWrittenKeeps(t: Tables, session: SessionId, task: TaskId, pane: Option<bool>, adapter: Option<bool>)
    requires StoreInv(t)
    ensures LivenessWritten(t, session, task, pane, adapter).Some?
    ensures var n := LivenessWritten(t, session, task, pane, adapter).value;
            && StoreInv(n) && Extends(t.board, n.board) && n.inbox.events == t.inbox.events
            && n.desk == t.desk && n.board.latest == t.board.latest
            && (LivenessEdge(t, n, session, task, adapter).Some? ==>
                  ChangeLegal(n.board, LivenessEdge(t, n, session, task, adapter).value))
  {
    if session in t.inbox.sessions && task in t.board.projections {
      var state := Observed(Lifecycle.FromDocument(t.inbox.sessions[session].document), pane, adapter);
      var p := t.board.projections[task];
      RefreshIsLegal(p, t.board.latest, state, pane);
      PutProjection(t.board, task, Refresh(p, state, pane).value);
    }
  }

  lemma LivenessRowKeeps(t: Tables, session: SessionId, task: TaskId, pane: Option<bool>, adapter: Option<bool>)
    requires StoreInv(t)
    ensures LivenessRow(t, session, task, pane, adapter).Some?
    ensures var n := LivenessRow(t, session, task, pane, adapter).value;
            && StoreInv(n) && Extends(t.board, n.board) && n.inbox.events == t.inbox.events
            && (n.desk == t.desk || n.desk == Advance(t.desk, n.board.latest))
  {
    LivenessWrittenKeeps(t, session, task, pane, adapter);
    var n := LivenessWritten(t, session, task, pane, adapter).value;
    var change := LivenessEdge(t, n, session, task, adapter);
    if change.Some? {
      BumpedStoreKeeps(t, n, change.value);
    }
  }

  lemma {:induction false} LivenessRowsKeep(t: Tables, rows: seq<SessionId>, task: TaskId, pane: Option<bool>, adapter: Option<bool>)
    requires StoreInv(t)
    ensures LivenessRows(t, rows, task, pane, adapter).Some?
    ensures var n := LivenessRows(t, rows, task, pane, adapter).value;
            && StoreInv(n) && Extends(t.board, n.board) && n.inbox.events == t.inbox.events
            && OnlyAdvanced(t.desk, n.desk, n.board.latest)
    decreases |rows|
  {
    if rows != [] {
      LivenessRowKeeps(t, rows[0], task, pane, adapter);
      var m := LivenessRow(t, rows[0], task, pane, adapter).value;
      LivenessRowsKeep(m, rows[1..], task, pane, adapter);
      var n := LivenessRows(m, rows[1..], task, pane, adapter).value;
      AdvanceTwice(t.desk, m.board.latest, n.board.latest);
      AdvanceSame(t, m, n);
    }
  }

  lemma AdvanceTwice(k: Desk, a: nat, b: nat)
    ensures Advance(Advance(k, a), b) == Advance(k, b)
  {
    assert Advance(Advance(k, a), b).deliveries == Advance(k, b).deliveries;
  }

  /** Without a bump the desk already stands at the board's latest generation. */
  lemma AdvanceSame(t: Tables, m: Tables, n: Tables)
    requires StoreInv(m) && StoreInv(n)
    requires OnlyAdvanced(t.desk, m.desk, m.board.latest) && OnlyAdvanced(m.desk, n.desk, n.board.latest)
    ensures OnlyAdvanced(t.desk, n.desk, n.board.latest)
  {
    AdvanceTwice(t.desk, m.board.latest, n.board.latest);
    if n.desk == m.desk == Advance(t.desk, m.board.latest) {
      forall d | d in n.desk.deliveries ensures n.desk.deliveries[d].latest == n.board.latest {
        assert DriverInv(n.board.latest, n.desk, d);
      }
      assert n.desk.deliveries == Advance(t.desk, n.board.latest).deliveries;
    }
  }

  // ---- every transaction ------------------------------------------------------------------

  lemma DeskStepKeeps(b: Board, k: Desk, step: Step)
    requires !step.AcceptStep? && !step.LivenessStep? && DeskInv(b.latest, k)
    ensures DeskInv(b.latest, DeskStep(b, k, step))
  {
    match step
    case RegisterStep(d, session, harness) => RegisterKeepsInv(b.latest, k, d, session, harness);
    case OfferStep(d, session, e) => OfferKeepsInv(b, k, d, session, e);
    case WithdrawStep(d, session, e, g) => WithdrawKeepsInv(b.latest, k, d, session, e, g);
    case RecordStep(d, session, e, g, state, error) => RecordKeepsInv(b.latest, k, d, session, e, g, state, error);
    case ConfirmStep(d, session, e, g) => ConfirmKeepsInv(b.latest, k, d, session, e, g);
    case ReconcileStep(d, full) => ReconcileKeepsInv(b, k, d, full);
    case AckDeliveredStep(d, through) => AckDeliveredKeepsInv(b.latest, k, d, through);
    case AckGenerationStep(d, session, e, through) => AckGenerationKeepsInv(b.latest, k, d, session, e, through);
    case DisableStep(d) => DisableKeepsInv(b.latest, k, d);
  }

  lemma StepKeeps(t: Tables, step: Step)
    requires StoreInv(t)
    ensures StoreInv(Next(t, step)) && Extends(t.board, Next(t, step).board)
  {
    match step
    case AcceptStep(ev, folder) => AcceptKeeps(t, ev, folder);
    case LivenessStep(task, pane, adapter) =>
      LivenessRowsKeep(t, SessionsOf(t.inbox, task), task, pane, adapter);
    case _ => DeskStepKeeps(t.board, t.desk, step);
  }

  /** The invariant holds after every run. */
  lemma {:induction false} RunKeepsInv(steps: seq<Step>)
    ensures StoreInv(After(steps))
  {
    if steps == [] {
      EmptyInv();
    } else {
      RunKeepsInv(steps[..|steps| - 1]);
      StepKeeps(After(steps[..|steps| - 1]), steps[|steps| - 1]);
    }
  }

  lemma Snoc<T>(s: seq<T>, more: seq<T>)
    requires more != []
    ensures (s + more)[..|s + more| - 1] == s + more[..|more| - 1]
    ensures (s + more)[|s + more| - 1] == more[|more| - 1]
  {
  }

  lemma AfterSnoc(steps: seq<Step>, more: seq<Step>)
    requires more != []
    ensures After(steps + more) == Next(After(steps + more[..|more| - 1]), more[|more| - 1])
  {
    Snoc(steps, more);
  }

  lemma AfterOne(steps: seq<Step>, step: Step)
    ensures After(steps + [step]) == Next(After(steps), step)
  {
    assert (steps + [step])[..|steps|] == steps;
  }

  lemma {:induction false} RunExtends(steps: seq<Step>, more: seq<Step>)
    ensures Extends(After(steps).board, After(steps + more).board)
    decreases |more|
  {
    if more == [] {
      assert steps + more == steps;
    } else {
      var before := steps + more[..|more| - 1];
      AfterSnoc(steps, more);
      RunExtends(steps, more[..|more| - 1]);
      RunKeepsInv(before);
      StepKeeps(After(before), more[|more| - 1]);
      ExtendsTransitive(After(steps).board, After(before).board, After(steps + more).board);
    }
  }
}
