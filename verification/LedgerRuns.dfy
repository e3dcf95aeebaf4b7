/** What watchtower drivers can rely on over whole runs of the store. */
module LedgerRuns {
  import opened Common
  import opened Report
  import opened Generations
  import opened Delivery
  import opened Store
  import opened DeliveryFacts
  import opened StoreRuns

  // ---- cursors ------------------------------------------------------------------

  /** The window a confirmation announces when it raises the delivered cursor of d. */
  function Raised(k: Desk, step: Step, d: DriverId): Option<(nat, nat)> {
    if step.ConfirmStep? && step.d == d && d in k.deliveries && step.gen > k.deliveries[d].delivered
       && ConfirmDelivery(k, d, step.session, step.epoch, step.gen).answer == Granted(true)
    then Some((k.deliveries[d].acked, step.gen))
    else None
  }

  /** One driver's delivered cursor across one transaction. */
  ghost predicate DeliveredMoves(k: Desk, n: Desk, d: DriverId, raised: Option<(nat, nat)>) {
    && (d in k.disabled ==> d in n.disabled)
    && (raised.Some? ==> d in k.deliveries && d in n.deliveries)
    && (d in n.deliveries ==>
          if d in k.deliveries then
            && k.deliveries[d].acked <= n.deliveries[d].acked
            && k.deliveries[d].latest <= n.deliveries[d].latest
            && (match raised
                case None => n.deliveries[d].delivered == k.deliveries[d].delivered
                case Some((from, to)) =>
                  from == k.deliveries[d].delivered == k.deliveries[d].acked < to == n.deliveries[d].delivered)
          else n.deliveries[d].delivered == 0 && d !in k.disabled)
    && (d in k.deliveries ==> d in n.deliveries || d in n.disabled)
  }

  lemma ConfirmMoves(latest: nat, k: Desk, d: DriverId, session: SessionId, e: Epoch, g: nat)
    requires DriverInv(latest, k, d)
    ensures DeliveredMoves(k, ConfirmDelivery(k, d, session, e, g).desk, d, Raised(k, ConfirmStep(d, session, e, g), d))
  {
    if ConfirmDelivery(k, d, session, e, g).answer == Granted(true) {
      ConfirmRaises(latest, k, d, session, e, g);
    }
  }

  /** Only a confirmation moves a delivered cursor. */
  lemma QuietMoves(b: Board, k: Desk, step: Step, d: DriverId)
    requires DriverInv(b.latest, k, d) && !step.AcceptStep? && !step.LivenessStep? && !step.ConfirmStep?
    ensures DeliveredMoves(k, DeskStep(b, k, step), d, None)
  {
  }

  lemma StepMoves(t: Tables, step: Step, d: DriverId)
    requires StoreInv(t)
    ensures DeliveredMoves(t.desk, Next(t, step).desk, d, Raised(t.desk, step, d))
  {
    assert DriverInv(t.board.latest, t.desk, d);
    match step
    case AcceptStep(ev, folder) =>
      AcceptKeeps(t, ev, folder);
      assert d in t.desk.deliveries ==> CursorsOk(t.board.latest, t.desk.deliveries[d]);
    case LivenessStep(task, pane, adapter) =>
      LivenessRowsKeep(t, SessionsOf(t.inbox, task), task, pane, adapter);
    case ConfirmStep(x, session, e, g) =>
      if x == d { ConfirmMoves(t.board.latest, t.desk, d, session, e, g); }
    case _ => QuietMoves(t.board, t.desk, step, d);
  }

  predicate Known(k: Desk, d: DriverId) { d in k.deliveries || d in k.disabled }

  lemma StaysKnown(t: Tables, step: Step, d: DriverId)
    requires StoreInv(t) && Known(t.desk, d)
    ensures Known(Next(t, step).desk, d) && (d in t.desk.disabled ==> d in Next(t, step).desk.disabled)
  {
    StepMoves(t, step, d);
  }

  /** A registered driver keeps its rows until it is disabled, which is for ever. */
  lemma {:induction false} StaysDisabled(steps: seq<Step>, more: seq<Step>, d: DriverId)
    requires Known(After(steps).desk, d)
    ensures Known(After(steps + more).desk, d)
    ensures d in After(steps).desk.disabled ==> d in After(steps + more).desk.disabled
  {
    if more == [] {
      assert steps + more == steps;
    } else {
      AfterSnoc(steps, more);
      StaysDisabled(steps, more[..|more| - 1], d);
      RunKeepsInv(steps + more[..|more| - 1]);
      StaysKnown(After(steps + more[..|more| - 1]), more[|more| - 1], d);
    }
  }

  ghost predicate NoLower(c: Cursors, n: Cursors) {
    c.acked <= n.acked && c.delivered <= n.delivered && c.latest <= n.latest
  }

  lemma CursorsStep(t: Tables, step: Step, d: DriverId)
    requires StoreInv(t) && d in t.desk.deliveries && d in Next(t, step).desk.deliveries
    ensures NoLower(t.desk.deliveries[d], Next(t, step).desk.deliveries[d])
  {
    StepMoves(t, step, d);
  }

  lemma NoLowerTransitive(a: Cursors, b: Cursors, c: Cursors)
    requires NoLower(a, b) && NoLower(b, c)
    ensures NoLower(a, c)
  {
  }

  /** All three cursors of a driver only grow, over any further run. */
  lemma {:induction false} CursorsGrow(steps: seq<Step>, more: seq<Step>, d: DriverId)
    requires d in After(steps).desk.deliveries && d in After(steps + more).desk.deliveries
    ensures NoLower(After(steps).desk.deliveries[d], After(steps + more).desk.deliveries[d])
    decreases |more|
  {
    if more == [] {
      assert steps + more == steps;
    } else {
      CursorsGrowByOne(steps, more, d);
    }
  }

  lemma CursorsGrowByOne(steps: seq<Step>, more: seq<Step>, d: DriverId)
    requires more != [] && d in After(steps).desk.deliveries && d in After(steps + more).desk.deliveries
    ensures NoLower(After(steps).desk.deliveries[d], After(steps + more).desk.deliveries[d])
    decreases |more|, 0
  {
    var less, last := more[..|more| - 1], more[|more| - 1];
    AfterSnoc(steps, more);
    var mid := After(steps + less);
    PresentBefore(steps, less, last, d);
    RunKeepsInv(steps + less);
    CursorsStep(mid, last, d);
    CursorsGrow(steps, less, d);
    NoLowerTransitive(After(steps).desk.deliveries[d], mid.desk.deliveries[d], After(steps + more).desk.deliveries[d]);
  }

  lemma PresentBefore(steps: seq<Step>, less: seq<Step>, last: Step, d: DriverId)
    requires d in After(steps).desk.deliveries && d in Next(After(steps + less), last).desk.deliveries
    ensures d in After(steps + less).desk.deliveries
  {
    StaysDisabled(steps, less, d);
    RunKeepsInv(steps + less);
    StepMoves(After(steps + less), last, d);
    StepKeeps(After(steps + less), last);
    assert DriverInv(Next(After(steps + less), last).board.latest, Next(After(steps + less), last).desk, d);
  }

  // ---- every generation is announced once -------------------------------------------

  /** The windows (acknowledged, confirmed] that fresh confirmations of d announced, in order. */
  function Windows(steps: seq<Step>, d: DriverId): seq<(nat, nat)> {
    if steps == [] then []
    else
      var before, step := steps[..|steps| - 1], steps[|steps| - 1];
      match Raised(After(before).desk, step, d)
      case None => Windows(before, d)
      case Some(w) => Windows(before, d) + [w]
  }

  /** Windows that follow one another without gap or overlap, from 0 to the end. */
  predicate Chain(ws: seq<(nat, nat)>, end: nat) {
    if ws == [] then end == 0
    else
      var (from, to) := ws[|ws| - 1];
      from < to == end && Chain(ws[..|ws| - 1], from)
  }

  /** Fresh confirmed wakes partition everything delivered to a driver. */
  lemma {:induction false} WakesPartition(steps: seq<Step>, d: DriverId)
    ensures var k := After(steps).desk;
            && (d in k.deliveries ==> Chain(Windows(steps, d), k.deliveries[d].delivered))
            && (d !in k.deliveries && d !in k.disabled ==> Windows(steps, d) == [])
  {
    if steps != [] {
      var before, step := steps[..|steps| - 1], steps[|steps| - 1];
      WakesPartition(before, d);
      RunKeepsInv(before);
      StepMoves(After(before), step, d);
      var raised := Raised(After(before).desk, step, d);
      if raised.Some? {
        assert Windows(steps, d)[..|Windows(steps, d)| - 1] == Windows(before, d);
      }
    }
  }

  predicate Within(w: (nat, nat), g: nat) { w.0 < g <= w.1 }

  predicate Announced(ws: seq<(nat, nat)>, g: nat) { exists i :: 0 <= i < |ws| && Within(ws[i], g) }

  predicate AtMostOnce(ws: seq<(nat, nat)>, g: nat) {
    forall i, j :: 0 <= i < j < |ws| ==> !(Within(ws[i], g) && Within(ws[j], g))
  }

  lemma AnnouncedSnoc(ws: seq<(nat, nat)>, g: nat)
    requires ws != []
    ensures Announced(ws, g) <==> Announced(ws[..|ws| - 1], g) || Within(ws[|ws| - 1], g)
  {
    var before := ws[..|ws| - 1];
    if Announced(before, g) {
      var i :| 0 <= i < |before| && Within(before[i], g);
      assert Within(ws[i], g);
    }
    if Announced(ws, g) {
      var i :| 0 <= i < |ws| && Within(ws[i], g);
      assert i < |before| ==> Within(before[i], g);
    }
  }

  lemma {:induction false} ChainCovers(ws: seq<(nat, nat)>, end: nat, g: nat)
    requires Chain(ws, end)
    ensures Announced(ws, g) <==> 1 <= g <= end
  {
    if ws != [] {
      ChainCovers(ws[..|ws| - 1], ws[|ws| - 1].0, g);
      AnnouncedSnoc(ws, g);
    }
  }

  lemma {:induction false} ChainIsDisjoint(ws: seq<(nat, nat)>, end: nat, g: nat)
    requires Chain(ws, end)
    ensures AtMostOnce(ws, g)
  {
    if ws != [] {
      var before, last := ws[..|ws| - 1], ws[|ws| - 1];
      ChainIsDisjoint(before, last.0, g);
      ChainCovers(before, last.0, g);
      forall i, j | 0 <= i < j < |ws| ensures !(Within(ws[i], g) && Within(ws[j], g)) {
        assert ws[i] == before[i];
        if j < |before| {
          assert ws[j] == before[j];
        } else if Within(ws[i], g) {
          assert Announced(before, g);
        }
      }
    }
  }

  /** Every delivered generation was announced by exactly one fresh confirmed wake, and no other was. */
  lemma AnnouncedExactlyOnce(steps: seq<Step>, d: DriverId, g: nat)
    requires d in After(steps).desk.deliveries
    ensures Announced(Windows(steps, d), g) <==> 1 <= g <= After(steps).desk.deliveries[d].delivered
    ensures AtMostOnce(Windows(steps, d), g)
  {
    var end := After(steps).desk.deliveries[d].delivered;
    WakesPartition(steps, d);
    ChainCovers(Windows(steps, d), end, g);
    ChainIsDisjoint(Windows(steps, d), end, g);
  }

  // ---- an offer stands -------------------------------------------------------------------

  /** The step does not register, answer, withdraw, pull, acknowledge or disable driver d. */
  predicate Leaves(step: Step, d: DriverId) {
    match step
    case RegisterStep(x, _, _) => x != d
    case WithdrawStep(x, _, _, _) => x != d
    case ConfirmStep(x, _, _, _) => x != d
    case ReconcileStep(x, _) => x != d
    case AckDeliveredStep(x, _) => x != d
    case AckGenerationStep(x, _, _, _) => x != d
    case DisableStep(x) => x != d
    case _ => true
  }

  lemma AdvanceUntouched(k: Desk, latest: nat, d: DriverId)
    requires d in k.registrations && d in k.deliveries
    ensures Untouched(k, Advance(k, latest), d)
  {
  }

  lemma DeskUntouched(b: Board, k: Desk, step: Step, d: DriverId)
    requires DriverInv(b.latest, k, d) && d in k.registrations && Leaves(step, d)
    requires !step.AcceptStep? && !step.LivenessStep?
    ensures Untouched(k, DeskStep(b, k, step), d)
  {
  }

  lemma StepUntouched(t: Tables, step: Step, d: DriverId)
    requires StoreInv(t) && d in t.desk.registrations && Leaves(step, d)
    ensures Untouched(t.desk, Next(t, step).desk, d)
  {
    assert DriverInv(t.board.latest, t.desk, d);
    match step
    case AcceptStep(ev, folder) =>
      AcceptKeeps(t, ev, folder);
      AdvanceUntouched(t.desk, Next(t, step).board.latest, d);
    case LivenessStep(task, pane, adapter) =>
      LivenessRowsKeep(t, SessionsOf(t.inbox, task), task, pane, adapter);
      AdvanceUntouched(t.desk, Next(t, step).board.latest, d);
    case _ => DeskUntouched(t.board, t.desk, step, d);
  }

  lemma UntouchedTransitive(k: Desk, m: Desk, n: Desk, d: DriverId)
    requires Untouched(k, m, d) && Untouched(m, n, d)
    ensures Untouched(k, n, d)
  {
  }

  lemma {:induction false} RunUntouched(steps: seq<Step>, more: seq<Step>, d: DriverId)
    requires d in After(steps).desk.registrations && d in After(steps).desk.deliveries
    requires forall i :: 0 <= i < |more| ==> Leaves(more[i], d)
    ensures Untouched(After(steps).desk, After(steps + more).desk, d)
  {
    if more == [] {
      assert steps + more == steps;
    } else {
      var less, last := more[..|more| - 1], more[|more| - 1];
      assert forall i :: 0 <= i < |less| ==> less[i] == more[i];
      RunUntouched(steps, less, d);
      AfterSnoc(steps, more);
      RunKeepsInv(steps + less);
      StepUntouched(After(steps + less), last, d);
      UntouchedTransitive(After(steps).desk, After(steps + less).desk, After(steps + more).desk, d);
    }
  }

  /**
   * A wake stands: over any further run that does not answer, withdraw, pull,
   * acknowledge, re-register or disable its driver, whatever else arrives, is
   * bumped, recorded or done for other drivers, offering again returns the
   * identical generation, priority and count and changes nothing.
   */
  lemma OfferStands(steps: seq<Step>, more: seq<Step>, d: DriverId, session: SessionId, e: Epoch)
    requires var t := After(steps);
             Current(t.desk, d, session, e) && OfferNotification(t.board, t.desk, d, session, e).answer != Granted(None)
    requires forall i :: 0 <= i < |more| ==> Leaves(more[i], d)
    ensures var t, n := After(steps), After(steps + [OfferStep(d, session, e)] + more);
            OfferNotification(n.board, n.desk, d, session, e)
            == Outcome(n.desk, OfferNotification(t.board, t.desk, d, session, e).answer)
  {
    var offered := steps + [OfferStep(d, session, e)];
    assert offered[..|steps|] == steps;
    var t, m, n := After(steps), After(offered), After(offered + more);
    RunKeepsInv(steps);
    RunKeepsInv(offered + more);
    assert DriverInv(t.board.latest, t.desk, d) && DriverInv(n.board.latest, n.desk, d);
    WakeFacts(t.board, t.desk, d, session, e);
    assert m.desk == OfferNotification(t.board, t.desk, d, session, e).desk && m.board == t.board;
    RunUntouched(offered, more, d);
    RunExtends(offered, more);
    OfferIsExact(t.board, t.desk, n.board, n.desk, d, session, e);
  }

  // ---- an old connection stays refused -------------------------------------------------------

  /** The connection was superseded by a later registration, or its driver was disabled. */
  predicate Past(k: Desk, d: DriverId, session: SessionId, e: Epoch) {
    || d in k.disabled
    || (d in k.registrations
        && (k.registrations[d].epoch > e || (k.registrations[d].epoch == e && k.registrations[d].session != session)))
  }

  lemma DeskStaysPast(b: Board, k: Desk, step: Step, d: DriverId, session: SessionId, e: Epoch)
    requires !step.AcceptStep? && !step.LivenessStep? && Past(k, d, session, e)
    ensures Past(DeskStep(b, k, step), d, session, e)
  {
  }

  lemma StepStaysPast(t: Tables, step: Step, d: DriverId, session: SessionId, e: Epoch)
    requires StoreInv(t) && Past(t.desk, d, session, e)
    ensures Past(Next(t, step).desk, d, session, e)
  {
    match step
    case AcceptStep(ev, folder) => AcceptKeeps(t, ev, folder);
    case LivenessStep(task, pane, adapter) => LivenessRowsKeep(t, SessionsOf(t.inbox, task), task, pane, adapter);
    case _ => DeskStaysPast(t.board, t.desk, step, d, session, e);
  }

  lemma {:induction false} PastForEver(steps: seq<Step>, more: seq<Step>, d: DriverId, session: SessionId, e: Epoch)
    requires Past(After(steps).desk, d, session, e)
    ensures Past(After(steps + more).desk, d, session, e)
  {
    if more == [] {
      assert steps + more == steps;
    } else {
      var less := more[..|more| - 1];
      PastForEver(steps, less, d, session, e);
      AfterSnoc(steps, more);
      RunKeepsInv(steps + less);
      StepStaysPast(After(steps + less), more[|more| - 1], d, session, e);
    }
  }

  /** A connection once superseded or disabled is refused, without effect, after every later run. */
  lemma OldEpochsAreRefused(steps: seq<Step>, more: seq<Step>, d: DriverId, session: SessionId, e: Epoch, g: nat,
                            state: DeliveryState, error: Option<string>)
    requires Past(After(steps).desk, d, session, e)
    ensures var t := After(steps + more);
            && !Current(t.desk, d, session, e)
            && NotificationFrontier(t.board, t.desk, d, session, e) == Refused(StaleEpoch)
            && OfferNotification(t.board, t.desk, d, session, e) == Outcome(t.desk, Refused(StaleEpoch))
            && Withdraw(t.desk, d, session, e, g) == Outcome(t.desk, Refused(StaleEpoch))
            && RecordOutcome(t.desk, d, session, e, g, state, error).desk == t.desk
            && RecordOutcome(t.desk, d, session, e, g, state, error).answer.Refused?
            && ConfirmDelivery(t.desk, d, session, e, g) == Outcome(t.desk, Refused(StaleEpoch))
            && AckGeneration(t.desk, d, session, e, g) == Outcome(t.desk, Refused(StaleEpoch))
            && Reconcile(t.board, t.desk, d, session, e, g) == Refused(StaleEpoch)
  {
    PastForEver(steps, more, d, session, e);
    RunKeepsInv(steps + more);
    var t := After(steps + more);
    assert DriverInv(t.board.latest, t.desk, d);
    StaleCallsFail(t.board, t.desk, d, session, e, g, state, error);
  }

  lemma RegisterMakesPast(latest: nat, k: Desk, d: DriverId, session: SessionId, e: Epoch, next: SessionId, harness: Harness)
    requires Current(k, d, session, e) && Register(latest, k, d, next, harness).answer.Granted?
    ensures Past(Register(latest, k, d, next, harness).desk, d, session, e)
  {
  }

  lemma DisableMakesPast(k: Desk, d: DriverId, session: SessionId, e: Epoch)
    requires Disable(k, d).answer.Granted?
    ensures Past(Disable(k, d).desk, d, session, e)
  {
  }

  lemma StepMakesPast(t: Tables, step: Step, d: DriverId, session: SessionId, e: Epoch)
    requires match step
             case RegisterStep(x, next, harness) =>
               x == d && Current(t.desk, d, session, e) && Register(t.board.latest, t.desk, d, next, harness).answer.Granted?
             case DisableStep(x) => x == d && Disable(t.desk, d).answer.Granted?
             case _ => false
    ensures Past(Next(t, step).desk, d, session, e)
  {
    match step
    case RegisterStep(_, next, harness) => RegisterMakesPast(t.board.latest, t.desk, d, session, e, next, harness);
    case DisableStep(_) => DisableMakesPast(t.desk, d, session, e);
  }

  /**
   * A granted registration makes the connection before it past, and a granted
   * disable every connection of the driver: refused after every later run.
   */
  lemma SupersedesForEver(steps: seq<Step>, step: Step, more: seq<Step>, d: DriverId, session: SessionId, e: Epoch)
    requires var t := After(steps);
             match step
             case RegisterStep(x, next, harness) =>
               x == d && Current(t.desk, d, session, e) && Register(t.board.latest, t.desk, d, next, harness).answer.Granted?
             case DisableStep(x) => x == d && Disable(t.desk, d).answer.Granted?
             case _ => false
    ensures Past(After(steps + [step] + more).desk, d, session, e)
  {
    AfterOne(steps, step);
    StepMakesPast(After(steps), step, d, session, e);
    PastForEver(steps + [step], more, d, session, e);
  }

  /** Over a driver's first connection the exact acknowledgement needs no pull, after any run. */
  lemma FirstConnectionNeedsNoPull(steps: seq<Step>, d: DriverId)
    requires var k := After(steps).desk;
             && d in k.registrations && k.registrations[d].epoch == 1
             && d in k.deliveries && k.deliveries[d].delivered > k.deliveries[d].acked
    ensures var k := After(steps).desk; AckDelivered(k, d, k.deliveries[d].delivered).answer == Granted(true)
  {
    RunKeepsInv(steps);
    assert DriverInv(After(steps).board.latest, After(steps).desk, d);
    FirstConnectionAcks(After(steps).board.latest, After(steps).desk, d);
  }

  // ---- replies ------------------------------------------------------------------------

  /** The tasks a pull reports: all frozen at the delivered cursor, or those bumped since the acknowledged one. */
  function Reported(b: Board, c: Cursors, full: bool): set<TaskId> {
    if full then TasksAt(b, c.delivered) else WindowTasks(b, c.acked, c.delivered)
  }

  /** A legal reply that is exactly the reported tasks, each as frozen at the delivered cursor. */
  ghost predicate ExactReply(b: Board, c: Cursors, full: bool, p: Pull) {
    && p.since == c.acked && RepliesLegal(p.rows, p.through)
    && p.through == (if c.delivered > c.acked then c.delivered else c.acked)
    && (p.rows != [] <==> c.delivered > c.acked)
    && (c.delivered > c.acked ==>
          && Reported(b, c, full) <= TasksAt(b, c.delivered)
          && p.rows == RowsAt(b, c.delivered, Reported(b, c, full))
          && p.suppressed + |p.rows| == TrackedCount(b, c.delivered))
  }

  lemma WindowReply(b: Board, c: Cursors, full: bool)
    requires BoardInv(b) && c.acked < c.delivered <= b.latest
    ensures var rows := SnapshotRows(b, c.delivered, if full then None else Some(c.acked));
            && Reported(b, c, full) <= TasksAt(b, c.delivered)
            && rows == RowsAt(b, c.delivered, Reported(b, c, full)) && rows != []
            && RepliesLegal(rows, c.delivered) && |rows| <= TrackedCount(b, c.delivered)
  {
    var tasks := Reported(b, c, full);
    FullReport(b, c.delivered);
    DeltaReport(b, c.acked, c.delivered);
    TouchedAreFrozen(b, c.acked, c.delivered);
    RowsAtLegal(b, c.delivered, tasks);
    TrackedIsFrozen(b, c.delivered);
    SubsetCardinality(tasks, TasksAt(b, c.delivered));
  }

  lemma PullFrom(b: Board, k: Desk, d: DriverId, full: bool)
    requires BoardInv(b) && d in k.deliveries && k.deliveries[d].delivered <= b.latest
    requires k.deliveries[d].acked <= k.deliveries[d].delivered
    requires ReconcileDelivered(b, k, d, full).answer.Granted?
    ensures ExactReply(b, k.deliveries[d], full, ReconcileDelivered(b, k, d, full).answer.value)
  {
    var c := k.deliveries[d];
    if c.delivered > c.acked {
      WindowReply(b, c, full);
    }
  }

  /** What a pull replies, from any reachable store, delta or full. */
  lemma PullIsExact(steps: seq<Step>, d: DriverId, full: bool)
    requires d in After(steps).desk.registrations
    ensures var t := After(steps);
            && d in t.desk.deliveries && ReconcileDelivered(t.board, t.desk, d, full).answer.Granted?
            && ExactReply(t.board, t.desk.deliveries[d], full, ReconcileDelivered(t.board, t.desk, d, full).answer.value)
  {
    RunKeepsInv(steps);
    var t := After(steps);
    assert DriverInv(t.board.latest, t.desk, d);
    ReconcileNeverFails(t.board, t.desk, d, full);
    PullFrom(t.board, t.desk, d, full);
  }

  /** What a bound connection reads through a reached generation. */
  lemma ReconcileIsExact(steps: seq<Step>, d: DriverId, session: SessionId, e: Epoch, through: nat)
    requires Current(After(steps).desk, d, session, e)
    ensures var t := After(steps);
            var r := Reconcile(t.board, t.desk, d, session, e, through);
            && (r.Granted? <==> through <= t.board.latest)
            && (r.Granted? ==> r.value == RowsAt(t.board, through, TasksAt(t.board, through)) && RepliesLegal(r.value, through))
  {
    RunKeepsInv(steps);
    var t := After(steps);
    assert DriverInv(t.board.latest, t.desk, d);
    if through <= t.board.latest {
      FullReport(t.board, through);
      RowsAtLegal(t.board, through, TasksAt(t.board, through));
    }
  }

  /** N+1 never leaks into N: a reached generation reads the same after every later run. */
  lemma RepliesNeverChange(steps: seq<Step>, more: seq<Step>, through: nat, after: Option<nat>)
    requires through <= After(steps).board.latest
    ensures SnapshotRows(After(steps + more).board, through, after) == SnapshotRows(After(steps).board, through, after)
    ensures TrackedCount(After(steps + more).board, through) == TrackedCount(After(steps).board, through)
  {
    RunExtends(steps, more);
    ReportsAreImmutable(After(steps).board, After(steps + more).board, through, after);
  }
}
