/**
 * The store object: one field per table, each method one transaction that
 * updates the tables in place and either commits or leaves them untouched.
 */
module EventStores {
  import opened Common
  import opened Report
  import opened Generations
  import opened Delivery
  import opened Store
  import opened StoreRuns
  import Lifecycle

  class EventStore {
    var events: seq<Envelope>
    var sessions: map<SessionId, SessionRow>
    var sessionOrder: seq<SessionId>
    var projections: map<TaskId, Projection>
    var latestGeneration: nat
    var generations: map<nat, Priority>
    var changed: map<GenTask, Reason>
    var members: set<GenTask>
    var snaps: map<GenTask, Projection>
    var registrations: map<DriverId, Registration>
    var deliveries: map<DriverId, Cursors>
    var offers: map<OfferKey, Offer>
    var disabled: set<DriverId>

    function InboxNow(): Inbox reads this { Inbox(events, sessions, sessionOrder) }

    function BoardNow(): Board reads this { Board(projections, latestGeneration, generations, changed, members, snaps) }

    function DeskNow(): Desk reads this { Desk(registrations, deliveries, offers, disabled) }

    function Now(): Tables reads this { Tables(InboxNow(), BoardNow(), DeskNow()) }

    ghost predicate Valid() reads this { StoreInv(Now()) }

    constructor ()
      ensures Now() == EMPTY_STORE && Valid()
    {
      events, sessions, sessionOrder := [], map[], [];
      projections, latestGeneration, generations := map[], 0, map[];
      changed, members, snaps := map[], {}, map[];
      registrations, deliveries, offers, disabled := map[], map[], map[], {};
      new;
      EmptyInv();
    }

    // ---- generations ------------------------------------------------------------

    /** Freeze membership and every projection under generation g. */
    method Freeze(g: nat)
      modifies this`members, this`snaps
      ensures members == old(members) + FrozenKeys(projections, g)
      ensures snaps == old(snaps) + Frozen(projections, g)
    {
      members := members + FrozenKeys(projections, g);
      snaps := snaps + Frozen(projections, g);
    }

    method TouchProjection(c: Change, g: nat)
      requires c.task in projections
      modifies this`projections
      ensures projections == old(projections)[c.task := Touch(old(projections[c.task]), g, c)]
    {
      projections := projections[c.task := Touch(projections[c.task], g, c)];
    }

    /** Take the next generation: its pending rows, the touched projection, and the frozen tables. */
    method TakeGeneration(c: Change)
      requires c.task in projections
      modifies this`projections, this`latestGeneration, this`generations, this`changed, this`members, this`snaps
      ensures BoardNow() == NextBoard(old(BoardNow()), c)
    {
      latestGeneration := latestGeneration + 1;
      generations := generations[latestGeneration := c.priority];
      TouchProjection(c, latestGeneration);
      changed := changed[GenTask(latestGeneration, c.task) := c.reason];
      Freeze(latestGeneration);
    }

    /** One actionable change, or nothing at all. */
    method BumpActionable(c: Change) returns (generation: Option<nat>)
      modifies this`projections, this`latestGeneration, this`generations, this`changed, this`members, this`snaps, this`deliveries
      ensures match BumpAll(old(Now()), c)
              case Some(n) => Now() == n && generation == Some(n.board.latest)
              case None => Now() == old(Now()) && generation == None
    {
      if !CanBump(BoardNow(), c) {
        return None;
      }
      TakeGeneration(c);
      deliveries := Advance(DeskNow(), latestGeneration).deliveries;
      return Some(latestGeneration);
    }

    // ---- events -------------------------------------------------------------------

    /** Insert or update one session row; identity columns never change. */
    method PersistSession(ev: Envelope, state: Lifecycle.State, registered: bool)
      modifies this`sessions, this`sessionOrder
      ensures InboxNow() == Persist(old(InboxNow()), ev, state, registered)
    {
      if ev.session !in sessions {
        sessionOrder := sessionOrder + [ev.session];
      }
      sessions := sessions[ev.session := SessionRow(ev.identity, Lifecycle.ToDocument(state), registered, |events|)];
    }

    method UpsertTaskProjection(task: TaskId, p: Projection)
      modifies this`projections
      ensures BoardNow() == Upsert(old(BoardNow()), task, p)
    {
      var generation := if task in projections then projections[task].generation else 0;
      projections := projections[task := p.(generation := generation)];
    }

    /** A registered crew session writes its task's projection; other sessions write none. */
    method WriteTaskProjection(ev: Envelope, durable: nat, state: Lifecycle.State, registered: bool, folder: Folder)
      requires WriteProjection(BoardNow(), ev, durable, state, registered, folder).Some?
      modifies this`projections
      ensures Some(BoardNow()) == WriteProjection(old(BoardNow()), ev, durable, state, registered, folder)
    {
      if registered && ev.identity.role.Crew? && ev.identity.task.Some? {
        var summary := Summarize(folder.capture);
        var reason := ActionableReason(state.availability, summary.state, summary.verdict);
        UpsertTaskProjection(ev.identity.task.value, ProjectionOf(ev, durable, state, folder, reason.value));
      }
    }

    /** The rows of a fresh, admissible envelope: event, session, and crew projection. */
    method WriteEvent(ev: Envelope, folder: Folder)
      requires Written(Now(), ev, folder).Some?
      modifies this`events, this`sessions, this`sessionOrder, this`projections
      ensures Some(Now()) == Written(old(Now()), ev, folder)
    {
      ghost var was := Now();
      var registered := RegisteredBy(Now(), ev);
      var reduced := Lifecycle.ReduceEvent(SessionState(InboxNow(), ev.session), Lifecycle.Event(ev.seqno, ev.kind));
      events := events + [ev];
      PersistSession(ev, reduced.state, registered);
      assert InboxNow() == InboxAfter(was, ev) && BoardNow() == was.board && |events| == |was.inbox.events| + 1;
      WriteTaskProjection(ev, |events|, reduced.state, registered, folder);
    }

    /** Write a fresh envelope, then take a generation for the change it causes, if it causes one. */
    method ApplyEvent(ev: Envelope, folder: Folder) returns (generation: Option<nat>)
      requires Written(Now(), ev, folder).Some?
      modifies this
      ensures var n := Written(old(Now()), ev, folder).value;
              && events == n.inbox.events
              && match BumpedBy(old(Now()), n, ev)
                 case None => Now() == n && generation == None
                 case Some(m) => Now() == m && generation == Some(m.board.latest)
    {
      var before := if ev.identity.task.Some? then Projected(BoardNow(), ev.identity.task.value) else None;
      WriteEvent(ev, folder);
      if ev.identity.task.None? {
        return None;
      }
      var task := ev.identity.task.value;
      var change := ChangeFor(ev, task, before, Projected(BoardNow(), task));
      if change.None? {
        return None;
      }
      generation := BumpActionable(change.value);
    }

    /** Accept an envelope durably, once, with everything it causes, or leave no trace of it. */
    method AcceptEvent(ev: Envelope, folder: Folder) returns (r: Acceptance)
      requires Valid()
      modifies this
      ensures Valid()
      ensures (Now(), r) == Store.AcceptEvent(old(Now()), ev, folder)
    {
      AcceptKeeps(Now(), ev, folder);
      var found := Find(events, ev.id);
      if found.Some? {
        if events[found.value] != ev {
          return Reject(ConflictingEnvelope);
        }
        return Accept(Accepted(found.value + 1, true, None));
      }
      var obstacle := Obstacle(Now(), ev);
      if obstacle.Some? {
        return Reject(obstacle.value);
      }
      FreshOutcome(Now(), ev, folder);
      var generation := ApplyEvent(ev, folder);
      return Accept(Accepted(|events|, false, generation));
    }

    // ---- host liveness --------------------------------------------------------------

    /** Write the observed session and its refreshed projection, and tell which edge that is. */
    method WriteObservation(session: SessionId, task: TaskId, pane: Option<bool>, adapter: Option<bool>)
      returns (change: Option<Change>)
      requires LivenessWritten(Now(), session, task, pane, adapter).Some?
      modifies this`sessions, this`projections
      ensures Some(Now()) == LivenessWritten(old(Now()), session, task, pane, adapter)
      ensures change == LivenessEdge(old(Now()), Now(), session, task, adapter)
    {
      if session !in sessions {
        return None;
      }
      var row := sessions[session];
      var was := Lifecycle.FromDocument(row.document);
      var state := Observed(was, pane, adapter);
      sessions := sessions[session := row.(document := Lifecycle.ToDocument(state))];
      if task !in projections {
        return None;
      }
      var before := projections[task];
      var refreshed := Refresh(before, state, pane);
      projections := projections[task := refreshed.value];
      return EdgeFor(task, before.reason, refreshed.value.reason, adapter == Some(false) && was.adapterConnected);
    }

    method ObserveSession(session: SessionId, task: TaskId, pane: Option<bool>, adapter: Option<bool>)
      requires Valid()
      modifies this
      ensures Valid()
      ensures Some(Now()) == LivenessRow(old(Now()), session, task, pane, adapter)
    {
      LivenessRowKeeps(Now(), session, task, pane, adapter);
      var change := WriteObservation(session, task, pane, adapter);
      if change.Some? {
        var _ := BumpActionable(change.value);
      }
    }

    method ReconcileHerdrLiveness(task: TaskId, pane: Option<bool>, adapter: Option<bool>)
      requires Valid()
      modifies this
      ensures Valid()
      ensures Now() == ReconcileLiveness(old(Now()), task, pane, adapter)
    {
      var rows := SessionsOf(InboxNow(), task);
      ghost var start := Now();
      var i := 0;
      while i < |rows|
        invariant 0 <= i <= |rows| && Valid()
        invariant LivenessRows(start, rows, task, pane, adapter) == LivenessRows(Now(), rows[i..], task, pane, adapter)
      {
        assert rows[i..][1..] == rows[i + 1..];
        ObserveSession(rows[i], task, pane, adapter);
        i := i + 1;
      }
    }

    // ---- the driver desk --------------------------------------------------------------

    method RegisterDriver(d: DriverId, session: SessionId, harness: Harness) returns (r: Answer<Epoch>)
      requires Valid()
      modifies this`registrations, this`deliveries
      ensures Valid()
      ensures Outcome(DeskNow(), r) == Register(latestGeneration, old(DeskNow()), d, session, harness)
    {
      RegisterKeepsInv(latestGeneration, DeskNow(), d, session, harness);
      if d in disabled {
        return Refused(AuthorityDisabled);
      }
      var epoch := 1;
      if d !in registrations {
        if d in deliveries {
          return Refused(PrimaryKeyConflict);
        }
        registrations := registrations[d := Registration(session, harness, epoch)];
        deliveries := deliveries[d := Cursors(latestGeneration, 0, 0, Pending, None)];
      } else {
        if registrations[d].harness != harness {
          return Refused(HarnessImmutable);
        }
        epoch := registrations[d].epoch + 1;
        registrations := registrations[d := Registration(session, harness, epoch)];
      }
      return Granted(epoch);
    }

    method OfferNotification(d: DriverId, session: SessionId, e: Epoch) returns (r: Answer<Option<Wake>>)
      requires Valid()
      modifies this`offers
      ensures Valid()
      ensures Outcome(DeskNow(), r) == Delivery.OfferNotification(BoardNow(), old(DeskNow()), d, session, e)
    {
      OfferKeepsInv(BoardNow(), DeskNow(), d, session, e);
      if !Current(DeskNow(), d, session, e) {
        return Refused(StaleEpoch);
      }
      var open := Outstanding(DeskNow(), d, session, e);
      var c := deliveries[d];
      var generation: nat;
      if open != {} {
        generation := Least(open);
      } else if c.latest <= c.acked {
        return Granted(None);
      } else {
        if c.delivered > c.acked {
          if ConfirmedHere(DeskNow(), d, session, e, c.delivered) {
            return Granted(None);
          }
          generation := c.delivered;
        } else {
          generation := c.latest;
        }
        if OfferKey(d, e, generation) in offers {
          return Refused(PrimaryKeyConflict);
        }
        offers := offers[OfferKey(d, e, generation) := Offer(session, false)];
      }
      return Granted(Some(WakeFor(BoardNow(), c.acked, generation)));
    }

    method WithdrawUnconfirmedOffer(d: DriverId, session: SessionId, e: Epoch, g: nat) returns (r: Answer<()>)
      requires Valid()
      modifies this`offers
      ensures Valid()
      ensures Outcome(DeskNow(), r) == Withdraw(old(DeskNow()), d, session, e, g)
    {
      WithdrawKeepsInv(latestGeneration, DeskNow(), d, session, e, g);
      if !Current(DeskNow(), d, session, e) {
        return Refused(StaleEpoch);
      }
      if !UnconfirmedHere(DeskNow(), d, session, e, g) {
        return Refused(NotTheUnconfirmedOffer);
      }
      offers := offers - {OfferKey(d, e, g)};
      return Granted(());
    }

    method RecordDeliveryOutcome(d: DriverId, session: SessionId, e: Epoch, g: nat, state: DeliveryState,
                                 error: Option<string>) returns (r: Answer<()>)
      requires Valid()
      modifies this`deliveries
      ensures Valid()
      ensures Outcome(DeskNow(), r) == RecordOutcome(old(DeskNow()), d, session, e, g, state, error)
    {
      RecordKeepsInv(latestGeneration, DeskNow(), d, session, e, g, state, error);
      if state !in {Deferred, Errored} {
        return Refused(NotADeferral);
      }
      if !Current(DeskNow(), d, session, e) {
        return Refused(StaleEpoch);
      }
      if !UnconfirmedHere(DeskNow(), d, session, e, g) {
        if ConfirmedHere(DeskNow(), d, session, e, g) && deliveries[d].acked >= g {
          return Granted(());
        }
        return Refused(NotTheOutstandingOffer);
      }
      deliveries := deliveries[d := deliveries[d].(state := state, lastError := Clip(error))];
      return Granted(());
    }

    method ConfirmDelivery(d: DriverId, session: SessionId, e: Epoch, g: nat) returns (r: Answer<bool>)
      requires Valid()
      modifies this`offers, this`deliveries
      ensures Valid()
      ensures Outcome(DeskNow(), r) == Delivery.ConfirmDelivery(old(DeskNow()), d, session, e, g)
    {
      ConfirmKeepsInv(latestGeneration, DeskNow(), d, session, e, g);
      if !Current(DeskNow(), d, session, e) {
        return Refused(StaleEpoch);
      }
      var offered := Offered(DeskNow(), d, session, e);
      if offered == {} || Greatest(offered) != g {
        return Refused(NotTheOutstandingOffer);
      }
      if ConfirmedHere(DeskNow(), d, session, e, g) {
        return Granted(false);
      }
      offers := offers[OfferKey(d, e, g) := Offer(session, true)];
      var c := deliveries[d];
      var delivered := if g > c.delivered then g else c.delivered;
      deliveries := deliveries[d := c.(delivered := delivered, state := Delivered, lastError := None)];
      return Granted(true);
    }

    method RetireSettledOffers(d: DriverId, epoch: Epoch, delivered: nat)
      modifies this`offers
      ensures DeskNow() == RetireOffers(old(DeskNow()), d, epoch, delivered)
    {
      offers := map o | o in offers ::
        if Retires(d, epoch, delivered, o) then offers[o].(confirmed := true) else offers[o];
    }

    method ReconcileDelivered(d: DriverId, full: bool) returns (r: Answer<Pull>)
      requires Valid()
      modifies this`offers
      ensures Valid()
      ensures Outcome(DeskNow(), r) == Delivery.ReconcileDelivered(BoardNow(), old(DeskNow()), d, full)
    {
      ReconcileKeepsInv(BoardNow(), DeskNow(), d, full);
      if d !in deliveries || d !in registrations {
        return Refused(UnknownDriver);
      }
      var c := deliveries[d];
      if c.delivered <= c.acked {
        return Granted(Pull(c.acked, [], c.acked, 0));
      }
      if !HasExact(DeskNow(), d, c.delivered) {
        return Refused(NoExactConfirmedOffer);
      }
      var before := offers;
      RetireSettledOffers(d, registrations[d].epoch, c.delivered);
      if exists o :: o in offers && o.driver == d && o.gen < c.delivered && !offers[o].confirmed {
        offers := before;
        return Refused(OlderOfferUnconfirmed);
      }
      var rows := SnapshotRows(BoardNow(), c.delivered, if full then None else Some(c.acked));
      var total := TrackedCount(BoardNow(), c.delivered);
      return Granted(Pull(c.delivered, rows, c.acked, if total >= |rows| then total - |rows| else 0));
    }

    method AckDelivered(d: DriverId, through: nat) returns (r: Answer<bool>)
      requires Valid()
      modifies this`deliveries
      ensures Valid()
      ensures Outcome(DeskNow(), r) == Delivery.AckDelivered(old(DeskNow()), d, through)
    {
      AckDeliveredKeepsInv(latestGeneration, DeskNow(), d, through);
      if d !in deliveries {
        return Refused(UnknownDriver);
      }
      var c := deliveries[d];
      if through == c.acked {
        return Granted(false);
      }
      if through != c.delivered || through < c.acked {
        return Refused(NotTheDeliveredCursor);
      }
      if exists o :: o in offers && o.driver == d && o.gen <= through && !offers[o].confirmed {
        return Refused(UnconfirmedOffer);
      }
      deliveries := deliveries[d := c.(acked := through, state := Pending)];
      return Granted(true);
    }

    method AckGeneration(d: DriverId, session: SessionId, e: Epoch, through: nat) returns (r: Answer<bool>)
      requires Valid()
      modifies this`offers, this`deliveries
      ensures Valid()
      ensures Outcome(DeskNow(), r) == Delivery.AckGeneration(old(DeskNow()), d, session, e, through)
    {
      AckGenerationKeepsInv(latestGeneration, DeskNow(), d, session, e, through);
      if !Current(DeskNow(), d, session, e) {
        return Refused(StaleEpoch);
      }
      var c := deliveries[d];
      if through < c.acked {
        return Refused(StaleAck);
      }
      if through == c.acked {
        return Granted(false);
      }
      if through > c.delivered {
        return Refused(UndeliveredAck);
      }
      deliveries := deliveries[d := c.(acked := through, state := Pending)];
      offers := map o | o in offers ::
        if o.driver == d && o.gen <= through then offers[o].(confirmed := true) else offers[o];
      return Granted(true);
    }

    method DisableDriverAuthority(d: DriverId) returns (r: Answer<()>)
      requires Valid()
      modifies this`registrations, this`deliveries, this`offers, this`disabled
      ensures Valid()
      ensures Outcome(DeskNow(), r) == Disable(old(DeskNow()), d)
    {
      DisableKeepsInv(latestGeneration, DeskNow(), d);
      if d in disabled {
        if d in registrations || d in deliveries {
          return Refused(InconsistentAuthority);
        }
        return Granted(());
      }
      if d !in deliveries {
        return Refused(UnknownDriver);
      }
      var c := deliveries[d];
      if !(c.latest == c.delivered == c.acked) {
        return Refused(GenerationsPending);
      }
      disabled := disabled + {d};
      registrations := registrations - {d};
      offers := map o | o in offers && o.driver != d :: offers[o];
      deliveries := deliveries - {d};
      return Granted(());
    }
  }
}
