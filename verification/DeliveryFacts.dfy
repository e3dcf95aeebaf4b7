/** What the delivery ledger guarantees to a driver, at any state its transactions can reach. */
module DeliveryFacts {
  import opened Common
  import opened Report
  import opened Generations
  import opened Delivery

  // ---- fail-closed branches are unreachable ---------------------------------------

  /** An offer is refused only to a stale connection; its primary key never collides. */
  lemma OfferNeverCollides(b: Board, k: Desk, d: DriverId, session: SessionId, e: Epoch)
    requires DriverInv(b.latest, k, d)
    ensures OfferNotification(b, k, d, session, e).answer.Granted? <==> Current(k, d, session, e)
  {
    if Current(k, d, session, e) {
      var c := k.deliveries[d];
      var g := if c.delivered > c.acked then c.delivered else c.latest;
      if Outstanding(k, d, session, e) == {} && c.latest > c.acked
         && !(c.delivered > c.acked && ConfirmedHere(k, d, session, e, g)) {
        OfferKeyIsFree(b.latest, k, d, session, e, g);
      }
    }
  }

  /** Registration is refused only to a disabled driver or a changed harness. */
  lemma RegisterRefusals(latest: nat, k: Desk, d: DriverId, session: SessionId, harness: Harness)
    requires DriverInv(latest, k, d)
    ensures var a := Register(latest, k, d, session, harness).answer;
            && (a == Refused(AuthorityDisabled) <==> d in k.disabled)
            && (a == Refused(HarnessImmutable) <==> d in k.registrations && k.registrations[d].harness != harness)
            && a != Refused(PrimaryKeyConflict)
  {
  }

  /** A disabled driver keeps no authority rows, so a retried disable always succeeds. */
  lemma DisableRetries(latest: nat, k: Desk, d: DriverId)
    requires DriverInv(latest, k, d)
    ensures Disable(k, d).answer.Granted? <==>
            d in k.disabled || (d in k.deliveries && k.deliveries[d].acked == latest)
    ensures Disable(k, d).answer.Granted? ==>
            d in Disable(k, d).desk.disabled && Disable(Disable(k, d).desk, d) == Outcome(Disable(k, d).desk, Granted(()))
  {
  }

  /** A registered driver can always reconcile: the exact confirmed offer is there, no older one is open. */
  lemma ReconcileNeverFails(b: Board, k: Desk, d: DriverId, full: bool)
    requires DeskInv(b.latest, k)
    ensures ReconcileDelivered(b, k, d, full).answer.Granted? <==> d in k.registrations
  {
    assert DriverInv(b.latest, k, d);
    if d in k.registrations && k.deliveries[d].delivered > k.deliveries[d].acked {
      RetireKeepsInv(b.latest, k, d);
    }
  }

  /** Acknowledging what a reconcile just returned always succeeds, and moves exactly the acked cursor. */
  lemma AckAfterReconcile(b: Board, k: Desk, d: DriverId, full: bool)
    requires DeskInv(b.latest, k) && d in k.registrations && d in k.deliveries
    requires k.deliveries[d].delivered > k.deliveries[d].acked
    ensures var n := ReconcileDelivered(b, k, d, full).desk;
            var a := AckDelivered(n, d, k.deliveries[d].delivered);
            && a.answer == Granted(true)
            && d in a.desk.deliveries && a.desk.deliveries[d].acked == k.deliveries[d].delivered
            && a.desk.deliveries[d].delivered == k.deliveries[d].delivered
  {
    ReconcileNeverFails(b, k, d, full);
    RetireKeepsInv(b.latest, k, d);
  }

  /** An offer that an earlier connection left open, and that the delivered cursor has reached. */
  predicate LeftOpen(k: Desk, d: DriverId, o: OfferKey)
    requires d in k.registrations && d in k.deliveries
  {
    && o in k.offers && o.driver == d && !k.offers[o].confirmed
    && o.epoch < k.registrations[d].epoch && k.deliveries[d].acked < o.gen <= k.deliveries[d].delivered
  }

  /**
   * Without a pull first, the exact acknowledgement is refused iff an earlier
   * connection left an offer open that it would pass, or the current one has
   * the redelivery of that cursor outstanding.
   */
  lemma AckNeedsPullIff(latest: nat, k: Desk, d: DriverId)
    requires DriverInv(latest, k, d) && d in k.registrations && d in k.deliveries
    requires k.deliveries[d].delivered > k.deliveries[d].acked
    ensures var g := k.deliveries[d].delivered;
            AckDelivered(k, d, g).answer != Granted(true) <==>
              (exists o :: LeftOpen(k, d, o)) || Unanswered(k, OfferKey(d, k.registrations[d].epoch, g))
  {
    var g, e := k.deliveries[d].delivered, k.registrations[d].epoch;
    forall o | o in k.offers && o.driver == d && o.gen <= g && !k.offers[o].confirmed
      ensures LeftOpen(k, d, o) || (o == OfferKey(d, e, g) && Unanswered(k, o))
    {
      assert OfferOk(k.registrations[d], k.deliveries[d], o, k.offers[o]);
    }
  }

  /** Over a driver's first connection the exact acknowledgement never needs a pull. */
  lemma FirstConnectionAcks(latest: nat, k: Desk, d: DriverId)
    requires DriverInv(latest, k, d) && d in k.registrations && k.registrations[d].epoch == 1
    requires k.deliveries[d].delivered > k.deliveries[d].acked
    ensures AckDelivered(k, d, k.deliveries[d].delivered).answer == Granted(true)
  {
    var g := k.deliveries[d].delivered;
    AckNeedsPullIff(latest, k, d);
    var exact :| exact in k.offers && exact.driver == d && exact.gen == g && k.offers[exact].confirmed;
    assert OfferOk(k.registrations[d], k.deliveries[d], exact, k.offers[exact]);
    assert exact == OfferKey(d, 1, g);
    forall o ensures !LeftOpen(k, d, o) {
      if o in k.offers && o.driver == d { assert OfferOk(k.registrations[d], k.deliveries[d], o, k.offers[o]); }
    }
  }

  /** Every call over a superseded connection is refused and changes nothing. */
  lemma StaleCallsFail(b: Board, k: Desk, d: DriverId, session: SessionId, e: Epoch, g: nat,
                       state: DeliveryState, error: Option<string>)
    requires !Current(k, d, session, e)
    ensures NotificationFrontier(b, k, d, session, e) == Refused(StaleEpoch)
    ensures OfferNotification(b, k, d, session, e) == Outcome(k, Refused(StaleEpoch))
    ensures Withdraw(k, d, session, e, g) == Outcome(k, Refused(StaleEpoch))
    ensures RecordOutcome(k, d, session, e, g, state, error).desk == k
    ensures RecordOutcome(k, d, session, e, g, state, error).answer.Refused?
    ensures ConfirmDelivery(k, d, session, e, g) == Outcome(k, Refused(StaleEpoch))
    ensures AckGeneration(k, d, session, e, g) == Outcome(k, Refused(StaleEpoch))
    ensures Reconcile(b, k, d, session, e, g) == Refused(StaleEpoch)
  {
  }

  /** Registering anew makes every earlier connection of the driver stale. */
  lemma RegisterSupersedes(latest: nat, k: Desk, d: DriverId, session: SessionId, harness: Harness,
                           oldSession: SessionId, e: Epoch)
    requires DriverInv(latest, k, d) && Current(k, d, oldSession, e)
    requires Register(latest, k, d, session, harness).answer.Granted?
    ensures var n := Register(latest, k, d, session, harness);
            && !Current(n.desk, d, oldSession, e) && Current(n.desk, d, session, n.answer.value)
            && n.answer.value > e && Outstanding(n.desk, d, session, n.answer.value) == {}
            && n.desk.deliveries == k.deliveries
  {
    var n := Register(latest, k, d, session, harness);
    forall o | o in n.desk.offers ensures !IsOutstanding(n.desk, d, session, n.answer.value, o) {
    }
  }

  // ---- no lost wake -----------------------------------------------------------------

  /** A connection gets no wake iff nothing is pending or it already confirmed the delivered cursor. */
  lemma NoWakeIff(b: Board, k: Desk, d: DriverId, session: SessionId, e: Epoch)
    requires DriverInv(b.latest, k, d) && Current(k, d, session, e)
    ensures var c := k.deliveries[d];
            OfferNotification(b, k, d, session, e).answer == Granted(None) <==>
            c.acked == b.latest || (c.delivered > c.acked && ConfirmedHere(k, d, session, e, c.delivered))
  {
    OfferNeverCollides(b, k, d, session, e);
    OutstandingIsUnanswered(b.latest, k, d, session, e);
    var c := k.deliveries[d];
    var open := Outstanding(k, d, session, e);
    if open != {} {
      var g := Least(open);
      assert Unanswered(k, OfferKey(d, e, g));
    }
  }

  /** What a granted wake carries, and that its offer then stands unanswered. */
  lemma WakeFacts(b: Board, k: Desk, d: DriverId, session: SessionId, e: Epoch)
    requires DriverInv(b.latest, k, d) && Current(k, d, session, e)
    requires OfferNotification(b, k, d, session, e).answer != Granted(None)
    ensures var r, c := OfferNotification(b, k, d, session, e), k.deliveries[d];
            && r.answer.Granted? && r.answer.value.Some?
            && var g := r.answer.value.value.generation;
            && r.answer.value.value == WakeFor(b, c.acked, g)
            && c.acked < g <= b.latest && (g == c.delivered || c.delivered == c.acked)
            && Unanswered(r.desk, OfferKey(d, e, g))
            && r.desk.deliveries == k.deliveries && r.desk.registrations == k.registrations
            && (r.desk.offers == k.offers || r.desk.offers == k.offers[OfferKey(d, e, g) := Offer(session, false)])
            && (OfferKey(d, e, g) in k.offers ==> r.desk == k)
  {
    OfferNeverCollides(b, k, d, session, e);
    OutstandingIsUnanswered(b.latest, k, d, session, e);
    var open := Outstanding(k, d, session, e);
    if open != {} {
      assert Unanswered(k, OfferKey(d, e, Least(open)));
    }
  }

  /** A fresh connection with anything pending is offered the delivered cursor again, else the latest. */
  lemma FreshConnectionIsOffered(b: Board, k: Desk, d: DriverId, session: SessionId, e: Epoch)
    requires DriverInv(b.latest, k, d) && Current(k, d, session, e) && Offered(k, d, session, e) == {}
    requires k.deliveries[d].acked < b.latest
    ensures var c := k.deliveries[d];
            var g := if c.delivered > c.acked then c.delivered else b.latest;
            OfferNotification(b, k, d, session, e).answer == Granted(Some(WakeFor(b, c.acked, g)))
  {
    OfferNeverCollides(b, k, d, session, e);
    OfferedKeys(b.latest, k, d, session, e);
    OutstandingIsUnanswered(b.latest, k, d, session, e);
    forall g ensures g !in Outstanding(k, d, session, e) {
      assert Unanswered(k, OfferKey(d, e, g)) ==> g in Offered(k, d, session, e);
    }
  }

  /** The read-only frontier and the mutating offer agree on silence, generation and priority. */
  lemma FrontierAgrees(b: Board, k: Desk, d: DriverId, session: SessionId, e: Epoch)
    requires DriverInv(b.latest, k, d) && Current(k, d, session, e)
    ensures var f, o := NotificationFrontier(b, k, d, session, e), OfferNotification(b, k, d, session, e).answer;
            && f.Granted? && o.Granted? && (f.value == None <==> o.value == None)
            && (f.value.Some? ==>
                  && f.value.value.generation == o.value.value.generation
                  && f.value.value.priority == o.value.value.priority)
  {
    OfferNeverCollides(b, k, d, session, e);
  }

  // ---- an offer stays exact -----------------------------------------------------------

  /** No acknowledgement, answer, retirement or registration of driver d lies between the states. */
  ghost predicate Untouched(k: Desk, n: Desk, d: DriverId) {
    && d in k.registrations && d in n.registrations && k.registrations[d] == n.registrations[d]
    && d in k.deliveries && d in n.deliveries
    && k.deliveries[d].acked == n.deliveries[d].acked
    && (forall o :: Unanswered(k, o) && o.driver == d ==> Unanswered(n, o))
  }

  lemma SameWake(b: Board, n: Board, after: nat, g: nat)
    requires BoardInv(b) && Extends(b, n) && NumberInv(n) && g <= b.latest
    ensures WakeFor(n, after, g) == WakeFor(b, after, g)
  {
    assert WindowTasks(n, after, g) == WindowTasks(b, after, g);
    assert forall x :: x in n.generations && after < x <= g ==> x in b.generations;
  }

  /** Asking again, whatever arrived meanwhile, returns the identical generation, priority and count. */
  lemma OfferIsExact(b: Board, k: Desk, b': Board, k': Desk, d: DriverId, session: SessionId, e: Epoch)
    requires BoardInv(b) && BoardInv(b') && Extends(b, b')
    requires DriverInv(b.latest, k, d) && DriverInv(b'.latest, k', d) && Current(k, d, session, e)
    requires OfferNotification(b, k, d, session, e).answer != Granted(None)
    requires Untouched(OfferNotification(b, k, d, session, e).desk, k', d)
    ensures OfferNotification(b', k', d, session, e)
            == Outcome(k', OfferNotification(b, k, d, session, e).answer)
  {
    WakeFacts(b, k, d, session, e);
    var first := OfferNotification(b, k, d, session, e);
    var g := first.answer.value.value.generation;
    assert Unanswered(k', OfferKey(d, e, g));
    OutstandingIsUnanswered(b'.latest, k', d, session, e);
    assert g in Outstanding(k', d, session, e);
    assert Outstanding(k', d, session, e) == {g};
    SameWake(b, b', k.deliveries[d].acked, g);
  }

  // ---- what one call undoes or leaves alone ----------------------------------------------

  /** The wake just offered is this connection's unconfirmed row, in a ledger that still holds its invariant. */
  lemma WakeIsHeld(b: Board, k: Desk, d: DriverId, session: SessionId, e: Epoch)
    requires DeskInv(b.latest, k) && Current(k, d, session, e)
    requires OfferNotification(b, k, d, session, e).answer != Granted(None)
    ensures var offer := OfferNotification(b, k, d, session, e);
            && offer.answer.Granted? && offer.answer.value.Some?
            && UnconfirmedHere(offer.desk, d, session, e, offer.answer.value.value.generation)
            && DeskInv(b.latest, offer.desk) && Current(offer.desk, d, session, e)
  {
    assert DriverInv(b.latest, k, d);
    WakeFacts(b, k, d, session, e);
    OfferKeepsInv(b, k, d, session, e);
    var n := OfferNotification(b, k, d, session, e).desk;
    assert DriverInv(b.latest, n, d);
    var key := OfferKey(d, e, OfferNotification(b, k, d, session, e).answer.value.value.generation);
    assert OfferOk(n.registrations[d], n.deliveries[d], key, n.offers[key]);
  }

  /** Withdrawing the wake just offered leaves no trace, unless that offer had stood before: then it is gone. */
  lemma WithdrawUndoesOffer(b: Board, k: Desk, d: DriverId, session: SessionId, e: Epoch)
    requires DeskInv(b.latest, k) && Current(k, d, session, e)
    requires OfferNotification(b, k, d, session, e).answer != Granted(None)
    ensures var offer := OfferNotification(b, k, d, session, e);
            && offer.answer.Granted? && offer.answer.value.Some?
            && var key := OfferKey(d, e, offer.answer.value.value.generation);
            && Withdraw(offer.desk, d, session, e, key.gen)
               == Outcome(k.(offers := k.offers - {key}), Granted(()))
            && (key !in k.offers ==> k.(offers := k.offers - {key}) == k)
  {
    assert DriverInv(b.latest, k, d);
    WakeIsHeld(b, k, d, session, e);
    WakeFacts(b, k, d, session, e);
    var offer := OfferNotification(b, k, d, session, e);
    var key := OfferKey(d, e, offer.answer.value.value.generation);
    assert offer.desk.offers - {key} == k.offers - {key};
    assert offer.desk.disabled == k.disabled;
  }

  /**
   * A deferral or an error consumes nothing: it is always recorded for the
   * wake just offered, and offering again returns that very wake.
   */
  lemma RetryIsExact(b: Board, k: Desk, d: DriverId, session: SessionId, e: Epoch, state: DeliveryState, error: Option<string>)
    requires BoardInv(b) && DeskInv(b.latest, k) && Current(k, d, session, e) && state in {Deferred, Errored}
    requires OfferNotification(b, k, d, session, e).answer != Granted(None)
    ensures var offer := OfferNotification(b, k, d, session, e);
            && offer.answer.Granted? && offer.answer.value.Some?
            && var r := RecordOutcome(offer.desk, d, session, e, offer.answer.value.value.generation, state, error);
            && r.answer == Granted(())
            && OfferNotification(b, r.desk, d, session, e) == Outcome(r.desk, offer.answer)
  {
    assert DriverInv(b.latest, k, d);
    WakeIsHeld(b, k, d, session, e);
    var offer := OfferNotification(b, k, d, session, e);
    var g := offer.answer.value.value.generation;
    RecordKeepsInv(b.latest, offer.desk, d, session, e, g, state, error);
    var n := RecordOutcome(offer.desk, d, session, e, g, state, error).desk;
    assert DriverInv(b.latest, n, d);
    OfferIsExact(b, k, b, n, d, session, e);
  }

  /** After a pull both acknowledgements of the delivered cursor do exactly the same. */
  lemma AcksAgree(b: Board, k: Desk, d: DriverId, session: SessionId, e: Epoch, full: bool)
    requires DeskInv(b.latest, k) && Current(k, d, session, e)
    ensures var n := ReconcileDelivered(b, k, d, full).desk;
            AckGeneration(n, d, session, e, k.deliveries[d].delivered) == AckDelivered(n, d, k.deliveries[d].delivered)
  {
    assert DriverInv(b.latest, k, d);
    var g := k.deliveries[d].delivered;
    if g > k.deliveries[d].acked {
      AckAfterReconcile(b, k, d, full);
      ReconcileKeepsInv(b, k, d, full);
      var n := ReconcileDelivered(b, k, d, full).desk;
      assert DriverInv(b.latest, n, d);
      forall o | o in n.offers && o.driver == d && o.gen <= g ensures n.offers[o].confirmed {
        assert OfferOk(n.registrations[d], n.deliveries[d], o, n.offers[o]);
      }
      assert RetireThrough(n, d, g).offers == n.offers;
    }
  }

  // ---- draining -------------------------------------------------------------------------

  /** One honest round of a driver: take the wake if any, confirm it, reconcile, acknowledge. */
  function Round(b: Board, k: Desk, d: DriverId, session: SessionId, e: Epoch): Desk {
    var offer := OfferNotification(b, k, d, session, e);
    var woken := match offer.answer
                 case Granted(Some(w)) => ConfirmDelivery(offer.desk, d, session, e, w.generation).desk
                 case _ => offer.desk;
    var pulled := ReconcileDelivered(b, woken, d, false);
    match pulled.answer
    case Granted(p) => AckDelivered(pulled.desk, d, p.through).desk
    case Refused(_) => pulled.desk
  }

  /** The offer's generation is the greatest of its epoch, so confirming it is what the ledger expects. */
  lemma WakeConfirms(b: Board, k: Desk, d: DriverId, session: SessionId, e: Epoch)
    requires DeskInv(b.latest, k) && Current(k, d, session, e)
    requires OfferNotification(b, k, d, session, e).answer != Granted(None)
    ensures var offer := OfferNotification(b, k, d, session, e);
            && DeskInv(b.latest, offer.desk) && offer.answer.Granted? && offer.answer.value.Some?
            && ConfirmDelivery(offer.desk, d, session, e, offer.answer.value.value.generation).answer == Granted(true)
  {
    assert DriverInv(b.latest, k, d);
    WakeFacts(b, k, d, session, e);
    OfferKeepsInv(b, k, d, session, e);
    var n := OfferNotification(b, k, d, session, e).desk;
    assert DriverInv(b.latest, n, d);
    OpenIsGreatest(b.latest, n, d, session, e, OfferNotification(b, k, d, session, e).answer.value.value.generation);
  }

  lemma OpenIsGreatest(latest: nat, k: Desk, d: DriverId, session: SessionId, e: Epoch, g: nat)
    requires DriverInv(latest, k, d) && Current(k, d, session, e) && Unanswered(k, OfferKey(d, e, g))
    ensures g in Offered(k, d, session, e) && Greatest(Offered(k, d, session, e)) == g
    ensures ConfirmDelivery(k, d, session, e, g).answer == Granted(true)
  {
    OfferedKeys(latest, k, d, session, e);
    var offered := Offered(k, d, session, e);
    forall h | h in offered ensures h <= g {
      var o := OfferKey(d, e, h);
      assert o in k.offers && OfferOk(k.registrations[d], k.deliveries[d], o, k.offers[o]);
      assert !k.offers[o].confirmed ==> Unanswered(k, o);
    }
  }

  /** One round acknowledges everything delivered; from an idle cursor it reaches the offered generation. */
  lemma RoundAdvances(b: Board, k: Desk, d: DriverId, session: SessionId, e: Epoch)
    requires DeskInv(b.latest, k) && Current(k, d, session, e)
    ensures var n, c := Round(b, k, d, session, e), k.deliveries[d];
            && DeskInv(b.latest, n) && Current(n, d, session, e)
            && n.deliveries[d].acked == n.deliveries[d].delivered >= c.delivered
            && (c.acked < b.latest ==> n.deliveries[d].acked > c.acked)
            && (c.delivered == c.acked && Outstanding(k, d, session, e) == {} ==> n.deliveries[d].acked == b.latest)
            && Outstanding(n, d, session, e) == {}
  {
    assert DriverInv(b.latest, k, d);
    var offer := OfferNotification(b, k, d, session, e);
    NoWakeIff(b, k, d, session, e);
    var woken := offer.desk;
    if offer.answer != Granted(None) {
      WakeFacts(b, k, d, session, e);
      WakeConfirms(b, k, d, session, e);
      var g := offer.answer.value.value.generation;
      ConfirmKeepsInv(b.latest, offer.desk, d, session, e, g);
      woken := ConfirmDelivery(offer.desk, d, session, e, g).desk;
    }
    FinishRound(b, woken, d, session, e);
  }

  /** Reconcile and acknowledge leave nothing delivered unacknowledged, and nothing outstanding. */
  lemma FinishRound(b: Board, k: Desk, d: DriverId, session: SessionId, e: Epoch)
    requires DeskInv(b.latest, k) && Current(k, d, session, e)
    requires k.deliveries[d].delivered == k.deliveries[d].acked ==> Outstanding(k, d, session, e) == {}
    ensures var pulled := ReconcileDelivered(b, k, d, false);
            && pulled.answer.Granted?
            && var n := AckDelivered(pulled.desk, d, pulled.answer.value.through).desk;
            && DeskInv(b.latest, n) && Current(n, d, session, e)
            && n.deliveries[d].acked == n.deliveries[d].delivered == k.deliveries[d].delivered
            && Outstanding(n, d, session, e) == {}
  {
    assert DriverInv(b.latest, k, d);
    ReconcileNeverFails(b, k, d, false);
    ReconcileKeepsInv(b, k, d, false);
    var pulled := ReconcileDelivered(b, k, d, false);
    AckDeliveredKeepsInv(b.latest, pulled.desk, d, pulled.answer.value.through);
    if k.deliveries[d].delivered > k.deliveries[d].acked {
      AckAfterReconcile(b, k, d, false);
      RetireKeepsInv(b.latest, k, d);
    }
  }

  /**
   * No wake is ever lost: from any reachable state, two rounds of the current
   * connection acknowledge everything that had been bumped.
   */
  lemma TwoRoundsDrain(b: Board, k: Desk, d: DriverId, session: SessionId, e: Epoch)
    requires DeskInv(b.latest, k) && Current(k, d, session, e)
    ensures var n := Round(b, Round(b, k, d, session, e), d, session, e);
            && Current(n, d, session, e)
            && n.deliveries[d].acked == n.deliveries[d].delivered == n.deliveries[d].latest == b.latest
  {
    RoundAdvances(b, k, d, session, e);
    var mid := Round(b, k, d, session, e);
    RoundAdvances(b, mid, d, session, e);
    assert DriverInv(b.latest, mid, d);
    var n := Round(b, mid, d, session, e);
    assert DriverInv(b.latest, n, d);
  }
}
