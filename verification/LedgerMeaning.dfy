/**
 * What every call on the delivery ledger answers and changes, read off the
 * rows before and after: which wake a connection gets and how urgent it is,
 * exactly when each call is granted, and everything it leaves alone.
 */
module LedgerMeaning {
  import opened Common
  import opened Report
  import opened Generations
  import opened Delivery
  import opened DeliveryFacts
  import opened Store
  import opened StoreRuns

  // ---- the wake --------------------------------------------------------------------

  /** A generation after the first cursor and up to the second was taken as urgent. */
  ghost predicate UrgentBetween(b: Board, after: nat, through: nat) {
    exists g :: after < g <= through && g in b.generations && b.generations[g] == Urgent
  }

  /** The tasks whose changes took the generations between two cursors. */
  function TasksBetween(b: Board, after: nat, through: nat): set<TaskId> {
    set k | k in b.changed && after < k.gen <= through :: k.task
  }

  /** The generation a connection is owed: its open offer, else the unacknowledged delivery, else the latest. */
  ghost predicate IsOwed(k: Desk, d: DriverId, e: Epoch, g: nat)
    requires d in k.deliveries
  {
    var c := k.deliveries[d];
    if exists h :: Unanswered(k, OfferKey(d, e, h)) then Unanswered(k, OfferKey(d, e, g))
    else g == if c.delivered > c.acked then c.delivered else c.latest
  }

  /** A granted wake names the owed generation, how urgent its window is, and how many tasks changed in it. */
  lemma WakeMeans(b: Board, k: Desk, d: DriverId, session: SessionId, e: Epoch)
    requires DriverInv(b.latest, k, d) && Current(k, d, session, e)
    requires OfferNotification(b, k, d, session, e).answer != Granted(None)
    ensures var r, acked := OfferNotification(b, k, d, session, e), k.deliveries[d].acked;
            && r.answer.Granted? && r.answer.value.Some?
            && var w := r.answer.value.value;
            && IsOwed(k, d, e, w.generation) && acked < w.generation <= b.latest
            && (w.priority == Urgent <==> UrgentBetween(b, acked, w.generation))
            && w.taskCount == |TasksBetween(b, acked, w.generation)|
            && r.desk.offers == k.offers[OfferKey(d, e, w.generation) := Offer(session, false)]
            && r.desk == k.(offers := r.desk.offers)
  {
    WakeFacts(b, k, d, session, e);
    OutstandingIsUnanswered(b.latest, k, d, session, e);
    var open := Outstanding(k, d, session, e);
    if open != {} {
      assert Unanswered(k, OfferKey(d, e, Least(open)));
      assert k.offers[OfferKey(d, e, Least(open))] == Offer(session, false);
    } else {
      assert forall h :: !Unanswered(k, OfferKey(d, e, h));
    }
  }

  /** The frontier names the same generation and urgency, and is immediate for an open offer and for a redelivery only. */
  lemma FrontierMeans(b: Board, k: Desk, d: DriverId, session: SessionId, e: Epoch)
    requires DriverInv(b.latest, k, d) && Current(k, d, session, e)
    ensures var r, c := NotificationFrontier(b, k, d, session, e), k.deliveries[d];
            && r.Granted?
            && (r.value.None? <==> c.acked == b.latest || (c.delivered > c.acked && ConfirmedHere(k, d, session, e, c.delivered)))
            && (r.value.Some? ==>
                  var f := r.value.value;
                  && IsOwed(k, d, e, f.generation)
                  && (f.priority == Urgent <==> UrgentBetween(b, c.acked, f.generation))
                  && (f.immediate <==> Unanswered(k, OfferKey(d, e, f.generation)) || c.delivered > c.acked))
  {
    FrontierAgrees(b, k, d, session, e);
    NoWakeIff(b, k, d, session, e);
    OutstandingIsUnanswered(b.latest, k, d, session, e);
    var r := NotificationFrontier(b, k, d, session, e);
    if r.value.Some? {
      WakeMeans(b, k, d, session, e);
      assert forall h :: h in Outstanding(k, d, session, e) <==> Unanswered(k, OfferKey(d, e, h));
    }
  }

  // ---- what each call grants and changes ---------------------------------------------------

  /** No row of another driver differs. */
  ghost predicate OthersStay(k: Desk, n: Desk, d: DriverId) { forall x :: x != d ==> SameDriver(k, n, x) }

  /** A first registration starts at the current generation with nothing delivered; a later one only takes the next epoch. */
  lemma RegisterMeans(latest: nat, k: Desk, d: DriverId, session: SessionId, harness: Harness)
    requires DriverInv(latest, k, d)
    ensures var r := Register(latest, k, d, session, harness); var n := r.desk;
            && (r.answer.Granted? <==> d !in k.disabled && (d in k.registrations ==> k.registrations[d].harness == harness))
            && (r.answer.Refused? ==> n == k)
            && (r.answer.Granted? ==>
                  && r.answer.value == (if d in k.registrations then k.registrations[d].epoch + 1 else 1)
                  && n.registrations == k.registrations[d := Registration(session, harness, r.answer.value)]
                  && n.deliveries == (if d in k.registrations then k.deliveries
                                      else k.deliveries[d := Cursors(latest, 0, 0, Pending, None)])
                  && n.offers == k.offers && n.disabled == k.disabled)
  {
  }

  /** A withdrawal deletes this connection's unconfirmed offer of that generation, and nothing else. */
  lemma WithdrawMeans(latest: nat, k: Desk, d: DriverId, session: SessionId, e: Epoch, g: nat)
    requires DriverInv(latest, k, d) && Current(k, d, session, e)
    ensures var r := Withdraw(k, d, session, e, g);
            && (r.answer == if Unanswered(k, OfferKey(d, e, g)) then Granted(()) else Refused(NotTheUnconfirmedOffer))
            && r.desk == if r.answer.Granted? then k.(offers := k.offers - {OfferKey(d, e, g)}) else k
  {
  }

  /**
   * A deferral or error is recorded for an unconfirmed offer, ignored for an
   * acknowledged one, and refused otherwise; it moves no cursor and no offer.
   */
  lemma RecordMeans(latest: nat, k: Desk, d: DriverId, session: SessionId, e: Epoch, g: nat,
                    state: DeliveryState, error: Option<string>)
    requires DriverInv(latest, k, d) && Current(k, d, session, e)
    ensures var r, c := RecordOutcome(k, d, session, e, g, state, error), k.deliveries[d];
            var o := OfferKey(d, e, g);
            var late := o in k.offers && k.offers[o].confirmed && g <= c.acked;
            && (r.answer == Refused(NotADeferral) <==> state != Deferred && state != Errored)
            && (state == Deferred || state == Errored ==>
                  r.answer == if Unanswered(k, o) || late then Granted(()) else Refused(NotTheOutstandingOffer))
            && (r.answer.Refused? || late ==> r.desk == k)
            && (r.answer.Granted? && !late ==>
                  exists kept ::
                    && r.desk == k.(deliveries := k.deliveries[d := Cursors(c.latest, c.delivered, c.acked, state, kept)])
                    && Shortened(error, kept))
  {
    var r := RecordOutcome(k, d, session, e, g, state, error);
    if r.answer.Granted? && r.desk != k {
      assert Shortened(error, r.desk.deliveries[d].lastError);
    }
    if Unanswered(k, OfferKey(d, e, g)) {
      assert Shortened(error, Clip(error));
    }
  }

  /** The stored text is the error up to its 128th character. */
  ghost predicate Shortened(error: Option<string>, kept: Option<string>) {
    && (kept.Some? <==> error.Some?)
    && (error.Some? ==>
          && kept.value <= error.value && |kept.value| <= 128
          && (|error.value| <= 128 ==> kept == error) && (|error.value| > 128 ==> |kept.value| == 128))
  }

  /** The newest offer of the connection is the given generation. */
  ghost predicate NewestOffer(k: Desk, d: DriverId, e: Epoch, g: nat) {
    OfferKey(d, e, g) in k.offers && forall o :: o in k.offers && o.driver == d && o.epoch == e ==> o.gen <= g
  }

  /** Only the newest offer can be confirmed; confirming it delivers exactly its generation and acknowledges nothing. */
  lemma ConfirmMeans(latest: nat, k: Desk, d: DriverId, session: SessionId, e: Epoch, g: nat)
    requires DriverInv(latest, k, d) && Current(k, d, session, e)
    ensures var r, c, o := ConfirmDelivery(k, d, session, e, g), k.deliveries[d], OfferKey(d, e, g);
            && (r.answer == if !NewestOffer(k, d, e, g) then Refused(NotTheOutstandingOffer)
                            else Granted(!k.offers[o].confirmed))
            && (r.answer != Granted(true) ==> r.desk == k)
            && (r.answer == Granted(true) ==>
                  && r.desk.offers == k.offers[o := Offer(session, true)]
                  && r.desk.deliveries == k.deliveries[d := Cursors(c.latest, g, c.acked, Delivered, None)]
                  && r.desk.registrations == k.registrations && r.desk.disabled == k.disabled)
  {
    OfferedKeys(latest, k, d, session, e);
    NewestIsGreatest(latest, k, d, session, e, g);
    if ConfirmDelivery(k, d, session, e, g).answer == Granted(true) {
      ConfirmRaises(latest, k, d, session, e, g);
    }
  }

  lemma NewestIsGreatest(latest: nat, k: Desk, d: DriverId, session: SessionId, e: Epoch, g: nat)
    requires DriverInv(latest, k, d) && Current(k, d, session, e)
    ensures NewestOffer(k, d, e, g) <==> Offered(k, d, session, e) != {} && Greatest(Offered(k, d, session, e)) == g
  {
    OfferedKeys(latest, k, d, session, e);
    var offered := Offered(k, d, session, e);
    forall o | o in k.offers && o.driver == d && o.epoch == e ensures o.gen in offered {
      assert o == OfferKey(d, e, o.gen);
    }
    if NewestOffer(k, d, e, g) {
      assert g in offered;
      assert OfferKey(d, e, Greatest(offered)) in k.offers;
    }
  }

  /**
   * A pull returns the window from the acknowledged to the delivered cursor and
   * how many tracked tasks it leaves out. It moves no cursor; if there is
   * anything to pull it answers every offer of the driver.
   */
  lemma PullMeans(b: Board, k: Desk, d: DriverId, full: bool)
    requires DeskInv(b.latest, k) && d in k.registrations
    ensures var r := ReconcileDelivered(b, k, d, full);
            && r.answer.Granted? && d in k.deliveries
            && var c, p := k.deliveries[d], r.answer.value;
            && p.since == c.acked && r.desk == k.(offers := r.desk.offers)
            && (c.delivered == c.acked ==> p == Pull(c.acked, [], c.acked, 0) && r.desk == k)
            && (c.delivered > c.acked ==>
                  && p.through == c.delivered
                  && r.desk.offers.Keys == k.offers.Keys
                  && forall o :: o in k.offers ==>
                       r.desk.offers[o] == k.offers[o].(confirmed := k.offers[o].confirmed || o.driver == d))
  {
    assert DriverInv(b.latest, k, d);
    ReconcileNeverFails(b, k, d, full);
    if k.deliveries[d].delivered > k.deliveries[d].acked {
      RetireKeepsInv(b.latest, k, d);
    }
  }

  /** The exact acknowledgement consumes the delivered cursor alone, and only over answered offers. */
  lemma AckDeliveredMeans(latest: nat, k: Desk, d: DriverId, through: nat)
    requires DriverInv(latest, k, d) && d in k.deliveries
    ensures var r, c := AckDelivered(k, d, through), k.deliveries[d];
            && (r.answer == Granted(false) <==> through == c.acked)
            && (r.answer == Granted(true) <==>
                  c.acked < through == c.delivered
                  && forall o :: o in k.offers && o.driver == d && o.gen <= through ==> k.offers[o].confirmed)
            && (r.answer == Refused(UnconfirmedOffer) <==>
                  c.acked < through == c.delivered
                  && exists o :: o in k.offers && o.driver == d && o.gen <= through && !k.offers[o].confirmed)
            && r.desk == if r.answer != Granted(true) then k
                         else k.(deliveries := k.deliveries[d := Cursors(c.latest, c.delivered, through, Pending, c.lastError)])
  {
  }

  /**
   * The bound acknowledgement consumes exactly what it names: a generation
   * beyond the acknowledged and up to the delivered cursor.
   */
  lemma AckGenerationMeans(latest: nat, k: Desk, d: DriverId, session: SessionId, e: Epoch, through: nat)
    requires DriverInv(latest, k, d) && Current(k, d, session, e)
    ensures var r, c := AckGeneration(k, d, session, e, through), k.deliveries[d]; var n := r.desk;
            && (r.answer == Granted(true) <==> c.acked < through <= c.delivered)
            && (r.answer == Granted(false) <==> through == c.acked)
            && (r.answer == Refused(StaleAck) <==> through < c.acked)
            && (r.answer == Refused(UndeliveredAck) <==> through > c.delivered)
            && (r.answer != Granted(true) ==> n == k)
            && (r.answer == Granted(true) ==>
                  && n.deliveries == k.deliveries[d := Cursors(c.latest, c.delivered, through, Pending, c.lastError)]
                  && n.registrations == k.registrations && n.disabled == k.disabled && n.offers.Keys == k.offers.Keys
                  && (forall o :: o in k.offers && o.driver != d ==> n.offers[o] == k.offers[o])
                  && (forall o :: o in k.offers && o.driver == d ==>
                        && n.offers[o].session == k.offers[o].session
                        && (n.offers[o].confirmed <==> k.offers[o].confirmed || o.gen <= through)))
  {
  }

  /** A driver can be disabled iff nothing bumped is unacknowledged; its rows go, and no other row does. */
  lemma DisableMeans(latest: nat, k: Desk, d: DriverId)
    requires DriverInv(latest, k, d)
    ensures var r := Disable(k, d); var n := r.desk;
            && (r.answer.Granted? <==> d in k.disabled || (d in k.deliveries && k.deliveries[d].acked == latest))
            && (r.answer == Refused(UnknownDriver) <==> d !in k.disabled && d !in k.registrations)
            && (r.answer.Refused? ==> n == k)
            && (r.answer.Granted? ==>
                  && n.disabled == k.disabled + {d} && d !in n.registrations && d !in n.deliveries
                  && (forall o :: o in n.offers ==> o.driver != d)
                  && OthersStay(k, n, d))
  {
    if d in k.disabled {
      assert k.disabled + {d} == k.disabled;
    }
  }

  // ---- over whole runs ------------------------------------------------------------------------

  predicate Acknowledges(step: Step, d: DriverId, g: nat) {
    (step.AckDeliveredStep? && step.d == d && step.through == g)
    || (step.AckGenerationStep? && step.d == d && step.through == g)
  }

  /** Some acknowledgement of the run named generation g. */
  ghost predicate NamedByAck(steps: seq<Step>, d: DriverId, g: nat) {
    exists i :: 0 <= i < |steps| && Acknowledges(steps[i], d, g)
  }

  predicate AckedBy(k: Desk, step: Step, d: DriverId, n: Desk) {
    d in n.deliveries ==>
      Acknowledges(step, d, n.deliveries[d].acked)
      || (if d in k.deliveries then n.deliveries[d].acked == k.deliveries[d].acked else n.deliveries[d].acked == 0)
  }

  lemma DeskAcks(b: Board, k: Desk, step: Step, d: DriverId)
    requires !step.AcceptStep? && !step.LivenessStep?
    ensures AckedBy(k, step, d, DeskStep(b, k, step))
  {
  }

  lemma StepAcks(t: Tables, step: Step, d: DriverId)
    requires StoreInv(t)
    ensures AckedBy(t.desk, step, d, Next(t, step).desk)
  {
    match step
    case AcceptStep(ev, folder) => AcceptKeeps(t, ev, folder);
    case LivenessStep(task, pane, adapter) => LivenessRowsKeep(t, SessionsOf(t.inbox, task), task, pane, adapter);
    case _ => DeskAcks(t.board, t.desk, step, d);
  }

  /** Nothing is ever consumed that no acknowledgement named: the acked cursor is 0 or a generation some call gave. */
  lemma {:induction false} AckedWasNamed(steps: seq<Step>, d: DriverId)
    requires d in After(steps).desk.deliveries
    ensures var acked := After(steps).desk.deliveries[d].acked; acked == 0 || NamedByAck(steps, d, acked)
  {
    if steps != [] {
      var before, last := steps[..|steps| - 1], steps[|steps| - 1];
      RunKeepsInv(before);
      StepAcks(After(before), last, d);
      var acked := After(steps).desk.deliveries[d].acked;
      if Acknowledges(last, d, acked) {
        assert Acknowledges(steps[|steps| - 1], d, acked);
      } else if d in After(before).desk.deliveries {
        AckedWasNamed(before, d);
        if i :| 0 <= i < |before| && Acknowledges(before[i], d, acked) {
          assert steps[i] == before[i];
        }
      }
    }
  }
}
