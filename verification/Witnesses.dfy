/**
 * Runs from the empty state that exhibit the inputs on which a promise fails:
 * a lost subscription, a refused record, and a repeated report that is not silent.
 */
module Witnesses {
  import opened Common
  import opened Report
  import opened Generations
  import opened Delivery
  import opened Store
  import opened StoreRuns
  import opened DeliveryFacts
  import C = Coalescing
  import H = Handoff
  import HM = HandoffMeaning
  import L = Lifecycle
  import Liveness = LivenessFacts
  import M = MembershipRuns
  import MembershipFacts
  import Mb = Membership
  import S = SendRuns
  import Q = PendingSends

  // ---- a subscription that is lost --------------------------------------------------

  const PANE: Mb.Members := map[1 := "a"]

  const CONNECT: seq<M.Move> :=
    [M.Scan(PANE, {}, true), M.Started, M.BeginRead(1), M.EndRead, M.ApplyRead, M.Succeed]

  lemma RunSnoc(w: M.World, moves: seq<M.Move>, move: M.Move)
    ensures M.Run(w, moves + [move]) == M.Step(M.Run(w, moves), move)
  {
    assert (moves + [move])[..|moves + [move]| - 1] == moves;
  }

  const NONE := M.Saved(map[], map[])

  const SCANNED := M.START.(scanner := M.Starting(PANE, NONE), routes := map[1 := 1])

  const STARTED := M.World(PANE, map[], map[1 := 1], map[0 := M.Stream(map[1 := Mb.Leg("a", 1)], "", {})],
                           None, Some(0), 1, false, M.Reconciling({1}, None, NONE, 0), [])

  const READING := STARTED.(scanner := M.Reconciling({1}, Some(M.Read(1, 0, 0, None)), NONE, 0))

  const READ := STARTED.(scanner := M.Reconciling({1}, Some(M.Read(1, 0, 0, Some(1))), NONE, 0))

  const LEVELLED := STARTED.(scanner := M.Reconciling({}, None, NONE, 0), log := [M.FromLevel(1, "a", 0)])

  const CONNECTED := STARTED.(current := Some(0), scanner := M.Draining(None, {1}),
                              log := [M.FromLevel(1, "a", 0), M.Replaced({1}, 0)])

  lemma Scanned()
    ensures M.Step(M.START, CONNECT[0]) == SCANNED
  {
    assert Mb.KeepKnown(map[], PANE, {}) == PANE;
    assert Mb.Changed(map[], PANE) == {1};
    assert Mb.Bumped(map[], {1}) == map[1 := 1];
  }

  lemma Started()
    ensures M.Step(SCANNED, CONNECT[1]) == STARTED
  {
    assert Mb.Routing(PANE, map[1 := 1]) == map[1 := Mb.Leg("a", 1)];
    assert PANE.Keys == {1};
  }

  lemma Levelled()
    ensures M.Step(STARTED, CONNECT[2]) == READING && M.Step(READING, CONNECT[3]) == READ
    ensures M.Step(READ, CONNECT[4]) == LEVELLED
  {
    assert 1 in PANE && PANE[1] == "a";
    assert {1} - {1} == {};
  }

  lemma Connected()
    ensures M.Step(LEVELLED, CONNECT[5]) == CONNECTED
  {
    assert Mb.Changed(map[], PANE) == {1};
  }

  lemma ConnectedRun()
    ensures M.Run(M.START, CONNECT) == CONNECTED
  {
    Scanned();
    Started();
    Levelled();
    Connected();
    Steps(CONNECT, 6);
    assert CONNECT[..6] == CONNECT;
  }

  /** A run unfolds move by move. */
  lemma {:induction false} Steps(moves: seq<M.Move>, n: nat)
    requires n <= |moves|
    ensures n > 0 ==> M.Run(M.START, moves[..n]) == M.Step(M.Run(M.START, moves[..n - 1]), moves[n - 1])
    ensures forall k :: 0 < k <= n ==> M.Run(M.START, moves[..k]) == M.Step(M.Run(M.START, moves[..k - 1]), moves[k - 1])
    ensures M.Run(M.START, moves[..0]) == M.START
  {
    if n > 0 {
      Steps(moves, n - 1);
      assert moves[..n][..n - 1] == moves[..n - 1];
    }
  }

  predicate Lost(w: M.World) { w.scanner.Rest? && w.current.Some? && w.streams == map[] && !w.rebuild }

  /** The first stream connects and dies during its own drain: it is lost. */
  lemma LostInDrain()
    ensures Lost(M.Run(M.START, CONNECT + [M.Die(0)] + [M.EndDrain]))
  {
    ConnectedRun();
    M.StartInv();
    M.RunKeeps(M.START, CONNECT);
    RunSnoc(M.START, CONNECT, M.Die(0));
    RunSnoc(M.START, CONNECT + [M.Die(0)], M.EndDrain);
    MembershipFacts.DrainLosesDeath(CONNECTED);
  }

  /** The connected stream dies while a replacement for a moved pane is under way, which then fails: it is lost. */
  lemma LostInFailure()
    ensures Lost(M.Run(M.START, CONNECT + [M.EndDrain] + [M.Scan(map[1 := "b"], {}, false)] + [M.Started] + [M.Die(0)] + [M.Fail]))
  {
    ConnectedRun();
    var drained := CONNECT + [M.EndDrain];
    var moved := drained + [M.Scan(map[1 := "b"], {}, false)];
    M.StartInv();
    M.RunKeeps(M.START, drained);
    RunSnoc(M.START, CONNECT, M.EndDrain);
    RunSnoc(M.START, drained, M.Scan(map[1 := "b"], {}, false));
    RunSnoc(M.START, moved, M.Started);
    RunSnoc(M.START, moved + [M.Started], M.Die(0));
    RunSnoc(M.START, moved + [M.Started] + [M.Die(0)], M.Fail);
    var w := M.Run(M.START, drained);
    assert w == CONNECTED.(scanner := M.Rest);
    assert PANE[1] != "b";
    MembershipFacts.FailLosesDeath(w, map[1 := "b"]);
  }

  // ---- a record that is refused ---------------------------------------------------------

  const CREW := Identity(Claude, Crew, Some(1), None)
  const HELLO := Envelope("hello", "a", CREW, 1, L.SessionRegister)
  const NOTHING := Folder(false, Unreadable)

  /** The first event of a crew without a readable handoff takes the first generation. */
  lemma FirstBump()
    ensures var t := AcceptEvent(EMPTY_STORE, HELLO, NOTHING).0;
            StoreInv(t) && t.board.latest == 1 && t.desk.registrations == map[] && t.desk.disabled == {}
  {
    EmptyInv();
    assert Obstacle(EMPTY_STORE, HELLO).None?;
    AcceptKeeps(EMPTY_STORE, HELLO, NOTHING);
    FreshOutcome(EMPTY_STORE, HELLO, NOTHING);
    FirstChange();
  }

  lemma FirstChange()
    requires Written(EMPTY_STORE, HELLO, NOTHING).Some?
    ensures var n := Written(EMPTY_STORE, HELLO, NOTHING).value; var m := BumpedBy(EMPTY_STORE, n, HELLO);
            m.Some? && m.value.board.latest == 1
  {
    EmptyInv();
    WrittenKeeps(EMPTY_STORE, HELLO, NOTHING);
    var n := Written(EMPTY_STORE, HELLO, NOTHING).value;
    assert Summarize(Unreadable).state == Malformed;
    assert 1 in n.board.projections && n.board.projections[1].reason == MalformedReport;
    var change := ChangeBetween(EMPTY_STORE, n, HELLO);
    assert change.Some? && change.value.task == 1;
    BumpNeverCollides(n.board, change.value);
  }

  /** Registering, taking and confirming the wake, and registering again leaves a fresh connection that owes a redelivery. */
  lemma ReconnectOwes(b: Board, k: Desk, d: DriverId)
    requires DeskInv(b.latest, k) && b.latest >= 1 && d !in k.registrations && d !in k.disabled
    ensures var k1 := Register(b.latest, k, d, "one", Claude).desk;
            var k2 := OfferNotification(b, k1, d, "one", 1).desk;
            var k3 := ConfirmDelivery(k2, d, "one", 1, b.latest).desk;
            var k4 := Register(b.latest, k3, d, "two", Claude).desk;
            && DeskInv(b.latest, k4) && Current(k4, d, "two", 2) && Offered(k4, d, "two", 2) == {}
            && k4.deliveries[d].acked < k4.deliveries[d].delivered
  {
    assert DriverInv(b.latest, k, d);
    RegisterKeepsInv(b.latest, k, d, "one", Claude);
    var k1 := Register(b.latest, k, d, "one", Claude).desk;
    assert DriverInv(b.latest, k1, d);
    forall o | o in k1.offers ensures o.driver != d { assert o in k.offers; }
    assert Offered(k1, d, "one", 1) == {};
    FreshConnectionIsOffered(b, k1, d, "one", 1);
    WakeConfirms(b, k1, d, "one", 1);
    var k2 := OfferNotification(b, k1, d, "one", 1).desk;
    ConfirmKeepsInv(b.latest, k2, d, "one", 1, b.latest);
    var k3 := ConfirmDelivery(k2, d, "one", 1, b.latest).desk;
    assert k2.deliveries == k1.deliveries;
    assert k3.deliveries[d].delivered == b.latest && k3.deliveries[d].acked == 0;
    assert DriverInv(b.latest, k3, d);
    RegisterKeepsInv(b.latest, k3, d, "two", Claude);
    var k4 := Register(b.latest, k3, d, "two", Claude).desk;
    forall o | o in k4.offers && o.driver == d ensures o.epoch != 2 {
      assert OfferOk(k3.registrations[d], k3.deliveries[d], o, k3.offers[o]);
    }
    assert Offered(k4, d, "two", 2) == {};
  }

  const RECONNECT: seq<Step> :=
    [AcceptStep(HELLO, NOTHING), RegisterStep("driver", "one", Claude), OfferStep("driver", "one", 1),
     ConfirmStep("driver", "one", 1, 1), RegisterStep("driver", "two", Claude)]

  lemma NextRegister(t: Tables, d: DriverId, session: SessionId)
    ensures Next(t, RegisterStep(d, session, Claude)) == t.(desk := Register(t.board.latest, t.desk, d, session, Claude).desk)
  {
  }

  lemma NextOffer(t: Tables, d: DriverId, session: SessionId, e: Epoch)
    ensures Next(t, OfferStep(d, session, e)) == t.(desk := OfferNotification(t.board, t.desk, d, session, e).desk)
  {
  }

  lemma NextConfirm(t: Tables, d: DriverId, session: SessionId, e: Epoch, g: nat)
    ensures Next(t, ConfirmStep(d, session, e, g)) == t.(desk := ConfirmDelivery(t.desk, d, session, e, g).desk)
  {
  }

  /** The store after the reconnecting run, from the store t after its first event. */
  function Reconnected(t: Tables): Tables {
    var k1 := Register(t.board.latest, t.desk, "driver", "one", Claude).desk;
    var k2 := OfferNotification(t.board, k1, "driver", "one", 1).desk;
    var k3 := ConfirmDelivery(k2, "driver", "one", 1, 1).desk;
    t.(desk := Register(t.board.latest, k3, "driver", "two", Claude).desk)
  }

  lemma ReconnectSteps(t: Tables)
    requires After(RECONNECT[..1]) == t
    ensures After(RECONNECT) == Reconnected(t)
  {
    Unfolds(RECONNECT, 5);
    assert RECONNECT[..5] == RECONNECT;
    var t1 := After(RECONNECT[..2]);
    NextRegister(t, "driver", "one");
    var t2 := After(RECONNECT[..3]);
    NextOffer(t1, "driver", "one", 1);
    var t3 := After(RECONNECT[..4]);
    NextConfirm(t2, "driver", "one", 1, 1);
    NextRegister(t3, "driver", "two");
  }

  lemma FirstStep()
    ensures After(RECONNECT[..1]) == AcceptEvent(EMPTY_STORE, HELLO, NOTHING).0
  {
    assert RECONNECT[..1][..0] == [];
  }

  lemma ReconnectRun()
    ensures var t := After(RECONNECT);
            && DeskInv(t.board.latest, t.desk) && Current(t.desk, "driver", "two", 2)
            && Offered(t.desk, "driver", "two", 2) == {}
            && t.desk.deliveries["driver"].acked < t.desk.deliveries["driver"].delivered
  {
    FirstBump();
    FirstStep();
    var t := AcceptEvent(EMPTY_STORE, HELLO, NOTHING).0;
    ReconnectSteps(t);
    ReconnectOwes(t.board, t.desk, "driver");
  }

  lemma {:induction false} Unfolds(steps: seq<Step>, n: nat)
    requires n <= |steps|
    ensures After(steps[..0]) == EMPTY_STORE
    ensures forall k :: 0 < k <= n ==> After(steps[..k]) == Next(After(steps[..k - 1]), steps[k - 1])
  {
    if n > 0 {
      Unfolds(steps, n - 1);
      assert steps[..n][..n - 1] == steps[..n - 1];
    }
  }

  /** From the empty database: reconnect, poll, take the wake, let a pull run, defer: the record is refused. */
  lemma RaceFromEmpty(window: nat, full: bool)
    ensures var t := After(RECONNECT);
            var w := C.Binding("driver", "two", 2, window);
            var m := C.Machine(t.board, t.desk, None, None, None, map[], 0, [], [], []);
            var taken := C.Step(w, C.TryPoll(w, m, "poll"), C.Take("poll"));
            var back := C.Step(w, C.Step(w, taken, C.World(C.Pulled(full))), C.Return("poll", C.Status.Deferred));
            C.Step(w, back, C.Record("poll")).refusals == [NotTheOutstandingOffer]
  {
    ReconnectRun();
    var t := After(RECONNECT);
    var w := C.Binding("driver", "two", 2, window);
    C.ReconcileRace(w, C.Machine(t.board, t.desk, None, None, None, map[], 0, [], [], []), "poll", full);
  }

  // ---- a repeated report that is not silent -------------------------------------------------

  const BODY: seq<H.Line> :=
    [H.Field(H.Artifacts, H.Text("x")), H.Field(H.Did, H.Text("x")), H.Field(H.InputsNeeded, H.NoneWord),
     H.Field(H.Pending, H.NoneWord), H.Field(H.VerdictKey, H.Word(H.Done))]

  const GOOD: seq<H.Line> := [H.TurnHeading(1, "turn")] + BODY

  const FIELDS: H.Fields :=
    map[H.Artifacts := H.Text("x"), H.Did := H.Text("x"), H.InputsNeeded := H.NoneWord,
        H.Pending := H.NoneWord, H.VerdictKey := H.Word(H.Done)]

  lemma {:induction false} FieldsOnly(lines: seq<H.Line>, more: seq<H.Line>)
    requires forall i :: 0 <= i < |more| ==> more[i].Field?
    ensures H.Turns(lines + more) == H.Turns(lines) && H.OtherTitles(lines + more) == H.OtherTitles(lines)
  {
    if more == [] {
      assert lines + more == lines;
    } else {
      var less := more[..|more| - 1];
      FieldsOnly(lines, less);
      assert (lines + more)[..|lines + more| - 1] == lines + less;
    }
  }

  lemma BodyFields()
    ensures H.FirstFields(BODY) == FIELDS && H.Repeated(BODY) == {}
  {
    assert BODY[..4][..3] == BODY[..3] && BODY[..3][..2] == BODY[..2] && BODY[..2][..1] == BODY[..1] && BODY[..1][..0] == [];
    assert H.FirstFields(BODY[..1]) == map[H.Artifacts := H.Text("x")] && H.Repeated(BODY[..1]) == {};
    assert H.FirstFields(BODY[..2]) == map[H.Artifacts := H.Text("x"), H.Did := H.Text("x")] && H.Repeated(BODY[..2]) == {};
    assert H.FirstFields(BODY[..3]).Keys == {H.Artifacts, H.Did, H.InputsNeeded} && H.Repeated(BODY[..3]) == {};
    assert H.FirstFields(BODY[..4]).Keys == {H.Artifacts, H.Did, H.InputsNeeded, H.Pending} && H.Repeated(BODY[..4]) == {};
  }

  lemma {:induction false} PickNone(keys: seq<H.Key>)
    ensures H.Pick(keys, {}) == []
  {
    if keys != [] {
      PickNone(keys[1..]);
    }
  }

  lemma GoodBlock()
    ensures var b := H.BlocksOf(GOOD);
            |b| == 1 && b[0].index == 1 && b[0].fields == FIELDS && b[0].errors == []
  {
    var heading := [H.TurnHeading(1, "turn")];
    FieldsOnly(heading, BODY);
    assert heading[..0] == [];
    assert H.Turns(GOOD) == [0];
    H.TurnsArePositions(GOOD);
    assert H.Body(GOOD, [0], 0) == BODY;
    BodyFields();
    assert SetOf(H.REQUIRED) - FIELDS.Keys == {};
    PickNone(H.REQUIRED);
    PickNone(H.KNOWN);
    assert H.FieldErrors(FIELDS, {}) == [];
  }

  lemma CleanParse(lines: seq<H.Line>)
    requires forall k :: 0 <= k < |lines| ==> !lines[k].OtherHeading?
    requires forall i :: 0 <= i < |H.BlocksOf(lines)| ==> H.BlocksOf(lines)[i].errors == []
    ensures H.Parse(lines, H.Absent, H.Absent).errors == []
  {
    HM.ErrorFreeIff(lines, H.Absent, H.Absent);
  }

  lemma GoodParse()
    ensures H.Parse(GOOD, H.Absent, H.Absent).errors == []
  {
    GoodBlock();
    forall k | 0 <= k < |GOOD| ensures !GOOD[k].OtherHeading? {}
    CleanParse(GOOD);
  }

  /** A complete handoff block with verdict done and nothing wanted. */
  lemma GoodReport()
    ensures var s := Summarize(Captured(GOOD, H.Absent, H.Absent)); s.state == Valid && s.verdict == DONE
  {
    GoodParse();
    GoodBlock();
    assert GOOD[0].TurnHeading?;
    StateMeans(GOOD, H.Absent, H.Absent);
    ParsedFacts(GOOD, H.Absent, H.Absent);
    var p := H.Parse(GOOD, H.Absent, H.Absent);
    NothingWaits(p.blocks, p.ackedThrough);
    VerdictMeans(GOOD, H.Absent, H.Absent);
  }

  /** A block that is done and wants nothing waits for no answer. */
  lemma NothingWaits(blocks: seq<H.Block>, acked: nat)
    requires |blocks| == 1 && blocks[0].fields == FIELDS
    ensures forall i: nat :: !H.Waits(blocks, acked, i)
  {
  }

  const DONE_FOLDER := Folder(true, Captured(GOOD, H.Absent, H.Absent))
  const A1 := Envelope("a1", "a", CREW, 1, L.SessionRegister)
  const A2 := Envelope("a2", "a", CREW, 2, L.TurnStop(L.CertifiedClear))
  const B1 := Envelope("b1", "b", CREW, 1, L.SessionRegister)
  const TWO: seq<Step> := [AcceptStep(A1, DONE_FOLDER), AcceptStep(A2, DONE_FOLDER), AcceptStep(B1, DONE_FOLDER)]

  /** What accepting a registered crew's fresh event leaves behind. */
  lemma AcceptLeaves(t: Tables, ev: Envelope, folder: Folder)
    requires StoreInv(t) && Find(t.inbox.events, ev.id).None? && Obstacle(t, ev).None?
    requires ev.identity == CREW && RegisteredBy(t, ev)
    ensures var n := AcceptEvent(t, ev, folder).0;
            && StoreInv(n) && n.inbox == InboxAfter(t, ev)
            && 1 in n.board.projections && n.board.projections[1].detail.report == Summarize(folder.capture)
  {
    AcceptFresh(t, ev, folder);
    FreshOutcome(t, ev, folder);
    WrittenReport(t, ev, folder);
    var n := Written(t, ev, folder).value;
    var change := ChangeBetween(t, n, ev);
    if change.Some? && BumpAll(n, change.value).Some? {
      BumpKeepsReport(n, change.value);
    }
  }

  lemma WrittenReport(t: Tables, ev: Envelope, folder: Folder)
    requires ev.identity == CREW && RegisteredBy(t, ev) && Written(t, ev, folder).Some?
    ensures var n := Written(t, ev, folder).value;
            1 in n.board.projections && n.board.projections[1].detail.report == Summarize(folder.capture)
  {
  }

  lemma BumpKeepsReport(n: Tables, c: Change)
    requires BumpAll(n, c).Some? && 1 in n.board.projections
    ensures var m := BumpAll(n, c).value;
            1 in m.board.projections && m.board.projections[1].detail == n.board.projections[1].detail
  {
  }

  lemma StateAfter(t: Tables, ev: Envelope)
    ensures SessionState(InboxAfter(t, ev), ev.session) == ReducedBy(t, ev).state
    ensures forall s :: s != ev.session ==> SessionState(InboxAfter(t, ev), s) == SessionState(t.inbox, s)
  {
    L.DocumentRoundTrip(ReducedBy(t, ev).state);
  }

  const REGISTERED := L.INITIAL.(producerSeq := 1)

  const CLEAR := REGISTERED.(producerSeq := 2, availability := L.Quiescent, front := L.Front(L.Stopped, true, false),
                             back := L.Back(L.Clear, true, true, {}, 0, false))

  lemma ClearState()
    ensures L.Reduce(L.INITIAL, L.Event(1, L.SessionRegister)) == L.Reduction(REGISTERED, L.Applied)
    ensures L.Reduce(REGISTERED, L.Event(2, L.TurnStop(L.CertifiedClear))) == L.Reduction(CLEAR, L.Applied)
  {
  }

  /** One registered session, its turn stopped with nothing in the background. */
  ghost predicate OneSession(t: Tables) {
    && StoreInv(t) && t.inbox.order == ["a"] && t.inbox.sessions.Keys == {"a"}
    && t.inbox.sessions["a"].identity == CREW && SessionState(t.inbox, "a") == CLEAR
    && |t.inbox.events| == 2 && t.inbox.events[0] == A1 && t.inbox.events[1] == A2
  }

  lemma FirstSession()
    ensures OneSession(After(TWO[..2]))
  {
    Unfolds(TWO, 2);
    FirstEvent(DONE_FOLDER);
    SecondEvent(After(TWO[..1]), DONE_FOLDER);
  }

  lemma FirstEvent(folder: Folder)
    ensures var n := AcceptEvent(EMPTY_STORE, A1, folder).0;
            && StoreInv(n) && n.inbox == InboxAfter(EMPTY_STORE, A1) && SessionState(n.inbox, "a") == REGISTERED
  {
    EmptyInv();
    ClearState();
    AcceptLeaves(EMPTY_STORE, A1, folder);
    StateAfter(EMPTY_STORE, A1);
  }

  lemma SecondEvent(t: Tables, folder: Folder)
    requires StoreInv(t) && t.inbox == InboxAfter(EMPTY_STORE, A1) && SessionState(t.inbox, "a") == REGISTERED
    ensures OneSession(AcceptEvent(t, A2, folder).0)
  {
    ClearState();
    assert t.inbox.events == [A1];
    assert Find(t.inbox.events, "a2").None? && t.inbox.sessions["a"].identity == CREW;
    AcceptLeaves(t, A2, folder);
    StateAfter(t, A2);
  }

  lemma SecondSession(t: Tables, folder: Folder)
    requires OneSession(t)
    ensures var n := AcceptEvent(t, B1, folder).0;
            && StoreInv(n) && n.inbox.order == ["a", "b"] && n.inbox.sessions.Keys == {"a", "b"}
            && n.inbox.sessions["a"].identity == CREW && n.inbox.sessions["b"].identity == CREW
            && SessionState(n.inbox, "a") == CLEAR && SessionState(n.inbox, "b") == REGISTERED
            && 1 in n.board.projections && n.board.projections[1].detail.report == Summarize(folder.capture)
  {
    ClearState();
    assert t.inbox.events == [A1, A2];
    assert Find(t.inbox.events, "b1").None?;
    AcceptLeaves(t, B1, folder);
    StateAfter(t, B1);
  }

  lemma TwoSessions()
    ensures var t := After(TWO);
            && StoreInv(t) && 1 in t.board.projections && SessionsOf(t.inbox, 1) == ["a", "b"]
            && "a" in t.inbox.sessions && "b" in t.inbox.sessions
            && SessionState(t.inbox, "a") == CLEAR && SessionState(t.inbox, "b") == REGISTERED
            && t.board.projections[1].detail.report == Summarize(DONE_FOLDER.capture)
  {
    FirstSession();
    Unfolds(TWO, 3);
    assert TWO[..3] == TWO;
    SecondSession(After(TWO[..2]), DONE_FOLDER);
    TwoRows(After(TWO).inbox);
  }

  lemma TwoRows(inbox: Inbox)
    requires inbox.order == ["a", "b"] && inbox.sessions.Keys == {"a", "b"}
    requires inbox.sessions["a"].identity == CREW && inbox.sessions["b"].identity == CREW
    ensures SessionsOf(inbox, 1) == ["a", "b"]
  {
    assert inbox.order[1..] == ["b"] && inbox.order[1..][1..] == [];
    assert Matching(inbox, [], 1) == [] && Matching(inbox, ["b"], 1) == ["b"];
  }

  /** Of two sessions of one task, only the quiescent one gives its finished report a reason. */
  lemma ReasonsDiffer(t: Tables)
    requires 1 in t.board.projections && "a" in t.inbox.sessions && "b" in t.inbox.sessions
    requires SessionState(t.inbox, "a") == CLEAR && SessionState(t.inbox, "b") == REGISTERED
    requires var report := t.board.projections[1].detail.report; report.state == Valid && report.verdict == DONE
    ensures Liveness.ReasonBy(t, "a", 1, Some(true)) == QuiescentTask
    ensures Liveness.ReasonBy(t, "b", 1, Some(true)) == NoReason
  {
  }

  /** From the empty database: with two such sessions the host repeating itself takes a generation again. */
  lemma RepeatIsNotSilent()
    ensures var n := ReconcileLiveness(After(TWO), 1, Some(true), None);
            ReconcileLiveness(n, 1, Some(true), None).board.latest != n.board.latest
  {
    TwoSessions();
    GoodReport();
    var t := After(TWO);
    ReasonsDiffer(t);
    Liveness.RepeatIsQuietIff(t, 1, Some(true));
    var reasons := Liveness.Reasons(t, ["a", "b"], 1, Some(true));
    assert reasons[0] != reasons[1];
  }

  // ---- a follow-up that lands after it was given up ------------------------------------------

  const OLD := Q.SendRow("old", 1, "text", Q.Pending, None, 0, 7200)

  const ENQUEUED: S.Move := S.Enqueue("old", 1, "text", 0, 7200)

  /** One row, claimed by observer a. */
  const CLAIMED := S.Machine([OLD.(state := Q.Delivering)], map["a" := S.Flight(OLD, S.Holding)], [0], [])

  lemma ClaimedRun()
    ensures S.Run(S.EMPTY, [ENQUEUED] + [S.ClaimReady("a", 1)]) == CLAIMED && S.MachineInv(CLAIMED)
  {
    S.RunOne(S.EMPTY, ENQUEUED);
    S.RunSnoc(S.EMPTY, [ENQUEUED], S.ClaimReady("a", 1));
    assert S.Step(S.EMPTY, ENQUEUED) == S.Machine([OLD], map[], [], []);
    assert Q.PendingAt([OLD], 1) == Some(0);
    S.NeverPendingAgain(S.EMPTY, [ENQUEUED] + [S.ClaimReady("a", 1)]);
  }

  /** Superseded while its observer holds it, the older text lands and is recorded delivered. */
  lemma SupersededLands()
    ensures var n := S.Run(S.Step(CLAIMED, S.Enqueue("new", 1, "other", 1, 7200)), [S.Submit("a", None)] + [S.Resolve("a")]);
            |n.rows| > 0 && n.rows[0].id == "old" && n.rows[0].state.Delivered? && "old" in n.sent
  {
    ClaimedRun();
    S.ClaimedMayStillLand(CLAIMED, "a", 0, S.Enqueue("new", 1, "other", 1, 7200));
  }

  /** An hour after it was enqueued, and however recently it was claimed, the sweep fails it; then it lands. */
  lemma SweptLands()
    ensures var swept := S.Step(CLAIMED, S.Sweep(3600, 3600));
            |swept.rows| > 0 && swept.rows[0].state.Failed? && swept.rows[0].error == Some(Q.ABANDONED)
    ensures var n := S.Run(S.Step(CLAIMED, S.Sweep(3600, 3600)), [S.Submit("a", None)] + [S.Resolve("a")]);
            |n.rows| > 0 && n.rows[0].id == "old" && n.rows[0].state.Delivered? && "old" in n.sent
  {
    ClaimedRun();
    S.ClaimedMayStillLand(CLAIMED, "a", 0, S.Sweep(3600, 3600));
  }
}
