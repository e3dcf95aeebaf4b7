/** When a repeated host observation is silent: the edge detection of the liveness transaction. */
module LivenessFacts {
  import opened Common
  import opened Report
  import opened Generations
  import opened Delivery
  import opened Store
  import opened StoreRuns
  import Lifecycle
  import SessionFold

  lemma ObservedTwice(s: Lifecycle.State, pane: Option<bool>)
    ensures Observed(Observed(s, pane, None), pane, None) == Observed(s, pane, None)
  {
  }

  /** Refreshing again with the same state and pane changes nothing, whatever generation was taken meanwhile. */
  lemma RefreshedTwice(p: Projection, s: Lifecycle.State, pane: Option<bool>, g: nat)
    requires Refresh(p, s, pane).Some?
    ensures var q := Refresh(p, s, pane).value.(generation := g); Refresh(q, s, pane) == Some(q)
  {
  }

  lemma BumpTouches(n: Tables, c: Change)
    requires BumpAll(n, c).Some? && ChangeLegal(n.board, c)
    ensures var m := BumpAll(n, c).value; var q := n.board.projections[c.task];
            && m.inbox == n.inbox && c.task in m.board.projections
            && m.board.projections[c.task] == q.(generation := n.board.latest + 1)
  {
  }

  ghost predicate RegeneratedFrom(p: Projection, q: Projection) { p == q.(generation := p.generation) }

  /** What one row leaves behind: its session observed, and the projection refreshed by it. */
  lemma RowLeaves(t: Tables, session: SessionId, task: TaskId, pane: Option<bool>)
    requires StoreInv(t) && session in t.inbox.sessions && task in t.board.projections
    ensures LivenessRow(t, session, task, pane, None).Some? && LivenessWritten(t, session, task, pane, None).Some?
    ensures var w := LivenessWritten(t, session, task, pane, None).value;
            var n := LivenessRow(t, session, task, pane, None).value;
            && n.inbox == w.inbox && task in w.board.projections && task in n.board.projections
            && RegeneratedFrom(n.board.projections[task], w.board.projections[task])
  {
    LivenessWrittenKeeps(t, session, task, pane, None);
    LivenessRowKeeps(t, session, task, pane, None);
    var w := LivenessWritten(t, session, task, pane, None).value;
    var change := LivenessEdge(t, w, session, task, None);
    if change.Some? {
      BumpTouches(w, change.value);
    }
  }

  lemma WrittenHolds(t: Tables, session: SessionId, task: TaskId, pane: Option<bool>)
    requires session in t.inbox.sessions && task in t.board.projections
    requires LivenessWritten(t, session, task, pane, None).Some?
    ensures var w := LivenessWritten(t, session, task, pane, None).value;
            var s := Observed(Lifecycle.FromDocument(t.inbox.sessions[session].document), pane, None);
            && session in w.inbox.sessions && w.inbox.sessions[session].document == Lifecycle.ToDocument(s)
            && task in w.board.projections && Refresh(t.board.projections[task], s, pane) == Some(w.board.projections[task])
  {
  }

  /** The same observation of the same session again changes no table. */
  lemma RepeatedRowIsSilent(t: Tables, session: SessionId, task: TaskId, pane: Option<bool>)
    requires StoreInv(t)
    ensures LivenessRow(t, session, task, pane, None).Some?
    ensures var n := LivenessRow(t, session, task, pane, None).value;
            LivenessRow(n, session, task, pane, None) == Some(n)
  {
    LivenessRowKeeps(t, session, task, pane, None);
    var n := LivenessRow(t, session, task, pane, None).value;
    if session in t.inbox.sessions {
      var was := Lifecycle.FromDocument(t.inbox.sessions[session].document);
      Lifecycle.DocumentRoundTrip(Observed(was, pane, None));
      ObservedTwice(was, pane);
      if task in t.board.projections {
        RowLeaves(t, session, task, pane);
        WrittenHolds(t, session, task, pane);
        RefreshedTwice(t.board.projections[task], Observed(was, pane, None), pane, n.board.projections[task].generation);
        SilentAgain(n, session, task, pane);
      } else {
        assert n.inbox.sessions == n.inbox.sessions[session := n.inbox.sessions[session]];
      }
    }
  }

  lemma SilentAgain(n: Tables, session: SessionId, task: TaskId, pane: Option<bool>)
    requires session in n.inbox.sessions && task in n.board.projections
    requires var row := n.inbox.sessions[session]; var s := Lifecycle.FromDocument(row.document);
             && Observed(s, pane, None) == s && Lifecycle.ToDocument(s) == row.document
             && Refresh(n.board.projections[task], s, pane) == Some(n.board.projections[task])
    ensures LivenessRow(n, session, task, pane, None) == Some(n)
  {
    assert n.inbox.sessions == n.inbox.sessions[session := n.inbox.sessions[session]];
    assert n.board.projections == n.board.projections[task := n.board.projections[task]];
  }

  /** Observing never changes which sessions a task has. */
  lemma RowKeepsSessions(t: Tables, session: SessionId, task: TaskId, pane: Option<bool>)
    requires LivenessRow(t, session, task, pane, None).Some?
    ensures var n := LivenessRow(t, session, task, pane, None).value;
            && n.inbox.order == t.inbox.order && n.inbox.sessions.Keys == t.inbox.sessions.Keys
            && forall s :: s in t.inbox.sessions ==> n.inbox.sessions[s].identity == t.inbox.sessions[s].identity
  {
  }

  lemma {:induction false} SameMatching(a: Inbox, b: Inbox, order: seq<SessionId>, task: TaskId)
    requires a.sessions.Keys == b.sessions.Keys
    requires forall s :: s in a.sessions ==> a.sessions[s].identity == b.sessions[s].identity
    ensures Matching(a, order, task) == Matching(b, order, task)
    decreases |order|
  {
    if order != [] {
      SameMatching(a, b, order[1..], task);
    }
  }

  /** For a task with one session row, reporting the same pane level again changes nothing and takes no generation. */
  lemma SingleSessionIsIdempotent(t: Tables, task: TaskId, pane: Option<bool>)
    requires StoreInv(t) && |SessionsOf(t.inbox, task)| <= 1
    ensures var n := ReconcileLiveness(t, task, pane, None); ReconcileLiveness(n, task, pane, None) == n
  {
    var rows := SessionsOf(t.inbox, task);
    if rows != [] {
      var n := LivenessRow(t, rows[0], task, pane, None);
      RepeatedRowIsSilent(t, rows[0], task, pane);
      RowKeepsSessions(t, rows[0], task, pane);
      SameMatching(n.value.inbox, t.inbox, t.inbox.order, task);
      assert rows == [rows[0]] && rows[1..] == [];
      assert LivenessRows(t, rows, task, pane, None) == n;
      assert LivenessRows(n.value, rows, task, pane, None) == n;
    }
  }

  // ---- several sessions of one task -------------------------------------------------------

  function StateSeen(t: Tables, session: SessionId, pane: Option<bool>): Lifecycle.State
    requires session in t.inbox.sessions
  {
    Observed(Lifecycle.FromDocument(t.inbox.sessions[session].document), pane, None)
  }

  /** The reason one session, observed, gives the task's projection. */
  function ReasonBy(t: Tables, session: SessionId, task: TaskId, pane: Option<bool>): Reason
    requires session in t.inbox.sessions && task in t.board.projections
  {
    var report := t.board.projections[task].detail.report;
    match ActionableReason(StateSeen(t, session, pane).availability, report.state, report.verdict)
    case None => NoReason
    case Some(r) => r
  }

  predicate AllStored(t: Tables, rows: seq<SessionId>) { forall i :: 0 <= i < |rows| ==> rows[i] in t.inbox.sessions }

  function Reasons(t: Tables, rows: seq<SessionId>, task: TaskId, pane: Option<bool>): (r: seq<Reason>)
    requires AllStored(t, rows) && task in t.board.projections
    ensures |r| == |rows| && forall i :: 0 <= i < |r| ==> r[i] == ReasonBy(t, rows[i], task, pane)
  {
    seq(|rows|, i requires 0 <= i < |rows| => ReasonBy(t, rows[i], task, pane))
  }

  /** How often a run of reasons enters an actionable one. */
  function Edges(before: Reason, rs: seq<Reason>): nat
    decreases |rs|
  {
    if rs == [] then 0
    else (if rs[0] != NoReason && rs[0] != before then 1 else 0) + Edges(rs[0], rs[1..])
  }

  lemma {:induction false} NoEdges(before: Reason, rs: seq<Reason>)
    ensures Edges(before, rs) == 0 && rs != [] && rs[|rs| - 1] == before ==> forall i :: 0 <= i < |rs| ==> rs[i] == before
    ensures (forall i :: 0 <= i < |rs| ==> rs[i] == before) ==> Edges(before, rs) == 0
    ensures Edges(before, rs) == 0 ==> forall i :: 0 <= i < |rs| ==> rs[i] in {before, NoReason}
    decreases |rs|
  {
    if rs != [] {
      NoEdges(rs[0], rs[1..]);
      assert forall i :: 0 < i < |rs| ==> rs[i] == rs[1..][i - 1];
      assert forall i :: 0 <= i < |rs| - 1 ==> rs[1..][i] == rs[i + 1];
      if |rs| > 1 { assert rs[1..][|rs| - 2] == rs[|rs| - 1]; }
    }
  }

  /** Only sessions rows and reasons of a task matter for its later observations. */
  ghost predicate SeenAlike(t: Tables, n: Tables, task: TaskId, pane: Option<bool>) {
    && n.inbox.sessions.Keys == t.inbox.sessions.Keys
    && task in t.board.projections && task in n.board.projections
    && n.board.projections[task].detail.report == t.board.projections[task].detail.report
    && forall s :: s in t.inbox.sessions ==> StateSeen(n, s, pane) == StateSeen(t, s, pane)
  }

  lemma AlikeReasons(t: Tables, n: Tables, rows: seq<SessionId>, task: TaskId, pane: Option<bool>)
    requires SeenAlike(t, n, task, pane) && AllStored(t, rows)
    ensures AllStored(n, rows) && Reasons(n, rows, task, pane) == Reasons(t, rows, task, pane)
  {
  }

  lemma WrittenSeesAlike(t: Tables, session: SessionId, task: TaskId, pane: Option<bool>)
    requires session in t.inbox.sessions && task in t.board.projections
    requires LivenessWritten(t, session, task, pane, None).Some?
    ensures SeenAlike(t, LivenessWritten(t, session, task, pane, None).value, task, pane)
  {
    var was := Lifecycle.FromDocument(t.inbox.sessions[session].document);
    Lifecycle.DocumentRoundTrip(Observed(was, pane, None));
    ObservedTwice(was, pane);
    WrittenHolds(t, session, task, pane);
  }

  lemma RowTakes(t: Tables, session: SessionId, task: TaskId, pane: Option<bool>)
    requires session in t.inbox.sessions && task in t.board.projections
    requires LivenessRow(t, session, task, pane, None).Some?
    ensures var r := ReasonBy(t, session, task, pane); var b := t.board.projections[task].reason;
            LivenessRow(t, session, task, pane, None).value.board.latest
            == t.board.latest + if r != NoReason && r != b then 1 else 0
  {
    WrittenHolds(t, session, task, pane);
  }

  lemma AlikeTransitive(t: Tables, n: Tables, m: Tables, task: TaskId, pane: Option<bool>)
    requires SeenAlike(t, n, task, pane) && SeenAlike(n, m, task, pane)
    ensures SeenAlike(t, m, task, pane)
  {
  }

  /** From board b to board n the reasons rs passed by: the last one stays, and each edge took one generation. */
  predicate Tally(b: Board, n: Board, task: TaskId, rs: seq<Reason>) {
    && task in b.projections && task in n.projections
    && n.latest == b.latest + Edges(b.projections[task].reason, rs)
    && n.projections[task].reason == if rs == [] then b.projections[task].reason else rs[|rs| - 1]
  }

  lemma TallyOne(b: Board, n: Board, task: TaskId, r: Reason)
    requires task in b.projections && task in n.projections && n.projections[task].reason == r
    requires n.latest == b.latest + if r !in {NoReason, b.projections[task].reason} then 1 else 0
    ensures Tally(b, n, task, [r])
  {
    assert Edges(r, []) == 0 && [r][1..] == [];
  }

  lemma TallyNext(b: Board, n: Board, m: Board, task: TaskId, rs: seq<Reason>)
    requires rs != [] && Tally(b, n, task, [rs[0]]) && Tally(n, m, task, rs[1..])
    ensures Tally(b, m, task, rs)
  {
    assert Edges(rs[0], []) == 0 && [rs[0]][1..] == [];
    if |rs| > 1 { assert rs[1..][|rs| - 2] == rs[|rs| - 1]; }
  }

  /** What a run of rows leaves: the same view of every session, and the tally of their reasons. */
  ghost predicate Counted(t: Tables, n: Tables, rows: seq<SessionId>, task: TaskId, pane: Option<bool>)
    requires AllStored(t, rows) && task in t.board.projections
  {
    SeenAlike(t, n, task, pane) && Tally(t.board, n.board, task, Reasons(t, rows, task, pane))
  }

  lemma ReasonsSplit(t: Tables, rows: seq<SessionId>, task: TaskId, pane: Option<bool>)
    requires rows != [] && AllStored(t, rows) && task in t.board.projections
    ensures AllStored(t, rows[1..]) && AllStored(t, [rows[0]])
    ensures Reasons(t, rows[1..], task, pane) == Reasons(t, rows, task, pane)[1..]
    ensures Reasons(t, [rows[0]], task, pane) == [Reasons(t, rows, task, pane)[0]]
  {
  }

  lemma CountedNext(t: Tables, n: Tables, m: Tables, rows: seq<SessionId>, task: TaskId, pane: Option<bool>)
    requires rows != [] && AllStored(t, rows) && task in t.board.projections
    requires Counted(t, n, [rows[0]], task, pane) && AllStored(n, rows[1..]) && Counted(n, m, rows[1..], task, pane)
    ensures Counted(t, m, rows, task, pane)
  {
    ReasonsSplit(t, rows, task, pane);
    AlikeTransitive(t, n, m, task, pane);
    AlikeReasons(t, n, rows[1..], task, pane);
    TallyNext(t.board, n.board, m.board, task, Reasons(t, rows, task, pane));
  }

  /** A row whose projection differs from the written one at most in its generation. */
  lemma RowIsCounted(t: Tables, n: Tables, session: SessionId, task: TaskId, pane: Option<bool>)
    requires session in t.inbox.sessions && task in t.board.projections
    requires LivenessWritten(t, session, task, pane, None).Some?
    requires var w := LivenessWritten(t, session, task, pane, None).value;
             && SeenAlike(t, w, task, pane) && n.inbox == w.inbox && task in n.board.projections
             && RegeneratedFrom(n.board.projections[task], w.board.projections[task])
    requires n.board.latest == t.board.latest
             + (if ReasonBy(t, session, task, pane) !in {NoReason, t.board.projections[task].reason} then 1 else 0)
    ensures AllStored(t, [session]) && Counted(t, n, [session], task, pane)
  {
    WrittenHolds(t, session, task, pane);
    var r := ReasonBy(t, session, task, pane);
    assert Reasons(t, [session], task, pane) == [r];
    WrittenReason(t, session, task, pane);
    TallyOne(t.board, n.board, task, r);
  }

  lemma WrittenReason(t: Tables, session: SessionId, task: TaskId, pane: Option<bool>)
    requires session in t.inbox.sessions && task in t.board.projections
    requires LivenessWritten(t, session, task, pane, None).Some?
    ensures var w := LivenessWritten(t, session, task, pane, None).value;
            task in w.board.projections && w.board.projections[task].reason == ReasonBy(t, session, task, pane)
  {
    WrittenHolds(t, session, task, pane);
  }

  /** One row: it gives the projection its own reason, and takes a generation iff that is a new actionable one. */
  lemma RowCounts(t: Tables, session: SessionId, task: TaskId, pane: Option<bool>)
    requires StoreInv(t) && session in t.inbox.sessions && task in t.board.projections
    ensures LivenessRow(t, session, task, pane, None).Some?
    ensures StoreInv(LivenessRow(t, session, task, pane, None).value)
    ensures AllStored(t, [session]) && Counted(t, LivenessRow(t, session, task, pane, None).value, [session], task, pane)
  {
    RowLeaves(t, session, task, pane);
    LivenessRowKeeps(t, session, task, pane, None);
    WrittenSeesAlike(t, session, task, pane);
    RowTakes(t, session, task, pane);
    RowIsCounted(t, LivenessRow(t, session, task, pane, None).value, session, task, pane);
  }

  lemma {:induction false} RowsCount(t: Tables, rows: seq<SessionId>, task: TaskId, pane: Option<bool>)
    requires StoreInv(t) && AllStored(t, rows) && task in t.board.projections
    ensures LivenessRows(t, rows, task, pane, None).Some?
    ensures StoreInv(LivenessRows(t, rows, task, pane, None).value)
    ensures Counted(t, LivenessRows(t, rows, task, pane, None).value, rows, task, pane)
    decreases |rows|
  {
    if rows != [] {
      RowCounts(t, rows[0], task, pane);
      var n := LivenessRow(t, rows[0], task, pane, None).value;
      assert AllStored(n, rows[1..]);
      RowsCount(n, rows[1..], task, pane);
      CountedNext(t, n, LivenessRows(n, rows[1..], task, pane, None).value, rows, task, pane);
    }
  }

  lemma {:induction false} RowsKeepSessions(t: Tables, rows: seq<SessionId>, task: TaskId, pane: Option<bool>)
    requires LivenessRows(t, rows, task, pane, None).Some?
    ensures var n := LivenessRows(t, rows, task, pane, None).value;
            && n.inbox.order == t.inbox.order && n.inbox.sessions.Keys == t.inbox.sessions.Keys
            && forall s :: s in t.inbox.sessions ==> n.inbox.sessions[s].identity == t.inbox.sessions[s].identity
    decreases |rows|
  {
    if rows != [] {
      RowKeepsSessions(t, rows[0], task, pane);
      RowsKeepSessions(LivenessRow(t, rows[0], task, pane, None).value, rows[1..], task, pane);
    }
  }

  predicate Unanimous(rs: seq<Reason>) { forall i :: 0 <= i < |rs| ==> rs[i] == rs[0] }

  /**
   * Reporting the same pane level again takes no generation exactly when all
   * sessions of the task give it the same reason: one session always does.
   */
  lemma RepeatIsQuietIff(t: Tables, task: TaskId, pane: Option<bool>)
    requires StoreInv(t) && task in t.board.projections
    ensures AllStored(t, SessionsOf(t.inbox, task))
    ensures var n := ReconcileLiveness(t, task, pane, None);
            ReconcileLiveness(n, task, pane, None).board.latest == n.board.latest
            <==> Unanimous(Reasons(t, SessionsOf(t.inbox, task), task, pane))
  {
    var rows := SessionsOf(t.inbox, task);
    BothPasses(t, task, pane);
    var n := LivenessRows(t, rows, task, pane, None).value;
    SecondPass(t, n, LivenessRows(n, rows, task, pane, None).value, rows, task, pane);
  }

  /** Both passes run over the same rows and are tallied by the same reasons. */
  lemma BothPasses(t: Tables, task: TaskId, pane: Option<bool>)
    requires StoreInv(t) && task in t.board.projections
    ensures var rows := SessionsOf(t.inbox, task); var first := LivenessRows(t, rows, task, pane, None);
            && AllStored(t, rows) && first.Some? && Counted(t, first.value, rows, task, pane)
            && AllStored(first.value, rows) && SessionsOf(first.value.inbox, task) == rows
            && task in first.value.board.projections
            && LivenessRows(first.value, rows, task, pane, None).Some?
            && Counted(first.value, LivenessRows(first.value, rows, task, pane, None).value, rows, task, pane)
  {
    var rows := SessionsOf(t.inbox, task);
    SessionFold.MatchingStored(t.inbox, t.inbox.order, task);
    RowsCount(t, rows, task, pane);
    var n := LivenessRows(t, rows, task, pane, None).value;
    RowsKeepSessions(t, rows, task, pane);
    SameMatching(n.inbox, t.inbox, t.inbox.order, task);
    AlikeReasons(t, n, rows, task, pane);
    RowsCount(n, rows, task, pane);
  }

  lemma SecondPass(t: Tables, n: Tables, m: Tables, rows: seq<SessionId>, task: TaskId, pane: Option<bool>)
    requires AllStored(t, rows) && task in t.board.projections && Counted(t, n, rows, task, pane)
    requires AllStored(n, rows) && Counted(n, m, rows, task, pane)
    ensures m.board.latest == n.board.latest <==> Unanimous(Reasons(t, rows, task, pane))
  {
    AlikeReasons(t, n, rows, task, pane);
    SecondTally(t.board, n.board, m.board, task, Reasons(t, rows, task, pane));
  }

  lemma SecondTally(b: Board, n: Board, m: Board, task: TaskId, rs: seq<Reason>)
    requires Tally(b, n, task, rs) && Tally(n, m, task, rs)
    ensures m.latest == n.latest <==> Unanimous(rs)
  {
    if rs != [] {
      var last := rs[|rs| - 1];
      NoEdges(last, rs);
      if Unanimous(rs) { assert rs[0] == last; }
    }
  }
}
