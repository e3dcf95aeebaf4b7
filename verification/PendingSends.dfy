/**
 * The follow-up send queue: rows enqueued by the driver, claimed by whichever
 * observer finds the pane deliverable, and retired by delivery or expiry.
 */
module PendingSends {
  import opened Common
  import opened Report

  datatype SendState = Pending | Delivering | Delivered | Failed | Cancelled
  {
    predicate Open() { Pending? || Delivering? }
  }

  /** error is kept to 128 characters. */
  datatype SendRow = SendRow(id: string, task: TaskId, payload: string, state: SendState,
                             error: Option<string>, created: int, deadline: int)

  const SUPERSEDED := "superseded"
  const TIMEOUT := "timeout"
  const ABANDONED := "daemon restarted mid-delivery; text may or may not have reached the pane"

  predicate Has(rows: seq<SendRow>, id: string) { exists i :: 0 <= i < |rows| && rows[i].id == id }

  function Retire(r: SendRow, state: SendState, error: Option<string>): SendRow { r.(state := state, error := error) }

  // ---- what each transaction does to the table ------------------------------------

  /** Retire every row whose id is marked. */
  function Marked(rows: seq<SendRow>, marked: set<string>, state: SendState, error: Option<string>): (r: seq<SendRow>)
    ensures |r| == |rows|
  {
    seq(|rows|, i requires 0 <= i < |rows| => if rows[i].id in marked then Retire(rows[i], state, error) else rows[i])
  }

  function Superseded(rows: seq<SendRow>, task: TaskId): (r: seq<SendRow>)
    ensures |r| == |rows|
  {
    seq(|rows|, i requires 0 <= i < |rows| =>
      if rows[i].task == task && rows[i].state.Open() then Retire(rows[i], Cancelled, Some(SUPERSEDED)) else rows[i])
  }

  /** Latest wins: cancel the task's open rows and append the new one. */
  function Enqueued(rows: seq<SendRow>, id: string, task: TaskId, payload: string, now: int, timeout: int): seq<SendRow> {
    Superseded(rows, task) + [SendRow(id, task, payload, Pending, None, now, now + timeout)]
  }

  /** The position of the task's pending row. */
  function PendingAt(rows: seq<SendRow>, task: TaskId): (r: Option<nat>)
    ensures r.Some? ==> r.value < |rows| && rows[r.value].task == task && rows[r.value].state.Pending?
    ensures r.None? ==> forall i :: 0 <= i < |rows| && rows[i].task == task ==> !rows[i].state.Pending?
  {
    if rows == [] then None
    else if rows[|rows| - 1].task == task && rows[|rows| - 1].state.Pending? then Some(|rows| - 1)
    else PendingAt(rows[..|rows| - 1], task)
  }

  function ClaimedAt(rows: seq<SendRow>, k: nat): seq<SendRow>
    requires k < |rows|
  {
    rows[k := rows[k].(state := Delivering)]
  }

  function Resolved(rows: seq<SendRow>, id: string, state: SendState, error: Option<string>): seq<SendRow> {
    Marked(rows, {id}, state, Clip(error))
  }

  predicate Overdue(r: SendRow, now: int) { r.state.Pending? && r.deadline <= now }

  predicate Stale(r: SendRow, now: int, age: int) { r.state.Delivering? && r.created <= now - age }

  function SweptRow(r: SendRow, now: int, age: int): SendRow {
    if Overdue(r, now) then Retire(r, Failed, Some(TIMEOUT))
    else if Stale(r, now, age) then Retire(r, Failed, Some(ABANDONED))
    else r
  }

  function Swept(rows: seq<SendRow>, now: int, age: int): (r: seq<SendRow>)
    ensures |r| == |rows|
  {
    seq(|rows|, i requires 0 <= i < |rows| => SweptRow(rows[i], now, age))
  }

  function Select(rows: seq<SendRow>, want: SendRow -> bool): seq<SendRow> {
    if rows == [] then []
    else (if want(rows[0]) then [rows[0]] else []) + Select(rows[1..], want)
  }

  lemma {:induction false} SelectMembers(rows: seq<SendRow>, want: SendRow -> bool)
    ensures forall r :: r in Select(rows, want) <==> r in rows && want(r)
  {
    if rows != [] {
      SelectMembers(rows[1..], want);
      assert rows == [rows[0]] + rows[1..];
    }
  }

  // ---- the table's invariant --------------------------------------------------------

  ghost predicate UniqueSends(rows: seq<SendRow>) {
    forall i, j :: 0 <= i < j < |rows| ==> rows[i].id != rows[j].id
  }

  /** An open row is the last row of its task; so a task has at most one. */
  ghost predicate OpenIsLast(rows: seq<SendRow>) {
    forall i, j :: 0 <= i < j < |rows| && rows[i].task == rows[j].task ==> !rows[i].state.Open()
  }

  ghost predicate QueueInv(rows: seq<SendRow>) { UniqueSends(rows) && OpenIsLast(rows) }

  class SendQueue {
    var rows: seq<SendRow>

    constructor ()
      ensures rows == [] && QueueInv(rows)
    {
      rows := [];
    }

    /** Register a follow-up; a repeated id is refused and cancels nothing. */
    method Enqueue(id: string, task: TaskId, payload: string, now: int, timeout: int) returns (ok: bool)
      requires QueueInv(rows)
      modifies this
      ensures QueueInv(rows)
      ensures ok == !Has(old(rows), id)
      ensures rows == if ok then Enqueued(old(rows), id, task, payload, now, timeout) else old(rows)
    {
      ok := true;
      var i := 0;
      while i < |rows|
        invariant i <= |rows| && ok == forall j :: 0 <= j < i ==> rows[j].id != id
      {
        if rows[i].id == id {
          ok := false;
        }
        i := i + 1;
      }
      if ok {
        rows := Superseded(rows, task);
        rows := rows + [SendRow(id, task, payload, Pending, None, now, now + timeout)];
      }
    }

    /** Select and claim in one transaction. */
    method Claim(task: TaskId) returns (row: Option<SendRow>)
      requires QueueInv(rows)
      modifies this
      ensures QueueInv(rows)
      ensures match PendingAt(old(rows), task)
              case None => row == None && rows == old(rows)
              case Some(k) => row == Some(old(rows)[k]) && rows == ClaimedAt(old(rows), k)
    {
      var found := PendingAt(rows, task);
      if found.None? {
        return None;
      }
      row := Some(rows[found.value]);
      rows := rows[found.value := rows[found.value].(state := Delivering)];
    }

    /** Record an outcome, whatever the row's state has become meanwhile. */
    method Resolve(id: string, state: SendState, error: Option<string>) returns (ok: bool)
      requires QueueInv(rows)
      modifies this
      ensures QueueInv(rows)
      ensures ok == !state.Open()
      ensures rows == if ok then Resolved(old(rows), id, state, error) else old(rows)
    {
      ok := !state.Open();
      if ok {
        ResolveKeeps(rows, id, state, error);
        rows := Marked(rows, {id}, state, Clip(error));
      }
    }

    /** Fail the overdue rows, then the abandoned ones, and return both as they were. */
    method SweepExpired(now: int, age: int) returns (swept: seq<SendRow>)
      requires QueueInv(rows)
      modifies this
      ensures QueueInv(rows)
      ensures rows == Swept(old(rows), now, age)
      ensures swept == Select(old(rows), r => Overdue(r, now)) + Select(old(rows), r => Stale(r, now, age))
    {
      ghost var was := rows;
      var expired := Select(rows, r => Overdue(r, now));
      var abandoned := Select(rows, r => Stale(r, now, age));
      SelectMembers(rows, r => Overdue(r, now));
      SelectMembers(rows, r => Stale(r, now, age));
      var i := 0;
      while i < |expired|
        invariant i <= |expired| && rows == Marked(was, Ids(expired[..i]), Failed, Some(TIMEOUT))
      {
        MarkOneMore(was, expired, i, Failed, Some(TIMEOUT));
        rows := Marked(rows, {expired[i].id}, Failed, Some(TIMEOUT));
        i := i + 1;
      }
      assert expired[..i] == expired;
      ghost var half := rows;
      i := 0;
      while i < |abandoned|
        invariant i <= |abandoned| && rows == Marked(half, Ids(abandoned[..i]), Failed, Some(ABANDONED))
      {
        MarkOneMore(half, abandoned, i, Failed, Some(ABANDONED));
        rows := Marked(rows, {abandoned[i].id}, Failed, Some(ABANDONED));
        i := i + 1;
      }
      assert abandoned[..i] == abandoned;
      SweepIsMarks(was, expired, abandoned, now, age);
      return expired + abandoned;
    }
  }

  ghost function Ids(rows: seq<SendRow>): set<string> { set r | r in rows :: r.id }

  lemma MarkOneMore(rows: seq<SendRow>, chosen: seq<SendRow>, i: nat, state: SendState, error: Option<string>)
    requires i < |chosen|
    ensures Marked(Marked(rows, Ids(chosen[..i]), state, error), {chosen[i].id}, state, error)
            == Marked(rows, Ids(chosen[..i + 1]), state, error)
  {
    assert chosen[..i + 1] == chosen[..i] + [chosen[i]];
    assert Ids(chosen[..i + 1]) == Ids(chosen[..i]) + {chosen[i].id};
  }

  lemma IdsSelect(rows: seq<SendRow>, chosen: seq<SendRow>, i: nat)
    requires UniqueSends(rows) && i < |rows| && forall r :: r in chosen ==> r in rows
    ensures rows[i].id in Ids(chosen) <==> rows[i] in chosen
  {
    if rows[i].id in Ids(chosen) {
      var r :| r in chosen && r.id == rows[i].id;
      var k :| 0 <= k < |rows| && rows[k] == r;
      assert k == i;
    }
  }

  lemma SweepIsMarks(rows: seq<SendRow>, expired: seq<SendRow>, abandoned: seq<SendRow>, now: int, age: int)
    requires QueueInv(rows)
    requires forall r :: r in expired <==> r in rows && Overdue(r, now)
    requires forall r :: r in abandoned <==> r in rows && Stale(r, now, age)
    ensures Marked(Marked(rows, Ids(expired), Failed, Some(TIMEOUT)), Ids(abandoned), Failed, Some(ABANDONED))
            == Swept(rows, now, age)
    ensures QueueInv(Swept(rows, now, age))
  {
    forall i | 0 <= i < |rows|
      ensures rows[i].id in Ids(expired) <==> Overdue(rows[i], now)
      ensures rows[i].id in Ids(abandoned) <==> Stale(rows[i], now, age)
    {
      IdsSelect(rows, expired, i);
      IdsSelect(rows, abandoned, i);
    }
  }

  lemma ResolveKeeps(rows: seq<SendRow>, id: string, state: SendState, error: Option<string>)
    requires QueueInv(rows) && !state.Open()
    ensures QueueInv(Resolved(rows, id, state, error))
  {
  }

  /** The task's open rows are cancelled as superseded, every other row stays, and the new one waits last. */
  lemma EnqueueMeans(rows: seq<SendRow>, id: string, task: TaskId, payload: string, now: int, timeout: int)
    ensures var n := Enqueued(rows, id, task, payload, now, timeout);
            && |n| == |rows| + 1
            && (forall i :: 0 <= i < |rows| ==>
                  && (rows[i].task == task && rows[i].state in {Pending, Delivering} ==>
                        n[i] == rows[i].(state := Cancelled, error := Some("superseded")))
                  && (rows[i].task != task || rows[i].state !in {Pending, Delivering} ==> n[i] == rows[i]))
            && var r := n[|rows|];
            && r.id == id && r.task == task && r.payload == payload && r.state == Pending && r.error == None
            && r.created == now && r.deadline == now + timeout
  {
  }

  /** Under the table's invariant a claim finds the task's only pending row, and takes exactly that one. */
  lemma ClaimMeans(rows: seq<SendRow>, task: TaskId, k: nat)
    requires QueueInv(rows) && k < |rows| && rows[k].task == task
    ensures rows[k].state.Pending? <==> PendingAt(rows, task) == Some(k)
    ensures rows[k].state.Pending? ==>
              && |ClaimedAt(rows, k)| == |rows| && ClaimedAt(rows, k)[k] == rows[k].(state := Delivering)
              && forall i :: 0 <= i < |rows| && i != k ==> ClaimedAt(rows, k)[i] == rows[i]
  {
  }

  /** An outcome is written to the row of that id, whatever its state, and to no other; its text keeps 128 characters. */
  lemma ResolveMeans(rows: seq<SendRow>, id: string, state: SendState, error: Option<string>)
    ensures var n := Resolved(rows, id, state, error);
            && |n| == |rows|
            && (forall i :: 0 <= i < |rows| && rows[i].id != id ==> n[i] == rows[i])
            && (forall i :: 0 <= i < |rows| && rows[i].id == id ==>
                  && n[i] == rows[i].(state := state, error := n[i].error)
                  && (error == None ==> n[i].error == None)
                  && (error.Some? ==>
                        n[i].error == Some(error.value[..if |error.value| > 128 then 128 else |error.value|])))
  {
    if error.Some? && |error.value| <= 128 {
      assert error.value[..|error.value|] == error.value;
    }
  }

  /** A sweep fails exactly the overdue and the abandoned rows, each under its own text, and touches nothing else. */
  lemma SweepIsExact(rows: seq<SendRow>, now: int, age: int, i: nat)
    requires i < |rows|
    ensures var r := Swept(rows, now, age)[i];
            && !Overdue(r, now) && !Stale(r, now, age)
            && (r != rows[i] <==> Overdue(rows[i], now) || Stale(rows[i], now, age))
            && (rows[i].state == Pending && rows[i].deadline <= now ==>
                  r == rows[i].(state := Failed, error := Some(TIMEOUT)))
            && (rows[i].state == Delivering && rows[i].created <= now - age ==>
                  r == rows[i].(state := Failed, error := Some(ABANDONED)))
            && (r.state.Open() ==> r == rows[i])
  {
  }
}
