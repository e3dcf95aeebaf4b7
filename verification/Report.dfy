/**
 * Report axis: how a captured handoff becomes a report state and verdict, how
 * those and availability become an actionable reason, and the frozen tuple
 * matrix that every reconcile reply is validated against.
 */
module Report {
  import opened Common
  import Lifecycle
  import Handoff

  type TaskId = nat
  type SessionId = string

  datatype ReportState = Missing | Malformed | Valid

  datatype Reason =
    | NoReason | QuiescentTask | MissingReport | MalformedReport | WaitingTask | NativeTurnEnded
    | BlockedTask | FailedTask | NeedsActionTask | GoneTask | UnknownTask

  /** The handoff and its cursors as read at one moment. */
  datatype Capture =
    | Unreadable
    | Captured(lines: seq<Handoff.Line>, v2: Handoff.Cursor, legacy: Handoff.Cursor)

  /** A task folder at one moment. */
  datatype Folder = Folder(present: bool, capture: Capture)

  datatype Summary = Summary(
    state: ReportState, verdict: Option<Handoff.Value>, latestVerdict: Option<Handoff.Value>,
    blocks: nat, ackedThrough: nat, source: Handoff.Source, openItems: seq<Handoff.OpenItem>,
    errors: seq<Handoff.ProtocolError>, heading: string, latestFields: Handoff.Fields)

  datatype Detail = Detail(
    folderPresent: bool, session: SessionId, foreground: Lifecycle.Foreground,
    background: Lifecycle.Background, backgroundCount: Option<nat>,
    availability: Lifecycle.Availability, paneExists: Option<bool>, report: Summary)

  /** A task projection row. */
  datatype Projection = Projection(
    availability: Lifecycle.Availability, reportState: ReportState, verdict: Option<Handoff.Value>,
    reason: Reason, generation: nat, lastEvent: nat, detail: Detail)

  /** One report of a reconcile reply. */
  datatype Row = Row(task: TaskId, generation: nat, availability: Lifecycle.Availability,
                     reportState: ReportState, verdict: Option<Handoff.Value>, reason: Reason, detail: Detail)

  function ParseCapture(c: Capture): Handoff.Parsed {
    match c
    case Unreadable => Handoff.Parsed([], 0, 0, Handoff.NoCursor, [], [Handoff.Unreadable])
    case Captured(lines, v2, legacy) => Handoff.Parse(lines, v2, legacy)
  }

  /** An empty string reads as no verdict. */
  function OrNone(v: Handoff.Value): Option<Handoff.Value> { if v.Blank? then None else Some(v) }

  function LatestVerdict(p: Handoff.Parsed): Option<Handoff.Value> {
    if p.blocks == [] then None
    else OrNone(Handoff.Get(p.blocks[|p.blocks| - 1].fields, Handoff.VerdictKey))
  }

  function StateOf(p: Handoff.Parsed): ReportState {
    if p.errors != [] then Malformed else if p.blocks == [] then Missing else Valid
  }

  /** The earliest unacknowledged open verdict outranks a later block. */
  function VerdictOf(p: Handoff.Parsed): Option<Handoff.Value> {
    if StateOf(p) != Valid then None
    else if p.openItems != [] then
      var first := p.openItems[0].verdict;
      Some(if first in {Handoff.Word(Handoff.NeedsAction), Handoff.Word(Handoff.Failed), Handoff.Word(Handoff.Blocked)}
           then first else Handoff.Word(Handoff.NeedsAction))
    else LatestVerdict(p)
  }

  function Summarize(c: Capture): Summary {
    var p := ParseCapture(c);
    var none := p.blocks == [];
    Summary(StateOf(p), VerdictOf(p), LatestVerdict(p), |p.blocks|, p.ackedThrough, p.source, p.openItems, p.errors,
            if none then "" else p.blocks[|p.blocks| - 1].heading,
            if none then map[] else p.blocks[|p.blocks| - 1].fields)
  }

  /** The actionable reason; None is the reducer's final raise. */
  function ActionableReason(availability: Lifecycle.Availability, state: ReportState,
                            verdict: Option<Handoff.Value>): Option<Reason>
  {
    match state
    case Missing => Some(MissingReport)
    case Malformed => Some(MalformedReport)
    case Valid =>
      if availability.Gone? then Some(GoneTask)
      else match verdict
        case Some(Word(Done)) => Some(if availability.Quiescent? then QuiescentTask else NoReason)
        case Some(Word(Waiting)) => Some(if availability.WaitingBackground? then WaitingTask else UnknownTask)
        case Some(Word(NeedsAction)) => Some(NeedsActionTask)
        case Some(Word(Failed)) => Some(FailedTask)
        case Some(Word(Blocked)) => Some(BlockedTask)
        case _ => None
  }

  // ---- the frozen matrix ------------------------------------------------------

  const DONE := Some(Handoff.Word(Handoff.Done))
  const WAITING := Some(Handoff.Word(Handoff.Waiting))
  const NEEDS_ACTION := Some(Handoff.Word(Handoff.NeedsAction))
  const FAILED := Some(Handoff.Word(Handoff.Failed))
  const BLOCKED := Some(Handoff.Word(Handoff.Blocked))

  const REPORT_TUPLES: set<(ReportState, Option<Handoff.Value>, Reason)> := {
    (Missing, None, MissingReport),
    (Malformed, None, MalformedReport),
    (Valid, DONE, NoReason),
    (Valid, DONE, QuiescentTask),
    (Valid, DONE, GoneTask),
    (Valid, WAITING, WaitingTask),
    (Valid, WAITING, UnknownTask),
    (Valid, WAITING, GoneTask),
    (Valid, NEEDS_ACTION, NeedsActionTask),
    (Valid, NEEDS_ACTION, GoneTask),
    (Valid, FAILED, FailedTask),
    (Valid, FAILED, GoneTask),
    (Valid, BLOCKED, BlockedTask),
    (Valid, BLOCKED, GoneTask)
  }

  /** Report facts a captured handoff can produce. */
  predicate Reportable(state: ReportState, verdict: Option<Handoff.Value>) {
    if state == Valid then verdict.Some? && verdict.value.Word? else verdict == None
  }

  /** Every captured handoff, readable or not, gives reportable facts. */
  lemma SummariesAreReportable(c: Capture)
    ensures Reportable(Summarize(c).state, Summarize(c).verdict)
  {
    var p := ParseCapture(c);
    if StateOf(p) == Valid {
      Handoff.ErrorFreeTurns(c.lines, c.v2, c.legacy, |p.blocks| - 1);
    }
  }

  /** Whether a captured handoff is malformed, missing or valid: by its protocol errors, then by its turn blocks. */
  lemma StateMeans(lines: seq<Handoff.Line>, v2: Handoff.Cursor, legacy: Handoff.Cursor)
    ensures var s, errors := Summarize(Captured(lines, v2, legacy)), Handoff.Parse(lines, v2, legacy).errors;
            && (s.state == Malformed <==> errors != [])
            && (s.state == Missing <==> errors == [] && !Handoff.HasTurn(lines))
            && (s.state == Valid <==> errors == [] && Handoff.HasTurn(lines))
    ensures Summarize(Unreadable).state == Malformed && Summarize(Unreadable).verdict == None
  {
    Handoff.BlocksIff(lines);
  }

  /** The summary that a row carries: counts and cursor of the whole handoff, and text of its last block. */
  lemma SummaryMeans(lines: seq<Handoff.Line>, v2: Handoff.Cursor, legacy: Handoff.Cursor)
    ensures var s, blocks := Summarize(Captured(lines, v2, legacy)), Handoff.BlocksOf(lines);
            var p := Handoff.Parse(lines, v2, legacy);
            && s.blocks == |blocks| && s.errors == p.errors && s.openItems == p.openItems
            && s.ackedThrough == p.ackedThrough && s.source == p.source
            && (blocks == [] ==> s.latestVerdict == None && s.heading == "" && s.latestFields == map[])
            && (blocks != [] ==>
                  var last := blocks[|blocks| - 1];
                  var word := Handoff.Get(last.fields, Handoff.VerdictKey);
                  && s.heading == last.heading && s.latestFields == last.fields
                  && s.latestVerdict == if word == Handoff.Blank then None else Some(word))
    ensures var u := Summarize(Unreadable);
            && u.blocks == 0 && u.ackedThrough == 0 && u.openItems == [] && u.errors == [Handoff.Unreadable]
            && u.latestVerdict == None && u.latestFields == map[]
  {
  }

  /** The verdict that a block still waiting for an answer stands for. */
  function AsksAs(word: Handoff.Value): Option<Handoff.Value> {
    if Some(word) in {NEEDS_ACTION, FAILED, BLOCKED} then Some(word) else NEEDS_ACTION
  }

  lemma WaitingVerdict(p: Handoff.Parsed, i: nat)
    requires StateOf(p) == Valid && p.openItems == Handoff.OpenAfter(p.blocks, p.ackedThrough)
    requires Handoff.IsFirstWaiting(p.blocks, p.ackedThrough, i)
    ensures VerdictOf(p) == AsksAs(Handoff.Get(p.blocks[i].fields, Handoff.VerdictKey))
  {
    Handoff.FirstOpenItem(p.blocks, p.ackedThrough, i);
  }

  lemma LastVerdict(p: Handoff.Parsed)
    requires StateOf(p) == Valid && p.openItems == Handoff.OpenAfter(p.blocks, p.ackedThrough)
    requires forall i: nat :: !Handoff.Waits(p.blocks, p.ackedThrough, i)
    requires Handoff.Get(p.blocks[|p.blocks| - 1].fields, Handoff.VerdictKey).Word?
    ensures VerdictOf(p) == Some(Handoff.Get(p.blocks[|p.blocks| - 1].fields, Handoff.VerdictKey))
  {
    Handoff.NothingOpen(p.blocks, p.ackedThrough);
  }

  lemma ParsedFacts(lines: seq<Handoff.Line>, v2: Handoff.Cursor, legacy: Handoff.Cursor)
    ensures var p := Handoff.Parse(lines, v2, legacy);
            p.blocks == Handoff.BlocksOf(lines) && p.openItems == Handoff.OpenAfter(p.blocks, p.ackedThrough)
  {
  }

  lemma SummaryFacts(lines: seq<Handoff.Line>, v2: Handoff.Cursor, legacy: Handoff.Cursor)
    ensures var s, p := Summarize(Captured(lines, v2, legacy)), Handoff.Parse(lines, v2, legacy);
            s.state == StateOf(p) && s.verdict == VerdictOf(p)
  {
  }

  /**
   * The verdict of a valid handoff: that of its earliest block still waiting
   * for an answer, read as needs-action where that word asks for nothing, and
   * otherwise that of its last block.
   */
  lemma VerdictMeans(lines: seq<Handoff.Line>, v2: Handoff.Cursor, legacy: Handoff.Cursor)
    requires Summarize(Captured(lines, v2, legacy)).state == Valid
    ensures var s, p := Summarize(Captured(lines, v2, legacy)), Handoff.Parse(lines, v2, legacy);
            && p.blocks != []
            && (forall i: nat :: Handoff.IsFirstWaiting(p.blocks, p.ackedThrough, i) ==>
                  s.verdict == AsksAs(Handoff.Get(p.blocks[i].fields, Handoff.VerdictKey)))
            && ((forall i: nat :: !Handoff.Waits(p.blocks, p.ackedThrough, i)) ==>
                  s.verdict == Some(Handoff.Get(p.blocks[|p.blocks| - 1].fields, Handoff.VerdictKey)))
  {
    var p := Handoff.Parse(lines, v2, legacy);
    SummaryFacts(lines, v2, legacy);
    ParsedFacts(lines, v2, legacy);
    ValidIsErrorFree(p);
    Handoff.ErrorFreeTurns(lines, v2, legacy, |p.blocks| - 1);
    forall i: nat | Handoff.IsFirstWaiting(p.blocks, p.ackedThrough, i)
      ensures VerdictOf(p) == AsksAs(Handoff.Get(p.blocks[i].fields, Handoff.VerdictKey))
    {
      WaitingVerdict(p, i);
    }
    if forall i: nat :: !Handoff.Waits(p.blocks, p.ackedThrough, i) {
      LastVerdict(p);
    }
  }

  lemma ValidIsErrorFree(p: Handoff.Parsed)
    requires StateOf(p) == Valid
    ensures p.errors == [] && p.blocks != []
  {
  }

  /** The matrix is exactly what the reason function can produce from reportable facts. */
  lemma MatrixIsExact(state: ReportState, verdict: Option<Handoff.Value>, reason: Reason)
    ensures (state, verdict, reason) in REPORT_TUPLES <==>
            Reportable(state, verdict)
            && exists a: Lifecycle.Availability :: ActionableReason(a, state, verdict) == Some(reason)
  {
    if (state, verdict, reason) in REPORT_TUPLES {
      var a := if reason == GoneTask then Lifecycle.Gone
               else if reason == QuiescentTask then Lifecycle.Quiescent
               else if reason == WaitingTask then Lifecycle.WaitingBackground
               else Lifecycle.Busy;
      assert ActionableReason(a, state, verdict) == Some(reason);
    } else if Reportable(state, verdict) {
      forall a: Lifecycle.Availability ensures ActionableReason(a, state, verdict) != Some(reason) {
        if state == Valid {
          var word := verdict.value.verdict;
          assert verdict == Some(Handoff.Word(word));
          match word
          case Done => assert verdict == DONE;
          case Waiting => assert verdict == WAITING;
          case NeedsAction => assert verdict == NEEDS_ACTION;
          case Failed => assert verdict == FAILED;
          case Blocked => assert verdict == BLOCKED;
        }
      }
    }
  }

  /** The reason function never reaches its final raise on a captured handoff. */
  lemma ReasonNeverRaises(a: Lifecycle.Availability, c: Capture)
    ensures var s := Summarize(c);
            ActionableReason(a, s.state, s.verdict).Some?
            && (s.state, s.verdict, ActionableReason(a, s.state, s.verdict).value) in REPORT_TUPLES
  {
    SummariesAreReportable(c);
    var s := Summarize(c);
    ReasonTotal(a, s.state, s.verdict);
  }

  lemma ReasonTotal(a: Lifecycle.Availability, state: ReportState, verdict: Option<Handoff.Value>)
    requires Reportable(state, verdict)
    ensures ActionableReason(a, state, verdict).Some?
    ensures (state, verdict, ActionableReason(a, state, verdict).value) in REPORT_TUPLES
  {
    MatrixIsExact(state, verdict, ActionableReason(a, state, verdict).value);
  }

  // ---- reply validation -------------------------------------------------------

  predicate RowLegal(r: Row) {
    r.generation >= 1 && (r.reportState, r.verdict, r.reason) in REPORT_TUPLES
  }

  /** What the protocol demands of the reports of a reconcile reply. */
  predicate RepliesLegal(rows: seq<Row>, through: nat) {
    && (forall i :: 0 <= i < |rows| ==> RowLegal(rows[i]) && rows[i].generation <= through)
    && (forall i, j :: 0 <= i < j < |rows| ==> rows[i].task != rows[j].task)
  }

  /** The validator's loop: tuple, cursor bound, and tasks seen so far. */
  method ValidateReports(rows: seq<Row>, through: nat) returns (ok: bool)
    ensures ok <==> RepliesLegal(rows, through)
  {
    for i := 0 to |rows|
      invariant forall k :: 0 <= k < i ==> RowLegal(rows[k])
    {
      if !RowLegal(rows[i]) {
        return false;
      }
    }
    var seen: set<TaskId> := {};
    for i := 0 to |rows|
      invariant forall k :: 0 <= k < i ==> rows[k].generation <= through
      invariant forall k, l :: 0 <= k < l < i ==> rows[k].task != rows[l].task
      invariant forall t :: t in seen <==> exists k :: 0 <= k < i && rows[k].task == t
    {
      if rows[i].generation > through {
        return false;
      }
      if rows[i].task in seen {
        return false;
      }
      seen := seen + {rows[i].task};
    }
    return true;
  }
}
