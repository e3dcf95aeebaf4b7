/**
 * The pure lifecycle reducer: producer events are applied strictly in
 * contiguous order, and events beyond a gap are buffered until it closes.
 */
module Lifecycle {
  import opened Common

  datatype Foreground = Running | Stopped | ForegroundUnknown

  datatype Background = Active | Clear | BackgroundUnknown

  datatype Availability = Busy | WaitingBackground | Quiescent | Blocked | Gone | Unknown

  /** Job identifiers are opaque; only their identity and collation order matter. */
  type JobId = nat

  /** The `background_active` field of a turn stop. */
  datatype Certainty = CertifiedActive | CertifiedClear | Uncertified

  datatype Kind =
    | SessionRegister
    | TurnStart
    | TurnStop(certainty: Certainty)
    | BackgroundStart(started: JobId)
    | BackgroundStop(stopped: JobId)
    | BackgroundSnapshot(activeCount: nat)
    | SessionEnd

  datatype Event = Event(seqno: int, kind: Kind)

  /** What is known of the foreground turn. */
  datatype Front = Front(foreground: Foreground, isFresh: bool, blocked: bool)

  /**
   * What is known of background work. `certified` holds only after an
   * authoritative count or boolean; `anonymous` counts certified jobs that
   * have no name; `presenceOnly` is activity without identity or count.
   */
  datatype Back = Back(background: Background, isFresh: bool, certified: bool,
                       jobs: set<JobId>, anonymous: nat, presenceOnly: bool)
  {
    /** Some background work is positively known to be running. */
    predicate Positive() { jobs != {} || anonymous != 0 || presenceOnly }

    /** The exact number of active jobs, when a baseline certifies one. */
    function ActiveCount(): Option<nat> {
      if background.BackgroundUnknown? || !certified then None else Some(|jobs| + anonymous)
    }
  }

  datatype State = State(
    front: Front,
    back: Back,
    availability: Availability,
    producerSeq: nat,
    pending: seq<Event>,
    sequenceGap: bool,
    sessionEnded: bool,
    sessionGone: bool,
    adapterConnected: bool)

  const INITIAL := State(Front(ForegroundUnknown, true, false),
                         Back(BackgroundUnknown, true, false, {}, 0, false),
                         Unknown, 0, [], false, false, false, true)

  datatype Disposition = Applied | StaleSeq | SeqGap | InvalidSeq

  datatype Reduction = Reduction(state: State, disposition: Disposition)

  function DeriveAvailability(foreground: Foreground, background: Background, blocked: bool,
                              gone: bool, adapterConnected: bool): Availability
  {
    if gone then Gone
    else if !adapterConnected then Unknown
    else if blocked then Blocked
    else match foreground
      case Running => Busy
      case Stopped =>
        (match background
         case Active => WaitingBackground
         case Clear => Quiescent
         case BackgroundUnknown => Unknown)
      case ForegroundUnknown => Unknown
  }

  /** Recompute availability from the axes that are still fresh. */
  function Finish(s: State): State {
    s.(availability := DeriveAvailability(
         if s.front.isFresh then s.front.foreground else ForegroundUnknown,
         if s.back.isFresh then s.back.background else BackgroundUnknown,
         s.front.blocked && s.front.isFresh,
         s.sessionEnded || s.sessionGone,
         s.adapterConnected && !s.sequenceGap))
  }

  function FrontAfter(f: Front, kind: Kind): Front {
    match kind
    case TurnStart => Front(Running, true, false)
    case TurnStop(_) => Front(Stopped, true, false)
    case SessionEnd => f.(foreground := Stopped, isFresh := true)
    case _ => f
  }

  function BackAfter(b: Back, kind: Kind): Back {
    match kind
    case SessionRegister => b
    case TurnStart => b
    case TurnStop(CertifiedClear) => Back(Clear, true, true, {}, 0, false)
    case TurnStop(CertifiedActive) =>
      // A boolean certifies presence, not identity, count or a zero baseline.
      b.(background := Active, isFresh := true, certified := false,
         presenceOnly := b.presenceOnly || (b.jobs == {} && b.anonymous == 0))
    case TurnStop(Uncertified) =>
      b.(background := if b.Positive() then Active else BackgroundUnknown, certified := false)
    case BackgroundStart(j) =>
      b.(background := Active, isFresh := true, jobs := b.jobs + {j})
    case BackgroundStop(j) =>
      var left := if j in b.jobs then b.(jobs := b.jobs - {j})
                  else if b.anonymous > 0 then b.(anonymous := b.anonymous - 1)
                  else b.(presenceOnly := false);
      left.(isFresh := true,
            background := if left.Positive() then Active
                          else if left.certified then Clear else BackgroundUnknown)
    case BackgroundSnapshot(n) =>
      Back(if n != 0 then Active else Clear, true, true, {}, n, false)
    case SessionEnd => Back(Clear, true, true, {}, 0, false)
  }

  /** Apply the next event in producer order; an ended session only counts it. */
  function Apply(s: State, e: Event): (r: State)
    requires e.seqno > 0
    ensures r.pending == s.pending && r.producerSeq == e.seqno
  {
    var t := s.(producerSeq := e.seqno, adapterConnected := true);
    if s.sessionEnded then Finish(t)
    else Finish(t.(front := FrontAfter(s.front, e.kind), back := BackAfter(s.back, e.kind),
                   sessionEnded := e.kind.SessionEnd?,
                   sessionGone := s.sessionGone || e.kind.SessionEnd?))
  }

  /** Insert by sequence number, after any equal one, as a stable sort of the appended list does. */
  function Enqueue(queue: seq<Event>, e: Event): seq<Event> {
    if queue == [] then [e]
    else if e.seqno < queue[0].seqno then [e] + queue
    else [queue[0]] + Enqueue(queue[1..], e)
  }

  predicate Buffered(queue: seq<Event>, seqno: int) {
    exists i :: 0 <= i < |queue| && queue[i].seqno == seqno
  }

  /** Apply buffered events for as long as the head is the next contiguous one. */
  function Drain(s: State): State
    decreases |s.pending|
  {
    if s.pending != [] && s.pending[0].seqno == s.producerSeq + 1 then
      Drain(Apply(s.(pending := s.pending[1..]), s.pending[0]))
    else s
  }

  /** What one arriving event does to the session state. */
  function Reduce(s: State, e: Event): Reduction {
    if e.seqno <= 0 then Reduction(s, InvalidSeq)
    else if e.seqno <= s.producerSeq || Buffered(s.pending, e.seqno) then Reduction(s, StaleSeq)
    else if e.seqno > s.producerSeq + 1 then
      Reduction(Finish(s.(pending := Enqueue(s.pending, e), sequenceGap := true)), SeqGap)
    else
      var d := Drain(Apply(s, e));
      Reduction(Finish(d.(sequenceGap := d.pending != [])), Applied)
  }

  /** The drain loop as the reducer runs it: rebind the current state until the head leaves a gap. */
  method ReduceEvent(s: State, e: Event) returns (r: Reduction)
    ensures r == Reduce(s, e)
  {
    if e.seqno <= 0 {
      return Reduction(s, InvalidSeq);
    }
    if e.seqno <= s.producerSeq || Buffered(s.pending, e.seqno) {
      return Reduction(s, StaleSeq);
    }
    if e.seqno > s.producerSeq + 1 {
      return Reduction(Finish(s.(pending := Enqueue(s.pending, e), sequenceGap := true)), SeqGap);
    }
    var current := Apply(s, e);
    ghost var drained := Drain(current);
    while current.pending != [] && current.pending[0].seqno == current.producerSeq + 1
      invariant Drain(current) == drained
      decreases |current.pending|
    {
      var item := current.pending[0];
      current := current.(pending := current.pending[1..]);
      current := Apply(current, item);
    }
    current := Finish(current.(sequenceGap := current.pending != []));
    return Reduction(current, Applied);
  }

  /** Host liveness; an explicit session end is terminal. */
  function ObserveGone(s: State, gone: bool): State {
    Finish(s.(sessionGone := s.sessionEnded || gone))
  }

  /** Reconnecting transport never recertifies stale semantic observations. */
  function SetAdapterConnected(s: State, connected: bool): State {
    Finish(s.(adapterConnected := connected, front := s.front.(isFresh := false),
              back := s.back.(isFresh := false, certified := false)))
  }

  // ---- persisted form -------------------------------------------------------

  datatype Value = Number(int) | Name(string) | Flag(bool) | Null

  /** A buffered event as stored: its number, and its fields as pairs sorted by key. */
  datatype Item = Item(seqno: int, fields: seq<(string, Value)>)

  /** `dict(fields).get(key)`. */
  function Get(fields: seq<(string, Value)>, key: string): Option<Value> {
    if fields == [] then None
    else if fields[|fields| - 1].0 == key then Some(fields[|fields| - 1].1)
    else Get(fields[..|fields| - 1], key)
  }

  function TypeName(kind: Kind): string {
    match kind
    case SessionRegister => "session.register"
    case TurnStart => "turn.start"
    case TurnStop(_) => "turn.stop"
    case BackgroundStart(_) => "background.start"
    case BackgroundStop(_) => "background.stop"
    case BackgroundSnapshot(_) => "background.snapshot"
    case SessionEnd => "session.end"
  }

  function CertaintyValue(c: Certainty): Value {
    match c
    case CertifiedActive => Flag(true)
    case CertifiedClear => Flag(false)
    case Uncertified => Null
  }

  /** `PendingEvent(seq, tuple(sorted(event.items())))`, for the fields the reducer reads. */
  function Freeze(e: Event): Item {
    var common := [("producer_seq", Number(e.seqno)), ("type", Name(TypeName(e.kind)))];
    Item(e.seqno,
         match e.kind
         case TurnStop(c) => [("background_active", CertaintyValue(c))] + common
         case BackgroundStart(j) => [("job_id", Number(j))] + common
         case BackgroundStop(j) => [("job_id", Number(j))] + common
         case BackgroundSnapshot(n) => [("active_count", Number(n))] + common
         case _ => common)
  }

  function NumberIn(fields: seq<(string, Value)>, key: string): nat {
    match Get(fields, key)
    case Some(Number(n)) => if n >= 0 then n else 0
    case _ => 0
  }

  /** The event that `thaw` hands back to the reducer, read field by field. */
  function Thaw(item: Item): Event {
    var kind := Get(item.fields, "type");
    Event(item.seqno,
          if kind == Some(Name("turn.start")) then TurnStart
          else if kind == Some(Name("turn.stop")) then
            TurnStop(match Get(item.fields, "background_active")
                     case Some(Flag(true)) => CertifiedActive
                     case Some(Flag(false)) => CertifiedClear
                     case _ => Uncertified)
          else if kind == Some(Name("background.start")) then BackgroundStart(NumberIn(item.fields, "job_id"))
          else if kind == Some(Name("background.stop")) then BackgroundStop(NumberIn(item.fields, "job_id"))
          else if kind == Some(Name("background.snapshot")) then BackgroundSnapshot(NumberIn(item.fields, "active_count"))
          else if kind == Some(Name("session.end")) then SessionEnd
          else SessionRegister)
  }

  /** The JSON document of a session row: the job set becomes an ascending list, the buffer a list of items. */
  datatype Document = Document(scalars: State, jobs: seq<JobId>, pending: seq<Item>)

  function FreezeAll(queue: seq<Event>): seq<Item> { seq(|queue|, i requires 0 <= i < |queue| => Freeze(queue[i])) }

  function ThawAll(items: seq<Item>): seq<Event> { seq(|items|, i requires 0 <= i < |items| => Thaw(items[i])) }

  function ToDocument(s: State): Document {
    Document(s.(back := s.back.(jobs := {}), pending := []), Sorted(s.back.jobs), FreezeAll(s.pending))
  }

  function FromDocument(d: Document): State {
    d.scalars.(back := d.scalars.back.(jobs := SetOf(d.jobs)), pending := ThawAll(d.pending))
  }

  /** Thawing a frozen event gives the event back, through its stored fields. */
  lemma FreezeRoundTrip(e: Event)
    ensures Thaw(Freeze(e)) == e
  {
    var common := [("producer_seq", Number(e.seqno)), ("type", Name(TypeName(e.kind)))];
    var fields := Freeze(e).fields;
    assert fields[|fields| - 1] == ("type", Name(TypeName(e.kind)));
    assert fields[..|fields| - 1][|fields| - 2] == ("producer_seq", Number(e.seqno));
    if |fields| == 3 {
      assert fields[..2][..1] == [fields[0]];
      assert forall key :: key != "type" && key != "producer_seq" ==> Get(fields, key) == Get([fields[0]], key);
    }
  }

  lemma DocumentRoundTrip(s: State)
    ensures FromDocument(ToDocument(s)) == s
  {
    SortedRoundTrip(s.back.jobs);
    forall i | 0 <= i < |s.pending| ensures Thaw(Freeze(s.pending[i])) == s.pending[i] {
      FreezeRoundTrip(s.pending[i]);
    }
    assert ThawAll(FreezeAll(s.pending)) == s.pending;
  }
}
