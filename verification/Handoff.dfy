/**
 * The canonical, read-only parser of append-only handoffs, over lines that
 * have already been classified and values that are stripped and case-folded.
 */
module Handoff {
  import opened Common

  datatype Verdict = Done | Waiting | NeedsAction | Failed | Blocked

  /** A stripped field value: empty, one of the "none" words, a verdict word, or anything else. */
  datatype Value = Blank | NoneWord | Word(verdict: Verdict) | Text(text: string)
  {
    predicate IsNone() { Blank? || NoneWord? }
  }

  /** The known field names, in alphabetical order. */
  datatype Key = Artifacts | Did | InputsNeeded | Pending | Reason | VerdictKey

  datatype Line =
    | TurnHeading(turn: nat, title: string)
    | OtherHeading(title: string)
    | Field(key: Key, value: Value)
    | OtherLine
  {
    predicate IsHeading() { TurnHeading? || OtherHeading? }
  }

  datatype Cursor = Absent | Invalid | At(through: nat)

  datatype BlockError =
    | TurnSequence(expected: nat, got: nat)
    | MissingField(key: Key)
    | DuplicateField(key: Key)
    | UnknownVerdict
    | MissingReason
    | WaitingNeedsNoInputs
    | WaitingNeedsPending
    | WaitingNeedsReason

  datatype ProtocolError =
    | InBlock(index: nat, error: BlockError)
    | Noncanonical(titles: seq<string>)
    | BadCanonicalCursor
    | BadLegacyCursor
    | Unreadable

  type Fields = map<Key, Value>

  datatype Block = Block(index: nat, turn: nat, heading: string, fields: Fields,
                         errors: seq<BlockError>, legacyIndex: nat)

  datatype OpenItem = OpenItem(index: nat, turn: nat, heading: string, verdict: Value, inputsNeeded: Value)

  datatype Source = NoCursor | Canonical | LegacyMapped

  datatype Parsed = Parsed(blocks: seq<Block>, headings: nat, ackedThrough: nat, source: Source,
                           openItems: seq<OpenItem>, errors: seq<ProtocolError>)

  const REQUIRED: seq<Key> := [Artifacts, Did, InputsNeeded, Pending, VerdictKey]

  const KNOWN: seq<Key> := [Artifacts, Did, InputsNeeded, Pending, Reason, VerdictKey]

  function Get(fields: Fields, key: Key): Value { if key in fields then fields[key] else Blank }

  // ---- what a handoff means ---------------------------------------------------

  /** Positions of the lines satisfying p, ascending. */
  function Positions(lines: seq<Line>, p: Line -> bool): seq<nat> {
    if lines == [] then []
    else Positions(lines[..|lines| - 1], p)
         + (if p(lines[|lines| - 1]) then [|lines| - 1] else [])
  }

  const IS_TURN: Line -> bool := (l: Line) => l.TurnHeading?

  const IS_HEADING: Line -> bool := (l: Line) => l.IsHeading()

  function Turns(lines: seq<Line>): seq<nat> { Positions(lines, IS_TURN) }

  function Headings(lines: seq<Line>): seq<nat> { Positions(lines, IS_HEADING) }

  /** The first value of every known field. */
  function FirstFields(body: seq<Line>): Fields {
    if body == [] then map[]
    else
      var before, line := FirstFields(body[..|body| - 1]), body[|body| - 1];
      if line.Field? && line.key !in before then before[line.key := line.value] else before
  }

  function Repeated(body: seq<Line>): set<Key> {
    if body == [] then {}
    else
      var before, line := body[..|body| - 1], body[|body| - 1];
      if line.Field? && line.key in FirstFields(before) then Repeated(before) + {line.key} else Repeated(before)
  }

  function Pick(keys: seq<Key>, chosen: set<Key>): seq<Key> {
    if keys == [] then []
    else (if keys[0] in chosen then [keys[0]] else []) + Pick(keys[1..], chosen)
  }

  function MissingErrors(keys: seq<Key>): seq<BlockError> {
    seq(|keys|, i requires 0 <= i < |keys| => MissingField(keys[i]))
  }

  function DuplicateErrors(keys: seq<Key>): seq<BlockError> {
    seq(|keys|, i requires 0 <= i < |keys| => DuplicateField(keys[i]))
  }

  /** The rules that a block's values break. */
  function ValueErrors(fields: Fields): seq<BlockError> {
    var verdict, reason := Get(fields, VerdictKey), Get(fields, Reason);
    (if !verdict.Word? then [UnknownVerdict] else [])
    + (if verdict != Word(Done) && reason.Blank? then [MissingReason] else [])
    + (if verdict != Word(Waiting) then [] else
         (if !Get(fields, InputsNeeded).IsNone() then [WaitingNeedsNoInputs] else [])
         + (if Get(fields, Pending).IsNone() then [WaitingNeedsPending] else [])
         + (if reason.IsNone() then [WaitingNeedsReason] else []))
  }

  /** Every rule a block breaks, apart from its turn number. */
  function FieldErrors(fields: Fields, repeated: set<Key>): seq<BlockError> {
    MissingErrors(Pick(REQUIRED, SetOf(REQUIRED) - fields.Keys)) + DuplicateErrors(Pick(KNOWN, repeated)) + ValueErrors(fields)
  }

  function TurnErrors(previous: nat, declared: nat): seq<BlockError> {
    if declared != previous + 1 then [TurnSequence(previous + 1, declared)] else []
  }

  predicate TurnPositions(lines: seq<Line>, starts: seq<nat>) {
    && (forall i :: 0 <= i < |starts| ==> starts[i] < |lines| && lines[starts[i]].TurnHeading?)
    && (forall i, j :: 0 <= i < j < |starts| ==> starts[i] < starts[j])
  }

  function Body(lines: seq<Line>, starts: seq<nat>, i: nat): seq<Line>
    requires TurnPositions(lines, starts) && i < |starts|
  {
    lines[starts[i] + 1 .. if i + 1 < |starts| then starts[i + 1] else |lines|]
  }

  function BlockAt(lines: seq<Line>, starts: seq<nat>, i: nat): Block
    requires TurnPositions(lines, starts) && i < |starts|
  {
    var line, fields := lines[starts[i]], FirstFields(Body(lines, starts, i));
    var previous := if i == 0 then 0 else lines[starts[i - 1]].turn;
    Block(i + 1, line.turn, line.title, fields,
          TurnErrors(previous, line.turn) + FieldErrors(fields, Repeated(Body(lines, starts, i))),
          |Headings(lines[..starts[i] + 1])|)
  }

  function BlocksOf(lines: seq<Line>): seq<Block> {
    TurnsArePositions(lines);
    var starts := Turns(lines);
    seq(|starts|, i requires 0 <= i < |starts| => BlockAt(lines, starts, i))
  }

  function Located(b: Block): seq<ProtocolError> {
    seq(|b.errors|, i requires 0 <= i < |b.errors| => InBlock(b.index, b.errors[i]))
  }

  function BlockErrors(blocks: seq<Block>): seq<ProtocolError> {
    if blocks == [] then []
    else
      var b := blocks[|blocks| - 1];
      BlockErrors(blocks[..|blocks| - 1]) + Located(b)
  }

  function OtherTitles(lines: seq<Line>): seq<string> {
    if lines == [] then []
    else
      var line := lines[|lines| - 1];
      OtherTitles(lines[..|lines| - 1]) + (if line.OtherHeading? then [line.title] else [])
  }

  function HeadingErrors(lines: seq<Line>): seq<ProtocolError> {
    if OtherTitles(lines) == [] then [] else [Noncanonical(OtherTitles(lines))]
  }

  /** How many blocks have a legacy index within the legacy cursor. */
  function MappedThrough(blocks: seq<Block>, legacy: nat): nat {
    if blocks == [] then 0
    else MappedThrough(blocks[..|blocks| - 1], legacy)
         + (if blocks[|blocks| - 1].legacyIndex <= legacy then 1 else 0)
  }

  /** The acknowledged block count, its source, and a cursor error if there is one. */
  function Acknowledged(blocks: seq<Block>, headings: nat, v2: Cursor, legacy: Cursor)
    : (nat, Source, seq<ProtocolError>)
  {
    match v2
    case At(n) => if n > |blocks| then (0, Canonical, [BadCanonicalCursor]) else (n, Canonical, [])
    case Invalid => (0, Canonical, [BadCanonicalCursor])
    case Absent =>
      match legacy
      case At(n) =>
        if n > headings then (0, LegacyMapped, [BadLegacyCursor])
        else (MappedThrough(blocks, n), LegacyMapped, [])
      case Invalid => (0, LegacyMapped, [BadLegacyCursor])
      case Absent => (0, NoCursor, [])
  }

  predicate IsOpen(b: Block) {
    Get(b.fields, VerdictKey) in {Word(NeedsAction), Word(Failed), Word(Blocked)}
    || !Get(b.fields, InputsNeeded).IsNone()
  }

  function ItemOf(b: Block): OpenItem {
    OpenItem(b.index, b.turn, b.heading, Get(b.fields, VerdictKey), Get(b.fields, InputsNeeded))
  }

  function OpenAfter(blocks: seq<Block>, acked: nat): seq<OpenItem> {
    if blocks == [] then []
    else
      var b := blocks[|blocks| - 1];
      OpenAfter(blocks[..|blocks| - 1], acked) + (if b.index > acked && IsOpen(b) then [ItemOf(b)] else [])
  }

  function Parse(lines: seq<Line>, v2: Cursor, legacy: Cursor): Parsed {
    var blocks := BlocksOf(lines);
    var headings := |Headings(lines)|;
    var (acked, source, cursorErrors) := Acknowledged(blocks, headings, v2, legacy);
    Parsed(blocks, headings, acked, source, OpenAfter(blocks, acked),
           BlockErrors(blocks) + HeadingErrors(lines) + cursorErrors)
  }

  // ---- facts about positions --------------------------------------------------

  lemma {:induction false} PositionsFacts(lines: seq<Line>, p: Line -> bool)
    ensures var r := Positions(lines, p);
            && (forall i :: 0 <= i < |r| ==> r[i] < |lines| && p(lines[r[i]]))
            && (forall i, j :: 0 <= i < j < |r| ==> r[i] < r[j])
            && (forall k :: 0 <= k < |lines| && p(lines[k]) ==> k in r)
  {
    if lines != [] {
      var before := lines[..|lines| - 1];
      PositionsFacts(before, p);
      var r, q := Positions(lines, p), Positions(before, p);
      forall k | 0 <= k < |lines| && p(lines[k]) ensures k in r {
        if k < |before| { assert before[k] == lines[k] && k in q; }
      }
    }
  }

  lemma TurnsArePositions(lines: seq<Line>)
    ensures TurnPositions(lines, Turns(lines))
  {
    PositionsFacts(lines, IS_TURN);
  }

  lemma {:induction false} PositionsPrefix(lines: seq<Line>, more: seq<Line>, p: Line -> bool)
    ensures Positions(lines, p) <= Positions(lines + more, p)
    ensures forall i :: |Positions(lines, p)| <= i < |Positions(lines + more, p)| ==> Positions(lines + more, p)[i] >= |lines|
  {
    if more == [] {
      assert lines + more == lines;
    } else {
      PositionsPrefix(lines, more[..|more| - 1], p);
      assert (lines + more)[..|lines + more| - 1] == lines + more[..|more| - 1];
    }
  }

  /** `legacy.index(start) + 1` is the number of headings up to and including `start`. */
  lemma HeadingRank(lines: seq<Line>, k: nat)
    requires k < |lines| && lines[k].IsHeading()
    ensures var n := |Headings(lines[..k + 1])|;
            0 < n <= |Headings(lines)| && Headings(lines)[n - 1] == k
  {
    var here := lines[..k + 1];
    assert here[..k] == lines[..k];
    assert Headings(here) == Headings(lines[..k]) + [k];
    PositionsPrefix(here, lines[k + 1..], IS_HEADING);
    assert here + lines[k + 1..] == lines;
  }

  lemma HeadingCountGrows(lines: seq<Line>, j: nat, k: nat)
    requires j < k < |lines| && lines[k].IsHeading()
    ensures |Headings(lines[..j + 1])| < |Headings(lines[..k + 1])|
  {
    assert lines[..k + 1][..k] == lines[..k];
    PositionsPrefix(lines[..j + 1], lines[j + 1..k], IS_HEADING);
    assert lines[..j + 1] + lines[j + 1..k] == lines[..k];
  }

  // ---- the parser as it runs --------------------------------------------------

  method IndexOf(xs: seq<nat>, x: nat) returns (i: nat)
    requires x in xs
    ensures i < |xs| && xs[i] == x && x !in xs[..i]
  {
    i := 0;
    while xs[i] != x
      invariant i < |xs| && x !in xs[..i] && x in xs[i..]
      decreases |xs| - i
    {
      i := i + 1;
    }
  }

  method ReadBody(body: seq<Line>) returns (fields: Fields, repeated: set<Key>)
    ensures fields == FirstFields(body) && repeated == Repeated(body)
  {
    fields, repeated := map[], {};
    for k := 0 to |body|
      invariant fields == FirstFields(body[..k]) && repeated == Repeated(body[..k])
    {
      var line := body[k];
      assert body[..k + 1][..k] == body[..k];
      if line.Field? {
        if line.key in fields {
          repeated := repeated + {line.key};
        } else {
          fields := fields[line.key := line.value];
        }
      }
    }
    assert body[..|body|] == body;
  }

  /** One pass over the lines: turn headings, all headings, and noncanonical titles. */
  method ScanHeadings(lines: seq<Line>) returns (starts: seq<nat>, legacy: seq<nat>, titles: seq<string>)
    ensures starts == Turns(lines) && legacy == Headings(lines) && titles == OtherTitles(lines)
  {
    starts, legacy, titles := [], [], [];
    for k := 0 to |lines|
      invariant starts == Turns(lines[..k]) && legacy == Headings(lines[..k]) && titles == OtherTitles(lines[..k])
    {
      assert lines[..k + 1][..k] == lines[..k];
      if lines[k].IsHeading() {
        legacy := legacy + [k];
      }
      if lines[k].TurnHeading? {
        starts := starts + [k];
      } else if lines[k].OtherHeading? {
        titles := titles + [lines[k].title];
      }
    }
    assert lines[..|lines|] == lines;
  }

  method ReadBlock(lines: seq<Line>, starts: seq<nat>, legacy: seq<nat>, i: nat, previous: nat) returns (block: Block)
    requires TurnPositions(lines, starts) && legacy == Headings(lines) && i < |starts|
    requires previous == if i == 0 then 0 else lines[starts[i - 1]].turn
    ensures block == BlockAt(lines, starts, i)
  {
    var line := lines[starts[i]];
    var fields, repeated := ReadBody(Body(lines, starts, i));
    PositionsFacts(lines, IS_HEADING);
    HeadingRank(lines, starts[i]);
    var rank := IndexOf(legacy, starts[i]);
    assert rank + 1 == |Headings(lines[..starts[i] + 1])|;
    var errors := TurnErrors(previous, line.turn) + FieldErrors(fields, repeated);
    block := Block(i + 1, line.turn, line.title, fields, errors, rank + 1);
  }

  method ReadBlocks(lines: seq<Line>, starts: seq<nat>, legacy: seq<nat>)
    returns (blocks: seq<Block>, errors: seq<ProtocolError>)
    requires starts == Turns(lines) && legacy == Headings(lines)
    ensures blocks == BlocksOf(lines) && errors == BlockErrors(blocks)
  {
    TurnsArePositions(lines);
    blocks, errors := [], [];
    var previous := 0;
    for i := 0 to |starts|
      invariant i <= |BlocksOf(lines)| && blocks == BlocksOf(lines)[..i] && errors == BlockErrors(blocks)
      invariant previous == if i == 0 then 0 else lines[starts[i - 1]].turn
    {
      var block := ReadBlock(lines, starts, legacy, i, previous);
      BlockOfTurn(lines, i);
      BlockErrorsSnoc(blocks, block);
      previous := lines[starts[i]].turn;
      errors := errors + Located(block);
      blocks := blocks + [block];
    }
  }

  lemma BlockOfTurn(lines: seq<Line>, i: nat)
    requires i < |Turns(lines)|
    ensures TurnPositions(lines, Turns(lines)) && |BlocksOf(lines)| == |Turns(lines)|
    ensures BlocksOf(lines)[i] == BlockAt(lines, Turns(lines), i)
    ensures BlocksOf(lines)[..i + 1] == BlocksOf(lines)[..i] + [BlocksOf(lines)[i]]
  {
    TurnsArePositions(lines);
  }

  lemma BlockErrorsSnoc(blocks: seq<Block>, block: Block)
    ensures BlockErrors(blocks + [block]) == BlockErrors(blocks) + Located(block)
  {
    assert (blocks + [block])[..|blocks|] == blocks;
  }

  method ReadCursor(blocks: seq<Block>, headings: nat, v2: Cursor, legacy: Cursor)
    returns (acked: nat, source: Source, errors: seq<ProtocolError>)
    ensures (acked, source, errors) == Acknowledged(blocks, headings, v2, legacy)
  {
    acked, source, errors := 0, NoCursor, [];
    if v2 != Absent {
      source := Canonical;
      if v2.Invalid? || v2.through > |blocks| {
        errors := [BadCanonicalCursor];
      } else {
        acked := v2.through;
      }
    } else if legacy != Absent {
      source := LegacyMapped;
      if legacy.Invalid? || legacy.through > headings {
        errors := [BadLegacyCursor];
      } else {
        acked := MappedThrough(blocks, legacy.through);
      }
    }
  }

  method CollectOpen(blocks: seq<Block>, acked: nat) returns (open: seq<OpenItem>)
    ensures open == OpenAfter(blocks, acked)
  {
    open := [];
    for i := 0 to |blocks|
      invariant open == OpenAfter(blocks[..i], acked)
    {
      assert blocks[..i + 1][..i] == blocks[..i];
      if blocks[i].index > acked && IsOpen(blocks[i]) {
        open := open + [ItemOf(blocks[i])];
      }
    }
    assert blocks[..|blocks|] == blocks;
  }

  method ParseText(lines: seq<Line>, v2: Cursor, legacyCursor: Cursor) returns (r: Parsed)
    ensures r == Parse(lines, v2, legacyCursor)
  {
    var starts, legacy, titles := ScanHeadings(lines);
    var blocks, errors := ReadBlocks(lines, starts, legacy);
    if titles != [] {
      errors := errors + [Noncanonical(titles)];
    }
    var acked, source, cursorErrors := ReadCursor(blocks, |legacy|, v2, legacyCursor);
    var open := CollectOpen(blocks, acked);
    r := Parsed(blocks, |legacy|, acked, source, open, errors + cursorErrors);
  }

  // ---- acknowledgement cursors ------------------------------------------------

  lemma LegacyIncreases(lines: seq<Line>, i: nat, j: nat)
    requires i < j < |BlocksOf(lines)|
    ensures BlocksOf(lines)[i].legacyIndex < BlocksOf(lines)[j].legacyIndex
  {
    TurnsArePositions(lines);
    HeadingCountGrows(lines, Turns(lines)[i], Turns(lines)[j]);
  }

  lemma LegacyBounded(lines: seq<Line>, i: nat)
    requires i < |BlocksOf(lines)|
    ensures 1 <= BlocksOf(lines)[i].legacyIndex <= |Headings(lines)|
  {
    TurnsArePositions(lines);
    HeadingRank(lines, Turns(lines)[i]);
  }

  /** The legacy value that the acknowledge command writes beside canonical cursor n. */
  function LegacyFor(blocks: seq<Block>, n: nat): nat
    requires n <= |blocks|
  {
    if n == 0 then 0 else blocks[n - 1].legacyIndex
  }

  lemma {:induction false} MappedCounts(blocks: seq<Block>, legacy: nat, n: nat)
    requires n <= |blocks|
    requires forall i :: 0 <= i < |blocks| ==> (blocks[i].legacyIndex <= legacy <==> i < n)
    ensures MappedThrough(blocks, legacy) == n
  {
    if blocks != [] {
      var before := blocks[..|blocks| - 1];
      MappedCounts(before, legacy, if n == |blocks| then n - 1 else n);
    }
  }

  predicate LegacyAscends(blocks: seq<Block>) {
    && (forall i :: 0 <= i < |blocks| ==> blocks[i].legacyIndex >= 1)
    && (forall i, j :: 0 <= i < j < |blocks| ==> blocks[i].legacyIndex < blocks[j].legacyIndex)
  }

  lemma BlocksAscend(lines: seq<Line>)
    ensures LegacyAscends(BlocksOf(lines))
  {
    var blocks := BlocksOf(lines);
    forall i | 0 <= i < |blocks| ensures blocks[i].legacyIndex >= 1 { LegacyBounded(lines, i); }
    forall i, j | 0 <= i < j < |blocks| ensures blocks[i].legacyIndex < blocks[j].legacyIndex {
      LegacyIncreases(lines, i, j);
    }
  }

  lemma CutAt(blocks: seq<Block>, n: nat, i: nat)
    requires LegacyAscends(blocks) && n <= |blocks| && i < |blocks|
    ensures blocks[i].legacyIndex <= LegacyFor(blocks, n) <==> i < n
  {
  }

  lemma MappedAtCut(blocks: seq<Block>, n: nat)
    requires LegacyAscends(blocks) && n <= |blocks|
    ensures MappedThrough(blocks, LegacyFor(blocks, n)) == n
  {
    forall i | 0 <= i < |blocks| ensures blocks[i].legacyIndex <= LegacyFor(blocks, n) <==> i < n {
      CutAt(blocks, n, i);
    }
    MappedCounts(blocks, LegacyFor(blocks, n), n);
  }

  lemma ReadBack(blocks: seq<Block>, headings: nat, n: nat, legacy: Cursor)
    requires LegacyAscends(blocks) && n <= |blocks| && LegacyFor(blocks, n) <= headings
    ensures Acknowledged(blocks, headings, At(n), legacy) == (n, Canonical, [])
    ensures Acknowledged(blocks, headings, Absent, At(LegacyFor(blocks, n))) == (n, LegacyMapped, [])
    ensures Acknowledged(blocks, headings, Absent, Absent) == (0, NoCursor, [])
  {
    MappedAtCut(blocks, n);
  }

  /**
   * The pair of cursors written by an acknowledgement through block n reads
   * back as n through either file, with the same open items and no cursor error.
   */
  lemma AckPairAgrees(lines: seq<Line>, n: nat, legacy: Cursor)
    requires n <= |BlocksOf(lines)|
    ensures var canonical := Parse(lines, At(n), legacy);
            var mapped := Parse(lines, Absent, At(LegacyFor(BlocksOf(lines), n)));
            && canonical.ackedThrough == n == mapped.ackedThrough
            && canonical.openItems == mapped.openItems
            && canonical.errors == mapped.errors
            && canonical.errors == Parse(lines, Absent, Absent).errors
  {
    BlocksAscend(lines);
    if n > 0 { LegacyBounded(lines, n - 1); }
    ReadBack(BlocksOf(lines), |Headings(lines)|, n, legacy);
  }

  // ---- append-only growth -----------------------------------------------------

  /** The appended text starts the first new block; earlier starts do not move. */
  lemma StartsSurvive(lines: seq<Line>, more: seq<Line>)
    requires more != [] && more[0].TurnHeading?
    ensures var a, b := Turns(lines), Turns(lines + more);
            |a| < |b| && a <= b && b[|a|] == |lines|
  {
    var begun := lines + more[..1];
    assert begun[..|lines|] == lines;
    assert Turns(begun) == Turns(lines) + [|lines|];
    PositionsPrefix(begun, more[1..], IS_TURN);
    assert begun + more[1..] == lines + more;
  }

  lemma BodySurvives(lines: seq<Line>, more: seq<Line>, starts: seq<nat>, grown: seq<nat>, i: nat)
    requires TurnPositions(lines, starts) && TurnPositions(lines + more, grown) && i < |starts|
    requires |starts| < |grown| && starts <= grown && grown[|starts|] == |lines|
    ensures Body(lines + more, grown, i) == Body(lines, starts, i)
    ensures (lines + more)[..starts[i] + 1] == lines[..starts[i] + 1]
  {
    assert grown[i] == starts[i];
    if i + 1 < |starts| { assert grown[i + 1] == starts[i + 1]; }
  }

  lemma BlockSurvives(lines: seq<Line>, more: seq<Line>, i: nat)
    requires more != [] && more[0].TurnHeading? && i < |Turns(lines)|
    ensures i < |Turns(lines + more)| && BlocksOf(lines + more)[i] == BlocksOf(lines)[i]
  {
    var starts, grown := Turns(lines), Turns(lines + more);
    TurnsArePositions(lines);
    TurnsArePositions(lines + more);
    StartsSurvive(lines, more);
    BodySurvives(lines, more, starts, grown, i);
    assert grown[i] == starts[i] && (i > 0 ==> grown[i - 1] == starts[i - 1]);
    assert BlockAt(lines + more, grown, i) == BlockAt(lines, starts, i);
  }

  /** Appending a turn block leaves every earlier block as it was. */
  lemma AppendKeepsBlocks(lines: seq<Line>, more: seq<Line>)
    requires more != [] && more[0].TurnHeading?
    ensures BlocksOf(lines) < BlocksOf(lines + more)
    ensures forall i :: |BlocksOf(lines)| <= i < |BlocksOf(lines + more)| ==>
              BlocksOf(lines + more)[i].legacyIndex > |Headings(lines)|
  {
    var a, b := BlocksOf(lines), BlocksOf(lines + more);
    TurnsArePositions(lines + more);
    PositionsPrefix(lines, more, IS_TURN);
    forall i | 0 <= i < |a| ensures a[i] == b[i] {
      BlockSurvives(lines, more, i);
    }
    StartsSurvive(lines, more);
    forall i | |a| <= i < |b| ensures b[i].legacyIndex > |Headings(lines)| {
      var all, k := lines + more, Turns(lines + more)[i];
      assert all[..k + 1] == lines + more[..k + 1 - |lines|];
      assert all[..k + 1][..k] == lines + more[..k - |lines|];
      PositionsPrefix(lines, more[..k - |lines|], IS_HEADING);
    }
  }

  lemma {:induction false} OpenAfterGrows(a: seq<Block>, b: seq<Block>, acked: nat)
    ensures OpenAfter(a, acked) <= OpenAfter(a + b, acked)
  {
    if b == [] {
      assert a + b == a;
    } else {
      OpenAfterGrows(a, b[..|b| - 1], acked);
      assert (a + b)[..|a + b| - 1] == a + b[..|b| - 1];
    }
  }

  lemma {:induction false} MappedGrows(a: seq<Block>, b: seq<Block>, legacy: nat)
    requires forall i :: 0 <= i < |b| ==> b[i].legacyIndex > legacy
    ensures MappedThrough(a + b, legacy) == MappedThrough(a, legacy)
  {
    if b == [] {
      assert a + b == a;
    } else {
      MappedGrows(a, b[..|b| - 1], legacy);
      assert (a + b)[..|a + b| - 1] == a + b[..|b| - 1];
    }
  }

  /**
   * Appending a turn block under cursors that were valid keeps the
   * acknowledged count, and every open item stays open, in place, first.
   */
  lemma AppendKeepsOpenItems(lines: seq<Line>, more: seq<Line>, v2: Cursor, legacy: Cursor)
    requires more != [] && more[0].TurnHeading?
    requires var e := Acknowledged(BlocksOf(lines), |Headings(lines)|, v2, legacy).2; e == []
    ensures var old', new' := Parse(lines, v2, legacy), Parse(lines + more, v2, legacy);
            && new'.ackedThrough == old'.ackedThrough
            && old'.openItems <= new'.openItems
  {
    AppendKeepsBlocks(lines, more);
    PositionsPrefix(lines, more, IS_HEADING);
    var a, b := BlocksOf(lines), BlocksOf(lines + more);
    var tail := b[|a|..];
    assert a + tail == b;
    if v2.Absent? && legacy.At? {
      MappedGrows(a, tail, legacy.through);
    }
    OpenAfterGrows(a, tail, Parse(lines, v2, legacy).ackedThrough);
  }

  // ---- what an error-free handoff guarantees ------------------------------------

  lemma {:induction false} BlockErrorsEmpty(blocks: seq<Block>)
    ensures BlockErrors(blocks) == [] <==> forall i :: 0 <= i < |blocks| ==> blocks[i].errors == []
  {
    if blocks != [] {
      BlockErrorsEmpty(blocks[..|blocks| - 1]);
      assert forall i :: 0 <= i < |blocks| - 1 ==> blocks[..|blocks| - 1][i] == blocks[i];
    }
  }

  lemma FieldErrorFree(fields: Fields, repeated: set<Key>)
    requires FieldErrors(fields, repeated) == []
    ensures Get(fields, VerdictKey).Word?
  {
  }

  lemma BothEmpty<T>(a: seq<T>, b: seq<T>)
    requires a + b == []
    ensures a == [] && b == []
  {
    assert |a + b| == |a| + |b|;
  }

  lemma BlockErrorFree(lines: seq<Line>, starts: seq<nat>, i: nat)
    requires TurnPositions(lines, starts) && i < |starts| && BlockAt(lines, starts, i).errors == []
    ensures BlockAt(lines, starts, i).turn == (if i == 0 then 0 else lines[starts[i - 1]].turn) + 1
    ensures Get(BlockAt(lines, starts, i).fields, VerdictKey).Word?
  {
    var fields, repeated := FirstFields(Body(lines, starts, i)), Repeated(Body(lines, starts, i));
    BothEmpty(TurnErrors(if i == 0 then 0 else lines[starts[i - 1]].turn, lines[starts[i]].turn), FieldErrors(fields, repeated));
    FieldErrorFree(fields, repeated);
  }

  /** Block i declares the turn after its predecessor's. */
  predicate Follows(blocks: seq<Block>, i: nat)
    requires i < |blocks|
  {
    blocks[i].turn == (if i == 0 then 0 else blocks[i - 1].turn) + 1
  }

  lemma ErrorFreeStep(lines: seq<Line>, i: nat)
    requires i < |BlocksOf(lines)| && BlocksOf(lines)[i].errors == []
    ensures Follows(BlocksOf(lines), i) && Get(BlocksOf(lines)[i].fields, VerdictKey).Word?
  {
    BlockOfTurn(lines, i);
    if i > 0 { BlockOfTurn(lines, i - 1); }
    BlockErrorFree(lines, Turns(lines), i);
  }

  lemma {:induction false} Numbered(blocks: seq<Block>, i: nat)
    requires i < |blocks| && forall k :: 0 <= k <= i ==> Follows(blocks, k)
    ensures blocks[i].turn == i + 1
  {
    assert Follows(blocks, i);
    if i > 0 {
      Numbered(blocks, i - 1);
    }
  }

  /** Without protocol errors the turns are numbered exactly 1..n and every verdict is known. */
  lemma ErrorFreeTurns(lines: seq<Line>, v2: Cursor, legacy: Cursor, i: nat)
    requires Parse(lines, v2, legacy).errors == [] && i < |BlocksOf(lines)|
    ensures BlocksOf(lines)[i].turn == i + 1
    ensures Get(BlocksOf(lines)[i].fields, VerdictKey).Word?
  {
    var blocks := BlocksOf(lines);
    assert BlockErrors(blocks) == [];
    BlockErrorsEmpty(blocks);
    forall k | 0 <= k <= i ensures Follows(blocks, k) { ErrorFreeStep(lines, k); }
    Numbered(blocks, i);
    ErrorFreeStep(lines, i);
  }

  /** An open item is the summary of an unacknowledged open block, and every such block has one. */
  lemma {:induction false} OpenItemFacts(blocks: seq<Block>, acked: nat, item: OpenItem)
    ensures item in OpenAfter(blocks, acked) <==>
            exists i :: 0 <= i < |blocks| && blocks[i].index > acked && IsOpen(blocks[i]) && item == ItemOf(blocks[i])
  {
    if blocks != [] {
      var before, b := blocks[..|blocks| - 1], blocks[|blocks| - 1];
      OpenItemFacts(before, acked, item);
      if i :| 0 <= i < |before| && before[i].index > acked && IsOpen(before[i]) && item == ItemOf(before[i]) {
        assert blocks[i] == before[i];
      }
      if i :| 0 <= i < |blocks| && blocks[i].index > acked && IsOpen(blocks[i]) && item == ItemOf(blocks[i]) {
        if i < |before| { assert before[i] == blocks[i]; }
      }
    }
  }

  /** Block i waits for an answer: it lies beyond the cursor and asks something. */
  predicate Waits(blocks: seq<Block>, acked: nat, i: nat) {
    i < |blocks| && blocks[i].index > acked && IsOpen(blocks[i])
  }

  predicate IsFirstWaiting(blocks: seq<Block>, acked: nat, i: nat) {
    Waits(blocks, acked, i) && forall j: nat :: j < i ==> !Waits(blocks, acked, j)
  }

  /** The first open item is that of the earliest block that waits for an answer. */
  lemma {:induction false} FirstOpenItem(blocks: seq<Block>, acked: nat, i: nat)
    requires IsFirstWaiting(blocks, acked, i)
    ensures OpenAfter(blocks, acked) != [] && OpenAfter(blocks, acked)[0] == ItemOf(blocks[i])
  {
    var before := blocks[..|blocks| - 1];
    if i < |before| {
      assert Waits(before, acked, i);
      assert forall j: nat :: j < i ==> (Waits(before, acked, j) <==> Waits(blocks, acked, j));
      FirstOpenItem(before, acked, i);
    } else {
      assert forall j: nat :: Waits(before, acked, j) ==> Waits(blocks, acked, j);
      NothingOpen(before, acked);
    }
  }

  lemma {:induction false} NothingOpen(blocks: seq<Block>, acked: nat)
    requires forall i: nat :: !Waits(blocks, acked, i)
    ensures OpenAfter(blocks, acked) == []
  {
    if blocks != [] {
      var before := blocks[..|blocks| - 1];
      assert !Waits(blocks, acked, |blocks| - 1);
      forall i: nat ensures !Waits(before, acked, i) { assert !Waits(blocks, acked, i); }
      NothingOpen(before, acked);
    }
  }

  predicate HasTurn(lines: seq<Line>) { exists i :: 0 <= i < |lines| && lines[i].TurnHeading? }

  lemma BlocksIff(lines: seq<Line>)
    ensures BlocksOf(lines) != [] <==> HasTurn(lines)
  {
    PositionsFacts(lines, IS_TURN);
    var turns := Turns(lines);
    if i :| 0 <= i < |lines| && lines[i].TurnHeading? {
      assert IS_TURN(lines[i]) && i in turns;
    }
    if turns != [] {
      assert IS_TURN(lines[turns[0]]);
    }
  }
}
