/**
 * What a parsed handoff says about its lines: where each block lies, which
 * value each field has, every rule a block can break, and exactly when a whole
 * handoff is free of protocol errors.
 */
module HandoffMeaning {
  import opened Common
  import opened Handoff

  // ---- the lines of a block ---------------------------------------------------------

  /** Line m of the body gives the field. */
  predicate Gives(body: seq<Line>, key: Key, m: nat) {
    m < |body| && body[m].Field? && body[m].key == key
  }

  ghost predicate GivesFirst(body: seq<Line>, key: Key, m: nat) {
    Gives(body, key, m) && forall x: nat :: x < m ==> !Gives(body, key, x)
  }

  ghost predicate GivesTwice(body: seq<Line>, key: Key) {
    exists m: nat, x: nat :: x < m && Gives(body, key, x) && Gives(body, key, m)
  }

  ghost predicate GivenAnywhere(body: seq<Line>, key: Key) { exists m: nat :: Gives(body, key, m) }

  lemma GivesSnoc(body: seq<Line>, line: Line, key: Key, m: nat)
    ensures Gives(body + [line], key, m) <==>
            Gives(body, key, m) || (m == |body| && line.Field? && line.key == key)
  {
  }

  /** A field's value is that of the first line that gives it. */
  lemma {:induction false} FieldsMean(body: seq<Line>, key: Key)
    ensures key in FirstFields(body) <==> GivenAnywhere(body, key)
    ensures forall m: nat :: GivesFirst(body, key, m) ==> key in FirstFields(body) && FirstFields(body)[key] == body[m].value
  {
    if body != [] {
      var before, line := body[..|body| - 1], body[|body| - 1];
      assert body == before + [line];
      FieldsMean(before, key);
      forall m: nat
        ensures Gives(body, key, m) <==> Gives(before, key, m) || (m == |before| && line.Field? && line.key == key)
      {
        GivesSnoc(before, line, key, m);
      }
      forall m: nat | GivesFirst(body, key, m) && m < |before| ensures GivesFirst(before, key, m) {}
      if GivenAnywhere(before, key) {
        var m: nat :| Gives(before, key, m);
        assert Gives(body, key, m);
      }
      if line.Field? && line.key == key {
        assert Gives(body, key, |before|);
      }
      if GivenAnywhere(body, key) {
        var m: nat :| Gives(body, key, m);
        assert Gives(before, key, m) || m == |before|;
      }
    }
  }

  lemma {:induction false} RepeatsMean(body: seq<Line>, key: Key)
    ensures key in Repeated(body) <==> GivesTwice(body, key)
  {
    if body != [] {
      var before, line := body[..|body| - 1], body[|body| - 1];
      assert body == before + [line];
      RepeatsMean(before, key);
      FieldsMean(before, key);
      forall m: nat
        ensures Gives(body, key, m) <==> Gives(before, key, m) || (m == |before| && line.Field? && line.key == key)
      {
        GivesSnoc(before, line, key, m);
      }
      if line.Field? && line.key == key && GivenAnywhere(before, key) {
        var x: nat :| Gives(before, key, x);
        assert Gives(body, key, x) && Gives(body, key, |before|);
      }
      if GivesTwice(before, key) {
        var m: nat, x: nat :| x < m && Gives(before, key, x) && Gives(before, key, m);
        assert Gives(body, key, x) && Gives(body, key, m);
      }
      if GivesTwice(body, key) {
        var m: nat, x: nat :| x < m && Gives(body, key, x) && Gives(body, key, m);
        assert Gives(before, key, x);
      }
    }
  }

  /** The lines after heading k, up to the next turn heading or the end. */
  predicate Spans(lines: seq<Line>, k: nat, body: seq<Line>) {
    var e := k + 1 + |body|;
    && e <= |lines| && lines[k + 1..e] == body
    && (e == |lines| || lines[e].TurnHeading?)
    && forall x :: 0 <= x < |body| ==> !body[x].TurnHeading?
  }

  /** No turn heading lies between one start and the next one, or the end. */
  lemma NoStartBetween(lines: seq<Line>, starts: seq<nat>, i: nat, at: nat)
    requires TurnPositions(lines, starts) && i < |starts|
    requires starts[i] < at && (i + 1 < |starts| ==> at < starts[i + 1])
    ensures at !in starts
  {
    forall j | 0 <= j < |starts| ensures starts[j] != at {
      assert j <= i ==> starts[j] <= starts[i];
      assert j > i ==> starts[i + 1] <= starts[j];
    }
  }

  lemma BodySpans(lines: seq<Line>, i: nat)
    requires i < |Turns(lines)| && TurnPositions(lines, Turns(lines))
    ensures Spans(lines, Turns(lines)[i], Body(lines, Turns(lines), i))
  {
    var starts := Turns(lines);
    var body := Body(lines, starts, i);
    PositionsFacts(lines, IS_TURN);
    forall x | 0 <= x < |body| ensures !body[x].TurnHeading? {
      var at := starts[i] + 1 + x;
      NoStartBetween(lines, starts, i, at);
      assert lines[at] == body[x] && !IS_TURN(lines[at]);
    }
  }

  // ---- what a block says, and which rules it breaks --------------------------------------

  /** The rule that e names is broken by a block of these fields after a turn of the given number. */
  predicate Breaks(b: Block, previous: nat, repeated: Key -> bool, e: BlockError) {
    var verdict, waiting := Get(b.fields, VerdictKey), Get(b.fields, VerdictKey) == Word(Waiting);
    match e
    case TurnSequence(expected, got) => expected == previous + 1 && got == b.turn && expected != got
    case MissingField(key) => key != Reason && key !in b.fields
    case DuplicateField(key) => repeated(key)
    case UnknownVerdict => !verdict.Word?
    case MissingReason => verdict != Word(Done) && Get(b.fields, Reason) == Blank
    case WaitingNeedsNoInputs => waiting && !Get(b.fields, InputsNeeded).IsNone()
    case WaitingNeedsPending => waiting && Get(b.fields, Pending).IsNone()
    case WaitingNeedsReason => waiting && Get(b.fields, Reason).IsNone()
  }

  lemma {:induction false} PickMeans(keys: seq<Key>, chosen: set<Key>, key: Key)
    ensures key in Pick(keys, chosen) <==> key in keys && key in chosen
  {
    if keys != [] {
      PickMeans(keys[1..], chosen, key);
      assert keys == [keys[0]] + keys[1..];
    }
  }

  lemma AllKeys(key: Key)
    ensures key in KNOWN && (key in REQUIRED <==> key != Reason)
  {
    assert KNOWN[0] == Artifacts && KNOWN[1] == Did && KNOWN[2] == InputsNeeded && KNOWN[3] == Pending
           && KNOWN[4] == Reason && KNOWN[5] == VerdictKey;
    assert REQUIRED[0] == Artifacts && REQUIRED[1] == Did && REQUIRED[2] == InputsNeeded && REQUIRED[3] == Pending
           && REQUIRED[4] == VerdictKey;
  }

  lemma MissingMeans(fields: Fields, key: Key)
    ensures MissingField(key) in MissingErrors(Pick(REQUIRED, SetOf(REQUIRED) - fields.Keys)) <==>
            key != Reason && key !in fields
  {
    var missing := Pick(REQUIRED, SetOf(REQUIRED) - fields.Keys);
    AllKeys(key);
    PickMeans(REQUIRED, SetOf(REQUIRED) - fields.Keys, key);
    if key in missing {
      var i :| 0 <= i < |missing| && missing[i] == key;
      assert MissingErrors(missing)[i] == MissingField(key);
    }
  }

  lemma DuplicateMeans(repeated: set<Key>, key: Key)
    ensures DuplicateField(key) in DuplicateErrors(Pick(KNOWN, repeated)) <==> key in repeated
  {
    var twice := Pick(KNOWN, repeated);
    AllKeys(key);
    PickMeans(KNOWN, repeated, key);
    if key in twice {
      var i :| 0 <= i < |twice| && twice[i] == key;
      assert DuplicateErrors(twice)[i] == DuplicateField(key);
    }
  }

  /** The rules that look at single values only. */
  predicate BreaksValue(fields: Fields, e: BlockError) {
    var verdict, waiting := Get(fields, VerdictKey), Get(fields, VerdictKey) == Word(Waiting);
    match e
    case UnknownVerdict => !verdict.Word?
    case MissingReason => verdict != Word(Done) && Get(fields, Reason) == Blank
    case WaitingNeedsNoInputs => waiting && !Get(fields, InputsNeeded).IsNone()
    case WaitingNeedsPending => waiting && Get(fields, Pending).IsNone()
    case WaitingNeedsReason => waiting && Get(fields, Reason).IsNone()
    case _ => false
  }

  lemma ValuesMean(fields: Fields, e: BlockError)
    ensures e in ValueErrors(fields) <==> BreaksValue(fields, e)
  {
  }

  lemma InFieldErrors(fields: Fields, repeated: set<Key>, e: BlockError)
    ensures e in FieldErrors(fields, repeated) <==>
            || e in MissingErrors(Pick(REQUIRED, SetOf(REQUIRED) - fields.Keys))
            || e in DuplicateErrors(Pick(KNOWN, repeated))
            || BreaksValue(fields, e)
  {
    ValuesMean(fields, e);
    InThree(MissingErrors(Pick(REQUIRED, SetOf(REQUIRED) - fields.Keys)), DuplicateErrors(Pick(KNOWN, repeated)),
            ValueErrors(fields), e);
  }

  lemma InThree<T>(a: seq<T>, b: seq<T>, c: seq<T>, e: T)
    ensures e in a + b + c <==> e in a || e in b || e in c
  {
  }

  lemma FieldErrorsMean(b: Block, repeated: set<Key>, previous: nat, e: BlockError)
    ensures e in TurnErrors(previous, b.turn) + FieldErrors(b.fields, repeated) <==>
            Breaks(b, previous, key => key in repeated, e)
  {
    InFieldErrors(b.fields, repeated, e);
    match e
    case MissingField(key) => MissingMeans(b.fields, key);
    case DuplicateField(key) => DuplicateMeans(repeated, key);
    case _ =>
  }

  function PreviousTurn(blocks: seq<Block>, i: nat): nat
    requires i <= |blocks|
  {
    if i == 0 then 0 else blocks[i - 1].turn
  }

  /**
   * Block i stands for the i-th turn heading and the lines up to the next one.
   * Each field has the value of the first line that gives it, and the errors
   * are exactly the rules that those lines break.
   */
  lemma BlockMeans(lines: seq<Line>, i: nat) returns (body: seq<Line>)
    requires i < |BlocksOf(lines)|
    ensures i < |Turns(lines)| && Turns(lines)[i] < |lines|
    ensures var k, b := Turns(lines)[i], BlocksOf(lines)[i];
            && lines[k] == TurnHeading(b.turn, b.heading) && Spans(lines, k, body) && b.index == i + 1
            && (forall key :: key in b.fields <==> GivenAnywhere(body, key))
            && (forall key, m: nat :: GivesFirst(body, key, m) ==> key in b.fields && b.fields[key] == body[m].value)
            && (forall e :: e in b.errors <==> Breaks(b, PreviousTurn(BlocksOf(lines), i), key => GivesTwice(body, key), e))
            && b.legacyIndex == |Headings(lines[..k + 1])|
  {
    BlockOfTurn(lines, i);
    BodySpans(lines, i);
    body := Body(lines, Turns(lines), i);
    var b := BlocksOf(lines)[i];
    if i > 0 { BlockOfTurn(lines, i - 1); }
    forall key ensures key in b.fields <==> GivenAnywhere(body, key) { FieldsMean(body, key); }
    forall key, m: nat | GivesFirst(body, key, m) ensures key in b.fields && b.fields[key] == body[m].value {
      FieldsMean(body, key);
    }
    forall key ensures key in Repeated(body) <==> GivesTwice(body, key) { RepeatsMean(body, key); }
    forall e ensures e in b.errors <==> Breaks(b, PreviousTurn(BlocksOf(lines), i), key => GivesTwice(body, key), e) {
      ErrorMeans(b, Repeated(body), body, PreviousTurn(BlocksOf(lines), i), e);
    }
  }

  lemma ErrorMeans(b: Block, repeated: set<Key>, body: seq<Line>, previous: nat, e: BlockError)
    requires forall key :: key in repeated <==> GivesTwice(body, key)
    requires b.errors == TurnErrors(previous, b.turn) + FieldErrors(b.fields, repeated)
    ensures e in b.errors <==> Breaks(b, previous, key => GivesTwice(body, key), e)
  {
    FieldErrorsMean(b, repeated, previous, e);
  }

  // ---- when a whole handoff is free of errors ----------------------------------------------

  /** A cursor that points at an existing block, or heading; the canonical one, if there, decides. */
  predicate CursorFits(blocks: nat, headings: nat, v2: Cursor, legacy: Cursor) {
    match v2
    case At(n) => n <= blocks
    case Invalid => false
    case Absent =>
      match legacy
      case At(n) => n <= headings
      case Invalid => false
      case Absent => true
  }

  lemma {:induction false} TitlesMean(lines: seq<Line>)
    ensures OtherTitles(lines) == [] <==> forall k :: 0 <= k < |lines| ==> !lines[k].OtherHeading?
  {
    if lines != [] {
      TitlesMean(lines[..|lines| - 1]);
      assert forall k :: 0 <= k < |lines| - 1 ==> lines[..|lines| - 1][k] == lines[k];
    }
  }

  /**
   * A handoff has no protocol error iff it has no other heading than turns, its
   * cursor points at something that exists, and no block breaks any rule.
   */
  lemma ErrorFreeIff(lines: seq<Line>, v2: Cursor, legacy: Cursor)
    ensures Parse(lines, v2, legacy).errors == [] <==>
            && (forall k :: 0 <= k < |lines| ==> !lines[k].OtherHeading?)
            && CursorFits(|BlocksOf(lines)|, |Headings(lines)|, v2, legacy)
            && forall i :: 0 <= i < |BlocksOf(lines)| ==> BlocksOf(lines)[i].errors == []
  {
    BlockErrorsEmpty(BlocksOf(lines));
    TitlesMean(lines);
  }

  // ---- what is acknowledged ------------------------------------------------------------------

  lemma {:induction false} MappedMeans(blocks: seq<Block>, legacy: nat)
    requires LegacyAscends(blocks)
    ensures MappedThrough(blocks, legacy) <= |blocks|
    ensures forall i :: 0 <= i < |blocks| ==> (i < MappedThrough(blocks, legacy) <==> blocks[i].legacyIndex <= legacy)
  {
    if blocks != [] {
      MappedMeans(blocks[..|blocks| - 1], legacy);
    }
  }

  /**
   * The acknowledged blocks are the first n of a canonical cursor n that fits,
   * else those whose heading lies within a legacy cursor that fits, else none.
   * A block has an open item iff it is beyond them and asks for something.
   */
  lemma AcknowledgedMeans(lines: seq<Line>, v2: Cursor, legacy: Cursor, i: nat)
    requires i < |BlocksOf(lines)|
    ensures var p, b := Parse(lines, v2, legacy), BlocksOf(lines)[i];
            var fits := CursorFits(|BlocksOf(lines)|, |Headings(lines)|, v2, legacy);
            && p.ackedThrough <= |BlocksOf(lines)|
            && (i < p.ackedThrough <==>
                  fits && ((v2.At? && i < v2.through) || (v2.Absent? && legacy.At? && b.legacyIndex <= legacy.through)))
            && p.source == (if v2 != Absent then Canonical else if legacy != Absent then LegacyMapped else NoCursor)
            && (OpenItem(i + 1, b.turn, b.heading, Get(b.fields, VerdictKey), Get(b.fields, InputsNeeded)) in p.openItems <==>
                  i >= p.ackedThrough
                  && (Get(b.fields, VerdictKey) in {Word(NeedsAction), Word(Failed), Word(Blocked)}
                      || !Get(b.fields, InputsNeeded).IsNone()))
  {
    var p, blocks := Parse(lines, v2, legacy), BlocksOf(lines);
    BlocksAscend(lines);
    if legacy.At? { MappedMeans(blocks, legacy.through); }
    var item := OpenItem(i + 1, blocks[i].turn, blocks[i].heading,
                         Get(blocks[i].fields, VerdictKey), Get(blocks[i].fields, InputsNeeded));
    OpenItemFacts(blocks, p.ackedThrough, item);
    BlockOfTurn(lines, i);
    if j :| 0 <= j < |blocks| && blocks[j].index > p.ackedThrough && IsOpen(blocks[j]) && item == ItemOf(blocks[j]) {
      BlockOfTurn(lines, j);
    }
  }
}
