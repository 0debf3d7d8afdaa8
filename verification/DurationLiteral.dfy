/** The time literals of the configuration: `90`, `10s`, `1h30m`, `1m500ms`, ... */
module DurationLiteral {
  import opened Common

  const U128_MAX: nat := 0xFFFF_FFFF_FFFF_FFFF_FFFF_FFFF_FFFF_FFFF

  datatype Unit = Millis | Seconds | Minutes | Hours | Days | Weeks | Months | Years

  /** So many of a unit, in milliseconds. */
  function InMillis(count: nat, u: Unit): nat {
    match u
    case Millis => count
    case Seconds => count * 1_000
    case Minutes => count * 60_000
    case Hours => count * 3_600_000
    case Days => count * 86_400_000
    case Weeks => count * 604_800_000
    case Months => count * 2_592_000_000
    case Years => count * 31_536_000_000
  }

  /** How the units relate. */
  lemma UnitsRelate(n: nat)
    ensures InMillis(1000 * n, Millis) == InMillis(n, Seconds) && InMillis(60 * n, Seconds) == InMillis(n, Minutes)
    ensures InMillis(60 * n, Minutes) == InMillis(n, Hours) && InMillis(24 * n, Hours) == InMillis(n, Days)
    ensures InMillis(7 * n, Days) == InMillis(n, Weeks) && InMillis(30 * n, Days) == InMillis(n, Months)
    ensures InMillis(365 * n, Days) == InMillis(n, Years) && InMillis(n, Millis) == n
  {
  }

  function UnitText(u: Unit): string {
    match u
    case Millis => "ms"
    case Seconds => "s"
    case Minutes => "m"
    case Hours => "h"
    case Days => "d"
    case Weeks => "w"
    case Months => "M"
    case Years => "y"
  }

  /** The unit one character stands for. */
  function UnitOf(c: char): Option<Unit> {
    match c
    case 's' => Some(Seconds)
    case 'm' => Some(Minutes)
    case 'h' => Some(Hours)
    case 'd' => Some(Days)
    case 'w' => Some(Weeks)
    case 'M' => Some(Months)
    case 'y' => Some(Years)
    case _ => None
  }

  /** `Panicked`: slicing one byte out of a character that takes several. */
  datatype Outcome = Millis64(value: u64) | Invalid | MissingUnit | UnsupportedUnit(unit: char) | TooLarge | Panicked

  // ---- numbers ----

  predicate IsDigit(c: char) { '0' <= c <= '9' }

  predicate IsAscii(c: char) { c as int < 0x80 }

  predicate AllDigits(s: string) { forall i :: 0 <= i < |s| ==> IsDigit(s[i]) }

  function Value(digits: string): nat
    requires AllDigits(digits)
  {
    if digits == [] then 0 else Value(digits[..|digits| - 1]) * 10 + (digits[|digits| - 1] as int - '0' as int)
  }

  /** Length of the run of digits in front. */
  function DigitLen(s: string): (n: nat)
    ensures n <= |s|
  {
    if s == [] || !IsDigit(s[0]) then 0 else DigitLen(s[1..]) + 1
  }

  lemma {:induction false} DigitLenSpan(s: string)
    ensures AllDigits(s[..DigitLen(s)]) && (DigitLen(s) < |s| ==> !IsDigit(s[DigitLen(s)]))
  {
    if s != [] && IsDigit(s[0]) {
      DigitLenSpan(s[1..]);
      assert s[..DigitLen(s)] == [s[0]] + s[1..][..DigitLen(s[1..])];
    }
  }

  lemma {:induction false} DigitLenIs(digits: string, rest: string)
    requires AllDigits(digits) && (rest != [] ==> !IsDigit(rest[0]))
    ensures DigitLen(digits + rest) == |digits|
  {
    if digits == [] {
      assert digits + rest == rest;
    } else {
      assert (digits + rest)[1..] == digits[1..] + rest;
      DigitLenIs(digits[1..], rest);
    }
  }

  // ---- the language of literals ----

  /** Numbers as written, leading zeros included, each with its unit. */
  datatype Segments = NoMore | Segment(digits: string, unit: Unit, rest: Segments)

  predicate Numeral(digits: string) { digits != [] && AllDigits(digits) }

  predicate SegmentsOk(segs: Segments) { segs.Segment? ==> Numeral(segs.digits) && SegmentsOk(segs.rest) }

  function Print(segs: Segments): string {
    match segs
    case NoMore => []
    case Segment(digits, unit, rest) => digits + (UnitText(unit) + Print(rest))
  }

  /** The exact number of milliseconds. */
  function Sum(segs: Segments): nat
    requires SegmentsOk(segs)
  {
    match segs
    case NoMore => 0
    case Segment(digits, unit, rest) => InMillis(Value(digits), unit) + Sum(rest)
  }

  // ---- the parser ----

  predicate StartsWithMs(s: string) { |s| >= 2 && s[0] == 'm' && s[1] == 's' }

  /** What one round of the loop reads: a number with its unit, a number at the end, or an error. */
  datatype Reading = Full(value: nat, unit: Unit, count: nat) | Bare(value: nat) | Failed(outcome: Outcome)

  function ReadUnit(s: string, value: nat, n: nat): Reading
    requires n < |s|
  {
    if StartsWithMs(s[n..]) then Full(value, Millis, n + 2)
    else if !IsAscii(s[n]) then Failed(Panicked)
    else if UnitOf(s[n]).None? then Failed(UnsupportedUnit(s[n]))
    else Full(value, UnitOf(s[n]).value, n + 1)
  }

  function ReadSegment(s: string): (r: Reading)
    requires s != []
    ensures r.Full? ==> 0 < r.count <= |s|
  {
    var n := DigitLen(s);
    DigitLenSpan(s);
    if n == 0 || Value(s[..n]) > U128_MAX then Failed(Invalid)
    else if n == |s| then Bare(Value(s[..n]))
    else ReadUnit(s, Value(s[..n]), n)
  }

  /** One more segment with checked arithmetic on 128 bits: the new total, or nothing on overflow. */
  function Add(total: nat, value: nat, unit: Unit): Option<nat> {
    if InMillis(value, unit) > U128_MAX || total + InMillis(value, unit) > U128_MAX then None
    else Some(total + InMillis(value, unit))
  }

  function Finish(total: Option<nat>): Outcome {
    if total.Some? && total.value <= U64_MAX then Millis64(total.value) else TooLarge
  }

  /** All rounds over the text, before any arithmetic. */
  datatype Rounds = Done | Last(value: nat) | Stop(outcome: Outcome) | Then(value: nat, unit: Unit, rest: Rounds)

  function ReadAll(s: string): Rounds
    decreases |s|
  {
    if s == [] then Done
    else
      match ReadSegment(s)
      case Failed(outcome) => Stop(outcome)
      case Bare(value) => Last(value)
      case Full(value, unit, count) => Then(value, unit, ReadAll(s[count..]))
  }

  /** The arithmetic of the rounds. An error in a later round is met only if the earlier ones added up. */
  function Evaluate(r: Rounds, total: nat, sawSegment: bool): Outcome {
    match r
    case Done => Finish(Some(total))
    case Stop(outcome) => outcome
    case Last(value) => if sawSegment then MissingUnit else Finish(Add(total, value, Seconds))
    case Then(value, unit, rest) =>
      match Add(total, value, unit)
      case None => TooLarge
      case Some(sum) => Evaluate(rest, sum, true)
  }

  function Parse(raw: string): Outcome { if raw == [] then Invalid else Evaluate(ReadAll(raw), 0, false) }

  method SkipDigits(raw: string, start: nat) returns (idx: nat)
    requires start <= |raw|
    ensures start <= idx <= |raw| && idx - start == DigitLen(raw[start..])
  {
    idx := start;
    while idx < |raw| && IsDigit(raw[idx])
      invariant start <= idx <= |raw| && DigitLen(raw[start..]) == idx - start + DigitLen(raw[idx..])
    {
      assert raw[idx..][1..] == raw[idx + 1..];
      idx := idx + 1;
    }
  }

  /** The body of the loop up to the arithmetic. */
  method ReadAt(raw: string, start: nat) returns (r: Reading)
    requires start < |raw|
    ensures r == ReadSegment(raw[start..]) && FirstRound(ReadAll(raw[start..]), r, raw, start)
  {
    NextRound(raw, start);
    var idx := SkipDigits(raw, start);
    ghost var s := raw[start..];
    DigitLenSpan(s);
    assert s[..idx - start] == raw[start..idx] && s[idx - start..] == raw[idx..];
    if start == idx {
      return Failed(Invalid);
    }
    var value := Value(raw[start..idx]);
    if value > U128_MAX {
      return Failed(Invalid);
    }
    if idx == |raw| {
      return Bare(value);
    }
    if StartsWithMs(raw[idx..]) {
      return Full(value, Millis, idx + 2 - start);
    }
    if !IsAscii(raw[idx]) {
      return Failed(Panicked);
    }
    var unit := UnitOf(raw[idx]);
    if unit.None? {
      return Failed(UnsupportedUnit(raw[idx]));
    }
    return Full(value, unit.value, idx + 1 - start);
  }

  ghost predicate FirstRound(rounds: Rounds, r: Reading, raw: string, idx: nat) {
    match r
    case Failed(outcome) => rounds == Stop(outcome)
    case Bare(value) => rounds == Last(value)
    case Full(value, unit, count) => 0 < count <= |raw| - idx
                                     && rounds == Then(value, unit, ReadAll(raw[idx + count..]))
  }

  lemma NextRound(raw: string, idx: nat)
    requires idx < |raw|
    ensures FirstRound(ReadAll(raw[idx..]), ReadSegment(raw[idx..]), raw, idx)
  {
    var r := ReadSegment(raw[idx..]);
    if r.Full? { assert raw[idx..][r.count..] == raw[idx + r.count..]; }
  }

  /** What is left to compute at a position, given what was summed up before it. */
  ghost function Remaining(raw: string, idx: nat, total: nat, sawSegment: bool): Outcome
    requires idx <= |raw|
  {
    Evaluate(ReadAll(raw[idx..]), total, sawSegment)
  }

  datatype Progress = Ended(outcome: Outcome) | Next(idx: nat, total: nat)

  /** One round of the loop: the answer, or how far it got. */
  method Round(raw: string, idx: nat, total: nat, sawSegment: bool) returns (p: Progress)
    requires idx < |raw|
    ensures p.Ended? ==> p.outcome == Remaining(raw, idx, total, sawSegment)
    ensures p.Next? ==> idx < p.idx <= |raw|
                        && Remaining(raw, p.idx, p.total, true) == Remaining(raw, idx, total, sawSegment)
  {
    var reading := ReadAt(raw, idx);
    ghost var rounds := ReadAll(raw[idx..]);
    match reading
    case Failed(outcome) => return Ended(outcome);
    case Bare(value) => return Ended(if sawSegment then MissingUnit else Finish(Add(total, value, Seconds)));
    case Full(value, unit, count) =>
      var sum := Add(total, value, unit);
      if sum.None? {
        return Ended(TooLarge);
      }
      return Next(idx + count, sum.value);
  }

  lemma NothingRemains(raw: string, total: nat, sawSegment: bool)
    ensures Remaining(raw, |raw|, total, sawSegment) == Finish(Some(total))
  {
    assert raw[|raw|..] == [];
  }

  method ParseDuration(raw: string) returns (r: Outcome)
    ensures r == Parse(raw)
  {
    if raw == [] {
      return Invalid;
    }
    var idx: nat, total: nat, sawSegment := 0, 0, false;
    assert raw[0..] == raw;
    ghost var goal := Remaining(raw, 0, 0, false);
    while idx < |raw|
      invariant 0 <= idx <= |raw| && Remaining(raw, idx, total, sawSegment) == goal
      decreases |raw| - idx
    {
      var p := Round(raw, idx, total, sawSegment);
      if p.Ended? {
        return p.outcome;
      }
      idx, total, sawSegment := p.idx, p.total, true;
    }
    NothingRemains(raw, total, sawSegment);
    return Finish(Some(total));
  }

  // ---- what one round reads ----

  lemma UnitRead(unit: Unit, rest: string)
    requires unit == Minutes && rest != [] ==> rest[0] != 's'
    ensures var s := UnitText(unit) + rest;
            s != [] && !IsDigit(s[0]) && IsAscii(s[0])
            && (StartsWithMs(s) <==> unit == Millis) && (unit != Millis ==> UnitOf(s[0]) == Some(unit))
  {
    var s := UnitText(unit) + rest;
    if |s| > 1 && unit != Millis { assert s[1] == rest[0]; }
  }

  /** A segment is read as written; `m` is never taken for `ms` when no `s` follows it. */
  lemma ReadsSegment(digits: string, unit: Unit, rest: string)
    requires Numeral(digits) && (rest != [] ==> rest[0] != 's')
    ensures ReadSegment(digits + (UnitText(unit) + rest))
         == if Value(digits) > U128_MAX then Failed(Invalid) else Full(Value(digits), unit, |digits| + |UnitText(unit)|)
  {
    var s, n := digits + (UnitText(unit) + rest), |digits|;
    UnitRead(unit, rest);
    DigitLenIs(digits, UnitText(unit) + rest);
    assert s[..n] == digits && s[n..] == UnitText(unit) + rest;
  }

  /** What was read as a segment is one. */
  lemma ReadIsSegment(s: string) returns (digits: string)
    requires s != [] && ReadSegment(s).Full?
    ensures Numeral(digits) && ReadSegment(s).value == Value(digits)
    ensures s == digits + (UnitText(ReadSegment(s).unit) + s[ReadSegment(s).count..])
  {
    var r, n := ReadSegment(s), DigitLen(s);
    DigitLenSpan(s);
    digits := s[..n];
    assert s[n..r.count] == UnitText(r.unit) by {
      if StartsWithMs(s[n..]) { assert s[n..n + 2] == "ms"; }
    }
    assert s == s[..n] + (s[n..r.count] + s[r.count..]);
  }

  // ---- what the parser accepts, and what it computes ----

  /** Checked addition fails only when the exact sum needs more than 128 bits. */
  lemma AddExact(total: nat, value: nat, unit: Unit)
    ensures Add(total, value, unit) == if total + InMillis(value, unit) <= U128_MAX
                                       then Some(total + InMillis(value, unit)) else None
    ensures value > U128_MAX ==> InMillis(value, unit) > U128_MAX
  {
  }

  /** The rounds that read `segs` and go on with `more`. */
  function RoundsOf(segs: Segments, more: Rounds): Rounds
    requires SegmentsOk(segs)
  {
    match segs
    case NoMore => more
    case Segment(digits, unit, rest) =>
      if Value(digits) > U128_MAX then Stop(Invalid) else Then(Value(digits), unit, RoundsOf(rest, more))
  }

  lemma SegmentsFront(segs: Segments, tail: string)
    requires SegmentsOk(segs) && (tail != [] ==> tail[0] != 's')
    ensures var s := Print(segs) + tail; s != [] ==> s[0] != 's'
  {
    if segs.Segment? { assert (Print(segs) + tail)[0] == segs.digits[0]; }
  }

  lemma PrintFirst(digits: string, unit: Unit, rest: Segments, tail: string)
    ensures Print(Segment(digits, unit, rest)) + tail == digits + (UnitText(unit) + (Print(rest) + tail))
  {
  }

  lemma ReadAllFirst(digits: string, unit: Unit, rest: string)
    requires Numeral(digits) && (rest != [] ==> rest[0] != 's')
    ensures ReadAll(digits + (UnitText(unit) + rest)) == if Value(digits) > U128_MAX then Stop(Invalid)
                                                         else Then(Value(digits), unit, ReadAll(rest))
  {
    ReadsSegment(digits, unit, rest);
    DropBoth(digits, UnitText(unit), rest);
    var r := if Value(digits) > U128_MAX then Failed(Invalid)
    else Full(Value(digits), unit, |digits| + |UnitText(unit)|);
    ReadAllFrom(digits + (UnitText(unit) + rest), r, rest);
  }

  lemma ReadAllFrom(s: string, r: Reading, rest: string)
    requires s != [] && ReadSegment(s) == r && !r.Bare? && (r.Full? ==> 0 < r.count <= |s| && s[r.count..] == rest)
    ensures ReadAll(s) == if r.Full? then Then(r.value, r.unit, ReadAll(rest)) else Stop(r.outcome)
  {
  }

  lemma DropBoth(a: string, b: string, c: string)
    ensures (a + (b + c))[|a| + |b|..] == c
  {
  }

  lemma ReadAllStep(s: string)
    requires s != []
    ensures var r := ReadSegment(s);
            ReadAll(s) == if r.Full? then Then(r.value, r.unit, ReadAll(s[r.count..])) else if r.Bare?
            then Last(r.value) else Stop(r.outcome)
  {
  }

  /** Printed segments are read back one by one, whatever follows them. */
  lemma {:induction false} ReadsSegments(segs: Segments, tail: string)
    requires SegmentsOk(segs) && (tail != [] ==> tail[0] != 's')
    ensures ReadAll(Print(segs) + tail) == RoundsOf(segs, ReadAll(tail))
  {
    match segs
    case NoMore => assert Print(segs) + tail == tail;
    case Segment(digits, unit, rest) =>
      PrintFirst(digits, unit, rest, tail);
      SegmentsFront(rest, tail);
      ReadAllFirst(digits, unit, Print(rest) + tail);
      ReadsSegments(rest, tail);
  }

  /** Any text is some printed segments and a tail at which reading ends. */
  lemma {:induction false} SplitsIntoSegments(s: string) returns (segs: Segments, tail: string)
    ensures SegmentsOk(segs) && s == Print(segs) + tail && ReadAll(s) == RoundsOf(segs, ReadAll(tail))
    ensures !ReadAll(tail).Then?
    decreases |s|
  {
    segs, tail := NoMore, s;
    if s != [] && ReadSegment(s).Full? {
      var r := ReadSegment(s);
      var digits := ReadIsSegment(s);
      var rest;
      rest, tail := SplitsIntoSegments(s[r.count..]);
      segs := Segment(digits, r.unit, rest);
      PrintFirst(digits, r.unit, rest, tail);
      ReadAllStep(s);
    }
  }

  /** Rounds add up to the exact sum while it fits 128 bits, and fail otherwise. */
  lemma {:induction false} RoundsAddUp(segs: Segments, more: Rounds, total: nat, sawSegment: bool)
    requires SegmentsOk(segs) && total <= U128_MAX
    ensures var r := Evaluate(RoundsOf(segs, more), total, sawSegment);
            if total + Sum(segs) <= U128_MAX then r == Evaluate(more, total + Sum(segs), sawSegment || segs.Segment?)
            else r == Invalid || r == TooLarge
  {
    if segs.Segment? {
      AddExact(total, Value(segs.digits), segs.unit);
      var sum := total + InMillis(Value(segs.digits), segs.unit);
      if sum <= U128_MAX {
        RoundsAddUp(segs.rest, more, sum, true);
      }
    }
  }

  /** Segments, then a tail: the whole is the tail evaluated on top of the exact sum. */
  lemma ParsesAsRounds(raw: string, segs: Segments, more: Rounds)
    requires SegmentsOk(segs) && raw != [] && ReadAll(raw) == RoundsOf(segs, more)
    ensures if Sum(segs) <= U128_MAX then Parse(raw) == Evaluate(more, Sum(segs), segs.Segment?)
            else Parse(raw) == Invalid || Parse(raw) == TooLarge
  {
    RoundsAddUp(segs, more, 0, false);
  }

  /** A lone number counts seconds. */
  ghost predicate LoneNumber(raw: string, millis: nat) {
    raw != [] && AllDigits(raw) && millis == InMillis(Value(raw), Seconds)
  }

  ghost predicate SegmentList(raw: string, segs: Segments, millis: nat) {
    segs.Segment? && SegmentsOk(segs) && raw == Print(segs) && millis == Sum(segs)
  }

  lemma BareIsNumber(s: string)
    requires s != []
    ensures ReadSegment(s).Bare? ==> AllDigits(s) && ReadSegment(s).value == Value(s)
    ensures AllDigits(s) ==> ReadSegment(s) == if Value(s) > U128_MAX then Failed(Invalid) else Bare(Value(s))
  {
    DigitLenSpan(s);
    assert s[..|s|] == s;
    if AllDigits(s) {
      DigitLenIs(s, []);
      assert s + [] == s;
    }
  }

  lemma LoneNumberParses(raw: string)
    requires raw != [] && AllDigits(raw)
    ensures var millis := InMillis(Value(raw), Seconds);
            if millis <= U64_MAX then Parse(raw) == Millis64(millis)
            else Parse(raw) == Invalid || Parse(raw) == TooLarge
  {
    BareIsNumber(raw);
  }

  /**
    * Printing any segments and parsing the text gives their exact sum, or an error when that needs more than
    * 64 bits.
    */
  lemma PrintedParses(segs: Segments)
    requires SegmentsOk(segs) && segs.Segment?
    ensures if Sum(segs) <= U64_MAX then Parse(Print(segs)) == Millis64(Sum(segs))
            else Parse(Print(segs)) == Invalid || Parse(Print(segs)) == TooLarge
  {
    ReadsSegments(segs, []);
    assert Print(segs) + [] == Print(segs);
    assert Print(segs) != [];
    ParsesAsRounds(Print(segs), segs, Done);
  }

  /** Where reading ends, short of the end of the text. */
  lemma TailReads(tail: string)
    requires tail != [] && !ReadAll(tail).Then?
    ensures ReadAll(tail).Stop? ==> !ReadAll(tail).outcome.Millis64?
    ensures !ReadAll(tail).Stop? ==> AllDigits(tail) && ReadAll(tail) == Last(Value(tail))
  {
    BareIsNumber(tail);
  }

  /** What an accepted literal is. */
  lemma AcceptedLiteral(raw: string) returns (segs: Segments)
    requires Parse(raw).Millis64?
    ensures LoneNumber(raw, Parse(raw).value) || SegmentList(raw, segs, Parse(raw).value)
  {
    var tail;
    segs, tail := SplitsIntoSegments(raw);
    ParsesAsRounds(raw, segs, ReadAll(tail));
    if tail == [] {
      assert Print(segs) + [] == Print(segs);
    } else {
      TailReads(tail);
      assert segs.NoMore?;
      assert raw == tail;
      LoneNumberParses(raw);
    }
  }

  /**
    * A literal parses exactly when it is a lone number or a list of segments whose exact number of
    * milliseconds fits 64 bits, and then it parses to that number.
    */
  lemma ParsesExactly(raw: string, v: u64)
    ensures Parse(raw) == Millis64(v) <==> LoneNumber(raw, v) || exists segs :: SegmentList(raw, segs, v)
  {
    if Parse(raw) == Millis64(v) {
      var segs := AcceptedLiteral(raw);
      assert LoneNumber(raw, v) || SegmentList(raw, segs, v);
    }
    if LoneNumber(raw, v) {
      LoneNumberParses(raw);
    }
    if segs :| SegmentList(raw, segs, v) {
      PrintedParses(segs);
    }
  }

  /** A number that fits 128 bits, directly followed by a character of several bytes. */
  predicate CutsCharacter(digits: string, more: string) {
    Numeral(digits) && Value(digits) <= U128_MAX && more != [] && !IsAscii(more[0])
  }

  /** The round reader panics there, */
  lemma CutPanics(digits: string, more: string)
    requires CutsCharacter(digits, more)
    ensures ReadSegment(digits + more) == Failed(Panicked) && (digits + more)[0] != 's'
  {
    DigitLenIs(digits, more);
    assert (digits + more)[..|digits|] == digits && (digits + more)[0] == digits[0];
  }

  /** and nowhere else. */
  lemma PanicIsCut(s: string) returns (digits: string, more: string)
    requires s != [] && ReadSegment(s) == Failed(Panicked)
    ensures s == digits + more && CutsCharacter(digits, more)
  {
    DigitLenSpan(s);
    digits, more := s[..DigitLen(s)], s[DigitLen(s)..];
  }

  ghost predicate PanicsAfter(raw: string, segs: Segments, digits: string, more: string) {
    SegmentsOk(segs) && raw == Print(segs) + (digits + more) && Sum(segs) <= U128_MAX && CutsCharacter(digits, more)
  }

  /**
    * The parser panics exactly on segments that fit 128 bits followed by a number that does too and a
    * character outside ASCII: the one-byte unit slice then cuts that character.
    */
  lemma PanicsExactly(raw: string)
    ensures Parse(raw) == Panicked <==> exists segs, digits, more :: PanicsAfter(raw, segs, digits, more)
  {
    if Parse(raw) == Panicked {
      var segs, rest := SplitsIntoSegments(raw);
      ParsesAsRounds(raw, segs, ReadAll(rest));
      var digits, more := PanicIsCut(rest);
      assert PanicsAfter(raw, segs, digits, more);
    }
    if segs, digits, more :| PanicsAfter(raw, segs, digits, more) {
      CutPanics(digits, more);
      ReadsSegments(segs, digits + more);
      ParsesAsRounds(raw, segs, ReadAll(digits + more));
    }
  }

  /** ASCII text never makes the parser panic. */
  lemma AsciiNeverPanics(raw: string)
    requires forall i :: 0 <= i < |raw| ==> IsAscii(raw[i])
    ensures Parse(raw) != Panicked
  {
    PanicsExactly(raw);
    if segs, digits, more :| PanicsAfter(raw, segs, digits, more) {
      PanicNeedsNonAscii(raw, segs, digits, more);
    }
  }

  lemma PanicNeedsNonAscii(raw: string, segs: Segments, digits: string, more: string)
    requires PanicsAfter(raw, segs, digits, more)
    ensures exists i :: 0 <= i < |raw| && !IsAscii(raw[i])
  {
    assert raw[|Print(segs)| + |digits|] == more[0];
  }

  lemma MicroSignPanics()
    ensures Parse("1\U{B5}s") == Panicked
  {
    var raw := "1\U{B5}s";
    DigitLenIs("1", raw[1..]);
    assert raw == "1" + raw[1..] && raw[..1] == "1" && "1"[..0] == [];
    assert Value("1") == 1;
  }
}
