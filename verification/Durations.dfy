/** ISO 8601 durations as the configuration writes them: a strict reader, exact
    for its grammar, and the printer it undoes. */
module Durations {
  import opened Text
  import opened Wrappers

  // ---------------------------------------------------------------- the grammar

  /** Digits, and digits after a point if there is one. */
  datatype Number = Number(whole: string, fraction: Option<string>)

  datatype Time = Time(hours: Option<Number>, minutes: Option<Number>, seconds: Option<Number>)

  datatype Ast = Ast(weeks: Option<Number>, days: Option<Number>, time: Option<Time>)

  predicate IsDigit(c: char) {
    '0' <= c <= '9'
  }

  predicate Digits(s: string) {
    s != "" && forall i :: 0 <= i < |s| ==> IsDigit(s[i])
  }

  predicate GoodNumber(n: Number) {
    Digits(n.whole) && (n.fraction.Some? ==> Digits(n.fraction.value))
  }

  predicate GoodPart(part: Option<Number>) {
    part.Some? ==> GoodNumber(part.value)
  }

  /** At least one component, and at least one after a T. */
  predicate WellFormed(a: Ast) {
    && GoodPart(a.weeks) && GoodPart(a.days)
    && (a.weeks.Some? || a.days.Some? || a.time.Some?)
    && (a.time.Some? ==>
          var t := a.time.value;
          && GoodPart(t.hours) && GoodPart(t.minutes) && GoodPart(t.seconds)
          && (t.hours.Some? || t.minutes.Some? || t.seconds.Some?))
  }

  function WriteFraction(fraction: Option<string>): string {
    if fraction.Some? then "." + fraction.value else ""
  }

  function WriteNumber(n: Number): string {
    n.whole + WriteFraction(n.fraction)
  }

  function WritePart(part: Option<Number>, designator: char): string {
    if part.Some? then WriteNumber(part.value) + [designator] else ""
  }

  function WriteTime(t: Time): string {
    WritePart(t.hours, 'H') + (WritePart(t.minutes, 'M') + WritePart(t.seconds, 'S'))
  }

  /** The one text of a duration: weeks before days, hours, minutes, seconds
      after a T. */
  function Write(a: Ast): string {
    var time := if a.time.Some? then "T" + WriteTime(a.time.value) else "";
    "P" + (WritePart(a.weeks, 'W') + (WritePart(a.days, 'D') + time))
  }

  // ---------------------------------------------------------------- the reader

  /** How many leading characters are digits. */
  function DigitRun(s: string): (n: nat)
    ensures n <= |s| && (forall i :: 0 <= i < n ==> IsDigit(s[i])) && (n < |s| ==> !IsDigit(s[n]))
  {
    if s == "" || !IsDigit(s[0]) then 0 else 1 + DigitRun(s[1..])
  }

  /** A point and digits at the front of a text, if they are there. */
  function ReadFraction(s: string): (Option<string>, string) {
    var m := if s != "" && s[0] == '.' then DigitRun(s[1..]) else 0;
    if m > 0 then (Some(s[1..][..m]), s[1..][m..]) else (None, s)
  }

  /** A number at the front of a text, and what follows it. */
  function ReadNumber(s: string): Option<(Number, string)> {
    var n := DigitRun(s);
    if n == 0 then None
    else
      var (fraction, rest) := ReadFraction(s[n..]);
      Some((Number(s[..n], fraction), rest))
  }

  /** A number with this designator, if the text begins with one. */
  function ReadPart(s: string, designator: char): (Option<Number>, string) {
    match ReadNumber(s)
    case None => (None, s)
    case Some((n, rest)) => if rest != "" && rest[0] == designator then (Some(n), rest[1..]) else (None, s)
  }

  function ReadTime(s: string): (Time, string) {
    var (h, afterH) := ReadPart(s, 'H');
    var (m, afterM) := ReadPart(afterH, 'M');
    var (sec, afterS) := ReadPart(afterM, 'S');
    (Time(h, m, sec), afterS)
  }

  function Read(s: string): Option<Ast> {
    if s == "" || s[0] != 'P' || s[1..] == "" then None
    else
      var (w, afterW) := ReadPart(s[1..], 'W');
      var (d, afterD) := ReadPart(afterW, 'D');
      if afterD == "" then Some(Ast(w, d, None))
      else if afterD[0] != 'T' || afterD[1..] == "" then None
      else
        var (t, rest) := ReadTime(afterD[1..]);
        if rest == "" then Some(Ast(w, d, Some(t))) else None
  }

  // ---------------------------------------------------------------- sound and complete

  /** A run of digits cut off the front of a text. */
  lemma RunIsDigits(s: string)
    ensures DigitRun(s) > 0 ==> Digits(s[..DigitRun(s)])
    ensures s == s[..DigitRun(s)] + s[DigitRun(s)..]
  {
  }

  lemma ReadFractionSound(s: string)
    ensures var (fraction, rest) := ReadFraction(s);
            (fraction.Some? ==> Digits(fraction.value)) && s == WriteFraction(fraction) + rest
  {
    hide DigitRun, Digits;
    if s != "" && s[0] == '.' {
      RunIsDigits(s[1..]);
      assert s == "." + s[1..];
    }
  }

  lemma ReadNumberSound(s: string)
    requires ReadNumber(s).Some?
    ensures var (n, rest) := ReadNumber(s).value; GoodNumber(n) && s == WriteNumber(n) + rest
  {
    hide DigitRun, Digits, ReadFraction, WriteFraction;
    var n := DigitRun(s);
    RunIsDigits(s);
    ReadFractionSound(s[n..]);
    var (fraction, rest) := ReadFraction(s[n..]);
    assert s[..n] + (WriteFraction(fraction) + rest) == (s[..n] + WriteFraction(fraction)) + rest;
  }

  lemma ReadPartSound(s: string, designator: char)
    ensures var (part, rest) := ReadPart(s, designator); GoodPart(part) && s == WritePart(part, designator) + rest
  {
    hide ReadNumber, GoodNumber, WriteNumber;
    if ReadNumber(s).Some? {
      ReadNumberSound(s);
      var (n, rest) := ReadNumber(s).value;
      if rest != "" && rest[0] == designator {
        assert rest == [designator] + rest[1..];
        assert WriteNumber(n) + ([designator] + rest[1..]) == (WriteNumber(n) + [designator]) + rest[1..];
      } else {
        assert "" + s == s;
      }
    } else {
      assert "" + s == s;
    }
  }

  lemma ReadTimeSound(s: string)
    ensures var (t, rest) := ReadTime(s);
            && GoodPart(t.hours) && GoodPart(t.minutes) && GoodPart(t.seconds) && s == WriteTime(t) + rest
  {
    hide ReadPart, WritePart, GoodPart;
    var (h, afterH) := ReadPart(s, 'H');
    var (m, afterM) := ReadPart(afterH, 'M');
    ReadPartSound(s, 'H');
    ReadPartSound(afterH, 'M');
    ReadPartSound(afterM, 'S');
    var (sec, rest) := ReadPart(afterM, 'S');
    assert WritePart(h, 'H') + (WritePart(m, 'M') + (WritePart(sec, 'S') + rest)) ==
           (WritePart(h, 'H') + (WritePart(m, 'M') + WritePart(sec, 'S'))) + rest;
  }

  /** What is read is well formed and is the text of what was read. */
  lemma ReadIsSound(s: string)
    requires Read(s).Some?
    ensures WellFormed(Read(s).value) && s == Write(Read(s).value)
  {
    hide ReadPart, ReadTime, GoodPart, WriteTime;
    var (w, afterW) := ReadPart(s[1..], 'W');
    var (d, afterD) := ReadPart(afterW, 'D');
    ReadPartSound(s[1..], 'W');
    ReadPartSound(afterW, 'D');
    assert s == "P" + s[1..];
    if afterD != "" {
      ReadTimeSound(afterD[1..]);
      var (t, rest) := ReadTime(afterD[1..]);
      assert afterD == "T" + afterD[1..];
      TimeNotEmpty(t);
      assert WriteTime(t) + "" == WriteTime(t);
    }
  }

  lemma TimeNotEmpty(t: Time)
    ensures WriteTime(t) != "" ==> t.hours.Some? || t.minutes.Some? || t.seconds.Some?
  {
  }

  /** What may follow a component without being read into it. */
  predicate Stops(rest: string) {
    rest == "" || !(IsDigit(rest[0]) || rest[0] == '.')
  }

  lemma {:induction false} DigitRunOf(digits: string, rest: string)
    requires (digits == "" || Digits(digits)) && (rest == "" || !IsDigit(rest[0]))
    ensures DigitRun(digits + rest) == |digits|
  {
    if digits == "" {
      assert digits + rest == rest;
    } else {
      assert (digits + rest)[1..] == digits[1..] + rest;
      DigitRunOf(digits[1..], rest);
    }
  }

  lemma ReadFractionComplete(fraction: Option<string>, rest: string)
    requires (fraction.Some? ==> Digits(fraction.value)) && Stops(rest)
    ensures ReadFraction(WriteFraction(fraction) + rest) == (fraction, rest)
    ensures WriteFraction(fraction) + rest == "" || !IsDigit((WriteFraction(fraction) + rest)[0])
  {
    hide DigitRun;
    var s := WriteFraction(fraction) + rest;
    if fraction.Some? {
      var digits := fraction.value;
      assert s[1..] == digits + rest;
      DigitRunOf(digits, rest);
      assert (digits + rest)[..|digits|] == digits && (digits + rest)[|digits|..] == rest;
    } else {
      assert s == rest;
    }
  }

  lemma ReadNumberComplete(n: Number, rest: string)
    requires GoodNumber(n) && Stops(rest)
    ensures ReadNumber(WriteNumber(n) + rest) == Some((n, rest))
  {
    hide DigitRun, ReadFraction, WriteFraction, Stops;
    var tail := WriteFraction(n.fraction) + rest;
    assert WriteNumber(n) + rest == n.whole + tail;
    ReadFractionComplete(n.fraction, rest);
    DigitRunOf(n.whole, tail);
    assert (n.whole + tail)[..|n.whole|] == n.whole && (n.whole + tail)[|n.whole|..] == tail;
  }

  /** A component that is there is read, and one that is not is passed over:
      the next text does not begin with a number of this designator. */
  lemma ReadPartComplete(part: Option<Number>, designator: char, rest: string)
    requires GoodPart(part) && !IsDigit(designator) && designator != '.'
    requires part.None? ==> ReadPart(rest, designator) == (None, rest)
    ensures ReadPart(WritePart(part, designator) + rest, designator) == (part, rest)
  {
    if part.None? {
      assert "" + rest == rest;
    } else {
      var tail := [designator] + rest;
      ReadNumberComplete(part.value, tail);
      hide ReadNumber, WriteNumber;
      assert WritePart(part, designator) + rest == WriteNumber(part.value) + tail;
      assert tail[1..] == rest;
    }
  }

  /** A text that begins with some other component, or with none. */
  lemma OtherPartPassedOver(part: Option<Number>, written: char, rest: string, designator: char)
    requires GoodPart(part) && !IsDigit(written) && written != '.' && written != designator
    requires part.None? ==> ReadPart(rest, designator) == (None, rest)
    ensures ReadPart(WritePart(part, written) + rest, designator) == (None, WritePart(part, written) + rest)
  {
    if part.None? {
      assert "" + rest == rest;
    } else {
      var tail := [written] + rest;
      ReadNumberComplete(part.value, tail);
      hide ReadNumber, WriteNumber;
      assert WritePart(part, written) + rest == WriteNumber(part.value) + tail;
    }
  }

  lemma NoPart(s: string, designator: char)
    requires s == "" || !IsDigit(s[0])
    ensures ReadPart(s, designator) == (None, s)
  {
  }

  lemma ReadTimeComplete(t: Time)
    requires GoodPart(t.hours) && GoodPart(t.minutes) && GoodPart(t.seconds)
    ensures ReadTime(WriteTime(t)) == (t, "")
  {
    hide ReadPart, GoodPart, WritePart;
    var sec := WritePart(t.seconds, 'S');
    var min := WritePart(t.minutes, 'M') + sec;
    assert sec + "" == sec;
    NoPart("", 'S');
    NoPart("", 'M');
    NoPart("", 'H');
    ReadPartComplete(t.seconds, 'S', "");
    OtherPartPassedOver(t.seconds, 'S', "", 'M');
    OtherPartPassedOver(t.seconds, 'S', "", 'H');
    ReadPartComplete(t.minutes, 'M', sec);
    OtherPartPassedOver(t.minutes, 'M', sec, 'H');
    ReadPartComplete(t.hours, 'H', min);
  }

  lemma ReadIsComplete(a: Ast)
    requires WellFormed(a)
    ensures Read(Write(a)) == Some(a)
  {
    var time := if a.time.Some? then "T" + WriteTime(a.time.value) else "";
    var days := WritePart(a.days, 'D') + time;
    var body := WritePart(a.weeks, 'W') + days;
    var s := Write(a);
    assert s == "P" + body && s[1..] == body && s[0] == 'P';
    NoPart(time, 'D');
    NoPart(time, 'W');
    ReadPartComplete(a.days, 'D', time);
    OtherPartPassedOver(a.days, 'D', time, 'W');
    ReadPartComplete(a.weeks, 'W', days);
    assert body != "";
    if a.time.Some? {
      ReadTimeComplete(a.time.value);
      assert time[1..] == WriteTime(a.time.value) && time[0] == 'T';
      assert time[1..] != "";
    }
    hide ReadPart, ReadTime, WriteTime, WritePart, GoodPart;
  }

  /** The reader is exact for its grammar: it reads a text as a duration if and
      only if the text is that well-formed duration's own. */
  lemma ReadExactlyTheGrammar(s: string, a: Ast)
    ensures Read(s) == Some(a) <==> WellFormed(a) && s == Write(a)
  {
    hide Read, Write, WellFormed;
    if Read(s) == Some(a) {
      ReadIsSound(s);
    }
    if WellFormed(a) && s == Write(a) {
      ReadIsComplete(a);
    }
  }

  // ---------------------------------------------------------------- values

  function NatOf(digits: string): nat
    requires forall i :: 0 <= i < |digits| ==> IsDigit(digits[i])
  {
    if digits == "" then 0
    else
      assert IsDigit(digits[|digits| - 1]);
      NatOf(digits[..|digits| - 1]) * 10 + (digits[|digits| - 1] as int - '0' as int)
  }

  function TenTo(n: nat): (r: nat)
    ensures r > 0
  {
    if n == 0 then 1 else 10 * TenTo(n - 1)
  }

  function NumberValue(n: Number): real
    requires GoodNumber(n)
  {
    NatOf(n.whole) as real
    + if n.fraction.Some? then NatOf(n.fraction.value) as real / TenTo(|n.fraction.value|) as real else 0.0
  }

  /** Digits written one after another weigh by place. */
  lemma {:induction false} NatOfAppend(a: string, b: string)
    requires forall i :: 0 <= i < |a| ==> IsDigit(a[i])
    requires forall i :: 0 <= i < |b| ==> IsDigit(b[i])
    ensures forall i :: 0 <= i < |a + b| ==> IsDigit((a + b)[i])
    ensures NatOf(a + b) == NatOf(a) * TenTo(|b|) + NatOf(b)
  {
    if b == "" {
      assert a + b == a;
    } else {
      var front, last := b[..|b| - 1], b[|b| - 1];
      NatOfAppend(a, front);
      assert IsDigit(last);
      NatOfOneMore(a + front, last);
      NatOfOneMore(front, last);
      assert a + b == (a + front) + [last] && b == front + [last];
      OnePlaceMore(NatOf(a), TenTo(|front|), NatOf(front), last as int - '0' as int);
      TenToOneMore(|front|);
      hide NatOf, TenTo;
    }
  }

  lemma NatOfOneMore(digits: string, last: char)
    requires (forall i :: 0 <= i < |digits| ==> IsDigit(digits[i])) && IsDigit(last)
    ensures forall i :: 0 <= i < |digits + [last]| ==> IsDigit((digits + [last])[i])
    ensures NatOf(digits + [last]) == NatOf(digits) * 10 + (last as int - '0' as int)
  {
    assert (digits + [last])[..|digits|] == digits;
  }

  lemma TenToOneMore(n: nat)
    ensures TenTo(n + 1) == 10 * TenTo(n)
  {
  }

  lemma OnePlaceMore(x: int, t: int, f: int, d: int)
    ensures (x * t + f) * 10 + d == x * (10 * t) + (f * 10 + d)
  {
  }

  /** A point moves the digits after it down by their number of places. */
  lemma PointMovesPlaces(n: Number)
    requires GoodNumber(n) && n.fraction.Some?
    ensures Digits(n.whole + n.fraction.value)
    ensures NumberValue(n) * TenTo(|n.fraction.value|) as real == NatOf(n.whole + n.fraction.value) as real
  {
    hide NatOf, TenTo;
    NatOfAppend(n.whole, n.fraction.value);
    OverTens(NatOf(n.whole), NatOf(n.fraction.value), TenTo(|n.fraction.value|));
  }

  lemma OverTens(w: nat, f: nat, t: nat)
    requires t > 0
    ensures (w as real + f as real / t as real) * t as real == (w * t + f) as real
  {
    var q := f as real / t as real;
    assert q * t as real == f as real;
    assert (w as real + q) * t as real == w as real * t as real + q * t as real;
    assert w as real * t as real == (w * t) as real;
  }

  function PartValue(part: Option<Number>, seconds: real): real
    requires GoodPart(part)
  {
    if part.Some? then NumberValue(part.value) * seconds else 0.0
  }

  const MINUTE := 60
  const HOUR := 3600
  const DAY := 86400
  const WEEK := 604800

  function TimeValue(t: Time): real
    requires GoodPart(t.hours) && GoodPart(t.minutes) && GoodPart(t.seconds)
  {
    PartValue(t.hours, HOUR as real) + PartValue(t.minutes, MINUTE as real) + PartValue(t.seconds, 1.0)
  }

  /** Length in seconds. */
  function Seconds(a: Ast): real
    requires WellFormed(a)
  {
    PartValue(a.weeks, WEEK as real) + PartValue(a.days, DAY as real) + if a.time.Some? then TimeValue(a.time.value)
        else 0.0
  }

  // ---------------------------------------------------------------- parse_duration

  datatype DurationError = NotADuration

  function Strip(s: string): string
    decreases |s|
  {
    if s == "" then s
    else if IsSpace(s[0]) then Strip(s[1..])
    else if IsSpace(s[|s| - 1]) then Strip(s[..|s| - 1])
    else s
  }

  /** The seconds a text stands for. */
  function ParseDuration(text: string): Result<real, DurationError> {
    match Read(Strip(text))
    case None => Err(NotADuration)
    case Some(a) => ReadIsSound(Strip(text)); Ok(Seconds(a))
  }

  // ---------------------------------------------------------------- format_duration

  function Decimal(n: nat): string {
    if n < 10 then [('0' as int + n) as char] else Decimal(n / 10) + [('0' as int + n % 10) as char]
  }

  /** Printing and reading decimal digits undo each other. */
  lemma {:induction false} DecimalReads(n: nat)
    ensures Digits(Decimal(n)) && NatOf(Decimal(n)) == n
  {
    if n < 10 {
      assert Decimal(n)[..0] == "";
    } else {
      DecimalReads(n / 10);
      assert Decimal(n)[..|Decimal(n)| - 1] == Decimal(n / 10);
    }
  }

  datatype Split = Split(days: nat, hours: nat, minutes: nat, seconds: nat)

  /** divmod by days, hours and minutes in turn. */
  function SplitOf(total: nat): (t: Split)
    ensures total == t.days * DAY + t.hours * HOUR + t.minutes * MINUTE + t.seconds
    ensures t.hours < 24 && t.minutes < 60 && t.seconds < 60
  {
    var inDay := total % DAY;
    var inHour := inDay % HOUR;
    Split(total / DAY, inDay / HOUR, inHour / MINUTE, inHour % MINUTE)
  }

  /** A zero component is left out. */
  function PartText(n: nat, designator: char): string {
    if n > 0 then Decimal(n) + [designator] else ""
  }

  function TimeText(t: Split): string {
    PartText(t.hours, 'H') + (PartText(t.minutes, 'M') + PartText(t.seconds, 'S'))
  }

  function FormatSeconds(total: int): string {
    if total <= 0 then "PT0S"
    else
      var t := SplitOf(total);
      "P" + PartText(t.days, 'D') + if TimeText(t) != "" then "T" + TimeText(t) else ""
  }

  /** The whole seconds of a timedelta in microseconds, truncated toward zero. */
  function FormatDuration(micros: int): string {
    FormatSeconds(if micros >= 0 then micros / 1000000 else -((-micros) / 1000000))
  }

  function Whole(n: nat): Option<Number> {
    if n > 0 then Some(Number(Decimal(n), None)) else None
  }

  /** What the printer writes, as a duration. */
  function AstOf(total: int): Ast {
    if total <= 0 then Ast(None, None, Some(Time(None, None, Some(Number("0", None)))))
    else
      var t := SplitOf(total);
      Ast(None, Whole(t.days),
          if t.hours > 0 || t.minutes > 0 || t.seconds > 0
              then Some(Time(Whole(t.hours), Whole(t.minutes), Whole(t.seconds)))
          else None)
  }

  lemma NothingTimes(unit: real)
    ensures 0.0 * unit == 0.0 && 0 as real == 0.0
  {
  }

  lemma WholeIsGood(n: nat, unit: real)
    ensures GoodPart(Whole(n)) && PartValue(Whole(n), unit) == n as real * unit
  {
    DecimalReads(n);
    hide Decimal, NatOf, Digits, TenTo;
    if n > 0 {
      assert NumberValue(Whole(n).value) == n as real;
      assert PartValue(Whole(n), unit) == NumberValue(Whole(n).value) * unit;
    } else {
      NothingTimes(unit);
    }
  }

  lemma WrittenWhole(n: nat, designator: char)
    ensures WritePart(Whole(n), designator) == PartText(n, designator)
    ensures PartText(n, designator) == "" <==> n == 0
    ensures n > 0 ==> PartText(n, designator)[|PartText(n, designator)| - 1] == designator
  {
    hide Decimal;
  }

  lemma FormatWrites(total: int)
    ensures WellFormed(AstOf(total)) && FormatSeconds(total) == Write(AstOf(total))
  {
    hide Decimal, PartValue, SplitOf, GoodPart, Whole, WritePart, PartText, WriteTime, TimeText;
    if total > 0 {
      var t := SplitOf(total);
      WholeIsGood(t.days, 1.0);
      WholeIsGood(t.hours, 1.0);
      WholeIsGood(t.minutes, 1.0);
      WholeIsGood(t.seconds, 1.0);
      WholeIsSome(t);
      WrittenWhole(t.days, 'D');
      WrittenTime(t);
      NothingIsWritten();
      assert forall x, y: string :: "P" + ("" + (x + y)) == "P" + x + y;
    } else {
      ZeroIsWritten();
    }
  }

  lemma WholeIsSome(t: Split)
    ensures Whole(t.days).Some? <==> t.days > 0
    ensures Whole(t.hours).Some? <==> t.hours > 0
    ensures Whole(t.minutes).Some? <==> t.minutes > 0
    ensures Whole(t.seconds).Some? <==> t.seconds > 0
  {
  }

  lemma NothingIsWritten()
    ensures WritePart(None, 'W') == "" && GoodPart(None)
  {
  }

  lemma ZeroIsWritten()
    ensures WellFormed(AstOf(0)) && Write(AstOf(0)) == "PT0S"
  {
    assert WritePart(Some(Number("0", None)), 'S') == "0S";
  }

  lemma WrittenTime(t: Split)
    ensures WriteTime(Time(Whole(t.hours), Whole(t.minutes), Whole(t.seconds))) == TimeText(t)
    ensures TimeText(t) != "" <==> t.hours > 0 || t.minutes > 0 || t.seconds > 0
  {
    hide Whole, WritePart, PartText;
    WrittenWhole(t.hours, 'H');
    WrittenWhole(t.minutes, 'M');
    WrittenWhole(t.seconds, 'S');
  }

  lemma FormatValue(total: int)
    requires WellFormed(AstOf(total))
    ensures Seconds(AstOf(total)) == (if total > 0 then total else 0) as real
  {
    hide PartValue, SplitOf, Whole;
    if total > 0 {
      var t := SplitOf(total);
      WholeIsGood(t.days, DAY as real);
      WholeIsGood(t.hours, HOUR as real);
      WholeIsGood(t.minutes, MINUTE as real);
      WholeIsGood(t.seconds, 1.0);
      NothingWeighsNothing();
    } else {
      ZeroSeconds();
    }
  }

  lemma NothingWeighsNothing()
    ensures forall unit :: PartValue(None, unit) == 0.0
  {
  }

  lemma ZeroSeconds()
    ensures WellFormed(AstOf(0)) && Seconds(AstOf(0)) == 0.0
  {
    assert NatOf("0"[..0]) == 0;
    assert NatOf("0") == 0;
    assert NumberValue(Number("0", None)) == 0.0;
  }

  lemma StripKeeps(s: string)
    requires s != "" && !IsSpace(s[0]) && !IsSpace(s[|s| - 1])
    ensures Strip(s) == s
  {
  }

  /** Space around a text is ignored, and nothing else is. */
  lemma {:induction false} StripTrims(before: string, s: string, after: string)
    requires (forall c :: c in before ==> IsSpace(c)) && (forall c :: c in after ==> IsSpace(c))
    requires s == "" || (!IsSpace(s[0]) && !IsSpace(s[|s| - 1]))
    ensures Strip(before + s + after) == s
    decreases |before| + |after|
  {
    var text := before + s + after;
    if before != "" {
      assert text[0] == before[0] && before[0] in before && text[1..] == before[1..] + s + after;
      StripTrims(before[1..], s, after);
    } else if after == "" {
      assert text == s;
    } else if s == "" {
      assert text[0] == after[0] && after[0] in after && text[1..] == "" + s + after[1..];
      StripTrims("", s, after[1..]);
    } else {
      var front := after[..|after| - 1];
      assert text[|text| - 1] == after[|after| - 1] && after[|after| - 1] in after;
      assert text[0] == s[0] && text[..|text| - 1] == "" + s + front;
      StripTrims("", s, front);
    }
  }

  predicate EndsInLetter(s: string) {
    s != "" && !IsSpace(s[|s| - 1])
  }

  lemma EndOf(a: string, b: string)
    requires a == "" || EndsInLetter(a)
    requires b == "" || EndsInLetter(b)
    ensures a + b == "" || EndsInLetter(a + b)
  {
    if b == "" {
      assert a + b == a;
    }
  }

  lemma LettersAreNoSpace()
    ensures !IsSpace('P') && !IsSpace('D') && !IsSpace('S') && EndsInLetter("P") && EndsInLetter("T")
  {
  }

  /** A printed duration begins with P and ends with a designator. */
  lemma FormatIsStripped(total: int)
    ensures Strip(FormatSeconds(total)) == FormatSeconds(total)
  {
    hide SplitOf, PartText, TimeText, Strip, IsSpace;
    LettersAreNoSpace();
    if total > 0 {
      var t := SplitOf(total);
      WrittenWhole(t.days, 'D');
      TimeEndsInLetter(t);
      var time := if TimeText(t) != "" then "T" + TimeText(t) else "";
      EndOf("P", PartText(t.days, 'D'));
      EndOf("T", TimeText(t));
      EndOf("P" + PartText(t.days, 'D'), time);
      StripKeeps(FormatSeconds(total));
    } else {
      StripKeeps("PT0S");
    }
  }

  lemma TimeEndsInLetter(t: Split)
    ensures TimeText(t) != "" ==> !IsSpace(TimeText(t)[|TimeText(t)| - 1])
    ensures TimeText(t) != "" <==> t.hours > 0 || t.minutes > 0 || t.seconds > 0
  {
    hide PartText;
    WrittenWhole(t.hours, 'H');
    WrittenWhole(t.minutes, 'M');
    WrittenWhole(t.seconds, 'S');
  }

  /** Round trip: reading what was printed gives the whole seconds back, with
      nothing lost for any length, and zero for what is not positive. */
  lemma ParseUndoesFormat(total: int)
    ensures ParseDuration(FormatSeconds(total)) == Ok((if total > 0 then total else 0) as real)
  {
    hide FormatSeconds, AstOf, Seconds, WellFormed, Write, Read, Strip;
    FormatWrites(total);
    FormatIsStripped(total);
    ReadIsComplete(AstOf(total));
    FormatValue(total);
  }

  /** For a whole number of seconds the round trip is exact. */
  lemma WholeSecondsRoundTrip(seconds: nat)
    ensures ParseDuration(FormatDuration(seconds * 1000000)) == Ok(seconds as real)
  {
    ParseUndoesFormat(seconds);
    assert seconds * 1000000 / 1000000 == seconds;
    hide ParseDuration, FormatSeconds;
  }
}
