/** UTC timestamps as text, section 5.6 of RFC 3339, with up to nine digits of a second. */
module Timestamps {
  import opened Runs
  import opened Decimals

  datatype Time = Time(year: nat, month: nat, day: nat, hour: nat, minute: nat, second: nat, nano: nat)

  predicate Leap(year: nat) {
    year % 4 == 0 && (year % 100 != 0 || year % 400 == 0)
  }

  function DaysIn(year: nat, month: nat): nat {
    if month == 2 then (if Leap(year) then 29 else 28)
    else if month == 4 || month == 6 || month == 9 || month == 11 then 30
    else 31
  }

  predicate IsDate(t: Time) {
    t.year < 10000 && 1 <= t.month <= 12 && 1 <= t.day <= DaysIn(t.year, t.month)
  }

  predicate IsTime(t: Time) {
    IsDate(t) && t.hour < 24 && t.minute < 60 && t.second < 60 && t.nano < 1_000_000_000
  }

  /** A mixed-radix number: not a count of nanoseconds, but in the order of the calendar. */
  function Rank(t: Time): int {
    (((((t.year * 12 + t.month) * 32 + t.day) * 24 + t.hour) * 60 + t.minute) * 60 + t.second) * 1_000_000_000 + t.nano
  }

  lemma SameDigits(a: int, x: int, b: int, y: int, base: int)
    requires 0 <= x < base && 0 <= y < base && a * base + x == b * base + y
    ensures a == b && x == y
  {
    var d := a - b;
    assert d * base == y - x;
    assert d >= 1 ==> d * base >= base;
    assert d <= -1 ==> d * base <= 0 - base;
  }

  lemma RankInjective(t: Time, u: Time)
    requires IsTime(t) && IsTime(u) && Rank(t) == Rank(u)
    ensures t == u
  {
    var t1, u1 := t.year * 12 + t.month, u.year * 12 + u.month;
    var t2, u2 := t1 * 32 + t.day, u1 * 32 + u.day;
    var t3, u3 := t2 * 24 + t.hour, u2 * 24 + u.hour;
    var t4, u4 := t3 * 60 + t.minute, u3 * 60 + u.minute;
    SameDigits(t4 * 60 + t.second, t.nano, u4 * 60 + u.second, u.nano, 1_000_000_000);
    SameDigits(t4, t.second, u4, u.second, 60);
    SameDigits(t3, t.minute, u3, u.minute, 60);
    SameDigits(t2, t.hour, u2, u.hour, 24);
    SameDigits(t1, t.day, u1, u.day, 32);
    SameDigits(t.year, t.month - 1, u.year, u.month - 1, 12);
  }

  /** Earlier in the calendar: by year, then month, day, hour, minute, second and nanosecond. */
  predicate Earlier(t: Time, u: Time) {
    if t.year != u.year then t.year < u.year
    else if t.month != u.month then t.month < u.month
    else if t.day != u.day then t.day < u.day
    else if t.hour != u.hour then t.hour < u.hour
    else if t.minute != u.minute then t.minute < u.minute
    else if t.second != u.second then t.second < u.second
    else t.nano < u.nano
  }

  lemma DigitsInOrder(a: int, x: int, b: int, y: int, base: int)
    requires 0 <= x < base && 0 <= y < base
    ensures a * base + x < b * base + y <==> a < b || (a == b && x < y)
    ensures a * base + x == b * base + y <==> a == b && x == y
  {
    var d := b - a;
    assert b * base == a * base + d * base;
    assert d >= 1 ==> d * base >= base;
    assert d <= -1 ==> d * base <= 0 - base;
  }

  /** The rank is the order of the calendar. */
  lemma RankIsCalendar(t: Time, u: Time)
    requires IsTime(t) && IsTime(u)
    ensures Rank(t) < Rank(u) <==> Earlier(t, u)
  {
    var t2, u2 := (t.year * 12 + t.month) * 32 + t.day, (u.year * 12 + u.month) * 32 + u.day;
    var t4, u4 := (t2 * 24 + t.hour) * 60 + t.minute, (u2 * 24 + u.hour) * 60 + u.minute;
    DateDigits(t, u, t2, u2);
    MinuteDigits(t, u, t2, u2, t4, u4);
    DigitsInOrder(t4, t.second, u4, u.second, 60);
    DigitsInOrder(t4 * 60 + t.second, t.nano, u4 * 60 + u.second, u.nano, 1_000_000_000);
  }

  predicate EarlierDate(t: Time, u: Time) {
    t.year < u.year || (t.year == u.year && (t.month < u.month || (t.month == u.month && t.day < u.day)))
  }

  lemma DateDigits(t: Time, u: Time, t2: int, u2: int)
    requires IsTime(t) && IsTime(u)
    requires t2 == (t.year * 12 + t.month) * 32 + t.day && u2 == (u.year * 12 + u.month) * 32 + u.day
    ensures t2 < u2 <==> EarlierDate(t, u)
    ensures t2 == u2 <==> t.year == u.year && t.month == u.month && t.day == u.day
  {
    DigitsInOrder(t.year * 12 + t.month, t.day, u.year * 12 + u.month, u.day, 32);
    DigitsInOrder(t.year, t.month - 1, u.year, u.month - 1, 12);
  }

  lemma MinuteDigits(t: Time, u: Time, t2: int, u2: int, t4: int, u4: int)
    requires IsTime(t) && IsTime(u)
    requires t4 == (t2 * 24 + t.hour) * 60 + t.minute && u4 == (u2 * 24 + u.hour) * 60 + u.minute
    ensures t4 < u4 <==> t2 < u2 || (t2 == u2 && (t.hour < u.hour || (t.hour == u.hour && t.minute < u.minute)))
    ensures t4 == u4 <==> t2 == u2 && t.hour == u.hour && t.minute == u.minute
  {
    DigitsInOrder(t2 * 24 + t.hour, t.minute, u2 * 24 + u.hour, u.minute, 60);
    DigitsInOrder(t2, t.hour, u2, u.hour, 24);
  }

  // ----- Fixed-width digits -----

  function Digits(n: nat, width: nat): string {
    if width == 0 then "" else Digits(n / 10, width - 1) + [Digit(n % 10)]
  }

  function Power10(k: nat): nat {
    if k == 0 then 1 else 10 * Power10(k - 1)
  }

  lemma {:induction false} ValueOfDigits(n: nat, width: nat)
    requires n < Power10(width)
    ensures |Digits(n, width)| == width && AllDigits(Digits(n, width)) && Value(Digits(n, width)) == n
  {
    if width > 0 {
      ValueOfDigits(n / 10, width - 1);
      var s := Digits(n, width);
      assert s[..width - 1] == Digits(n / 10, width - 1);
    }
  }

  /** A number of a fixed width at the front of a text, and what follows it. */
  function TakeDigits(s: string, width: nat): Option<(nat, string)> {
    if width <= |s| && AllDigits(s[..width]) then Some((Value(s[..width]), s[width..])) else None
  }

  lemma TakeWritten(n: nat, width: nat, rest: string)
    requires n < Power10(width)
    ensures TakeDigits(Digits(n, width) + rest, width) == Some((n, rest))
  {
    ValueOfDigits(n, width);
    var s := Digits(n, width) + rest;
    assert s[..width] == Digits(n, width) && s[width..] == rest;
  }

  /** A separator and a number of two digits. */
  function TakeField(s: string, separator: char): Option<(nat, string)> {
    if s != "" && s[0] == separator then TakeDigits(s[1..], 2) else None
  }

  function Field(separator: char, n: nat): string {
    [separator] + Digits(n, 2)
  }

  lemma TakeWrittenField(separator: char, n: nat, rest: string)
    requires n < 100
    ensures TakeField(Field(separator, n) + rest, separator) == Some((n, rest))
  {
    var s := Field(separator, n) + rest;
    assert s[1..] == Digits(n, 2) + rest;
    assert Power10(2) == 100;
    TakeWritten(n, 2, rest);
  }

  // ----- The fraction of the second -----

  function TrimZeros(s: string): string {
    if s != "" && s[|s| - 1] == '0' then TrimZeros(s[..|s| - 1]) else s
  }

  function Zeros(k: nat): string {
    seq(k, i => '0')
  }

  lemma {:induction false} PadTrimmed(s: string)
    ensures |TrimZeros(s)| <= |s| && TrimZeros(s) + Zeros(|s| - |TrimZeros(s)|) == s
  {
    if s != "" && s[|s| - 1] == '0' {
      var front := s[..|s| - 1];
      PadTrimmed(front);
      var t := TrimZeros(front);
      assert Zeros(|s| - |t|) == Zeros(|front| - |t|) + ['0'];
      assert s == front + ['0'];
    }
  }

  /** Nothing for a whole second, else a point and the digits up to the last one that counts. */
  function Fraction(nano: nat): string {
    if nano == 0 then "" else ['.'] + TrimZeros(Digits(nano, 9))
  }

  function TakeFraction(s: string): Option<nat> {
    if s == "" then Some(0)
    else if s[0] == '.' && 2 <= |s| <= 10 && AllDigits(s[1..]) then Some(PaddedValue(s[1..]))
    else None
  }

  function PaddedValue(digits: string): nat
    requires AllDigits(digits) && |digits| <= 9
  {
    Value(digits + Zeros(9 - |digits|))
  }

  lemma {:induction false} OnlyZerosTrimAway(s: string)
    requires AllDigits(s)
    ensures TrimZeros(s) == "" ==> Value(s) == 0
  {
    if s != "" && s[|s| - 1] == '0' {
      OnlyZerosTrimAway(s[..|s| - 1]);
    }
  }

  lemma TakeWrittenFraction(nano: nat)
    requires nano < 1_000_000_000
    ensures TakeFraction(Fraction(nano)) == Some(nano)
  {
    if nano > 0 {
      assert Power10(9) == 1_000_000_000;
      ValueOfDigits(nano, 9);
      var d := Digits(nano, 9);
      var t := TrimZeros(d);
      PadTrimmed(d);
      assert Fraction(nano)[1..] == t;
      assert forall i :: 0 <= i < |t| ==> t[i] == d[i];
      OnlyZerosTrimAway(d);
    }
  }

  // ----- The whole timestamp -----

  function Clock(t: Time): string {
    Field('T', t.hour) + (Field(':', t.minute) + (Field(':', t.second) + Fraction(t.nano)))
  }

  function Format(t: Time): string {
    Digits(t.year, 4) + (Field('-', t.month) + (Field('-', t.day) + Clock(t))) + "Z"
  }

  /** Year, month and day stand where section 5.6 of RFC 3339 has them, then the clock, in UTC. */
  lemma FormatIsRfc3339(t: Time)
    requires IsTime(t)
    ensures var s := Format(t);
            && |s| >= 11 && s[4] == '-' && s[7] == '-' && s[10..] == Clock(t) + "Z"
            && Holds(s, 0, 4, t.year) && Holds(s, 5, 7, t.month) && Holds(s, 8, 10, t.day)
  {
    ValueOfDigits(t.year, 4);
    ValueOfDigits(t.month, 2);
    ValueOfDigits(t.day, 2);
    DateLayout(Digits(t.year, 4), Digits(t.month, 2), Digits(t.day, 2), Clock(t), Format(t));
  }

  lemma DateLayout(y: string, mo: string, d: string, c: string, s: string)
    requires |y| == 4 && |mo| == |d| == 2 && s == y + ((['-'] + mo) + ((['-'] + d) + c)) + "Z"
    ensures |s| == 11 + |c| && s[0..4] == y && s[4] == '-' && s[5..7] == mo && s[7] == '-' && s[8..10] == d
    ensures s[10..] == c + "Z"
  {
  }

  /** Hour, minute and second stand where section 5.6 of RFC 3339 has them. */
  lemma ClockIsRfc3339(t: Time)
    requires IsTime(t)
    ensures var s := Clock(t);
            && |s| >= 9 && s[0] == 'T' && s[3] == ':' && s[6] == ':' && s[9..] == Fraction(t.nano)
            && Holds(s, 1, 3, t.hour) && Holds(s, 4, 6, t.minute) && Holds(s, 7, 9, t.second)
  {
    ValueOfDigits(t.hour, 2);
    ValueOfDigits(t.minute, 2);
    ValueOfDigits(t.second, 2);
    ClockLayout(Digits(t.hour, 2), Digits(t.minute, 2), Digits(t.second, 2), Fraction(t.nano), Clock(t));
  }

  lemma ClockLayout(h: string, mi: string, sec: string, f: string, s: string)
    requires |h| == |mi| == |sec| == 2 && s == (['T'] + h) + (([':'] + mi) + (([':'] + sec) + f))
    ensures |s| == 9 + |f| && s[0] == 'T' && s[1..3] == h && s[3] == ':' && s[4..6] == mi && s[6] == ':'
    ensures s[7..9] == sec
    ensures s[9..] == f
  {
  }

  /** The characters from `i` up to `j` are the decimal digits of `n`. */
  predicate Holds(s: string, i: nat, j: nat, n: nat) {
    i <= j <= |s| && AllDigits(s[i..j]) && Value(s[i..j]) == n
  }

  function TakeDate(s: string): Option<(Time, string)> {
    match TakeDigits(s, 4)
    case None => None
    case Some((year, s1)) =>
      match TakeField(s1, '-')
      case None => None
      case Some((month, s2)) =>
        match TakeField(s2, '-')
        case None => None
        case Some((day, s3)) => Some((Time(year, month, day, 0, 0, 0, 0), s3))
  }

  function TakeClock(t: Time, s: string): Option<Time> {
    match TakeField(s, 'T')
    case None => None
    case Some((hour, s1)) =>
      match TakeField(s1, ':')
      case None => None
      case Some((minute, s2)) =>
        match TakeField(s2, ':')
        case None => None
        case Some((second, s3)) =>
          match TakeFraction(s3)
          case None => None
          case Some(nano) => Some(t.(hour := hour, minute := minute, second := second, nano := nano))
  }

  /** Timestamps in UTC; a time outside its range is refused. */
  function Parse(s: string): Option<Time> {
    if s == "" || s[|s| - 1] != 'Z' then None
    else
      match TakeDate(s[..|s| - 1])
      case None => None
      case Some((date, rest)) =>
        match TakeClock(date, rest)
        case None => None
        case Some(t) => if IsTime(t) then Some(t) else None
  }

  lemma TakeWrittenDate(t: Time, rest: string)
    requires IsDate(t)
    ensures TakeDate(Digits(t.year, 4) + (Field('-', t.month) + (Field('-', t.day) + rest))) ==
            Some((Time(t.year, t.month, t.day, 0, 0, 0, 0), rest))
  {
    assert Power10(4) == 10000;
    TakeWritten(t.year, 4, Field('-', t.month) + (Field('-', t.day) + rest));
    TakeWrittenField('-', t.month, Field('-', t.day) + rest);
    TakeWrittenField('-', t.day, rest);
  }

  lemma TakeWrittenClock(t: Time)
    requires IsTime(t)
    ensures TakeClock(Time(t.year, t.month, t.day, 0, 0, 0, 0), Clock(t)) == Some(t)
  {
    TakeWrittenField('T', t.hour, Field(':', t.minute) + (Field(':', t.second) + Fraction(t.nano)));
    TakeWrittenField(':', t.minute, Field(':', t.second) + Fraction(t.nano));
    TakeWrittenField(':', t.second, Fraction(t.nano));
    TakeWrittenFraction(t.nano);
  }

  lemma ParseFormat(t: Time)
    requires IsTime(t)
    ensures Parse(Format(t)) == Some(t)
  {
    var s := Format(t);
    var body := Digits(t.year, 4) + (Field('-', t.month) + (Field('-', t.day) + Clock(t)));
    assert s[..|s| - 1] == body;
    TakeWrittenDate(t, Clock(t));
    TakeWrittenClock(t);
  }
}
