/** `Format.formatRelativeTime` of public/js/utils.js: how long ago a moment
    was, in the largest whole unit, as the text the pages show. Timestamps are
    integer milliseconds; the date parsing and the locale formatting of the
    other `Format` helpers are not part of this model. */
module Format {
  import opened Common

  datatype Unit = Minute | Hour | Day

  /** What the text says: "Just now", or a whole number of some unit ago. */
  datatype Elapsed = JustNow | Ago(count: nat, unit: Unit)

  function UnitSeconds(u: Unit): nat {
    match u
    case Minute => 60
    case Hour => 3600
    case Day => 86400
  }

  function UnitName(u: Unit): string {
    match u
    case Minute => "minute"
    case Hour => "hour"
    case Day => "day"
  }

  /** The bucket of a difference of `d` whole seconds: under a minute (negative
      differences included) is "just now"; otherwise the count is the number of
      whole units in `d`, for the largest unit of minute, hour and day that `d`
      reaches. */
  function ElapsedOf(d: int): (e: Elapsed)
    ensures e.JustNow? <==> d < 60
    ensures e.Ago? ==> 1 <= e.count && UnitSeconds(e.unit) * e.count <= d < UnitSeconds(e.unit) * (e.count + 1)
    ensures e.Ago? ==> (e.unit == Minute <==> d < 3600) && (e.unit == Day <==> 86400 <= d)
  {
    if d < 60 then JustNow
    else if d < 3600 then Ago(d / 60, Minute)
    else if d < 86400 then Ago(d / 3600, Hour)
    else Ago(d / 86400, Day)
  }

  /** The decimal digits of `n`, as `${n}` writes a whole number. */
  function NatText(n: nat): (s: string)
    ensures s != [] && forall k :: 0 <= k < |s| ==> IsAsciiDigit(s[k])
  {
    var last := [('0' as int + n % 10) as char];
    if n < 10 then last else NatText(n / 10) + last
  }

  /** The number a string of decimal digits denotes. */
  function DigitsValue(s: string): nat
    requires forall k :: 0 <= k < |s| ==> IsAsciiDigit(s[k])
  {
    if s == [] then 0
    else
      assert IsAsciiDigit(s[|s| - 1]);
      DigitsValue(s[..|s| - 1]) * 10 + (s[|s| - 1] as int - '0' as int)
  }

  lemma {:induction false} NatTextValue(n: nat)
    ensures DigitsValue(NatText(n)) == n
  {
    var s := NatText(n);
    if n >= 10 {
      NatTextValue(n / 10);
      assert s[..|s| - 1] == NatText(n / 10);
    }
  }

  /** The length of the run of digits `s` starts with. */
  function DigitRun(s: string): (k: nat)
    ensures k <= |s| && forall i :: 0 <= i < k ==> IsAsciiDigit(s[i])
    ensures k == |s| || !IsAsciiDigit(s[k])
  {
    if s != [] && IsAsciiDigit(s[0]) then 1 + DigitRun(s[1..]) else 0
  }

  lemma {:induction false} DigitRunOf(digits: string, rest: string)
    requires forall k :: 0 <= k < |digits| ==> IsAsciiDigit(digits[k])
    requires rest == [] || !IsAsciiDigit(rest[0])
    ensures DigitRun(digits + rest) == |digits|
  {
    if digits != [] {
      assert (digits + rest)[1..] == digits[1..] + rest;
      DigitRunOf(digits[1..], rest);
    }
  }

  /** What follows the count: the unit, an "s" for more than one, and " ago". */
  function Tail(count: nat, u: Unit): string {
    " " + UnitName(u) + (if count > 1 then "s" else "") + " ago"
  }

  function Text(e: Elapsed): string {
    match e
    case JustNow => "Just now"
    case Ago(n, u) => NatText(n) + Tail(n, u)
  }

  /** `formatRelativeTime(date)` read at `now`: the difference is floored to
      whole seconds (`Math.floor` of a division by 1000). */
  function FormatRelativeTime(date: Time, now: Time): (r: string)
    ensures r == "Just now" <==> now - date < 60_000
  {
    TextRoundTrip(ElapsedOf((now - date) / 1000));
    Text(ElapsedOf((now - date) / 1000))
  }

  /** Reads a text back into what it says; the inverse of `Text`. */
  function ParseElapsed(s: string): Option<Elapsed> {
    if s == "Just now" then Some(JustNow)
    else
      var k := DigitRun(s);
      if k == 0 then None
      else
        var n := DigitsValue(s[..k]);
        if s[k..] == Tail(n, Minute) then Some(Ago(n, Minute))
        else if s[k..] == Tail(n, Hour) then Some(Ago(n, Hour))
        else if s[k..] == Tail(n, Day) then Some(Ago(n, Day))
        else None
  }

  /** No two different buckets are shown as the same text: the count, the unit
      and "just now" can all be read back from it. */
  lemma TextRoundTrip(e: Elapsed)
    ensures ParseElapsed(Text(e)) == Some(e)
  {
    if e.Ago? {
      var s := Text(e);
      var digits := NatText(e.count);
      assert "Just now"[0] == 'J';
      assert s != "Just now" by { assert s[0] == digits[0]; }
      DigitRunOf(digits, Tail(e.count, e.unit));
      assert s[..|digits|] == digits;
      NatTextValue(e.count);
      assert s[|digits|..] == Tail(e.count, e.unit);
      assert Tail(e.count, e.unit)[1] == UnitName(e.unit)[0];
    }
  }

  /** The plural "s" appears exactly when the count is more than one. */
  lemma PluralExactlyAboveOne(e: Elapsed)
    requires e.Ago?
    ensures var s := Text(e);
            |s| >= 5 && (s[|s| - 5..] == "s ago" <==> e.count > 1)
  {
    var s := Text(e);
    var name := UnitName(e.unit);
    assert name[|name| - 1] != 's';
    if e.count > 1 {
      assert s[|s| - 5..] == "s ago";
    } else {
      assert s[|s| - 5] == name[|name| - 1];
    }
  }

  /** Worked examples of the "just now" bucket, with the clock in
      milliseconds: just under a minute, and a moment in the future. */
  lemma JustNowExamples()
    ensures FormatRelativeTime(0, 59_999) == "Just now"
    ensures FormatRelativeTime(10_000, 0) == "Just now"
  {
  }

  /** Worked example of the minute edge, with the clock in milliseconds. */
  lemma MinuteExample()
    ensures FormatRelativeTime(0, 60_000) == "1 minute ago"
  {
  }

  /** Worked example of the plural hours. */
  lemma HoursExample()
    ensures FormatRelativeTime(0, 7_200_000) == "2 hours ago"
  {
  }

  /** Worked example of the day edge. */
  lemma DayExample()
    ensures FormatRelativeTime(0, 86_400_000) == "1 day ago"
  {
  }
}
