/**
 * `formatTime` of the persistence helpers: a duration in milliseconds shown
 * as hours, minutes and seconds, leaving out leading zero units.
 *
 * Beside it is a reader for the strings it produces, so that what the
 * format keeps of its input can be stated as a round trip.
 */
module TimeFormat {
  import opened Optional

  predicate IsDigit(c: char) {
    '0' <= c <= '9'
  }

  predicate AllDigits(s: string) {
    forall i :: 0 <= i < |s| ==> IsDigit(s[i])
  }

  function DigitChar(d: nat): (c: char)
    requires d < 10
    ensures IsDigit(c)
  {
    ('0' as int + d) as char
  }

  /** `${n}` for a non-negative integer: its decimal digits, with no leading zero. */
  function Show(n: nat): (s: string)
    ensures |s| > 0 && AllDigits(s)
    ensures s[0] == '0' ==> n == 0
    ensures n == 0 ==> s == "0"
  {
    if n < 10 then [DigitChar(n)] else Show(n / 10) + [DigitChar(n % 10)]
  }

  /** The number a string of decimal digits denotes. */
  function Value(s: string): nat
    requires AllDigits(s)
  {
    if s == [] then 0 else Value(s[..|s| - 1]) * 10 + (s[|s| - 1] as int - '0' as int)
  }

  lemma {:induction false} ValueOfShow(n: nat)
    ensures Value(Show(n)) == n
  {
    if n >= 10 {
      ValueOfShow(n / 10);
      var s := Show(n);
      assert s[..|s| - 1] == Show(n / 10);
    }
  }

  datatype Parts = Parts(hours: nat, minutes: nat, seconds: nat)

  /** Hours, the minutes within the hour and the seconds within the minute of a number of seconds. */
  function Split(totalSeconds: nat): (p: Parts)
    ensures p.hours * 3600 + p.minutes * 60 + p.seconds == totalSeconds
    ensures p.minutes < 60 && p.seconds < 60
  {
    var rest := totalSeconds % 3600;
    assert totalSeconds == (totalSeconds / 3600) * 3600 + rest;
    assert rest == (rest / 60) * 60 + rest % 60;
    assert rest % 60 == totalSeconds % 60;
    Parts(totalSeconds / 3600, rest / 60, totalSeconds % 60)
  }

  /** Whole seconds in a duration; zero and negative durations count as none. */
  function TotalSeconds(timeInMs: int): (r: nat)
    ensures timeInMs <= 0 ==> r == 0
    ensures timeInMs > 0 ==> r * 1000 <= timeInMs < r * 1000 + 1000
  {
    if timeInMs <= 0 then 0 else timeInMs / 1000
  }

  function FormatTime(timeInMs: int): (r: string)
    ensures timeInMs < 1000 ==> r == "0s"
  {
    if timeInMs <= 0 then "0s"
    else
      var p := Split(timeInMs / 1000);
      if p.hours > 0 then Show(p.hours) + "h " + Show(p.minutes) + "m " + Show(p.seconds) + "s"
      else if p.minutes > 0 then Show(p.minutes) + "m " + Show(p.seconds) + "s"
      else Show(p.seconds) + "s"
  }

  // ---------------------------------------------------------------------------
  // Reading a formatted duration back

  /** The length of the run of digits `s` starts with. */
  function DigitRun(s: string): (k: nat)
    ensures k <= |s| && AllDigits(s[..k])
    ensures k < |s| ==> !IsDigit(s[k])
  {
    if s == [] || !IsDigit(s[0]) then 0
    else
      var k := DigitRun(s[1..]);
      assert s[..k + 1] == [s[0]] + s[1..][..k];
      k + 1
  }

  datatype Field = Field(amount: nat, unit: char)

  /** Digits as `${n}` writes them: at least one, and no leading zero unless the number is 0. */
  predicate Unpadded(d: string) {
    |d| > 0 && AllDigits(d) && (d[0] == '0' ==> |d| == 1)
  }

  /** Reads one field `<digits><unit>`, giving it and the text after it; zero-padded digits are refused. */
  function ReadField(s: string): (r: Option<(Field, string)>)
    ensures r.Some? ==> |r.value.1| < |s|
    ensures r.Some? ==> exists k :: 0 < k < |s| && Unpadded(s[..k]) && r.value.1 == s[k + 1..]
  {
    var k := DigitRun(s);
    if k == 0 || k == |s| || (s[0] == '0' && k > 1) then None
    else
      assert s[..k][0] == s[0];
      Some((Field(Value(s[..k]), s[k]), s[k + 1..]))
  }

  /** Reads fields separated by single spaces up to the end of `s`. */
  function ReadFields(s: string): Option<seq<Field>>
    decreases |s|
  {
    match ReadField(s)
    case None => None
    case Some((f, rest)) =>
      if rest == "" then Some([f])
      else if rest[0] != ' ' then None
      else
        match ReadFields(rest[1..])
        case None => None
        case Some(fs) => Some([f] + fs)
  }

  /** The seconds a formatted duration stands for, if it has one of the three shapes. */
  function ParseTime(s: string): Option<nat> {
    match ReadFields(s)
    case None => None
    case Some(fs) =>
      if |fs| == 1 && fs[0].unit == 's' then
        Some(fs[0].amount)
      else if |fs| == 2 && fs[0].unit == 'm' && fs[1].unit == 's' then
        Some(fs[0].amount * 60 + fs[1].amount)
      else if |fs| == 3 && fs[0].unit == 'h' && fs[1].unit == 'm' && fs[2].unit == 's' then
        Some(fs[0].amount * 3600 + fs[1].amount * 60 + fs[2].amount)
      else None
  }

  /** A zero-padded field is not what `formatTime` writes, and the reader refuses it. */
  lemma PaddedIsRefused()
    ensures ParseTime("1h 05m 03s") == None
    ensures ParseTime("03s") == None
  {
    assert ReadField("05m 03s") == None by {
      assert DigitRun("05m 03s") == 2 by {
        assert DigitRun("m 03s") == 0;
        assert "05m 03s"[1..] == "5m 03s";
        assert "5m 03s"[1..] == "m 03s";
      }
    }
    assert ReadField("1h 05m 03s") == Some((Field(1, 'h'), " 05m 03s")) by {
      assert DigitRun("h 05m 03s") == 0;
      assert "1h 05m 03s"[1..] == "h 05m 03s";
      assert "1h 05m 03s"[..1] == "1";
      assert "1h 05m 03s"[2..] == " 05m 03s";
    }
    assert " 05m 03s"[1..] == "05m 03s";
    assert ReadField("03s") == None by {
      assert DigitRun("s") == 0;
      assert "03s"[1..] == "3s";
      assert "3s"[1..] == "s";
    }
  }

  lemma {:induction false} DigitRunOfDigits(d: string, t: string)
    requires AllDigits(d)
    ensures DigitRun(d + t) == |d| + DigitRun(t)
  {
    if d != [] {
      assert (d + t)[1..] == d[1..] + t;
      DigitRunOfDigits(d[1..], t);
    } else {
      assert d + t == t;
    }
  }

  lemma ReadDigitsField(d: string, u: char, rest: string)
    requires Unpadded(d) && !IsDigit(u)
    ensures ReadField(d + [u] + rest) == Some((Field(Value(d), u), rest))
  {
    var s := d + [u] + rest;
    assert s == d + ([u] + rest);
    DigitRunOfDigits(d, [u] + rest);
    assert s[..|d|] == d;
    assert s[0] == d[0];
    assert s[|d|] == u;
    assert s[|d| + 1..] == rest;
  }

  lemma ReadLastField(d: string, u: char)
    requires Unpadded(d) && !IsDigit(u)
    ensures ReadFields(d + [u]) == Some([Field(Value(d), u)])
  {
    ReadDigitsField(d, u, "");
    assert d + [u] + "" == d + [u];
  }

  lemma ReadOneMore(d: string, u: char, tail: string, fs: seq<Field>)
    requires Unpadded(d) && !IsDigit(u) && ReadFields(tail) == Some(fs)
    ensures ReadFields(d + [u, ' '] + tail) == Some([Field(Value(d), u)] + fs)
  {
    var rest := [' '] + tail;
    ReadDigitsField(d, u, rest);
    assert d + [u, ' '] + tail == d + [u] + rest;
    assert rest[1..] == tail;
  }

  lemma Regroup(a: string, b: string, c: string, d: string)
    ensures a + b + c + d == a + b + (c + d)
  {
  }

  lemma ReadSeconds(sec: nat)
    ensures ReadFields(Show(sec) + "s") == Some([Field(sec, 's')])
  {
    ReadLastField(Show(sec), 's');
    ValueOfShow(sec);
  }

  lemma ReadMinutesSeconds(min: nat, sec: nat)
    ensures ReadFields(Show(min) + "m " + Show(sec) + "s") == Some([Field(min, 'm'), Field(sec, 's')])
  {
    var m, s := Show(min), Show(sec);
    ReadSeconds(sec);
    ReadOneMore(m, 'm', s + "s", [Field(sec, 's')]);
    ValueOfShow(min);
    Regroup(m, "m ", s, "s");
    assert [Field(min, 'm')] + [Field(sec, 's')] == [Field(min, 'm'), Field(sec, 's')];
  }

  lemma ReadHoursMinutesSeconds(h: nat, min: nat, sec: nat)
    ensures ReadFields(Show(h) + "h " + Show(min) + "m " + Show(sec) + "s") ==
            Some([Field(h, 'h'), Field(min, 'm'), Field(sec, 's')])
  {
    var hs, ms := Show(h), Show(min) + "m " + Show(sec) + "s";
    ReadMinutesSeconds(min, sec);
    ReadOneMore(hs, 'h', ms, [Field(min, 'm'), Field(sec, 's')]);
    ValueOfShow(h);
    Regroup(hs, "h ", Show(min) + "m " + Show(sec), "s");
    Regroup(hs, "h ", Show(min) + "m ", Show(sec));
    Regroup(hs, "h ", Show(min), "m ");
    assert [Field(h, 'h')] + [Field(min, 'm'), Field(sec, 's')] == [Field(h, 'h'), Field(min, 'm'), Field(sec, 's')];
  }

  /** The fields `formatTime` writes for the parts of a duration: leading zero units are left out. */
  function Shape(p: Parts): seq<Field> {
    if p.hours > 0 then [Field(p.hours, 'h'), Field(p.minutes, 'm'), Field(p.seconds, 's')]
    else if p.minutes > 0 then [Field(p.minutes, 'm'), Field(p.seconds, 's')]
    else [Field(p.seconds, 's')]
  }

  /**
   * The three shapes: with hours, all three fields; else with minutes,
   * minutes and seconds; else seconds alone (so "0s" below one second).
   */
  lemma FormatShape(timeInMs: int)
    ensures ReadFields(FormatTime(timeInMs)) == Some(Shape(Split(TotalSeconds(timeInMs))))
  {
    var p := Split(TotalSeconds(timeInMs));
    if timeInMs <= 0 {
      ReadSeconds(0);
    } else if p.hours > 0 {
      ReadHoursMinutesSeconds(p.hours, p.minutes, p.seconds);
    } else if p.minutes > 0 {
      ReadMinutesSeconds(p.minutes, p.seconds);
    } else {
      ReadSeconds(p.seconds);
    }
  }

  /** Each shape reads back as the seconds its parts add up to. */
  lemma ParseShape(s: string, p: Parts)
    requires ReadFields(s) == Some(Shape(p))
    ensures ParseTime(s) == Some(p.hours * 3600 + p.minutes * 60 + p.seconds)
  {
  }

  /** The format loses nothing but the milliseconds: reading it back gives the whole seconds. */
  lemma FormatRoundTrip(timeInMs: int)
    ensures ParseTime(FormatTime(timeInMs)) == Some(TotalSeconds(timeInMs))
  {
    var t := TotalSeconds(timeInMs);
    var p := Split(t);
    FormatShape(timeInMs);
    ParseShape(FormatTime(timeInMs), p);
  }
}
