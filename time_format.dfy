/**
 * The `HH:mm:ss` formatter of the stopwatch (`splitSeconds`), the splitting
 * of a clock string at its colons, and the parser that reads such a string
 * back into a number of seconds.
 */
module TimeFormat {
  import opened Options
  import opened Decimal

  /** A number of seconds broken into hours, minutes and seconds. */
  datatype Clock = Clock(hours: nat, minutes: nat, seconds: nat)

  /** Minutes and seconds are both below 60; hours are unbounded. */
  predicate Normal(c: Clock)
  {
    c.minutes < 60 && c.seconds < 60
  }

  /** The number of seconds a clock reading stands for. */
  function Total(c: Clock): nat
  {
    c.hours * 3600 + c.minutes * 60 + c.seconds
  }

  /**
   * The three fields of `splitSeconds`: whole hours, then whole minutes of
   * what is left, then the seconds that remain.
   */
  function Split(sec: nat): (c: Clock)
    ensures Normal(c)
    ensures c.hours * 3600 + c.minutes * 60 + c.seconds == sec
  {
    Clock(sec / 3600, (sec % 3600) / 60, sec % 60)
  }

  /**
   * `Split` agrees with the formulas `splitSeconds` is written with: the
   * hours are the floor of `sec / 3600`, the minutes the floor of what is
   * left over 60, and the seconds what is left after both are taken away.
   */
  lemma SplitAsWritten(sec: nat)
    ensures var hours := sec / 3600;
      var minutes := (sec - hours * 3600) / 60;
      Split(sec) == Clock(hours, minutes, sec - hours * 3600 - minutes * 60)
  {
  }

  /** A normal clock reading is the only one `Split` can produce for its total. */
  lemma SplitUnique(c: Clock)
    requires Normal(c)
    ensures Split(Total(c)) == c
  {
    assert c.minutes * 60 + c.seconds < 3600;
  }

  /**
   * One field of the clock string: a leading `0` when the value is below 10,
   * the number as printed otherwise.
   */
  function Pad(n: nat): string
  {
    if n < 10 then "0" + Show(n) else Show(n)
  }

  /**
   * A field is a numeral denoting its value, at least two digits long,
   * exactly two below 100, and starting with `0` exactly when below 10.
   */
  lemma PadNumeral(n: nat)
    ensures Numeral(Pad(n)) && Value(Pad(n)) == n
    ensures |Pad(n)| >= 2
    ensures n < 100 ==> |Pad(n)| == 2
    ensures (Pad(n)[0] == '0') == (n < 10)
  {
    ShowNumeral(n);
    if n < 10 {
      var f := Pad(n);
      assert f[..1] == "0";
    }
  }

  /** `splitSeconds`: seconds rendered as hours, minutes and seconds joined by colons. */
  function SplitSeconds(sec: nat): string
  {
    var c := Split(sec);
    Pad(c.hours) + ":" + Pad(c.minutes) + ":" + Pad(c.seconds)
  }

  /** The pieces of `s` between its colons, in order (one more piece than there are colons). */
  function Fields(s: string): (r: seq<string>)
    ensures |r| >= 1
    decreases |s|
  {
    if s == [] then [""]
    else
      var rest := Fields(s[1..]);
      if s[0] == ':' then [""] + rest else [[s[0]] + rest[0]] + rest[1..]
  }

  /** A piece without colons, then a colon, starts the field list. */
  lemma {:induction false} FieldsCons(a: string, t: string)
    requires ':' !in a
    ensures Fields(a + ":" + t) == [a] + Fields(t)
    decreases |a|
  {
    var s := a + ":" + t;
    if a == [] {
      assert s[1..] == t;
    } else {
      assert s[1..] == a[1..] + ":" + t;
      FieldsCons(a[1..], t);
      assert [a[0]] + a[1..] == a;
    }
  }

  /** A string without colons is a single field. */
  lemma {:induction false} FieldsSingle(a: string)
    requires ':' !in a
    ensures Fields(a) == [a]
    decreases |a|
  {
    if a != [] {
      FieldsSingle(a[1..]);
      assert [a[0]] + a[1..] == a;
    }
  }

  /**
   * Reads a clock string back: exactly three non-empty digit fields, recombined
   * as hours * 3600 + minutes * 60 + seconds; anything else is rejected.
   */
  function ParseClock(text: string): Option<nat>
  {
    var f := Fields(text);
    if |f| == 3 && Numeral(f[0]) && Numeral(f[1]) && Numeral(f[2]) then
      Some(Value(f[0]) * 3600 + Value(f[1]) * 60 + Value(f[2]))
    else
      None
  }

  /**
   * The shape of `splitSeconds`: exactly three digit fields joined by two
   * colons; minutes and seconds always two digits; hours two digits with a
   * leading zero below 10 and printed in full, however long, from 10 on.
   */
  lemma SplitSecondsShape(sec: nat)
    ensures var c, f := Split(sec), Fields(SplitSeconds(sec));
      && |f| == 3
      && SplitSeconds(sec) == f[0] + ":" + f[1] + ":" + f[2]
      && Numeral(f[0]) && Numeral(f[1]) && Numeral(f[2])
      && Value(f[0]) == c.hours && Value(f[1]) == c.minutes && Value(f[2]) == c.seconds
      && |f[1]| == 2 && |f[2]| == 2
      && (c.hours < 10 ==> |f[0]| == 2 && f[0][0] == '0')
      && (c.hours >= 10 ==> f[0] == Show(c.hours))
  {
    var c := Split(sec);
    var h, m, s := Pad(c.hours), Pad(c.minutes), Pad(c.seconds);
    PadNumeral(c.hours);
    PadNumeral(c.minutes);
    PadNumeral(c.seconds);
    DigitsHaveNoColon(h);
    DigitsHaveNoColon(m);
    DigitsHaveNoColon(s);
    assert SplitSeconds(sec) == h + ":" + (m + ":" + s);
    FieldsCons(h, m + ":" + s);
    FieldsCons(m, s);
    FieldsSingle(s);
    if c.hours >= 10 {
      ShowNumeral(c.hours);
    }
  }

  /** Parsing the three fields of `splitSeconds(sec)` and recombining them gives `sec` back. */
  lemma RoundTrip(sec: nat)
    ensures ParseClock(SplitSeconds(sec)) == Some(sec)
  {
    SplitSecondsShape(sec);
  }

  /** Different numbers of seconds are never rendered as the same string. */
  lemma SplitSecondsInjective(a: nat, b: nat)
    requires SplitSeconds(a) == SplitSeconds(b)
    ensures a == b
  {
    RoundTrip(a);
    RoundTrip(b);
  }

  /** Zero seconds: every field is padded. */
  lemma SplitSecondsZero()
    ensures SplitSeconds(0) == "00:00:00"
  {
  }

  /** Under a minute and exactly one minute. */
  lemma SplitSecondsMinute()
    ensures SplitSeconds(59) == "00:00:59"
    ensures SplitSeconds(60) == "00:01:00"
  {
  }

  /** One hour, one minute and one second. */
  lemma SplitSecondsOneOfEach()
    ensures SplitSeconds(3661) == "01:01:01"
  {
  }

  /** Ten hours and more are printed without a leading zero, and three-digit hours in full. */
  lemma SplitSecondsLongHours()
    ensures SplitSeconds(36000) == "10:00:00"
    ensures SplitSeconds(360000) == "100:00:00"
  {
    assert Split(36000) == Clock(10, 0, 0);
    assert Split(360000) == Clock(100, 0, 0);
    assert Show(100) == Show(10) + "0";
  }
}
