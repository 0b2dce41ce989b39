/**
 * The lap list's rendering: lap `i` (counted from 0) becomes the line
 * `"{i+1}. " + splitSeconds(value)`, and the lines are joined with `<br>`.
 */
module Laps {
  import opened Decimal
  import opened TimeFormat

  const Separator: string := "<br>"

  /** The line shown for the lap at position `i` that captured `value` seconds. */
  function LapLine(i: nat, value: nat): string
  {
    Show(i + 1) + ". " + SplitSeconds(value)
  }

  /** Array `join`: the parts with `sep` between neighbours; nothing for no parts. */
  function Join(parts: seq<string>, sep: string): string
  {
    if |parts| == 0 then ""
    else if |parts| == 1 then parts[0]
    else parts[0] + sep + Join(parts[1..], sep)
  }

  /** Array `map` with the index: one line per lap, in order. */
  function LapLines(laps: seq<nat>): seq<string>
  {
    seq(|laps|, i requires 0 <= i < |laps| => LapLine(i, laps[i]))
  }

  /** The whole lap text. */
  function LapText(laps: seq<nat>): string
  {
    Join(LapLines(laps), Separator)
  }

  /** Joining one more part adds a separator and that part at the end. */
  lemma {:induction false} JoinSnoc(parts: seq<string>, x: string, sep: string)
    ensures Join(parts + [x], sep) == if parts == [] then x else Join(parts, sep) + sep + x
    decreases |parts|
  {
    if |parts| >= 2 {
      assert (parts + [x])[1..] == parts[1..] + [x];
      JoinSnoc(parts[1..], x, sep);
    } else if |parts| == 1 {
      assert (parts + [x])[1..] == [x];
    }
  }

  /** With no laps there is no text. */
  lemma LapTextEmpty()
    ensures LapText([]) == ""
  {
  }

  /**
   * Recording one more lap extends the text: the first lap is its own line;
   * every later one adds a separator and its line, earlier text unchanged.
   */
  lemma LapTextSnoc(laps: seq<nat>, value: nat)
    ensures LapText(laps + [value]) ==
      if laps == [] then LapLine(0, value) else LapText(laps) + Separator + LapLine(|laps|, value)
  {
    assert LapLines(laps + [value]) == LapLines(laps) + [LapLine(|laps|, value)];
    JoinSnoc(LapLines(laps), LapLine(|laps|, value), Separator);
  }

  /** Two laps render as their two lines around one separator. */
  lemma LapTextTwoLaps(a: nat, b: nat)
    ensures LapText([a, b]) == LapLine(0, a) + Separator + LapLine(1, b)
  {
    assert LapText([a]) == LapLine(0, a) by {
      LapTextSnoc([], a);
      assert [] + [a] == [a];
    }
    LapTextSnoc([a], b);
    assert [a] + [b] == [a, b];
  }

  /** The first lap, taken at 5 seconds. */
  lemma LapLineFirstExample()
    ensures LapLine(0, 5) == "1. 00:00:05"
  {
  }

  /** The second lap, taken at 12 seconds. */
  lemma LapLineSecondExample()
    ensures LapLine(1, 12) == "2. 00:00:12"
  {
  }

  /** Laps taken at 5 and at 12 seconds. */
  lemma LapTextExample()
    ensures LapText([5, 12]) == "1. 00:00:05<br>2. 00:00:12"
  {
    LapTextTwoLaps(5, 12);
    LapLineFirstExample();
    LapLineSecondExample();
  }
}
