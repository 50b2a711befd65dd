/**
 * The duration display of src/components/admin/Analytics.js: whole seconds
 * split into hours, minutes and seconds and shown as "Xh Ym Zs", "Ym Zs" or
 * "Zs", plus the two display rules around it. An absent value (`undefined`)
 * is `None`; seconds are whole (see the README).
 */
module Analytics {
  import opened Common

  const SecondsPerMinute := 60
  const SecondsPerHour := 3600

  /** Hours, minutes and seconds of a duration. */
  datatype Clock = Clock(hrs: nat, mins: nat, secs: nat)

  /** `Math.floor(s / 3600)`, `Math.floor((s % 3600) / 60)` and `s % 60`. */
  function ClockOf(s: nat): (c: Clock)
    ensures c.hrs * SecondsPerHour + c.mins * SecondsPerMinute + c.secs == s
    ensures c.mins < 60 && c.secs < 60
  {
    Clock(s / 3600, (s % 3600) / 60, s % 60)
  }

  /** The split is the only one with minutes and seconds below 60. */
  lemma ClockUnique(s: nat, c: Clock)
    requires c.hrs * SecondsPerHour + c.mins * SecondsPerMinute + c.secs == s
    requires c.mins < 60 && c.secs < 60
    ensures c == ClockOf(s)
  {
    var d := ClockOf(s);
    var r := c.mins * 60 + c.secs;
    assert 0 <= r < 3600;
    assert s == c.hrs * 3600 + r;
    assert c.hrs == s / 3600 && r == s % 3600 by {
      LemmaDivModUnique(s, 3600, c.hrs, r);
    }
    assert c.mins == r / 60 && c.secs == r % 60 by {
      LemmaDivModUnique(r, 60, c.mins, c.secs);
    }
  }

  /** Multiplying by a natural number keeps order. */
  lemma MulMonotone(a: nat, b: nat, d: nat)
    requires a <= b
    ensures a * d <= b * d
  {
    var k := b - a;
    assert b * d == a * d + k * d;
  }

  /** Euclidean division has exactly one quotient and remainder. */
  lemma LemmaDivModUnique(n: nat, d: nat, q: nat, r: nat)
    requires d > 0 && r < d && n == q * d + r
    ensures q == n / d && r == n % d
  {
    var q', r' := n / d, n % d;
    assert n == q' * d + r';
    if q < q' {
      MulMonotone(q + 1, q', d);
      assert false;
    } else if q > q' {
      MulMonotone(q' + 1, q, d);
      assert false;
    }
  }

  /** One number and its unit letter, as rendered by `${n}u`. */
  function Piece(n: nat, unit: char): string {
    NatToString(n) + [unit]
  }

  /** `formatTime`: "0s" for a falsy or zero input; otherwise the largest non-zero unit first. */
  function FormatTime(seconds: Option<nat>): (text: string)
    ensures seconds.None? || seconds == Some(0) ==> text == "0s"
  {
    if seconds.None? || seconds.value == 0 then "0s"
    else
      var c := ClockOf(seconds.value);
      if c.hrs > 0 then Piece(c.hrs, 'h') + (" " + (Piece(c.mins, 'm') + (" " + Piece(c.secs, 's'))))
      else if c.mins > 0 then Piece(c.mins, 'm') + (" " + Piece(c.secs, 's'))
      else Piece(c.secs, 's')
  }

  // ---------------------------------------------------------------------------
  // Reading a display back

  /** The seconds one unit letter stands for. */
  function UnitSeconds(u: char): Option<nat> {
    if u == 'h' then Some(SecondsPerHour)
    else if u == 'm' then Some(SecondsPerMinute)
    else if u == 's' then Some(1)
    else None
  }

  /** The length of the run of digits that starts `s`. */
  function DigitRun(s: string): (k: nat)
    ensures k <= |s|
    ensures forall i :: 0 <= i < k ==> IsDigit(s[i])
    ensures k == |s| || !IsDigit(s[k])
  {
    if s == [] || !IsDigit(s[0]) then 0 else 1 + DigitRun(s[1..])
  }

  /** Digits followed by a non-digit (or nothing) form a run of exactly that length. */
  lemma {:induction false} DigitRunOf(digits: string, rest: string)
    requires forall i :: 0 <= i < |digits| ==> IsDigit(digits[i])
    requires rest == [] || !IsDigit(rest[0])
    ensures DigitRun(digits + rest) == |digits|
  {
    if digits != [] {
      assert (digits + rest)[1..] == digits[1..] + rest;
      DigitRunOf(digits[1..], rest);
    } else {
      assert digits + rest == rest;
    }
  }

  /** The first piece of a display, digits and a unit letter: its seconds and the text after it. */
  function ReadLead(text: string): (r: Option<(int, string)>)
    ensures r.Some? ==> |r.value.1| < |text|
  {
    var k := DigitRun(text);
    if k == 0 || k >= |text| || UnitSeconds(text[k]).None? then None
    else Some((DigitsValue(text[..k]) * UnitSeconds(text[k]).value, text[k + 1..]))
  }

  /**
   * The total number of seconds a display denotes: pieces of digits and a
   * unit letter, separated by single spaces; `None` for any other text.
   */
  function ReadDuration(text: string): (total: Option<int>)
    decreases |text|, 1
  {
    ReadFrom(ReadLead(text), text)
  }

  /** The rest of the reading once the first piece of `text` has been read. */
  function ReadFrom(lead: Option<(int, string)>, ghost text: string): Option<int>
    requires lead == ReadLead(text)
    decreases |text|, 0
  {
    if lead.None? then None
    else
      var rest := lead.value.1;
      if rest == [] then Some(lead.value.0)
      else if rest[0] != ' ' then None
      else
        var more := ReadDuration(rest[1..]);
        if more.None? then None else Some(lead.value.0 + more.value)
  }

  /** A rendered piece reads back as its number of seconds, leaving the text after it. */
  lemma ReadPiece(n: nat, u: char, rest: string)
    requires UnitSeconds(u).Some?
    requires rest == [] || !IsDigit(rest[0])
    ensures ReadLead(Piece(n, u) + rest) == Some((n * UnitSeconds(u).value, rest))
  {
    var digits := NatToString(n);
    var text := Piece(n, u) + rest;
    assert text == digits + ([u] + rest);
    DigitRunOf(digits, [u] + rest);
    assert text[..|digits|] == digits;
    assert text[|digits|] == u;
    assert text[|digits| + 1..] == rest;
    NatToStringRoundTrip(n);
  }

  /** A last piece reads as its seconds. */
  lemma ReadLast(n: nat, u: char)
    requires UnitSeconds(u).Some?
    ensures ReadDuration(Piece(n, u)) == Some(n * UnitSeconds(u).value)
  {
    ReadPiece(n, u, []);
    assert Piece(n, u) + [] == Piece(n, u);
  }

  /** A piece followed by a space and more text adds its seconds to the rest's. */
  lemma ReadCons(n: nat, u: char, tail: string, more: int)
    requires UnitSeconds(u).Some?
    requires ReadDuration(tail) == Some(more)
    ensures ReadDuration(Piece(n, u) + (" " + tail)) == Some(n * UnitSeconds(u).value + more)
  {
    ReadPiece(n, u, " " + tail);
    ReadStep(Piece(n, u) + (" " + tail), n * UnitSeconds(u).value, tail, more);
  }

  /** One step of the reader: a lead piece, a space, and a readable rest. */
  lemma ReadStep(text: string, value: int, tail: string, more: int)
    requires ReadLead(text) == Some((value, " " + tail))
    requires ReadDuration(tail) == Some(more)
    ensures ReadDuration(text) == Some(value + more)
  {
    var rest := " " + tail;
    assert rest != [] && rest[0] == ' ';
    assert rest[1..] == tail;
  }

  /** "Ym Zs" reads back as its total. */
  lemma ReadMinutesShape(m: nat, sec: nat)
    ensures ReadDuration(Piece(m, 'm') + (" " + Piece(sec, 's'))) == Some(m * 60 + sec)
  {
    ReadLast(sec, 's');
    ReadCons(m, 'm', Piece(sec, 's'), sec);
  }

  /** "Xh Ym Zs" reads back as its total. */
  lemma ReadHoursShape(h: nat, m: nat, sec: nat)
    ensures ReadDuration(Piece(h, 'h') + (" " + (Piece(m, 'm') + (" " + Piece(sec, 's')))))
            == Some(h * 3600 + m * 60 + sec)
  {
    ReadMinutesShape(m, sec);
    ReadCons(h, 'h', Piece(m, 'm') + (" " + Piece(sec, 's')), m * 60 + sec);
  }

  /** Proof step for the round trips below: the display of a positive duration, unfolded. */
  lemma FormatShape(s: nat)
    requires s > 0
    ensures var c := ClockOf(s);
      FormatTime(Some(s)) ==
        if c.hrs > 0 then Piece(c.hrs, 'h') + (" " + (Piece(c.mins, 'm') + (" " + Piece(c.secs, 's'))))
        else if c.mins > 0 then Piece(c.mins, 'm') + (" " + Piece(c.secs, 's'))
        else Piece(c.secs, 's')
  {
  }

  /** A display in hours reads back as its seconds. */
  lemma HoursRoundTrip(s: nat)
    requires s > 0 && ClockOf(s).hrs > 0
    ensures ReadDuration(FormatTime(Some(s))) == Some(s)
  {
    var c := ClockOf(s);
    FormatShape(s);
    ReadHoursShape(c.hrs, c.mins, c.secs);
  }

  /** A display in minutes reads back as its seconds. */
  lemma MinutesRoundTrip(s: nat)
    requires s > 0 && ClockOf(s).hrs == 0 && ClockOf(s).mins > 0
    ensures ReadDuration(FormatTime(Some(s))) == Some(s)
  {
    var c := ClockOf(s);
    FormatShape(s);
    ReadMinutesShape(c.mins, c.secs);
  }

  /** A display in seconds only reads back as its seconds. */
  lemma SecondsRoundTrip(s: nat)
    requires s > 0 && ClockOf(s).hrs == 0 && ClockOf(s).mins == 0
    ensures ReadDuration(FormatTime(Some(s))) == Some(s)
  {
    var c := ClockOf(s);
    FormatShape(s);
    ReadLast(c.secs, 's');
  }

  /** The display reads back as the number of seconds it was made from (0 for an absent value). */
  lemma FormatTimeRoundTrip(seconds: Option<nat>)
    ensures ReadDuration(FormatTime(seconds)) == Some(seconds.GetOr(0))
  {
    if seconds.None? || seconds.value == 0 {
      ReadLast(0, 's');
      assert Piece(0, 's') == "0s";
    } else {
      var c := ClockOf(seconds.value);
      if c.hrs > 0 {
        HoursRoundTrip(seconds.value);
      } else if c.mins > 0 {
        MinutesRoundTrip(seconds.value);
      } else {
        SecondsRoundTrip(seconds.value);
      }
    }
  }

  /** Hours appear exactly when the duration reaches an hour; minutes whenever hours do or minutes are non-zero. */
  lemma FormatTimeUnits(s: nat)
    ensures 'h' in FormatTime(Some(s)) <==> s >= SecondsPerHour
    ensures 'm' in FormatTime(Some(s)) <==> s >= SecondsPerMinute
    ensures 's' in FormatTime(Some(s))
  {
    var c := ClockOf(s);
    assert Piece(c.secs, 's')[|Piece(c.secs, 's')| - 1] == 's';
    if s > 0 && c.hrs > 0 {
      assert Piece(c.hrs, 'h')[|Piece(c.hrs, 'h')| - 1] == 'h';
      assert Piece(c.mins, 'm')[|Piece(c.mins, 'm')| - 1] == 'm';
    } else if s > 0 && c.mins > 0 {
      assert Piece(c.mins, 'm')[|Piece(c.mins, 'm')| - 1] == 'm';
    }
  }

  // ---------------------------------------------------------------------------
  // Display rules around it

  /** `formatTime(stats.averageTime || 0)`: an absent average shows as zero. */
  function AverageTimeText(averageTime: Option<nat>): (text: string)
    ensures averageTime.None? ==> text == "0s"
    ensures ReadDuration(text) == Some(averageTime.GetOr(0))
  {
    FormatTimeRoundTrip(Some(averageTime.GetOr(0)));
    FormatTime(Some(averageTime.GetOr(0)))
  }

  /** `stats.totalAttempts > 0`: an absent count hides the distribution panel. */
  predicate ShowsDistribution(totalAttempts: Option<int>) {
    totalAttempts.Some? && totalAttempts.value > 0
  }

  lemma DistributionNeedsAttempts(totalAttempts: Option<int>)
    ensures ShowsDistribution(totalAttempts) <==> totalAttempts.GetOr(0) > 0
  {
  }
}
