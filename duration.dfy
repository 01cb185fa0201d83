/**
 * Reading of the video provider's duration strings.
 *
 * The scraper reads the designator form of an ISO 8601 duration (section 4.4.3.2 of
 * ISO 8601:2004) with the pattern
 *   P(?:(\d+)D)?T(?:(\d+)H)?(?:(\d+)M)?(?:(\d+)S)?
 * anchored at the start of the string only. Each optional group is greedy and nothing
 * after it can fail, so a group is taken exactly when the longest run of digits at the
 * cursor is followed by the group's letter; otherwise the group is skipped and the
 * cursor does not move. Whatever follows the last group is ignored.
 */
module Duration {
  import opened Wrappers

  /** An ASCII decimal digit: what `\d` and `int()` accept in this model. */
  predicate IsDigit(c: char) {
    '0' <= c <= '9'
  }

  predicate AllDigits(s: string) {
    forall i | 0 <= i < |s| :: IsDigit(s[i])
  }

  /** What one `\d+` captures: a non-empty run of digits. */
  type Numeral = s: string | 0 < |s| && AllDigits(s) witness "0"

  /** The value `int()` gives a string of decimal digits. */
  function DecimalValue(s: string): nat
    requires AllDigits(s)
  {
    if s == [] then 0 else 10 * DecimalValue(s[..|s| - 1]) + (s[|s| - 1] as int - '0' as int)
  }

  /** How far a greedy `\d+` reaches from the front of `t`. */
  function DigitPrefix(t: string): (n: nat)
    ensures n <= |t| && AllDigits(t[..n])
    ensures n == |t| || !IsDigit(t[n])
  {
    if t != [] && IsDigit(t[0]) then
      var n := 1 + DigitPrefix(t[1..]);
      assert t[..n] == [t[0]] + t[1..][..n - 1];
      n
    else 0
  }

  /** The text one group stands for: its digits and its letter, or nothing when it was skipped. */
  function Designator(n: Option<Numeral>, unit: char): string {
    match n
    case None => ""
    case Some(digits) => digits + [unit]
  }

  /**
   * One optional group `(?:(\d+)U)?` read from the front of `t`: the digits it captured,
   * if any, and the text after it.
   */
  function Group(t: string, unit: char): (g: (Option<Numeral>, string))
    ensures t == Designator(g.0, unit) + g.1
  {
    var n := DigitPrefix(t);
    if 0 < n < |t| && t[n] == unit then
      assert t == t[..n] + [unit] + t[n + 1..];
      (Some(t[..n]), t[n + 1..])
    else (None, t)
  }

  /** The four named groups of the pattern. */
  datatype Components = Components(
    days: Option<Numeral>,
    hours: Option<Numeral>,
    minutes: Option<Numeral>,
    seconds: Option<Numeral>)

  /** A successful match: the groups and the text after the matched prefix. */
  datatype Match = Match(groups: Components, rest: string)

  /** The text a match with these groups covers. */
  function Render(c: Components): string {
    "P" + Designator(c.days, 'D') + "T" + Designator(c.hours, 'H')
      + Designator(c.minutes, 'M') + Designator(c.seconds, 'S')
  }

  /** A group's value, where a skipped group counts as 0. */
  function Value(n: Option<Numeral>): nat {
    match n
    case None => 0
    case Some(digits) => DecimalValue(digits)
  }

  function TotalSeconds(c: Components): nat {
    Value(c.days) * 86400 + Value(c.hours) * 3600 + Value(c.minutes) * 60 + Value(c.seconds)
  }

  /** `pattern.match(s)`: the groups of the longest prefix the pattern reads, or no match. */
  function MatchPrefix(s: string): (m: Option<Match>)
    ensures m.Some? ==> s == Render(m.value.groups) + m.value.rest
  {
    if s == [] || s[0] != 'P' then None
    else
      var d := Group(s[1..], 'D');
      if d.1 == [] || d.1[0] != 'T' then None
      else
        var h := Group(d.1[1..], 'H');
        var m := Group(h.1, 'M');
        var sec := Group(m.1, 'S');
        var c := Components(d.0, h.0, m.0, sec.0);
        MatchedText(s, c, d.1, h.1, m.1, sec.1);
        Some(Match(c, sec.1))
  }

  /** The text read group by group is the rendering of the groups followed by the rest. */
  lemma MatchedText(s: string, c: Components, afterDays: string, afterHours: string, afterMinutes: string, rest: string)
    requires s != [] && s[0] == 'P' && afterDays != [] && afterDays[0] == 'T'
    requires s[1..] == Designator(c.days, 'D') + afterDays
    requires afterDays[1..] == Designator(c.hours, 'H') + afterHours
    requires afterHours == Designator(c.minutes, 'M') + afterMinutes
    requires afterMinutes == Designator(c.seconds, 'S') + rest
    ensures s == Render(c) + rest
  {
    assert s == "P" + s[1..];
    assert afterDays == "T" + afterDays[1..];
    RenderSplit(c, rest);
  }

  /** A rendered duration followed by more text, grouped from the right. */
  lemma RenderSplit(c: Components, rest: string)
    ensures Render(c) + rest == "P" + (Designator(c.days, 'D') + ("T" + (Designator(c.hours, 'H')
      + (Designator(c.minutes, 'M') + (Designator(c.seconds, 'S') + rest)))))
  {
  }

  /** `parse_duration`: total seconds of the matched groups, or 0 when the pattern does not match. */
  function ParseDuration(s: string): (n: nat)
    ensures !HasHead(s) ==> n == 0
  {
    match MatchPrefix(s)
    case None => 0
    case Some(m) => MatchHasHead(s); TotalSeconds(m.groups)
  }

  // ---------------------------------------------------------------------------
  // What the pattern accepts, stated without the matcher.

  /** `t` opens with digits immediately followed by `unit`. */
  predicate BeginsWithGroup(t: string, unit: char) {
    exists k | 0 < k < |t| :: AllDigits(t[..k]) && t[k] == unit
  }

  /** `s` opens with `P`, optionally a day count and `D`, then `T`: the part of the pattern that is not optional. */
  predicate HasHead(s: string) {
    && 2 <= |s| && s[0] == 'P'
    && (s[1] == 'T' || exists k | 2 <= k < |s| - 1 :: AllDigits(s[1..k]) && s[k] == 'D' && s[k + 1] == 'T')
  }

  /**
   * Nothing after the last group of `c` could be read as one of the groups that may
   * still follow it: the text `rest` is left alone by the pattern.
   */
  predicate Unclaimed(c: Components, rest: string) {
    && (c.seconds.None? ==> !BeginsWithGroup(rest, 'S'))
    && (c.seconds.None? && c.minutes.None? ==> !BeginsWithGroup(rest, 'M'))
    && (c.seconds.None? && c.minutes.None? && c.hours.None? ==> !BeginsWithGroup(rest, 'H'))
  }

  predicate IsUnitLetter(c: char) {
    c == 'D' || c == 'H' || c == 'M' || c == 'S'
  }

  // ---------------------------------------------------------------------------
  // Lemmas about one group.

  lemma {:induction false} DigitPrefixOf(n: string, after: string)
    requires AllDigits(n)
    requires after == [] || !IsDigit(after[0])
    ensures DigitPrefix(n + after) == |n|
  {
    if n != [] {
      assert (n + after)[1..] == n[1..] + after;
      DigitPrefixOf(n[1..], after);
    } else {
      assert n + after == after;
    }
  }

  lemma GroupTakes(n: Numeral, unit: char, later: string)
    requires IsUnitLetter(unit)
    ensures Group(n + [unit] + later, unit) == (Some(n), later)
  {
    var t := n + [unit] + later;
    assert t == n + ([unit] + later);
    DigitPrefixOf(n, [unit] + later);
    assert t[..|n|] == n;
    assert t[|n| + 1..] == later;
  }

  /** A group is skipped unless the text opens with digits and the group's letter. */
  lemma GroupSkips(t: string, unit: char)
    ensures Group(t, unit) == (None, t) || BeginsWithGroup(t, unit)
  {
    var n := DigitPrefix(t);
    if 0 < n < |t| && t[n] == unit {
      assert AllDigits(t[..n]) && t[n] == unit;
    }
  }

  lemma GroupTakenWhenBegun(t: string, unit: char)
    requires IsUnitLetter(unit)
    requires BeginsWithGroup(t, unit)
    ensures Group(t, unit).0.Some?
  {
    var k :| 0 < k < |t| && AllDigits(t[..k]) && t[k] == unit;
    assert t == t[..k] + t[k..];
    DigitPrefixOf(t[..k], t[k..]);
  }

  lemma NonDigitBeginsNoGroup(t: string, unit: char)
    requires t != [] && !IsDigit(t[0])
    ensures !BeginsWithGroup(t, unit)
  {
    forall k | 0 < k < |t|
      ensures !AllDigits(t[..k])
    {
      assert t[..k][0] == t[0];
    }
  }

  /** A group reads back the designator in front of it, provided a skipped group leaves the text after it alone. */
  lemma GroupReadsDesignator(n: Option<Numeral>, unit: char, later: string)
    requires IsUnitLetter(unit)
    requires n.None? ==> !BeginsWithGroup(later, unit)
    ensures Group(Designator(n, unit) + later, unit) == (n, later)
  {
    match n
    case None =>
      assert Designator(n, unit) + later == later;
      GroupSkips(later, unit);
    case Some(digits) =>
      GroupTakes(digits, unit, later);
  }

  /** A designator with another letter cannot be read as a group for `unit`. */
  lemma DesignatorBlocks(n: Option<Numeral>, u: char, later: string, unit: char)
    requires IsUnitLetter(u) && IsUnitLetter(unit) && u != unit
    requires n.None? ==> !BeginsWithGroup(later, unit)
    ensures !BeginsWithGroup(Designator(n, u) + later, unit)
  {
    match n
    case None =>
      assert Designator(n, u) + later == later;
    case Some(digits) =>
      var t := Designator(n, u) + later;
      forall k | 0 < k < |t|
        ensures !AllDigits(t[..k]) || t[k] != unit
      {
        if k < |digits| {
          assert t[k] == digits[k];
        } else if k == |digits| {
          assert t[k] == u;
        } else {
          assert t[..k][|digits|] == u;
        }
      }
  }

  // ---------------------------------------------------------------------------
  // What `parse_duration` computes.

  /**
   * The pattern reads a rendered duration back into exactly its own groups, and stops in
   * front of `rest`, precisely when `rest` does not continue a group that may still follow.
   */
  lemma MatchRendered(c: Components, rest: string)
    ensures MatchPrefix(Render(c) + rest) == Some(Match(c, rest)) <==> Unclaimed(c, rest)
  {
    var s := Render(c) + rest;
    var xs := Designator(c.seconds, 'S') + rest;
    var xm := Designator(c.minutes, 'M') + xs;
    var xh := Designator(c.hours, 'H') + xm;
    RenderSplit(c, rest);
    assert s[1..] == Designator(c.days, 'D') + ("T" + xh);
    NonDigitBeginsNoGroup("T" + xh, 'D');
    GroupReadsDesignator(c.days, 'D', "T" + xh);
    assert ("T" + xh)[1..] == xh;
    if Unclaimed(c, rest) {
      GroupReadsDesignator(c.seconds, 'S', rest);
      if c.minutes.None? {
        DesignatorBlocks(c.seconds, 'S', rest, 'M');
      }
      GroupReadsDesignator(c.minutes, 'M', xs);
      if c.hours.None? {
        if c.minutes.None? {
          DesignatorBlocks(c.seconds, 'S', rest, 'H');
        }
        DesignatorBlocks(c.minutes, 'M', xs, 'H');
      }
      GroupReadsDesignator(c.hours, 'H', xm);
    } else if MatchPrefix(s) == Some(Match(c, rest)) {
      var h := Group(xh, 'H');
      var m := Group(h.1, 'M');
      var sec := Group(m.1, 'S');
      assert h.0 == c.hours && m.0 == c.minutes && sec.0 == c.seconds && sec.1 == rest;
      if c.seconds.None? && BeginsWithGroup(rest, 'S') {
        GroupTakenWhenBegun(rest, 'S');
      } else if c.seconds.None? && c.minutes.None? && BeginsWithGroup(rest, 'M') {
        GroupTakenWhenBegun(rest, 'M');
      } else {
        assert c.seconds.None? && c.minutes.None? && c.hours.None? && BeginsWithGroup(rest, 'H');
        GroupTakenWhenBegun(rest, 'H');
      }
    }
  }

  /** Missing groups count as 0 and text the pattern leaves alone does not change the result. */
  lemma ParseRendered(c: Components, rest: string)
    requires Unclaimed(c, rest)
    ensures ParseDuration(Render(c) + rest) == TotalSeconds(c)
  {
    MatchRendered(c, rest);
  }

  /** Every match opens with the mandatory head. */
  lemma MatchHasHead(s: string)
    requires MatchPrefix(s).Some?
    ensures HasHead(s)
  {
    var c := MatchPrefix(s).value.groups;
    var rest := MatchPrefix(s).value.rest;
    RenderSplit(c, rest);
    HeadOfRendered(c.days, Designator(c.hours, 'H') + (Designator(c.minutes, 'M') + (Designator(c.seconds, 'S') + rest)));
  }

  lemma HeadOfRendered(days: Option<Numeral>, tail: string)
    ensures HasHead("P" + (Designator(days, 'D') + ("T" + tail)))
  {
    var s := "P" + (Designator(days, 'D') + ("T" + tail));
    match days
    case None =>
      assert s[1] == 'T';
    case Some(digits) =>
      var k := 1 + |digits|;
      assert s[1..k] == digits;
      assert s[k] == 'D' && s[k + 1] == 'T';
  }

  /** Every string that opens with the mandatory head is matched. */
  lemma HeadIsMatched(s: string)
    requires HasHead(s)
    ensures MatchPrefix(s).Some?
  {
    if s[1] == 'T' {
      NonDigitBeginsNoGroup(s[1..], 'D');
      GroupSkips(s[1..], 'D');
    } else {
      var k :| 2 <= k < |s| - 1 && AllDigits(s[1..k]) && s[k] == 'D' && s[k + 1] == 'T';
      var digits: Numeral := s[1..k];
      assert s[1..] == digits + ['D'] + s[k + 1..];
      GroupTakes(digits, 'D', s[k + 1..]);
    }
  }

  /** The pattern matches exactly the strings that open with `P`, an optional day count, and `T`. */
  lemma MatchIffHead(s: string)
    ensures MatchPrefix(s).Some? <==> HasHead(s)
  {
    if MatchPrefix(s).Some? {
      MatchHasHead(s);
    }
    if HasHead(s) {
      HeadIsMatched(s);
    }
  }

  /** Worked value of `parse_duration`: minutes and seconds. */
  lemma ParseMinutesSecondsExample()
    ensures ParseDuration("PT1M30S") == 90
  {
    var one: Numeral := "1";
    var thirty: Numeral := "30";
    assert DecimalValue(thirty) == 30 by {
      assert thirty[..1] == "3";
    }
    var c := Components(None, None, Some(one), Some(thirty));
    assert Render(c) + "" == "PT1M30S";
    ParseRendered(c, "");
  }

  /** Worked value of `parse_duration`: days and hours. */
  lemma ParseDaysHoursExample()
    ensures ParseDuration("P1DT2H") == 93600
  {
    var one: Numeral := "1";
    var two: Numeral := "2";
    var c := Components(Some(one), Some(two), None, None);
    assert Render(c) + "" == "P1DT2H";
    ParseRendered(c, "");
  }

  /** Worked value of `parse_duration`: the default duration of a video without one. */
  lemma ParseZeroExample()
    ensures ParseDuration("PT0S") == 0
  {
    var zero: Numeral := "0";
    var c := Components(None, None, None, Some(zero));
    assert Render(c) + "" == "PT0S";
    ParseRendered(c, "");
  }

  /** Worked value: a group out of order ends the match, and what follows is ignored. */
  lemma ParseOutOfOrderExample()
    ensures ParseDuration("PT30S1M") == 30
  {
    var thirty: Numeral := "30";
    assert DecimalValue(thirty) == 30 by {
      assert thirty[..1] == "3";
    }
    var c := Components(None, None, None, Some(thirty));
    assert Render(c) + "1M" == "PT30S1M";
    ParseRendered(c, "1M");
  }

  /** Worked value: digits without a designator letter are ignored. */
  lemma ParseDanglingDigitsExample()
    ensures ParseDuration("PT1H30") == 3600
  {
    var one: Numeral := "1";
    var c := Components(None, Some(one), None, None);
    assert Render(c) + "30" == "PT1H30";
    assert !BeginsWithGroup("30", 'S') && !BeginsWithGroup("30", 'M') by {
      assert "30"[1] == '0';
    }
    ParseRendered(c, "30");
  }

  /** Worked values: without the head `P`, optional days, `T`, the result is 0. */
  lemma ParseNoHeadExamples()
    ensures ParseDuration("garbage") == 0
    ensures ParseDuration("P1D") == 0
    ensures ParseDuration("P1W") == 0
  {
  }

  // ---------------------------------------------------------------------------
  // Classification.

  /** The stored `format_type`. */
  datatype FormatType = Shorts | Video

  /** The format rule: at most 60 seconds is a short, anything longer a video. */
  function FormatOf(seconds: nat): (f: FormatType)
    ensures f == Shorts <==> seconds <= 60
    ensures f == Video <==> 60 < seconds
  {
    if seconds <= 60 then Shorts else Video
  }

  /** The label stored in the `format_type` column and accepted as a walk's video type. */
  function FormatName(f: FormatType): (r: string)
    ensures r == "shorts" <==> f == Shorts
    ensures r == "video" <==> f == Video
  {
    match f
    case Shorts => "shorts"
    case Video => "video"
  }

  /** A duration's label is `shorts` exactly up to 60 seconds and `video` exactly beyond. */
  lemma FormatLabels(seconds: nat)
    ensures FormatName(FormatOf(seconds)) == "shorts" <==> seconds <= 60
    ensures FormatName(FormatOf(seconds)) == "video" <==> 60 < seconds
  {
  }
}
