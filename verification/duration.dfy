/**
 * parse_duration_to_minutes: the ISO 8601 duration string of a video (`PT1H2M3S`,
 * `P1DT2H`) turned into whole minutes.
 *
 * The source matches `P(?:(\d+)D)?T?(?:(\d+)H)?(?:(\d+)M)?(?:(\d+)S)?` with re.match,
 * which anchors at the start only. Everything after `P` is optional and each optional
 * part is tried greedily; a digit run can only be followed by its designator letter
 * when the whole run is, so the regex behaves as one left-to-right scan. The scan is
 * modelled directly (MatchDuration). Format is a right inverse of it: the scan reads
 * back every rendered duration (FormatRoundTrip).
 */
module Duration {
  import opened Basics

  /** Text of the ValueError raised when the regex does not match. */
  const InvalidFormat := "Formato de duração inválido."


  predicate IsDigit(c: char)
  {
    '0' <= c <= '9'
  }

  /** The n characters of s from position i are decimal digits. */
  predicate DigitsAt(s: string, i: nat, n: nat)
    requires i + n <= |s|
  {
    forall k :: i <= k < i + n ==> IsDigit(s[k])
  }

  function DigitValue(c: char): (d: nat)
    requires IsDigit(c)
    ensures d < 10
  {
    c as int - '0' as int
  }

  function DigitChar(d: nat): (c: char)
    requires d < 10
    ensures IsDigit(c) && DigitValue(c) == d
  {
    ('0' as int + d) as char
  }

  /** int() of the n digits of s from position i, most significant first (leading zeros allowed). */
  function NumberAt(s: string, i: nat, n: nat): nat
    requires i + n <= |s| && DigitsAt(s, i, n)
  {
    if n == 0 then 0 else 10 * NumberAt(s, i, n - 1) + DigitValue(s[i + n - 1])
  }

  /** The same digits elsewhere have the same value. */
  lemma {:induction false} NumberAtShift(s: string, i: nat, t: string, j: nat, n: nat)
    requires i + n <= |s| && j + n <= |t| && DigitsAt(s, i, n)
    requires s[i..i + n] == t[j..j + n]
    ensures DigitsAt(t, j, n) && NumberAt(t, j, n) == NumberAt(s, i, n)
    decreases n
  {
    forall k | j <= k < j + n
      ensures t[k] == s[k - j + i]
    {
      assert t[k] == t[j..j + n][k - j];
    }
    if n > 0 {
      assert s[i..i + n - 1] == s[i..i + n][..n - 1];
      assert t[j..j + n - 1] == t[j..j + n][..n - 1];
      NumberAtShift(s, i, t, j, n - 1);
    }
  }

  /** The decimal numeral of n without leading zeros; NumberAt reads it back. */
  function Numeral(n: nat): (ds: string)
    ensures |ds| > 0 && DigitsAt(ds, 0, |ds|)
    ensures NumberAt(ds, 0, |ds|) == n
  {
    if n < 10 then [DigitChar(n)]
    else
      var init := Numeral(n / 10);
      var ds := init + [DigitChar(n % 10)];
      assert ds[0..|init|] == init[0..|init|];
      NumberAtShift(init, 0, ds, 0, |init|);
      ds
  }

  /** Length of the longest run of digits that starts at position i (what a greedy \d+ takes). */
  function DigitRun(s: string, i: nat): (n: nat)
    requires i <= |s|
    ensures i + n <= |s|
    decreases |s| - i
  {
    if i < |s| && IsDigit(s[i]) then
      1 + DigitRun(s, i + 1)
    else 0
  }

  /** The run is all digits and stops at the end of s or at a non-digit. */
  lemma {:induction false} DigitRunStops(s: string, i: nat)
    requires i <= |s|
    ensures DigitsAt(s, i, DigitRun(s, i))
    ensures i + DigitRun(s, i) == |s| || !IsDigit(s[i + DigitRun(s, i)])
    decreases |s| - i
  {
    if i < |s| && IsDigit(s[i]) {
      DigitRunStops(s, i + 1);
    }
  }

  /** What one optional group `(?:(\d+)L)?` captured at a position: its number, if any, and where the scan goes on. */
  datatype Capture = Capture(number: Option<nat>, next: nat)

  /** The group `(?:(\d+)L)?` tried at position i: it takes the whole digit run there when the letter follows it, and nothing otherwise. */
  function MatchGroup(s: string, i: nat, letter: char): (g: Capture)
    requires i <= |s|
    ensures i <= g.next <= |s|
    ensures g.number.None? <==> g.next == i
    ensures g.number.Some? ==> i + 2 <= g.next && s[g.next - 1] == letter
  {
    var n := DigitRun(s, i);
    DigitRunStops(s, i);
    if 0 < n && i + n < |s| && s[i + n] == letter then Capture(Some(NumberAt(s, i, n)), i + n + 1)
    else Capture(None, i)
  }

  /** What a group captures: the number of the whole digit run at i exactly when that run is non-empty and followed by the letter, consuming both. */
  lemma GroupCapture(s: string, i: nat, letter: char)
    requires i <= |s|
    ensures var g, n := MatchGroup(s, i, letter), DigitRun(s, i);
            && (g.number.Some? <==> 0 < n && i + n < |s| && s[i + n] == letter)
            && (g.number.Some? ==> g.next == i + n + 1 && DigitsAt(s, i, n) && g.number.value == NumberAt(s, i, n))
  {
    DigitRunStops(s, i);
  }

  /** The four optional groups of the pattern: days, hours, minutes, seconds. */
  datatype Components = Components(days: Option<nat>, hours: Option<nat>, minutes: Option<nat>, seconds: Option<nat>)

  /** A successful re.match: the groups and the length of the matched prefix. */
  datatype Match = Match(groups: Components, end: nat)

  /** One element of the pattern after its leading `P`: an optional group `(?:(\d+)L)?` or an optional letter `L?`. */
  datatype Element = Group(letter: char) | OptionalLetter(letter: char)

  /** The time groups `(?:(\d+)H)?(?:(\d+)M)?(?:(\d+)S)?`. */
  const TimeGroups: seq<Element> := [Group('H'), Group('M'), Group('S')]

  /** `(?:(\d+)D)?T?` followed by the time groups. */
  const Pattern: seq<Element> := [Group('D'), OptionalLetter('T')] + TimeGroups

  /** Where an optional letter `L?` tried at position i leaves the scan. */
  function SkipLetter(s: string, i: nat, letter: char): (j: nat)
    requires i <= |s|
    ensures i <= j <= |s|
  {
    if i < |s| && s[i] == letter then i + 1 else i
  }

  /** One element tried at position i; an optional letter captures no number. */
  function MatchElement(s: string, i: nat, e: Element): (c: Capture)
    requires i <= |s|
    ensures i <= c.next <= |s|
  {
    match e
    case Group(letter) => MatchGroup(s, i, letter)
    case OptionalLetter(letter) => Capture(None, SkipLetter(s, i, letter))
  }

  /** The numbers captured by a scan, one entry per element, and where it ended. */
  datatype Scan = Scan(numbers: seq<Option<nat>>, end: nat)

  /** The elements tried one after the other from position i, each greedily and without backtracking. */
  function ScanElements(s: string, i: nat, es: seq<Element>): (r: Scan)
    requires i <= |s|
    ensures i <= r.end <= |s|
    ensures |r.numbers| == |es|
    decreases |es|, 1
  {
    if es == [] then Scan([], i) else ScanFirst(s, i, es)
  }

  /** The first element tried at position i, then the others from where it left the scan. */
  function ScanFirst(s: string, i: nat, es: seq<Element>): (r: Scan)
    requires i <= |s| && es != []
    ensures i <= r.end <= |s|
    ensures |r.numbers| == |es|
    decreases |es|, 0
  {
    var c := MatchElement(s, i, es[0]);
    var rest := ScanElements(s, c.next, es[1..]);
    Scan([c.number] + rest.numbers, rest.end)
  }

  /** One step of the scan: the first element, then the rest. */
  lemma ScanStep(s: string, i: nat, es: seq<Element>)
    requires i <= |s| && es != []
    ensures ScanElements(s, i, es).numbers
         == [MatchElement(s, i, es[0]).number] + ScanElements(s, MatchElement(s, i, es[0]).next, es[1..]).numbers
    ensures ScanElements(s, i, es).end == ScanElements(s, MatchElement(s, i, es[0]).next, es[1..]).end
  {
  }

  /** re.match of the duration pattern at the start of s. */
  function MatchDuration(s: string): (m: Option<Match>)
    ensures m.Some? <==> |s| > 0 && s[0] == 'P'
    ensures m.Some? ==> 1 <= m.value.end <= |s|
  {
    if |s| == 0 || s[0] != 'P' then None
    else
      var r := ScanElements(s, 1, Pattern);
      Some(Match(Components(r.numbers[0], r.numbers[2], r.numbers[3], r.numbers[4]), r.end))
  }

  /** An absent group counts as 0. */
  function OrZero(v: Option<nat>): nat
  {
    if v.Some? then v.value else 0
  }

  /** parse_duration_to_minutes: fails exactly when the regex does not match, i.e. when s does not start with 'P'. */
  function ParseDurationToMinutes(s: string): (r: Result<nat>)
    ensures r.Err? <==> |s| == 0 || s[0] != 'P'
    ensures r.Err? ==> r.error == InvalidFormat
  {
    match MatchDuration(s)
    case None => Err(InvalidFormat)
    case Some(m) =>
      var c := m.groups;
      Ok(OrZero(c.days) * MinutesPerDay + OrZero(c.hours) * MinutesPerHour + OrZero(c.minutes)
         + OrZero(c.seconds) / SecondsPerMinute)
  }

  // ---------------------------------------------------------------------------
  // The inverse: rendering components in the ISO 8601 designator format

  /** A component with its designator letter. */
  datatype Field = Field(value: Option<nat>, designator: char)

  /** `nX` for a present component, nothing for an absent one. */
  function Part(f: Field): string
  {
    if f.value.Some? then Numeral(f.value.value) + [f.designator] else ""
  }

  function Parts(fs: seq<Field>): string
  {
    if fs == [] then "" else Part(fs[0]) + Parts(fs[1..])
  }

  function TimeFields(c: Components): seq<Field>
  {
    [Field(c.hours, 'H'), Field(c.minutes, 'M'), Field(c.seconds, 'S')]
  }

  /** The time designator T, written exactly when a time component is present. */
  function TimeMark(c: Components): string
  {
    if c.hours.Some? || c.minutes.Some? || c.seconds.Some? then "T" else ""
  }

  /** `P[nD][T[nH][nM][nS]]`, the form the video platform reports durations in. */
  function Format(c: Components): string
  {
    "P" + Part(Field(c.days, 'D')) + TimeMark(c) + Parts(TimeFields(c))
  }

  lemma DigitRunIs(s: string, i: nat, k: nat)
    requires i + k <= |s|
    requires DigitsAt(s, i, k)
    requires i + k == |s| || !IsDigit(s[i + k])
    ensures DigitRun(s, i) == k
    decreases k
  {
    if k > 0 {
      DigitRunIs(s, i + 1, k - 1);
    }
  }

  /** A group meets a rendered part (or a non-digit, when the part is absent): it captures the number exactly when the designators agree. */
  lemma GroupOnPart(pre: string, f: Field, rest: string, letter: char)
    requires !IsDigit(f.designator)
    requires f.value.None? ==> rest == [] || !IsDigit(rest[0])
    ensures MatchGroup(pre + Part(f) + rest, |pre|, letter)
         == if f.value.Some? && f.designator == letter then Capture(f.value, |pre| + |Part(f)|) else Capture(None, |pre|)
  {
    if f.value.Some? {
      GroupOnNumeral(pre, f.value.value, f.designator, rest, letter);
    } else {
      var s := pre + Part(f) + rest;
      assert s == pre + rest;
      assert DigitRun(s, |pre|) == 0 by {
        if rest != [] {
          assert s[|pre|] == rest[0];
        }
        DigitRunIs(s, |pre|, 0);
      }
    }
  }

  /** A group at a rendered numeral followed by its designator. */
  lemma GroupOnNumeral(pre: string, n: nat, designator: char, rest: string, letter: char)
    requires !IsDigit(designator)
    ensures MatchGroup(pre + (Numeral(n) + [designator]) + rest, |pre|, letter)
         == if designator == letter then Capture(Some(n), |pre| + |Numeral(n)| + 1) else Capture(None, |pre|)
  {
    var ds := Numeral(n);
    var s := pre + (ds + [designator]) + rest;
    assert s[|pre|..|pre| + |ds|] == ds[0..|ds|];
    assert s[|pre| + |ds|] == designator;
    NumberAtShift(ds, 0, s, |pre|, |ds|);
    DigitRunIs(s, |pre|, |ds|);
  }

  /** A group in front of a list of rendered parts whose later designators differ from its own letter. */
  lemma {:induction false} GroupOnParts(pre: string, fs: seq<Field>, letter: char)
    requires forall k :: 0 <= k < |fs| ==> !IsDigit(fs[k].designator)
    requires forall k :: 1 <= k < |fs| ==> fs[k].designator != letter
    ensures MatchGroup(pre + Parts(fs), |pre|, letter)
         == if fs != [] && fs[0].value.Some? && fs[0].designator == letter
            then Capture(fs[0].value, |pre| + |Part(fs[0])|)
            else Capture(None, |pre|)
    decreases |fs|
  {
    if fs == [] {
      assert pre + Parts(fs) == pre + Part(Field(None, 'P')) + "";
      GroupOnPart(pre, Field(None, 'P'), "", letter);
    } else if fs[0].value.Some? {
      assert pre + Parts(fs) == pre + Part(fs[0]) + Parts(fs[1..]);
      GroupOnPart(pre, fs[0], Parts(fs[1..]), letter);
    } else {
      assert pre + Parts(fs) == pre + Parts(fs[1..]);
      GroupOnParts(pre, fs[1..], letter);
    }
  }

  /** The values of a list of fields, in order. */
  function Values(fs: seq<Field>): (vs: seq<Option<nat>>)
    ensures |vs| == |fs|
  {
    if fs == [] then [] else [fs[0].value] + Values(fs[1..])
  }

  /** A run of groups reads back the rendered parts whose designators they expect, whatever precedes them. */
  lemma {:induction false} GroupsRoundTrip(pre: string, fs: seq<Field>, es: seq<Element>)
    requires |es| == |fs|
    requires forall k :: 0 <= k < |fs| ==> es[k] == Group(fs[k].designator) && !IsDigit(fs[k].designator)
    requires forall k, l :: 0 <= k < l < |fs| ==> fs[k].designator != fs[l].designator
    ensures ScanElements(pre + Parts(fs), |pre|, es) == Scan(Values(fs), |pre + Parts(fs)|)
    decreases |fs|
  {
    if fs == [] {
      assert pre + Parts(fs) == pre;
    } else {
      var s := pre + Parts(fs);
      var pre' := pre + Part(fs[0]);
      assert s == pre' + Parts(fs[1..]);
      GroupOnParts(pre, fs, fs[0].designator);
      assert MatchElement(s, |pre|, es[0]) == Capture(fs[0].value, |pre'|);
      GroupsRoundTrip(pre', fs[1..], es[1..]);
    }
  }

  /** The time groups read back the rendered time components. */
  lemma TimeRoundTrip(pre: string, c: Components)
    ensures ScanElements(pre + Parts(TimeFields(c)), |pre|, TimeGroups)
         == Scan([c.hours, c.minutes, c.seconds], |pre + Parts(TimeFields(c))|)
  {
    var fs := TimeFields(c);
    assert Values(fs) == [c.hours, c.minutes, c.seconds] by {
      assert Values(fs[2..]) == [c.seconds] + Values([]);
      assert Values(fs[1..]) == [c.minutes] + Values(fs[2..]);
    }
    GroupsRoundTrip(pre, fs, TimeGroups);
  }

  /** Without time components nothing follows the day part. */
  lemma NoTimeParts(c: Components)
    requires TimeMark(c) == ""
    ensures Parts(TimeFields(c)) == ""
  {
    var fs := TimeFields(c);
    assert Parts(fs[2..]) == "";
    assert Parts(fs[1..]) == "";
  }

  /** MatchDuration assembled from its stages: the day group, the optional T, the time groups. */
  lemma MatchDurationStages(s: string, d: Capture, p: nat, t: Scan)
    requires |s| > 0 && s[0] == 'P'
    requires MatchGroup(s, 1, 'D') == d
    requires d.next <= |s| && SkipLetter(s, d.next, 'T') == p
    requires p <= |s| && ScanElements(s, p, TimeGroups) == t
    ensures MatchDuration(s) == Some(Match(Components(d.number, t.numbers[0], t.numbers[1], t.numbers[2]), t.end))
  {
    var rest := Pattern[1..];
    assert rest == [OptionalLetter('T')] + TimeGroups && rest[1..] == TimeGroups;
    assert MatchElement(s, 1, Pattern[0]) == d;
    assert MatchElement(s, d.next, rest[0]) == Capture(None, p);
    ScanStep(s, d.next, rest);
    ScanStep(s, 1, Pattern);
  }

  /** The time groups assembled from the three groups they try in turn. */
  lemma TimeGroupsStages(s: string, p: nat, h: Capture, m: Capture, sec: Capture)
    requires p <= |s| && MatchGroup(s, p, 'H') == h
    requires h.next <= |s| && MatchGroup(s, h.next, 'M') == m
    requires m.next <= |s| && MatchGroup(s, m.next, 'S') == sec
    ensures ScanElements(s, p, TimeGroups) == Scan([h.number, m.number, sec.number], sec.next)
  {
    assert TimeGroups[1..] == [Group('M'), Group('S')];
    assert TimeGroups[1..][1..] == [Group('S')];
    assert TimeGroups[1..][1..][1..] == [];
  }

  /** The day group reads back the rendered day component. */
  lemma DayRoundTrip(c: Components)
    ensures MatchGroup(Format(c), 1, 'D') == Capture(c.days, 1 + |Part(Field(c.days, 'D'))|)
  {
    var tm, time := TimeMark(c), Parts(TimeFields(c));
    assert Format(c) == "P" + Part(Field(c.days, 'D')) + (tm + time);
    if tm == "" {
      NoTimeParts(c);
    }
    GroupOnPart("P", Field(c.days, 'D'), tm + time, 'D');
  }

  /** The optional T takes exactly the rendered time designator. */
  lemma TimeMarkRoundTrip(c: Components)
    ensures 1 + |Part(Field(c.days, 'D'))| <= |Format(c)|
    ensures SkipLetter(Format(c), 1 + |Part(Field(c.days, 'D'))|, 'T') == 1 + |Part(Field(c.days, 'D'))| + |TimeMark(c)|
  {
    var pre1 := "P" + Part(Field(c.days, 'D'));
    var s := Format(c);
    assert s == pre1 + (TimeMark(c) + Parts(TimeFields(c)));
    if TimeMark(c) == "T" {
      assert s[|pre1|] == 'T';
    } else if |pre1| < |s| {
      NoTimeParts(c);
    }
  }

  /** Round trip: the scan reads back exactly the components Format rendered, consuming all of it. */
  lemma FormatRoundTrip(c: Components)
    ensures MatchDuration(Format(c)) == Some(Match(c, |Format(c)|))
  {
    var s := Format(c);
    var pre := "P" + Part(Field(c.days, 'D')) + TimeMark(c);
    assert s == pre + Parts(TimeFields(c));
    DayRoundTrip(c);
    TimeMarkRoundTrip(c);
    TimeRoundTrip(pre, c);
    MatchDurationStages(s, Capture(c.days, 1 + |Part(Field(c.days, 'D'))|), |pre|, Scan([c.hours, c.minutes, c.seconds], |s|));
  }

  /** The minutes of a match: days*1440 + hours*60 + minutes + seconds div 60, absent components counted as 0. */
  lemma MinutesOfMatch(s: string, c: Components, e: nat)
    requires MatchDuration(s) == Some(Match(c, e))
    ensures ParseDurationToMinutes(s)
         == Ok(OrZero(c.days) * MinutesPerDay + OrZero(c.hours) * MinutesPerHour + OrZero(c.minutes)
            + OrZero(c.seconds) / SecondsPerMinute)
  {
  }

  /** The duration formula on rendered durations. */
  lemma ParseFormatted(c: Components)
    ensures ParseDurationToMinutes(Format(c))
         == Ok(OrZero(c.days) * MinutesPerDay + OrZero(c.hours) * MinutesPerHour + OrZero(c.minutes)
            + OrZero(c.seconds) / SecondsPerMinute)
  {
    var s := Format(c);
    FormatRoundTrip(c);
    MinutesOfMatch(s, c, |s|);
  }

  lemma DigitRunOnPrefix(s: string, e: nat, i: nat)
    requires i <= e <= |s|
    ensures DigitRun(s[..e], i) == Min(DigitRun(s, i), e - i)
  {
    var t := s[..e];
    var n := DigitRun(s, i);
    DigitRunStops(s, i);
    var k := Min(n, e - i);
    forall j | i <= j < i + k
      ensures IsDigit(t[j])
    {
      assert t[j] == s[j];
    }
    if k == n && i + n < e {
      assert t[i + n] == s[i + n];
    }
    DigitRunIs(t, i, k);
  }

  lemma GroupOnPrefix(s: string, e: nat, i: nat, letter: char)
    requires i <= e <= |s|
    requires MatchGroup(s, i, letter).next <= e
    ensures MatchGroup(s[..e], i, letter) == MatchGroup(s, i, letter)
  {
    var t := s[..e];
    DigitRunOnPrefix(s, e, i);
    var n := DigitRun(s, i);
    if i + n < e {
      assert t[i + n] == s[i + n];
      var run, prefixRun := s[i..i + n], t[i..i + n];
      assert run == prefixRun by {
        forall k | 0 <= k < n
          ensures run[k] == prefixRun[k]
        {
          assert t[i + k] == s[i + k];
        }
      }
      DigitRunStops(s, i);
      NumberAtShift(s, i, t, i, n);
    }
  }

  /** A scan that ends before e is the same on the first e characters of s. */
  lemma {:induction false} ScanOnPrefix(s: string, e: nat, i: nat, es: seq<Element>)
    requires i <= e <= |s|
    requires ScanElements(s, i, es).end <= e
    ensures ScanElements(s[..e], i, es) == ScanElements(s, i, es)
    decreases |es|
  {
    if es != [] {
      var c := MatchElement(s, i, es[0]);
      match es[0] {
        case Group(letter) =>
          GroupOnPrefix(s, e, i, letter);
        case OptionalLetter(letter) =>
          if i < e {
            assert s[..e][i] == s[i];
          }
      }
      ScanOnPrefix(s, e, c.next, es[1..]);
    }
  }

  /** Text after the matched prefix is ignored: cutting it off changes neither the match nor the minutes. */
  lemma TrailingTextIgnored(s: string)
    requires |s| > 0 && s[0] == 'P'
    ensures MatchDuration(s[..MatchDuration(s).value.end]) == MatchDuration(s)
    ensures ParseDurationToMinutes(s[..MatchDuration(s).value.end]) == ParseDurationToMinutes(s)
  {
    var e := MatchDuration(s).value.end;
    assert s[..e][0] == 'P';
    ScanOnPrefix(s, e, 1, Pattern);
  }

  /** PT1H30M is 90 minutes. */
  lemma ExampleHourAndHalf()
    ensures ParseDurationToMinutes("PT1H30M") == Ok(90)
  {
    var s := "PT1H30M";
    DigitRunIs(s, 1, 0);
    assert MatchGroup(s, 2, 'H') == Capture(Some(1), 4) by {
      DigitRunIs(s, 2, 1);
      assert NumberAt(s, 2, 1) == 1;
    }
    assert MatchGroup(s, 4, 'M') == Capture(Some(30), 7) by {
      DigitRunIs(s, 4, 2);
      assert NumberAt(s, 4, 2) == 30;
    }
    DigitRunIs(s, 7, 0);
    TimeGroupsStages(s, 2, Capture(Some(1), 4), Capture(Some(30), 7), Capture(None, 7));
    MatchDurationStages(s, Capture(None, 1), 2, Scan([Some(1), Some(30), None], 7));
    MinutesOfMatch(s, Components(None, Some(1), Some(30), None), 7);
  }

  /** P1D is 1440 minutes. */
  lemma ExampleOneDay()
    ensures ParseDurationToMinutes("P1D") == Ok(1440)
  {
    var s := "P1D";
    DigitRunIs(s, 1, 1);
    assert NumberAt(s, 1, 1) == 1;
    DigitRunIs(s, 3, 0);
    TimeGroupsStages(s, 3, Capture(None, 3), Capture(None, 3), Capture(None, 3));
    MatchDurationStages(s, Capture(Some(1), 3), 3, Scan([None, None, None], 3));
    MinutesOfMatch(s, Components(Some(1), None, None, None), 3);
  }

  /** Seconds are truncated to whole minutes: PT45S is 0. */
  lemma ExampleSecondsBelowMinute()
    ensures ParseDurationToMinutes("PT45S") == Ok(0)
  {
    var s := "PT45S";
    DigitRunIs(s, 1, 0);
    DigitRunIs(s, 2, 2);
    assert NumberAt(s, 2, 2) == 45;
    TimeGroupsStages(s, 2, Capture(None, 2), Capture(None, 2), Capture(Some(45), 5));
    MatchDurationStages(s, Capture(None, 1), 2, Scan([None, None, Some(45)], 5));
    MinutesOfMatch(s, Components(None, None, None, Some(45)), 5);
  }

  /** Seconds are truncated to whole minutes: PT90S is 1. */
  lemma ExampleSecondsAboveMinute()
    ensures ParseDurationToMinutes("PT90S") == Ok(1)
  {
    var s := "PT90S";
    DigitRunIs(s, 1, 0);
    DigitRunIs(s, 2, 2);
    assert NumberAt(s, 2, 2) == 90;
    TimeGroupsStages(s, 2, Capture(None, 2), Capture(None, 2), Capture(Some(90), 5));
    MatchDurationStages(s, Capture(None, 1), 2, Scan([None, None, Some(90)], 5));
    MinutesOfMatch(s, Components(None, None, None, Some(90)), 5);
  }

  /** A bare P is 0 minutes rather than an error. */
  lemma QuirkBareP()
    ensures ParseDurationToMinutes("P") == Ok(0)
  {
    var s := "P";
    DigitRunIs(s, 1, 0);
    TimeGroupsStages(s, 1, Capture(None, 1), Capture(None, 1), Capture(None, 1));
    MatchDurationStages(s, Capture(None, 1), 1, Scan([None, None, None], 1));
    MinutesOfMatch(s, Components(None, None, None, None), 1);
  }

  /** PT, with no component at all, is 0 minutes rather than an error. */
  lemma QuirkBareT()
    ensures ParseDurationToMinutes("PT") == Ok(0)
  {
    var s := "PT";
    DigitRunIs(s, 1, 0);
    DigitRunIs(s, 2, 0);
    TimeGroupsStages(s, 2, Capture(None, 2), Capture(None, 2), Capture(None, 2));
    MatchDurationStages(s, Capture(None, 1), 2, Scan([None, None, None], 2));
    MinutesOfMatch(s, Components(None, None, None, None), 2);
  }

  /** P1M, with no T, is one minute and not the ISO 8601 month. */
  lemma QuirkMonthIsMinute()
    ensures ParseDurationToMinutes("P1M") == Ok(1)
  {
    var s := "P1M";
    DigitRunIs(s, 1, 1);
    assert NumberAt(s, 1, 1) == 1;
    DigitRunIs(s, 3, 0);
    TimeGroupsStages(s, 1, Capture(None, 1), Capture(Some(1), 3), Capture(None, 3));
    MatchDurationStages(s, Capture(None, 1), 1, Scan([None, Some(1), None], 3));
    MinutesOfMatch(s, Components(None, None, Some(1), None), 3);
  }
}
