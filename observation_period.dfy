/** `formatUTCTime(_:)` of the observation-period section: it shortens an
    ISO-8601 UTC timestamp such as "2020-10-19T18:32:20Z" to "18:32 UTC". */
module ObservationPeriod {
  import opened Wrappers
  import opened SwiftStrings

  /** When both a `T` and a `Z` occur, the first `Z` comes after the first
      `T`. Otherwise the range from just after the `T` up to the `Z` is
      reversed, and Swift traps on it. */
  predicate ZAfterT(utc: string) {
    'T' in utc && 'Z' in utc ==> FirstIndex(utc, 'T').value < FirstIndex(utc, 'Z').value
  }

  /** The text strictly between the first `T` and the first `Z`. */
  function TimeText(utc: string): (time: string)
    requires 'T' in utc && 'Z' in utc && ZAfterT(utc)
    ensures 'Z' !in time
  {
    var t, z := FirstIndex(utc, 'T').value, FirstIndex(utc, 'Z').value;
    assert utc[..z] == utc[..t + 1] + utc[t + 1..z];
    utc[t + 1..z]
  }

  /** The time text is exactly what lies between the first `T` and the
      first `Z`: the timestamp is the part up to and including the `T`, the
      time text, and the part from the `Z` on. */
  lemma TimeTextBetween(utc: string)
    requires 'T' in utc && 'Z' in utc && ZAfterT(utc)
    ensures var t, z := FirstIndex(utc, 'T').value, FirstIndex(utc, 'Z').value;
      utc == utc[..t + 1] + TimeText(utc) + utc[z..]
  {
    var t, z := FirstIndex(utc, 'T').value, FirstIndex(utc, 'Z').value;
    assert utc == utc[..t + 1] + utc[t + 1..z] + utc[z..];
  }

  function EndsWith(s: string, suffix: string): bool {
    |suffix| <= |s| && s[|s| - |suffix|..] == suffix
  }

  /** The timestamp is shown unchanged unless it has both a `T` and a `Z` and
      its time text splits on `:` into at least two non-empty pieces; then it
      is the first two pieces joined by `:`, followed by " UTC". */
  function FormatUTCTime(utc: string): (shown: string)
    requires ZAfterT(utc)
    ensures 'T' !in utc || 'Z' !in utc ==> shown == utc
    ensures shown != utc ==> EndsWith(shown, " UTC") && ':' in shown
    ensures 'T' in utc && 'Z' in utc && |Split(TimeText(utc), ':')| < 2 ==> shown == utc
    ensures 'T' in utc && 'Z' in utc && |Split(TimeText(utc), ':')| >= 2 ==>
      shown == Split(TimeText(utc), ':')[0] + ":" + Split(TimeText(utc), ':')[1] + " UTC"
  {
    match (FirstIndex(utc, 'T'), FirstIndex(utc, 'Z'))
    case (Some(t), Some(z)) =>
      var components := Split(utc[t + 1..z], ':');
      if |components| >= 2 then
        var shown := components[0] + ":" + components[1] + " UTC";
        assert shown[|components[0]|] == ':';
        shown
      else utc
    case _ => utc
  }

  /** A text made only of separators splits into no pieces at all. */
  lemma {:induction false} SplitOnlySeparators(s: string, sep: char)
    requires forall i :: 0 <= i < |s| ==> s[i] == sep
    ensures Split(s, sep) == []
  {
    WithoutOnlySeparators(s, sep);
  }

  lemma {:induction false} WithoutOnlySeparators(s: string, sep: char)
    requires forall i :: 0 <= i < |s| ==> s[i] == sep
    ensures Without(s, sep) == []
    decreases |s|
  {
    if s != [] {
      WithoutOnlySeparators(s[1..], sep);
    }
  }

  /** A timestamp `date T lead hh gap mm rest Z tail` is shown as
      `hh:mm UTC`, where `lead` is any run of colons, `gap` a non-empty run
      of colons, `hh` and `mm` non-empty and free of colons, and `rest`
      (seconds and the like) empty or starting with a colon. The date has no
      `T` or `Z`, and no `Z` comes before the one that ends the time. */
  lemma FormatHourMinute(date: string, lead: string, hh: string, gap: string, mm: string,
                         rest: string, tail: string)
    requires 'T' !in date && 'Z' !in date
    requires forall i :: 0 <= i < |lead| ==> lead[i] == ':'
    requires gap != [] && forall i :: 0 <= i < |gap| ==> gap[i] == ':'
    requires hh != [] && mm != [] && ':' !in hh && ':' !in mm
    requires 'Z' !in hh && 'Z' !in mm && 'Z' !in rest
    requires rest == [] || rest[0] == ':'
    ensures var utc := date + ['T'] + lead + hh + gap + mm + rest + ['Z'] + tail;
      ZAfterT(utc) && FormatUTCTime(utc) == hh + ":" + mm + " UTC"
  {
    var time := lead + hh + gap + mm + rest;
    var head := date + ['T'] + time;
    var utc := head + ['Z'] + tail;
    assert utc == date + ['T'] + lead + hh + gap + mm + rest + ['Z'] + tail;
    assert utc == date + ['T'] + (time + ['Z'] + tail);
    FirstIndexAfter(date, 'T', time + ['Z'] + tail);
    assert 'Z' !in lead && 'Z' !in gap;
    assert 'Z' !in time;
    assert 'Z' !in head;
    FirstIndexAfter(head, 'Z', tail);
    assert utc[|date| + 1..|head|] == time;
    SplitFirstTwoPieces(lead, hh, gap, mm, rest, ':');
  }

  /** The example of the source's comment. */
  lemma FormatUTCTimeExample()
    ensures ZAfterT("2020-10-19T18:32:20Z") && FormatUTCTime("2020-10-19T18:32:20Z") == "18:32 UTC"
  {
    var date, hh, mm, rest := "2020-10-19", "18", "32", ":20";
    assert date + ['T'] + [] + hh + [':'] + mm + rest + ['Z'] + [] == "2020-10-19T18:32:20Z";
    FormatHourMinute(date, [], hh, [':'], mm, rest, []);
    assert hh + ":" + mm + " UTC" == "18:32 UTC";
  }

  /** A bare date has no `T` and is shown unchanged. */
  lemma FormatBareDate()
    ensures ZAfterT("2024-10-15") && FormatUTCTime("2024-10-15") == "2024-10-15"
  {
    assert forall i :: 0 <= i < |"2024-10-15"| ==> "2024-10-15"[i] != 'T';
  }

  /** With nothing but colons between the `T` and the `Z`, the timestamp is
      shown unchanged. */
  lemma FormatOnlyColons(date: string, colons: string, tail: string)
    requires 'T' !in date && 'Z' !in date
    requires forall i :: 0 <= i < |colons| ==> colons[i] == ':'
    ensures var utc := date + ['T'] + colons + ['Z'] + tail;
      ZAfterT(utc) && FormatUTCTime(utc) == utc
  {
    var head := date + ['T'] + colons;
    var utc := head + ['Z'] + tail;
    assert utc == date + ['T'] + (colons + ['Z'] + tail);
    FirstIndexAfter(date, 'T', colons + ['Z'] + tail);
    assert 'Z' !in colons;
    assert 'Z' !in head;
    FirstIndexAfter(head, 'Z', tail);
    assert utc[|date| + 1..|head|] == colons;
    SplitOnlySeparators(colons, ':');
  }
}
