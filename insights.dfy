/** The dashboard's insight selection over domain summaries (strongest and
    weakest domain, prompt-hack choice, radar data) and its small display
    rules (gauge zones, delta tone, duration text), from
    ClarityDashboard.tsx. */
module Insights {
  import opened Common
  import opened Sorting
  import opened Domains

  // ---------------------------------------------------------------------
  // Strongest and weakest domain
  // ---------------------------------------------------------------------

  /** The reduction `current.overall > best.overall ? current : best`
      started from the first summary: the position it ends on. */
  function TopIndex(s: seq<DomainSummary>): (r: nat)
    requires s != []
    ensures r < |s|
    ensures forall j :: 0 <= j < |s| ==> s[j].overall <= s[r].overall
    ensures forall j :: 0 <= j < r ==> s[j].overall < s[r].overall
  {
    if |s| == 1 then 0
    else
      var b := TopIndex(s[..|s| - 1]);
      if s[|s| - 1].overall > s[b].overall then |s| - 1 else b
  }

  /** The reduction `current.overall < worst.overall ? current : worst`
      started from the first summary. */
  function WeakestIndex(s: seq<DomainSummary>): (r: nat)
    requires s != []
    ensures r < |s|
    ensures forall j :: 0 <= j < |s| ==> s[r].overall <= s[j].overall
    ensures forall j :: 0 <= j < r ==> s[r].overall < s[j].overall
  {
    if |s| == 1 then 0
    else
      var w := WeakestIndex(s[..|s| - 1]);
      if s[|s| - 1].overall < s[w].overall then |s| - 1 else w
  }

  /** `topDomain`: absent on no summaries. */
  function TopDomain(s: seq<DomainSummary>): (r: Option<DomainSummary>)
    ensures r.None? <==> s == []
    ensures r.Some? ==> r.value in s
  {
    if s == [] then None else Some(s[TopIndex(s)])
  }

  /** `weakestDomain`: absent on no summaries. */
  function WeakestDomain(s: seq<DomainSummary>): (r: Option<DomainSummary>)
    ensures r.None? <==> s == []
    ensures r.Some? ==> r.value in s
  {
    if s == [] then None else Some(s[WeakestIndex(s)])
  }

  /** The strongest domain has the highest overall score and is the first
      summary that has it; absent exactly when there are no summaries. */
  lemma TopDomainIsFirstMaximum(s: seq<DomainSummary>)
    ensures TopDomain(s).None? <==> s == []
    ensures TopDomain(s).Some? ==>
      exists i :: 0 <= i < |s| && TopDomain(s).value == s[i]
        && (forall j :: 0 <= j < |s| ==> s[j].overall <= s[i].overall)
        && (forall j :: 0 <= j < i ==> s[j].overall < s[i].overall)
  {
    if s != [] {
      var i := TopIndex(s);
      assert TopDomain(s).value == s[i];
    }
  }

  /** The weakest domain has the lowest overall score and is the first
      summary that has it; absent exactly when there are no summaries. */
  lemma WeakestDomainIsFirstMinimum(s: seq<DomainSummary>)
    ensures WeakestDomain(s).None? <==> s == []
    ensures WeakestDomain(s).Some? ==>
      exists i :: 0 <= i < |s| && WeakestDomain(s).value == s[i]
        && (forall j :: 0 <= j < |s| ==> s[i].overall <= s[j].overall)
        && (forall j :: 0 <= j < i ==> s[i].overall < s[j].overall)
  {
    if s != [] {
      var i := WeakestIndex(s);
      assert WeakestDomain(s).value == s[i];
    }
  }

  /** When every domain has the same score, the first one is both the
      strongest and the weakest. */
  lemma TieGoesToFirst(s: seq<DomainSummary>)
    requires s != []
    requires forall i :: 0 <= i < |s| ==> s[i].overall == s[0].overall
    ensures TopDomain(s) == Some(s[0]) && WeakestDomain(s) == Some(s[0])
  {
    TopDomainIsFirstMaximum(s);
    WeakestDomainIsFirstMinimum(s);
  }

  // ---------------------------------------------------------------------
  // Prompt hacks
  // ---------------------------------------------------------------------

  datatype PromptHack = PromptHack(id: string, domain: string, title: string, tip: string)

  /** The hacks the dashboard keeps after loading: those whose domain is
      not excluded, each as often as it occurs, in their original order
      (`UsableHacksSnocKept`, `UsableHacksSnocDropped`). */
  function UsableHacks(hacks: seq<PromptHack>): (r: seq<PromptHack>)
    ensures |r| <= |hacks|
    ensures forall i :: 0 <= i < |r| ==> r[i].domain !in Excluded
    ensures multiset(r) <= multiset(hacks)
    ensures forall h: PromptHack :: h.domain !in Excluded ==> multiset(r)[h] == multiset(hacks)[h]
  {
    if hacks == [] then []
    else
      var rest := UsableHacks(hacks[..|hacks| - 1]);
      var last := hacks[|hacks| - 1];
      assert hacks == hacks[..|hacks| - 1] + [last];
      if last.domain in Excluded then rest else rest + [last]
  }

  /** One more hack with a usable domain is kept, at the end. */
  lemma UsableHacksSnocKept(hacks: seq<PromptHack>, h: PromptHack)
    requires h.domain !in Excluded
    ensures UsableHacks(hacks + [h]) == UsableHacks(hacks) + [h]
  {
    assert (hacks + [h])[..|hacks|] == hacks;
  }

  /** One more hack with an excluded domain is dropped. */
  lemma UsableHacksSnocDropped(hacks: seq<PromptHack>, h: PromptHack)
    requires h.domain in Excluded
    ensures UsableHacks(hacks + [h]) == UsableHacks(hacks)
  {
    assert (hacks + [h])[..|hacks|] == hacks;
  }

  /** `hacks.find(hack => hack.domain === d)`: the position of the first
      match. */
  function FindHack(hacks: seq<PromptHack>, d: string): (r: Option<nat>)
    ensures r.Some? ==> r.value < |hacks| && hacks[r.value].domain == d
    ensures r.Some? ==> forall j :: 0 <= j < r.value ==> hacks[j].domain != d
    ensures r.None? ==> forall j :: 0 <= j < |hacks| ==> hacks[j].domain != d
  {
    if hacks == [] then None
    else if hacks[0].domain == d then Some(0)
    else
      match FindHack(hacks[1..], d)
      case Some(k) => Some(k + 1)
      case None => None
  }

  /** `selectPromptHack`: nothing when either list is empty; otherwise the
      first hack for the weakest domain, falling back to the first hack. */
  function SelectPromptHack(summaries: seq<DomainSummary>, hacks: seq<PromptHack>): (r: Option<PromptHack>)
    ensures r.None? <==> summaries == [] || hacks == []
    ensures r.Some? ==>
      var weakest := summaries[WeakestIndex(summaries)];
      match FindHack(hacks, weakest.domain)
      case Some(k) => r.value == hacks[k]
      case None => r.value == hacks[0]
  {
    if summaries == [] || hacks == [] then None
    else
      var weakest := summaries[WeakestIndex(summaries)];
      match FindHack(hacks, weakest.domain)
      case Some(k) => Some(hacks[k])
      case None => Some(hacks[0])
  }

  /** The chosen hack is for the weakest domain whenever some hack is;
      otherwise it is the first hack. */
  lemma PromptHackTargetsWeakest(summaries: seq<DomainSummary>, hacks: seq<PromptHack>)
    requires summaries != [] && hacks != []
    ensures var r := SelectPromptHack(summaries, hacks).value;
      var w := WeakestDomain(summaries).value;
      && ((exists j :: 0 <= j < |hacks| && hacks[j].domain == w.domain) ==> r.domain == w.domain)
      && ((forall j :: 0 <= j < |hacks| ==> hacks[j].domain != w.domain) ==> r == hacks[0])
  {
  }

  // ---------------------------------------------------------------------
  // Radar data
  // ---------------------------------------------------------------------

  datatype RadarDatum = RadarDatum(text: string, value: int)

  function Overall(s: DomainSummary): real {
    s.overall
  }

  /** One radar point: the friendly domain name when the table has one,
      and the score rounded to an integer. */
  function Datum(friendly: map<string, string>, s: DomainSummary): RadarDatum {
    RadarDatum(if s.domain in friendly then friendly[s.domain] else s.domain, JsRound(s.overall))
  }

  /** `radarData`: the summaries sorted by descending overall score, the
      first five, each rendered as a point. */
  function RadarData(summaries: seq<DomainSummary>, friendly: map<string, string>): (r: seq<RadarDatum>)
    ensures |r| == if |summaries| < 5 then |summaries| else 5
  {
    var sorted := SortDesc(summaries, Overall);
    var top := if |sorted| < 5 then sorted else sorted[..5];
    seq(|top|, i requires 0 <= i < |top| => Datum(friendly, top[i]))
  }

  lemma JsRoundMonotone(x: real, y: real)
    requires x <= y
    ensures JsRound(x) <= JsRound(y)
  {
  }

  /** The radar's points are the first (at most five) entries of a
      rearrangement of the summaries ordered by descending score. */
  lemma RadarPointsFromSorted(summaries: seq<DomainSummary>, friendly: map<string, string>)
    ensures var sorted := SortDesc(summaries, Overall);
      && multiset(sorted) == multiset(summaries)
      && SortedDesc(sorted, Overall)
      && forall i :: 0 <= i < |RadarData(summaries, friendly)| ==>
           RadarData(summaries, friendly)[i] == Datum(friendly, sorted[i])
  {
    SortDescCorrect(summaries, Overall);
  }

  /** The radar shows the strongest domains: no summary left out scores
      above a shown one, and the plotted values are non-increasing. */
  lemma RadarShowsStrongest(summaries: seq<DomainSummary>, friendly: map<string, string>)
    ensures var sorted := SortDesc(summaries, Overall);
      var n := |RadarData(summaries, friendly)|;
      forall i, j :: 0 <= i < n <= j < |sorted| ==> sorted[j].overall <= sorted[i].overall
    ensures var r := RadarData(summaries, friendly);
      forall i, j :: 0 <= i < j < |r| ==> r[j].value <= r[i].value
  {
    var sorted := SortDesc(summaries, Overall);
    RadarPointsFromSorted(summaries, friendly);
    var r := RadarData(summaries, friendly);
    forall i, j | 0 <= i < |r| <= j < |sorted| ensures sorted[j].overall <= sorted[i].overall {
      assert Overall(sorted[i]) >= Overall(sorted[j]);
    }
    forall i, j | 0 <= i < j < |r| ensures r[j].value <= r[i].value {
      assert Overall(sorted[i]) >= Overall(sorted[j]);
      JsRoundMonotone(sorted[j].overall, sorted[i].overall);
    }
  }

  /** Every point's label is the friendly name of its domain when there is
      one, else the domain key itself, and its value is the domain's score
      rounded to the nearest integer. */
  lemma RadarLabels(summaries: seq<DomainSummary>, friendly: map<string, string>)
    ensures var sorted := SortDesc(summaries, Overall);
      var r := RadarData(summaries, friendly);
      forall i :: 0 <= i < |r| ==>
        && r[i].text == (if sorted[i].domain in friendly then friendly[sorted[i].domain] else sorted[i].domain)
        && sorted[i].overall - 0.5 < r[i].value as real <= sorted[i].overall + 0.5
  {
    RadarPointsFromSorted(summaries, friendly);
  }

  // ---------------------------------------------------------------------
  // Gauge zone and delta tone
  // ---------------------------------------------------------------------

  datatype Zone = Neutral | LowZone | ModerateZone | BalancedZone | HighZone

  /** `getGaugeZone`; an absent value stands for a non-finite number. */
  function GaugeZone(value: Option<real>): (z: Zone)
    ensures value.None? <==> z == Neutral
    ensures value.Some? ==> (z == HighZone <==> value.value >= 80.0)
    ensures value.Some? ==> (z == BalancedZone <==> 60.0 <= value.value < 80.0)
    ensures value.Some? ==> (z == ModerateZone <==> 40.0 <= value.value < 60.0)
    ensures value.Some? ==> (z == LowZone <==> value.value < 40.0)
  {
    match value
    case None => Neutral
    case Some(v) =>
      if v >= 80.0 then HighZone
      else if v >= 60.0 then BalancedZone
      else if v >= 40.0 then ModerateZone
      else LowZone
  }

  /** The label text of a zone. */
  function ZoneLabel(z: Zone): string {
    match z
    case Neutral => "No data yet"
    case HighZone => "High zone"
    case BalancedZone => "Balanced zone"
    case ModerateZone => "Moderate zone"
    case LowZone => "Low zone"
  }

  function ZoneRank(z: Zone): nat {
    match z
    case Neutral => 0
    case LowZone => 1
    case ModerateZone => 2
    case BalancedZone => 3
    case HighZone => 4
  }

  /** A higher score never lands in a lower zone. */
  lemma GaugeZoneMonotone(v: real, w: real)
    requires v <= w
    ensures ZoneRank(GaugeZone(Some(v))) <= ZoneRank(GaugeZone(Some(w)))
  {
  }

  datatype Tone = NeutralTone | PositiveTone | NegativeTone

  /** `deltaTone`: changes smaller than 0.05 in magnitude are neutral. */
  function DeltaTone(delta: Option<real>): (t: Tone)
    ensures t == NeutralTone <==> delta.None? || (-0.05 < delta.value < 0.05)
    ensures t == PositiveTone <==> delta.Some? && delta.value >= 0.05
    ensures t == NegativeTone <==> delta.Some? && delta.value <= -0.05
  {
    match delta
    case None => NeutralTone
    case Some(d) =>
      if (if d < 0.0 then -d else d) < 0.05 then NeutralTone
      else if d > 0.0 then PositiveTone
      else NegativeTone
  }

  /** The part of `formatDelta` fixed before the number: the whole text
      "0.0" for a neutral change, otherwise the sign prefix, "+" for a
      rise and nothing for a fall (the digits come from `toFixed`). */
  function DeltaPrefix(delta: Option<real>): (r: string)
    ensures r == "0.0" || r == "+" || r == ""
    ensures r == "+" <==> delta.Some? && delta.value >= 0.05
    ensures r == "" <==> delta.Some? && delta.value <= -0.05
  {
    match delta
    case None => "0.0"
    case Some(d) =>
      if (if d < 0.0 then -d else d) < 0.05 then "0.0"
      else if d > 0.0 then "+"
      else ""
  }

  /** The delta text and the delta tone agree: "+" exactly for a positive
      tone, the neutral text exactly for a neutral tone. */
  lemma DeltaTextMatchesTone(delta: Option<real>)
    ensures DeltaPrefix(delta) == "+" <==> DeltaTone(delta) == PositiveTone
    ensures DeltaPrefix(delta) == "0.0" <==> DeltaTone(delta) == NeutralTone
    ensures DeltaPrefix(delta) == "" <==> DeltaTone(delta) == NegativeTone
  {
  }

  /** Negating a change swaps a positive and a negative tone. */
  lemma DeltaToneAntisymmetric(d: real)
    ensures DeltaTone(Some(-d)) == match DeltaTone(Some(d))
      case PositiveTone => NegativeTone
      case NegativeTone => PositiveTone
      case NeutralTone => NeutralTone
  {
  }

  // ---------------------------------------------------------------------
  // Duration text
  // ---------------------------------------------------------------------

  /** Hours, minutes within the hour and seconds within the minute. */
  function Clock(seconds: nat): (r: (nat, nat, nat))
    ensures r.0 * 3600 + r.1 * 60 + r.2 == seconds
    ensures r.1 < 60 && r.2 < 60
  {
    (seconds / 3600, (seconds % 3600) / 60, seconds % 60)
  }

  /** What `formatDuration` shows, before it is turned into text. */
  datatype DurationShown = NoTime | HoursMinutes(h: nat, m: nat) | Minutes(m: nat) | Seconds(s: nat) | Hours(h: nat)

  /** `formatDuration`: "0 m" for zero; hours and minutes when there is a
      whole hour; else minutes when there is a whole minute; else seconds. */
  function DurationParts(seconds: nat): DurationShown {
    var (h, m, s) := Clock(seconds);
    if seconds == 0 then NoTime
    else if h != 0 then HoursMinutes(h, m)
    else if m != 0 then Minutes(m)
    else Seconds(s)
  }

  /** `formatDurationDetailed`: seconds are never shown. */
  function DetailedDurationParts(seconds: nat): DurationShown {
    var (h, m, _) := Clock(seconds);
    if seconds == 0 then NoTime
    else if h != 0 && m != 0 then HoursMinutes(h, m)
    else if h != 0 then Hours(h)
    else Minutes(m)
  }

  /** The text of a shown duration. */
  function DurationText(d: DurationShown, detailed: bool): string {
    match d
    case NoTime => "0 m"
    case HoursMinutes(h, m) => NatToString(h) + " hr " + NatToString(m) + " m"
    case Minutes(m) => NatToString(m) + (if detailed then " m" else " min")
    case Seconds(s) => NatToString(s) + "s"
    case Hours(h) => NatToString(h) + " hr"
  }

  /** `formatDuration` by range: "0 m", seconds under a minute, minutes
      under an hour, else hours and the minutes within the hour. */
  function FormatDuration(seconds: nat): (r: string)
    ensures seconds == 0 ==> r == "0 m"
    ensures 0 < seconds < 60 ==> r == NatToString(seconds) + "s"
    ensures 60 <= seconds < 3600 ==> r == NatToString(seconds / 60) + " min"
    ensures 3600 <= seconds ==> r == NatToString(seconds / 3600) + " hr " + NatToString(seconds % 3600 / 60) + " m"
  {
    DurationText(DurationParts(seconds), false)
  }

  /** `formatDurationDetailed` by range: "0 m" under a minute, minutes under
      an hour, whole hours alone, else hours and minutes. */
  function FormatDurationDetailed(seconds: nat): (r: string)
    ensures seconds < 60 ==> r == "0 m"
    ensures 60 <= seconds < 3600 ==> r == NatToString(seconds / 60) + " m"
    ensures 3600 <= seconds && seconds % 3600 < 60 ==> r == NatToString(seconds / 3600) + " hr"
    ensures 3600 <= seconds && 60 <= seconds % 3600 ==>
      r == NatToString(seconds / 3600) + " hr " + NatToString(seconds % 3600 / 60) + " m"
  {
    DurationText(DetailedDurationParts(seconds), true)
  }

  /** The lower bound, in seconds, that a shown duration stands for. */
  function ShownSeconds(d: DurationShown): nat {
    match d
    case NoTime => 0
    case HoursMinutes(h, m) => h * 3600 + m * 60
    case Minutes(m) => m * 60
    case Seconds(s) => s
    case Hours(h) => h * 3600
  }

  /** `formatDuration` drops less than a minute, and shows seconds exactly
      when the duration is under a minute. */
  lemma DurationShownIsTruncation(seconds: nat)
    ensures var d := DurationParts(seconds);
      && ShownSeconds(d) <= seconds < ShownSeconds(d) + 60
      && (d.Seconds? ==> ShownSeconds(d) == seconds && 0 < seconds < 60)
      && (d.NoTime? <==> seconds == 0)
      && (d.HoursMinutes? ==> seconds >= 3600 && d.m < 60)
      && (d.Minutes? ==> 60 <= seconds < 3600)
  {
  }

  /** `formatDurationDetailed` also drops less than a minute, so anything
      under a minute shows as "0 m". */
  lemma DetailedDurationShownIsTruncation(seconds: nat)
    ensures var d := DetailedDurationParts(seconds);
      && ShownSeconds(d) <= seconds < ShownSeconds(d) + 60
      && (d.NoTime? <==> seconds == 0)
      && (seconds < 60 ==> FormatDurationDetailed(seconds) == "0 m")
  {
    if 0 < seconds < 60 {
      assert DetailedDurationParts(seconds) == Minutes(0);
    }
  }

  /** Ninety minutes: "1 hr 30 m" in both forms; 45 seconds: "45s" in the
      short form. */
  lemma DurationExamples()
    ensures FormatDuration(5400) == "1 hr 30 m"
    ensures FormatDurationDetailed(5400) == "1 hr 30 m"
    ensures FormatDuration(45) == "45s"
    ensures FormatDurationDetailed(7200) == "2 hr"
  {
    assert NatToString(45) == NatToString(4) + [DigitChar(5)];
    assert NatToString(30) == NatToString(3) + [DigitChar(0)];
  }
}
