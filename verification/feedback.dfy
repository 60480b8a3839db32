/** Rule-based strategy feedback on the monitoring tab. For the chosen
    metric, each region's trend is the last weekly observation minus the one
    before it; thresholds that depend on whether the metric should rise or
    fall turn the trend into one of three notes. */
module Feedback {

  import opened Optional

  datatype Metric = Ctr | Cpi | Retention | MediaSentiment | Engagement

  datatype Note = Momentum | Underwhelming | Stable

  /** The option the KPI select box shows for a metric. */
  function KpiOption(m: Metric): string
  {
    match m
    case Ctr => "CTR (Click Through Rate)"
    case Cpi => "CPI (Cost per Install)"
    case Retention => "Retention"
    case MediaSentiment => "Media Sentiment"
    case Engagement => "Engagement"
  }

  /** The KPI option-to-metric map. An option outside the five is a failed
      lookup; otherwise it yields the metric the option was shown for. */
  function KpiMetric(option: string): (m: Option<Metric>)
    ensures m.Some? ==> KpiOption(m.value) == option
    ensures m.None? ==> forall k: Metric :: KpiOption(k) != option
  {
    if option == "CTR (Click Through Rate)" then Some(Ctr)
    else if option == "CPI (Cost per Install)" then Some(Cpi)
    else if option == "Retention" then Some(Retention)
    else if option == "Media Sentiment" then Some(MediaSentiment)
    else if option == "Engagement" then Some(Engagement)
    else None
  }

  /** Looking up a metric's own option gives the metric back. */
  lemma KpiMetricOfOption(m: Metric)
    ensures KpiMetric(KpiOption(m)) == Some(m)
  {
  }

  /** The metrics that should go up: every one but the cost per install. */
  predicate HigherIsBetter(m: Metric)
  {
    m in [Ctr, Retention, MediaSentiment, Engagement]
  }

  /** The change between the last two observations of a series; a series
      with fewer than two observations has none (indexing it fails). */
  function Trend(series: seq<real>): (t: Option<real>)
    ensures t.Some? <==> |series| >= 2
    ensures t.Some? ==> series[|series| - 1] == series[|series| - 2] + t.value
  {
    if |series| < 2 then None else Some(series[|series| - 1] - series[|series| - 2])
  }

  /** The note for a trend: momentum is tested first, then underwhelming,
      and anything else is stable. A metric that should rise has momentum
      above 0.3 and underwhelms below 0.1; the cost per install, which
      should fall, has momentum below -2 and underwhelms above 1. */
  function Classify(m: Metric, trend: real): (note: Note)
    ensures HigherIsBetter(m) ==> (note == Momentum <==> trend > 0.3)
    ensures HigherIsBetter(m) ==> (note == Underwhelming <==> trend < 0.1)
    ensures m == Cpi ==> (note == Momentum <==> trend < -2.0)
    ensures m == Cpi ==> (note == Underwhelming <==> trend > 1.0)
  {
    if (HigherIsBetter(m) && trend > 0.3) || (m == Cpi && trend < -2.0) then
      Momentum
    else if (HigherIsBetter(m) && trend < 0.1) || (m == Cpi && trend > 1.0) then
      Underwhelming
    else
      Stable
  }

  /** How good a note is: underwhelming below stable below momentum. */
  function Standing(n: Note): int
  {
    match n
    case Underwhelming => 0
    case Stable => 1
    case Momentum => 2
  }

  /** The thresholds are ordered so that the note never gets worse as the
      metric moves the right way: up for the rising metrics, down for the
      cost per install. */
  lemma ClassifyIsMonotone(m: Metric, t1: real, t2: real)
    requires t1 <= t2
    ensures HigherIsBetter(m) ==> Standing(Classify(m, t1)) <= Standing(Classify(m, t2))
    ensures m == Cpi ==> Standing(Classify(m, t1)) >= Standing(Classify(m, t2))
  {
  }

  /** The weekly observations of the five metrics in one region. */
  datatype RegionStats = RegionStats(
    region: string,
    ctr: seq<real>,
    cpi: seq<real>,
    retention: seq<real>,
    mediaSentiment: seq<real>,
    engagement: seq<real>
  )

  /** One region's series for a metric. */
  function Series(s: RegionStats, m: Metric): seq<real>
  {
    match m
    case Ctr => s.ctr
    case Cpi => s.cpi
    case Retention => s.retention
    case MediaSentiment => s.mediaSentiment
    case Engagement => s.engagement
  }

  /** The note of one region, when its series has a trend. */
  function RegionNoteOf(s: RegionStats, m: Metric): (n: Option<Note>)
    ensures n.Some? <==> |Series(s, m)| >= 2
    ensures n.Some? ==> n.value == Classify(m, Trend(Series(s, m)).value)
  {
    match Trend(Series(s, m))
    case None => None
    case Some(t) => Some(Classify(m, t))
  }

  datatype RegionNote = RegionNote(region: string, note: Note)

  /** The outcome of writing the notes region by region: the notes written,
      and whether every region got one. */
  datatype FeedbackRun = FeedbackRun(notes: seq<RegionNote>, complete: bool)

  /** The feedback column: one note per region in table order. The page
      writes each note as it goes, so a region whose series is too short
      stops the loop with the notes of the regions before it already
      written; `complete` says whether that happened. */
  function StrategyFeedback(telemetry: seq<RegionStats>, m: Metric): (run: FeedbackRun)
    ensures |run.notes| <= |telemetry|
    ensures run.complete <==> |run.notes| == |telemetry|
    ensures forall i :: 0 <= i < |run.notes| ==>
      run.notes[i].region == telemetry[i].region
      && |Series(telemetry[i], m)| >= 2
      && run.notes[i].note == Classify(m, Trend(Series(telemetry[i], m)).value)
    ensures !run.complete ==> |Series(telemetry[|run.notes|], m)| < 2
  {
    if telemetry == [] then
      FeedbackRun([], true)
    else
      match RegionNoteOf(telemetry[0], m)
      case None => FeedbackRun([], false)
      case Some(n) =>
        var rest := StrategyFeedback(telemetry[1..], m);
        assert forall i :: 0 < i < |telemetry| ==> telemetry[1..][i - 1] == telemetry[i];
        FeedbackRun([RegionNote(telemetry[0].region, n)] + rest.notes, rest.complete)
  }

  /** When every region has at least two observations the loop finishes,
      with one note per region. */
  lemma FeedbackCompleteWhenSeriesLongEnough(telemetry: seq<RegionStats>, m: Metric)
    requires forall i :: 0 <= i < |telemetry| ==> |Series(telemetry[i], m)| >= 2
    ensures StrategyFeedback(telemetry, m).complete
    ensures |StrategyFeedback(telemetry, m).notes| == |telemetry|
  {
  }

}
