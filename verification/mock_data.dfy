/** The dashboard's built-in market table and telemetry, and what the model
    says about them. */
module MockData {

  import opened Optional
  import opened Priorities
  import opened Scoring
  import opened Ranking
  import opened Feedback

  const Norway := MarketRecord("Norway", 80.0, 0.0, 5000, 0.8, 5.0)
  const UK := MarketRecord("UK", 20.0, 10.0, 700, 0.7, 8.0)
  const Australia := MarketRecord("Australia", 8.0, 5.0, 300, 0.6, 6.0)
  const Germany := MarketRecord("Germany", 25.0, 10.0, 1500, 0.4, 9.0)
  const Mexico := MarketRecord("Mexico", 3.0, 20.0, 200, 0.5, 6.0)
  const India := MarketRecord("India", 5.0, 15.0, 400, 0.3, 10.0)
  const Brazil := MarketRecord("Brazil", 4.0, 12.0, 350, 0.6, 7.0)
  const Thailand := MarketRecord("Thailand", 7.0, 10.0, 220, 0.7, 6.0)

  const Markets: seq<MarketRecord> :=
    [Norway, UK, Australia, Germany, Mexico, India, Brazil, Thailand]

  /** Every label the multi-select offers. */
  const EveryLabel: seq<string> :=
    seq(|AllPriorities|, i requires 0 <= i < |AllPriorities| => Label(AllPriorities[i]))

  /** Norway, weighing only EV adoption and market size: 80 * 0.4 + 5 * 0.2. */
  lemma NorwayAdoptionAndSize()
    ensures Score(Norway, ComputeWeights(["EV Adoption", "Market Size"])) == 33.0
  {
  }

  /** With every priority selected Norway scores 44.6 and every other market
      strictly less, so Norway is the reported top market. */
  lemma NorwayTopsEveryPriority()
    ensures TopMarket(Ranked(Markets, EveryLabel)).Some?
    ensures TopMarket(Ranked(Markets, EveryLabel)).value.record == Norway
  {
    assert forall p: Priority :: Label(p) in EveryLabel by {
      forall p: Priority
        ensures Label(p) in EveryLabel
      {
        match p
        case EvAdoption => assert EveryLabel[0] == Label(p);
        case LowImportTariffs => assert EveryLabel[1] == Label(p);
        case StrongInfrastructure => assert EveryLabel[2] == Label(p);
        case PositiveChinaSentiment => assert EveryLabel[3] == Label(p);
        case MarketSize => assert EveryLabel[4] == Label(p);
      }
    }
    var w := ComputeWeights(EveryLabel);
    assert w.evAdoption == WeightOf(w, EvAdoption) == 0.4;
    assert w.tariffs == WeightOf(w, LowImportTariffs) == -0.2;
    assert w.chargingStations == WeightOf(w, StrongInfrastructure) == 0.2;
    assert w.chinaSentiment == WeightOf(w, PositiveChinaSentiment) == 0.2;
    assert w.marketSize == WeightOf(w, MarketSize) == 0.2;
    assert Score(Norway, w) == 44.6;
    assert forall r :: r in Markets && r != Norway ==> Score(r, w) < 44.6;
    TopMarketIsBest(Markets, EveryLabel);
  }

  const NorwayStats := RegionStats("Norway",
    [1.2, 1.5, 1.8, 2.2], [20.0, 18.0, 15.0, 12.0], [30.0, 35.0, 40.0, 42.0],
    [0.2, 0.25, 0.3, 0.35], [100.0, 120.0, 140.0, 160.0])
  const UKStats := RegionStats("UK",
    [1.0, 1.2, 1.3, 1.4], [25.0, 24.0, 23.0, 22.0], [25.0, 28.0, 30.0, 32.0],
    [0.1, 0.15, 0.18, 0.2], [90.0, 95.0, 100.0, 105.0])
  const GermanyStats := RegionStats("Germany",
    [0.8, 0.9, 1.0, 1.1], [30.0, 29.0, 28.0, 27.0], [20.0, 22.0, 25.0, 26.0],
    [0.15, 0.17, 0.18, 0.2], [80.0, 85.0, 87.0, 90.0])

  const Telemetry: seq<RegionStats> := [NorwayStats, UKStats, GermanyStats]

  /** UK cost per install falls by 1: neither below -2 nor above 1, so stable. */
  lemma UKCostPerInstallIsStable()
    ensures RegionNoteOf(UKStats, Cpi) == Some(Stable)
  {
  }

  /** Norway click-through rises by 0.4, above 0.3: momentum. */
  lemma NorwayClickThroughHasMomentum()
    ensures RegionNoteOf(NorwayStats, Ctr) == Some(Momentum)
  {
  }

  /** Cost per install: Norway's falls by 3 (momentum), the UK's and
      Germany's by 1 (stable); every region gets its note, in table order. */
  lemma CostPerInstallFeedback()
    ensures StrategyFeedback(Telemetry, Cpi)
         == FeedbackRun([RegionNote("Norway", Momentum), RegionNote("UK", Stable),
                         RegionNote("Germany", Stable)], true)
  {
  }

}
