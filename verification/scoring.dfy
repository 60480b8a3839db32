/** Priority-weighted market scoring. A selection of priority labels fixes a
    weight per column; a market's score is the weighted sum of its columns,
    with the station count divided by 100 and the sentiment multiplied by 10
    first so that every term lands on a comparable scale.

    Numbers are `real`: an idealisation of the page's floating-point
    arithmetic, without its rounding. */
module Scoring {

  import opened Priorities

  /** One row of the market table. */
  datatype MarketRecord = MarketRecord(
    country: string,
    evAdoption: real,        // percent of new sales, 0..100
    tariffs: real,           // import tariff, percent
    chargingStations: int,   // number of public stations
    chinaSentiment: real,    // sentiment towards Chinese brands, 0..1
    marketSize: real         // market size index, 0..10
  )

  /** The weight of each column, one field per entry of the page's weight dictionary. */
  datatype Weights = Weights(
    evAdoption: real,
    tariffs: real,
    chargingStations: real,
    chinaSentiment: real,
    marketSize: real
  )

  /** The fixed coefficient a priority contributes when it is selected. */
  function Coefficient(p: Priority): real
  {
    match p
    case EvAdoption => 0.4
    case LowImportTariffs => -0.2
    case StrongInfrastructure => 0.2
    case PositiveChinaSentiment => 0.2
    case MarketSize => 0.2
  }

  /** The weight a weight vector gives to a priority's column. */
  function WeightOf(w: Weights, p: Priority): real
  {
    match AttributeOf(p)
    case EvAdoptionRate => w.evAdoption
    case ImportTariffs => w.tariffs
    case ChargingStations => w.chargingStations
    case ChinaSentiment => w.chinaSentiment
    case MarketSizeIndex => w.marketSize
  }

  /** The weight vector of a selection: each priority weighs its fixed
      coefficient when its label was selected and nothing otherwise, so a
      weight is non-zero exactly when its priority is selected. */
  function ComputeWeights(selection: seq<string>): (w: Weights)
    ensures forall p: Priority ::
      WeightOf(w, p) == (if Label(p) in selection then Coefficient(p) else 0.0)
    ensures forall p: Priority :: WeightOf(w, p) != 0.0 <==> Label(p) in selection
  {
    Weights(
      if "EV Adoption" in selection then 0.4 else 0.0,
      if "Low Import Tariffs" in selection then -0.2 else 0.0,
      if "Strong Infrastructure" in selection then 0.2 else 0.0,
      if "Positive China Sentiment" in selection then 0.2 else 0.0,
      if "Market Size" in selection then 0.2 else 0.0)
  }

  /** Only which of the five labels are present matters: two selections that
      agree on them (in any order, with any number of repeats and of unknown
      labels) give the same weights. */
  lemma WeightsDependOnlyOnKnownLabels(s: seq<string>, t: seq<string>)
    requires forall p: Priority :: Label(p) in s <==> Label(p) in t
    ensures ComputeWeights(s) == ComputeWeights(t)
  {
    var ws, wt := ComputeWeights(s), ComputeWeights(t);
    assert ws.evAdoption == WeightOf(ws, EvAdoption) == WeightOf(wt, EvAdoption) == wt.evAdoption;
    assert ws.tariffs == WeightOf(ws, LowImportTariffs) == WeightOf(wt, LowImportTariffs) == wt.tariffs;
    assert ws.chargingStations == WeightOf(ws, StrongInfrastructure) == WeightOf(wt, StrongInfrastructure);
    assert ws.chinaSentiment == WeightOf(ws, PositiveChinaSentiment) == WeightOf(wt, PositiveChinaSentiment);
    assert ws.marketSize == WeightOf(ws, MarketSize) == WeightOf(wt, MarketSize) == wt.marketSize;
  }

  /** Appending labels that name no priority leaves the weights unchanged. */
  lemma UnknownLabelsDoNotChangeWeights(selection: seq<string>, extra: seq<string>)
    requires forall k :: k in extra ==> !Known(k)
    ensures ComputeWeights(selection + extra) == ComputeWeights(selection)
  {
  }

  /** A column's value on the common scale the score uses. */
  function Scaled(r: MarketRecord, a: Attribute): real
  {
    match a
    case EvAdoptionRate => r.evAdoption
    case ImportTariffs => r.tariffs
    case ChargingStations => r.chargingStations as real / 100.0
    case ChinaSentiment => r.chinaSentiment * 10.0
    case MarketSizeIndex => r.marketSize
  }

  /** Reference definition: the sum, over the priorities ps, of each one's
      weight times its column on the common scale. */
  function WeightedSum(r: MarketRecord, w: Weights, ps: seq<Priority>): real
  {
    if ps == [] then 0.0
    else WeightOf(w, ps[0]) * Scaled(r, AttributeOf(ps[0])) + WeightedSum(r, w, ps[1..])
  }

  /** The weighted score of one row: every column, brought to the common
      scale, times its weight, summed over the five columns. */
  function Score(r: MarketRecord, w: Weights): (s: real)
    ensures s == WeightedSum(r, w, AllPriorities)
  {
    var ps := AllPriorities;
    assert ps[1..][1..][1..][1..][1..] == [];
    var ev, ta, st, se, si :=
      w.evAdoption * r.evAdoption, w.tariffs * r.tariffs,
      w.chargingStations * (r.chargingStations as real / 100.0),
      w.chinaSentiment * (r.chinaSentiment * 10.0), w.marketSize * r.marketSize;
    assert WeightedSum(r, w, ps[1..][1..][1..][1..]) == si;
    assert WeightedSum(r, w, ps[1..][1..][1..]) == se + si;
    assert WeightedSum(r, w, ps[1..][1..]) == st + se + si;
    assert WeightedSum(r, w, ps[1..]) == ta + st + se + si;
    assert WeightedSum(r, w, ps) == ev + ta + st + se + si;
    r.evAdoption * w.evAdoption
    + r.tariffs * w.tariffs
    + r.chargingStations as real / 100.0 * w.chargingStations
    + r.chinaSentiment * 10.0 * w.chinaSentiment
    + r.marketSize * w.marketSize
  }

  /** What selecting priority p adds to a row's score. */
  function Contribution(r: MarketRecord, p: Priority): real
  {
    Coefficient(p) * Scaled(r, AttributeOf(p))
  }

  /** Reference definition: the sum of the contributions of those priorities
      among ps whose label is in the selection. */
  function SelectedSum(r: MarketRecord, ps: seq<Priority>, selection: seq<string>): real
  {
    if ps == [] then 0.0
    else (if Label(ps[0]) in selection then Contribution(r, ps[0]) else 0.0)
         + SelectedSum(r, ps[1..], selection)
  }

  /** A row's score under a selection is the sum, over the selected
      priorities, of each one's fixed coefficient times its scaled column. */
  lemma {:induction false} ScoreIsSumOfSelectedContributions(r: MarketRecord, selection: seq<string>)
    ensures Score(r, ComputeWeights(selection)) == SelectedSum(r, AllPriorities, selection)
  {
    var w := ComputeWeights(selection);
    var ps := AllPriorities;
    assert ps[1..][1..][1..][1..][1..] == [];
    calc {
      SelectedSum(r, ps, selection);
      WeightOf(w, EvAdoption) * r.evAdoption + SelectedSum(r, ps[1..], selection);
      WeightOf(w, EvAdoption) * r.evAdoption + WeightOf(w, LowImportTariffs) * r.tariffs
        + SelectedSum(r, ps[1..][1..], selection);
      WeightOf(w, EvAdoption) * r.evAdoption + WeightOf(w, LowImportTariffs) * r.tariffs
        + WeightOf(w, StrongInfrastructure) * (r.chargingStations as real / 100.0)
        + SelectedSum(r, ps[1..][1..][1..], selection);
      WeightOf(w, EvAdoption) * r.evAdoption + WeightOf(w, LowImportTariffs) * r.tariffs
        + WeightOf(w, StrongInfrastructure) * (r.chargingStations as real / 100.0)
        + WeightOf(w, PositiveChinaSentiment) * (r.chinaSentiment * 10.0)
        + SelectedSum(r, ps[1..][1..][1..][1..], selection);
      WeightOf(w, EvAdoption) * r.evAdoption + WeightOf(w, LowImportTariffs) * r.tariffs
        + WeightOf(w, StrongInfrastructure) * (r.chargingStations as real / 100.0)
        + WeightOf(w, PositiveChinaSentiment) * (r.chinaSentiment * 10.0)
        + WeightOf(w, MarketSize) * r.marketSize;
      Score(r, w);
    }
  }

  /** With nothing selected every row scores zero. */
  lemma EmptySelectionScoresZero(r: MarketRecord)
    ensures Score(r, ComputeWeights([])) == 0.0
  {
  }

  /** Selecting one more priority raises (or, for tariffs, lowers) every
      row's score by exactly that priority's contribution. */
  lemma SelectingAddsContribution(r: MarketRecord, selection: seq<string>, p: Priority)
    requires Label(p) !in selection
    ensures Score(r, ComputeWeights(selection + [Label(p)]))
         == Score(r, ComputeWeights(selection)) + Contribution(r, p)
  {
  }

}
