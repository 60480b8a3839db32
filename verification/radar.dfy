/** The radar chart of the market-discovery tab: the selected labels mapped
    to their columns, in selection order, and the per-country profiles drawn
    only when at least three columns are selected. Profiles show the raw
    column values, not the scaled ones the score uses. */
module Radar {

  import opened Optional
  import opened Priorities
  import opened Scoring
  import opened Ranking

  /** The columns of the selected labels, in the order they were selected;
      labels that name no priority are skipped. A priority's column appears
      exactly when its label was selected. */
  function SelectedColumns(selection: seq<string>): (cols: seq<Attribute>)
    ensures |cols| <= |selection|
    ensures forall p: Priority :: AttributeOf(p) in cols <==> Label(p) in selection
  {
    if selection == [] then []
    else
      var rest := SelectedColumns(selection[1..]);
      assert selection == [selection[0]] + selection[1..];
      match Parse(selection[0])
      case Some(p) =>
        assert forall q: Priority :: AttributeOf(q) == AttributeOf(p) ==> q == p by {
          forall q: Priority | AttributeOf(q) == AttributeOf(p)
            ensures q == p
          {
            AttributeOfIsBijective(q, AttributeOf(p));
            AttributeOfIsBijective(p, AttributeOf(p));
          }
        }
        [AttributeOf(p)] + rest
      case None =>
        rest
  }

  /** Selecting in two parts yields the columns of the first part followed
      by those of the second: the column list keeps the selection's order. */
  lemma {:induction false} SelectedColumnsOfConcat(a: seq<string>, b: seq<string>)
    ensures SelectedColumns(a + b) == SelectedColumns(a) + SelectedColumns(b)
  {
    if a == [] {
      assert a + b == b;
    } else {
      assert (a + b)[1..] == a[1..] + b;
      assert (a + b)[0] == a[0];
      SelectedColumnsOfConcat(a[1..], b);
    }
  }

  /** A single known label contributes its column, an unknown one nothing. */
  lemma SelectedColumnsOfOne(k: string)
    ensures Known(k) ==> SelectedColumns([k]) == [AttributeOf(Parse(k).value)]
    ensures !Known(k) ==> SelectedColumns([k]) == []
  {
  }

  /** Labels that name no priority leave the column list unchanged, wherever
      they stand in the selection. */
  lemma UnknownLabelsDoNotChangeColumns(a: seq<string>, u: string, b: seq<string>)
    requires !Known(u)
    ensures SelectedColumns(a + [u] + b) == SelectedColumns(a + b)
  {
    SelectedColumnsOfConcat(a + [u], b);
    SelectedColumnsOfConcat(a, [u]);
    SelectedColumnsOfConcat(a, b);
    SelectedColumnsOfOne(u);
  }

  /** The priorities whose labels are selected. */
  function SelectedPriorities(selection: seq<string>): set<Priority>
  {
    set p | p in AllPriorities && Label(p) in selection
  }

  /** Selecting one more label adds its priority, if it names one. */
  lemma SelectedPrioritiesOfCons(k: string, rest: seq<string>)
    ensures Known(k) ==> SelectedPriorities([k] + rest) == SelectedPriorities(rest) + {Parse(k).value}
    ensures !Known(k) ==> SelectedPriorities([k] + rest) == SelectedPriorities(rest)
  {
  }

  /** When no label is selected twice (as the multi-select guarantees) there
      is one column per selected priority. */
  lemma {:induction false} ColumnCountIsPriorityCount(selection: seq<string>)
    requires forall i, j :: 0 <= i < j < |selection| ==> selection[i] != selection[j]
    ensures |SelectedColumns(selection)| == |SelectedPriorities(selection)|
  {
    if selection == [] {
      assert SelectedPriorities(selection) == {};
    } else {
      var k, rest := selection[0], selection[1..];
      assert selection == [k] + rest;
      ColumnCountIsPriorityCount(rest);
      SelectedColumnsOfConcat([k], rest);
      SelectedColumnsOfOne(k);
      SelectedPrioritiesOfCons(k, rest);
      if Known(k) {
        assert Parse(k).value !in SelectedPriorities(rest);
      }
    }
  }

  /** The value of a column in a row, as the table holds it. */
  function RawValue(r: MarketRecord, a: Attribute): real
  {
    match a
    case EvAdoptionRate => r.evAdoption
    case ImportTariffs => r.tariffs
    case ChargingStations => r.chargingStations as real
    case ChinaSentiment => r.chinaSentiment
    case MarketSizeIndex => r.marketSize
  }

  /** One trace of the radar chart: a country and its selected column values. */
  datatype Profile = Profile(country: string, values: seq<real>)

  /** The profile of one row over the given columns. */
  function ProfileOf(r: MarketRecord, cols: seq<Attribute>): (pr: Profile)
    ensures pr.country == r.country
    ensures |pr.values| == |cols|
    ensures forall j :: 0 <= j < |cols| ==> pr.values[j] == RawValue(r, cols[j])
  {
    Profile(r.country, seq(|cols|, j requires 0 <= j < |cols| => RawValue(r, cols[j])))
  }

  /** The radar chart data: present exactly when at least three columns are
      selected, and then one profile per shown row, in ranking order, each
      holding that row's raw values of the selected columns in selection
      order. */
  function RadarData(shown: seq<ScoredMarket>, cols: seq<Attribute>): (data: Option<seq<Profile>>)
    ensures data.Some? <==> |cols| >= 3
    ensures data.Some? ==> |data.value| == |shown|
    ensures data.Some? ==> forall i, j :: 0 <= i < |shown| && 0 <= j < |cols| ==>
      data.value[i].country == shown[i].record.country
      && |data.value[i].values| == |cols|
      && data.value[i].values[j] == RawValue(shown[i].record, cols[j])
  {
    if |cols| >= 3 then
      Some(seq(|shown|, i requires 0 <= i < |shown| => ProfileOf(shown[i].record, cols)))
    else
      None
  }

  /** With a duplicate-free selection the radar chart is drawn exactly when
      at least three of the five priorities are selected. */
  lemma RadarShownIffThreePriorities(shown: seq<ScoredMarket>, selection: seq<string>)
    requires forall i, j :: 0 <= i < j < |selection| ==> selection[i] != selection[j]
    ensures RadarData(shown, SelectedColumns(selection)).Some?
        <==> |SelectedPriorities(selection)| >= 3
  {
    ColumnCountIsPriorityCount(selection);
  }

}
