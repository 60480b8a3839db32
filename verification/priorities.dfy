/** The five expansion priorities a user can pick on the market-discovery tab,
    the labels the multi-select shows for them, and the table column each one
    is about. The page works on the labels as plain strings, so a selection is
    a sequence of strings and anything that is not one of the five labels is
    simply never matched. */
module Priorities {

  import opened Optional

  datatype Priority =
    | EvAdoption
    | LowImportTariffs
    | StrongInfrastructure
    | PositiveChinaSentiment
    | MarketSize

  /** The numeric columns of the market table. */
  datatype Attribute =
    | EvAdoptionRate     // column EV_Adoption
    | ImportTariffs      // column Tariffs
    | ChargingStations   // column Charging_Stations
    | ChinaSentiment     // column China_Sentiment
    | MarketSizeIndex    // column Market_Size

  /** Every priority, in the order the multi-select offers them. */
  const AllPriorities: seq<Priority> :=
    [EvAdoption, LowImportTariffs, StrongInfrastructure, PositiveChinaSentiment, MarketSize]

  /** The label the multi-select shows for a priority. */
  function Label(p: Priority): string
  {
    match p
    case EvAdoption => "EV Adoption"
    case LowImportTariffs => "Low Import Tariffs"
    case StrongInfrastructure => "Strong Infrastructure"
    case PositiveChinaSentiment => "Positive China Sentiment"
    case MarketSize => "Market Size"
  }

  /** The column a priority is about (the dashboard's label-to-column map). */
  function AttributeOf(p: Priority): Attribute
  {
    match p
    case EvAdoption => EvAdoptionRate
    case LowImportTariffs => ImportTariffs
    case StrongInfrastructure => ChargingStations
    case PositiveChinaSentiment => ChinaSentiment
    case MarketSize => MarketSizeIndex
  }

  /** Looking a label up among the five known ones (`k in priority_map`):
      it is found exactly when it is the label of some priority, and then
      that priority is the one returned. */
  function Parse(text: string): (r: Option<Priority>)
    ensures r.Some? ==> Label(r.value) == text
    ensures r.None? ==> forall p: Priority :: Label(p) != text
  {
    if text == "EV Adoption" then Some(EvAdoption)
    else if text == "Low Import Tariffs" then Some(LowImportTariffs)
    else if text == "Strong Infrastructure" then Some(StrongInfrastructure)
    else if text == "Positive China Sentiment" then Some(PositiveChinaSentiment)
    else if text == "Market Size" then Some(MarketSize)
    else None
  }

  /** A label is known when it names one of the five priorities. */
  predicate Known(text: string)
  {
    Parse(text).Some?
  }

  /** Parsing a priority's label gives the priority back, so distinct
      priorities have distinct labels. */
  lemma ParseLabel(p: Priority)
    ensures Parse(Label(p)) == Some(p)
  {
  }

  /** The priority whose column a given column is. */
  function PriorityOf(a: Attribute): Priority
  {
    match a
    case EvAdoptionRate => EvAdoption
    case ImportTariffs => LowImportTariffs
    case ChargingStations => StrongInfrastructure
    case ChinaSentiment => PositiveChinaSentiment
    case MarketSizeIndex => MarketSize
  }

  /** The label-to-column map is one-to-one and covers every column:
      PriorityOf is its inverse on both sides. */
  lemma AttributeOfIsBijective(p: Priority, a: Attribute)
    ensures PriorityOf(AttributeOf(p)) == p
    ensures AttributeOf(PriorityOf(a)) == a
  {
  }

}
