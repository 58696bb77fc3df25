/**
 * The dashboard's category pie chart: the chart entries built from the
 * per-category breakdown, with a grey placeholder slice when there is none,
 * and the time-range selector's state.
 */
module CategoryChart {
  import opened Seqs
  import opened Schema
  import opened Storage
  import opened Routes

  /** One slice: its label, its share in percent, its colour and its amount. */
  datatype ChartEntry = ChartEntry(name: string, value: int, color: string, amount: Cents)

  const Placeholder: ChartEntry := ChartEntry("No Data", 100, "#e5e7eb", 0)

  function EntryOf(item: CategoryTotal): ChartEntry
  {
    ChartEntry(item.category.name, item.percentage, item.category.color, item.total)
  }

  /**
   * `chartData`: one entry per breakdown row, then the placeholder pushed
   * onto the array if it came out empty.
   */
  method ChartData(categories: seq<CategoryTotal>) returns (chartData: seq<ChartEntry>)
    ensures categories == [] ==> chartData == [Placeholder]
    ensures categories != [] ==> |chartData| == |categories|
    ensures categories != [] ==> forall i | 0 <= i < |categories| ::
      chartData[i].name == categories[i].category.name && chartData[i].value == categories[i].percentage &&
      chartData[i].color == categories[i].category.color && chartData[i].amount == categories[i].total
  {
    chartData := MapSeq(categories, EntryOf);
    if |chartData| == 0 {
      chartData := chartData + [Placeholder];
    }
  }

  /**
   * Fed from the dashboard, the chart never shows the placeholder beside
   * real data: every row of the breakdown has a positive amount.
   */
  lemma NoPlaceholderForData(L: Ledger, userId: int, chartData: seq<ChartEntry>)
    requires CategoryBreakdown(L, userId) != []
    requires |chartData| == |CategoryBreakdown(L, userId)|
    requires forall i | 0 <= i < |chartData| :: chartData[i].amount == CategoryBreakdown(L, userId)[i].total
    ensures Placeholder !in chartData
  {
    ExpensesByCategorySpec(L, userId);
    forall i | 0 <= i < |chartData| ensures chartData[i] != Placeholder {
      assert CategoryBreakdown(L, userId)[i] in CategoryBreakdown(L, userId);
    }
  }

  /** The time-range selector, the chart's only state. */
  class ChartState {
    var timeRange: string

    constructor ()
      ensures timeRange == "thisMonth"
    {
      timeRange := "thisMonth";
    }

    /** handleTimeRangeChange: records the choice; the chart entries do not depend on it. */
    method HandleTimeRangeChange(value: string)
      modifies this
      ensures timeRange == value
    {
      timeRange := value;
    }
  }
}
