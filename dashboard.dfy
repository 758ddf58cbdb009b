/**
  The callbacks of index.py with the widgets stripped away: each one a pure
  function of the record set and the current dropdown value, returning the
  data it feeds to its figure or list.

  The rating dropdown offers only the column "Rating"; its value is either that
  name or None when the user clears it. A callback guarded by
  `selected_column is None` then returns an empty figure or an empty string,
  both modelled as Blank.
*/
module Dashboard {
  import opened Wrappers
  import opened Ordering
  import opened Grouping
  import opened Ranking
  import opened Sales

  /** An empty figure / empty string, or the data the figure or list shows. */
  datatype Output<T> = Blank | Shown(data: T)

  datatype PriceEntry = PriceEntry(invoiceId: string, unitPrice: int)

  datatype RatingEntry = RatingEntry(invoiceId: string, rating: int, productLine: string)

  // ---------------------------------------------------------------------------
  // Columns of the frame
  // ---------------------------------------------------------------------------

  function Prices(rows: seq<Record>): (c: seq<int>)
    ensures |c| == |rows| && forall i :: 0 <= i < |rows| ==> c[i] == rows[i].unitPrice
  {
    seq(|rows|, i requires 0 <= i < |rows| => rows[i].unitPrice)
  }

  function Ratings(rows: seq<Record>): (c: seq<int>)
    ensures |c| == |rows| && forall i :: 0 <= i < |rows| ==> c[i] == rows[i].rating
  {
    seq(|rows|, i requires 0 <= i < |rows| => rows[i].rating)
  }

  /** nsmallest ranks by the negated column, with the same earlier-row-first tie rule. */
  function NegatedRatings(rows: seq<Record>): (c: seq<int>)
    ensures |c| == |rows| && forall i :: 0 <= i < |rows| ==> c[i] == -rows[i].rating
  {
    seq(|rows|, i requires 0 <= i < |rows| => -rows[i].rating)
  }

  function Totals(rows: seq<Record>): (c: seq<int>)
    ensures |c| == |rows| && forall i :: 0 <= i < |rows| ==> c[i] == rows[i].total
  {
    seq(|rows|, i requires 0 <= i < |rows| => rows[i].total)
  }

  function Branches(rows: seq<Record>): (c: seq<string>)
    ensures |c| == |rows| && forall i :: 0 <= i < |rows| ==> c[i] == rows[i].branch
  {
    seq(|rows|, i requires 0 <= i < |rows| => rows[i].branch)
  }

  /** The (City, Customer type, Gender) key of every row. */
  function ProfileKeys(rows: seq<Record>): (c: seq<Triple>)
    ensures |c| == |rows|
    ensures forall i :: 0 <= i < |rows| ==>
              c[i] == Triple(rows[i].city, rows[i].customerType, rows[i].gender)
  {
    seq(|rows|, i requires 0 <= i < |rows| => Triple(rows[i].city, rows[i].customerType, rows[i].gender))
  }

  /** What .count() adds per row: 1 for a present rating (ratings are never missing). */
  function RatingCounts(rows: seq<Record>): (c: seq<int>)
    ensures |c| == |rows| && forall i :: 0 <= i < |rows| ==> c[i] == 1
  {
    seq(|rows|, i requires 0 <= i < |rows| => 1)
  }

  lemma {:induction false} SumOfOnes(c: seq<int>)
    requires forall i :: 0 <= i < |c| ==> c[i] == 1
    ensures Sum(c) == |c|
  {
    if c != [] {
      SumOfOnes(c[..|c| - 1]);
    }
  }

  // ---------------------------------------------------------------------------
  // update_produtos_mais_caros
  // ---------------------------------------------------------------------------

  /** df['Product line'] == selected_product_line, row by row; a cleared
      dropdown (None) equals no product line. */
  function LineMask(rows: seq<Record>, line: Option<string>): (m: seq<bool>)
    ensures |m| == |rows| && forall i :: 0 <= i < |rows| ==> m[i] == (line == Some(rows[i].productLine))
  {
    seq(|rows|, i requires 0 <= i < |rows| => line == Some(rows[i].productLine))
  }

  /** The rows of df_filtered.nlargest(5, 'Unit price'): of the selected line,
      as many as there are up to five, distinct rows ranked dearest first and,
      among equal prices, earlier row first; no row of the line
      left out is dearer than one returned or as dear and earlier. */
  function PriciestRows(rows: seq<Record>, line: Option<string>): (ps: seq<nat>)
    ensures |ps| == Min(5, CountTrue(LineMask(rows, line)))
    ensures Ranked(Prices(rows), ps)
    ensures forall a :: 0 <= a < |ps| ==> ps[a] < |rows| && line == Some(rows[ps[a]].productLine)
    ensures forall a, b :: 0 <= a < b < |ps| ==> rows[ps[a]].unitPrice >= rows[ps[b]].unitPrice
    ensures forall j :: 0 <= j < |rows| && line == Some(rows[j].productLine) && j !in ps ==>
              forall a :: 0 <= a < |ps| ==>
                rows[j].unitPrice < rows[ps[a]].unitPrice
                || (rows[j].unitPrice == rows[ps[a]].unitPrice && ps[a] < j)
  {
    var keys := Prices(rows);
    var ps := LargestWhere(keys, LineMask(rows, line), 5);
    RankedNonIncreasing(keys, ps);
    ps
  }

  /** The list rendered under "Produtos Mais Caros": invoice and price of each of those rows. */
  function MostExpensive(rows: seq<Record>, line: Option<string>): (r: seq<PriceEntry>)
    ensures |r| == Min(5, CountTrue(LineMask(rows, line)))
    ensures forall a, b :: 0 <= a < b < |r| ==> r[a].unitPrice >= r[b].unitPrice
    ensures forall a :: 0 <= a < |r| ==>
              var i := PriciestRows(rows, line)[a];
              r[a] == PriceEntry(rows[i].invoiceId, rows[i].unitPrice) && line == Some(rows[i].productLine)
  {
    var ps := PriciestRows(rows, line);
    seq(|ps|, a requires 0 <= a < |ps| => PriceEntry(rows[ps[a]].invoiceId, rows[ps[a]].unitPrice))
  }

  /** A cleared product-line dropdown matches no row, so the list is empty
      (the callback has no None guard of its own). */
  lemma MostExpensiveUnselected(rows: seq<Record>)
    ensures MostExpensive(rows, None) == []
  {
  }

  // ---------------------------------------------------------------------------
  // update_produtos_mais_populares / update_produtos_menos_populares
  // ---------------------------------------------------------------------------

  /** df.nlargest(10, 'Rating'): ten distinct rows, or all if fewer, best rated
      first and earlier row first among equal ratings;
      no row left out is rated higher than one returned, or as high and earlier. */
  function TopRatedRows(rows: seq<Record>): (ps: seq<nat>)
    ensures |ps| == Min(10, |rows|)
    ensures Ranked(Ratings(rows), ps)
    ensures forall a :: 0 <= a < |ps| ==> ps[a] < |rows|
    ensures forall a, b :: 0 <= a < b < |ps| ==> rows[ps[a]].rating >= rows[ps[b]].rating
    ensures forall j :: 0 <= j < |rows| && j !in ps ==>
              forall a :: 0 <= a < |ps| ==>
                rows[j].rating < rows[ps[a]].rating
                || (rows[j].rating == rows[ps[a]].rating && ps[a] < j)
  {
    var ps := Largest(Ratings(rows), AllRows(|rows|), 10);
    RankedNonIncreasing(Ratings(rows), ps);
    assert forall j :: 0 <= j < |rows| ==> j in AllRows(|rows|) by {
      forall j | 0 <= j < |rows| ensures j in AllRows(|rows|) {
        assert AllRows(|rows|)[j] == j;
      }
    }
    ps
  }

  /** df.nsmallest(10, 'Rating'): ten distinct rows, or all if fewer, worst rated
      first and earlier row first among equal ratings;
      no row left out is rated lower than one returned, or as low and earlier. */
  function BottomRatedRows(rows: seq<Record>): (ps: seq<nat>)
    ensures |ps| == Min(10, |rows|)
    ensures Ranked(NegatedRatings(rows), ps)
    ensures forall a :: 0 <= a < |ps| ==> ps[a] < |rows|
    ensures forall a, b :: 0 <= a < b < |ps| ==> rows[ps[a]].rating <= rows[ps[b]].rating
    ensures forall j :: 0 <= j < |rows| && j !in ps ==>
              forall a :: 0 <= a < |ps| ==>
                rows[j].rating > rows[ps[a]].rating
                || (rows[j].rating == rows[ps[a]].rating && ps[a] < j)
  {
    var ps := Largest(NegatedRatings(rows), AllRows(|rows|), 10);
    RankedNonIncreasing(NegatedRatings(rows), ps);
    assert forall j :: 0 <= j < |rows| ==> j in AllRows(|rows|) by {
      forall j | 0 <= j < |rows| ensures j in AllRows(|rows|) {
        assert AllRows(|rows|)[j] == j;
      }
    }
    ps
  }

  function RatingEntryOf(r: Record): RatingEntry {
    RatingEntry(r.invoiceId, r.rating, r.productLine)
  }

  /** update_produtos_mais_populares: blank without a selection, otherwise the
      invoice, rating and product line of each top-rated row, best first. */
  function MostPopular(rows: seq<Record>, selectedColumn: Option<string>): (r: Output<seq<RatingEntry>>)
    ensures r.Blank? <==> selectedColumn.None?
    ensures r.Shown? ==> |r.data| == Min(10, |rows|)
    ensures r.Shown? ==> forall a, b :: 0 <= a < b < |r.data| ==> r.data[a].rating >= r.data[b].rating
    ensures r.Shown? ==> forall a :: 0 <= a < |r.data| ==> r.data[a] == RatingEntryOf(rows[TopRatedRows(rows)[a]])
  {
    if selectedColumn.None? then Blank
    else
      var ps := TopRatedRows(rows);
      Shown(seq(|ps|, a requires 0 <= a < |ps| => RatingEntryOf(rows[ps[a]])))
  }

  /** update_produtos_menos_populares: blank without a selection, otherwise the
      invoice, rating and product line of each bottom-rated row, worst first. */
  function LeastPopular(rows: seq<Record>, selectedColumn: Option<string>): (r: Output<seq<RatingEntry>>)
    ensures r.Blank? <==> selectedColumn.None?
    ensures r.Shown? ==> |r.data| == Min(10, |rows|)
    ensures r.Shown? ==> forall a, b :: 0 <= a < b < |r.data| ==> r.data[a].rating <= r.data[b].rating
    ensures r.Shown? ==> forall a :: 0 <= a < |r.data| ==> r.data[a] == RatingEntryOf(rows[BottomRatedRows(rows)[a]])
  {
    if selectedColumn.None? then Blank
    else
      var ps := BottomRatedRows(rows);
      Shown(seq(|ps|, a requires 0 <= a < |ps| => RatingEntryOf(rows[ps[a]])))
  }

  // ---------------------------------------------------------------------------
  // Group-by charts
  // ---------------------------------------------------------------------------

  /** update_revenue_by_branch: df.groupby('Branch')['Total'].sum(), one bar per
      branch present, in Python's string order. */
  function RevenueByBranch(rows: seq<Record>, selectedColumn: Option<string>): (r: Output<seq<Group<string>>>)
    ensures r.Blank? <==> selectedColumn.None?
    ensures r.Shown? ==> Increasing(r.data, StrLess)
    ensures r.Shown? ==> forall b :: b in KeySet(r.data) <==> b in Branches(rows)
  {
    if selectedColumn.None? then Blank
    else
      StrLessIsStrictTotalOrder();
      Shown(GroupSum(Branches(rows), Totals(rows), StrLess))
  }

  /** Each branch's bar is the revenue of that branch's rows, and the bars add
      up to the revenue of all rows. */
  lemma RevenueByBranchSums(rows: seq<Record>, selectedColumn: Option<string>)
    requires selectedColumn.Some?
    ensures var t := RevenueByBranch(rows, selectedColumn).data;
      && Total(t) == Sum(Totals(rows))
      && forall i :: 0 <= i < |t| ==> t[i].value == SumWhere(Branches(rows), Totals(rows), t[i].key)
  {
    StrLessIsStrictTotalOrder();
    GroupSumConserves(Branches(rows), Totals(rows), StrLess);
    GroupSumGroups(Branches(rows), Totals(rows), StrLess);
  }

  /** update_sales_months: df.groupby('Month')['Total'].sum(), one bar per month
      present, in ascending month order. */
  function SalesByMonth(rows: seq<Record>, selectedColumn: Option<string>): (r: Output<seq<Group<int>>>)
    ensures r.Blank? <==> selectedColumn.None?
    ensures r.Shown? ==> Increasing(r.data, IntLess)
    ensures r.Shown? ==> forall m :: m in KeySet(r.data) <==> m in MonthColumn(rows)
  {
    if selectedColumn.None? then Blank
    else
      IntLessIsStrictTotalOrder();
      Shown(GroupSum(MonthColumn(rows), Totals(rows), IntLess))
  }

  /** Each month's bar is the sales of that month's rows, and the bars add up
      to the sales of all rows. */
  lemma SalesByMonthSums(rows: seq<Record>, selectedColumn: Option<string>)
    requires selectedColumn.Some?
    ensures var t := SalesByMonth(rows, selectedColumn).data;
      && Total(t) == Sum(Totals(rows))
      && forall i :: 0 <= i < |t| ==> t[i].value == SumWhere(MonthColumn(rows), Totals(rows), t[i].key)
  {
    IntLessIsStrictTotalOrder();
    GroupSumConserves(MonthColumn(rows), Totals(rows), IntLess);
    GroupSumGroups(MonthColumn(rows), Totals(rows), IntLess);
  }

  /** With decoded dates, every bar is one of the twelve months. */
  lemma SalesByMonthKeys(rows: seq<Record>, selectedColumn: Option<string>)
    requires selectedColumn.Some? && forall i :: 0 <= i < |rows| ==> ValidDate(rows[i].date)
    ensures var t := SalesByMonth(rows, selectedColumn).data;
      forall i :: 0 <= i < |t| ==> 1 <= t[i].key <= 12
  {
    var t := SalesByMonth(rows, selectedColumn).data;
    forall i | 0 <= i < |t| ensures 1 <= t[i].key <= 12 {
      KeySetMember(t, i);
      var j :| 0 <= j < |rows| && MonthColumn(rows)[j] == t[i].key;
    }
  }

  /** The grouping keeps the month and drops the year: sales of the same month
      in two different years land in one bar. */
  lemma SalesByMonthMergesYears(r1: Record, r2: Record, selectedColumn: Option<string>)
    requires selectedColumn.Some? && r1.date.month == r2.date.month
    ensures SalesByMonth([r1, r2], selectedColumn) == Shown([Group(r1.date.month, r1.total + r2.total)])
  {
    var m := r1.date.month;
    IntLessIsStrictTotalOrder();
    var ms, ts := MonthColumn([r1, r2]), Totals([r1, r2]);
    assert ms[..1] == [m] && ts[..1] == [r1.total];
    assert ms[..1][..0] == [] && ts[..1][..0] == [];
    assert GroupSum([m], [r1.total], IntLess) == Add([], m, r1.total, IntLess) == [Group(m, r1.total)];
    assert ms[1] == m && ts[1] == r2.total;
    assert GroupSum(ms, ts, IntLess) == Add(GroupSum(ms[..1], ts[..1], IntLess), m, r2.total, IntLess);
    assert [Group(m, r1.total)][1..] == [];
    assert Add([Group(m, r1.total)], m, r2.total, IntLess) == [Group(m, r1.total + r2.total)];
  }

  /** update_customer_profile: df.groupby(['City', 'Customer type', 'Gender'])[col].count(),
      one bar per combination present, ordered as tuples. */
  function CustomerProfile(rows: seq<Record>, selectedColumn: Option<string>): (r: Output<seq<Group<Triple>>>)
    ensures r.Blank? <==> selectedColumn.None?
    ensures r.Shown? ==> Increasing(r.data, TripleLess)
    ensures r.Shown? ==> forall k :: k in KeySet(r.data) <==> k in ProfileKeys(rows)
  {
    if selectedColumn.None? then Blank
    else
      TripleLessIsStrictTotalOrder();
      Shown(GroupSum(ProfileKeys(rows), RatingCounts(rows), TripleLess))
  }

  /** Each bar counts the rows of its combination, and the counts add up to
      the number of rows with a rating. */
  lemma CustomerProfileCounts(rows: seq<Record>, selectedColumn: Option<string>)
    requires selectedColumn.Some?
    ensures var t := CustomerProfile(rows, selectedColumn).data;
      && Total(t) == |rows|
      && forall i :: 0 <= i < |t| ==> t[i].value == SumWhere(ProfileKeys(rows), RatingCounts(rows), t[i].key)
  {
    TripleLessIsStrictTotalOrder();
    GroupSumConserves(ProfileKeys(rows), RatingCounts(rows), TripleLess);
    GroupSumGroups(ProfileKeys(rows), RatingCounts(rows), TripleLess);
    SumOfOnes(RatingCounts(rows));
  }

  // ---------------------------------------------------------------------------
  // update_sales_pattern
  // ---------------------------------------------------------------------------

  /** The labels and values handed to go.Pie, slice by slice. */
  datatype Pie = Pie(labels: seq<string>, values: seq<int>)

  /** The labels are fixed in the source, weekday first. */
  const PatternLabels: seq<string> := ["Dia da Semana", "Fim de Semana"]

  /** Sales of the rows falling on Saturday or Sunday. */
  function WeekendTotal(rows: seq<Record>): int {
    SumWhere(WeekdayColumn(rows), Totals(rows), false)
  }

  /** Sales of the rows falling on Monday to Friday. */
  function WeekdayTotal(rows: seq<Record>): int {
    SumWhere(WeekdayColumn(rows), Totals(rows), true)
  }

  /** The weekday/weekend table, df.groupby('Weekday_or_weekend')['Total'].sum(). */
  function PatternGroups(rows: seq<Record>): (t: seq<Group<bool>>)
    ensures Increasing(t, BoolLess)
    ensures forall k :: k in KeySet(t) <==> k in WeekdayColumn(rows)
  {
    BoolLessIsStrictTotalOrder();
    GroupSum(WeekdayColumn(rows), Totals(rows), BoolLess)
  }

  /** update_sales_pattern as written: the fixed labels, and the group sums in
      groupby order, False (weekend) before True (weekday). */
  function SalesPattern(rows: seq<Record>, selectedColumn: Option<string>): (r: Output<Pie>)
    ensures r.Blank? <==> selectedColumn.None?
    ensures r.Shown? ==> r.data.labels == PatternLabels
  {
    if selectedColumn.None? then Blank
    else Shown(Pie(PatternLabels, Values(PatternGroups(rows))))
  }

  /** A table ordered by False < True has at most one group per flag, weekend first. */
  lemma BoolGroupsShape(t: seq<Group<bool>>)
    requires Increasing(t, BoolLess)
    ensures |t| <= 2
    ensures |t| == 2 ==> !t[0].key && t[1].key
  {
    forall i | 0 < i < |t| ensures t[i].key {
      assert BoolLess(t[0].key, t[i].key);
    }
    forall i | 0 <= i < |t| - 1 ensures !t[i].key {
      assert BoolLess(t[i].key, t[|t| - 1].key);
    }
    if |t| > 1 {
      assert t[1].key;
    }
  }

  /** The weekday/weekend table holds the weekend group (if any rows fall on a
      weekend) and then the weekday group (if any fall on a weekday), each with
      its own sum; together they hold all the sales. */
  lemma PatternGroupsContents(rows: seq<Record>)
    ensures var t := PatternGroups(rows);
      && Total(t) == Sum(Totals(rows))
      && Values(t) == (if false in WeekdayColumn(rows) then [WeekendTotal(rows)] else [])
                    + (if true in WeekdayColumn(rows) then [WeekdayTotal(rows)] else [])
  {
    var flags, totals := WeekdayColumn(rows), Totals(rows);
    var t := PatternGroups(rows);
    BoolLessIsStrictTotalOrder();
    GroupSumConserves(flags, totals, BoolLess);
    GroupSumGroups(flags, totals, BoolLess);
    BoolGroupsShape(t);
    forall i | 0 <= i < |t| ensures t[i].key in flags {
      KeySetMember(t, i);
    }
    var hasWeekend, hasWeekday := false in flags, true in flags;
    if hasWeekend {
      assert false in KeySet(t);
      var i := KeySetIndex(t, false);
      assert i == 0;
    }
    if hasWeekday {
      assert true in KeySet(t);
      var i := KeySetIndex(t, true);
      assert i == |t| - 1;
    }
    if hasWeekend && hasWeekday {
      assert |t| == 2;
    } else if hasWeekend || hasWeekday {
      assert |t| == 1;
    } else {
      assert |t| == 0;
    }
  }

  /** The pie values add up to all the sales; with sales on both kinds of day
      they are [weekend, weekday]. */
  lemma SalesPatternValues(rows: seq<Record>, selectedColumn: Option<string>)
    requires selectedColumn.Some?
    ensures var v := SalesPattern(rows, selectedColumn).data.values;
      && Sum(v) == Sum(Totals(rows))
      && (false in WeekdayColumn(rows) && true in WeekdayColumn(rows) ==> v == [WeekendTotal(rows), WeekdayTotal(rows)])
  {
    PatternGroupsContents(rows);
    SumOfValues(PatternGroups(rows));
  }

  /** The quirk: with sales on both kinds of day, the slice labelled
      "Dia da Semana" (weekday) shows the weekend sales and the slice labelled
      "Fim de Semana" (weekend) the weekday sales. */
  lemma SalesPatternMislabels(rows: seq<Record>, selectedColumn: Option<string>)
    requires selectedColumn.Some? && false in WeekdayColumn(rows) && true in WeekdayColumn(rows)
    ensures var p := SalesPattern(rows, selectedColumn).data;
      && |p.values| == 2
      && p.labels[0] == "Dia da Semana" && p.values[0] == WeekendTotal(rows)
      && p.labels[1] == "Fim de Semana" && p.values[1] == WeekdayTotal(rows)
  {
    SalesPatternValues(rows, selectedColumn);
  }

  /** A sale of the given amount on the given weekday (Monday = 0). */
  function SampleSale(dayOfWeek: int, total: int): Record {
    Record("", "A", "Yangon", "Member", "Female", "Health and beauty", 0, 1, total,
           Date(2019, 1, dayOfWeek), "Cash", 70)
  }

  /** One week: five weekday sales of 10 and two weekend sales of 20. */
  function SampleWeek(): seq<Record> {
    [SampleSale(0, 10), SampleSale(1, 10), SampleSale(2, 10), SampleSale(3, 10),
     SampleSale(4, 10), SampleSale(5, 20), SampleSale(6, 20)]
  }

  lemma SampleWeekTotals()
    ensures WeekendTotal(SampleWeek()) == 40 && WeekdayTotal(SampleWeek()) == 50
    ensures false in WeekdayColumn(SampleWeek()) && true in WeekdayColumn(SampleWeek())
  {
    var w := SampleWeek();
    var flags, totals := WeekdayColumn(w), Totals(w);
    assert flags == [true, true, true, true, true, false, false];
    assert totals == [10, 10, 10, 10, 10, 20, 20];
    assert SumWhere(flags[..0], totals[..0], true) == 0 && SumWhere(flags[..0], totals[..0], false) == 0;
    assert flags[..1][..0] == flags[..0] && totals[..1][..0] == totals[..0];
    assert SumWhere(flags[..1], totals[..1], true) == 10 && SumWhere(flags[..1], totals[..1], false) == 0;
    assert flags[..2][..1] == flags[..1] && totals[..2][..1] == totals[..1];
    assert SumWhere(flags[..2], totals[..2], true) == 20 && SumWhere(flags[..2], totals[..2], false) == 0;
    assert flags[..3][..2] == flags[..2] && totals[..3][..2] == totals[..2];
    assert SumWhere(flags[..3], totals[..3], true) == 30 && SumWhere(flags[..3], totals[..3], false) == 0;
    assert flags[..4][..3] == flags[..3] && totals[..4][..3] == totals[..3];
    assert SumWhere(flags[..4], totals[..4], true) == 40 && SumWhere(flags[..4], totals[..4], false) == 0;
    assert flags[..5][..4] == flags[..4] && totals[..5][..4] == totals[..4];
    assert SumWhere(flags[..5], totals[..5], true) == 50 && SumWhere(flags[..5], totals[..5], false) == 0;
    assert flags[..6][..5] == flags[..5] && totals[..6][..5] == totals[..5];
    assert SumWhere(flags[..6], totals[..6], true) == 50 && SumWhere(flags[..6], totals[..6], false) == 20;
    assert flags[..7][..6] == flags[..6] && totals[..7][..6] == totals[..6];
    assert flags[..7] == flags && totals[..7] == totals;
  }

  /** On that week the weekday slice shows 40 and the weekend slice 50. */
  lemma SalesPatternSampleWeek()
    ensures SalesPattern(SampleWeek(), Some("Rating")) == Shown(Pie(PatternLabels, [40, 50]))
  {
    SampleWeekTotals();
    SalesPatternValues(SampleWeek(), Some("Rating"));
  }

  /** The label of a group: what the fixed labels were meant to say. */
  function PatternLabel(weekday: bool): string {
    if weekday then "Dia da Semana" else "Fim de Semana"
  }

  /** update_sales_pattern corrected: every slice labelled from its own group's key. */
  function SalesPatternLabelled(rows: seq<Record>, selectedColumn: Option<string>): (r: Output<Pie>)
    ensures r.Blank? <==> selectedColumn.None?
    ensures r.Shown? ==> |r.data.labels| == |r.data.values|
  {
    if selectedColumn.None? then Blank
    else
      var t := PatternGroups(rows);
      Shown(Pie(seq(|t|, i requires 0 <= i < |t| => PatternLabel(t[i].key)), Values(t)))
  }

  /** In the corrected pie the weekday slice shows the weekday sales and the
      weekend slice the weekend sales, and the slices add up to all the sales. */
  lemma SalesPatternLabelledCorrect(rows: seq<Record>, selectedColumn: Option<string>)
    requires selectedColumn.Some?
    ensures var p := SalesPatternLabelled(rows, selectedColumn).data;
      && Sum(p.values) == Sum(Totals(rows))
      && (forall i :: 0 <= i < |p.labels| && p.labels[i] == "Dia da Semana" ==> p.values[i] == WeekdayTotal(rows))
      && (forall i :: 0 <= i < |p.labels| && p.labels[i] == "Fim de Semana" ==> p.values[i] == WeekendTotal(rows))
  {
    var flags, totals := WeekdayColumn(rows), Totals(rows);
    var t := PatternGroups(rows);
    var p := SalesPatternLabelled(rows, selectedColumn).data;
    BoolLessIsStrictTotalOrder();
    GroupSumConserves(flags, totals, BoolLess);
    GroupSumGroups(flags, totals, BoolLess);
    SumOfValues(t);
    assert p.values == Values(t);
    forall i | 0 <= i < |p.labels|
      ensures p.values[i] == SumWhere(flags, totals, t[i].key)
      ensures p.labels[i] == "Dia da Semana" <==> t[i].key
    {
    }
  }

  /** The corrected pie has a slice for each kind of day that has sales, and no other. */
  lemma SalesPatternLabelledSlices(rows: seq<Record>, selectedColumn: Option<string>)
    requires selectedColumn.Some?
    ensures var p := SalesPatternLabelled(rows, selectedColumn).data;
      && ("Dia da Semana" in p.labels <==> true in WeekdayColumn(rows))
      && ("Fim de Semana" in p.labels <==> false in WeekdayColumn(rows))
  {
    var flags := WeekdayColumn(rows);
    var t := PatternGroups(rows);
    var p := SalesPatternLabelled(rows, selectedColumn).data;
    assert forall i :: 0 <= i < |t| ==> p.labels[i] == PatternLabel(t[i].key);
    forall k | k in flags ensures PatternLabel(k) in p.labels {
      assert k in KeySet(t);
      var i := KeySetIndex(t, k);
      assert p.labels[i] == PatternLabel(k);
    }
    forall i | 0 <= i < |t| ensures t[i].key in flags {
      KeySetMember(t, i);
    }
  }
}
