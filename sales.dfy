/**
  The sales record set the dashboard holds in memory (index.py), and the
  columns it derives from it in place: the numeric payment code, the month
  and the weekday/weekend flag.

  Money (unit price, total) and ratings are fixed-point integers, so that no
  floating point is involved; dates are already decoded.
*/
module Sales {
  import opened Wrappers

  /** A decoded calendar date: month 1..12, day of week with Monday = 0. */
  datatype Date = Date(year: int, month: int, dayOfWeek: int)

  ghost predicate ValidDate(d: Date) {
    1 <= d.month <= 12 && 0 <= d.dayOfWeek <= 6
  }

  /** One row of vendasnovo.csv, restricted to the fields the dashboard reads. */
  datatype Record = Record(
    invoiceId: string,
    branch: string,
    city: string,
    customerType: string,
    gender: string,
    productLine: string,
    unitPrice: int,
    quantity: int,
    total: int,
    date: Date,
    payment: string,
    rating: int)

  // ---------------------------------------------------------------------------
  // method_payment_mapping and df['Payment'].map(...)
  // ---------------------------------------------------------------------------

  /** The dictionary lookup that Series.map performs: a method the dictionary
      lacks maps to a missing value. */
  function PaymentCode(payment: string): (c: Option<int>)
    ensures c.Some? <==> payment == "Ewallet" || payment == "Cash" || payment == "Credit card"
    ensures c.Some? ==> 0 <= c.value <= 2 && PaymentMethod(c.value) == Some(payment)
  {
    if payment == "Ewallet" then Some(0)
    else if payment == "Cash" then Some(1)
    else if payment == "Credit card" then Some(2)
    else None
  }

  /** The dictionary read backwards: the method a code stands for. */
  function PaymentMethod(code: int): (m: Option<string>) {
    if code == 0 then Some("Ewallet")
    else if code == 1 then Some("Cash")
    else if code == 2 then Some("Credit card")
    else None
  }

  /** The mapping is a bijection between the three methods and the codes 0, 1, 2;
      every other method is missing. */
  lemma PaymentCodeInverse(payment: string, code: int)
    ensures PaymentCode(payment) == Some(code) <==> PaymentMethod(code) == Some(payment)
    ensures PaymentCode(payment).Some? ==> 0 <= PaymentCode(payment).value <= 2
    ensures PaymentCode(payment).None? <==> payment != "Ewallet" && payment != "Cash" && payment != "Credit card"
  {
  }

  /** df['Payment_numeric']: the code of every row, in row order. */
  function PaymentColumn(rows: seq<Record>): (c: seq<Option<int>>)
    ensures |c| == |rows|
    ensures forall i :: 0 <= i < |rows| ==> c[i] == PaymentCode(rows[i].payment)
  {
    seq(|rows|, i requires 0 <= i < |rows| => PaymentCode(rows[i].payment))
  }

  /** df['Month'] = df['Date'].dt.month: the month alone, the year dropped. */
  function MonthColumn(rows: seq<Record>): (c: seq<int>)
    ensures |c| == |rows|
    ensures forall i :: 0 <= i < |rows| ==> c[i] == rows[i].date.month
  {
    seq(|rows|, i requires 0 <= i < |rows| => rows[i].date.month)
  }

  /** True for Monday to Friday, False for Saturday and Sunday. */
  predicate IsWeekday(r: Record) {
    r.date.dayOfWeek < 5
  }

  /** df['Weekday_or_weekend'] = df['Date'].dt.dayofweek < 5. */
  function WeekdayColumn(rows: seq<Record>): (c: seq<bool>)
    ensures |c| == |rows|
    ensures forall i :: 0 <= i < |rows| ==> c[i] == (rows[i].date.dayOfWeek < 5)
  {
    seq(|rows|, i requires 0 <= i < |rows| => IsWeekday(rows[i]))
  }

  /** A point of the price/payment scatter plot, labelled by invoice. */
  datatype ScatterPoint = ScatterPoint(unitPrice: int, paymentCode: Option<int>, invoiceId: string)

  /**
    The global frame of index.py. The record columns never change; the three
    derived columns are absent until a callback assigns them into the frame.
  */
  class SalesFrame {
    var rows: seq<Record>
    var paymentNumeric: Option<seq<Option<int>>>
    var month: Option<seq<int>>
    var weekdayOrWeekend: Option<seq<bool>>

    /** A derived column, once present, holds the value derived from its own row. */
    ghost predicate Valid()
      reads this
    {
      && (paymentNumeric.Some? ==> paymentNumeric.value == PaymentColumn(rows))
      && (month.Some? ==> month.value == MonthColumn(rows))
      && (weekdayOrWeekend.Some? ==> weekdayOrWeekend.value == WeekdayColumn(rows))
    }

    /** pd.read_csv: the records, and none of the derived columns yet. */
    constructor (records: seq<Record>)
      ensures Valid() && rows == records
      ensures paymentNumeric == None && month == None && weekdayOrWeekend == None
    {
      rows := records;
      paymentNumeric := None;
      month := None;
      weekdayOrWeekend := None;
    }

    /** df['Payment_numeric'] = df['Payment'].map(method_payment_mapping). */
    method AddPaymentNumeric()
      requires Valid()
      modifies this
      ensures Valid()
      ensures paymentNumeric == Some(PaymentColumn(rows))
      ensures rows == old(rows) && month == old(month) && weekdayOrWeekend == old(weekdayOrWeekend)
    {
      paymentNumeric := Some(PaymentColumn(rows));
    }

    /** df['Month'] = df['Date'].dt.month. */
    method AddMonth()
      requires Valid()
      modifies this
      ensures Valid()
      ensures month == Some(MonthColumn(rows))
      ensures rows == old(rows) && paymentNumeric == old(paymentNumeric) && weekdayOrWeekend == old(weekdayOrWeekend)
    {
      month := Some(MonthColumn(rows));
    }

    /** df['Weekday_or_weekend'] = df['Date'].dt.dayofweek < 5. */
    method AddWeekdayOrWeekend()
      requires Valid()
      modifies this
      ensures Valid()
      ensures weekdayOrWeekend == Some(WeekdayColumn(rows))
      ensures rows == old(rows) && paymentNumeric == old(paymentNumeric) && month == old(month)
    {
      weekdayOrWeekend := Some(WeekdayColumn(rows));
    }

    /** All three derived columns, computed once before the dashboard is used. */
    method AddDerivedColumns()
      requires Valid()
      modifies this
      ensures Valid() && rows == old(rows)
      ensures paymentNumeric.Some? && month.Some? && weekdayOrWeekend.Some?
    {
      AddPaymentNumeric();
      AddMonth();
      AddWeekdayOrWeekend();
    }

    /** update_scatter_plot: one point per row, price against payment code,
        whatever the selected column (both branches draw the same plot). */
    method ScatterPlot(selectedColumn: Option<string>) returns (points: seq<ScatterPoint>)
      requires Valid() && paymentNumeric.Some?
      ensures |points| == |rows|
      ensures forall i :: 0 <= i < |rows| ==>
                && points[i].unitPrice == rows[i].unitPrice
                && points[i].invoiceId == rows[i].invoiceId
                && points[i].paymentCode == PaymentCode(rows[i].payment)
    {
      var rs, codes := rows, paymentNumeric.value;
      points := seq(|rs|, i requires 0 <= i < |rs| => ScatterPoint(rs[i].unitPrice, codes[i], rs[i].invoiceId));
    }
  }
}
