/**
 * The content of the downloadable receipt as an ordered list of rows: the
 * title, six labelled lines, the table header and one row per payment.
 */
module Receipt {
  import opened Records
  import opened Balance

  /** The value printed after a label: text as given, or an amount of money. */
  datatype Value = Text(text: string) | Money(amount: real)

  datatype Row =
    | Title(text: string)
    | Line(caption: string, value: Value)
    | TableHeader(left: string, right: string)
    | PaymentRow(date: string, amount: real)

  const TitleText: string := "Quotation / Receipt"

  /** The labels of the six lines, in the order they are written. */
  const Labels: seq<string> :=
    ["Project", "Client", "Created", "Total Quotation", "Total Paid", "Remaining Due"]

  /** Where the payments table starts: after the title, the six lines and the header. */
  const TableStart: nat := 8

  function PaymentRows(ps: seq<Payment>): seq<Row>
  {
    if ps == [] then [] else [PaymentRow(ps[0].date, ps[0].amount)] + PaymentRows(ps[1..])
  }

  /** The rows of the receipt for project `c` whose fetched payments are `ps`. */
  function ReceiptRows(c: Client, ps: seq<Payment>): seq<Row>
  {
    var paid := Sum(ps);
    [ Title(TitleText),
      Line("Project", Text(c.projectName)),
      Line("Client", Text(c.clientName)),
      Line("Created", Text(c.createdDate)),
      Line("Total Quotation", Money(c.totalAmount)),
      Line("Total Paid", Money(paid)),
      Line("Remaining Due", Money(Remaining(c.totalAmount, paid))),
      TableHeader("Payment Date", "Amount (₹)") ]
    + PaymentRows(ps)
  }

  /** The receipt is offered only for a project that has at least one payment row. */
  function ReceiptFor(c: Client, payments: seq<Payment>): (r: Option<seq<Row>>)
    ensures r.Some? <==> exists p :: p in payments && p.clientId == c.id
  {
    var ps := PaymentsOf(payments, c.id);
    if ps == [] then None
    else
      assert ps[0] in ps;
      Some(ReceiptRows(c, ps))
  }

  /** The amount written on a labelled line, or 0 for any other row. */
  function MoneyOn(row: Row): real
  {
    if row.Line? && row.value.Money? then row.value.amount else 0.0
  }

  /** Reads the payments table back: the sum of the amounts in its rows. */
  function TableTotal(rows: seq<Row>): real
  {
    if rows == [] then 0.0
    else (if rows[0].PaymentRow? then rows[0].amount else 0.0) + TableTotal(rows[1..])
  }

  lemma {:induction false} PaymentRowsAt(ps: seq<Payment>, i: nat)
    requires i < |ps|
    ensures |PaymentRows(ps)| == |ps|
    ensures PaymentRows(ps)[i] == PaymentRow(ps[i].date, ps[i].amount)
  {
    if i == 0 {
      PaymentRowsLength(ps);
    } else {
      PaymentRowsAt(ps[1..], i - 1);
    }
  }

  lemma {:induction false} PaymentRowsLength(ps: seq<Payment>)
    ensures |PaymentRows(ps)| == |ps|
  {
    if ps != [] {
      PaymentRowsLength(ps[1..]);
    }
  }

  /**
   * The layout: the title first, then the six lines in their fixed order with
   * the project's fields, then the two-column header, then one row per
   * payment in the order the payments were fetched.
   */
  lemma ReceiptLayout(c: Client, ps: seq<Payment>)
    ensures var rows := ReceiptRows(c, ps);
      && |rows| == TableStart + |ps|
      && rows[0] == Title(TitleText)
      && (forall k :: 1 <= k < 7 ==> rows[k].Line? && rows[k].caption == Labels[k - 1])
      && rows[1].value == Text(c.projectName)
      && rows[2].value == Text(c.clientName)
      && rows[3].value == Text(c.createdDate)
      && rows[4].value == Money(c.totalAmount)
      && rows[5].value == Money(Sum(ps))
      && rows[6].value == Money(Remaining(c.totalAmount, Sum(ps)))
      && rows[7] == TableHeader("Payment Date", "Amount (₹)")
      && (forall i :: 0 <= i < |ps| ==> rows[TableStart + i] == PaymentRow(ps[i].date, ps[i].amount))
  {
    PaymentRowsLength(ps);
    forall i | 0 <= i < |ps| ensures ReceiptRows(c, ps)[TableStart + i] == PaymentRow(ps[i].date, ps[i].amount) {
      PaymentRowsAt(ps, i);
    }
  }

  lemma {:induction false} TableTotalOfRows(ps: seq<Payment>)
    ensures TableTotal(PaymentRows(ps)) == Sum(ps)
  {
    if ps != [] {
      TableTotalOfRows(ps[1..]);
      assert PaymentRows(ps)[1..] == PaymentRows(ps[1..]);
    }
  }

  /**
   * The receipt agrees with itself: the Total Paid line is the sum of the
   * amounts in the payments table, and the Remaining Due line is the
   * quotation minus that sum.
   */
  lemma ReceiptTotalsAgree(c: Client, ps: seq<Payment>)
    ensures var rows := ReceiptRows(c, ps);
      && |rows| >= TableStart
      && MoneyOn(rows[5]) == TableTotal(rows[TableStart..])
      && MoneyOn(rows[6]) == MoneyOn(rows[4]) - TableTotal(rows[TableStart..])
  {
    var rows := ReceiptRows(c, ps);
    PaymentRowsLength(ps);
    assert rows[TableStart..] == PaymentRows(ps);
    TableTotalOfRows(ps);
  }

  /**
   * For a project of the ledger, the receipt is offered exactly when its total
   * paid is positive, and then lists every one of its payments.
   */
  lemma ReceiptOffered(c: Client, payments: seq<Payment>)
    requires AllPositive(payments)
    ensures ReceiptFor(c, payments).Some? <==> TotalPaid(payments, c.id) > 0.0
    ensures ReceiptFor(c, payments).Some? ==>
              |ReceiptFor(c, payments).value| == TableStart + |PaymentsOf(payments, c.id)|
  {
    TotalPaidPositive(payments, c.id);
    PaymentRowsLength(PaymentsOf(payments, c.id));
  }
}
