/**
 * The balance of one project: the payments recorded against it, what has been
 * paid in total, and what is still due.
 */
module Balance {
  import opened Records

  /** The rows `SELECT ... FROM payments WHERE client_id = clientId` yields, in table order. */
  function PaymentsOf(ps: seq<Payment>, clientId: nat): (r: seq<Payment>)
    ensures |r| <= |ps|
    ensures forall p :: p in r <==> p in ps && p.clientId == clientId
  {
    if ps == [] then []
    else if ps[0].clientId == clientId then [ps[0]] + PaymentsOf(ps[1..], clientId)
    else PaymentsOf(ps[1..], clientId)
  }

  /** The payments that survive `DELETE FROM payments WHERE client_id = clientId`, in table order. */
  function PaymentsNotOf(ps: seq<Payment>, clientId: nat): (r: seq<Payment>)
    ensures |r| <= |ps|
    ensures forall p :: p in r <==> p in ps && p.clientId != clientId
    ensures PaymentIdsIncreasing(ps) ==> PaymentIdsIncreasing(r)
  {
    if ps == [] then []
    else if ps[0].clientId != clientId then [ps[0]] + PaymentsNotOf(ps[1..], clientId)
    else PaymentsNotOf(ps[1..], clientId)
  }

  /** Payment ids strictly increase along the table (AUTOINCREMENT, rows in insertion order). */
  predicate PaymentIdsIncreasing(ps: seq<Payment>)
  {
    forall i, j :: 0 <= i < j < |ps| ==> ps[i].id < ps[j].id
  }

  /** Every recorded amount is strictly positive, as the add-payment guard ensures. */
  predicate AllPositive(ps: seq<Payment>)
  {
    forall p :: p in ps ==> p.amount > 0.0
  }

  /** The sum of the amounts of `ps`; 0 for no payments. */
  function Sum(ps: seq<Payment>): real
  {
    if ps == [] then 0.0 else ps[0].amount + Sum(ps[1..])
  }

  /** What has been paid against project `clientId`. */
  function TotalPaid(ps: seq<Payment>, clientId: nat): real
  {
    Sum(PaymentsOf(ps, clientId))
  }

  /** What is still due on a quotation; negative when the project is overpaid. */
  function Remaining(totalAmount: real, totalPaid: real): real
  {
    totalAmount - totalPaid
  }

  /**
   * A reference definition of the amount paid against `clientId`: every row of
   * the whole table contributes its amount when it belongs to the project and
   * nothing otherwise.
   */
  function MaskedSum(ps: seq<Payment>, clientId: nat): real
  {
    if ps == [] then 0.0
    else (if ps[0].clientId == clientId then ps[0].amount else 0.0) + MaskedSum(ps[1..], clientId)
  }

  /** The generator sum over fetched rows, left to right. */
  method SumAmounts(rows: seq<Payment>) returns (total: real)
    ensures total == Sum(rows)
  {
    total := 0.0;
    var i := 0;
    while i < |rows|
      invariant 0 <= i <= |rows|
      invariant total == Sum(rows[..i])
    {
      assert rows[..i + 1] == rows[..i] + [rows[i]];
      SumConcat(rows[..i], [rows[i]]);
      total := total + rows[i].amount;
      i := i + 1;
    }
    assert rows[..i] == rows;
  }

  lemma {:induction false} SumConcat(a: seq<Payment>, b: seq<Payment>)
    ensures Sum(a + b) == Sum(a) + Sum(b)
  {
    if a == [] {
      assert a + b == b;
    } else {
      assert (a + b)[1..] == a[1..] + b;
      SumConcat(a[1..], b);
    }
  }

  lemma {:induction false} PaymentsOfConcat(a: seq<Payment>, b: seq<Payment>, clientId: nat)
    ensures PaymentsOf(a + b, clientId) == PaymentsOf(a, clientId) + PaymentsOf(b, clientId)
  {
    if a == [] {
      assert a + b == b;
    } else {
      assert (a + b)[1..] == a[1..] + b;
      PaymentsOfConcat(a[1..], b, clientId);
    }
  }

  /** Appending one row changes the total of its own project by its amount and no other total. */
  lemma TotalPaidSnoc(ps: seq<Payment>, p: Payment, clientId: nat)
    ensures TotalPaid(ps + [p], clientId)
         == TotalPaid(ps, clientId) + (if p.clientId == clientId then p.amount else 0.0)
  {
    PaymentsOfConcat(ps, [p], clientId);
    SumConcat(PaymentsOf(ps, clientId), PaymentsOf([p], clientId));
  }

  /** The filtered sum agrees with the reference definition over the whole table. */
  lemma {:induction false} TotalPaidIsMaskedSum(ps: seq<Payment>, clientId: nat)
    ensures TotalPaid(ps, clientId) == MaskedSum(ps, clientId)
  {
    if ps != [] {
      TotalPaidIsMaskedSum(ps[1..], clientId);
      if ps[0].clientId == clientId {
        assert PaymentsOf(ps, clientId) == [ps[0]] + PaymentsOf(ps[1..], clientId);
        SumConcat([ps[0]], PaymentsOf(ps[1..], clientId));
      }
    }
  }

  lemma {:induction false} SumPositive(ps: seq<Payment>)
    requires AllPositive(ps)
    ensures Sum(ps) >= 0.0
    ensures Sum(ps) == 0.0 <==> ps == []
  {
    if ps != [] {
      assert ps[0] in ps;
      assert AllPositive(ps[1..]) by {
        forall p | p in ps[1..] ensures p.amount > 0.0 {
          assert p in ps;
        }
      }
      SumPositive(ps[1..]);
    }
  }

  /**
   * With positive amounts, the total paid is never negative, and it is zero
   * exactly when the project has no payment rows.
   */
  lemma TotalPaidPositive(ps: seq<Payment>, clientId: nat)
    requires AllPositive(ps)
    ensures TotalPaid(ps, clientId) >= 0.0
    ensures TotalPaid(ps, clientId) == 0.0 <==> PaymentsOf(ps, clientId) == []
  {
    SumPositive(PaymentsOf(ps, clientId));
  }

  /** The cascade delete of one project's payments leaves every other project's rows as they were. */
  lemma {:induction false} CascadeKeepsOthers(ps: seq<Payment>, clientId: nat, other: nat)
    requires other != clientId
    ensures PaymentsOf(PaymentsNotOf(ps, clientId), other) == PaymentsOf(ps, other)
  {
    if ps != [] {
      CascadeKeepsOthers(ps[1..], clientId, other);
      if ps[0].clientId != clientId {
        assert PaymentsNotOf(ps, clientId) == [ps[0]] + PaymentsNotOf(ps[1..], clientId);
        PaymentsOfConcat([ps[0]], PaymentsNotOf(ps[1..], clientId), other);
      }
    }
  }

  /** The cascade delete removes exactly the deleted project's rows: the two parts partition the table. */
  lemma {:induction false} CascadePartition(ps: seq<Payment>, clientId: nat)
    ensures |PaymentsOf(ps, clientId)| + |PaymentsNotOf(ps, clientId)| == |ps|
    ensures PaymentsOf(PaymentsNotOf(ps, clientId), clientId) == []
  {
    if ps != [] {
      CascadePartition(ps[1..], clientId);
    }
  }
}
