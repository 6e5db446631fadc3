/**
 * The ledger as the program holds it: one store object whose two tables and
 * AUTOINCREMENT counters the add and delete actions update in place, and the
 * listing pass that reads every project's balance.
 */
module LedgerStore {
  import opened Records
  import opened Balance
  import opened LedgerModel

  /** What the listing shows for one project. */
  datatype ProjectView = ProjectView(
    client: Client,
    payments: seq<Payment>,
    totalPaid: real,
    remaining: real)

  class Ledger {
    var clients: seq<Client>
    var payments: seq<Payment>
    var clientSeq: nat
    var paymentSeq: nat

    /** The current contents of the database. */
    function Snapshot(): Db
      reads this
    {
      Db(clients, payments, clientSeq, paymentSeq)
    }

    ghost predicate Valid()
      reads this
    {
      LedgerModel.Valid(Snapshot())
    }

    /** Opens a store whose tables already exist (`CREATE TABLE IF NOT EXISTS`). */
    constructor Open(stored: Db)
      requires LedgerModel.Valid(stored)
      ensures Valid()
      ensures Snapshot() == stored
    {
      clients := stored.clients;
      payments := stored.payments;
      clientSeq := stored.clientSeq;
      paymentSeq := stored.paymentSeq;
    }

    /** Inserts a project row when both names are given and the quotation is positive. */
    method AddProject(name: string, client: string, total: real, now: string) returns (added: bool)
      requires Valid()
      modifies this
      ensures Valid()
      ensures added == ProjectAccepted(name, client, total)
      ensures Snapshot() == LedgerModel.AddProject(old(Snapshot()), name, client, total, now)
      ensures added ==> clients[|clients| - 1].id == clientSeq > old(clientSeq)
      ensures !added ==> unchanged(this)
    {
      AddProjectPreservesValid(Snapshot(), name, client, total, now);
      added := name != "" && client != "" && total > 0.0;
      if added {
        clientSeq := clientSeq + 1;
        clients := clients + [Client(clientSeq, name, client, total, now)];
      }
    }

    /** Inserts a payment row for a listed project when the amount is positive. */
    method AddPayment(clientId: nat, amount: real, now: string) returns (added: bool)
      requires Valid()
      requires clientId in ClientIds(clients)
      modifies this
      ensures Valid()
      ensures added == PaymentAccepted(amount)
      ensures Snapshot() == LedgerModel.AddPayment(old(Snapshot()), clientId, amount, now)
      ensures forall x :: TotalPaid(payments, x)
                == old(TotalPaid(payments, x)) + (if added && x == clientId then amount else 0.0)
      ensures !added ==> unchanged(this)
    {
      AddPaymentPreservesValid(Snapshot(), clientId, amount, now);
      added := amount > 0.0;
      if added {
        var p := Payment(paymentSeq + 1, clientId, amount, now);
        forall x ensures TotalPaid(payments + [p], x)
                         == TotalPaid(payments, x) + (if x == clientId then amount else 0.0) {
          TotalPaidSnoc(payments, p, x);
        }
        paymentSeq := paymentSeq + 1;
        payments := payments + [p];
      }
    }

    /** Deletes the project's payments, then the project, and commits both together. */
    method DeleteProject(id: nat)
      requires Valid()
      modifies this
      ensures Valid()
      ensures Snapshot() == LedgerModel.DeleteProject(old(Snapshot()), id)
      ensures id !in ClientIds(clients) && TotalPaid(payments, id) == 0.0
      ensures forall x :: x != id ==> PaymentsOf(payments, x) == old(PaymentsOf(payments, x))
      ensures clientSeq == old(clientSeq) && paymentSeq == old(paymentSeq)
    {
      DeleteProjectPreservesValid(Snapshot(), id);
      DeleteProjectSpec(Snapshot(), id);
      payments := PaymentsNotOf(payments, id);
      clients := ClientsWithout(clients, id);
    }

    /**
     * The listing pass: for each project in table order, fetch its payments,
     * sum them, and subtract the sum from the quotation.
     */
    method ListProjects() returns (views: seq<ProjectView>)
      ensures |views| == |clients|
      ensures forall i :: 0 <= i < |views| ==>
                && views[i].client == clients[i]
                && views[i].payments == PaymentsOf(payments, clients[i].id)
                && views[i].totalPaid == TotalPaid(payments, clients[i].id)
                && views[i].remaining == Remaining(clients[i].totalAmount, views[i].totalPaid)
    {
      views := [];
      var i := 0;
      while i < |clients|
        invariant 0 <= i <= |clients|
        invariant |views| == i
        invariant forall k :: 0 <= k < i ==>
                    && views[k].client == clients[k]
                    && views[k].payments == PaymentsOf(payments, clients[k].id)
                    && views[k].totalPaid == TotalPaid(payments, clients[k].id)
                    && views[k].remaining == Remaining(clients[k].totalAmount, views[k].totalPaid)
      {
        var c := clients[i];
        var rows := PaymentsOf(payments, c.id);
        var paid := SumAmounts(rows);
        views := views + [ProjectView(c, rows, paid, c.totalAmount - paid)];
        i := i + 1;
      }
    }
  }
}
