/**
 * The ledger as a value: both tables with their AUTOINCREMENT counters, the
 * invariant the program keeps, and the three state changes (add a project,
 * add a payment, delete a project with its payments).
 */
module LedgerModel {
  import opened Records
  import opened Balance

  /**
   * The database: the `clients` and `payments` tables in insertion order, and
   * for each table the largest id AUTOINCREMENT has ever issued for it.
   */
  datatype Db = Db(
    clients: seq<Client>,
    payments: seq<Payment>,
    clientSeq: nat,
    paymentSeq: nat)

  /** A database on which the tables have just been created. */
  const Empty: Db := Db([], [], 0, 0)

  function ClientIds(cs: seq<Client>): set<nat>
  {
    set c | c in cs :: c.id
  }

  predicate ClientIdsIncreasing(cs: seq<Client>)
  {
    forall i, j :: 0 <= i < j < |cs| ==> cs[i].id < cs[j].id
  }

  /** The rows that survive `DELETE FROM clients WHERE id = id`, in table order. */
  function ClientsWithout(cs: seq<Client>, id: nat): (r: seq<Client>)
    ensures forall c :: c in r <==> c in cs && c.id != id
    ensures ClientIdsIncreasing(cs) ==> ClientIdsIncreasing(r)
  {
    if cs == [] then []
    else if cs[0].id != id then [cs[0]] + ClientsWithout(cs[1..], id)
    else ClientsWithout(cs[1..], id)
  }

  /**
   * What every reachable database satisfies: ids are positive, strictly
   * increasing and never above their table's counter; every project passed the
   * add-project guard; every payment passed the add-payment guard and names an
   * existing project.
   */
  predicate Valid(db: Db)
  {
    && ClientIdsIncreasing(db.clients)
    && PaymentIdsIncreasing(db.payments)
    && (forall c :: c in db.clients ==>
          0 < c.id <= db.clientSeq && ProjectAccepted(c.projectName, c.clientName, c.totalAmount))
    && (forall p :: p in db.payments ==>
          0 < p.id <= db.paymentSeq && PaymentAccepted(p.amount) && p.clientId in ClientIds(db.clients))
  }

  /** The add-project guard: both names non-empty and a strictly positive quotation. */
  predicate ProjectAccepted(name: string, client: string, total: real)
  {
    name != "" && client != "" && total > 0.0
  }

  /** The add-payment guard: a strictly positive amount. */
  predicate PaymentAccepted(amount: real)
  {
    amount > 0.0
  }

  function AddProject(db: Db, name: string, client: string, total: real, now: string): Db
  {
    if ProjectAccepted(name, client, total) then
      var id := db.clientSeq + 1;
      db.(clients := db.clients + [Client(id, name, client, total, now)], clientSeq := id)
    else
      db
  }

  function AddPayment(db: Db, clientId: nat, amount: real, now: string): Db
  {
    if PaymentAccepted(amount) then
      var id := db.paymentSeq + 1;
      db.(payments := db.payments + [Payment(id, clientId, amount, now)], paymentSeq := id)
    else
      db
  }

  /** Both deletes, payments first, under one commit. */
  function DeleteProject(db: Db, id: nat): Db
  {
    db.(payments := PaymentsNotOf(db.payments, id), clients := ClientsWithout(db.clients, id))
  }

  lemma EmptyValid()
    ensures Valid(Empty)
  {
  }

  /**
   * A project row is appended exactly when the guard holds, with an id above
   * every id the table has ever issued; otherwise nothing changes. The
   * payments table is never touched.
   */
  lemma AddProjectSpec(db: Db, name: string, client: string, total: real, now: string)
    requires Valid(db)
    ensures var r := AddProject(db, name, client, total, now);
      && r.payments == db.payments
      && r.paymentSeq == db.paymentSeq
      && (ProjectAccepted(name, client, total) <==> |r.clients| == |db.clients| + 1)
      && (!ProjectAccepted(name, client, total) ==> r == db)
      && (ProjectAccepted(name, client, total) ==>
            && r.clients[..|db.clients|] == db.clients
            && r.clients[|db.clients|].projectName == name
            && r.clients[|db.clients|].clientName == client
            && r.clients[|db.clients|].totalAmount == total
            && r.clients[|db.clients|].createdDate == now
            && r.clients[|db.clients|].id > db.clientSeq
            && r.clients[|db.clients|].id !in ClientIds(db.clients))
  {
  }

  lemma AddProjectPreservesValid(db: Db, name: string, client: string, total: real, now: string)
    requires Valid(db)
    ensures Valid(AddProject(db, name, client, total, now))
  {
  }

  /**
   * A payment row is appended exactly when the guard holds, with a fresh id;
   * the project's total paid grows by the amount, its remaining due shrinks by
   * it, and every other project's balance is unchanged. A rejected payment
   * changes nothing.
   */
  lemma AddPaymentSpec(db: Db, clientId: nat, amount: real, now: string)
    requires Valid(db)
    ensures var r := AddPayment(db, clientId, amount, now);
      && r.clients == db.clients
      && r.clientSeq == db.clientSeq
      && (!PaymentAccepted(amount) ==> r == db)
      && (PaymentAccepted(amount) ==>
            && |r.payments| == |db.payments| + 1
            && r.payments[..|db.payments|] == db.payments
            && r.payments[|db.payments|].clientId == clientId
            && r.payments[|db.payments|].amount == amount
            && r.payments[|db.payments|].date == now
            && r.payments[|db.payments|].id > db.paymentSeq
            && (forall q :: q in db.payments ==> q.id < r.payments[|db.payments|].id))
      && (forall x :: TotalPaid(r.payments, x)
            == TotalPaid(db.payments, x) + (if PaymentAccepted(amount) && x == clientId then amount else 0.0))
      && (forall c :: c in r.clients ==>
            Remaining(c.totalAmount, TotalPaid(r.payments, c.id))
            == Remaining(c.totalAmount, TotalPaid(db.payments, c.id))
               - (if PaymentAccepted(amount) && c.id == clientId then amount else 0.0))
  {
    var r := AddPayment(db, clientId, amount, now);
    if PaymentAccepted(amount) {
      var p := Payment(db.paymentSeq + 1, clientId, amount, now);
      assert r.payments == db.payments + [p];
      forall x ensures TotalPaid(r.payments, x) == TotalPaid(db.payments, x) + (if x == clientId then amount else 0.0) {
        TotalPaidSnoc(db.payments, p, x);
      }
    }
  }

  /** Adding a payment for a listed project keeps the invariant. */
  lemma AddPaymentPreservesValid(db: Db, clientId: nat, amount: real, now: string)
    requires Valid(db)
    requires clientId in ClientIds(db.clients)
    ensures Valid(AddPayment(db, clientId, amount, now))
  {
  }

  /**
   * Deleting a project removes that project and exactly its payments, keeps
   * every other row, leaves every other project's payments as they were,
   * and leaves the counters alone so that deleted ids are never reissued.
   */
  lemma DeleteProjectSpec(db: Db, id: nat)
    ensures var r := DeleteProject(db, id);
      && id !in ClientIds(r.clients)
      && (forall c :: c in r.clients <==> c in db.clients && c.id != id)
      && (forall p :: p in r.payments <==> p in db.payments && p.clientId != id)
      && |r.payments| == |db.payments| - |PaymentsOf(db.payments, id)|
      && PaymentsOf(r.payments, id) == []
      && TotalPaid(r.payments, id) == 0.0
      && (forall x :: x != id ==> PaymentsOf(r.payments, x) == PaymentsOf(db.payments, x))
      && (forall x :: x != id ==> TotalPaid(r.payments, x) == TotalPaid(db.payments, x))
      && r.clientSeq == db.clientSeq
      && r.paymentSeq == db.paymentSeq
  {
    CascadePartition(db.payments, id);
    forall x | x != id ensures PaymentsOf(PaymentsNotOf(db.payments, id), x) == PaymentsOf(db.payments, x) {
      CascadeKeepsOthers(db.payments, id, x);
    }
  }

  /** The cascade keeps every payment's project in place, so the invariant survives. */
  lemma DeleteProjectPreservesValid(db: Db, id: nat)
    requires Valid(db)
    ensures Valid(DeleteProject(db, id))
  {
  }

  /** One user action of the single-screen form. */
  datatype Action =
    | AddProjectAction(name: string, client: string, total: real, now: string)
    | AddPaymentAction(clientId: nat, amount: real, now: string)
    | DeleteProjectAction(id: nat)

  function Apply(db: Db, a: Action): Db
  {
    match a
    case AddProjectAction(name, client, total, now) => AddProject(db, name, client, total, now)
    case AddPaymentAction(clientId, amount, now) => AddPayment(db, clientId, amount, now)
    case DeleteProjectAction(id) => DeleteProject(db, id)
  }

  function Run(db: Db, actions: seq<Action>): Db
    decreases |actions|
  {
    if actions == [] then db else Run(Apply(db, actions[0]), actions[1..])
  }

  /**
   * The form only offers a payment or a delete button for a project it has
   * just listed.
   */
  predicate Offered(db: Db, actions: seq<Action>)
    decreases |actions|
  {
    if actions == [] then true
    else
      (match actions[0]
       case AddPaymentAction(clientId, _, _) => clientId in ClientIds(db.clients)
       case DeleteProjectAction(id) => id in ClientIds(db.clients)
       case AddProjectAction(_, _, _, _) => true)
      && Offered(Apply(db, actions[0]), actions[1..])
  }

  /**
   * Over any session of offered actions the invariant holds throughout, the
   * counters never decrease, and every row present at the end either was
   * present at the start or carries an id never issued before the session:
   * deleted ids are not reused.
   */
  lemma {:induction false} RunPreservesValid(db: Db, actions: seq<Action>)
    requires Valid(db)
    requires Offered(db, actions)
    ensures var r := Run(db, actions);
      && Valid(r)
      && r.clientSeq >= db.clientSeq
      && r.paymentSeq >= db.paymentSeq
      && (forall c :: c in r.clients ==> c in db.clients || c.id > db.clientSeq)
      && (forall p :: p in r.payments ==> p in db.payments || p.id > db.paymentSeq)
    decreases |actions|
  {
    if actions != [] {
      var next := Apply(db, actions[0]);
      match actions[0] {
        case AddProjectAction(name, client, total, now) =>
          AddProjectPreservesValid(db, name, client, total, now);
        case AddPaymentAction(clientId, amount, now) =>
          AddPaymentPreservesValid(db, clientId, amount, now);
        case DeleteProjectAction(id) =>
          DeleteProjectPreservesValid(db, id);
          DeleteProjectSpec(db, id);
      }
      assert forall c :: c in next.clients ==> c in db.clients || c.id > db.clientSeq;
      assert forall p :: p in next.payments ==> p in db.payments || p.id > db.paymentSeq;
      RunPreservesValid(next, actions[1..]);
    }
  }
}
