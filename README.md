# Smart Payment Tracker: the payment ledger

Smart Payment Tracker is a single-screen tool. It keeps client projects, each
with a quotation, records partial payments against them, shows each
project's balance, and exports a receipt. This project models the ledger
underneath that screen and proves properties of it. The ledger is two SQLite
tables, `clients` and `payments`, each with its own AUTOINCREMENT id.

- `Records` (records.dfy): the two row types, `Client` and `Payment`.
- `Balance` (balance.dfy): the rows of one project (`PaymentsOf`), the rows a
  cascade delete keeps (`PaymentsNotOf`), the total paid, and the remaining
  due. The remaining due is `total_amount - total_paid`, never clamped. It also
  holds the summing loop `SumAmounts`.
- `LedgerModel` (ledger_model.dfy): the database as a value `Db`. It holds both
  tables in insertion order and, per table, the largest id ever issued (SQLite's
  `sqlite_sequence`). It defines the invariant `Valid` and the three actions as
  functions: add a project, add a payment, and delete a project with its
  payments. `Run` replays a session of user actions.
- `LedgerStore` (ledger_store.dfy): the class `Ledger`. Its fields are the two
  tables and the two counters, and its methods change them in place. Each
  method is proved to move the state exactly as the matching `LedgerModel`
  function does. `ListProjects` is the listing loop, which computes every
  project's payments, total paid and remaining due.
- `Receipt` (receipt.dfy): what the PDF receipt contains, as an ordered list of
  rows. These are the title, six labelled lines, the two-column header, and one
  row per payment. A receipt is offered only for a project with payments.

Modelling choices:

- Amounts are exact `real` numbers. The source stores them in SQLite `REAL`
  columns and adds them as Python floats, so the model idealises that
  arithmetic.
- Timestamps are opaque strings passed in as parameters. The source reads the
  wall clock instead.
- An AUTOINCREMENT id is the table's counter plus one, and the counter then
  moves to that id. Deleting rows never lowers a counter, so deleted ids are
  never issued again.

Points where the code's behaviour is easy to misread:

- The add-project guard rejects a quotation of 0 (`total_amount > 0`), not only
  negative ones.
- The receipt's six lines are Project, Client, Created, Total Quotation, Total
  Paid, Remaining Due, in that order.
- A project with no payments gets no receipt at all. There is no "no payments"
  placeholder receipt.
- Deleting an unknown id raises no error. Both DELETE statements simply match
  no row, so the database stays as it was.
- Adding a payment has no not-found check. The insert is reached only for a
  project the listing loop has just fetched (app.py:61-62). The model states
  this as a precondition of `Ledger.AddPayment` and as the `Offered` condition
  on sessions. SQLite does not enforce the declared foreign key, because
  foreign-key checking is off by default.

## Model

| member | source | states |
|---|---|---|
| `Balance.PaymentsOf` | app.py:68 | the fetched rows are exactly the table's payments whose `client_id` is the project's id, and never more rows than the table |
| `Balance.PaymentsNotOf` | app.py:136 | after the payments DELETE, exactly the rows with a different `client_id` remain, and the id order of the table is kept |
| `Balance.SumAmounts` | app.py:69 | the generator sum over the fetched rows, as a loop, equals the sum of their amounts (0 for no rows) |
| `Balance.TotalPaidSnoc` | app.py:68-69 | inserting one payment row raises its own project's total paid by its amount and leaves every other project's total alone |
| `Balance.TotalPaidIsMaskedSum` | app.py:68-69 | the total paid equals an independent sum over the whole table in which only the project's rows contribute their amounts |
| `Balance.TotalPaidPositive` | app.py:69 | with the guarded positive amounts, the total paid is never negative, and it is 0 exactly when the project has no payment rows |
| `Balance.CascadeKeepsOthers` | app.py:136 | deleting one project's payments leaves every other project's payment rows the same, in the same order |
| `Balance.CascadePartition` | app.py:136 | the deleted rows and the kept rows together account for the whole table, and none of the project's rows survive |
| `LedgerModel.ClientsWithout` | app.py:137 | after the clients DELETE, exactly the rows with a different id remain, and ids stay increasing |
| `LedgerModel.EmptyValid` | app.py:11-29 | freshly created tables satisfy the ledger invariant |
| `LedgerModel.AddProjectSpec` | app.py:45-50 | a project row is appended if and only if both names are non-empty and the total is strictly positive; it carries the given fields and an id above every id issued so far; a rejected add changes nothing; the payments table is never touched |
| `LedgerModel.AddProjectPreservesValid` | app.py:46-50 | adding a project keeps the invariant: increasing ids bounded by the counter, guarded rows, and every payment naming an existing project |
| `LedgerModel.AddPaymentSpec` | app.py:87-90 | a payment row is appended if and only if the amount is positive, with an id above every existing payment id; that project's total paid rises by the amount and its remaining due falls by the amount; every other project's balance is unchanged; a rejected payment changes nothing |
| `LedgerModel.AddPaymentPreservesValid` | app.py:87-90 | a payment for a listed project keeps the invariant, including that every payment names an existing project |
| `LedgerModel.DeleteProjectSpec` | app.py:135-138 | the project and exactly its payments are removed and every other row is kept; afterwards the old id's total paid is 0, every other project's rows and totals are unchanged, and both counters are unchanged |
| `LedgerModel.DeleteProjectPreservesValid` | app.py:136-138 | the cascade keeps the invariant: no payment is left naming a deleted project |
| `LedgerModel.RunPreservesValid` | app.py:11-29 | over any session of actions the screen offers, the invariant holds, counters never decrease, and every row added carries an id above every id issued before, so deleted ids are not reused |
| `LedgerStore.Ledger.Open` | app.py:7-30 | opening a store yields exactly the stored tables and counters |
| `LedgerStore.Ledger.AddProject` | app.py:45-50 | updates the tables in place exactly as `LedgerModel.AddProject`, reports whether the guard passed, and changes nothing when it did not |
| `LedgerStore.Ledger.AddPayment` | app.py:86-91 | updates the tables in place exactly as `LedgerModel.AddPayment`; every project's total paid changes only by the accepted amount |
| `LedgerStore.Ledger.DeleteProject` | app.py:135-138 | updates the tables in place exactly as `LedgerModel.DeleteProject`; the id is gone, its total paid is 0, and other projects' payments and the counters are unchanged |
| `LedgerStore.Ledger.ListProjects` | app.py:58-70 | one view per project in table order, each with the project's fetched payments, its total paid, and the quotation minus the total paid |
| `Receipt.ReceiptFor` | app.py:125-126 | a receipt is produced if and only if some payment row belongs to the project |
| `Receipt.PaymentRowsAt` | app.py:118-121 | the payments table has one row per payment, and row i shows payment i's date and amount |
| `Receipt.ReceiptLayout` | app.py:97-121 | the receipt starts with the title, then the Project, Client, Created, Total Quotation, Total Paid and Remaining Due lines in that order with the project's values, then the "Payment Date"/"Amount" header, then one row per fetched payment in order |
| `Receipt.ReceiptTotalsAgree` | app.py:107-109 | the Total Paid line equals the sum of the amounts in the receipt's payment rows, and the Remaining Due line equals the quotation minus that sum |
| `Receipt.ReceiptOffered` | app.py:125 | for positive amounts, a receipt is offered exactly when the total paid is positive, and then it has 8 rows plus one per payment |

## Left out

- Streamlit widgets, expanders, buttons, messages and the rerun after a delete
  are user-interface plumbing. Only their effect on the tables is modelled.
- The SQLite connection, cursor, DDL and `commit` are a foreign storage engine.
  Their observable semantics are modelled: insert, filtered select, filtered
  delete, and two deletes under one commit as one step.
- Row order: the SELECT statements have no `ORDER BY`. The model returns rows in
  insertion order, which is rowid order, and SQL does not promise that order.
- FPDF drawing, fonts, cell sizes and the `latin1` encoding of the output are
  left out. Only the logical list of rows is modelled: `ReceiptRows` is the
  content the code means to draw. The code writes the rupee sign with the
  built-in Arial font (app.py:107-109, 114, 120), and the built-in fonts cover
  only Latin-1. The PDF library is therefore expected to raise an encoding
  error inside `generate_pdf()`. Then no receipt is produced, and the run stops
  before that project's delete button and before any later project. The model
  does not capture this failure.
- Floating-point arithmetic and the `:.2f` formatting of amounts are left out,
  because amounts are exact reals in the model.
- `datetime.now()` is a wall-clock input. It becomes the `now` parameter.
- The database backup download is raw file I/O.
- `check_same_thread=False` is a threading setting with no meaning in a
  sequential model.
- LedgerStore.Ledger.AddPayment: requires the project id to be one the
  listing loop has just fetched, because that is the only place the source
  issues the insert. The orphan rows an arbitrary id would create are not
  modelled.
- One session at a time. Each browser session runs the script with its own
  connection. A delete committed by one session between another session's
  listing (app.py:58) and its insert (app.py:89) would leave an orphan payment,
  because the foreign key is not enforced. `Valid` and the precondition of
  `Ledger.Open` rule that interleaving out.
- Id width: SQLite's AUTOINCREMENT stops with SQLITE_FULL at the largest 64-bit
  id. The model's ids are unbounded `nat`s.
- Duplicate project names: the payment and delete buttons (app.py:86, 135)
  have no key, so listing a second project with an existing name raises a
  duplicate-widget error and stops the listing there. `Offered` allows actions
  on every listed project, so it over-approximates what the screen offers.
  `RunPreservesValid` still holds for that larger set of sessions.
