/** The rows of the two tables of the payment ledger, and an Option wrapper. */
module Records {

  /** A row of the `clients` table: one project quoted to one client. */
  datatype Client = Client(
    id: nat,
    projectName: string,
    clientName: string,
    totalAmount: real,
    createdDate: string)

  /** A row of the `payments` table: one amount received against the project `clientId`. */
  datatype Payment = Payment(
    id: nat,
    clientId: nat,
    amount: real,
    date: string)

  datatype Option<T> = None | Some(value: T)
}
