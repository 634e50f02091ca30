/** The external backend (a hosted table store with password authentication)
    as the pages see it: the rows it hands out, the requests the pages send it,
    and the answers it may give. Nothing here decides an answer: every answer is
    a parameter of the handler that awaits it. */
module Gateway {

  datatype Option<+T> = None | Some(value: T)

  /** The value of a numeric column as the management view holds it: a number
      when the row came from the store, the text of the input once the user has
      typed into it. */
  datatype Cell = Text(text: string) | Number(number: int)

  /** The value is falsy in the page's script language: the empty string or the number 0. */
  predicate Falsy(c: Cell) {
    c == Text("") || c == Number(0)
  }

  /** A row of the `products` table as the management view holds it, and the
      form draft, which has the same shape. The id is null until the store
      assigns one. */
  datatype Product = Product(id: Option<int>, name: string, price: Cell, quantity: Cell)

  /** The record sent with an insert or an update: the product's name and the
      price and quantity values from which the integers are parsed. */
  datatype Record = Record(name: string, price: Cell, quantity: Cell)

  /** The requests the management view sends to the `products` table. */
  datatype StoreCall =
    | SelectProducts                                   // all rows, newest first
    | InsertProduct(rows: seq<Record>)
    | UpdateProduct(record: Record, matchId: Option<int>)
    | DeleteProduct(deleteId: int)

  /** The answer to an insert, an update or a delete. */
  datatype WriteReply = WriteOk | WriteFailed(message: string)

  /** The answer to a select: the rows, or the text of the failure. */
  datatype FetchReply = Rows(rows: seq<Product>) | FetchFailed(message: string)

  /** An authenticated session; the pages only ever read the user's id from it. */
  datatype Session = Session(userId: string)

  /** The sign-in path the router sends unauthenticated visitors to. */
  const SignInPath := "/signin"

  /** The path a successful sign-in navigates to. */
  const DashboardPath := "/dashboard"
}
