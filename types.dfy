/** Values shared by the browser client and the HTTP service of the expense tracker. */
module Types {

  /** A value that may be absent: a JavaScript `undefined`/`null`, or a reply that never came. */
  datatype Option<T> = None | Some(value: T)

  /** The result of JavaScript's `parseFloat`: a number, or NaN when no numeric prefix parses. */
  datatype Num = NaN | Finite(value: real)

  /** An expense as the service sends it in JSON and as the client keeps it in its list. */
  datatype Expense = Expense(id: int, name: string, amount: real, category: string, date: string)

  /** JavaScript truthiness of a string: only the empty string is falsy. */
  predicate Filled(s: string)
  {
    s != ""
  }
}
