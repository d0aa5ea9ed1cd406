/**
 * The backend's entities as the client receives them (JSON objects), reduced
 * to the fields the client reads.
 */
module Domain {

  /**
   * An identifier as a JavaScript value. Ids from the backend are numbers,
   * ids from form fields are strings, and an absent field is `undefined`;
   * `===` never equates values of different kinds, which is exactly
   * datatype equality here.
   */
  datatype Id = Num(n: int) | Str(s: string) | Undefined

  /** A recorded transaction; `date` is the backend's ISO date(-time) string. */
  datatype Transaction = Transaction(
    id: Id,
    title: string,
    description: string,
    amount: real,
    date: string,
    categoryId: Id,
    paymentMethodId: Id)

  /** A category, read-only for the client: a name and a display colour. */
  datatype Category = Category(id: Id, name: string, color: string)

  /** A payment method: a display name and the last digits of the instrument. */
  datatype PaymentMethod = PaymentMethod(id: Id, name: string, lastDigits: string)
}
