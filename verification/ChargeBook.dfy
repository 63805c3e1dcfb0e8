/**
 What `POST /payments/charge` promises: the first result stored under an
 idempotency key is the result of every later call with that key. Module
 PaymentCell shows that the claim-then-settle protocol refines this map.
 */
module ChargeBook {
  type Key = string
  type OrderId = nat

  datatype Result = Success(order: OrderId, amount: int, chargedAt: int) | Decline
  type Book = map<Key, Result>

  /** The reply and the new book when processing, if it is needed, yields `outcome`. */
  function ChargeOnce(book: Book, k: Key, outcome: Result): (Book, Result) {
    if k in book then (book, book[k]) else (book[k := outcome], outcome)
  }
}
