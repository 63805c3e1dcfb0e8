/**
 The catalog's two stock transactions, each as one atomic change of the
 `products.stock` column. Module RowLocks shows that the row-locked
 transactions behave like these.
 */
module Stock {
  type ProductId = string
  type Table = map<ProductId, int>

  /** 200 with the remaining stock, 409, 404, or 422 for a quantity the request schema refuses. */
  datatype Outcome = Ok(remaining: int) | Insufficient | NotFound | Unprocessable

  function Reserve(t: Table, p: ProductId, q: int): (Table, Outcome) {
    if q <= 0 then (t, Unprocessable)
    else if p !in t then (t, NotFound)
    else if t[p] < q then (t, Insufficient)
    else (t[p := t[p] - q], Ok(t[p] - q))
  }

  function Release(t: Table, p: ProductId, q: int): (Table, Outcome) {
    if q <= 0 then (t, Unprocessable)
    else if p !in t then (t, NotFound)
    else (t[p := t[p] + q], Ok(t[p] + q))
  }
}
