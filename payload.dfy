/**
  The decoded JSON answer of the price-history endpoint, as far as the pipeline looks
  at it. Decoding JSON itself (`resp.json()`) is outside the model: a body that does
  not decode, or that is not an object, arrives as `Malformed`.
*/
module Payload {

  /** One cell of a `prices` row: a JSON string, a JSON number, or a cell that is missing. */
  datatype Value = Text(s: string) | Number(x: real) | Null

  /**
    `success` is the truthiness of `data.get("success")`; `prices` is
    `data.get("prices", [])`, one inner sequence per row.
  */
  datatype Payload = Malformed | Document(success: bool, prices: seq<seq<Value>>)
}
