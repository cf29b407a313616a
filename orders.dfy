/**
 * The records main.py stores in the position slots, as `order_info`
 * dictionaries. Keys are fields; JSON numbers the handlers parse with
 * `float()` are reals.
 */
module Orders {

  /** `quantities`: contracts held on the personal account and through the webhook. */
  datatype Quantities = Quantities(personal: int, webhook: int)

  /** The primary-slot record a long-triggered entry saves (main.py:180-198). */
  datatype OpenOrder = OpenOrder(
    action: string,
    direction: string,
    ticker: string,
    interval: int,
    level: real,
    score: string,
    price: real,
    time: string,
    orderType: int,
    source: string,
    quantities: Quantities,
    results: seq<string>)

  /**
   * An optional key of a stored record: left out of the dictionary,
   * present with JSON `null`, or present with a string.
   */
  datatype Field = Absent | Null | Text(text: string)

  /**
   * The gold and NQ record (main.py:577-582, 659-666, 798-804, 859-865).
   * `price` is kept as the text the endpoint received; `quantity` is
   * rewritten by the 50% target handlers.
   */
  datatype InstrumentOrder = InstrumentOrder(
    action: string,
    ticker: string,
    price: string,
    quantity: int,
    target50: Field,
    stop: Field)
}
