/**
 * The constants of config.py. Values read from the environment are not
 * fixed here: they are fields of `Settings`, and every operation that uses
 * one takes the settings as a parameter. The compiled patterns of config.py
 * are in module Patterns.
 */
module Config {

  /** Instrument symbols (config.py:7, 11, 14). */
  const TickerSymbol: string := "MES"
  const GoldTicker: string := "MGCG26"
  const NqTicker: string := "MNQ"

  /** Declared in config.py:9 but read by none of the modelled code. */
  const GlobalRemainingQty: int := 3

  /** One file per position slot (config.py:22-24). */
  const OrderFileName: string := "open_order.json"
  const GoldOrderFileName: string := "open_gold_order.json"
  const NqOrderFileName: string := "open_nq_order.json"

  /** The values config.py loads from the environment. */
  datatype Settings = Settings(
    globalQuantity: int,   // GLOBAL_QUANTITY
    goldQuantity: int,     // GOLD_QUANTITY
    nqQuantity: int,       // NQ_QUANTITY
    webhookUrl: string,    // WEBHOOK_URL
    goldWebhookUrl: string,
    nqWebhookUrl: string)

  /** What config.py uses when the environment sets nothing. */
  const Defaults: Settings := Settings(15, 4, 6, "", "", "")

  /**
   * Whether two call sites in main.py resolve against order_executor.py.
   * `acceptsContext`: `send_webhook` and `send_webhook_to_multiple_urls`
   * take the `additional_context` keyword that the entry handlers pass.
   * `hasCancel`: `send_cancel_webhook`, called by the gold and NQ entry
   * handlers, exists. With the code as written both are false: each such
   * call raises inside the handler's `try`, which then skips the rest.
   */
  datatype Wiring = Wiring(acceptsContext: bool, hasCancel: bool)

  const AsWritten: Wiring := Wiring(false, false)
  const Intended: Wiring := Wiring(true, true)
}
