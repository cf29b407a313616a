# Futures trading bot: position and order lifecycle

This project models the core of a trading bot. The bot reads trading
alerts: chat embeds posted to `/fbd`, and gold and NQ signals posted to
`/gold` and `/nq`. It keeps at most one open position per instrument in
three file-backed slots, and forwards orders to broker webhooks.

The model covers the following.

- **The slot store** (`PositionTracker`).
  - There are three single-record slots: primary, gold and NQ.
  - A slot is `Empty`, `Stored(timestamp, record)` or `Corrupt` (an unreadable file).
  - Records expire lazily after one hour: a check deletes an expired record.
  - The clock reading `now` is a parameter.
- **The two ledgers of handled items.**
  - `MessageParser.FingerprintLedger` holds the content fingerprints of target and stop-loss alerts.
  - `DiscordScraper.MessageIdLedger` holds chat message ids.
  - `DiscordScraper.GetHeaders` builds the request headers.
- **The alert patterns of config.py** (`Patterns`).
  - Each pattern is a token matcher whose search returns the leftmost match.
  - The lemmas prove what each capture group can hold.
- **Webhook delivery** (`OrderExecutor`).
  - The quantity merged into a payload.
  - The retry loop of at most five POSTs, which stops at the first success.
  - The notification after a delivered entry.
  - Delivery to a list of URLs.
  - The network is a `Gateway`: an oracle of POST outcomes, and an outbox that records each POST, each pause, each notification and each cancel request.
- **The handlers and endpoints of main.py.**
  - Each handler is a `Plan`: the effects it performs, in order, and how it ended (normally, caught by its own `try`, or escaping to the caller).
  - `Lifecycle` computes the plans.
  - `Server.Bot` performs them on the slot store, the ledger and the gateway, and is proved to reach the state that `Lifecycle.ApplyAll` gives.
  - `LifecycleProperties` proves what each handler does.

Some call sites in main.py do not resolve against order_executor.py:
- the `additional_context` keyword argument;
- `send_cancel_webhook`, which is not defined.

`Config.Wiring` says whether each of these calls resolves.
- `Config.AsWritten` is the code as it stands: both calls raise inside the handler's `try`.
- `Config.Intended` assumes both calls resolve.

Every property is stated for whichever wiring it needs.

## Model

| member | source | states |
|---|---|---|
| PositionTracker.AfterCheck | position_tracker.py:15-30 | Checking a slot either deletes it or keeps it. An expired record becomes `Empty`. An unreadable file stays as it is. |
| PositionTracker.Read | position_tracker.py:36-43 | The read is `None` exactly when the check answers false. Otherwise it is the stored timestamp and record, unchanged. |
| PositionTracker.CheckIsStable | position_tracker.py:15-30 | A checked slot answers the same again. Checking twice is the same as checking once. |
| PositionTracker.SaveRestartsClock | position_tracker.py:7-13 | A record saved at `t` is live until `t` plus one hour, and expired after that. |
| PositionTracker.Slots.SaveOpenOrder | position_tracker.py:7-13 | The slot holds exactly the new record stamped with `now`. The other slots are unchanged. |
| PositionTracker.Slots.HasOpenOrder | position_tracker.py:15-30 | Answers whether the record is live, and deletes an expired one. The other slots are unchanged. |
| PositionTracker.Slots.ClearOpenOrder | position_tracker.py:32-34 | The slot is empty afterwards, so clearing is idempotent. The other slots are unchanged. |
| PositionTracker.Slots.GetOpenOrderInfo | position_tracker.py:36-43 | Returns `Read` of the old slot, and leaves the slot as the check leaves it. |
| PositionTracker.Slots.SaveGoldOrder | position_tracker.py:45-51 | As `SaveOpenOrder`, for the gold slot only. |
| PositionTracker.Slots.HasGoldOrder | position_tracker.py:53-68 | As `HasOpenOrder`, for the gold slot only. |
| PositionTracker.Slots.ClearGoldOrder | position_tracker.py:70-72 | As `ClearOpenOrder`, for the gold slot only. |
| PositionTracker.Slots.GetGoldOrderInfo | position_tracker.py:74-81 | As `GetOpenOrderInfo`, for the gold slot only. |
| PositionTracker.Slots.SaveNqOrder | position_tracker.py:83-89 | As `SaveOpenOrder`, for the NQ slot only. |
| PositionTracker.Slots.HasNqOrder | position_tracker.py:91-106 | As `HasOpenOrder`, for the NQ slot only. |
| PositionTracker.Slots.ClearNqOrder | position_tracker.py:108-110 | As `ClearOpenOrder`, for the NQ slot only. |
| PositionTracker.Slots.GetNqOrderInfo | position_tracker.py:112-119 | As `GetOpenOrderInfo`, for the NQ slot only. |
| PositionTracker.Slots.ResetOrdersIfExpired | position_tracker.py:121-128 | Touches only the primary slot, and can only clear it. The slot is empty afterwards exactly when it was empty, or held a record found expired at one of its three clock readings. |
| MessageParser.MessageTextInjective | message_parser.py:8-10 | When the first four fields contain no '_', the joined text determines all five fields. |
| MessageParser.SameRenderingSameId | message_parser.py:8-10 | The id depends only on how the prices render as text: equal renderings and times give equal ids. |
| MessageParser.FingerprintLedger.constructor | message_parser.py:6 | The ledger starts empty. |
| MessageParser.FingerprintLedger.IsMessageProcessed | message_parser.py:12-13 | Answers membership in the ledger. |
| MessageParser.FingerprintLedger.MarkMessageProcessed | message_parser.py:15-16 | The ledger becomes the old set plus the id. So marking is idempotent, only grows the ledger, and no other id changes. |
| MessageParser.Find | message_parser.py:18-37 | There is a match exactly when the pattern matches somewhere. The match returned is the leftmost one, and its groups conform to the pattern. |
| MessageParser.ParseTrimMessage | message_parser.py:18-19 | A match exists exactly when TRIM matches somewhere. Both of its groups are non-empty digit strings. |
| MessageParser.ParseStoppedMessage | message_parser.py:21-22 | A match exists exactly when STOPPED matches somewhere, and it captures nothing. |
| MessageParser.ParseLongTriggeredMessage | message_parser.py:24-25 | A match has six groups. The ticker has no '*', the time holds only digits, blanks, ':' and '-', and the score is digits '/' digits. |
| MessageParser.ParseTargetHitMessage | message_parser.py:27-28 | A match has seven groups. Only the profit may be signed. |
| MessageParser.ParseTarget2HitMessage | message_parser.py:30-31 | The same facts as for target 1. |
| MessageParser.ParseStopLossMessage | message_parser.py:33-34 | A match has seven groups. Only the loss may be signed. |
| MessageParser.ParseStopLossSimpleMessage | message_parser.py:36-37 | A match has six groups and no time group. Only the loss may be signed. |
| MessageParser.StopLossParsedBySimple | message_parser.py:33-37 | Whenever the detailed stop-loss parser finds an alert, the simple one finds one too. |
| DiscordScraper.GetHeaders | discord_scraper.py:7-8 | The headers are exactly `{"Authorization": token}`. |
| DiscordScraper.MessageIdLedger.constructor | discord_scraper.py:5 | The ledger starts empty. |
| DiscordScraper.MessageIdLedger.IsDiscordMessageProcessed | discord_scraper.py:39-40 | Answers membership in the ledger. |
| DiscordScraper.MessageIdLedger.MarkDiscordMessageProcessed | discord_scraper.py:42-43 | Adds the id and nothing else. The id is then processed, and every other id keeps its membership. |
| Patterns.SearchIsLeftmostMatch | config.py:40-71 | `search` finds a match exactly when one starts somewhere. It returns the leftmost one, and every group fits its capturing token. |
| Patterns.TrimMatchesAt | config.py:40-42 | TRIM matches at a position exactly when "#alert trim " (in any case) is followed there by digits, '/' and a digit. |
| Patterns.TrimFields | config.py:40-42 | TRIM's two groups are non-empty digit strings. |
| Patterns.LongTriggeredFields | config.py:48-51 | LONG_TRIGGERED has six groups: a ticker without '*', digits, an unsigned number, a fraction, an unsigned number and a time text. |
| Patterns.TargetFields | config.py:53-61 | The target patterns have seven groups, and only the profit may be signed. |
| Patterns.StopLossFields | config.py:63-66 | STOP_LOSS has seven groups, and only the loss may be signed. |
| Patterns.StopLossSimpleFields | config.py:68-71 | STOP_LOSS_SIMPLE has six groups, and only the loss may be signed. |
| Patterns.ScoreSplitsInTwo | main.py:157-160 | The score group splits at '/' into exactly two non-empty digit strings, so the handler's two-part check always passes. |
| Patterns.StopLossImpliesSimple | config.py:63-71 | Every text STOP_LOSS finds, STOP_LOSS_SIMPLE finds too. |
| Patterns.StopLossExtendsSimple | config.py:63-71 | STOP_LOSS is STOP_LOSS_SIMPLE with a marker line before it and a time line after it. |
| Patterns.TargetPatternsDifferOnlyInLabel | config.py:53-61 | TARGET_HIT and TARGET2_HIT are equal token by token, except for the "Target 1"/"Target 2" label. |
| Text.Split | main.py:157 | `str.split` gives at least one piece. |
| Text.SplitAtSingleSeparator | main.py:157 | A text with exactly one separator splits into its two sides. |
| Text.ParseIntText | main.py:692 | `int(str(n)) == n`, whatever whitespace surrounds the text: the default 50% target quantity reads back as half the configured quantity. |
| Text.ParseDigits | main.py:703 | `int()` of a non-empty run of ASCII digits is its decimal value. |
| Text.ParseIntGrouped | main.py:703 | `int()` ignores one underscore between two runs of digits: "1_0" reads as 10, the same as "10". |
| Text.StripStartSpec | main.py:703 | The leading whitespace `int()` skips is exactly a prefix of Python whitespace characters. What is left is empty or starts with a non-whitespace character. |
| Text.StripEndSpec | main.py:703 | The trailing whitespace `int()` skips is exactly a suffix of Python whitespace characters. What is left is empty or ends with a non-whitespace character. |
| Text.TruncDiv | main.py:55-56 | `int()` of a quotient truncates toward zero. The result is bracketed between two multiples of the divisor, on the side of zero. |
| Text.AsciiLower | main.py:498 | The result has the same length and no upper-case ASCII letter. Every character that is not one is unchanged, and each upper-case letter becomes the lower-case letter at the same place in the alphabet. |
| OrderExecutor.MergeQuantity | order_executor.py:41-45 | The quantity argument wins, then the payload's own quantity, then GLOBAL_QUANTITY. No other key changes, and the caller's payload is a separate value. |
| OrderExecutor.NotificationShape | order_executor.py:12-18 | The notification reads "Trade: T A Q", then " @ P" exactly when the price is truthy, then " (op)". |
| OrderExecutor.NotifiedQuantityIsPosted | order_executor.py:12-45 | The quantity the notification shows is the quantity of the posted body. |
| OrderExecutor.DeliverSucceeds | order_executor.py:47-55 | When a POST succeeds after `k` failures, the outbox gains `k` failed POSTs each followed by a pause, then the delivered POST and the notice, and nothing after. |
| OrderExecutor.DeliverFails | order_executor.py:47-61 | When every POST fails, each one is recorded, with a pause between consecutive attempts and none after the last. No notice is sent. |
| OrderExecutor.DeliveryBounds | order_executor.py:47-61 | There are one to five POSTs, and the loop stops at the first success. Five failures leave exactly five failed POSTs and four pauses. |
| OrderExecutor.NotifyOnlyOnDeliveredEntry | order_executor.py:53-54 | The last event is the notification exactly when the POST was delivered and the trade is an entry. Otherwise the last event is a POST. |
| OrderExecutor.EmptyUrlSendsNothing | order_executor.py:37-39 | An empty URL records nothing and consumes no reply. |
| OrderExecutor.SendAllAppend | order_executor.py:77-78 | Sending to `a + b` is sending to `a`, then to `b`: each URL independently, in order. |
| OrderExecutor.SendToOneUrl | order_executor.py:70-78 | A one-element list behaves as `send_webhook` on that URL. |
| OrderExecutor.SendAllAppends | order_executor.py:63-78 | Delivery only appends to the outbox. |
| OrderExecutor.Gateway.PostOnce | order_executor.py:49-50 | One POST consumes one reply, and records the POST with its outcome. |
| OrderExecutor.Gateway.SendWebhook | order_executor.py:30-61 | The retry loop reaches exactly the state that `Send` specifies. |
| OrderExecutor.Gateway.SendWebhookToMultipleUrls | order_executor.py:63-78 | A string becomes a one-element list, and an empty list sends nothing. Each URL is delivered in turn, as `SendAll` specifies. |
| OrderExecutor.Gateway.SendCancelWebhook | main.py:518 | The cancel request the entries mean to send: one `CancelRequest` event is appended. |
| Server.Bot.constructor | main.py:15 | A fresh process has empty slots, an empty ledger, no trend and an empty outbox. |
| Server.Bot.Perform | main.py:33-945 | One effect, carried out by the component that owns it, gives exactly `Apply`. |
| Server.Bot.PerformAll | main.py:33-945 | Performing a plan's effects in order gives exactly `ApplyAll`. |
| Server.Bot.HandleTrim | main.py:33-113 | Leaves the state `TrimPlan` specifies, and reports its outcome. |
| Server.Bot.HandleStopped | main.py:115-136 | Leaves the state `StoppedPlan` specifies. |
| Server.Bot.HandleLongTriggered | main.py:138-224 | Leaves the state `LongTriggeredPlan` specifies. |
| Server.Bot.HandleTargetHit | main.py:226-317 | Leaves the state `TargetHitPlan` specifies. |
| Server.Bot.HandleTarget2Hit | main.py:319-375 | Leaves the state `Target2HitPlan` specifies. |
| Server.Bot.HandleStopLoss | main.py:377-434 | Leaves the state `StopLossPlan` specifies. |
| Server.Bot.HandleStopLossSimple | main.py:436-492 | Leaves the state `StopLossSimplePlan` specifies. |
| Server.Bot.HandleEntry | main.py:505-870 | The four gold and NQ entries: leaves the state `EntryPlan` specifies. The outcome is `Caught` exactly where the handler catches an exception; the gold entries then return False, the NQ entries return None on both paths. |
| Server.Bot.HandleHalfTarget | main.py:675-729 | Leaves the state `HalfTargetPlan` specifies. |
| Server.Bot.HandleExit | main.py:731-748 | Leaves the state `ExitPlan` specifies, and always completes. |
| Server.Bot.GoldTrendWebhook | main.py:947-987 | Performs the endpoint's effects and returns its reply. |
| Server.Bot.GoldWebhook | main.py:989-1069 | Performs `/gold`'s effects and returns its reply. |
| Server.Bot.NqWebhook | main.py:1071-1137 | Performs `/nq`'s effects and returns its reply. |
| Server.Bot.FbdWebhook | main.py:1139-1210 | Performs `/fbd`'s effects and returns its reply. |
| LifecycleProperties.PrimaryHandlersKeepDesks | main.py:33-492 | No handler of the primary instrument touches the gold slot, the NQ slot or the trend. |
| LifecycleProperties.DeskHandlersKeepOthers | main.py:505-945 | A gold or NQ handler touches neither the primary slot, nor the fingerprint ledger, nor the trend, nor the other desk's slot. |
| LifecycleProperties.CheckOpenEffect | position_tracker.py:15-30 | The slot check a handler makes changes only the primary slot, as `AfterCheck` says. |
| LifecycleProperties.LongTriggeredRejects | main.py:139-141 | With a live position, or a score below 5, nothing changes except the check's deletion of an expired record. Nothing is sent. |
| LifecycleProperties.LongTriggeredAccepts | main.py:171-203 | An accepted entry saves a "buy" with the given source and price. The personal quantity is min(15, max(5, 2·score)), hence between 5 and 15. The webhook quantity is GLOBAL_QUANTITY, and the ledger is untouched. |
| LifecycleProperties.LongTriggeredAsWrittenSendsNothing | main.py:219 | As written, the record is saved but nothing is sent. The handler reports failure whenever a quantity is configured. |
| LifecycleProperties.LongTriggeredIntendedSends | main.py:205-222 | With the keyword argument dropped, the save is followed by one market buy of GLOBAL_QUANTITY at the alert's price, flagged as an entry. |
| LifecycleProperties.TrimCloseBounds | main.py:55-56 | A trim below 1 never closes a position of one or more contracts entirely. A trim of 1 or more closes at least the whole position. |
| LifecycleProperties.TrimWithoutPosition | main.py:34-36 | A trim with no live position only checks the slot. |
| LifecycleProperties.TrimByZero | main.py:43-45 | "trim n/0" raises outside the `try`, before anything is sent or saved. |
| LifecycleProperties.TrimUpdatesPosition | main.py:55-89 | Trim n/d closes `int(q·n/d)` of each quantity. n ≥ d clears the slot. Otherwise the remainder is saved with a fresh clock. A webhook contract remains whenever one was held. |
| LifecycleProperties.TrimStopOnlyAfterOneEighth | main.py:66-110 | A stop is sent exactly for an exact 1/8 trim that leaves a webhook contract, at entry − 3, for the remainder. A market close is sent exactly when at least one contract is closed. |
| LifecycleProperties.GuardsLeaveEverything | main.py:227-257 | No live position: only the check. Unreadable price: raises with no effect. Seen fingerprint, or a record from another source: no send, no mark, no change. |
| LifecycleProperties.TargetHitHalves | main.py:265-314 | Target 1 keeps `q − int(q/2)` webhook contracts with the personal quantity unchanged, or clears the slot when none remain. The fingerprint is marked. |
| LifecycleProperties.TargetHitKeepsHalf | main.py:266-267 | The close is the smaller half. A position of one or more contracts is never closed entirely. |
| LifecycleProperties.TargetHitOrder | main.py:265-314 | The close is sent exactly when it is at least 1. The stop at entry − 3 is sent exactly when a contract remains. The mark comes after every other effect. |
| LifecycleProperties.FullExitsClear | main.py:355-372 | Target 2 and both stop-loss forms exit every webhook contract, with a send only when there is one. They always clear the slot and mark the fingerprint. |
| LifecycleProperties.StoppedFlattens | main.py:115-136 | The stopped marker leaves no record (an unreadable file stays). It always sends an exit of GLOBAL_QUANTITY. |
| LifecycleProperties.SharedLedgerCollides | main.py:226-434 | After target 1 has acted, a stop-loss alert whose exit, entry, loss and time render like the target's target, entry, profit and time is ignored entirely. |
| LifecycleProperties.EffectsOnlyAppend | order_executor.py:47-78 | No effect ever removes an event from the outbox. |
| LifecycleProperties.EntryAsWrittenNeverEnters | main.py:518 | As written, a gold or NQ entry only checks its slot. It sends nothing, saves nothing and reports failure whenever the slot was free. |
| LifecycleProperties.DeskEndpointEntry | main.py:1004-1046 | An entry request that carries a price runs the entry handler of its side and answers success; on `/gold` the message says the entry was skipped exactly when the handler returned `False` (an exception it caught), and otherwise that it was processed. |
| LifecycleProperties.GoldEntryAsWrittenReportsMismatch | main.py:1014-1019 | As written, `/gold` answers "entry skipped due to trend mismatch" for every entry on a free slot. |
| LifecycleProperties.EntryIntendedEnters | main.py:505-589 | With the calls resolved, an entry on a free desk sends the cancel request first. Right after it comes the market entry order, sent as an entry trade; gold then places the limit order at `target_50` when one is given. It saves the side, the ticker, the price, the configured quantity and the stop at ±7 (gold bullish keeps no stop). The other slots, the ledger and the trend are unchanged. |
| LifecycleProperties.EntryIntendedSteps | main.py:516-589 | The order of an accepted entry, action by action: the check, the cancel request, then the market entry order with the side, the given price and `str(quantity)`, sent as an entry trade so a delivery is notified. Gold places the limit target at `target_50` next, exactly when one is given. Then come the stop and the save. |
| LifecycleProperties.HalfTargetKeepsConfiguredRest | main.py:692-726 | What is kept is the configured quantity less the target quantity (by default half, truncated), whatever the record held. Something kept is saved with a fresh clock; nothing kept clears the slot. |
| LifecycleProperties.HalfTargetBadQuantity | main.py:703 | A target quantity `int()` rejects raises after the hit is sent. The slot is kept. Surrounding whitespace and single underscores between digits are accepted, as in Python. |
| LifecycleProperties.ExitClears | main.py:731-748 | An exit sends the desk's exit with the cancel flag, and clears the slot whatever it held. |
| LifecycleProperties.FbdRunsAlert | main.py:1157-1202 | `/fbd` runs the handler of the first pattern that matches (target 1, target 2, stop loss, long triggered), with source "fbd_endpoint". It runs nothing when none matches, and answers an error exactly when the handler raised. |
| LifecycleProperties.FbdKeepsDesks | main.py:1139-1210 | `/fbd` never touches the gold slot, the NQ slot or the trend. |
| LifecycleProperties.FbdRedeliveryIsIgnored | main.py:1139-1210 | The same embed delivered again at the same instant changes nothing. |
| LifecycleProperties.FingerprintedRepeatIsIgnored | main.py:243-257 | A target or stop-loss alert handled twice at one instant acts at most once. |
| LifecycleProperties.LongRepeatIsIgnored | main.py:139-141 | A long-triggered alert handled twice at one instant enters at most once. |
| LifecycleProperties.TrendEndpointStoresLowercase | main.py:955-971 | `/gold-trend` succeeds exactly for "bullish" or "bearish" in any case, and stores the lower-cased trend. Otherwise it changes nothing. |
| LifecycleProperties.TrendAlignment | main.py:494-503 | Alignment ignores the case of the trend. A stored trend aligns with exactly one action. |

## Left out

- HTTP and the network.
  - `requests.post` is the gateway's reply oracle.
  - The ntfy POST is a `Notify` event. Errors raised by the notification itself are not modelled; they are swallowed in the source.
  - The Discord fetch functions, the polling loop and the second-channel dispatch are not part of this model.
- Files and JSON.
  - Slots are in memory. An unreadable file is `Corrupt`.
  - Non-string JSON values in requests are not modelled.
- The clock.
  - Each handler reads the clock once (`now`). In the source, a handler that checks and then reads a slot reads the clock twice.
  - Timestamps in replies, and the "time" keys of the stop payloads, are left out.
  - `handle_stop_loss_simple_message` stamps its fingerprint with its own `datetime.now().isoformat()` (main.py:449); the model takes that text as a parameter (`nowText`). No endpoint calls this handler.
- `time.sleep`: the pause is a `Pause` event.
- MD5, `float()` and `str(float)` are arbitrary functions (`Host.Host`).
  - Prices are `real`, and trims are exact `int(q·n/d)`. Floating point can differ, e.g. `int(49*(1/49))` is 0 in floats.
  - `int(GOLD_QUANTITY / 1)` is modelled as the quantity itself.
- `int()` of a digit group reads ASCII digits only. Python's `\d` also admits other Unicode digits.
- LifecycleProperties.HalfTargetBadQuantity: treats a target quantity written with non-ASCII Unicode decimal digits (for example Arabic-Indic digits) as rejected, where Python's `int()` reads it. Whitespace, signs and underscores follow Python.
- LifecycleProperties.HalfTargetKeepsConfiguredRest: covers the target quantities `Text.ParseInt` reads, which are Python's except those written with non-ASCII Unicode digits.
- Server.Bot.HandleHalfTarget: shares `HalfTargetPlan`'s reading of the target quantity, so a quantity written with non-ASCII Unicode digits aborts after the hit is sent.
- `.lower()` is ASCII lower-casing. For the comparisons made, with "bullish", "bearish", "buy" and "sell", this agrees with Python.
- The ES pattern and `parse_es_order_message` (config.py:36-38, message_parser.py:39-40) are not modelled.
- Not part of this model: csv_logger.py, environment loading (the constants are `Config.Settings`), every `print`, FastAPI wiring and response envelopes.
- Error replies carry the text "Error processing webhook" without the exception's own text.
- The gold default target computed from `float(price)` (main.py:542-546, 625-629) is unused. Only its `float()` failure is modelled.
- The trend check in the gold entries is commented out in the source (main.py:510-513, 596-599). The entries do not consult the trend; only `/gold-trend` and `IsGoldTrendAligned` are modelled.
- No endpoint dispatches to the 50% target handlers. They are modelled as handlers only.
- The branch where the primary record has no entry price (main.py:92-95) is not modelled. Every record a handler saves has one.
- LifecycleProperties.EntryIntendedEnters: states only the stop field of the saved record. The target field is fixed by `Lifecycle.EntryRecord`. The entry and target orders are stated as actions of the plan, not as events in the outbox.

## Findings

| source | as written | input that shows it | evidently intended | confidence | as-written member | corrected member |
|---|---|---|---|---|---|---|
| main.py:518 | calls `order_executor.send_cancel_webhook`, which order_executor.py does not define (also at lines 604, 758 and 819) | any gold or NQ entry on a free slot | cancel the desk's orders, then enter, place target and stop, and save | high, not executed | LifecycleProperties.EntryAsWrittenNeverEnters | LifecycleProperties.EntryIntendedEnters |
| main.py:219 | passes `additional_context=` to a function without that parameter (also at lines 536, 621, 775 and 836) | a long-triggered alert with score ≥ 5 on a free slot | deliver the entry webhook after saving the record | high, not executed | LifecycleProperties.LongTriggeredAsWrittenSendsNothing | LifecycleProperties.LongTriggeredIntendedSends |
