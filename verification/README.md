# Premium bot user ledger, in Dafny

This project models the entitlement ledger of a Telegram bot that sells premium
access to an AI chat. The repository has two variants of the bot, and both are
modelled over one table:

- **Stripe variant** (`telegram_premium_bot_production.py`). A plain message
  goes through a gate. The gate registers the sender, applies the lazy 30-day
  token reset, refuses non-premium users, then refuses users at the monthly
  token ceiling. Only then does it call the completion and record the tokens.
  A Stripe webhook grants premium on a completed checkout. It revokes premium
  on a failed payment or a deleted subscription.
- **Monobank variant** (`bot.py` over the `DB` class of `db.py`). `/start`
  registers the sender. `/buy` stores the invoice id Monobank returned as the
  user's pending invoice. A `PAID` webhook for that invoice grants premium and
  clears the invoice. `/ask` logs the tokens of each completion.

The `users` table is a `map<UserId, User>` and `token_events` is a
`seq<TokenEvent>`. Each SQL statement is a pure transition of that state
(module `Ledger`, `ledger.dfy`). The handlers are compositions of those
transitions: module `StripeBot` (`stripe_bot.dfy`) and module `MonoBot`
(`mono_bot.dfy`). One `User` record carries the columns of both variants:
`isPremium`, `customerRef`, `subscriptionRef`, `invoiceRef`, `tokensUsed` and
`resetAt`.

Some modelling choices:

- SQL `NULL` is `None`. `col = $1` with a `NULL` key matches no row (`Holds`).
- `fetchrow` returns at most one row, and which one is the database's choice.
  So each webhook takes the returned `row` as an input. `FetchRow` constrains
  it: `None` exactly when no row matches, otherwise one of the matching rows.
  `SelectOneByRef` is a scan that meets this relation.
- Each statement runs in autocommit mode. The token log is therefore written
  by an `INSERT` that commits before the counter's `UPDATE` runs.
- `monthly_tokens_used` is a PostgreSQL `BIGINT`. A count larger than
  `BIGINT` is refused before anything is written. A sum that overflows fails
  the `UPDATE` after the event was already logged.
- `token_events.user_id REFERENCES users(id)`, so logging tokens for an
  unknown user writes nothing and raises.
- Time is integer seconds. `now`, the completion's result, Stripe's signature
  verdict, Monobank's invoice id and the success of the Telegram notification
  are all inputs.
- Most ledger invariants are stated by `Valid`: counters in `BIGINT` range,
  and every logged event referring to an existing user. Every transition
  preserves `Valid`. `StripeBot.RevokedHoldNoRefs` states the Stripe variant's
  entitlement invariant: a non-premium user holds no Stripe references.

Behaviour of the code worth noting:

- Revocation clears both Stripe references. They are not kept for audit,
  because `set_premium(conn, id, False)` passes `None` for both.
- There is no event-id deduplication. Idempotence comes from each transition
  writing final values. A replay after a revocation, or after a `PAID`
  webhook, finds no row when the revoked or paid user was the only holder of
  that reference. Neither `stripe_subscription_id` nor `mono_invoice_id` is
  declared unique, so with two holders a replay reaches the second one.
- There is no daily free-request counter. A non-premium user is refused
  outright.
- An `UPDATE` on a missing user does nothing. It raises no "user not found"
  error.
- The Monobank webhook has no signature check.

## Model

| member | source | states |
|---|---|---|
| Ledger.InsertUser | telegram_premium_bot_production.py:68-69 | the user exists afterwards; a new row is the default (not premium, 0 tokens, no references, window starting now); an existing row, every other row and the log are untouched; preserves Valid |
| Ledger.InsertUserIdempotent | db.py:14-19 | registering a user twice, even at different times, equals registering once |
| Ledger.SelectUser | telegram_premium_bot_production.py:64-66 | returns the user's row exactly when it exists, and nothing otherwise |
| Ledger.UpdatePremiumAndRefs | telegram_premium_bot_production.py:71-72 | sets the flag and both Stripe references together (an omitted reference becomes none); the counter, the window, the invoice, other rows and the log are unchanged; a missing user is a no-op |
| Ledger.UpdatePremiumClearInvoice | db.py:21-26 | sets the flag and clears the pending invoice whichever way the flag goes; every other column and row is unchanged; a missing user is a no-op |
| Ledger.UpdatePremiumClearInvoiceIdempotent | db.py:24 | the Monobank set_premium applied twice with the same arguments equals applying it once |
| Ledger.UpdateInvoice | db.py:28-33 | overwrites only the user's pending invoice; a missing user is a no-op |
| Ledger.UpdateInvoiceLastWins | db.py:31 | of two set_invoice calls only the later invoice survives |
| Ledger.RecordTokens | telegram_premium_bot_production.py:74-76 | it succeeds exactly when the user exists and the counter stays within BIGINT; on success it adds exactly n to that user's counter, appends exactly one event and changes nothing else; an unknown user or an out-of-range count writes nothing; an overflowing sum leaves the logged event but not the increment |
| Ledger.ResetMonthlyIfNeeded | telegram_premium_bot_production.py:78-85 | from 30 days after the window start, the counter becomes 0 and the window restarts at now; otherwise, or for a missing user, nothing changes; the counter afterwards equals the lazily reset view |
| Ledger.ResetMonthlyIdempotent | telegram_premium_bot_production.py:84-85 | resetting twice at the same instant equals resetting once |
| Ledger.ResetBoundary | telegram_premium_bot_production.py:84 | after a reset at now, the next reset is due exactly 30 days after the current window start |
| Ledger.SelectOneByRef | telegram_premium_bot_production.py:173 | the lookup returns none exactly when no row holds the key (and a NULL key matches nothing), otherwise a row that holds it |
| Ledger.FetchRow | bot.py:65 | a returned row holds the key, which is not NULL; no row is returned only when no row holds the key; a NULL key returns no row |
| StripeBot.Decide | telegram_premium_bot_production.py:131-136 | allows exactly the premium users under the ceiling; every non-premium user is refused for being non-premium, since that check comes first |
| StripeBot.ReportedTokens | telegram_premium_bot_production.py:95-96 | a reported total is charged as is; a completion without a usage count is charged 0 |
| StripeBot.AskAndAccount | telegram_premium_bot_production.py:88-102 | a failed completion changes nothing; a returned one that the ledger accepts is charged exactly its reported count with one event logged, and the charge stays even when joining or sending the answer then fails and the error reply goes out; the answer is sent only when charged and the reply succeeds; a ledger error moves no counter |
| StripeBot.HandleMessage | telegram_premium_bot_production.py:124-144 | after ensure and reset, the completion is reached iff the user is premium and the reset counter is below the ceiling; otherwise the reply is the non-premium refusal iff not premium, else the ceiling refusal; the sender always exists afterwards; preserves Valid |
| StripeBot.HandleMessageNoChargeWithoutAnswer | telegram_premium_bot_production.py:128-144 | a refused message, or one whose completion fails, leaves the table as ensure and reset left it, with no event logged |
| StripeBot.HandleMessageChargesReportedTokens | telegram_premium_bot_production.py:95-98 | a message whose completion returned adds exactly the reported tokens to the counter seen after the reset and logs exactly one event, whether the answer or, after a failed reply, the error text goes out |
| StripeBot.HandleMessageAnswersWhenAllowed | telegram_premium_bot_production.py:134-141 | a premium user under the ceiling gets the completion's text when the reply succeeds, unless the counter would overflow |
| StripeBot.MonthRolloverReadmits | telegram_premium_bot_production.py:129-141 | a premium user at the ceiling whose window is over reaches the completion again and is charged from zero in a window restarting at now; the answer goes out when the reply succeeds, the error text otherwise |
| StripeBot.StripeWebhook | telegram_premium_bot_production.py:149-186 | a bad signature gives 400 and no change; a non-numeric user id gives 500 and no change; everything else is acknowledged with ok; the token log is never touched; preserves Valid |
| StripeBot.Revoke | telegram_premium_bot_production.py:173-175 | with a row found, that user loses premium and both Stripe references while the counter, window, invoice and other rows are kept; with none, nothing changes |
| StripeBot.CheckoutGrantsPremium | telegram_premium_bot_production.py:159-167 | a completed checkout naming a user leaves that user present, premium and holding the session's references; the user's counter and window and all other rows are kept |
| StripeBot.CheckoutIdempotent | telegram_premium_bot_production.py:164-167 | delivering the same checkout event twice gives the state and response of one delivery |
| StripeBot.CheckoutWithoutUserIsNoOp | telegram_premium_bot_production.py:164 | a checkout without a user id changes nothing and is acknowledged |
| StripeBot.RevocationHitsCurrentHolder | telegram_premium_bot_production.py:169-184 | a failed payment or deleted subscription revokes only a user whose current subscription id is the event's; premium goes off and both references are cleared; the counter, window and other rows are kept |
| StripeBot.StaleRevocationIsNoOp | telegram_premium_bot_production.py:173-174 | a revoking event with a stale, superseded or null subscription id changes nothing |
| StripeBot.RevocationReplayIsNoOp | telegram_premium_bot_production.py:181-183 | replaying a revocation after it revoked the only holder changes nothing |
| StripeBot.BadSignatureIsRejected | telegram_premium_bot_production.py:153-157 | a signature failure yields 400 and no state change, for every event kind |
| StripeBot.OtherEventIsAcknowledged | telegram_premium_bot_production.py:186 | unrecognised event types change nothing and still return ok |
| StripeBot.StripeWebhookKeepsRevokedHoldNoRefs | telegram_premium_bot_production.py:159-184 | no webhook leaves a non-premium user holding Stripe references |
| StripeBot.HandleMessageKeepsRevokedHoldNoRefs | telegram_premium_bot_production.py:124-144 | no message leaves a non-premium user holding Stripe references |
| MonoBot.Start | bot.py:25-27 | the sender exists afterwards; a new sender gets a non-premium row with no pending invoice, 0 tokens and a window starting now; existing rows and the log are untouched |
| MonoBot.Buy | bot.py:42-43 | the returned invoice id, or none, becomes the sender's pending invoice and nothing else changes; an unregistered sender is a no-op |
| MonoBot.StartIsIdempotent | bot.py:25-27 | /start registers the sender, and repeating it at any time changes nothing |
| MonoBot.BuyReplacesPendingInvoice | bot.py:42-43 | /buy stores the returned invoice id as the pending invoice, touching nothing else; a later /buy replaces an earlier one |
| MonoBot.MonoWebhook | bot.py:58-69 | a message goes out iff a row matched and the status is PAID; then exactly that user, who held the invoice, becomes premium with the invoice cleared and nothing else changes; otherwise nothing changes; the response is an error only when the notification itself failed |
| MonoBot.PaidPendingInvoiceGrantsPremium | bot.py:64-68 | PAID for an invoice pending with exactly one user makes that user premium, clears the invoice and messages that user once |
| MonoBot.UnpaidOrUnmatchedIsNoOp | bot.py:61-69 | a non-PAID status, an unmatched invoice or a missing invoice id changes nothing, messages nobody and returns ok |
| MonoBot.PaidReplayIsNoOp | bot.py:65-68 | redelivering a PAID event that already succeeded changes nothing and sends no second message |
| MonoBot.SupersededInvoiceIsNoOp | bot.py:65-66 | after a newer /buy, PAID for the superseded invoice matches nobody and changes nothing |
| MonoBot.Ask | bot.py:72-84 | a completion adds exactly its total tokens to the user's counter and logs one event carrying the prompt fingerprint; a failed completion changes nothing; a ledger error gives a server error with no counter moved |
| MonoBot.AskAllAccounts | bot.py:82-83 | over any run of /ask requests without overflow, a user's counter and the log's total for that user both grow by exactly the tokens reported for that user |

## Left out

- Connection pools, `init_db` and schema creation: the tables are the map and
  the sequence above. The Monobank variant's schema is not part of this model.
  The model assumes it has the same `users` and `token_events` tables, with a
  `mono_invoice_id` column added, and with a `prompt_hash` column that accepts
  the integer `hash(prompt)` (a `BIGINT`, say). Under the `TEXT` column of the
  Stripe schema, asyncpg would refuse the integer argument, and every `/ask`
  would fail at the `INSERT` with nothing written.
- Concurrency. Each handler is one sequential transition. In the source, the
  gate's check and the later increment run on separate connections, so the
  race between them is not modelled.
- Telegram and aiogram transport, FastAPI routing, startup and shutdown hooks,
  argparse and the runners. The reply texts are reduced to the `Reply`
  variants.
- The chat-completion call is an input: it failed, or it returned text and a
  token count. The concatenation of the choices' text is left out.
- Stripe `construct_event` is a boolean input. Parsing the payload into an
  event is reduced to the `StripeEvent` variants.
- Monobank invoice creation over HTTP. Its returned invoice id is an input.
- The Stripe `/buy` only replies with a text and changes no state, so it has
  no transition. The Stripe `/start` is `Ledger.InsertUser`.
- Python `hash(prompt)` is process-randomised. It is an opaque integer input.
- Environment configuration and `PRICE_USD`/`PRICE_UAH`. `MAX_MONTHLY_TOKENS`
  is a parameter, and its default is `DefaultMaxMonthlyTokens`.
- Timestamps are integer seconds, with no time zones or sub-second precision.
- Telegram user ids are assumed to fit `BIGINT`.
- A `telegram_user_id` that `int()` accepts but `BIGINT` rejects is not
  modelled.
- The `/ask` body is assumed to carry an integer `user_id`. The completion is
  assumed to report `usage.total_tokens`. A missing value in either (a `NULL`
  insert) is not modelled.
- MonoBot.Ask: the completion is assumed to have a first choice. An empty
  `choices` list would raise after the tokens were logged, and that 500 is not
  modelled.
- Token counts are non-negative (`nat`). A negative count from the provider
  is not modelled.
- StripeBot.StripeWebhook: a lookup error or any other exception after the
  signature check is not modelled. Only the `int()` failure on the user id
  yields the 500.
