/** The Stripe variant of the bot (`telegram_premium_bot_production.py`):
    the per-message gate with its token accounting, and the Stripe webhook
    dispatch, as transitions of the shared ledger. */
module StripeBot {
  import opened Ledger

  /** `MAX_MONTHLY_TOKENS` when the environment leaves it unset. */
  const DefaultMaxMonthlyTokens: int := 3_000_000

  // ---------- request gate ----------

  datatype Decision = DenyNotPremium | DenyTokenCeiling | Allow

  /** The two checks of `handle_message`, non-premium first. */
  function Decide(u: User, maxTokens: int): (d: Decision)
    ensures d == Allow <==> u.isPremium && u.tokensUsed < maxTokens
    ensures d == DenyNotPremium <==> !u.isPremium
  {
    if !u.isPremium then DenyNotPremium
    else if u.tokensUsed >= maxTokens then DenyTokenCeiling
    else Allow
  }

  /** The chat-completion call as seen by the bot: it raised, or it returned
      text and maybe a `usage.total_tokens` count. */
  datatype AiResult = AiFailed | AiCompleted(text: string, totalTokens: Option<nat>)

  /** `usage.get('total_tokens') or 0`. */
  function ReportedTokens(ai: AiResult): (n: nat)
    ensures ai.AiCompleted? && ai.totalTokens.Some? ==> n == ai.totalTokens.value
    ensures ai.AiCompleted? && ai.totalTokens.None? ==> n == 0
  {
    if ai.AiCompleted? && ai.totalTokens.Some? then ai.totalTokens.value else 0
  }

  /** What the bot replies to a plain message. */
  datatype Reply = NoSubscriptionReply | TokenLimitReply | AnswerReply(text: string) | ServiceErrorReply

  datatype MessageResult = MessageResult(db: Db, reply: Reply)

  /** True for the replies that come after the completion call was made. */
  predicate ReachedAi(reply: Reply)
  {
    reply.AnswerReply? || reply.ServiceErrorReply?
  }

  /** True when the completion returned and the ledger accepted its count:
      exactly then `add_tokens_used` commits a charge. */
  predicate Chargeable(db: Db, id: UserId, ai: AiResult)
  {
    ai.AiCompleted? && id in db.users && db.users[id].tokensUsed + ReportedTokens(ai) <= MaxBigInt
  }

  /** `ask_openai_and_account` inside the `try` of `handle_message`: tokens are
      recorded only after the completion returned. Any exception becomes the
      generic error reply: one from the completion or the ledger, and equally
      one raised after the charge committed, while the choices' text is joined
      or the answer is sent (`replyOk` says whether those succeeded). */
  function AskAndAccount(db: Db, id: UserId, now: int, ai: AiResult, replyOk: bool): (r: MessageResult)
    ensures Chargeable(db, id, ai) ==>
              && id in r.db.users
              && r.db.users[id].tokensUsed == db.users[id].tokensUsed + ReportedTokens(ai)
              && r.db.users[id].(tokensUsed := db.users[id].tokensUsed) == db.users[id]
              && r.db.events == db.events + [TokenEvent(id, ReportedTokens(ai), None, now)]
    ensures !Chargeable(db, id, ai) ==> r.db.users == db.users
    ensures r.reply.AnswerReply? <==> Chargeable(db, id, ai) && replyOk
    ensures r.reply.AnswerReply? ==> ai.AiCompleted? && r.reply.text == ai.text
    ensures !r.reply.AnswerReply? ==> r.reply == ServiceErrorReply
    ensures ai.AiFailed? ==> r.db == db
    ensures OtherRowsUnchanged(db.users, r.db.users, id)
    ensures Valid(db) ==> Valid(r.db)
  {
    match ai
    case AiFailed => MessageResult(db, ServiceErrorReply)
    case AiCompleted(text, _) =>
      var step := RecordTokens(db, id, ReportedTokens(ai), None, now);
      if step.error.None? && replyOk then MessageResult(step.db, AnswerReply(text))
      else MessageResult(step.db, ServiceErrorReply)
  }

  /** `handle_message`: ensure the row, apply the lazy monthly reset, then gate
      on premium status and on the monthly token ceiling before calling the
      completion (whose result is `ai`, ignored when the gate denies);
      `replyOk` is as for `AskAndAccount`. */
  function HandleMessage(db: Db, id: UserId, now: int, maxTokens: int, ai: AiResult, replyOk: bool): (r: MessageResult)
    ensures id in r.db.users
    ensures r.reply == NoSubscriptionReply <==> !(id in db.users && db.users[id].isPremium)
    ensures r.reply == TokenLimitReply <==>
              id in db.users && db.users[id].isPremium && EffectiveTokens(db.users[id], now) >= maxTokens
    ensures ReachedAi(r.reply) <==>
              id in db.users && db.users[id].isPremium && EffectiveTokens(db.users[id], now) < maxTokens
    ensures Valid(db) ==> Valid(r.db)
  {
    var db1 := ResetMonthlyIfNeeded(InsertUser(db, id, now), id, now);
    var u := SelectUser(db1, id).value;
    match Decide(u, maxTokens)
    case DenyNotPremium => MessageResult(db1, NoSubscriptionReply)
    case DenyTokenCeiling => MessageResult(db1, TokenLimitReply)
    case Allow => AskAndAccount(db1, id, now, ai, replyOk)
  }

  /** The row `handle_message` sees after its ensure and reset steps. */
  function GateView(db: Db, id: UserId, now: int): User
  {
    if id in db.users then
      db.users[id].(tokensUsed := EffectiveTokens(db.users[id], now),
                    resetAt := if ResetDue(db.users[id], now) then now else db.users[id].resetAt)
    else
      NewUser(now)
  }

  /** A message the gate turns away, or whose completion fails, changes nothing
      beyond the ensure and reset steps: no counter moves and no event is logged. */
  lemma HandleMessageNoChargeWithoutAnswer(db: Db, id: UserId, now: int, maxTokens: int, ai: AiResult, replyOk: bool)
    requires !ReachedAi(HandleMessage(db, id, now, maxTokens, ai, replyOk).reply) || ai.AiFailed?
    ensures var r := HandleMessage(db, id, now, maxTokens, ai, replyOk);
            && r.db.events == db.events
            && r.db.users == (if id in db.users then db.users else db.users[id := NewUser(now)])[id := GateView(db, id, now)]
  {
  }

  /** A message that reaches a completion which returns is charged exactly the
      reported count on top of the counter as it stood after the lazy reset,
      with exactly one event logged, whether or not the answer then goes out;
      only when it does is the reply the completion's text. */
  lemma HandleMessageChargesReportedTokens(db: Db, id: UserId, now: int, maxTokens: int, ai: AiResult, replyOk: bool)
    requires ReachedAi(HandleMessage(db, id, now, maxTokens, ai, replyOk).reply)
    requires ai.AiCompleted?
    requires GateView(db, id, now).tokensUsed + ReportedTokens(ai) <= MaxBigInt
    ensures var r := HandleMessage(db, id, now, maxTokens, ai, replyOk);
            && r.db.users[id].tokensUsed == GateView(db, id, now).tokensUsed + ReportedTokens(ai)
            && r.db.users[id].resetAt == GateView(db, id, now).resetAt
            && r.db.events == db.events + [TokenEvent(id, ReportedTokens(ai), None, now)]
            && r.reply == (if replyOk then AnswerReply(ai.text) else ServiceErrorReply)
  {
  }

  /** The completion's count is charged unless it would overflow the `BIGINT` counter. */
  lemma HandleMessageAnswersWhenAllowed(db: Db, id: UserId, now: int, maxTokens: int, text: string, tokens: Option<nat>)
    requires id in db.users && db.users[id].isPremium
    requires EffectiveTokens(db.users[id], now) < maxTokens
    requires EffectiveTokens(db.users[id], now) + ReportedTokens(AiCompleted(text, tokens)) <= MaxBigInt
    ensures HandleMessage(db, id, now, maxTokens, AiCompleted(text, tokens), true).reply == AnswerReply(text)
  {
  }

  /** A premium user at the ceiling whose 30-day window has run out is let
      through again, and is charged from zero in a window restarting at `now`. */
  lemma MonthRolloverReadmits(db: Db, id: UserId, now: int, maxTokens: int, text: string, tokens: nat, replyOk: bool)
    requires id in db.users && db.users[id].isPremium
    requires db.users[id].tokensUsed >= maxTokens > 0
    requires now >= db.users[id].resetAt + MonthSeconds
    requires tokens <= MaxBigInt
    ensures var r := HandleMessage(db, id, now, maxTokens, AiCompleted(text, Some(tokens)), replyOk);
            && r.reply == (if replyOk then AnswerReply(text) else ServiceErrorReply)
            && r.db.users[id].tokensUsed == tokens
            && r.db.users[id].resetAt == now
  {
  }

  // ---------- Stripe webhook ----------

  /** `metadata.telegram_user_id` of a checkout session: missing or empty,
      a string `int()` accepts, or one it rejects. */
  datatype MetadataUserId = Absent | Numeric(id: UserId) | NotNumeric

  /** The event kinds `stripe_webhook` tells apart, with the fields it reads. */
  datatype StripeEvent =
    | CheckoutCompleted(telegramUserId: MetadataUserId, customer: Option<string>, subscription: Option<string>)
    | PaymentFailed(subscription: Option<string>)
    | SubscriptionDeleted(subscriptionId: Option<string>)
    | OtherEvent

  /** The subscription id a revoking event looks its user up by. */
  function RevokedRef(ev: StripeEvent): Option<string>
  {
    match ev
    case PaymentFailed(s) => s
    case SubscriptionDeleted(s) => s
    case _ => None
  }

  datatype WebhookResult = WebhookResult(db: Db, response: Response)

  /** `stripe_webhook`, after `construct_event` has decided `signatureOk`.
      `row` is what `fetchrow` returned for the revoking events' lookup by
      subscription id (`None` for the other kinds, whose key is absent). */
  function StripeWebhook(db: Db, now: int, signatureOk: bool, ev: StripeEvent, row: Option<UserId>): (r: WebhookResult)
    requires FetchRow(db.users, SubscriptionColumn, RevokedRef(ev), row)
    ensures !signatureOk ==> r == WebhookResult(db, BadRequest)
    ensures signatureOk && ev.CheckoutCompleted? && ev.telegramUserId.NotNumeric? ==> r == WebhookResult(db, ServerError)
    ensures signatureOk && !(ev.CheckoutCompleted? && ev.telegramUserId.NotNumeric?) ==> r.response == Ok
    ensures r.db.events == db.events
    ensures Valid(db) ==> Valid(r.db)
  {
    if !signatureOk then
      WebhookResult(db, BadRequest)
    else
      match ev
      case CheckoutCompleted(uid, customer, subscription) =>
        (match uid
         case Absent => WebhookResult(db, Ok)
         case NotNumeric => WebhookResult(db, ServerError)
         case Numeric(id) =>
           WebhookResult(UpdatePremiumAndRefs(InsertUser(db, id, now), id, true, customer, subscription), Ok))
      case PaymentFailed(_) =>
        WebhookResult(Revoke(db, row), Ok)
      case SubscriptionDeleted(_) =>
        WebhookResult(Revoke(db, row), Ok)
      case OtherEvent =>
        WebhookResult(db, Ok)
  }

  /** `set_premium(conn, row['id'], False)` for the row found, if any. */
  function Revoke(db: Db, row: Option<UserId>): (r: Db)
    ensures row.None? ==> r == db
    ensures row.Some? ==> OtherRowsUnchanged(db.users, r.users, row.value)
    ensures row.Some? && row.value in db.users ==>
              var before, after := db.users[row.value], r.users[row.value];
              && !after.isPremium
              && after.customerRef == None && after.subscriptionRef == None
              && after.invoiceRef == before.invoiceRef
              && after.tokensUsed == before.tokensUsed
              && after.resetAt == before.resetAt
    ensures r.events == db.events
  {
    match row
    case None => db
    case Some(id) => UpdatePremiumAndRefs(db, id, false, None, None)
  }

  /** A completed checkout naming a user leaves that user present, premium and
      holding the session's references; the counter and window of an existing
      row and every other row are untouched. */
  lemma CheckoutGrantsPremium(db: Db, now: int, id: UserId, customer: Option<string>, subscription: Option<string>)
    ensures var r := StripeWebhook(db, now, true, CheckoutCompleted(Numeric(id), customer, subscription), None);
            && r.response == Ok
            && id in r.db.users
            && r.db.users[id].isPremium
            && r.db.users[id].customerRef == customer
            && r.db.users[id].subscriptionRef == subscription
            && (id in db.users ==>
                  r.db.users[id].tokensUsed == db.users[id].tokensUsed && r.db.users[id].resetAt == db.users[id].resetAt)
            && r.db.users.Keys == db.users.Keys + {id}
            && (forall other :: other in db.users && other != id ==> r.db.users[other] == db.users[other])
  {
  }

  /** Delivering the same checkout event twice gives the state of one delivery. */
  lemma CheckoutIdempotent(db: Db, now: int, later: int, uid: MetadataUserId, customer: Option<string>, subscription: Option<string>)
    ensures var ev := CheckoutCompleted(uid, customer, subscription);
            var once := StripeWebhook(db, now, true, ev, None);
            StripeWebhook(once.db, later, true, ev, None) == once
  {
  }

  /** A checkout session without a user id changes nothing. */
  lemma CheckoutWithoutUserIsNoOp(db: Db, now: int, customer: Option<string>, subscription: Option<string>)
    ensures StripeWebhook(db, now, true, CheckoutCompleted(Absent, customer, subscription), None) == WebhookResult(db, Ok)
  {
  }

  /** A payment failure or a deleted subscription revokes exactly the user
      whose current subscription id is the event's: premium off, both
      references cleared, counter and window kept, other rows untouched. */
  lemma RevocationHitsCurrentHolder(db: Db, now: int, ev: StripeEvent, row: Option<UserId>)
    requires ev.PaymentFailed? || ev.SubscriptionDeleted?
    requires FetchRow(db.users, SubscriptionColumn, RevokedRef(ev), row)
    requires row.Some?
    ensures var r := StripeWebhook(db, now, true, ev, row);
            var id := row.value;
            && RevokedRef(ev).Some?
            && id in db.users && db.users[id].subscriptionRef == RevokedRef(ev)
            && r.response == Ok
            && !r.db.users[id].isPremium
            && r.db.users[id].customerRef == None && r.db.users[id].subscriptionRef == None
            && r.db.users[id].tokensUsed == db.users[id].tokensUsed
            && r.db.users[id].resetAt == db.users[id].resetAt
            && OtherRowsUnchanged(db.users, r.db.users, id)
  {
  }

  /** A revoking event whose subscription id no user currently holds (stale,
      superseded by a newer subscription, or missing) changes nothing. */
  lemma StaleRevocationIsNoOp(db: Db, now: int, ev: StripeEvent, row: Option<UserId>)
    requires ev.PaymentFailed? || ev.SubscriptionDeleted?
    requires FetchRow(db.users, SubscriptionColumn, RevokedRef(ev), row)
    requires forall id :: id in db.users ==> db.users[id].subscriptionRef != RevokedRef(ev) || RevokedRef(ev).None?
    ensures StripeWebhook(db, now, true, ev, row) == WebhookResult(db, Ok)
  {
  }

  /** Once the only holder of a subscription id has been revoked, replaying
      the revoking event finds nobody and changes nothing. */
  lemma RevocationReplayIsNoOp(db: Db, now: int, ev: StripeEvent, id: UserId, replayRow: Option<UserId>)
    requires ev.PaymentFailed? || ev.SubscriptionDeleted?
    requires Holders(db.users, SubscriptionColumn, RevokedRef(ev)) == {id}
    ensures FetchRow(db.users, SubscriptionColumn, RevokedRef(ev), Some(id))
    ensures var once := StripeWebhook(db, now, true, ev, Some(id));
            FetchRow(once.db.users, SubscriptionColumn, RevokedRef(ev), replayRow) ==>
              StripeWebhook(once.db, now, true, ev, replayRow) == once
  {
  }

  /** A forged or corrupted signature is answered 400 and changes nothing. */
  lemma BadSignatureIsRejected(db: Db, now: int, ev: StripeEvent, row: Option<UserId>)
    requires FetchRow(db.users, SubscriptionColumn, RevokedRef(ev), row)
    ensures StripeWebhook(db, now, false, ev, row) == WebhookResult(db, BadRequest)
  {
  }

  /** Unrecognised event types change nothing and are still acknowledged. */
  lemma OtherEventIsAcknowledged(db: Db, now: int)
    ensures StripeWebhook(db, now, true, OtherEvent, None) == WebhookResult(db, Ok)
  {
  }

  // ---------- entitlement invariant ----------

  /** In this variant a non-premium user never keeps Stripe references:
      rows start with none and revocation clears both. */
  ghost predicate RevokedHoldNoRefs(db: Db)
  {
    forall id :: id in db.users && !db.users[id].isPremium ==>
      db.users[id].customerRef.None? && db.users[id].subscriptionRef.None?
  }

  lemma StripeWebhookKeepsRevokedHoldNoRefs(db: Db, now: int, signatureOk: bool, ev: StripeEvent, row: Option<UserId>)
    requires FetchRow(db.users, SubscriptionColumn, RevokedRef(ev), row)
    requires RevokedHoldNoRefs(db)
    ensures RevokedHoldNoRefs(StripeWebhook(db, now, signatureOk, ev, row).db)
  {
  }

  lemma HandleMessageKeepsRevokedHoldNoRefs(db: Db, id: UserId, now: int, maxTokens: int, ai: AiResult, replyOk: bool)
    requires RevokedHoldNoRefs(db)
    ensures RevokedHoldNoRefs(HandleMessage(db, id, now, maxTokens, ai, replyOk).db)
  {
  }
}
