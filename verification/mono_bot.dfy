/** The Monobank variant of the bot (`bot.py` over the `DB` class of `db.py`):
    `/start`, `/buy`, the Monobank payment webhook and the `/ask` endpoint,
    as transitions of the shared ledger. */
module MonoBot {
  import opened Ledger

  // ---------- /start and /buy ----------

  /** `/start`: `DB.add_user` for the sender. */
  function Start(db: Db, id: UserId, now: int): (r: Db)
    ensures id in r.users
    ensures id in db.users ==> r == db
    ensures id !in db.users ==>
              && !r.users[id].isPremium && r.users[id].invoiceRef == None
              && r.users[id].tokensUsed == 0 && r.users[id].resetAt == now
    ensures forall other :: other in db.users ==> other in r.users && r.users[other] == db.users[other]
    ensures r.events == db.events
  {
    InsertUser(db, id, now)
  }

  /** `/buy`: the invoice id Monobank returned (absent when its reply had no
      `invoiceId`) becomes the sender's pending invoice via `DB.set_invoice`. */
  function Buy(db: Db, id: UserId, invoiceId: Option<string>): (r: Db)
    ensures OtherRowsUnchanged(db.users, r.users, id)
    ensures id in db.users ==>
              r.users[id].invoiceRef == invoiceId && r.users[id].(invoiceRef := db.users[id].invoiceRef) == db.users[id]
    ensures id !in db.users ==> r == db
    ensures r.events == db.events
  {
    UpdateInvoice(db, id, invoiceId)
  }

  /** Registering again, at any later time, changes nothing. */
  lemma StartIsIdempotent(db: Db, id: UserId, now: int, later: int)
    ensures id in Start(db, id, now).users
    ensures Start(Start(db, id, now), id, later) == Start(db, id, now)
  {
  }

  /** `/buy` replaces whatever invoice was pending, touching nothing else; of
      two purchases only the later invoice is remembered. */
  lemma BuyReplacesPendingInvoice(db: Db, id: UserId, first: Option<string>, second: Option<string>)
    requires id in db.users
    ensures Buy(db, id, second).users[id].invoiceRef == second
    ensures Buy(db, id, second).users[id].(invoiceRef := db.users[id].invoiceRef) == db.users[id]
    ensures Buy(Buy(db, id, first), id, second) == Buy(db, id, second)
  {
  }

  // ---------- Monobank webhook ----------

  /** The payment status that grants premium. */
  const PaidStatus: string := "PAID"

  /** The table after the webhook, the users a `send_message` was issued to,
      and the HTTP outcome. */
  datatype MonoResult = MonoResult(db: Db, messaged: seq<UserId>, response: Response)

  /** `mono_webhook`: `row` is what `fetchrow` returned for the lookup by
      `mono_invoice_id`; `sendOk` says whether the Telegram notification went
      through (a failure raises after premium was already written). */
  function MonoWebhook(db: Db, invoiceId: Option<string>, status: Option<string>, row: Option<UserId>, sendOk: bool): (r: MonoResult)
    requires FetchRow(db.users, InvoiceColumn, invoiceId, row)
    ensures r.db.events == db.events
    ensures |r.messaged| <= 1
    ensures r.messaged != [] <==> row.Some? && status == Some(PaidStatus)
    ensures r.messaged == [] ==> r.db == db && r.response == Ok
    ensures r.messaged != [] ==>
              var id := r.messaged[0];
              && invoiceId.Some?
              && id in db.users && db.users[id].invoiceRef == invoiceId
              && id in r.db.users
              && r.db.users[id].isPremium
              && r.db.users[id].invoiceRef == None
              && r.db.users[id].(isPremium := db.users[id].isPremium, invoiceRef := invoiceId) == db.users[id]
              && OtherRowsUnchanged(db.users, r.db.users, id)
    ensures r.response == ServerError <==> r.messaged != [] && !sendOk
    ensures Valid(db) ==> Valid(r.db)
  {
    if row.Some? && status == Some(PaidStatus) then
      var paid := UpdatePremiumClearInvoice(db, row.value, true);
      MonoResult(paid, [row.value], if sendOk then Ok else ServerError)
    else
      MonoResult(db, [], Ok)
  }

  /** A PAID event for a pending invoice held by exactly one user makes that
      user premium, clears the invoice and messages that user once. */
  lemma PaidPendingInvoiceGrantsPremium(db: Db, invoice: string, id: UserId, row: Option<UserId>, sendOk: bool)
    requires Holders(db.users, InvoiceColumn, Some(invoice)) == {id}
    requires FetchRow(db.users, InvoiceColumn, Some(invoice), row)
    ensures var r := MonoWebhook(db, Some(invoice), Some(PaidStatus), row, sendOk);
            && r.messaged == [id]
            && r.db.users[id].isPremium
            && r.db.users[id].invoiceRef == None
            && OtherRowsUnchanged(db.users, r.db.users, id)
  {
  }

  /** A status other than PAID, a missing invoice id or an invoice nobody has
      pending changes nothing, messages nobody and is acknowledged. */
  lemma UnpaidOrUnmatchedIsNoOp(db: Db, invoiceId: Option<string>, status: Option<string>, row: Option<UserId>, sendOk: bool)
    requires FetchRow(db.users, InvoiceColumn, invoiceId, row)
    requires status != Some(PaidStatus) || Holders(db.users, InvoiceColumn, invoiceId) == {}
    ensures MonoWebhook(db, invoiceId, status, row, sendOk) == MonoResult(db, [], Ok)
  {
  }

  /** Redelivering a PAID event that already succeeded finds nobody, because
      the pending invoice was cleared: no change and no second message. */
  lemma PaidReplayIsNoOp(db: Db, invoice: string, id: UserId, sendOk: bool, replayRow: Option<UserId>, replaySendOk: bool)
    requires Holders(db.users, InvoiceColumn, Some(invoice)) == {id}
    ensures FetchRow(db.users, InvoiceColumn, Some(invoice), Some(id))
    ensures var once := MonoWebhook(db, Some(invoice), Some(PaidStatus), Some(id), sendOk);
            FetchRow(once.db.users, InvoiceColumn, Some(invoice), replayRow) ==>
              MonoWebhook(once.db, Some(invoice), Some(PaidStatus), replayRow, replaySendOk) == MonoResult(once.db, [], Ok)
  {
  }

  /** After a newer `/buy`, a PAID event for the superseded invoice matches
      nobody (when that user was its only holder) and changes nothing. */
  lemma SupersededInvoiceIsNoOp(db: Db, id: UserId, stale: string, newer: Option<string>, row: Option<UserId>, sendOk: bool)
    requires Holders(db.users, InvoiceColumn, Some(stale)) <= {id}
    requires newer != Some(stale)
    ensures Holders(Buy(db, id, newer).users, InvoiceColumn, Some(stale)) == {}
    ensures var bought := Buy(db, id, newer);
            FetchRow(bought.users, InvoiceColumn, Some(stale), row) ==>
              MonoWebhook(bought, Some(stale), Some(PaidStatus), row, sendOk) == MonoResult(bought, [], Ok)
  {
  }

  // ---------- /ask ----------

  /** The chat-completion call of `/ask`: it raised, or it returned text and
      `usage.total_tokens`. */
  datatype Completion = CompletionFailed | Completed(text: string, totalTokens: nat)

  datatype AskReply = Answered(text: string, tokens: nat) | AskServerError

  datatype AskResult = AskResult(db: Db, reply: AskReply)

  /** `/ask`: after the completion returns, `DB.log_tokens` records its total
      with the prompt's fingerprint; any exception is a server error. */
  function Ask(db: Db, id: UserId, promptHash: int, now: int, c: Completion): (r: AskResult)
    ensures r.reply.Answered? <==> c.Completed? && id in db.users && db.users[id].tokensUsed + c.totalTokens <= MaxBigInt
    ensures r.reply.Answered? ==>
              && c.Completed?
              && r.reply == Answered(c.text, c.totalTokens)
              && id in r.db.users
              && r.db.users[id].tokensUsed == db.users[id].tokensUsed + c.totalTokens
              && r.db.events == db.events + [TokenEvent(id, c.totalTokens, Some(promptHash), now)]
              && OtherRowsUnchanged(db.users, r.db.users, id)
    ensures !r.reply.Answered? ==> r.reply == AskServerError && r.db.users == db.users
    ensures c.CompletionFailed? ==> r.db == db
    ensures r.db.events == db.events ||
            (c.Completed? && r.db.events == db.events + [TokenEvent(id, c.totalTokens, Some(promptHash), now)])
    ensures Valid(db) ==> Valid(r.db)
  {
    match c
    case CompletionFailed => AskResult(db, AskServerError)
    case Completed(text, tokens) =>
      var step := RecordTokens(db, id, tokens, Some(promptHash), now);
      AskResult(step.db, if step.error.None? then Answered(text, tokens) else AskServerError)
  }

  /** One `/ask` request: its user, its prompt fingerprint, and the completion. */
  datatype AskRequest = AskRequest(userId: UserId, promptHash: int, completion: Completion)

  /** A run of `/ask` requests handled one after another. */
  function AskAll(db: Db, reqs: seq<AskRequest>, now: int): Db
    decreases |reqs|
  {
    if reqs == [] then db
    else AskAll(Ask(db, reqs[0].userId, reqs[0].promptHash, now, reqs[0].completion).db, reqs[1..], now)
  }

  /** Total tokens the completions of `reqs` reported for user `id`. */
  function ChargedTo(reqs: seq<AskRequest>, id: UserId): nat
    decreases |reqs|
  {
    if reqs == [] then 0
    else
      (if reqs[0].userId == id && reqs[0].completion.Completed? then reqs[0].completion.totalTokens else 0)
      + ChargedTo(reqs[1..], id)
  }

  /** Total tokens the log records against user `id`. */
  function Logged(events: seq<TokenEvent>, id: UserId): nat
    decreases |events|
  {
    if events == [] then 0
    else (if events[0].userId == id then events[0].tokens else 0) + Logged(events[1..], id)
  }

  lemma {:induction false} LoggedAppend(a: seq<TokenEvent>, b: seq<TokenEvent>, id: UserId)
    ensures Logged(a + b, id) == Logged(a, id) + Logged(b, id)
    decreases |a|
  {
    if a == [] {
      assert a + b == b;
    } else {
      assert (a + b)[1..] == a[1..] + b;
      LoggedAppend(a[1..], b, id);
    }
  }

  /** Over any run of `/ask` requests that does not overflow a user's
      counter, the counter grows by exactly the tokens the completions
      reported for that user, and the log records exactly the same amount. */
  lemma {:induction false} AskAllAccounts(db: Db, reqs: seq<AskRequest>, now: int, id: UserId)
    requires id in db.users
    requires db.users[id].tokensUsed + ChargedTo(reqs, id) <= MaxBigInt
    ensures id in AskAll(db, reqs, now).users
    ensures AskAll(db, reqs, now).users[id].tokensUsed == db.users[id].tokensUsed + ChargedTo(reqs, id)
    ensures Logged(AskAll(db, reqs, now).events, id) == Logged(db.events, id) + ChargedTo(reqs, id)
    decreases |reqs|
  {
    if reqs != [] {
      var q := reqs[0];
      var step := Ask(db, q.userId, q.promptHash, now, q.completion);
      assert id in step.db.users;
      if step.db.events != db.events {
        var e := TokenEvent(q.userId, q.completion.totalTokens, Some(q.promptHash), now);
        assert step.db.events == db.events + [e];
        LoggedAppend(db.events, [e], id);
        assert Logged([e], id) == if q.userId == id then q.completion.totalTokens else 0 by {
          assert [e][1..] == [];
        }
      }
      if q.userId == id && q.completion.Completed? {
        assert step.reply.Answered?;
      } else {
        assert step.db.users[id] == db.users[id];
      }
      AskAllAccounts(step.db, reqs[1..], now, id);
    }
  }
}
