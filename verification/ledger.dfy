/** The user ledger shared by both bots: the `users` table, the append-only
    `token_events` log, and one pure transition per SQL statement the bots run.

    A SQL `NULL` is `None`. Each statement runs in autocommit mode, so a
    two-statement helper whose second statement fails keeps the effect of the
    first. Integer columns are PostgreSQL `BIGINT`s: a value outside their range
    is refused by the database driver or by the `+` in an `UPDATE`. */
module Ledger {

  datatype Option<+T> = None | Some(value: T)

  /** Telegram user id, the primary key of `users`. */
  type UserId = int

  /** Largest value a PostgreSQL `BIGINT` column holds. */
  const MaxBigInt: int := 0x7FFF_FFFF_FFFF_FFFF

  /** `timedelta(days=30)`, in seconds. */
  const MonthSeconds: int := 30 * 24 * 60 * 60

  /** One row of `users`. `customerRef`/`subscriptionRef` are the Stripe
      columns, `invoiceRef` is the Monobank `mono_invoice_id` column;
      `resetAt` is `monthly_reset`, in integer seconds. */
  datatype User = User(
    isPremium: bool,
    customerRef: Option<string>,
    subscriptionRef: Option<string>,
    invoiceRef: Option<string>,
    tokensUsed: nat,
    resetAt: int)

  /** One row of `token_events`; the prompt fingerprint is opaque. */
  datatype TokenEvent = TokenEvent(userId: UserId, tokens: nat, promptHash: Option<int>, createdAt: int)

  datatype Db = Db(users: map<UserId, User>, events: seq<TokenEvent>)

  /** Errors the database raises for the statements modelled here. */
  datatype DbError = ForeignKeyViolation | NumericOutOfRange

  /** The table after a statement sequence, and the error that stopped it, if any. */
  datatype Step = Step(db: Db, error: Option<DbError>)

  /** The two reference columns a webhook looks users up by. */
  datatype RefColumn = SubscriptionColumn | InvoiceColumn

  /** The HTTP outcome of a webhook endpoint: 200, 400, or 500 from an uncaught exception. */
  datatype Response = Ok | BadRequest | ServerError

  /** The row `INSERT INTO users(id)` creates: every column at its default. */
  function NewUser(now: int): User
  {
    User(false, None, None, None, 0, now)
  }

  /** Column ranges and the `token_events.user_id REFERENCES users(id)` key. */
  ghost predicate Valid(db: Db)
  {
    && (forall id :: id in db.users ==> db.users[id].tokensUsed <= MaxBigInt)
    && (forall i :: 0 <= i < |db.events| ==>
          db.events[i].userId in db.users && db.events[i].tokens <= MaxBigInt)
  }

  /** No row is added or removed, and every row except `id` is unchanged. */
  ghost predicate OtherRowsUnchanged(before: map<UserId, User>, after: map<UserId, User>, id: UserId)
  {
    && after.Keys == before.Keys
    && forall other :: other in before && other != id ==> after[other] == before[other]
  }

  /** `INSERT INTO users(id) VALUES($1) ON CONFLICT DO NOTHING`
      (`ensure_user` and `DB.add_user`). */
  function InsertUser(db: Db, id: UserId, now: int): (r: Db)
    ensures id in r.users
    ensures r.users.Keys == db.users.Keys + {id}
    ensures forall other :: other in db.users ==> r.users[other] == db.users[other]
    ensures id !in db.users ==>
              var u := r.users[id];
              && !u.isPremium && u.tokensUsed == 0 && u.resetAt == now
              && u.customerRef == None && u.subscriptionRef == None && u.invoiceRef == None
    ensures r.events == db.events
    ensures Valid(db) ==> Valid(r)
  {
    if id in db.users then db else db.(users := db.users[id := NewUser(now)])
  }

  /** Inserting twice, at any two instants, is inserting once. */
  lemma InsertUserIdempotent(db: Db, id: UserId, now: int, later: int)
    ensures InsertUser(InsertUser(db, id, now), id, later) == InsertUser(db, id, now)
  {
  }

  /** `SELECT * FROM users WHERE id=$1` through `fetchrow` (`get_user`, `DB.get_user`). */
  function SelectUser(db: Db, id: UserId): (r: Option<User>)
    ensures r.Some? <==> id in db.users
    ensures r.Some? ==> r.value == db.users[id]
  {
    if id in db.users then Some(db.users[id]) else None
  }

  /** `UPDATE users SET is_premium=$2, stripe_customer_id=$3, stripe_subscription_id=$4 WHERE id=$1`
      (Stripe `set_premium`). */
  function UpdatePremiumAndRefs(db: Db, id: UserId, premium: bool, customer: Option<string>, subscription: Option<string>): (r: Db)
    ensures OtherRowsUnchanged(db.users, r.users, id)
    ensures r.events == db.events
    ensures id !in db.users ==> r == db
    ensures id in db.users ==>
              var before, after := db.users[id], r.users[id];
              && after.isPremium == premium
              && after.customerRef == customer
              && after.subscriptionRef == subscription
              && after.invoiceRef == before.invoiceRef
              && after.tokensUsed == before.tokensUsed
              && after.resetAt == before.resetAt
    ensures Valid(db) ==> Valid(r)
  {
    if id in db.users then
      db.(users := db.users[id := db.users[id].(isPremium := premium, customerRef := customer, subscriptionRef := subscription)])
    else
      db
  }

  /** `UPDATE users SET is_premium=$2, mono_invoice_id=NULL WHERE id=$1`
      (Monobank `DB.set_premium`): the pending invoice is cleared whichever
      way the flag goes. */
  function UpdatePremiumClearInvoice(db: Db, id: UserId, premium: bool): (r: Db)
    ensures OtherRowsUnchanged(db.users, r.users, id)
    ensures r.events == db.events
    ensures id !in db.users ==> r == db
    ensures id in db.users ==>
              var before, after := db.users[id], r.users[id];
              && after.isPremium == premium
              && after.invoiceRef == None
              && after.customerRef == before.customerRef
              && after.subscriptionRef == before.subscriptionRef
              && after.tokensUsed == before.tokensUsed
              && after.resetAt == before.resetAt
    ensures Valid(db) ==> Valid(r)
  {
    if id in db.users then
      db.(users := db.users[id := db.users[id].(isPremium := premium, invoiceRef := None)])
    else
      db
  }

  /** The Monobank `set_premium` with the same arguments twice is the same as once. */
  lemma UpdatePremiumClearInvoiceIdempotent(db: Db, id: UserId, premium: bool)
    ensures UpdatePremiumClearInvoice(UpdatePremiumClearInvoice(db, id, premium), id, premium)
         == UpdatePremiumClearInvoice(db, id, premium)
  {
  }

  /** `UPDATE users SET mono_invoice_id=$2 WHERE id=$1` (`DB.set_invoice`). */
  function UpdateInvoice(db: Db, id: UserId, invoice: Option<string>): (r: Db)
    ensures OtherRowsUnchanged(db.users, r.users, id)
    ensures r.events == db.events
    ensures id !in db.users ==> r == db
    ensures id in db.users ==>
              r.users[id].invoiceRef == invoice && r.users[id].(invoiceRef := db.users[id].invoiceRef) == db.users[id]
    ensures Valid(db) ==> Valid(r)
  {
    if id in db.users then db.(users := db.users[id := db.users[id].(invoiceRef := invoice)]) else db
  }

  /** Only the most recent pending invoice survives two `set_invoice` calls. */
  lemma UpdateInvoiceLastWins(db: Db, id: UserId, first: Option<string>, second: Option<string>)
    ensures UpdateInvoice(UpdateInvoice(db, id, first), id, second) == UpdateInvoice(db, id, second)
  {
  }

  /** `INSERT INTO token_events(user_id, tokens_used, prompt_hash) ...` followed by
      `UPDATE users SET monthly_tokens_used = monthly_tokens_used + $2 WHERE id=$1`
      (`add_tokens_used` and `DB.log_tokens`). A count too large for `BIGINT` is
      refused before anything is written; an unknown user breaks the foreign key
      and nothing is written; an overflowing sum fails the `UPDATE` after the
      event was already committed. */
  function RecordTokens(db: Db, id: UserId, tokens: nat, promptHash: Option<int>, now: int): (r: Step)
    ensures r.error.None? <==> id in db.users && db.users[id].tokensUsed + tokens <= MaxBigInt
    ensures r.error.None? ==>
              && id in r.db.users
              && r.db.events == db.events + [TokenEvent(id, tokens, promptHash, now)]
              && r.db.users[id].tokensUsed == db.users[id].tokensUsed + tokens
              && r.db.users[id].(tokensUsed := db.users[id].tokensUsed) == db.users[id]
              && OtherRowsUnchanged(db.users, r.db.users, id)
    ensures r.error.Some? ==> r.db.users == db.users
    ensures r.error.Some? && (tokens > MaxBigInt || id !in db.users) ==> r.db == db
    ensures r.error.Some? && tokens <= MaxBigInt && id in db.users ==>
              && r.error == Some(NumericOutOfRange)
              && r.db.events == db.events + [TokenEvent(id, tokens, promptHash, now)]
    ensures Valid(db) ==> Valid(r.db)
  {
    if tokens > MaxBigInt then
      Step(db, Some(NumericOutOfRange))
    else if id !in db.users then
      Step(db, Some(ForeignKeyViolation))
    else
      var logged := db.(events := db.events + [TokenEvent(id, tokens, promptHash, now)]);
      var u := db.users[id];
      if u.tokensUsed + tokens > MaxBigInt then
        Step(logged, Some(NumericOutOfRange))
      else
        Step(logged.(users := db.users[id := u.(tokensUsed := u.tokensUsed + tokens)]), None)
  }

  /** True when the 30-day window that started at `u.resetAt` is over at `now`. */
  predicate ResetDue(u: User, now: int)
  {
    now >= u.resetAt + MonthSeconds
  }

  /** The counter as the gate should see it at `now`: a finished window counts as 0. */
  function EffectiveTokens(u: User, now: int): nat
  {
    if ResetDue(u, now) then 0 else u.tokensUsed
  }

  /** `reset_monthly_if_needed`: a missing user is left alone; a finished window
      restarts at `now` with an empty counter. */
  function ResetMonthlyIfNeeded(db: Db, id: UserId, now: int): (r: Db)
    ensures r.events == db.events
    ensures OtherRowsUnchanged(db.users, r.users, id)
    ensures id !in db.users ==> r == db
    ensures id in db.users && !ResetDue(db.users[id], now) ==> r == db
    ensures id in db.users && ResetDue(db.users[id], now) ==>
              && r.users[id].tokensUsed == 0
              && r.users[id].resetAt == now
              && r.users[id].(tokensUsed := db.users[id].tokensUsed, resetAt := db.users[id].resetAt) == db.users[id]
    ensures id in db.users ==> r.users[id].tokensUsed == EffectiveTokens(db.users[id], now)
    ensures Valid(db) ==> Valid(r)
  {
    if id in db.users && ResetDue(db.users[id], now) then
      db.(users := db.users[id := db.users[id].(tokensUsed := 0, resetAt := now)])
    else
      db
  }

  /** Resetting twice at the same instant is resetting once. */
  lemma ResetMonthlyIdempotent(db: Db, id: UserId, now: int)
    ensures ResetMonthlyIfNeeded(ResetMonthlyIfNeeded(db, id, now), id, now) == ResetMonthlyIfNeeded(db, id, now)
  {
  }

  /** After a reset at `now` no further reset is due until 30 days later. */
  lemma ResetBoundary(db: Db, id: UserId, now: int, later: int)
    requires id in db.users
    ensures var r := ResetMonthlyIfNeeded(db, id, now);
            ResetDue(r.users[id], later) <==>
              (if ResetDue(db.users[id], now) then later >= now + MonthSeconds
               else later >= db.users[id].resetAt + MonthSeconds)
  {
  }

  /** The reference column `col` of a row. */
  function RefOf(u: User, col: RefColumn): Option<string>
  {
    match col
    case SubscriptionColumn => u.subscriptionRef
    case InvoiceColumn => u.invoiceRef
  }

  /** SQL `col = $1`: a `NULL` key is never equal to anything, not even a `NULL` column. */
  predicate Holds(u: User, col: RefColumn, key: Option<string>)
  {
    key.Some? && RefOf(u, col) == key
  }

  /** Every row `SELECT ... WHERE col=$1` selects. */
  function Holders(users: map<UserId, User>, col: RefColumn, key: Option<string>): (ids: set<UserId>)
    ensures forall id :: id in ids <==> id in users && key.Some? && RefOf(users[id], col) == key
    ensures key.None? ==> ids == {}
  {
    set id | id in users && Holds(users[id], col, key)
  }

  /** What `fetchrow` may return for `SELECT ... WHERE col=$1`: nothing when no
      row matches, otherwise one of the matching rows (which one is the
      database's choice). */
  predicate FetchRow(users: map<UserId, User>, col: RefColumn, key: Option<string>, row: Option<UserId>)
    ensures FetchRow(users, col, key, row) && row.Some? ==>
              row.value in users && key.Some? && RefOf(users[row.value], col) == key
    ensures FetchRow(users, col, key, row) && row.None? ==>
              forall id :: id in users ==> key.None? || RefOf(users[id], col) != key
    ensures key.None? ==> (FetchRow(users, col, key, row) <==> row.None?)
  {
    match row
    case None => Holders(users, col, key) == {}
    case Some(id) => id in Holders(users, col, key)
  }

  /** Some element of a non-empty set. */
  lemma ElementOf<T>(s: set<T>) returns (x: T)
    requires s != {}
    ensures x in s
  {
    x :| x in s;
  }

  /** A lookup by reference, scanning the table for a matching row. */
  method SelectOneByRef(users: map<UserId, User>, col: RefColumn, key: Option<string>) returns (row: Option<UserId>)
    ensures FetchRow(users, col, key, row)
  {
    var pending := users.Keys;
    while pending != {}
      invariant pending <= users.Keys
      invariant forall id :: id in users && id !in pending ==> !Holds(users[id], col, key)
      decreases pending
    {
      ghost var some := ElementOf(pending);
      var candidate :| candidate in pending;
      if Holds(users[candidate], col, key) {
        return Some(candidate);
      }
      pending := pending - {candidate};
    }
    assert forall id :: id !in Holders(users, col, key);
    return None;
  }
}
