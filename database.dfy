/**
 * The subscription store: one row per user holding the plan id, the end
 * date and the language. Time is a count of seconds; the table is a map from
 * user id to row. Writing is an in-place upsert on the store object; reading
 * is a pure function of a snapshot of the table and the current time.
 */
module Database {

  import opened Wrappers
  import opened Catalog

  type UserId = string

  /** Seconds per day: the unit of `timedelta(days=...)` and of `.days`. */
  const DAY_SECONDS: int := 86400

  /** The language the store reports when there is no active row. */
  const DEFAULT_LANGUAGE: string := "ru"

  /** A days-left value at or below this threshold triggers the expiry warning. */
  const WARNING_DAYS: int := 3

  datatype Record = Record(subscriptionId: string, endDate: int, language: string)

  /** The fourth component of a read: the expiry warning or the "absent or expired" notice. */
  datatype Notice = ExpiresSoon(daysLeft: int) | MissingOrExpired

  /** What a read returns: plan id, end date, language and notice. */
  datatype View = View(subscriptionId: Option<string>, endDate: Option<int>, language: string, notice: Option<Notice>)

  type Table = map<UserId, Record>

  /** A row exists and its end date lies strictly after `now`. */
  predicate Active(table: Table, user: UserId, now: int)
  {
    user in table && table[user].endDate > now
  }

  /**
   * Reads a user's subscription at time `now`. A missing row and a row whose
   * end date is not after `now` both read as "no subscription" with the default
   * language; an active row reads as stored, with a warning when the whole
   * number of days left is at most three.
   */
  function GetSubscription(table: Table, user: UserId, now: int): (v: View)
    ensures Active(table, user, now) ==>
              v.subscriptionId == Some(table[user].subscriptionId) &&
              v.endDate == Some(table[user].endDate) &&
              v.language == table[user].language
    ensures !Active(table, user, now) ==> v == View(None, None, DEFAULT_LANGUAGE, Some(MissingOrExpired))
    ensures Active(table, user, now) ==>
              (v.notice.Some? <==> table[user].endDate - now < (WARNING_DAYS + 1) * DAY_SECONDS)
    ensures Active(table, user, now) && v.notice.Some? ==>
              v.notice.value.ExpiresSoon? &&
              0 <= v.notice.value.daysLeft <= WARNING_DAYS &&
              v.notice.value.daysLeft * DAY_SECONDS <= table[user].endDate - now < (v.notice.value.daysLeft + 1) * DAY_SECONDS
  {
    if user in table && table[user].endDate > now then
      var row := table[user];
      var daysLeft := (row.endDate - now) / DAY_SECONDS;
      var notice := if daysLeft <= WARNING_DAYS then Some(ExpiresSoon(daysLeft)) else None;
      View(Some(row.subscriptionId), Some(row.endDate), row.language, notice)
    else
      View(None, None, DEFAULT_LANGUAGE, Some(MissingOrExpired))
  }

  /** The end date of a purchase of `sub` made at `now`. */
  function EndDate(plans: seq<Plan>, sub: string, now: int): int
    requires Find(plans, sub).Some?
  {
    now + Find(plans, sub).value.durationDays * DAY_SECONDS
  }

  /**
   * The table after an upsert of `user`'s row: the row is replaced whole (no
   * time carried over from an earlier row) and every other row is kept.
   */
  function Upserted(table: Table, plans: seq<Plan>, user: UserId, sub: string, language: string, now: int): (t: Table)
    requires Find(plans, sub).Some?
    ensures t.Keys == table.Keys + {user}
    ensures t[user] == Record(sub, EndDate(plans, sub, now), language)
    ensures forall u :: u in table && u != user ==> t[u] == table[u]
  {
    table[user := Record(sub, EndDate(plans, sub, now), language)]
  }

  class SubscriptionStore {

    var table: Table

    constructor ()
      ensures table == map[]
    {
      table := map[];
    }

    /**
     * Upserts the row of `user`. Looking up the plan raises a key error for an
     * id outside the catalogue, and the database may raise (`ioError`); in both
     * cases nothing is written and the method reports failure.
     */
    method Save(plans: seq<Plan>, user: UserId, sub: string, language: string, now: int, ioError: bool) returns (ok: bool)
      modifies this
      ensures ok <==> Find(plans, sub).Some? && !ioError
      ensures ok ==> table == Upserted(old(table), plans, user, sub, language, now)
      ensures !ok ==> table == old(table)
    {
      var plan := Find(plans, sub);
      if plan.None? || ioError {
        return false;
      }
      table := table[user := Record(sub, EndDate(plans, sub, now), language)];
      ok := true;
    }
  }

  /** Right after a save at `t`, every read before the new end date returns the saved plan and language. */
  lemma ReadAfterSave(table: Table, plans: seq<Plan>, user: UserId, sub: string, language: string, t: int, t': int)
    requires Find(plans, sub).Some?
    requires t' < t + Find(plans, sub).value.durationDays * DAY_SECONDS
    ensures var v := GetSubscription(Upserted(table, plans, user, sub, language, t), user, t');
            v.subscriptionId == Some(sub) && v.language == language &&
            v.endDate == Some(t + Find(plans, sub).value.durationDays * DAY_SECONDS)
  {
  }

  /** A save for one user does not change what any other user reads. */
  lemma SaveLeavesOthers(table: Table, plans: seq<Plan>, user: UserId, sub: string, language: string, t: int, other: UserId, now: int)
    requires Find(plans, sub).Some?
    requires other != user
    ensures GetSubscription(Upserted(table, plans, user, sub, language, t), other, now) == GetSubscription(table, other, now)
  {
    var t' := Upserted(table, plans, user, sub, language, t);
    assert other in t' <==> other in table;
  }

  /** Expiry is strict: a row ending exactly now reads as absent, with the default language, whatever it stores. */
  lemma EndingNowIsExpired(table: Table, user: UserId, now: int)
    requires user in table && table[user].endDate == now
    ensures GetSubscription(table, user, now) == View(None, None, DEFAULT_LANGUAGE, Some(MissingOrExpired))
  {
  }

  /** The warning is given exactly when the whole number of days left, rounded down, is at most three. */
  lemma WarningIffFewDaysLeft(table: Table, user: UserId, now: int)
    requires Active(table, user, now)
    ensures GetSubscription(table, user, now).notice.Some? <==> (table[user].endDate - now) / DAY_SECONDS <= WARNING_DAYS
  {
  }

  /** The stored language of every row is the store's default. */
  predicate AllDefaultLanguage(table: Table)
  {
    forall u :: u in table ==> table[u].language == DEFAULT_LANGUAGE
  }

  /** When every row holds the default language, every read reports it. */
  lemma ReadLanguageIsDefault(table: Table, user: UserId, now: int)
    requires AllDefaultLanguage(table)
    ensures GetSubscription(table, user, now).language == DEFAULT_LANGUAGE
  {
  }

}
