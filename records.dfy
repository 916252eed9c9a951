/** The persisted user record and the record store.

    A record is one row per user, keyed by the messaging peer id. A column
    that the row does not hold reads as NULL, which is also how a freshly
    inserted user looks (`UserProxy(dict(id=peer_id))`). `update_user` is a
    partial merge: the columns it names take the new values, every other
    column and every other user is left as it was. */
module Records {
  import opened Values

  /** The "awaiting free text" marker written into a column. */
  const CHANGES: string := "CHANGES"
  const Pending: Val := Str(CHANGES)

  const ROLE_STUDENT: string := "student"
  const ROLE_TEACHER: string := "teacher"

  datatype Field =
    | Role | CurrentName | CurrentId
    | FoundName | FoundId | FoundType
    | ShowGroups | ShowLocation
    | ScheduleDayDate
    | SubscriptionTime | SubscriptionGroup | SubscriptionDays
    | Update

  type Row = map<Field, Val>
  type Patch = map<Field, Val>

  /** A column of a row; NULL where the row holds nothing. */
  function Get(row: Row, f: Field): Val
  {
    if f in row then row[f] else Null
  }

  /** The row after a partial update: the patched columns take the patch's
      values, all other columns keep theirs. */
  function Merge(row: Row, patch: Patch): (r: Row)
    ensures forall f :: f in patch ==> Get(r, f) == patch[f]
    ensures forall f :: f !in patch ==> Get(r, f) == Get(row, f)
  {
    row + patch
  }

  /** The in-memory copy of a record that a handler works on (`UserProxy`). */
  datatype User = User(id: int, row: Row)

  type Store = map<int, Row>

  /** `update_user(user_id, data)`: an UPDATE of one row; no row, no change. */
  function Updated(store: Store, id: int, patch: Patch): (s: Store)
    ensures s.Keys == store.Keys
    ensures forall k :: k in store && k != id ==> s[k] == store[k]
    ensures id in store ==> s[id] == Merge(store[id], patch)
  {
    if id in store then store[id := Merge(store[id], patch)] else store
  }

  /** Only the user's own row may differ, and no row appears or disappears. */
  ghost predicate Confined(before: Store, after: Store, id: int)
  {
    after.Keys == before.Keys && forall k :: k in before && k != id ==> after[k] == before[k]
  }

  /** The three subscription columns, cleared together when a subscription
      is dropped or its set-up fails. */
  const NoSubscription: Patch :=
    map[SubscriptionTime := Null, SubscriptionGroup := Null, SubscriptionDays := Null]

  predicate Unsubscribed(row: Row)
  {
    Get(row, SubscriptionTime) == Null && Get(row, SubscriptionGroup) == Null
    && Get(row, SubscriptionDays) == Null
  }

  /** Clearing the subscription rolls back all three columns, whatever they held. */
  lemma ClearingUnsubscribes(store: Store, id: int)
    requires id in store
    ensures Unsubscribed(Updated(store, id, NoSubscription)[id])
    ensures forall f :: f !in NoSubscription ==>
      Get(Updated(store, id, NoSubscription)[id], f) == Get(store[id], f)
  {
  }
}
