/**
 * The subscriber table as a value: items keyed by email address, each item
 * holding the email it is stored under, the opaque id from the last
 * subscribe request, the last-modified timestamp and the confirm flag.
 */
module Store {

  datatype Record = Record(email: string, id: string, timestamp: string, confirm: bool)

  type Table = map<string, Record>

  /** Every item carries the email it is keyed by, as a key attribute does. */
  ghost predicate WellKeyed(t: Table) {
    forall k :: k in t ==> t[k].email == k
  }

  /** The test made on a fetched item: its stored email and id equal the inputs. */
  predicate IsMatch(item: Record, email: string, id: string) {
    item.email == email && item.id == id
  }

  /** An item is stored under `email` and it passes the match test. */
  predicate Matches(t: Table, email: string, id: string) {
    email in t && IsMatch(t[email], email, id)
  }

  /**
   * The update keyed by `email` that sets id, timestamp and confirm: it creates
   * the item when it is absent and overwrites all three attributes when present.
   */
  function Upsert(t: Table, email: string, id: string, timestamp: string, confirm: bool): (r: Table)
    ensures r.Keys == t.Keys + {email}
    ensures r[email] == Record(email, id, timestamp, confirm)
    ensures forall k :: k in t && k != email ==> r[k] == t[k]
  {
    t[email := Record(email, id, timestamp, confirm)]
  }

  /** The delete keyed by `email` whose condition is that the stored email and id equal the inputs. */
  function ConditionalDelete(t: Table, email: string, id: string): (r: Table)
    ensures r.Keys == if Matches(t, email, id) then t.Keys - {email} else t.Keys
    ensures forall k :: k in r ==> r[k] == t[k]
  {
    if Matches(t, email, id) then t - {email} else t
  }

  /** Both writes keep every item under the key of its own email. */
  lemma UpsertWellKeyed(t: Table, email: string, id: string, timestamp: string, confirm: bool)
    requires WellKeyed(t)
    ensures WellKeyed(Upsert(t, email, id, timestamp, confirm))
  {
  }

  lemma ConditionalDeleteWellKeyed(t: Table, email: string, id: string)
    requires WellKeyed(t)
    ensures WellKeyed(ConditionalDelete(t, email, id))
  {
  }

  /** After an upsert, the match test succeeds on the written email for the written id and no other. */
  lemma UpsertThenMatches(t: Table, email: string, id: string, timestamp: string, confirm: bool, id': string)
    ensures Matches(Upsert(t, email, id, timestamp, confirm), email, id') <==> id' == id
  {
  }

  /** Duplicate subscribes: the second upsert under the same email wins outright. */
  lemma UpsertLastWriterWins(t: Table, email: string, id1: string, ts1: string, c1: bool, id2: string, ts2: string, c2: bool)
    ensures Upsert(Upsert(t, email, id1, ts1, c1), email, id2, ts2, c2) == Upsert(t, email, id2, ts2, c2)
  {
  }

  /** The conditional delete changes the table only when the condition held, and then only at `email`. */
  lemma ConditionalDeleteOnlyOnMatch(t: Table, email: string, id: string)
    ensures ConditionalDelete(t, email, id) != t <==> Matches(t, email, id)
    ensures Matches(t, email, id) ==> ConditionalDelete(t, email, id) == t - {email}
  {
  }
}
