/** The persistent user records and the collection that holds them. */
module Users {

  /** The identifier the database assigns to a saved record. */
  type Id = string

  /** One stored user: its identifier, its email and the password hash (never the plaintext). */
  datatype Record = Record(id: Id, email: string, password: string)

  /** The user collection, as seen by queries on the email field. */
  type Store = map<string, Record>

  /** Every record is filed under its own email. */
  ghost predicate KeyedByEmail(store: Store)
  {
    forall e :: e in store ==> store[e].email == e
  }

  /** The identifiers of all stored records. */
  function Ids(store: Store): set<Id>
  {
    set e | e in store :: store[e].id
  }

  /** No two records share an identifier. */
  ghost predicate DistinctIds(store: Store)
  {
    forall e1, e2 :: e1 in store && e2 in store && store[e1].id == store[e2].id ==> e1 == e2
  }

  /** The invariant every reachable state of the collection keeps. */
  ghost predicate WellFormed(store: Store)
  {
    KeyedByEmail(store) && DistinctIds(store)
  }

  /** The records whose email field is `email`: what a query on that field can return. */
  function RecordsWithEmail(store: Store, email: string): set<Record>
  {
    set e | e in store && store[e].email == email :: store[e]
  }

  /** In a well-formed collection, a query by email finds at most one record: the one filed under it. */
  lemma OneRecordPerEmail(store: Store, email: string)
    requires KeyedByEmail(store)
    ensures RecordsWithEmail(store, email) == if email in store then {store[email]} else {}
  {
  }

  /** Filing a record with a new email and a new identifier adds one record and keeps the invariant. */
  lemma InsertKeepsWellFormed(store: Store, rec: Record)
    requires rec.email !in store
    ensures |store[rec.email := rec]| == |store| + 1
    ensures WellFormed(store) && rec.id !in Ids(store) ==> WellFormed(store[rec.email := rec])
  {
  }

  /** Removing the record of one email removes one record and keeps the invariant. */
  lemma RemoveKeepsWellFormed(store: Store, email: string)
    requires email in store
    ensures |store - {email}| == |store| - 1
    ensures WellFormed(store) ==> WellFormed(store - {email})
  {
  }
}
