/** The document store as the handlers use it: three keyed collections and
    the query `where('userID', '==', uid).stream()`. */
module Store {
  import opened Records

  /** The `users` (keyed by email), `medications` (keyed by medicationID) and
      `emergency_contacts` (keyed by a store-assigned id) collections. */
  datatype Db = Db(
    users: map<string, User>,
    medications: map<string, Medication>,
    contacts: map<string, Contact>)

  /** No account in `users` holds the userID `uid` yet, as `uuid4` ensures
      for the one a signup generates. */
  predicate FreshUserID(users: map<string, User>, uid: string)
  {
    forall e | e in users :: users[e].userID != uid
  }

  /** What every handler keeps true of the store: a user sits under its own
      email, no two accounts share a userID, a medication sits under its own
      medicationID, and no document was updated before it was created or
      after the clock reading `clock`. */
  ghost predicate Consistent(db: Db, clock: nat)
  {
    && (forall e | e in db.users ::
          db.users[e].email == e && db.users[e].createdAt <= db.users[e].updatedAt <= clock)
    && (forall e1, e2 | e1 in db.users && e2 in db.users && e1 != e2 ::
          db.users[e1].userID != db.users[e2].userID)
    && (forall k | k in db.medications ::
          db.medications[k].medicationID == k
          && db.medications[k].createdAt <= db.medications[k].updatedAt <= clock)
    && (forall k | k in db.contacts ::
          db.contacts[k].createdAt <= db.contacts[k].updatedAt <= clock)
  }

  /** The keys of the documents of `m` whose owner field is `uid`. */
  function Matching<R>(m: map<string, R>, owner: R -> string, uid: string): set<string>
  {
    set k | k in m && owner(m[k]) == uid
  }

  function KeysOf<R>(docs: seq<(string, R)>): set<string>
  {
    set i | 0 <= i < |docs| :: docs[i].0
  }

  ghost predicate DistinctKeys<R>(docs: seq<(string, R)>)
  {
    forall i, j | 0 <= i < j < |docs| :: docs[i].0 != docs[j].0
  }

  /** `docs` is what the query yields: every document of `m` whose owner is
      `uid`, each once, paired with its key, and nothing else. The order is
      the store's and is not fixed here. */
  ghost predicate IsQueryResult<R>(docs: seq<(string, R)>, m: map<string, R>, owner: R -> string, uid: string)
  {
    && (forall i | 0 <= i < |docs| :: docs[i].0 in m && m[docs[i].0] == docs[i].1)
    && KeysOf(docs) == Matching(m, owner, uid)
    && DistinctKeys(docs)
  }

  /** `collection.where(owner, '==', uid).stream()`. */
  method Where<R>(m: map<string, R>, owner: R -> string, uid: string) returns (docs: seq<(string, R)>)
    ensures IsQueryResult(docs, m, owner, uid)
    ensures forall i | 0 <= i < |docs| :: owner(docs[i].1) == uid
  {
    docs := [];
    var pending := m.Keys;
    while pending != {}
      invariant pending <= m.Keys
      invariant forall i | 0 <= i < |docs| ::
        docs[i].0 in m && docs[i].0 !in pending && m[docs[i].0] == docs[i].1 && owner(docs[i].1) == uid
      invariant KeysOf(docs) == Matching(m, owner, uid) - pending
      invariant DistinctKeys(docs)
      decreases pending
    {
      var k :| k in pending;
      if owner(m[k]) == uid {
        KeysOfAppend(docs, (k, m[k]));
        docs := docs + [(k, m[k])];
      }
      pending := pending - {k};
    }
  }

  lemma KeysOfAppend<R>(docs: seq<(string, R)>, d: (string, R))
    ensures KeysOf(docs + [d]) == KeysOf(docs) + {d.0}
  {
    var ext := docs + [d];
    forall k | k in KeysOf(ext) ensures k in KeysOf(docs) + {d.0} {
      var i :| 0 <= i < |ext| && ext[i].0 == k;
      if i < |docs| { assert docs[i].0 == k; }
    }
    forall k | k in KeysOf(docs) ensures k in KeysOf(ext) {
      var i :| 0 <= i < |docs| && docs[i].0 == k;
      assert ext[i].0 == k;
    }
    assert ext[|docs|].0 == d.0;
  }

  /** A query yields exactly as many documents as the owner has. */
  lemma {:induction false} QueryResultSize<R>(docs: seq<(string, R)>, m: map<string, R>, owner: R -> string, uid: string)
    requires IsQueryResult(docs, m, owner, uid)
    ensures |docs| == |Matching(m, owner, uid)|
  {
    DistinctKeysSize(docs);
  }

  lemma {:induction false} DistinctKeysSize<R>(docs: seq<(string, R)>)
    requires DistinctKeys(docs)
    ensures |KeysOf(docs)| == |docs|
  {
    if docs != [] {
      var last := |docs| - 1;
      var init := docs[..last];
      assert DistinctKeys(init);
      DistinctKeysSize(init);
      assert KeysOf(docs) == KeysOf(init) + {docs[last].0};
      assert docs[last].0 !in KeysOf(init);
    }
  }
}
