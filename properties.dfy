/** Properties that relate several requests, or a request and the state it
    leaves: signup then login, the uniform login failure, the profile patch
    against the record replace, listings, and the missing ownership check on
    updates and deletes. */
module Properties {
  import opened Records
  import opened Auth
  import opened Store
  import opened Handlers

  // ----- accounts and sessions -----

  /** A successful signup followed by a login with the same password succeeds
      and yields a token for the email, provided bcrypt accepts a password
      against its own digest (a hypothesis, not something the model assumes);
      a password bcrypt rejects against that digest gets the uniform 401. */
  lemma SignupThenLogin(db: Db, crypto: Crypto, data: Json, userID: string, salt: string, t0: nat,
                        attempt: string, t1: nat)
    requires SignupKeys <= data.Keys && data["email"] !in db.users
    requires crypto.checkpw(data["passwordHash"], crypto.hashpw(data["passwordHash"], salt))
    ensures var s := CreateUserStep(db, crypto, data, userID, salt, t0);
            var good := map["email" := data["email"], "password" := data["passwordHash"]];
            var bad := map["email" := data["email"], "password" := attempt];
            && s.response.status == 200
            && LoginResponse(s.db, crypto, good, t1) == Response(200, AccessToken(Issue(data["email"], t1)))
            && (!crypto.checkpw(attempt, crypto.hashpw(data["passwordHash"], salt)) ==>
                  LoginResponse(s.db, crypto, bad, t1) == Response(401, Message(InvalidCredentials)))
  {
  }

  /** The token a login issues opens the caller's own profile for the seven
      days that follow. */
  lemma LoginTokenOpensProfile(db: Db, crypto: Crypto, data: Json, t1: nat, t2: nat)
    requires LoginResponse(db, crypto, data, t1).status == 200
    requires t1 <= t2 < t1 + TokenLifetime
    ensures "email" in data && data["email"] in db.users
    ensures var token := LoginResponse(db, crypto, data, t1).body.accessToken;
            UserDetailsResponse(db, Verify(Signed(token), t2)) == Response(200, UserDetails(db.users[data["email"]]))
  {
  }

  /** A second signup with an email already taken is refused with 409 and
      leaves the first account exactly as it was. */
  lemma SecondSignupConflicts(db: Db, crypto: Crypto, first: Json, second: Json,
                              id1: string, id2: string, salt1: string, salt2: string, t1: nat, t2: nat)
    requires SignupKeys <= first.Keys && SignupKeys <= second.Keys
    requires first["email"] !in db.users && second["email"] == first["email"]
    ensures var s1 := CreateUserStep(db, crypto, first, id1, salt1, t1);
            var s2 := CreateUserStep(s1.db, crypto, second, id2, salt2, t2);
            && s1.response.status == 200
            && s2.response == Response(409, Message(UserExists))
            && s2.db == s1.db
  {
  }

  /** Login cannot tell an unknown email from a wrong password. */
  lemma LoginFailureIsUniform(db: Db, crypto: Crypto, unknown: Json, wrong: Json, t: nat)
    requires "email" in unknown && "password" in unknown && unknown["email"] !in db.users
    requires "email" in wrong && "password" in wrong && wrong["email"] in db.users
    requires !crypto.checkpw(wrong["password"], db.users[wrong["email"]].passwordHash)
    ensures LoginResponse(db, crypto, unknown, t) == LoginResponse(db, crypto, wrong, t)
  {
  }

  /** A profile update carrying a five-digit phone number is refused with 400
      and writes nothing, although its first name is acceptable. */
  lemma ShortPhoneRejected(db: Db, email: string, now: nat)
    requires email in db.users
    ensures var s := UpdateUserDetailsStep(db, Valid(email), map["fname" := "A", "phoneNumber" := "12345"], now);
            s.response == Response(400, Message(InvalidPhone)) && s.db == db
  {
  }

  /** Patching only the first name leaves every other field of the profile
      as it was and stamps the update time. */
  lemma FirstNamePatchKeepsRest(db: Db, email: string, now: nat)
    requires email in db.users
    ensures var s := UpdateUserDetailsStep(db, Valid(email), map["fname" := "A"], now);
            var u := db.users[email];
            s.response.status == 200
            && s.db.users == db.users[email := u.(fname := "A", updatedAt := now)]
  {
    var data := map["fname" := "A"];
    assert "fname" in data.Keys * ProfileFields;
  }

  // ----- replace against patch -----

  /** A medication update is a replace: two records that share id, owner and
      creation time become identical, whatever their old contents. */
  lemma MedicationUpdateIsReplace(m1: Medication, m2: Medication, data: Json, now: nat)
    requires m1.medicationID == m2.medicationID && m1.userID == m2.userID && m1.createdAt == m2.createdAt
    ensures Overwritten(m1, data, now) == Overwritten(m2, data, now)
  {
  }

  /** A contact update is a replace in the same sense. */
  lemma ContactUpdateIsReplace(c1: Contact, c2: Contact, data: Json, now: nat)
    requires c1.userID == c2.userID && c1.createdAt == c2.createdAt
    ensures Replaced(c1, data, now) == Replaced(c2, data, now)
  {
  }

  /** A profile update is a patch: each whitelisted field absent from the
      body keeps its old value, so two profiles that differ in it still differ
      afterwards. */
  lemma ProfileUpdateIsPatch(u1: User, u2: User, data: Json, now: nat)
    ensures "fname" !in data && u1.fname != u2.fname ==> Patched(u1, data, now) != Patched(u2, data, now)
    ensures "lname" !in data && u1.lname != u2.lname ==> Patched(u1, data, now) != Patched(u2, data, now)
    ensures "phoneNumber" !in data && u1.phoneNumber != u2.phoneNumber ==>
              Patched(u1, data, now) != Patched(u2, data, now)
    ensures "dob" !in data && u1.dob != u2.dob ==> Patched(u1, data, now) != Patched(u2, data, now)
    ensures "gender" !in data && u1.gender != u2.gender ==> Patched(u1, data, now) != Patched(u2, data, now)
  {
  }

  // ----- listings -----

  /** Every medication listed to a caller is one of that caller's. */
  lemma ListedMedicationsAreOwn(items: seq<Medication>, meds: map<string, Medication>, uid: string, i: int)
    requires ListsMedications(items, meds, uid)
    requires 0 <= i < |items|
    ensures items[i].userID == uid
  {
    var ids := set j | 0 <= j < |items| :: items[j].medicationID;
    assert items[i].medicationID in ids;
  }

  /** A listing holds exactly as many medications as the caller owns. */
  lemma {:induction false} ListedMedicationsCount(items: seq<Medication>, meds: map<string, Medication>, uid: string)
    requires ListsMedications(items, meds, uid)
    ensures |items| == |Matching(meds, MedicationOwner, uid)|
  {
    var docs := seq(|items|, i requires 0 <= i < |items| => (items[i].medicationID, items[i]));
    assert KeysOf(docs) == set i | 0 <= i < |items| :: items[i].medicationID by {
      forall k | k in KeysOf(docs) ensures k in set i | 0 <= i < |items| :: items[i].medicationID {
        var i :| 0 <= i < |docs| && docs[i].0 == k;
        assert items[i].medicationID == k;
      }
      forall k | k in set i | 0 <= i < |items| :: items[i].medicationID ensures k in KeysOf(docs) {
        var i :| 0 <= i < |items| && items[i].medicationID == k;
        assert docs[i].0 == k;
      }
    }
    DistinctKeysSize(docs);
  }

  /** A medication just added is in any listing of its owner's medications
      taken from the store the add leaves. A later delete, by any account,
      can remove it again. */
  lemma AddedMedicationIsListed(db: Db, email: string, data: Json, id: string, now: nat, items: seq<Medication>)
    requires email in db.users
    requires ListsMedications(items, AddMedicationStep(db, Valid(email), data, id, now).db.medications,
                              db.users[email].userID)
    ensures exists i :: 0 <= i < |items| && items[i].medicationID == id
  {
    var meds := AddMedicationStep(db, Valid(email), data, id, now).db.medications;
    assert id in Matching(meds, MedicationOwner, db.users[email].userID);
    var ids := set j | 0 <= j < |items| :: items[j].medicationID;
    assert id in ids;
  }

  /** Since no two accounts share a userID, a medication another account
      adds is not in any listing of the caller's medications taken from the
      store that add leaves. */
  lemma OthersMedicationNotListed(db: Db, caller: string, other: string, data: Json, id: string, now: nat,
                                  items: seq<Medication>)
    requires Consistent(db, now)
    requires caller in db.users && other in db.users && caller != other
    requires ListsMedications(items, AddMedicationStep(db, Valid(other), data, id, now).db.medications,
                              db.users[caller].userID)
    ensures forall i | 0 <= i < |items| :: items[i].medicationID != id
  {
    var meds := AddMedicationStep(db, Valid(other), data, id, now).db.medications;
    assert id !in Matching(meds, MedicationOwner, db.users[caller].userID);
    forall i | 0 <= i < |items| ensures items[i].medicationID != id {
      var ids := set j | 0 <= j < |items| :: items[j].medicationID;
      assert items[i].medicationID in ids;
    }
  }

  // ----- the missing ownership check -----

  /** Any caller with an account deletes a medication that belongs to another
      user: the handler compares nothing but the id. */
  lemma ForeignMedicationDeleted(db: Db, email: string, id: string)
    requires email in db.users && id in db.medications
    requires db.medications[id].userID != db.users[email].userID
    ensures var s := DeleteMedicationStep(db, Valid(email), id);
            s.response == Response(200, Message(MedicationDeleted)) && id !in s.db.medications
  {
  }

  /** Any caller with an account rewrites a medication that belongs to another
      user; the record stays that user's, with the caller's contents. */
  lemma ForeignMedicationOverwritten(db: Db, email: string, id: string, data: Json, now: nat)
    requires email in db.users && id in db.medications
    requires db.medications[id].userID != db.users[email].userID
    ensures var s := UpdateMedicationStep(db, Valid(email), id, data, now);
            && s.response == Response(200, Message(MedicationUpdated))
            && s.db.medications[id].userID == db.medications[id].userID
            && s.db.medications[id].name == Get(data, "name")
  {
  }

  /** A valid token is enough to delete any contact, even one whose identity
      has no account at all. */
  lemma ContactDeletedWithoutAccount(db: Db, email: string, id: string)
    requires email !in db.users && id in db.contacts
    ensures var s := DeleteEmergencyContactStep(db, Valid(email), id);
            s.response == Response(200, Message(ContactDeleted)) && id !in s.db.contacts
  {
  }

  /** Likewise for rewriting a contact. */
  lemma ContactOverwrittenWithoutAccount(db: Db, email: string, id: string, data: Json, now: nat)
    requires email !in db.users && id in db.contacts
    ensures var s := UpdateEmergencyContactStep(db, Valid(email), id, data, now);
            && s.response == Response(200, Message(ContactUpdated))
            && s.db.contacts[id] == Replaced(db.contacts[id], data, now)
  {
  }

  /** A concrete instance: Bob, signed in, deletes Alice's medication. */
  lemma BobDeletesAlicesMedication()
    ensures var alice := User("a-1", "Alice", "A", "alice@x", "h1", "f", "0123456789", "1990", 0, 0);
            var bob := User("b-2", "Bob", "B", "bob@x", "h2", "m", "0123456789", "1991", 0, 0);
            var pill := Medication("m-1", Some("Aspirin"), None, None, "", "a-1", 0, 0);
            var db := Db(map["alice@x" := alice, "bob@x" := bob], map["m-1" := pill], map[]);
            var s := DeleteMedicationStep(db, Valid("bob@x"), "m-1");
            s.response.status == 200 && s.db.medications == map[]
  {
  }
}
