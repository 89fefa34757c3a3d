/** The Flask application of deployed_api/main.py: the shared store and one
    method per route. Every method reads and writes the three collections in
    place, in the order the handler does, and is proved to produce exactly
    the store and the response of the matching transition in handlers.dfy. */
module Service {
  import opened Records
  import opened Auth
  import opened Store
  import opened Handlers

  /** Firestore's `update(fields)` on a user, with `updatedAt` added to the
      fields: the named profile fields are overwritten, the others kept, and
      identity, credentials and creation time never change. */
  function ApplyUpdate(u: User, fields: map<string, string>, now: nat): (r: User)
    requires fields.Keys <= ProfileFields
    ensures r.userID == u.userID && r.email == u.email
    ensures r.passwordHash == u.passwordHash && r.createdAt == u.createdAt && r.updatedAt == now
    ensures "fname" in fields ==> r.fname == fields["fname"]
    ensures "fname" !in fields ==> r.fname == u.fname
    ensures "lname" in fields ==> r.lname == fields["lname"]
    ensures "lname" !in fields ==> r.lname == u.lname
    ensures "phoneNumber" in fields ==> r.phoneNumber == fields["phoneNumber"]
    ensures "phoneNumber" !in fields ==> r.phoneNumber == u.phoneNumber
    ensures "dob" in fields ==> r.dob == fields["dob"]
    ensures "dob" !in fields ==> r.dob == u.dob
    ensures "gender" in fields ==> r.gender == fields["gender"]
    ensures "gender" !in fields ==> r.gender == u.gender
  {
    u.(fname := GetOr(fields, "fname", u.fname),
       lname := GetOr(fields, "lname", u.lname),
       phoneNumber := GetOr(fields, "phoneNumber", u.phoneNumber),
       dob := GetOr(fields, "dob", u.dob),
       gender := GetOr(fields, "gender", u.gender),
       updatedAt := now)
  }

  /** Builds `update_data` as update_user_details does: each whitelisted
      field present in the body is copied, in order, and a phone number that
      is not ten digits stops the handler. */
  method CollectProfileFields(data: Json) returns (update: map<string, string>, phoneOk: bool)
    ensures phoneOk <==> !PhoneRejected(data)
    ensures phoneOk ==> update.Keys == data.Keys * ProfileFields
    ensures forall f | f in update :: f in data && update[f] == data[f]
  {
    update := map[];
    if "fname" in data {
      update := update["fname" := data["fname"]];
    }
    if "lname" in data {
      update := update["lname" := data["lname"]];
    }
    if "phoneNumber" in data {
      var phone := data["phoneNumber"];
      if !ValidPhone(phone) {
        return update, false;
      }
      update := update["phoneNumber" := phone];
    }
    if "dob" in data {
      update := update["dob" := data["dob"]];
    }
    if "gender" in data {
      update := update["gender" := data["gender"]];
    }
    phoneOk := true;
  }

  /** Writing the collected fields, when there are any, is the profile patch;
      there are none exactly when the body names no whitelisted field. */
  lemma CollectedUpdateIsPatch(u: User, data: Json, update: map<string, string>, now: nat)
    requires update.Keys == data.Keys * ProfileFields
    requires forall f | f in update :: f in data && update[f] == data[f]
    ensures update != map[] <==> TouchesProfile(data)
    ensures update != map[] ==> ApplyUpdate(u, update, now) == Patched(u, data, now)
    ensures update == map[] ==> Patched(u, data, now) == u
  {
    if update == map[] {
      forall f | f in ProfileFields ensures f !in data {
        assert f !in update.Keys;
      }
    } else {
      var f :| f in update;
      assert f in ProfileFields && f in data;
    }
  }

  /** `[doc.to_dict() for doc in docs]`. */
  function Documents<R>(docs: seq<(string, R)>): seq<R>
  {
    seq(|docs|, i requires 0 <= i < |docs| => docs[i].1)
  }

  /** The answer of get_medications is the query result with the keys
      dropped; since every medication carries its own key as medicationID,
      that lists exactly the owner's medications. */
  lemma QueryListsMedications(docs: seq<(string, Medication)>, meds: map<string, Medication>, uid: string)
    requires IsQueryResult(docs, meds, MedicationOwner, uid)
    requires forall k | k in meds :: meds[k].medicationID == k
    ensures ListsMedications(Documents(docs), meds, uid)
  {
    var items := Documents(docs);
    assert forall i | 0 <= i < |items| :: items[i] == docs[i].1;
    assert (set i | 0 <= i < |items| :: items[i].medicationID) == KeysOf(docs) by {
      forall k | k in KeysOf(docs) ensures k in set i | 0 <= i < |items| :: items[i].medicationID {
        var i :| 0 <= i < |docs| && docs[i].0 == k;
        assert items[i].medicationID == k;
      }
    }
  }

  class Backend {
    /** bcrypt, fixed when the application starts. */
    const crypto: Crypto
    /** The `users` collection, keyed by email. */
    var users: map<string, User>
    /** The `medications` collection, keyed by medicationID. */
    var medications: map<string, Medication>
    /** The `emergency_contacts` collection, keyed by the id the store assigned. */
    var contacts: map<string, Contact>
    /** The latest wall-clock reading (seconds) a handler has stamped with. */
    var clock: nat

    function Snapshot(): Db
      reads this
    {
      Db(users, medications, contacts)
    }

    ghost predicate Valid()
      reads this
    {
      Consistent(Snapshot(), clock)
    }

    constructor (crypto: Crypto)
      ensures Valid() && this.crypto == crypto && clock == 0
      ensures Snapshot() == Db(map[], map[], map[])
    {
      this.crypto := crypto;
      users, medications, contacts := map[], map[], map[];
      clock := 0;
    }

    /** `get_user_ref(email).get().to_dict()`: the document stored under the
        email, which is that user's own. */
    function UserDoc(email: string): (r: Option<User>)
      reads this
      ensures r.Some? <==> email in users
      ensures r.Some? ==> r.value == users[email]
      ensures Valid() && r.Some? ==> r.value.email == email
    {
      if email in users then Some(users[email]) else None
    }

    /** Takes the wall-clock reading `now` for this request. */
    method Tick(now: nat)
      requires Valid() && clock <= now
      modifies this`clock
      ensures Valid() && clock == now
    {
      ConsistentLater(Snapshot(), clock, now);
      clock := now;
    }

    /** POST /create_user. `userID` is the uuid4, which no account holds yet,
        and `salt` the bcrypt salt. */
    method CreateUser(data: Json, userID: string, salt: string, now: nat) returns (r: Response)
      requires Valid() && clock <= now
      requires FreshUserID(users, userID)
      modifies this
      ensures Valid() && clock == now
      ensures var s := CreateUserStep(old(Snapshot()), crypto, data, userID, salt, now);
              Snapshot() == s.db && r == s.response
    {
      Tick(now);
      if !(SignupKeys <= data.Keys) {
        return Response(500, InternalServerError);
      }
      var email := data["email"];
      var digest := crypto.hashpw(data["passwordHash"], salt);
      var user := User(userID, data["fname"], data["lname"], email, digest,
                       data["gender"], data["phoneNumber"], data["dob"], now, now);
      var existing := UserDoc(email);
      if existing.Some? {
        return Response(409, Message(UserExists));
      }
      users := users[email := user];
      r := Response(200, Created(UserCreated, Issue(email, now)));
    }

    /** POST /login. Reads the store and never writes it. */
    method Login(data: Json, now: nat) returns (r: Response)
      ensures r == LoginResponse(Snapshot(), crypto, data, now)
    {
      if !("email" in data && "password" in data) {
        return Response(500, InternalServerError);
      }
      var email := data["email"];
      var existing := UserDoc(email);
      if existing.None? {
        return Response(401, Message(InvalidCredentials));
      }
      if crypto.checkpw(data["password"], existing.value.passwordHash) {
        r := Response(200, AccessToken(Issue(email, now)));
      } else {
        r := Response(401, Message(InvalidCredentials));
      }
    }

    /** GET /get_user_details. */
    method GetUserDetails(v: Verdict) returns (r: Response)
      ensures r == UserDetailsResponse(Snapshot(), v)
    {
      if !v.Valid? {
        return TokenError(v);
      }
      var existing := UserDoc(v.identity);
      if existing.None? {
        return Response(404, Message(UserNotFound));
      }
      r := Response(200, UserDetails(existing.value));
    }

    /** PUT /update_user_details: `update` collects the whitelisted fields one
        by one; a bad phone number returns before the single write. */
    method UpdateUserDetails(v: Verdict, data: Json, now: nat) returns (r: Response)
      requires Valid() && clock <= now
      modifies this
      ensures Valid() && clock == now
      ensures var s := UpdateUserDetailsStep(old(Snapshot()), v, data, now);
              Snapshot() == s.db && r == s.response
    {
      Tick(now);
      if !v.Valid? {
        return TokenError(v);
      }
      var existing := UserDoc(v.identity);
      if existing.None? {
        return Response(404, Message(UserNotFound));
      }
      var update, phoneOk := CollectProfileFields(data);
      if !phoneOk {
        return Response(400, Message(InvalidPhone));
      }
      ghost var s := UpdateUserDetailsStep(Snapshot(), v, data, now);
      CollectedUpdateIsPatch(existing.value, data, update, now);
      if update != map[] {
        users := users[v.identity := ApplyUpdate(existing.value, update, now)];
      }
      assert Snapshot() == s.db;
      r := Response(200, Message(UserUpdated));
    }

    /** POST /add_medication. `id` is the fresh uuid4; `set` stores under it. */
    method AddMedication(v: Verdict, data: Json, id: string, now: nat) returns (r: Response)
      requires Valid() && clock <= now
      modifies this
      ensures Valid() && clock == now
      ensures var s := AddMedicationStep(old(Snapshot()), v, data, id, now);
              Snapshot() == s.db && r == s.response
    {
      Tick(now);
      if !v.Valid? {
        return TokenError(v);
      }
      var existing := UserDoc(v.identity);
      if existing.None? {
        return Response(404, Message(UserNotFound));
      }
      var m := Medication(id, Get(data, "name"), Get(data, "dosage"), Get(data, "schedule"),
                          GetOr(data, "notes", ""), existing.value.userID, now, now);
      medications := medications[id := m];
      r := Response(200, MedicationAdded(MedicationAddedText, id));
    }

    /** PUT /update_medication/<id>: the record is found by its id alone. */
    method UpdateMedication(v: Verdict, id: string, data: Json, now: nat) returns (r: Response)
      requires Valid() && clock <= now
      modifies this
      ensures Valid() && clock == now
      ensures var s := UpdateMedicationStep(old(Snapshot()), v, id, data, now);
              Snapshot() == s.db && r == s.response
    {
      Tick(now);
      if !v.Valid? {
        return TokenError(v);
      }
      var existing := UserDoc(v.identity);
      if existing.None? {
        return Response(404, Message(UserNotFound));
      }
      if id !in medications {
        return Response(404, Message(MedicationNotFound));
      }
      medications := medications[id := Overwritten(medications[id], data, now)];
      r := Response(200, Message(MedicationUpdated));
    }

    /** DELETE /delete_medication/<id>: the record is found by its id alone. */
    method DeleteMedication(v: Verdict, id: string) returns (r: Response)
      requires Valid()
      modifies this
      ensures Valid() && clock == old(clock)
      ensures var s := DeleteMedicationStep(old(Snapshot()), v, id);
              Snapshot() == s.db && r == s.response
    {
      if !v.Valid? {
        return TokenError(v);
      }
      var existing := UserDoc(v.identity);
      if existing.None? {
        return Response(404, Message(UserNotFound));
      }
      if id !in medications {
        return Response(404, Message(MedicationNotFound));
      }
      medications := medications - {id};
      r := Response(200, Message(MedicationDeleted));
    }

    /** GET /get_medications: the query on `userID`, with the keys dropped. */
    method GetMedications(v: Verdict) returns (r: Response)
      requires Valid()
      ensures !v.Valid? ==> r == TokenError(v)
      ensures v.Valid? && v.identity !in users ==> r == Response(404, Message(UserNotFound))
      ensures v.Valid? && v.identity in users ==>
                r.status == 200 && r.body.Medications?
                && ListsMedications(r.body.items, medications, users[v.identity].userID)
    {
      if !v.Valid? {
        return TokenError(v);
      }
      var existing := UserDoc(v.identity);
      if existing.None? {
        return Response(404, Message(UserNotFound));
      }
      var docs := Where(medications, MedicationOwner, existing.value.userID);
      QueryListsMedications(docs, medications, existing.value.userID);
      r := Response(200, Medications(Documents(docs)));
    }

    /** POST /add_emergency_contact. `id` is the key `collection.add` assigns,
        which is never one already in use. */
    method AddEmergencyContact(v: Verdict, data: Json, id: string, now: nat) returns (r: Response)
      requires Valid() && clock <= now
      requires id !in contacts
      modifies this
      ensures Valid() && clock == now
      ensures var s := AddEmergencyContactStep(old(Snapshot()), v, data, id, now);
              Snapshot() == s.db && r == s.response
    {
      Tick(now);
      if !v.Valid? {
        return TokenError(v);
      }
      var existing := UserDoc(v.identity);
      if existing.None? {
        return Response(404, Message(UserNotFound));
      }
      var c := Contact(Get(data, "fname"), Get(data, "lname"), Get(data, "phoneNumber"),
                       Get(data, "relationship"), existing.value.userID, now, now);
      contacts := contacts[id := c];
      r := Response(200, Message(ContactAdded));
    }

    /** GET /get_emergency_contacts: the query on `userID`, each document
        extended with its key as `contactID` in a loop. The caller's document
        is subscripted without a check, so a missing one raises. */
    method GetEmergencyContacts(v: Verdict) returns (r: Response)
      ensures !v.Valid? ==> r == TokenError(v)
      ensures v.Valid? && v.identity !in users ==> r == Response(500, InternalServerError)
      ensures v.Valid? && v.identity in users ==>
                r.status == 200 && r.body.Contacts?
                && ListsContacts(r.body.views, contacts, users[v.identity].userID)
    {
      if !v.Valid? {
        return TokenError(v);
      }
      var existing := UserDoc(v.identity);
      if existing.None? {
        return Response(500, InternalServerError);
      }
      var uid := existing.value.userID;
      var docs := Where(contacts, ContactOwner, uid);
      var views: seq<ContactView> := [];
      for i := 0 to |docs|
        invariant |views| == i
        invariant forall j | 0 <= j < i :: views[j] == ContactView(docs[j].0, docs[j].1)
      {
        views := views + [ContactView(docs[i].0, docs[i].1)];
      }
      assert (set j | 0 <= j < |views| :: views[j].contactID) == KeysOf(docs);
      r := Response(200, Contacts(views));
    }

    /** PUT /update_emergency_contact/<id>: neither the caller nor the owner
        is looked at. */
    method UpdateEmergencyContact(v: Verdict, id: string, data: Json, now: nat) returns (r: Response)
      requires Valid() && clock <= now
      modifies this
      ensures Valid() && clock == now
      ensures var s := UpdateEmergencyContactStep(old(Snapshot()), v, id, data, now);
              Snapshot() == s.db && r == s.response
    {
      Tick(now);
      if !v.Valid? {
        return TokenError(v);
      }
      if id !in contacts {
        return Response(404, Message(ContactNotFound));
      }
      contacts := contacts[id := Replaced(contacts[id], data, now)];
      r := Response(200, Message(ContactUpdated));
    }

    /** DELETE /delete_emergency_contact/<id>: neither the caller nor the
        owner is looked at. */
    method DeleteEmergencyContact(v: Verdict, id: string) returns (r: Response)
      requires Valid()
      modifies this
      ensures Valid() && clock == old(clock)
      ensures var s := DeleteEmergencyContactStep(old(Snapshot()), v, id);
              Snapshot() == s.db && r == s.response
    {
      if !v.Valid? {
        return TokenError(v);
      }
      if id !in contacts {
        return Response(404, Message(ContactNotFound));
      }
      contacts := contacts - {id};
      r := Response(200, Message(ContactDeleted));
    }
  }
}
