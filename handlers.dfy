/** Each request handler of deployed_api/main.py as a transition of the
    store: from the store before the request, the token verdict and the
    request body to the store after it and the response. The class in
    service.dfy runs these handlers step by step and is proved to agree. */
module Handlers {
  import opened Records
  import opened Auth
  import opened Store

  datatype Step = Step(db: Db, response: Response)

  /** The body keys create_user reads with `data[key]`; a missing one raises. */
  const SignupKeys: set<string> := {"fname", "lname", "email", "passwordHash", "gender", "phoneNumber", "dob"}

  /** The whitelist of update_user_details. */
  const ProfileFields: set<string> := {"fname", "lname", "phoneNumber", "dob", "gender"}

  /** At least one field of the whitelist is in the body, so `update_data` is
      not empty. */
  predicate TouchesProfile(data: Json)
  {
    data.Keys * ProfileFields != {}
  }

  /** A body that touches no whitelisted field names none of the five. */
  lemma Untouched(data: Json)
    requires !TouchesProfile(data)
    ensures forall f | f in ProfileFields :: f !in data
  {
    forall f | f in ProfileFields ensures f !in data {
      assert f !in data.Keys * ProfileFields;
    }
  }

  /** The body carries a phone number that is not ten digits. */
  predicate PhoneRejected(data: Json)
  {
    "phoneNumber" in data && !ValidPhone(data["phoneNumber"])
  }

  /** If the store is consistent at `clock`, it still is at any later reading. */
  lemma ConsistentLater(db: Db, clock: nat, now: nat)
    requires Consistent(db, clock) && clock <= now
    ensures Consistent(db, now)
  {
  }

  // ----- users -----

  /** create_user: a missing body key is an uncaught KeyError; an email that
      already has a document gets 409 and nothing is written; otherwise the
      new document is stored under the email, with the password's digest, and
      a token for that email is returned. The store stays consistent when
      the generated userID is fresh, as `uuid4` makes it. */
  function CreateUserStep(db: Db, crypto: Crypto, data: Json, userID: string, salt: string, now: nat): (s: Step)
    ensures s.db.medications == db.medications && s.db.contacts == db.contacts
    ensures s.response.status != 200 ==> s.db == db
    ensures !(SignupKeys <= data.Keys) ==> s.response == Response(500, InternalServerError)
    ensures SignupKeys <= data.Keys && data["email"] in db.users ==> s.response == Response(409, Message(UserExists))
    ensures s.response.status == 200 <==> SignupKeys <= data.Keys && data["email"] !in db.users
    ensures s.response.status == 200 ==>
              var email := data["email"];
              && email in s.db.users
              && s.db.users == db.users[email := s.db.users[email]]
              && s.db.users[email] == User(userID, data["fname"], data["lname"], email,
                                           crypto.hashpw(data["passwordHash"], salt),
                                           data["gender"], data["phoneNumber"], data["dob"], now, now)
              && s.response.body == Created(UserCreated, Issue(email, now))
    ensures Consistent(db, now) && FreshUserID(db.users, userID) ==> Consistent(s.db, now)
  {
    if !(SignupKeys <= data.Keys) then
      Step(db, Response(500, InternalServerError))
    else
      var email := data["email"];
      var user := User(userID, data["fname"], data["lname"], email,
                       crypto.hashpw(data["passwordHash"], salt),
                       data["gender"], data["phoneNumber"], data["dob"], now, now);
      if email in db.users then Step(db, Response(409, Message(UserExists)))
      else Step(db.(users := db.users[email := user]), Response(200, Created(UserCreated, Issue(email, now))))
  }

  /** login: the same 401 for an unknown email and for a wrong password; on
      success a token for the submitted email. */
  function LoginResponse(db: Db, crypto: Crypto, data: Json, now: nat): (r: Response)
    ensures !("email" in data && "password" in data) ==> r == Response(500, InternalServerError)
    ensures "email" in data && "password" in data ==>
              (r.status == 200 <==> data["email"] in db.users
                                    && crypto.checkpw(data["password"], db.users[data["email"]].passwordHash))
    ensures r.status == 200 ==> "email" in data && r.body == AccessToken(Issue(data["email"], now))
    ensures "email" in data && "password" in data && r.status != 200 ==> r == Response(401, Message(InvalidCredentials))
  {
    if !("email" in data && "password" in data) then Response(500, InternalServerError)
    else
      var email := data["email"];
      if email !in db.users then Response(401, Message(InvalidCredentials))
      else if crypto.checkpw(data["password"], db.users[email].passwordHash) then
        Response(200, AccessToken(Issue(email, now)))
      else Response(401, Message(InvalidCredentials))
  }

  /** get_user_details: the caller's whole document, password digest
      included, or 404. */
  function UserDetailsResponse(db: Db, v: Verdict): (r: Response)
    ensures !v.Valid? ==> r == TokenError(v)
    ensures v.Valid? && v.identity !in db.users ==> r == Response(404, Message(UserNotFound))
    ensures r.status == 200 <==> v.Valid? && v.identity in db.users
    ensures r.status == 200 ==> v.Valid? && v.identity in db.users && r.body == UserDetails(db.users[v.identity])
  {
    if !v.Valid? then TokenError(v)
    else if v.identity !in db.users then Response(404, Message(UserNotFound))
    else Response(200, UserDetails(db.users[v.identity]))
  }

  /** The profile patch: each whitelisted field present in the body is
      overwritten and every other field kept; `updatedAt` is refreshed only
      when some whitelisted field is present. Identity and credentials are
      never touched. */
  function Patched(u: User, data: Json, now: nat): (p: User)
    ensures p.userID == u.userID && p.email == u.email
    ensures p.passwordHash == u.passwordHash && p.createdAt == u.createdAt
    ensures p.fname == GetOr(data, "fname", u.fname) && p.lname == GetOr(data, "lname", u.lname)
    ensures p.phoneNumber == GetOr(data, "phoneNumber", u.phoneNumber)
    ensures p.dob == GetOr(data, "dob", u.dob) && p.gender == GetOr(data, "gender", u.gender)
    ensures p.updatedAt == if TouchesProfile(data) then now else u.updatedAt
    ensures !TouchesProfile(data) ==> p == u
  {
    if !TouchesProfile(data) then Untouched(data); u
    else u.(fname := GetOr(data, "fname", u.fname),
            lname := GetOr(data, "lname", u.lname),
            phoneNumber := GetOr(data, "phoneNumber", u.phoneNumber),
            dob := GetOr(data, "dob", u.dob),
            gender := GetOr(data, "gender", u.gender),
            updatedAt := now)
  }

  /** update_user_details: a bad phone number rejects the whole body with 400
      and nothing is written, even when other fields are valid; otherwise the
      caller's document is patched (not at all when no whitelisted field is
      present) and the answer is 200. */
  function UpdateUserDetailsStep(db: Db, v: Verdict, data: Json, now: nat): (s: Step)
    ensures s.db.medications == db.medications && s.db.contacts == db.contacts
    ensures s.response.status != 200 ==> s.db == db
    ensures !v.Valid? ==> s.response == TokenError(v)
    ensures v.Valid? && v.identity !in db.users ==> s.response == Response(404, Message(UserNotFound))
    ensures v.Valid? && v.identity in db.users && PhoneRejected(data) ==>
              s.response == Response(400, Message(InvalidPhone))
    ensures s.response.status == 200 <==> v.Valid? && v.identity in db.users && !PhoneRejected(data)
    ensures s.response.status == 200 ==>
              && v.Valid? && v.identity in db.users
              && s.response.body == Message(UserUpdated)
              && s.db.users == db.users[v.identity := Patched(db.users[v.identity], data, now)]
    ensures !TouchesProfile(data) ==> s.db == db
    ensures Consistent(db, now) ==> Consistent(s.db, now)
  {
    if !v.Valid? then Step(db, TokenError(v))
    else if v.identity !in db.users then Step(db, Response(404, Message(UserNotFound)))
    else if PhoneRejected(data) then Step(db, Response(400, Message(InvalidPhone)))
    else
      var u := db.users[v.identity];
      Step(db.(users := db.users[v.identity := Patched(u, data, now)]), Response(200, Message(UserUpdated)))
  }

  // ----- medications -----

  function MedicationOwner(m: Medication): string
  {
    m.userID
  }

  /** The medication update: name, dosage, schedule and notes are replaced by
      the body's values (null, or '' for notes, when absent), whatever they
      were; the id, the owner and the creation time are kept. */
  function Overwritten(m: Medication, data: Json, now: nat): (r: Medication)
    ensures r.medicationID == m.medicationID && r.userID == m.userID && r.createdAt == m.createdAt
    ensures r.name == Get(data, "name") && r.dosage == Get(data, "dosage") && r.schedule == Get(data, "schedule")
    ensures r.notes == GetOr(data, "notes", "") && r.updatedAt == now
  {
    m.(name := Get(data, "name"), dosage := Get(data, "dosage"), schedule := Get(data, "schedule"),
       notes := GetOr(data, "notes", ""), updatedAt := now)
  }

  /** add_medication: 404 when the caller has no document; otherwise one
      medication stored under the generated id, stamped with the caller's
      userID, `notes` defaulting to ''. */
  function AddMedicationStep(db: Db, v: Verdict, data: Json, id: string, now: nat): (s: Step)
    ensures s.db.users == db.users && s.db.contacts == db.contacts
    ensures s.response.status != 200 ==> s.db == db
    ensures !v.Valid? ==> s.response == TokenError(v)
    ensures v.Valid? && v.identity !in db.users ==> s.response == Response(404, Message(UserNotFound))
    ensures s.response.status == 200 <==> v.Valid? && v.identity in db.users
    ensures s.response.status == 200 ==>
              && v.Valid? && v.identity in db.users
              && s.response.body == MedicationAdded(MedicationAddedText, id)
              && id in s.db.medications
              && s.db.medications == db.medications[id := s.db.medications[id]]
              && s.db.medications[id] == Medication(id, Get(data, "name"), Get(data, "dosage"), Get(data, "schedule"),
                                                    GetOr(data, "notes", ""), db.users[v.identity].userID, now, now)
    ensures s.response.status == 200 && id !in db.medications ==>
              |s.db.medications| == |db.medications| + 1
    ensures Consistent(db, now) ==> Consistent(s.db, now)
  {
    if !v.Valid? then Step(db, TokenError(v))
    else if v.identity !in db.users then Step(db, Response(404, Message(UserNotFound)))
    else
      var m := Medication(id, Get(data, "name"), Get(data, "dosage"), Get(data, "schedule"),
                          GetOr(data, "notes", ""), db.users[v.identity].userID, now, now);
      Step(db.(medications := db.medications[id := m]), Response(200, MedicationAdded(MedicationAddedText, id)))
  }

  /** update_medication: 404 for a caller without a document or an absent id;
      otherwise the record is overwritten, whoever owns it. */
  function UpdateMedicationStep(db: Db, v: Verdict, id: string, data: Json, now: nat): (s: Step)
    ensures s.db.users == db.users && s.db.contacts == db.contacts
    ensures s.response.status != 200 ==> s.db == db
    ensures !v.Valid? ==> s.response == TokenError(v)
    ensures v.Valid? && v.identity !in db.users ==> s.response == Response(404, Message(UserNotFound))
    ensures v.Valid? && v.identity in db.users && id !in db.medications ==>
              s.response == Response(404, Message(MedicationNotFound))
    ensures s.response.status == 200 <==> v.Valid? && v.identity in db.users && id in db.medications
    ensures s.response.status == 200 ==>
              && id in db.medications
              && s.response.body == Message(MedicationUpdated)
              && s.db.medications == db.medications[id := Overwritten(db.medications[id], data, now)]
    ensures Consistent(db, now) ==> Consistent(s.db, now)
  {
    if !v.Valid? then Step(db, TokenError(v))
    else if v.identity !in db.users then Step(db, Response(404, Message(UserNotFound)))
    else if id !in db.medications then Step(db, Response(404, Message(MedicationNotFound)))
    else
      var m := Overwritten(db.medications[id], data, now);
      Step(db.(medications := db.medications[id := m]), Response(200, Message(MedicationUpdated)))
  }

  /** delete_medication: 404 for a caller without a document or an absent id;
      otherwise the record is removed, whoever owns it. */
  function DeleteMedicationStep(db: Db, v: Verdict, id: string): (s: Step)
    ensures s.db.users == db.users && s.db.contacts == db.contacts
    ensures s.response.status != 200 ==> s.db == db
    ensures !v.Valid? ==> s.response == TokenError(v)
    ensures v.Valid? && v.identity !in db.users ==> s.response == Response(404, Message(UserNotFound))
    ensures v.Valid? && v.identity in db.users && id !in db.medications ==>
              s.response == Response(404, Message(MedicationNotFound))
    ensures s.response.status == 200 <==> v.Valid? && v.identity in db.users && id in db.medications
    ensures s.response.status == 200 ==>
              s.response.body == Message(MedicationDeleted) && s.db.medications == db.medications - {id}
  {
    if !v.Valid? then Step(db, TokenError(v))
    else if v.identity !in db.users then Step(db, Response(404, Message(UserNotFound)))
    else if id !in db.medications then Step(db, Response(404, Message(MedicationNotFound)))
    else Step(db.(medications := db.medications - {id}), Response(200, Message(MedicationDeleted)))
  }

  /** The answer of get_medications: every medication of the owner `uid`,
      each once, as stored, and nothing else. */
  ghost predicate ListsMedications(items: seq<Medication>, meds: map<string, Medication>, uid: string)
  {
    && (forall i | 0 <= i < |items| :: items[i].medicationID in meds && meds[items[i].medicationID] == items[i])
    && (set i | 0 <= i < |items| :: items[i].medicationID) == Matching(meds, MedicationOwner, uid)
    && (forall i, j | 0 <= i < j < |items| :: items[i].medicationID != items[j].medicationID)
  }

  // ----- emergency contacts -----

  function ContactOwner(c: Contact): string
  {
    c.userID
  }

  /** The contact update: the four fields are replaced by the body's values
      (null when absent); the owner and the creation time are kept. */
  function Replaced(c: Contact, data: Json, now: nat): (r: Contact)
    ensures r.userID == c.userID && r.createdAt == c.createdAt && r.updatedAt == now
    ensures r.fname == Get(data, "fname") && r.lname == Get(data, "lname")
    ensures r.phoneNumber == Get(data, "phoneNumber") && r.relationship == Get(data, "relationship")
  {
    c.(fname := Get(data, "fname"), lname := Get(data, "lname"), phoneNumber := Get(data, "phoneNumber"),
       relationship := Get(data, "relationship"), updatedAt := now)
  }

  /** add_emergency_contact: 404 when the caller has no document; otherwise one
      contact under the id the store assigns, stamped with the caller's
      userID. */
  function AddEmergencyContactStep(db: Db, v: Verdict, data: Json, id: string, now: nat): (s: Step)
    ensures s.db.users == db.users && s.db.medications == db.medications
    ensures s.response.status != 200 ==> s.db == db
    ensures !v.Valid? ==> s.response == TokenError(v)
    ensures v.Valid? && v.identity !in db.users ==> s.response == Response(404, Message(UserNotFound))
    ensures s.response.status == 200 <==> v.Valid? && v.identity in db.users
    ensures s.response.status == 200 ==>
              && v.Valid? && v.identity in db.users
              && s.response.body == Message(ContactAdded)
              && s.db.contacts.Keys == db.contacts.Keys + {id}
              && s.db.contacts == db.contacts[id := s.db.contacts[id]]
              && s.db.contacts[id] == Contact(Get(data, "fname"), Get(data, "lname"), Get(data, "phoneNumber"),
                                              Get(data, "relationship"), db.users[v.identity].userID, now, now)
    ensures s.response.status == 200 && id !in db.contacts ==> |s.db.contacts| == |db.contacts| + 1
    ensures Consistent(db, now) ==> Consistent(s.db, now)
  {
    if !v.Valid? then Step(db, TokenError(v))
    else if v.identity !in db.users then Step(db, Response(404, Message(UserNotFound)))
    else
      var c := Contact(Get(data, "fname"), Get(data, "lname"), Get(data, "phoneNumber"),
                       Get(data, "relationship"), db.users[v.identity].userID, now, now);
      Step(db.(contacts := db.contacts[id := c]), Response(200, Message(ContactAdded)))
  }

  /** update_emergency_contact: only the contact id is looked up, not the
      caller; 404 when it is absent, otherwise the record is overwritten. */
  function UpdateEmergencyContactStep(db: Db, v: Verdict, id: string, data: Json, now: nat): (s: Step)
    ensures s.db.users == db.users && s.db.medications == db.medications
    ensures s.response.status != 200 ==> s.db == db
    ensures !v.Valid? ==> s.response == TokenError(v)
    ensures v.Valid? && id !in db.contacts ==> s.response == Response(404, Message(ContactNotFound))
    ensures s.response.status == 200 <==> v.Valid? && id in db.contacts
    ensures s.response.status == 200 ==>
              && id in db.contacts
              && s.response.body == Message(ContactUpdated)
              && s.db.contacts == db.contacts[id := Replaced(db.contacts[id], data, now)]
    ensures Consistent(db, now) ==> Consistent(s.db, now)
  {
    if !v.Valid? then Step(db, TokenError(v))
    else if id !in db.contacts then Step(db, Response(404, Message(ContactNotFound)))
    else Step(db.(contacts := db.contacts[id := Replaced(db.contacts[id], data, now)]), Response(200, Message(ContactUpdated)))
  }

  /** delete_emergency_contact: only the contact id is looked up; 404 when it
      is absent, otherwise the record is removed. */
  function DeleteEmergencyContactStep(db: Db, v: Verdict, id: string): (s: Step)
    ensures s.db.users == db.users && s.db.medications == db.medications
    ensures s.response.status != 200 ==> s.db == db
    ensures !v.Valid? ==> s.response == TokenError(v)
    ensures v.Valid? && id !in db.contacts ==> s.response == Response(404, Message(ContactNotFound))
    ensures s.response.status == 200 <==> v.Valid? && id in db.contacts
    ensures s.response.status == 200 ==>
              s.response.body == Message(ContactDeleted) && s.db.contacts == db.contacts - {id}
  {
    if !v.Valid? then Step(db, TokenError(v))
    else if id !in db.contacts then Step(db, Response(404, Message(ContactNotFound)))
    else Step(db.(contacts := db.contacts - {id}), Response(200, Message(ContactDeleted)))
  }

  /** The answer of get_emergency_contacts: every contact of the owner `uid`,
      each once, as stored, with `contactID` its key, and nothing else. */
  ghost predicate ListsContacts(views: seq<ContactView>, contacts: map<string, Contact>, uid: string)
  {
    && (forall i | 0 <= i < |views| :: views[i].contactID in contacts && contacts[views[i].contactID] == views[i].contact)
    && (set i | 0 <= i < |views| :: views[i].contactID) == Matching(contacts, ContactOwner, uid)
    && (forall i, j | 0 <= i < j < |views| :: views[i].contactID != views[j].contactID)
  }

  // ----- other routes -----

  /** The `/protected` route: a greeting for the token's identity. */
  function ProtectedResponse(v: Verdict): (r: Response)
    ensures r.status == 200 <==> v.Valid?
    ensures v.Valid? ==> r.body == Message("Welcome, " + v.identity)
    ensures !v.Valid? ==> r == TokenError(v)
  {
    if v.Valid? then Response(200, Message("Welcome, " + v.identity)) else TokenError(v)
  }
}
