# Health-reminder backend: a Dafny model

This project models the Flask backend of a personal health-reminder app
(`deployed_api/main.py`). The backend keeps three document collections:

- `users`, keyed by email;
- `medications`, keyed by a generated `medicationID`;
- `emergency_contacts`, keyed by an id the store assigns.

It issues seven-day JWT session tokens at signup and login. Every other route
sits behind `@jwt_required`. Each route handler is modelled as a transition
of the store.

- `records.dfy`: the documents, request bodies (a JSON object with string
  values), responses and the exact response messages.
- `auth.dfy`: tokens, their seven-day lifetime, the verdict the JWT layer
  reaches (`Valid(email)`, `Expired`, `Invalid`) and the two token-error
  callbacks. It also holds bcrypt, as two uninterpreted functions (`Crypto`).
- `store.dfy`: the store as three maps (`Db`), the invariant every handler
  keeps (`Consistent`), and the `where('userID', '==', uid).stream()` query as
  a loop over the keys (`Where`).
- `handlers.dfy`: every handler as a pure transition
  `(store, verdict, body) -> (store, response)`. Each one's contract states
  its error cases, what it writes and what it leaves alone.
- `service.dfy`: the application as a class `Backend`. Its fields are the
  three collections and the clock. There is one method per route. Each
  method updates the maps in place, in the handler's order, and is proved to
  give exactly the store and response of its transition. The two listing
  routes are proved against a listing predicate.
- `properties.dfy`: lemmas about sequences of requests: signup then login,
  duplicate signup, uniform login failure, patch against replace, listings,
  and the missing ownership check.

The model follows the code as written. Update and delete of medications and
contacts find the record by its id alone and never compare its `userID` with
the caller's. Contact update and delete do not even look the caller up. The
`Properties` lemmas prove that any signed-in caller can rewrite or delete
another user's record. No owner-checked variant is modelled.

Three behaviours one would expect of such a backend are not what the code
does, and the model follows the code:

- One would expect every successful profile update to refresh `updatedAt`.
  The code refreshes it only when some whitelisted field is present.
- One would expect a caller without an account to get 404 from
  `get_emergency_contacts`. The code raises an uncaught error there (500).
- One would expect contact update and delete to check the caller's account.
  They never look the caller up.

## Model

| member | source | states |
|---|---|---|
| Auth.Issue | deployed_api/main.py:14-16 | a token created for an email asserts that email, is not valid before the instant it was created and expires seven days after it |
| Auth.Verify | deployed_api/main.py:322-330 | the `@jwt_required()` gate: a forged token, or one presented before its issue instant, is Invalid; a signed token is Valid, for its identity, from its issue instant until its expiry and Expired from then on |
| Auth.IssuedTokenLifetime | deployed_api/main.py:14-16 | a token issued at t verifies as the issuing email from t until t + 7 days, as Expired from then on and as Invalid before t; so it is valid at t + 6 days and expired at t + 8 days |
| Auth.TokenError | deployed_api/main.py:322-330 | a rejected token gets 401, with "Token has expired" exactly when it is expired and "Invalid token" exactly when it is invalid |
| Records.ValidPhone | deployed_api/main.py:129 | a phone number passes exactly when it has ten characters, all of them digits |
| Store.Where | deployed_api/main.py:231-232 | the query yields every document of the collection whose owner is the given userID, each once, paired with its key and as stored, and nothing else |
| Store.QueryResultSize | deployed_api/main.py:231-232 | a query result has exactly as many entries as the owner has documents |
| Handlers.CreateUserStep | deployed_api/main.py:31-72 | a missing body key gives 500 and no write; an existing email gives 409 and no write; otherwise exactly one user is stored under the email, with email equal to the key, the bcrypt digest of the password, the generated userID and both timestamps now; the response carries a token for that email; other collections untouched; consistency, including one userID per account, kept when the generated userID is fresh |
| Handlers.LoginResponse | deployed_api/main.py:74-95 | a missing key gives 500; success happens exactly when the email has a document and bcrypt accepts the password against its digest; success returns a token for the submitted email; every other outcome is the same 401 "Invalid credentials!" |
| Handlers.UserDetailsResponse | deployed_api/main.py:97-107 | a rejected token gets the callback's 401; a caller without a document gets 404; otherwise 200 with the caller's whole stored document, password digest included |
| Handlers.Patched | deployed_api/main.py:121-139 | each of fname, lname, phoneNumber, dob, gender present in the body is overwritten and each absent one kept; userID, email, passwordHash and createdAt never change; updatedAt becomes now exactly when a whitelisted field is present; with none present the document is unchanged |
| Handlers.UpdateUserDetailsStep | deployed_api/main.py:109-141 | 200 exactly for a caller with a document and no bad phone number; a phone number that is not ten digits gives 400 and writes nothing, whatever else the body holds; on 200 only the caller's document changes, to its patch; a body with no whitelisted field writes nothing; consistency kept |
| Handlers.Overwritten | deployed_api/main.py:189-197 | a medication update replaces name, dosage and schedule with the body's values, absent ones becoming null, and notes with the body's or ''; it stamps updatedAt; medicationID, userID and createdAt are kept |
| Handlers.AddMedicationStep | deployed_api/main.py:145-170 | a caller without a document gets 404 and nothing is added; otherwise exactly the generated id is written, with medicationID equal to that id, the caller's userID, notes defaulting to '', and both stamps now; the response returns that id; a fresh id grows the collection by one; consistency kept |
| Handlers.UpdateMedicationStep | deployed_api/main.py:172-199 | 404 for a caller without a document or an absent id, with no change; 200 exactly when both exist, and then only that record changes, to its overwrite, whoever owns it |
| Handlers.DeleteMedicationStep | deployed_api/main.py:201-219 | 404 for a caller without a document or an absent id, with no change; 200 exactly when both exist, and then exactly that record is removed, whoever owns it |
| Handlers.Replaced | deployed_api/main.py:290-298 | a contact update replaces fname, lname, phoneNumber and relationship with the body's values, absent ones becoming null; it stamps updatedAt; userID and createdAt are kept |
| Handlers.AddEmergencyContactStep | deployed_api/main.py:237-260 | a caller without a document gets 404 and nothing is added; otherwise the contact is stored under the assigned id, carrying the caller's userID and both stamps now, and no other contact changes; with a fresh id, as `collection.add` assigns, the collection grows by exactly one |
| Handlers.UpdateEmergencyContactStep | deployed_api/main.py:280-300 | 200 exactly for a valid token and a present contact id, with no check of the caller's account; an absent id gives 404 and no change; on 200 only that contact changes, to its replacement |
| Handlers.DeleteEmergencyContactStep | deployed_api/main.py:302-313 | 200 exactly for a valid token and a present contact id, with no check of the caller's account; an absent id gives 404 and no change; on 200 exactly that contact is removed |
| Handlers.ProtectedResponse | deployed_api/main.py:315-320 | a valid token gets 200 and a greeting naming its identity; any other gets the token-error response |
| Service.CollectProfileFields | deployed_api/main.py:121-135 | builds update_data: it reports a bad phone number exactly when the body carries a phone number that is not ten digits; otherwise it holds exactly the whitelisted keys present in the body, each with the body's value |
| Service.CollectedUpdateIsPatch | deployed_api/main.py:137-139 | the collected update is empty exactly when the body names no whitelisted field, and writing a non-empty one is the profile patch |
| Service.ApplyUpdate | deployed_api/main.py:137-139 | Firestore's update of the user document, for updates whose keys are among the five profile fields (the only ones update_data holds): each profile field named in the update gets its value, every other one keeps its own; userID, email, digest and createdAt are kept and updatedAt becomes now |
| Service.QueryListsMedications | deployed_api/main.py:231-235 | since every medication carries its key as medicationID, the list `[doc.to_dict() for doc in docs]` built from the query result holds exactly the owner's medications, each once, as stored |
| Service.Backend.constructor | deployed_api/main.py:22-23 | the model's starting state: three empty collections, clock 0, and a consistent store |
| Service.Backend.UserDoc | deployed_api/main.py:26-27 | the lookup of a user by email finds a document exactly when one is stored under that email; in a consistent store its email field is that email |
| Service.Backend.CreateUser | deployed_api/main.py:31-72 | given a userID no account holds, as uuid4 provides, the signup handler leaves exactly the store and gives exactly the response of CreateUserStep, and keeps the store consistent |
| Service.Backend.Login | deployed_api/main.py:74-95 | the login handler answers exactly as LoginResponse says and changes nothing |
| Service.Backend.GetUserDetails | deployed_api/main.py:97-107 | the handler answers exactly as UserDetailsResponse says and changes nothing |
| Service.Backend.UpdateUserDetails | deployed_api/main.py:109-141 | collects update_data, returns on a bad phone number before any write, then writes at most once; the result is exactly the store and response of UpdateUserDetailsStep |
| Service.Backend.AddMedication | deployed_api/main.py:145-170 | leaves exactly the store and gives exactly the response of AddMedicationStep |
| Service.Backend.UpdateMedication | deployed_api/main.py:172-199 | leaves exactly the store and gives exactly the response of UpdateMedicationStep |
| Service.Backend.DeleteMedication | deployed_api/main.py:201-219 | leaves exactly the store and gives exactly the response of DeleteMedicationStep |
| Service.Backend.GetMedications | deployed_api/main.py:221-235 | changes nothing; a rejected token gets the callback's 401 and a caller without a document 404; otherwise 200 with exactly the medications whose userID is the caller's, each once, as stored |
| Service.Backend.AddEmergencyContact | deployed_api/main.py:237-260 | leaves exactly the store and gives exactly the response of AddEmergencyContactStep |
| Service.Backend.GetEmergencyContacts | deployed_api/main.py:261-277 | changes nothing; a caller without a document raises, giving 500; otherwise 200 with exactly the contacts whose userID is the caller's, each once, as stored, each with contactID equal to its store key |
| Service.Backend.UpdateEmergencyContact | deployed_api/main.py:280-300 | leaves exactly the store and gives exactly the response of UpdateEmergencyContactStep |
| Service.Backend.DeleteEmergencyContact | deployed_api/main.py:302-313 | leaves exactly the store and gives exactly the response of DeleteEmergencyContactStep |
| Properties.SignupThenLogin | deployed_api/main.py:44-95 | after a successful signup, a login with the same password succeeds with a token for the email, provided bcrypt accepts a password against its own digest; a password bcrypt rejects gets the 401 |
| Properties.LoginTokenOpensProfile | deployed_api/main.py:88-107 | the token of a successful login, presented in the seven days after the login, opens the caller's own stored profile |
| Properties.SecondSignupConflicts | deployed_api/main.py:61-68 | a second signup with a taken email gets 409 and leaves the first account and the whole store as they were |
| Properties.LoginFailureIsUniform | deployed_api/main.py:82-95 | an unknown email and a wrong password get the identical response |
| Properties.ShortPhoneRejected | deployed_api/main.py:123-130 | a body with a valid first name and the phone number "12345" gets 400 and writes nothing |
| Properties.FirstNamePatchKeepsRest | deployed_api/main.py:121-141 | patching only fname changes exactly fname and updatedAt of the caller's document |
| Properties.MedicationUpdateIsReplace | deployed_api/main.py:189-197 | two medications with the same id, owner and creation time are identical after the same update, whatever they held before |
| Properties.ContactUpdateIsReplace | deployed_api/main.py:290-298 | two contacts with the same owner and creation time are identical after the same update |
| Properties.ProfileUpdateIsPatch | deployed_api/main.py:121-135 | each of fname, lname, phoneNumber, dob and gender that is absent from the profile body keeps its old value, so profiles that differed in it still differ |
| Properties.ListedMedicationsAreOwn | deployed_api/main.py:231-235 | every medication in a caller's listing carries the caller's userID |
| Properties.ListedMedicationsCount | deployed_api/main.py:231-235 | a listing holds exactly as many medications as the caller owns |
| Properties.OthersMedicationNotListed | deployed_api/main.py:145-170 | in a consistent store, where no two accounts share a userID, a medication one account adds is not in any listing of another account's medications taken from the store that add leaves |
| Properties.AddedMedicationIsListed | deployed_api/main.py:145-170 | a medication just added is in any listing of its owner's medications taken from the store the add leaves (a later delete by any account can remove it) |
| Properties.ForeignMedicationDeleted | deployed_api/main.py:201-219 | a caller with an account deletes a medication whose userID is not theirs, and gets 200 |
| Properties.ForeignMedicationOverwritten | deployed_api/main.py:172-199 | a caller with an account rewrites another user's medication; it stays that user's, with the caller's contents |
| Properties.ContactDeletedWithoutAccount | deployed_api/main.py:302-313 | a valid token whose identity has no account still deletes any contact |
| Properties.ContactOverwrittenWithoutAccount | deployed_api/main.py:280-300 | a valid token whose identity has no account still rewrites any contact |
| Properties.BobDeletesAlicesMedication | deployed_api/main.py:201-219 | a concrete store in which Bob deletes Alice's only medication |

## Left out

- Flask routing, CORS, `jsonify`, `request.get_json` and `app.run` are HTTP plumbing. Bodies are `map<string, string>` and responses are status/body values.
- Request bodies whose values are not strings are not modelled: JSON null, numbers or nested objects. Neither are bodies that are not JSON objects.
- Firebase initialisation and the Firestore client (lines 18-23) are left out. The store is three Dafny maps.
- A document that exists but holds no fields is not modelled: in the model every document has all its fields. In the source such a document behaves differently from handler to handler. The handlers that test `to_dict()` for truthiness treat it as missing. create_user tests `.exists` (line 64), so it answers 409. login passes its `.exists` test and then raises on `passwordHash` (line 88), giving 500. Contact update and delete test `.exists` (lines 287, 308), so they treat it as present.
- The database is assumed to start empty and to be written only through these handlers. main.py:22-23 only opens a client to an existing Firestore database, whose contents persist between runs. `Service.Backend.Valid` (one user per email key, one userID per account, each medication under its medicationID) and the exact listing of `Service.Backend.GetMedications` rely on this.
- Firestore's restrictions on document ids are not modelled. The model stores a user under any string. The client rejects some ids: an email containing one '/' makes `document(email)` raise, and the handler answers 500 (lines 62, 82).
- bcrypt's internals are left out. `hashpw` and `checkpw` are uninterpreted functions, and no law relating them is assumed. `Properties.SignupThenLogin` takes "bcrypt accepts a password against its own digest" as an explicit hypothesis.
- JWT signing, encoding and the secret are abstract. A token is its identity, its issue instant (`nbf`) and its expiry instant (`exp`). A presented token is either one signed by the server or a forgery.
- `Auth.Verify` rejects a token presented before its issue instant as invalid. main.py does not show this: it is flask_jwt_extended's default, which writes an `nbf` claim equal to the issue time. Clock leeway is not modelled.
- A request with no Authorization header at all goes to the JWT library's default handler. `main.py` does not customise that handler, so it is not part of this model.
- `uuid.uuid4()` becomes a parameter, and so does the bcrypt salt. `Service.Backend.CreateUser` requires the userID to be one no account holds, which is what uuid4 provides; the store invariant `Store.Consistent` includes one userID per account. A medication `set` on an id already in use overwrites it, as Firestore does. `collection.add` assigns a fresh id, so `Service.Backend.AddEmergencyContact` requires the id to be unused.
- `datetime.now()` becomes a wall-clock parameter `now` in seconds, read once per request. The source reads it separately for `createdAt` and `updatedAt`, which may differ by microseconds.
- The clock is only monotone (`clock <= now`), so `updatedAt` is proved to be set to the request's reading, not to strictly increase.
- `Records.ValidPhone` accepts only ASCII digits. Python's `str.isdigit` also accepts other Unicode digit characters.
- The order of a listing is not modelled. Firestore streams by document id, while `Store.Where` leaves the order open.
- Concurrent requests are not modelled, including two signups racing on one email. The store's own atomicity is outside the model.
