/** The documents kept by the health-reminder backend, the request bodies it
    reads and the responses it sends (deployed_api/main.py). */
module Records {

  datatype Option<T> = None | Some(value: T)

  /** A JSON request body: an object whose values are strings. */
  type Json = map<string, string>

  /** `data.get(key)`: the value under `key`, or JSON null when it is absent. */
  function Get(data: Json, key: string): Option<string>
  {
    if key in data then Some(data[key]) else None
  }

  /** `data.get(key, default)`. */
  function GetOr(data: Json, key: string, default: string): string
  {
    if key in data then data[key] else default
  }

  /** A document of the `users` collection, stored under its email. Timestamps
      are wall-clock seconds. */
  datatype User = User(
    userID: string,
    fname: string,
    lname: string,
    email: string,
    passwordHash: string,
    gender: string,
    phoneNumber: string,
    dob: string,
    createdAt: nat,
    updatedAt: nat)

  /** A document of the `medications` collection, stored under its
      `medicationID`; `None` is a stored JSON null. */
  datatype Medication = Medication(
    medicationID: string,
    name: Option<string>,
    dosage: Option<string>,
    schedule: Option<string>,
    notes: string,
    userID: string,
    createdAt: nat,
    updatedAt: nat)

  /** A document of the `emergency_contacts` collection; its id is the key the
      store assigned and is not a field of the document. */
  datatype Contact = Contact(
    fname: Option<string>,
    lname: Option<string>,
    phoneNumber: Option<string>,
    relationship: Option<string>,
    userID: string,
    createdAt: nat,
    updatedAt: nat)

  /** A contact as listed to its owner: the document plus `contactID`. */
  datatype ContactView = ContactView(contactID: string, contact: Contact)

  /** A session token: the identity it asserts, the instant it was issued
      (its `nbf` claim) and the instant it expires (its `exp` claim). */
  datatype Token = Token(identity: string, issuedAt: nat, expiresAt: nat)

  datatype Body =
    | Message(text: string)
    | Created(text: string, accessToken: Token)
    | AccessToken(accessToken: Token)
    | MedicationAdded(text: string, medicationID: string)
    | UserDetails(user: User)
    | Medications(items: seq<Medication>)
    | Contacts(views: seq<ContactView>)
      /** An uncaught exception in a handler, which Flask answers with 500. */
    | InternalServerError

  datatype Response = Response(status: int, body: Body)

  const UserExists := "User already exists!"
  const UserCreated := "User created successfully!"
  const InvalidCredentials := "Invalid credentials!"
  const UserNotFound := "User not found"
  const InvalidPhone := "Invalid phone number"
  const UserUpdated := "User details updated successfully!"
  const MedicationAddedText := "Medication added successfully!"
  const MedicationNotFound := "Medication not found"
  const MedicationUpdated := "Medication updated successfully!"
  const MedicationDeleted := "Medication deleted successfully!"
  const ContactAdded := "Emergency contact added successfully!"
  const ContactNotFound := "Contact not found"
  const ContactUpdated := "Contact updated successfully!"
  const ContactDeleted := "Contact deleted successfully!"
  const TokenExpired := "Token has expired"
  const TokenInvalid := "Invalid token"

  predicate IsDigit(c: char)
  {
    '0' <= c <= '9'
  }

  /** `str.isdigit()`: not empty, and every character a digit. */
  predicate IsDigitString(s: string)
  {
    |s| > 0 && forall i | 0 <= i < |s| :: IsDigit(s[i])
  }

  /** The phone check of the profile update, which rejects a number that is
      not all digits or whose length is not 10. */
  function ValidPhone(s: string): (ok: bool)
    ensures ok <==> |s| == 10 && forall i | 0 <= i < |s| :: IsDigit(s[i])
  {
    !(!IsDigitString(s) || |s| != 10)
  }
}
