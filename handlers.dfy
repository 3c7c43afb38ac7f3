/**
 * The request handlers: the `users` method gate, user registration
 * (`_users.post`), `ping` and `notFound`.
 */
module Handlers {
  import opened Wrappers
  import opened Json
  import opened Text
  import opened Helpers
  import opened Data

  /** The `data` object `unifiedServer` hands to a handler: the lowercased HTTP method (`verb`) and the parsed body. */
  datatype Request = Request(verb: string, payload: Value)

  /**
   * How a handler ends: it calls back with `(statusCode, payload)` (an omitted
   * argument is `undefined`), it never calls back, or it throws.
   */
  datatype Outcome = Reply(status: Value, payload: Value) | Silent | Crash(reason: string)

  /** A handler's outcome together with the store's records afterwards. */
  datatype Effect = Effect(outcome: Outcome, records: map<Address, Value>)

  function Status(code: int): Value
  {
    Num(code as real)
  }

  function ErrorPayload(message: string): Value
  {
    Obj(map["Error" := Str(message)])
  }

  const MissingFields: Value := ErrorPayload("Missing required fields")
  const UserExists: Value := ErrorPayload("A user with that phone number already exists")
  const CouldNotCreate: Value := ErrorPayload("Could not create the new user")

  /** Thrown by `data.payload.firstName` when the body parsed to `null`. */
  const PayloadTypeError: string := "TypeError: Cannot read properties of null"
  /** Thrown by `handlers._users[data.method](...)` for a method `_users` does not define. */
  const NotAFunction: string := "TypeError: handlers._users[data.method] is not a function"
  /** Thrown at `helpers.hash(...)`, since the module never binds `helpers`. */
  const HelpersUndefined: string := "ReferenceError: helpers is not defined"

  // Field validation

  /**
   * The check on `firstName`, `lastName` and `password`: a string whose trimmed
   * `length` is positive, kept trimmed.
   */
  function NonEmptyTrimmed(v: Value): (r: Option<string>)
    ensures r.Some? <==> v.Str? && Trim(v.s) != []
    ensures r.Some? ==> r.value == Trim(v.s) && IsTrimmed(r.value)
  {
    if TypeOf(v) == "string" then
      if Utf16Length(Trim(v.s)) > 0 then Some(Trim(v.s)) else None
    else None
  }

  /**
   * The check on `phone`: a string whose trimmed `length` is exactly 10 UTF-16
   * units, kept trimmed.
   */
  function PhoneNumber(v: Value): (r: Option<string>)
    ensures r.Some? <==> v.Str? && Utf16Length(Trim(v.s)) == 10
    ensures r.Some? ==> r.value == Trim(v.s) && IsTrimmed(r.value) && 5 <= |r.value| <= 10
  {
    if TypeOf(v) == "string" && Utf16Length(Trim(v.s)) == 10 then
      Some(Trim(v.s))
    else None
  }

  /** A phone number made of Basic Multilingual Plane characters has exactly ten of them. */
  lemma PhoneNumberOfBmpText(v: Value)
    requires v.Str? && forall i :: 0 <= i < |v.s| ==> v.s[i] as int <= 0xFFFF
    ensures PhoneNumber(v).Some? <==> |Trim(v.s)| == 10
  {
    var t := Trim(v.s);
    assert forall i :: 0 <= i < |t| ==> t[i] == v.s[LeadingSpaces(v.s) + i];
    Utf16LengthBmp(t);
  }

  /** The check on `tosAgreement`: the boolean `true` and nothing merely truthy. */
  function TosAccepted(v: Value): (r: bool)
    ensures r <==> v == Bool(true)
  {
    TypeOf(v) == "boolean" && v.b == true
  }

  /** The five validated fields of a registration. */
  datatype Registration = Registration(firstName: string, lastName: string, phone: string, password: string)

  /** The five validations of `_users.post`, on a payload that has properties. */
  function Validate(payload: Value): (r: Option<Registration>)
    requires !payload.Null? && !payload.Undefined?
    ensures r.Some? <==>
      && NonEmptyTrimmed(Property(payload, "firstName").value).Some?
      && NonEmptyTrimmed(Property(payload, "lastName").value).Some?
      && PhoneNumber(Property(payload, "phone").value).Some?
      && NonEmptyTrimmed(Property(payload, "password").value).Some?
      && Property(payload, "tosAgreement").value == Bool(true)
    ensures r.Some? ==>
      && payload.Obj?
      && r.value.firstName == Trim(payload.fields["firstName"].s) != []
      && r.value.lastName == Trim(payload.fields["lastName"].s) != []
      && r.value.phone == Trim(payload.fields["phone"].s)
      && r.value.password == Trim(payload.fields["password"].s) != []
  {
    var firstName := NonEmptyTrimmed(Property(payload, "firstName").value);
    var lastName := NonEmptyTrimmed(Property(payload, "lastName").value);
    var phone := PhoneNumber(Property(payload, "phone").value);
    var password := NonEmptyTrimmed(Property(payload, "password").value);
    var tosAgreement := TosAccepted(Property(payload, "tosAgreement").value);
    if firstName.Some? && lastName.Some? && phone.Some? && password.Some? && tosAgreement then
      Some(Registration(firstName.value, lastName.value, phone.value, password.value))
    else None
  }

  /** The stored user object: the validated fields and the digest, never the password. */
  function UserRecord(reg: Registration, hashedPassword: string): (r: Value)
    ensures r.Obj?
    ensures r.fields.Keys == {"firstName", "lastName", "phone", "hashedPassword", "tosAgreement"}
    ensures "password" !in r.fields
    ensures r.fields["firstName"] == Str(reg.firstName) && r.fields["lastName"] == Str(reg.lastName)
    ensures r.fields["phone"] == Str(reg.phone) && r.fields["hashedPassword"] == Str(hashedPassword)
    ensures r.fields["tosAgreement"] == Bool(true)
  {
    Obj(map[
      "firstName" := Str(reg.firstName),
      "lastName" := Str(reg.lastName),
      "phone" := Str(reg.phone),
      "hashedPassword" := Str(hashedPassword),
      "tosAgreement" := Bool(true)])
  }

  // Registration

  /**
   * What `_users.post` does to the `users` collection, as a function of the
   * records before it runs. `readFault` and `createFault` are the store's I/O
   * failures.
   */
  function PostEffect(records: map<Address, Value>, payload: Value, hmac: Hmac, readFault: bool, createFault: bool): (e: Effect)
    ensures e.outcome != Silent
    ensures e.records == records || e.outcome == Reply(Status(200), Undefined)
    ensures payload.Null? || payload.Undefined? ==> e == Effect(Crash(PayloadTypeError), records)
    ensures !payload.Null? && !payload.Undefined? && Validate(payload).None? ==>
      e == Effect(Reply(Status(400), MissingFields), records)
    ensures !payload.Null? && !payload.Undefined? && Validate(payload).Some? ==>
      var at := Address("users", Validate(payload).value.phone);
      && (at in records && !readFault ==> e == Effect(Reply(Status(400), UserExists), records))
      && ((at !in records || readFault) && (at in records || createFault) ==>
            e == Effect(Reply(Status(500), CouldNotCreate), records))
    ensures !payload.Null? && !payload.Undefined? && Validate(payload).Some? ==>
      var reg := Validate(payload).value;
      var at := Address("users", reg.phone);
      at !in records && !createFault ==>
        e == Effect(Reply(Status(200), Undefined), records[at := UserRecord(reg, hmac(SecretKey, reg.password))])
    ensures e.outcome == Reply(Status(200), Undefined) ==>
      && !payload.Null? && !payload.Undefined? && Validate(payload).Some?
      && var reg := Validate(payload).value;
      && Address("users", reg.phone) !in records
      && e.records == records[Address("users", reg.phone) := UserRecord(reg, hmac(SecretKey, reg.password))]
  {
    if payload.Null? || payload.Undefined? then Effect(Crash(PayloadTypeError), records)
    else match Validate(payload)
      case None => Effect(Reply(Status(400), MissingFields), records)
      case Some(reg) =>
        var at := Address("users", reg.phone);
        if at in records && !readFault then Effect(Reply(Status(400), UserExists), records)
        else
          var hashedPassword := Hash(hmac, Str(reg.password));
          if !Truthy(hashedPassword) then Effect(Silent, records)
          else if at in records || createFault then Effect(Reply(Status(500), CouldNotCreate), records)
          else Effect(Reply(Status(200), Undefined), records[at := UserRecord(reg, hashedPassword.s)])
  }

  /**
   * `_users.post` as the repository has it: control that reaches the call of
   * `helpers.hash` throws, because the module never requires `./helpers`.
   */
  function PostEffectAsWritten(records: map<Address, Value>, payload: Value, hmac: Hmac, readFault: bool, createFault: bool): (e: Effect)
    ensures e.records == records
    ensures e.outcome != Crash(HelpersUndefined) ==> e == PostEffect(records, payload, hmac, readFault, createFault)
  {
    if payload.Null? || payload.Undefined? then Effect(Crash(PayloadTypeError), records)
    else match Validate(payload)
      case None => Effect(Reply(Status(400), MissingFields), records)
      case Some(reg) =>
        if Address("users", reg.phone) in records && !readFault then Effect(Reply(Status(400), UserExists), records)
        else Effect(Crash(HelpersUndefined), records)
  }

  /** As written, every valid registration of a new phone number crashes where the fix stores it. */
  lemma RegistrationCrashesAsWritten(records: map<Address, Value>, payload: Value, hmac: Hmac, createFault: bool)
    requires !payload.Null? && !payload.Undefined? && Validate(payload).Some?
    requires Address("users", Validate(payload).value.phone) !in records
    ensures PostEffectAsWritten(records, payload, hmac, false, createFault) == Effect(Crash(HelpersUndefined), records)
    ensures !createFault ==> PostEffect(records, payload, hmac, false, createFault).outcome == Reply(Status(200), Undefined)
  {
  }

  /** A trimmed, non-empty name or password is accepted as it is. */
  lemma TrimmedNameAccepted(s: string)
    requires IsTrimmed(s) && s != []
    ensures NonEmptyTrimmed(Str(s)) == Some(s)
  {
    TrimOfTrimmed(s);
  }

  /** Ten trimmed characters of the Basic Multilingual Plane are accepted as a phone number. */
  lemma TenCharacterPhoneAccepted(s: string)
    requires IsTrimmed(s) && |s| == 10 && forall i :: 0 <= i < |s| ==> s[i] as int <= 0xFFFF
    ensures PhoneNumber(Str(s)) == Some(s)
  {
    TrimOfTrimmed(s);
    Utf16LengthBmp(s);
  }

  /** The JSON body of a registration with the given fields and `tosAgreement: true`. */
  function RegistrationPayload(firstName: string, lastName: string, phone: string, password: string): Value
  {
    Obj(map[
      "firstName" := Str(firstName),
      "lastName" := Str(lastName),
      "phone" := Str(phone),
      "password" := Str(password),
      "tosAgreement" := Bool(true)])
  }

  /** The registration body holds the five fields it was built from. */
  lemma RegistrationPayloadFields(firstName: string, lastName: string, phone: string, password: string)
    ensures var p := RegistrationPayload(firstName, lastName, phone, password);
      && Property(p, "firstName").value == Str(firstName)
      && Property(p, "lastName").value == Str(lastName)
      && Property(p, "phone").value == Str(phone)
      && Property(p, "password").value == Str(password)
      && Property(p, "tosAgreement").value == Bool(true)
  {
  }

  /**
   * A body whose fields are already trimmed, with non-empty names and password
   * and a ten-character phone number, is accepted as it stands: valid
   * registrations exist, so the crash of the code as written is reachable.
   */
  lemma TrimmedPayloadAccepted(firstName: string, lastName: string, phone: string, password: string)
    requires IsTrimmed(firstName) && firstName != []
    requires IsTrimmed(lastName) && lastName != []
    requires IsTrimmed(phone) && |phone| == 10 && forall i :: 0 <= i < |phone| ==> phone[i] as int <= 0xFFFF
    requires IsTrimmed(password) && password != []
    ensures Validate(RegistrationPayload(firstName, lastName, phone, password))
      == Some(Registration(firstName, lastName, phone, password))
  {
    TrimmedNameAccepted(firstName);
    TrimmedNameAccepted(lastName);
    TenCharacterPhoneAccepted(phone);
    TrimmedNameAccepted(password);
    RegistrationPayloadFields(firstName, lastName, phone, password);
  }

  /**
   * A second registration of a stored phone number is refused with 400 and
   * leaves the first one's record as it was.
   */
  lemma {:induction false} DuplicateRegistrationRefused(
    records: map<Address, Value>, first: Value, second: Value, hmac: Hmac, createFault: bool)
    requires PostEffect(records, first, hmac, false, createFault).outcome == Reply(Status(200), Undefined)
    requires !second.Null? && !second.Undefined? && Validate(second).Some?
    requires Validate(second).value.phone == Validate(first).value.phone
    ensures var after := PostEffect(records, first, hmac, false, createFault).records;
      PostEffect(after, second, hmac, false, createFault) == Effect(Reply(Status(400), UserExists), after)
  {
    var after := PostEffect(records, first, hmac, false, createFault).records;
    assert Address("users", Validate(second).value.phone) in after;
  }

  /** `_users.post` on the store: read the phone's record, and create it if the read failed. */
  method Post(store: Store, payload: Value, hmac: Hmac, readFault: bool, createFault: bool) returns (outcome: Outcome)
    modifies store
    ensures Effect(outcome, store.records) == PostEffect(old(store.records), payload, hmac, readFault, createFault)
  {
    if payload.Null? || payload.Undefined? {
      return Crash(PayloadTypeError);
    }
    var fields := Validate(payload);
    if fields.None? {
      return Reply(Status(400), MissingFields);
    }
    var reg := fields.value;
    var existing := store.Read("users", reg.phone, readFault);
    if existing.Success? {
      return Reply(Status(400), UserExists);
    }
    var hashedPassword := Hash(hmac, Str(reg.password));
    if Truthy(hashedPassword) {
      var err := store.Create("users", reg.phone, UserRecord(reg, hashedPassword.s), createFault);
      if err.None? {
        outcome := Reply(Status(200), Undefined);
      } else {
        outcome := Reply(Status(500), CouldNotCreate);
      }
    } else {
      outcome := Silent;
    }
  }

  // The users gate

  const AcceptableMethods: seq<string> := ["post", "get", "put", "delete"]

  /** What `handlers.users` does: dispatch on the method; `_users` defines only `post`. */
  function UsersEffect(records: map<Address, Value>, data: Request, hmac: Hmac, readFault: bool, createFault: bool): (e: Effect)
    ensures data.verb !in AcceptableMethods ==> e == Effect(Reply(Status(405), Undefined), records)
    ensures data.verb in {"get", "put", "delete"} ==> e == Effect(Crash(NotAFunction), records)
    ensures data.verb == "post" ==> e == PostEffect(records, data.payload, hmac, readFault, createFault)
  {
    if data.verb in AcceptableMethods then
      if data.verb == "post" then PostEffect(records, data.payload, hmac, readFault, createFault)
      else Effect(Crash(NotAFunction), records)
    else Effect(Reply(Status(405), Undefined), records)
  }

  /** `handlers.users`. */
  method Users(store: Store, data: Request, hmac: Hmac, readFault: bool, createFault: bool) returns (outcome: Outcome)
    modifies store
    ensures Effect(outcome, store.records) == UsersEffect(old(store.records), data, hmac, readFault, createFault)
  {
    if data.verb in AcceptableMethods {
      if data.verb == "post" {
        outcome := Post(store, data.payload, hmac, readFault, createFault);
      } else {
        outcome := Crash(NotAFunction);
      }
    } else {
      outcome := Reply(Status(405), Undefined);
    }
  }

  /** `handlers.ping`: always 200, with no payload. */
  function Ping(data: Request): (r: Outcome)
    ensures r.Reply? && r.status == Status(200) && r.payload == Undefined
  {
    Reply(Status(200), Undefined)
  }

  /** `handlers.notFound`: always 404, with no payload. */
  function NotFound(data: Request): (r: Outcome)
    ensures r.Reply? && r.status == Status(404) && r.payload == Undefined
  {
    Reply(Status(404), Undefined)
  }
}
