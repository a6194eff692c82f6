/** Input checks of three account handlers in app.py: changing one's own
    password, an administrator creating a user, and creating an electronic
    signature. Each check is made in the order the handler makes it and the
    first failure is reported with its message; only when every check passes
    is anything written.

    The key-derivation function, SHA-256 and the clock are parameters. */
module AccountValidation {
  import opened Common
  import opened Models

  // =====================================================================
  // POST /api/change-password

  /** The refusals, and `ServerError` for an exception the handler's
      `except` turns into a 500. */
  datatype PasswordChangeError = PasswordsRequired | CurrentIncorrect | TooShort | Unchanged | ServerError

  /** The refusal's error text; a 500 carries the exception's own text,
      which is not modelled. */
  function PasswordChangeMessage(e: PasswordChangeError): Option<string> {
    match e
    case PasswordsRequired => Some("Current and new password are required")
    case CurrentIncorrect => Some("Current password is incorrect")
    case TooShort => Some("New password must be at least 6 characters")
    case Unchanged => Some("New password must be different from current password")
    case ServerError => None
  }

  const MinPasswordLength: nat := 6

  /** A number where a password is expected passes the truthiness check but
      makes the hash check, or the length check, raise. */
  function ChangePassword(a: Account, current: Field, newPassword: Field, salt: string, now: int, kdf: Kdf)
    : (r: Result<Account, PasswordChangeError>)
    ensures r.Ok? ==> current.Text? && newPassword.Text?
    ensures r.Ok? ==> Truthy(current) && Truthy(newPassword) && PasswordMatches(a.passwordHash, current.text, kdf)
    ensures r.Ok? ==> |newPassword.text| >= MinPasswordLength && newPassword.text != current.text
    ensures r.Ok? ==> r.value == WithPassword(a, newPassword.text, salt, now, kdf)
    ensures r == Err(ServerError) <==>
      Truthy(current) && Truthy(newPassword)
      && (current.Number? || (PasswordMatches(a.passwordHash, current.text, kdf) && newPassword.Number?))
  {
    if !Truthy(current) || !Truthy(newPassword) then Err(PasswordsRequired)
    else if current.Number? then Err(ServerError)
    else if !PasswordMatches(a.passwordHash, current.text, kdf) then Err(CurrentIncorrect)
    else if newPassword.Number? then Err(ServerError)
    else if |newPassword.text| < MinPasswordLength then Err(TooShort)
    else if current.text == newPassword.text then Err(Unchanged)
    else Ok(WithPassword(a, newPassword.text, salt, now, kdf))
  }

  /** A change succeeds exactly when both passwords are given as text, the
      current one is right, the new one has six characters or more and
      differs. The new password then signs in, and the old one only if it
      collides with the new one under the new salt. */
  lemma ChangePasswordExactly(a: Account, current: Field, newPassword: Field, salt: string, now: int, kdf: Kdf)
    ensures ChangePassword(a, current, newPassword, salt, now, kdf).Ok? <==>
      current.Text? && newPassword.Text?
      && Truthy(current) && Truthy(newPassword) && PasswordMatches(a.passwordHash, current.text, kdf)
      && |newPassword.text| >= MinPasswordLength && newPassword.text != current.text
    ensures ChangePassword(a, current, newPassword, salt, now, kdf).Ok? ==>
      var h := ChangePassword(a, current, newPassword, salt, now, kdf).value.passwordHash;
      PasswordMatches(h, newPassword.text, kdf)
      && (PasswordMatches(h, current.text, kdf) <==> kdf(salt, current.text) == kdf(salt, newPassword.text))
  {
  }

  // =====================================================================
  // POST /admin/create-user

  const UsernameError: string := "Username must be at least 4 characters long"
  const PasswordError: string := "Password must be at least 6 characters long"
  const PermissionError: string := "Please select at least one permission for the user"

  /** The basic checks, every one made, their messages in order. */
  function UserErrors(username: Option<string>, password: Option<string>, permissions: seq<string>)
    : (errors: seq<string>)
    ensures UsernameError in errors <==> username.None? || |username.value| < 4
    ensures PasswordError in errors <==> password.None? || |password.value| < 6
    ensures PermissionError in errors <==> permissions == []
    ensures |errors| <= 3
  {
    (if username.None? || |username.value| < 4 then [UsernameError] else [])
    + (if password.None? || |password.value| < 6 then [PasswordError] else [])
    + (if permissions == [] then [PermissionError] else [])
  }

  datatype NewUser = NewUser(account: Account, permissions: string)

  datatype CreateUserOutcome =
    | PermissionDenied
    | Invalid(errors: seq<string>)
    | AlreadyExists(message: string)
    | Created(user: NewUser)

  /** The permissions the form carries: the form library's list when it is
      non-empty, else the raw request list. */
  function ChosenPermissions(fromForm: seq<string>, fromRequest: seq<string>): seq<string> {
    if fromForm != [] then fromForm else fromRequest
  }

  /** create_user against the set of names already taken. */
  function CreateUser(adminRequest: bool, username: Option<string>, password: Option<string>, isAdmin: bool,
                      fromForm: seq<string>, fromRequest: seq<string>, existing: set<string>,
                      salt: string, now: int, kdf: Kdf): (r: CreateUserOutcome)
    ensures !adminRequest ==> r == PermissionDenied
    ensures r.Invalid? ==> r.errors != [] && r.errors == UserErrors(username, password, ChosenPermissions(fromForm, fromRequest))
    ensures r.AlreadyExists? ==> username.Some? && username.value in existing
                                 && r.message == "User " + username.value + " already exists"
    ensures r.Created? ==> username.Some? && password.Some? && |username.value| >= 4 && |password.value| >= 6
                           && username.value !in existing
                           && r.user.account.username == username.value && r.user.account.isAdmin == isAdmin
                           && PasswordMatches(r.user.account.passwordHash, password.value, kdf)
                           && ChosenPermissions(fromForm, fromRequest) != []
                           && r.user.permissions == JoinWith(ChosenPermissions(fromForm, fromRequest), ',')
  {
    if !adminRequest then PermissionDenied
    else
      var permissions := ChosenPermissions(fromForm, fromRequest);
      var errors := UserErrors(username, password, permissions);
      if errors != [] then Invalid(errors)
      else if username.value in existing then AlreadyExists("User " + username.value + " already exists")
      else
        var blank := Account(username.value, isAdmin, true, PasswordHash("", ""), None, false, None, None);
        Created(NewUser(WithPassword(blank, password.value, salt, now, kdf), JoinWith(permissions, ',')))
  }

  /** Valid fields are enough: an administrator's request with a new name
      of four characters or more, a password of six or more and at least one
      permission always creates the user. */
  lemma CreateUserAccepts(username: string, password: string, isAdmin: bool, fromForm: seq<string>,
                          fromRequest: seq<string>, existing: set<string>, salt: string, now: int, kdf: Kdf)
    requires |username| >= 4 && |password| >= 6 && ChosenPermissions(fromForm, fromRequest) != []
    requires username !in existing
    ensures CreateUser(true, Some(username), Some(password), isAdmin, fromForm, fromRequest, existing, salt, now, kdf).Created?
  {
    var errors := UserErrors(Some(username), Some(password), ChosenPermissions(fromForm, fromRequest));
    assert |errors| == 0;
  }

  /** The stored permissions text splits back into the chosen list when no
      permission name holds a comma. */
  lemma PermissionsRoundTrip(adminRequest: bool, username: Option<string>, password: Option<string>, isAdmin: bool,
                             fromForm: seq<string>, fromRequest: seq<string>, existing: set<string>,
                             salt: string, now: int, kdf: Kdf)
    requires forall p :: p in fromForm + fromRequest ==> ',' !in p
    requires CreateUser(adminRequest, username, password, isAdmin, fromForm, fromRequest, existing, salt, now, kdf).Created?
    ensures SplitOn(CreateUser(adminRequest, username, password, isAdmin, fromForm, fromRequest, existing, salt, now, kdf)
                      .user.permissions, ',') == ChosenPermissions(fromForm, fromRequest)
  {
    var chosen := ChosenPermissions(fromForm, fromRequest);
    forall i | 0 <= i < |chosen| ensures ',' !in chosen[i] {
      assert chosen[i] in fromForm + fromRequest;
    }
    JoinSplit(chosen, ',');
  }

  // =====================================================================
  // POST /api/signature/create

  const RequiredSignatureFields: seq<string> := ["event_id", "event_type", "action", "reason", "password"]
  const MinReasonLength: nat := 10

  datatype SignatureRequest = SignatureRequest(
    eventId: Field, eventType: Field, action: Field, reason: Field, password: Field)

  function FieldNamed(req: SignatureRequest, name: string): Field {
    if name == "event_id" then req.eventId
    else if name == "event_type" then req.eventType
    else if name == "action" then req.action
    else if name == "reason" then req.reason
    else req.password
  }

  /** The names of the required fields left empty, in the listed order. */
  function MissingFields(req: SignatureRequest, names: seq<string>): (missing: seq<string>)
    ensures forall n :: n in missing <==> n in names && !Truthy(FieldNamed(req, n))
    ensures |missing| <= |names|
  {
    if names == [] then []
    else (if Truthy(FieldNamed(req, names[0])) then [] else [names[0]]) + MissingFields(req, names[1..])
  }

  /** No required field is missing exactly when all five are filled in. */
  lemma NoneMissing(req: SignatureRequest)
    ensures MissingFields(req, RequiredSignatureFields) == [] <==>
      Truthy(req.eventId) && Truthy(req.eventType) && Truthy(req.action) && Truthy(req.reason) && Truthy(req.password)
  {
    assert FieldNamed(req, "event_id") == req.eventId;
    assert FieldNamed(req, "event_type") == req.eventType;
    assert FieldNamed(req, "action") == req.action;
    assert FieldNamed(req, "reason") == req.reason;
    assert FieldNamed(req, "password") == req.password;
    var names := RequiredSignatureFields;
    assert names[0] == "event_id" && names[1] == "event_type" && names[2] == "action";
    assert names[3] == "reason" && names[4] == "password";
    var missing := MissingFields(req, names);
    if missing != [] {
      assert missing[0] in missing;
    }
  }

  datatype SignatureRecord = SignatureRecord(
    userId: nat, eventId: string, eventType: string, action: string, reason: string,
    signatureHash: string, timestamp: string)

  datatype SignatureOutcome =
    | MissingRequired(message: string)       // 400
    | IncorrectPassword                      // 401
    | ReasonTooShort                         // 400
    | SigningFailed                          // 500, from the handler's except
    | Signed(record: SignatureRecord)        // 201

  /** The text hashed into the signature: user, time, reason, event, type. */
  function SignatureInput(userId: nat, timestamp: string, reason: string, eventId: string, eventType: string): string {
    NatToString(userId) + ":" + timestamp + ":" + reason + ":" + eventId + ":" + eventType
  }

  /** api_signature_create for the signed-in user, at the moment whose ISO
      text is `timestamp`. A number given as the password makes the hash
      check raise, and one given as the reason makes `strip` raise; numbers
      elsewhere are recorded and hashed as their decimal text. */
  function CreateSignature(req: SignatureRequest, userId: nat, stored: PasswordHash, kdf: Kdf,
                           timestamp: string, sha256: string -> string): (r: SignatureOutcome)
    ensures r.MissingRequired? <==> MissingFields(req, RequiredSignatureFields) != []
    ensures r.MissingRequired? ==>
      r.message == "Missing required fields: " + JoinedBy(MissingFields(req, RequiredSignatureFields), ", ")
    ensures r.SigningFailed? <==>
      MissingFields(req, RequiredSignatureFields) == []
      && (req.password.Number? || (req.password.Text? && PasswordMatches(stored, req.password.text, kdf)
                                   && req.reason.Number?))
    ensures r.Signed? ==> req.password.Text? && req.reason.Text?
                          && (req.eventId.Text? || req.eventId.Number?)
                          && (req.eventType.Text? || req.eventType.Number?)
                          && (req.action.Text? || req.action.Number?)
                          && PasswordMatches(stored, req.password.text, kdf)
                          && r.record.reason == Trim(req.reason.text) && |r.record.reason| >= MinReasonLength
                          && r.record.userId == userId && r.record.eventId == FieldText(req.eventId)
                          && r.record.eventType == FieldText(req.eventType) && r.record.action == FieldText(req.action)
                          && r.record.timestamp == timestamp
                          && r.record.signatureHash == sha256(SignatureInput(userId, timestamp, r.record.reason,
                                                                              FieldText(req.eventId),
                                                                              FieldText(req.eventType)))
  {
    var missing := MissingFields(req, RequiredSignatureFields);
    NoneMissing(req);
    if missing != [] then MissingRequired("Missing required fields: " + JoinedBy(missing, ", "))
    else if req.password.Number? then SigningFailed
    else if !PasswordMatches(stored, req.password.text, kdf) then IncorrectPassword
    else if req.reason.Number? then SigningFailed
    else
      var reason := Trim(req.reason.text);
      if |reason| < MinReasonLength then ReasonTooShort
      else
        var eventId, eventType := FieldText(req.eventId), FieldText(req.eventType);
        Signed(SignatureRecord(userId, eventId, eventType, FieldText(req.action), reason,
                               sha256(SignatureInput(userId, timestamp, reason, eventId, eventType)),
                               timestamp))
  }

  /** The password is checked before the reason: with every field given
      and a wrong password the answer is 401 whatever the reason; with the
      right password and a text reason the answer is the reason check's. */
  lemma SignatureCheckOrder(req: SignatureRequest, userId: nat, stored: PasswordHash, kdf: Kdf,
                            timestamp: string, sha256: string -> string)
    requires Truthy(req.eventId) && Truthy(req.eventType) && Truthy(req.action) && Truthy(req.reason) && Truthy(req.password)
    ensures req.password.Text? && !PasswordMatches(stored, req.password.text, kdf) ==>
      CreateSignature(req, userId, stored, kdf, timestamp, sha256) == IncorrectPassword
    ensures req.password.Text? && PasswordMatches(stored, req.password.text, kdf) && req.reason.Text? ==>
      (CreateSignature(req, userId, stored, kdf, timestamp, sha256).Signed? <==> |Trim(req.reason.text)| >= MinReasonLength)
  {
    NoneMissing(req);
  }

  /** The documented client sends the event id as a number. A non-zero
      one is signed, and recorded and hashed as its decimal text; zero is
      falsy and reported missing. */
  lemma NumericEventId(req: SignatureRequest, n: int, userId: nat, stored: PasswordHash, kdf: Kdf,
                       timestamp: string, sha256: string -> string)
    requires req.eventId == Number(n)
    requires Truthy(req.eventType) && Truthy(req.action) && Truthy(req.password) && req.password.Text?
    requires PasswordMatches(stored, req.password.text, kdf)
    requires req.reason.Text? && |Trim(req.reason.text)| >= MinReasonLength
    ensures var r := CreateSignature(req, userId, stored, kdf, timestamp, sha256);
      && (n != 0 ==> r.Signed? && r.record.eventId == IntToString(n)
                     && r.record.signatureHash == sha256(SignatureInput(userId, timestamp, Trim(req.reason.text),
                                                                         IntToString(n), FieldText(req.eventType))))
      && (n == 0 ==> r.MissingRequired? && MissingFields(req, RequiredSignatureFields) == ["event_id"])
  {
    NoneMissing(req);
    if n == 0 {
      var names := RequiredSignatureFields;
      assert FieldNamed(req, "event_id") == req.eventId;
      assert MissingFields(req, names[4..]) == [] by {
        assert FieldNamed(req, "password") == req.password;
      }
      assert MissingFields(req, names[3..]) == [] by {
        assert FieldNamed(req, "reason") == req.reason;
        assert names[3..][1..] == names[4..];
      }
      assert MissingFields(req, names[2..]) == [] by {
        assert FieldNamed(req, "action") == req.action;
        assert names[2..][1..] == names[3..];
      }
      assert MissingFields(req, names[1..]) == [] by {
        assert FieldNamed(req, "event_type") == req.eventType;
        assert names[1..][1..] == names[2..];
      }
    }
  }

  /** A reason of only spaces is refused however long it is. */
  lemma BlankReasonRefused(req: SignatureRequest, userId: nat, stored: PasswordHash, kdf: Kdf,
                           timestamp: string, sha256: string -> string)
    requires req.reason.Text? && forall i :: 0 <= i < |req.reason.text| ==> req.reason.text[i] == ' '
    ensures !CreateSignature(req, userId, stored, kdf, timestamp, sha256).Signed?
  {
    if req.reason.Text? && req.reason.text != "" {
      forall i | 0 <= i < |req.reason.text| ensures IsSpace(req.reason.text[i]) {}
      TrimAllSpace(req.reason.text);
    }
  }
}
