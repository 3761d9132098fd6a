/** The five HTTP endpoints of the backend. Each handler is a pure function
    from the JSON request body and the outcomes of the collaborator calls it
    may make (the hosted auth/database store and the mail transport) to the
    response: status code, JSON body and the trace of collaborator calls made,
    in order. A collaborator outcome that is never reached is ignored. */
module Server {
  import opened Common
  import opened Text

  /** The session object the store returns on sign-in; forwarded unread. */
  datatype Session = Session(accessToken: string, refreshToken: string, expiresAt: int)

  /** A `user_profiles` row. */
  datatype ProfileRow = ProfileRow(
    id: string,
    fullName: Value,
    phone: Value,
    email: Value,
    gender: Value,
    dateOfBirth: Value,
    profession: Value,
    collegeName: Value,
    companyName: Value,
    country: Value,
    state: Value,
    pincode: Value)

  /** The `user` field of a successful login. */
  datatype UserInfo = StoredProfile(row: ProfileRow) | EmailOnly(email: string)

  /** A JSON response body; `None` means the key is absent. */
  datatype Body = Body(
    message: Option<string>,
    error: Option<string>,
    requiresEmailVerification: Option<bool>,
    session: Option<Session>,
    user: Option<UserInfo>)

  function ErrorBody(error: string): Body {
    Body(None, Some(error), None, None, None)
  }

  function MessageBody(message: string): Body {
    Body(Some(message), None, None, None, None)
  }

  /** One call from a handler to a collaborator. */
  datatype Call =
    | SendMail(to: Value)
      /** `auth.admin.createUser` with `email_confirm: true` */
    | CreateUser(email: Value, password: Value, fullName: Value)
    | InsertProfile(row: ProfileRow)
    | DeleteUser(id: string)
    | SignIn(email: Value, password: Value)
    | FetchProfile(id: string)
    | SignOut(accessToken: Value)
    | ResetPasswordEmail(email: Value, redirectTo: string)

  datatype Response = Response(status: int, body: Body, calls: seq<Call>)

  /** Outcome of `transporter.sendMail`: it resolves or rejects. */
  datatype MailOutcome = MailSent | MailThrew

  /** Outcome of `auth.admin.createUser`. */
  datatype CreateOutcome = Created(userId: string) | CreateFailed(message: string) | CreateThrew

  /** Outcome of the profile insert. */
  datatype InsertOutcome = Inserted | InsertFailed | InsertThrew

  /** Outcome of `auth.admin.deleteUser`: the account is deleted, the store
      returns an error (which the handler does not look at), or it throws. */
  datatype DeleteOutcome = DeleteOk | DeleteFailed | DeleteThrew

  datatype RegisterOutcomes = RegisterOutcomes(create: CreateOutcome, insert: InsertOutcome, delete: DeleteOutcome)

  /** Outcome of `auth.signInWithPassword`. */
  datatype SignInOutcome =
    | SignedIn(userId: string, userEmail: string, session: Session)
    | SignInFailed(message: string)
    | SignInThrew

  /** Outcome of the `.single()` profile select by id. */
  datatype FetchOutcome = Fetched(row: ProfileRow) | FetchFailed | FetchThrew

  /** Outcome of a store call whose only result is an optional error:
      `auth.admin.signOut` and `auth.resetPasswordForEmail`. */
  datatype StoreOutcome = StoreOk | StoreFailed | StoreThrew

  const ResetRedirect: string := "http://localhost:5173/reset-password"

  // ---------------------------------------------------------------------
  // POST /send-email

  function SendEmail(body: Object, mail: MailOutcome): (r: Response)
    ensures r.status == 400 <==> !Truthy(Get(body, "email"))
    ensures r.status == 400 ==> r.calls == [] && r.body == ErrorBody("Email is required")
    ensures Truthy(Get(body, "email")) ==> r.calls == [SendMail(Get(body, "email"))]
    ensures r.status == 200 <==> Truthy(Get(body, "email")) && mail == MailSent
    ensures r.status == 500 <==> Truthy(Get(body, "email")) && mail == MailThrew
  {
    var email := Get(body, "email");
    if !Truthy(email) then
      Response(400, ErrorBody("Email is required"), [])
    else
      match mail
      case MailSent => Response(200, MessageBody("Email sent successfully"), [SendMail(email)])
      case MailThrew => Response(500, ErrorBody("Failed to send email"), [SendMail(email)])
  }

  // ---------------------------------------------------------------------
  // POST /register

  /** The ten fields `/register` requires, in the order it tests them. */
  const RequiredRegisterFields: seq<string> :=
    ["fullName", "phoneNumber", "email", "password", "gender",
     "dateOfBirth", "country", "state", "pincode", "profession"]

  /** The presence test of `/register`, as its chain of `||`. */
  predicate MissingRequired(b: Object) {
    || !Truthy(Get(b, "fullName"))
    || !Truthy(Get(b, "phoneNumber"))
    || !Truthy(Get(b, "email"))
    || !Truthy(Get(b, "password"))
    || !Truthy(Get(b, "gender"))
    || !Truthy(Get(b, "dateOfBirth"))
    || !Truthy(Get(b, "country"))
    || !Truthy(Get(b, "state"))
    || !Truthy(Get(b, "pincode"))
    || !Truthy(Get(b, "profession"))
  }

  /** The chain of tests is the statement "some required field is falsy". */
  lemma MissingRequiredIffSomeFieldFalsy(b: Object)
    ensures MissingRequired(b) <==>
            exists i :: 0 <= i < |RequiredRegisterFields| && !Truthy(Get(b, RequiredRegisterFields[i]))
  {
    if MissingRequired(b) {
      var i :| 0 <= i < 10 && !Truthy(Get(b, RequiredRegisterFields[i])) by {
        if !Truthy(Get(b, "fullName")) { assert RequiredRegisterFields[0] == "fullName"; }
        else if !Truthy(Get(b, "phoneNumber")) { assert RequiredRegisterFields[1] == "phoneNumber"; }
        else if !Truthy(Get(b, "email")) { assert RequiredRegisterFields[2] == "email"; }
        else if !Truthy(Get(b, "password")) { assert RequiredRegisterFields[3] == "password"; }
        else if !Truthy(Get(b, "gender")) { assert RequiredRegisterFields[4] == "gender"; }
        else if !Truthy(Get(b, "dateOfBirth")) { assert RequiredRegisterFields[5] == "dateOfBirth"; }
        else if !Truthy(Get(b, "country")) { assert RequiredRegisterFields[6] == "country"; }
        else if !Truthy(Get(b, "state")) { assert RequiredRegisterFields[7] == "state"; }
        else if !Truthy(Get(b, "pincode")) { assert RequiredRegisterFields[8] == "pincode"; }
        else { assert RequiredRegisterFields[9] == "profession"; }
      }
    }
  }

  predicate IsStudent(b: Object) {
    Get(b, "profession") == Str("student")
  }

  predicate IsProfessional(b: Object) {
    Get(b, "profession") == Str("professional")
  }

  /** The validation of `/register`: the error message of the first failed
      check, or `None` when the body passes. */
  function RegisterValidation(b: Object): (err: Option<string>)
    ensures err == None <==>
            && !MissingRequired(b)
            && (IsStudent(b) ==> Truthy(Get(b, "collegeName")))
            && (IsProfessional(b) ==> Truthy(Get(b, "companyName")))
    ensures MissingRequired(b) ==> err == Some("All required fields must be filled")
    ensures !MissingRequired(b) && IsStudent(b) && !Truthy(Get(b, "collegeName")) ==>
              err == Some("College name is required for students")
    ensures !MissingRequired(b) && IsProfessional(b) && !Truthy(Get(b, "companyName")) ==>
              err == Some("Company name is required for professionals")
  {
    if MissingRequired(b) then Some("All required fields must be filled")
    else if IsStudent(b) && !Truthy(Get(b, "collegeName")) then Some("College name is required for students")
    else if IsProfessional(b) && !Truthy(Get(b, "companyName")) then Some("Company name is required for professionals")
    else None
  }

  /** A profession that is neither `'student'` nor `'professional'` passes
      the conditional checks whatever the two optional names hold. */
  lemma OtherProfessionPasses(b: Object, college: Value, company: Value)
    requires !MissingRequired(b) && !IsStudent(b) && !IsProfessional(b)
    ensures RegisterValidation(b["collegeName" := college]["companyName" := company]) == None
  {
    var b' := b["collegeName" := college]["companyName" := company];
    assert forall k :: k != "collegeName" && k != "companyName" ==> Get(b', k) == Get(b, k);
  }

  /** The row `/register` inserts for a new user id. */
  function ProfileRowFor(b: Object, userId: string): (row: ProfileRow)
    ensures row.id == userId
    ensures row.collegeName != Null ==> IsStudent(b)
    ensures row.companyName != Null ==> IsProfessional(b)
    ensures IsStudent(b) ==> row.collegeName == Get(b, "collegeName")
    ensures IsProfessional(b) ==> row.companyName == Get(b, "companyName")
    ensures row.email == Get(b, "email") && row.profession == Get(b, "profession")
  {
    ProfileRow(
      id := userId,
      fullName := Get(b, "fullName"),
      phone := Get(b, "phoneNumber"),
      email := Get(b, "email"),
      gender := Get(b, "gender"),
      dateOfBirth := Get(b, "dateOfBirth"),
      profession := Get(b, "profession"),
      collegeName := if IsStudent(b) then Get(b, "collegeName") else Null,
      companyName := if IsProfessional(b) then Get(b, "companyName") else Null,
      country := Get(b, "country"),
      state := Get(b, "state"),
      pincode := Get(b, "pincode"))
  }

  const RegisteredMessage: string := "Registration successful! Please check your email to verify your account."

  function CreateUserCall(b: Object): Call {
    CreateUser(Get(b, "email"), Get(b, "password"), Get(b, "fullName"))
  }

  /** The message a failed account creation is reported with. */
  function CreateErrorMessage(storeMessage: string): (m: string)
    ensures Contains(storeMessage, "already registered") ==> m == "Email already registered"
    ensures !Contains(storeMessage, "already registered") ==> m == storeMessage
  {
    if Contains(storeMessage, "already registered") then "Email already registered" else storeMessage
  }

  function Register(b: Object, out: RegisterOutcomes): (r: Response)
    ensures RegisterValidation(b).Some? <==> r.calls == []
    ensures RegisterValidation(b).Some? ==> r.status == 400 && r.body == ErrorBody(RegisterValidation(b).value)
    ensures r.calls != [] ==> r.calls[0] == CreateUserCall(b)
    ensures RegisterValidation(b) == None && !out.create.Created? ==> r.calls == [CreateUserCall(b)]
    ensures RegisterValidation(b) == None && out.create.Created? ==>
              |r.calls| >= 2 && r.calls[1] == InsertProfile(ProfileRowFor(b, out.create.userId))
    ensures r.status == 200 <==> RegisterValidation(b) == None && out.create.Created? && out.insert == Inserted
    ensures r.status == 200 ==> r.calls == [CreateUserCall(b), InsertProfile(ProfileRowFor(b, out.create.userId))]
    ensures r.status == 200 ==>
              r.body.message == Some(RegisteredMessage) && r.body.requiresEmailVerification == Some(false)
    ensures r.status in {200, 400, 500}
  {
    match RegisterValidation(b)
    case Some(msg) => Response(400, ErrorBody(msg), [])
    case None =>
      var create := CreateUserCall(b);
      match out.create
      case CreateThrew => Response(500, ErrorBody("Failed to register user"), [create])
      case CreateFailed(m) => Response(400, ErrorBody(CreateErrorMessage(m)), [create])
      case Created(id) =>
        var insert := InsertProfile(ProfileRowFor(b, id));
        match out.insert
        case InsertThrew => Response(500, ErrorBody("Failed to register user"), [create, insert])
        case Inserted =>
          Response(200, Body(Some(RegisteredMessage), None, Some(false), None, None), [create, insert])
        case InsertFailed =>
          match out.delete
          case DeleteThrew => Response(500, ErrorBody("Failed to register user"), [create, insert, DeleteUser(id)])
          case _ => Response(500, ErrorBody("Failed to create user profile"), [create, insert, DeleteUser(id)])
  }

  /** A rejected account creation is a 400 after exactly one store call; a
      store message mentioning "already registered" is replaced by a fixed
      text, any other is passed through. */
  lemma RegisterCreateFailure(b: Object, out: RegisterOutcomes, m: string)
    requires RegisterValidation(b) == None && out.create == CreateFailed(m)
    ensures Register(b, out).status == 400
    ensures Register(b, out).calls == [CreateUserCall(b)]
    ensures Contains(m, "already registered") ==> Register(b, out).body.error == Some("Email already registered")
    ensures !Contains(m, "already registered") ==> Register(b, out).body.error == Some(m)
  {
  }

  /** A valid registration whose account was created always inserts its
      profile, and every inserted profile is keyed by the id of the account
      just created. */
  lemma RegisterProfileKeyedByNewUser(b: Object, out: RegisterOutcomes)
    ensures (exists i :: 0 <= i < |Register(b, out).calls| && Register(b, out).calls[i].InsertProfile?)
            <==> RegisterValidation(b) == None && out.create.Created?
    ensures forall i :: 0 <= i < |Register(b, out).calls| && Register(b, out).calls[i].InsertProfile? ==>
              i == 1 && out.create.Created? && Register(b, out).calls[i].row == ProfileRowFor(b, out.create.userId)
  {
    if RegisterValidation(b) == None && out.create.Created? {
      assert Register(b, out).calls[1].InsertProfile?;
    }
  }

  /** When the profile insert reports an error, the just-created account is
      deleted (and nothing else) and the answer is 500. */
  lemma RegisterCompensates(b: Object, out: RegisterOutcomes, id: string)
    requires RegisterValidation(b) == None && out.create == Created(id) && out.insert == InsertFailed
    ensures Register(b, out).status == 500
    ensures Register(b, out).calls == [CreateUserCall(b), InsertProfile(ProfileRowFor(b, id)), DeleteUser(id)]
  {
  }

  /** In every trace: a profile is inserted only right after an account
      creation that returned its id, and an account is deleted only right
      after a failed insert of that same id. */
  predicate WellOrderedTrace(calls: seq<Call>, out: RegisterOutcomes) {
    && (forall i :: 0 <= i < |calls| && calls[i].InsertProfile? ==>
          i > 0 && calls[i - 1].CreateUser? && out.create == Created(calls[i].row.id))
    && (forall i :: 0 <= i < |calls| && calls[i].DeleteUser? ==>
          i > 0 && calls[i - 1].InsertProfile? && calls[i - 1].row.id == calls[i].id && out.insert == InsertFailed)
  }

  lemma RegisterTraceWellOrdered(b: Object, out: RegisterOutcomes)
    ensures WellOrderedTrace(Register(b, out).calls, out)
  {
  }

  /** Once an account exists and its profile was not stored, the
      compensating delete is skipped exactly when the insert threw (the
      `catch` answers 500 without deleting). */
  lemma RegisterOrphanOnlyWhenInsertThrows(b: Object, out: RegisterOutcomes)
    requires RegisterValidation(b) == None && out.create.Created? && out.insert != Inserted
    ensures (DeleteUser(out.create.userId) !in Register(b, out).calls) <==> out.insert == InsertThrew
  {
  }

  /** The store ends with an account that has no profile: the account was
      created, its profile was not stored, and the handler's trace holds no
      delete of that account that went through. */
  predicate LeavesOrphanAccount(b: Object, out: RegisterOutcomes) {
    && out.create.Created?
    && out.insert != Inserted
    && !(DeleteUser(out.create.userId) in Register(b, out).calls && out.delete == DeleteOk)
  }

  /** A valid registration whose account was created but not completed leaves
      the account behind exactly when the insert threw or the compensating
      delete did not succeed; the response does not tell a failed delete from
      a successful one. */
  lemma RegisterOrphanedAccount(b: Object, out: RegisterOutcomes)
    requires RegisterValidation(b) == None && out.create.Created? && out.insert != Inserted
    ensures LeavesOrphanAccount(b, out) <==> out.insert == InsertThrew || out.delete != DeleteOk
    ensures Register(b, out).status == 500
    ensures out.insert == InsertFailed && out.delete != DeleteThrew ==>
              Register(b, out).body == ErrorBody("Failed to create user profile")
              && Register(b, out.(delete := DeleteOk)) == Register(b, out.(delete := DeleteFailed))
  {
  }

  // ---------------------------------------------------------------------
  // POST /login

  const UnverifiedText: string := "Please verify your email before logging in"

  function Login(b: Object, signIn: SignInOutcome, fetch: FetchOutcome): (r: Response)
    ensures r.status == 400 <==> !Truthy(Get(b, "email")) || !Truthy(Get(b, "password"))
    ensures r.status == 400 ==> r.calls == [] && r.body == ErrorBody("Email and password are required")
    ensures r.status != 400 ==> |r.calls| >= 1 && r.calls[0] == SignIn(Get(b, "email"), Get(b, "password"))
    ensures r.status != 400 && !signIn.SignedIn? ==> r.calls == [SignIn(Get(b, "email"), Get(b, "password"))]
    ensures r.status != 400 && signIn.SignedIn? ==>
              r.calls == [SignIn(Get(b, "email"), Get(b, "password")), FetchProfile(signIn.userId)]
    ensures r.status == 401 <==> r.status != 400 && signIn.SignInFailed?
    ensures r.status == 401 ==>
              if Contains(signIn.message, "Email not confirmed")
              then r.body.error == Some(UnverifiedText) && r.body.requiresEmailVerification == Some(true)
              else r.body == ErrorBody("Invalid credentials")
    ensures r.status == 200 <==> r.status != 400 && signIn.SignedIn? && !fetch.FetchThrew?
    ensures r.status == 200 ==>
              && r.calls == [SignIn(Get(b, "email"), Get(b, "password")), FetchProfile(signIn.userId)]
              && r.body.session == Some(signIn.session)
              && r.body.user == Some(if fetch.Fetched? then StoredProfile(fetch.row) else EmailOnly(signIn.userEmail))
    ensures r.status in {200, 400, 401, 500}
  {
    var email := Get(b, "email");
    var password := Get(b, "password");
    if !Truthy(email) || !Truthy(password) then
      Response(400, ErrorBody("Email and password are required"), [])
    else
      var signInCall := SignIn(email, password);
      match signIn
      case SignInThrew => Response(500, ErrorBody("Login failed"), [signInCall])
      case SignInFailed(m) =>
        if Contains(m, "Email not confirmed") then
          Response(401, Body(None, Some(UnverifiedText), Some(true), None, None), [signInCall])
        else
          Response(401, ErrorBody("Invalid credentials"), [signInCall])
      case SignedIn(id, userEmail, session) =>
        var calls := [signInCall, FetchProfile(id)];
        match fetch
        case FetchThrew => Response(500, ErrorBody("Login failed"), calls)
        case Fetched(row) =>
          Response(200, Body(Some("Login successful"), None, None, Some(session), Some(StoredProfile(row))), calls)
        case FetchFailed =>
          Response(200, Body(Some("Login successful"), None, None, Some(session), Some(EmailOnly(userEmail))), calls)
  }

  /** A failed profile fetch does not fail the login: the user falls back to
      the signed-in email. */
  lemma LoginProfileFallback(b: Object, id: string, userEmail: string, session: Session)
    requires Truthy(Get(b, "email")) && Truthy(Get(b, "password"))
    ensures Login(b, SignedIn(id, userEmail, session), FetchFailed).status == 200
    ensures Login(b, SignedIn(id, userEmail, session), FetchFailed).body.user == Some(EmailOnly(userEmail))
  {
  }

  // ---------------------------------------------------------------------
  // POST /logout

  function Logout(b: Object, out: StoreOutcome): (r: Response)
    ensures r.calls == [SignOut(Get(b, "accessToken"))]
    ensures r.status == 200 <==> out == StoreOk
    ensures r.status != 200 ==> r.status == 500 && r.body == ErrorBody("Logout failed")
  {
    var calls := [SignOut(Get(b, "accessToken"))];
    match out
    case StoreOk => Response(200, MessageBody("Logout successful"), calls)
    case StoreFailed => Response(500, ErrorBody("Logout failed"), calls)
    case StoreThrew => Response(500, ErrorBody("Logout failed"), calls)
  }

  // ---------------------------------------------------------------------
  // POST /reset-password-request

  function ResetPasswordRequest(b: Object, out: StoreOutcome): (r: Response)
    ensures r.status == 400 <==> !Truthy(Get(b, "email"))
    ensures r.status == 400 ==> r.calls == [] && r.body == ErrorBody("Email is required")
    ensures r.status != 400 ==> r.calls == [ResetPasswordEmail(Get(b, "email"), ResetRedirect)]
    ensures r.status == 200 <==> Truthy(Get(b, "email")) && out == StoreOk
    ensures Truthy(Get(b, "email")) && out != StoreOk ==>
              r.status == 500 && r.body == ErrorBody("Failed to send reset email")
    ensures r.status == 200 ==> r.body == MessageBody("Password reset email sent")
    ensures r.status in {200, 400, 500}
  {
    var email := Get(b, "email");
    if !Truthy(email) then
      Response(400, ErrorBody("Email is required"), [])
    else
      var calls := [ResetPasswordEmail(email, ResetRedirect)];
      match out
      case StoreOk => Response(200, MessageBody("Password reset email sent"), calls)
      case StoreFailed => Response(500, ErrorBody("Failed to send reset email"), calls)
      case StoreThrew => Response(500, ErrorBody("Failed to send reset email"), calls)
  }

  // ---------------------------------------------------------------------
  // Across handlers

  /** A collaborator call that throws is caught at the handler boundary and
      answered with 500, in every handler. */
  lemma ThrownCallsYield500(b: Object, out: RegisterOutcomes, signIn: SignInOutcome, fetch: FetchOutcome)
    ensures Truthy(Get(b, "email")) ==> SendEmail(b, MailThrew).status == 500
    ensures RegisterValidation(b) == None && out.create == CreateThrew ==> Register(b, out).status == 500
    ensures RegisterValidation(b) == None && out.create.Created? && out.insert == InsertThrew ==>
              Register(b, out).status == 500
    ensures RegisterValidation(b) == None && out.create.Created? && out.insert == InsertFailed && out.delete == DeleteThrew ==>
              Register(b, out).status == 500 && Register(b, out).body == ErrorBody("Failed to register user")
    ensures Truthy(Get(b, "email")) && Truthy(Get(b, "password")) ==>
              Login(b, SignInThrew, fetch).status == 500 && Login(b, SignInThrew, fetch).body == ErrorBody("Login failed")
    ensures Truthy(Get(b, "email")) && Truthy(Get(b, "password")) && signIn.SignedIn? ==>
              Login(b, signIn, FetchThrew).status == 500
    ensures Logout(b, StoreThrew).status == 500
    ensures Truthy(Get(b, "email")) ==> ResetPasswordRequest(b, StoreThrew).status == 500
  {
  }

  /** Validation failures never reach a collaborator, and a server error is
      only ever reported after some collaborator was called. */
  lemma ErrorsAndCalls(b: Object, mail: MailOutcome, out: RegisterOutcomes, signIn: SignInOutcome,
                       fetch: FetchOutcome, store: StoreOutcome)
    ensures SendEmail(b, mail).status == 400 ==> SendEmail(b, mail).calls == []
    ensures SendEmail(b, mail).status == 500 ==> |SendEmail(b, mail).calls| == 1
    ensures Register(b, out).status == 500 ==> |Register(b, out).calls| >= 1
    ensures Login(b, signIn, fetch).status == 500 ==> |Login(b, signIn, fetch).calls| >= 1
    ensures ResetPasswordRequest(b, store).status == 500 ==> |ResetPasswordRequest(b, store).calls| == 1
  {
  }
}
