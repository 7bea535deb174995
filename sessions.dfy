/**
 * Sequences of requests against the collections: what holds however the
 * five handlers are interleaved, and the sign-up-to-profile walk-through.
 */
module Sessions {
  import opened Wrappers
  import opened Digits
  import opened Tokens
  import opened Handlers

  /** One request, with the oracle outcomes its handler meets. */
  datatype Request =
    | SignupRequest(signup: Option<SignupForm>, salt: string, draw: Draw, mailOk: bool)
    | ConfirmRequest(confirm: Option<ConfirmForm>)
    | LoginRequest(login: Option<LoginForm>, now: int)
    | ProtectedRequest(token: Option<Token>, at: int)
    | AppointmentRequest(appointment: Option<AppointmentForm>, delivered: bool)

  /** Dispatch one request to its handler. */
  function Step(db: Db, codec: Codec, doctorMail: string, request: Request): (e: Effect)
    ensures Evolves(db, e.db)
    ensures Valid(db) ==> Valid(e.db)
    ensures request.LoginRequest? || request.ProtectedRequest? ==> e.db == db && e.sent == []
    ensures e.response.body.UserProfile? ==> e.response.body.document.Keys !! SecretKeys
  {
    match request
    case SignupRequest(form, salt, draw, mailOk) => Signup(db, codec, form, salt, draw, mailOk)
    case ConfirmRequest(form) => ConfirmEmail(db, form)
    case LoginRequest(form, now) => Effect(db, [], Login(db, codec, form, now))
    case ProtectedRequest(token, at) => Effect(db, [], Protected(db, token, at))
    case AppointmentRequest(form, mailOk) => Appointment(db, doctorMail, form, mailOk)
  }

  /** The collections after serving `requests` in order. */
  function Run(db: Db, codec: Codec, doctorMail: string, requests: seq<Request>): (after: Db)
    decreases |requests|
  {
    if requests == [] then db
    else Run(Step(db, codec, doctorMail, requests[0]).db, codec, doctorMail, requests[1..])
  }

  /**
   * Whatever requests are served: each user stays under its own email with a
   * well-formed code, no user is removed or replaced, a confirmed user stays
   * confirmed, and earlier bookings stay as they were.
   */
  lemma {:induction false} RunEvolves(db: Db, codec: Codec, doctorMail: string, requests: seq<Request>)
    requires Valid(db)
    ensures Valid(Run(db, codec, doctorMail, requests))
    ensures Evolves(db, Run(db, codec, doctorMail, requests))
    decreases |requests|
  {
    if requests != [] {
      var next := Step(db, codec, doctorMail, requests[0]).db;
      RunEvolves(next, codec, doctorMail, requests[1..]);
      EvolvesTransitive(db, next, Run(db, codec, doctorMail, requests));
    }
  }

  /**
   * Once an email is registered, every later signup for it is refused with
   * 409, sends nothing and changes nothing: emails stay unique.
   */
  lemma {:induction false} RegisteredEmailStaysTaken(
    db: Db, codec: Codec, doctorMail: string, requests: seq<Request>,
    form: SignupForm, salt: string, draw: Draw, mailOk: bool)
    requires Valid(db) && form.email in db.users
    ensures var later := Run(db, codec, doctorMail, requests);
      Signup(later, codec, Some(form), salt, draw, mailOk) == Effect(later, [], Response(409, Message(MsgEmailExists)))
  {
    RunEvolves(db, codec, doctorMail, requests);
  }

  /**
   * The guard also refuses a token whose email claim is empty, so a confirmed
   * account stored under the empty email (the argument parser accepts an empty
   * string) is issued a token by login that no protected request accepts.
   */
  lemma EmptyEmailTokenRefused(db: Db, codec: Codec, password: string, now: int, at: int)
    requires Valid(db) && "" in db.users && db.users[""].is_confirmed
    requires codec.check(db.users[""].password, password)
    ensures var login := Login(db, codec, Some(LoginForm("", password)), now);
      && login.status == 200
      && Protected(db, Some(login.body.token), at) == Response(401, Message(MsgTokenInvalid))
  {
  }

  /**
   * The walk-through: sign up, a wrong code is refused and leaves the user
   * unconfirmed, the mailed code confirms, login then yields a token, and the
   * profile it opens shows the first name and no password.
   */
  lemma Walkthrough(codec: Codec, salt: string, draw: Draw, wrong: string, now: int)
    requires Sound(codec) && wrong != DecimalString(draw)
    ensures
      var email := "a@x.com";
      var signup := Signup(Db(map[], []), codec, Some(SignupForm("A", "B", email, "pw", "patient", "2000-01-01")), salt, draw, true);
      var bad := ConfirmEmail(signup.db, Some(ConfirmForm(email, wrong)));
      var good := ConfirmEmail(bad.db, Some(ConfirmForm(email, DecimalString(draw))));
      var login := Login(good.db, codec, Some(LoginForm(email, "pw")), now);
      && signup.response.status == 201
      && signup.sent == [Mail(email, SubjectConfirm, ConfirmationCode(DecimalString(draw)))]
      && bad.response.status == 400 && email in bad.db.users && !bad.db.users[email].is_confirmed
      && good.response.status == 200 && email in good.db.users && good.db.users[email].is_confirmed
      && login.status == 200 && login.body.TokenIssued?
      && var profile := Protected(good.db, Some(login.body.token), now);
      && profile.status == 200 && profile.body.UserProfile?
      && "firstname" in profile.body.document && profile.body.document["firstname"] == JString("A")
      && "password" !in profile.body.document
  {
  }
}
