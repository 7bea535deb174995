/**
 * The account and booking state machine behind the five HTTP handlers, as
 * pure functions over a snapshot of the two collections. Each function takes
 * the old snapshot, the parsed request and the outcomes of the oracles the
 * handler consults (the password salt, the random draw, whether the mail
 * transport succeeded, the clock) and gives the new snapshot, the mails
 * delivered and the response. The class in module Store runs the same steps
 * imperatively and is proved to agree with these functions.
 */
module Handlers {
  import opened Wrappers
  import opened Digits
  import opened Tokens

  /** The range of `randint(100000, 999999)`, both ends included. */
  type Draw = n: int | 100000 <= n <= 999999 witness 100000

  /** A document of the `users` collection, with the keys the code writes. */
  datatype User = User(
    firstname: string,
    lastname: string,
    email: string,
    password: string,
    dob: string,
    role: string,
    confirmation_code: string,
    is_confirmed: bool)

  /** A document of the `bookings` collection. */
  datatype Booking = Booking(name: string, address: string, speciality: string, date: string, phone: string)

  /** The two collections. Users are keyed by their email, the field every query filters on. */
  datatype Db = Db(users: map<string, User>, bookings: seq<Booking>)

  /** A JSON value of a user document. */
  datatype Json = JString(s: string) | JBool(b: bool)

  /** What a mail carries; the HTML around it is not modelled. */
  datatype MailContent = ConfirmationCode(code: string) | AppointmentNotice(booking: Booking)
  datatype Mail = Mail(recipient: string, subject: string, content: MailContent)

  datatype Body =
    | Message(text: string)
    | MissingArgument            // reqparse's 400 for a required argument that was not sent
    | ServerError                // the 500 Flask sends when the mail transport raises
    | TokenIssued(token: Token)
    | UserProfile(document: map<string, Json>)

  datatype Response = Response(status: int, body: Body)

  /** What one handler call does: the new collections, the mails delivered, the response. */
  datatype Effect = Effect(db: Db, sent: seq<Mail>, response: Response)

  datatype SignupForm = SignupForm(firstName: string, lastName: string, email: string, password: string, role: string, dob: string)
  datatype ConfirmForm = ConfirmForm(email: string, code: string)
  datatype LoginForm = LoginForm(email: string, password: string)
  datatype AppointmentForm = AppointmentForm(name: string, address: string, speciality: string, date: string, phone: string)

  /**
   * The password hashing library as an oracle: `hash(password, salt)` is the
   * stored digest, `check(digest, password)` its verification.
   */
  datatype Codec = Codec(hash: (string, string) -> string, check: (string, string) -> bool)

  /** The one thing the model assumes of the hashing library: a digest checks against its own password. */
  ghost predicate Sound(codec: Codec) {
    forall password, salt :: codec.check(codec.hash(password, salt), password)
  }

  const MsgEmailExists: string := "Email already exists"
  const MsgSignupDone: string := "Signup successful. Check your email for confirmation code."
  const MsgConfirmed: string := "Email confirmed successfully"
  const MsgBadCode: string := "Invalid code or email"
  const MsgNotConfirmed: string := "Email not confirmed"
  const MsgBadCredentials: string := "Invalid email or password"
  const MsgUserNotFound: string := "User not found"
  const MsgBooked: string := "Appointment booked successfully"
  const SubjectConfirm: string := "Confirm Your Code"
  const SubjectAppointment: string := "New Appointment Confirmation"

  /** The keys `ProtectedResource.get` pops before answering. */
  const SecretKeys: set<string> := {"_id", "password", "confirmation_code"}

  /** The collection invariant: each user sits under its own email and holds a well-formed code. */
  ghost predicate Valid(db: Db) {
    forall e :: e in db.users ==> db.users[e].email == e && IsConfirmationCode(db.users[e].confirmation_code)
  }

  /** A stored user changes only by becoming confirmed. */
  ghost predicate ConfirmationOnlyRises(before: User, after: User) {
    after == before.(is_confirmed := after.is_confirmed) && (before.is_confirmed ==> after.is_confirmed)
  }

  /**
   * How the collections may evolve: no user is removed, a user record is never
   * replaced and only ever goes from unconfirmed to confirmed, and bookings are
   * only appended.
   */
  ghost predicate Evolves(before: Db, after: Db) {
    && before.users.Keys <= after.users.Keys
    && (forall e :: e in before.users ==> ConfirmationOnlyRises(before.users[e], after.users[e]))
    && before.bookings <= after.bookings
  }

  lemma EvolvesTransitive(a: Db, b: Db, c: Db)
    requires Evolves(a, b) && Evolves(b, c)
    ensures Evolves(a, c)
  {
  }

  /** The record `SignupResource.post` inserts. */
  function NewUser(form: SignupForm, digest: string, code: string): (u: User) {
    User(form.firstName, form.lastName, form.email, digest, form.dob, form.role, code, false)
  }

  /**
   * `SignupResource.post`. A missing argument gives 400 and an existing email
   * 409, both before any mail; otherwise the code drawn is mailed and, only
   * when the mail went out, one unconfirmed user is inserted and 201 returned.
   */
  function Signup(db: Db, codec: Codec, form: Option<SignupForm>, salt: string, draw: Draw, mailOk: bool): (e: Effect)
    ensures e.response.status in {201, 400, 409, 500}
    ensures e.response.status == 400 <==> form.None?
    ensures e.response.status == 409 <==> form.Some? && form.value.email in db.users
    ensures e.response.status == 400 ==> e.response.body == MissingArgument
    ensures e.response.status == 409 ==> e.response.body == Message(MsgEmailExists)
    ensures e.response.status == 500 ==> e.response.body == ServerError
    ensures e.response.status == 201 ==> e.response.body == Message(MsgSignupDone)
    ensures e.response.status == 500 <==> form.Some? && form.value.email !in db.users && !mailOk
    ensures e.response.status != 201 ==> e.db == db
    ensures e.response.status in {400, 409} ==> e.sent == []
    ensures e.response.status == 500 ==> e.sent == []
    ensures e.response.status == 201 ==>
      && form.Some? && form.value.email !in db.users
      && e.db.users.Keys == db.users.Keys + {form.value.email}
      && var f := form.value;
      var u := e.db.users[f.email];
      && (forall k :: k in db.users ==> e.db.users[k] == db.users[k])
      && e.db.bookings == db.bookings
      && u.firstname == f.firstName && u.lastname == f.lastName && u.email == f.email
      && u.dob == f.dob && u.role == f.role
      && u.password == codec.hash(f.password, salt)
      && !u.is_confirmed
      && IsConfirmationCode(u.confirmation_code) && DecimalValue(u.confirmation_code) == draw
      && e.sent == [Mail(f.email, SubjectConfirm, ConfirmationCode(u.confirmation_code))]
    ensures Evolves(db, e.db)
    ensures Valid(db) ==> Valid(e.db)
  {
    if form.None? then Effect(db, [], Response(400, MissingArgument))
    else
      var f := form.value;
      var hashed := codec.hash(f.password, salt);
      if f.email in db.users then Effect(db, [], Response(409, Message(MsgEmailExists)))
      else
        var code := DecimalString(draw);
        CodeOfDraw(draw);
        if !mailOk then Effect(db, [], Response(500, ServerError))
        else
          Effect(Db(db.users[f.email := NewUser(f, hashed, code)], db.bookings),
                 [Mail(f.email, SubjectConfirm, ConfirmationCode(code))],
                 Response(201, Message(MsgSignupDone)))
  }

  /** The user whose email and stored code both equal the request's. */
  predicate CodeMatches(db: Db, form: ConfirmForm) {
    form.email in db.users && db.users[form.email].confirmation_code == form.code
  }

  /**
   * `ConfirmEmailResource.post`. With a matching user, that user becomes
   * confirmed and 200 is returned; otherwise 400 and nothing changes. No other
   * user and no booking is touched, and no mail is sent.
   */
  function ConfirmEmail(db: Db, form: Option<ConfirmForm>): (e: Effect)
    ensures e.sent == [] && e.db.bookings == db.bookings
    ensures e.response.status == 200 <==> form.Some? && CodeMatches(db, form.value)
    ensures e.response.status != 200 ==> e.db == db && e.response.status == 400
    ensures form.None? ==> e.response == Response(400, MissingArgument)
    ensures form.Some? && !CodeMatches(db, form.value) ==> e.response == Response(400, Message(MsgBadCode))
    ensures e.response.status == 200 ==>
      && e.response.body == Message(MsgConfirmed)
      && e.db.users.Keys == db.users.Keys
      && e.db.users[form.value.email].is_confirmed
      && (forall k :: k in db.users && k != form.value.email ==> e.db.users[k] == db.users[k])
    ensures Evolves(db, e.db)
    ensures Valid(db) ==> Valid(e.db)
  {
    if form.None? then Effect(db, [], Response(400, MissingArgument))
    else
      var f := form.value;
      if CodeMatches(db, f) then
        var confirmed := db.users[f.email].(is_confirmed := true);
        Effect(Db(db.users[f.email := confirmed], db.bookings), [], Response(200, Message(MsgConfirmed)))
      else Effect(db, [], Response(400, Message(MsgBadCode)))
  }

  /** A stored user with that email whose digest checks against the password sent. */
  predicate Authentic(db: Db, codec: Codec, form: LoginForm) {
    form.email in db.users && codec.check(db.users[form.email].password, form.password)
  }

  /**
   * `LoginResource.post`. It only reads: an unknown email and a wrong password
   * both give 401 with one message, an unconfirmed user 403, and a confirmed
   * one 200 with a fresh token for the stored email.
   */
  function Login(db: Db, codec: Codec, form: Option<LoginForm>, now: int): (r: Response)
    ensures r.status in {200, 400, 401, 403}
    ensures r.status == 400 <==> form.None?
    ensures r.status == 401 <==> form.Some? && !Authentic(db, codec, form.value)
    ensures r.status == 401 ==> r.body == Message(MsgBadCredentials)
    ensures r.status == 403 <==> form.Some? && Authentic(db, codec, form.value) && !db.users[form.value.email].is_confirmed
    ensures r.status == 403 ==> r.body == Message(MsgNotConfirmed)
    ensures r.status == 200 ==>
      && db.users[form.value.email].is_confirmed
      && r.body.TokenIssued?
      && forall at :: VerifyToken(r.body.token, at) ==
           if at < now + DefaultExpDays * SecondsPerDay then Some(db.users[form.value.email].email) else None
  {
    if form.None? then Response(400, MissingArgument)
    else
      var f := form.value;
      if Authentic(db, codec, f) then
        var user := db.users[f.email];
        if !user.is_confirmed then Response(403, Message(MsgNotConfirmed))
        else Response(200, TokenIssued(GenerateToken(user.email, now)))
      else Response(401, Message(MsgBadCredentials))
  }

  /** A user document as the driver returns it (without its `_id`, which is not modelled). */
  function UserDocument(u: User): (d: map<string, Json>)
    ensures d.Keys == {"firstname", "lastname", "email", "password", "dob", "role", "confirmation_code", "is_confirmed"}
  {
    map[
      "firstname" := JString(u.firstname),
      "lastname" := JString(u.lastname),
      "email" := JString(u.email),
      "password" := JString(u.password),
      "dob" := JString(u.dob),
      "role" := JString(u.role),
      "confirmation_code" := JString(u.confirmation_code),
      "is_confirmed" := JBool(u.is_confirmed)]
  }

  /**
   * `ProtectedResource.get` once the guard has set `g.user`: the user's
   * document with every secret key removed and every other field kept as
   * stored, or 404 when no user has that email.
   */
  function ProtectedGet(db: Db, user: string): (r: Response)
    ensures r.status == 200 <==> user in db.users
    ensures user !in db.users ==> r == Response(404, Message(MsgUserNotFound))
    ensures user in db.users ==>
      var u := db.users[user];
      && r.body.UserProfile?
      && r.body.document.Keys == {"firstname", "lastname", "email", "dob", "role", "is_confirmed"}
      && r.body.document["firstname"] == JString(u.firstname)
      && r.body.document["lastname"] == JString(u.lastname)
      && r.body.document["email"] == JString(u.email)
      && r.body.document["dob"] == JString(u.dob)
      && r.body.document["role"] == JString(u.role)
      && r.body.document["is_confirmed"] == JBool(u.is_confirmed)
    ensures r.body.UserProfile? ==> r.body.document.Keys !! SecretKeys
  {
    if user in db.users then Response(200, UserProfile(UserDocument(db.users[user]) - SecretKeys))
    else Response(404, Message(MsgUserNotFound))
  }

  /** The guarded endpoint: 401 from the guard, else the handler for the token's email. */
  function Protected(db: Db, token: Option<Token>, now: int): (r: Response)
    ensures r.status == 401 <==> TokenRequired(token, now).Unauthorized?
    ensures r.status == 401 ==> r.body == Message(TokenRequired(token, now).message)
    ensures r.status == 200 <==> TokenRequired(token, now).Authenticated? && TokenRequired(token, now).user in db.users
    ensures r.status == 404 <==> TokenRequired(token, now).Authenticated? && TokenRequired(token, now).user !in db.users
    ensures TokenRequired(token, now).Authenticated? ==> r == ProtectedGet(db, TokenRequired(token, now).user)
  {
    match TokenRequired(token, now)
    case Unauthorized(message) => Response(401, Message(message))
    case Authenticated(user) => ProtectedGet(db, user)
  }

  function BookingOf(form: AppointmentForm): (b: Booking) {
    Booking(form.name, form.address, form.speciality, form.date, form.phone)
  }

  /**
   * `AppointmentResource.post`. The doctor is mailed first; only when that
   * mail went out is exactly one booking, with the request's five fields,
   * appended and 201 returned. Users are never touched.
   */
  function Appointment(db: Db, doctorMail: string, form: Option<AppointmentForm>, mailOk: bool): (e: Effect)
    ensures e.response.status in {201, 400, 500}
    ensures e.response.status == 400 <==> form.None?
    ensures e.response.status == 400 ==> e.response.body == MissingArgument
    ensures e.response.status == 201 <==> form.Some? && mailOk
    ensures e.response.status == 500 ==> e.response.body == ServerError
    ensures e.db.users == db.users
    ensures e.response.status != 201 ==> e.db == db && e.sent == []
    ensures e.response.status == 201 ==>
      && form.Some?
      && |e.db.bookings| == |db.bookings| + 1
      && e.db.bookings[..|db.bookings|] == db.bookings
      && var f := form.value;
      var b := e.db.bookings[|db.bookings|];
      && b.name == f.name && b.address == f.address && b.speciality == f.speciality
      && b.date == f.date && b.phone == f.phone
      && e.sent == [Mail(doctorMail, SubjectAppointment, AppointmentNotice(b))]
      && e.response.body == Message(MsgBooked)
    ensures Evolves(db, e.db)
    ensures Valid(db) ==> Valid(e.db)
  {
    if form.None? then Effect(db, [], Response(400, MissingArgument))
    else
      var booking := BookingOf(form.value);
      if !mailOk then Effect(db, [], Response(500, ServerError))
      else Effect(Db(db.users, db.bookings + [booking]), [Mail(doctorMail, SubjectAppointment, AppointmentNotice(booking))],
                  Response(201, Message(MsgBooked)))
  }

  /** Confirming with the same email and code again succeeds again and changes nothing more. */
  lemma ConfirmEmailIdempotent(db: Db, form: ConfirmForm)
    requires CodeMatches(db, form)
    ensures var once := ConfirmEmail(db, Some(form));
      var twice := ConfirmEmail(once.db, Some(form));
      && once.response.status == 200 && twice.response.status == 200
      && twice.db == once.db
  {
  }

  /**
   * Right after a successful signup the new user can log in with the password
   * chosen, and is refused with 403 until the email is confirmed.
   */
  lemma SignupThenLogin(db: Db, codec: Codec, form: SignupForm, salt: string, draw: Draw, now: int)
    requires Sound(codec) && form.email !in db.users
    ensures var s := Signup(db, codec, Some(form), salt, draw, true);
      && s.response.status == 201
      && Login(s.db, codec, Some(LoginForm(form.email, form.password)), now) == Response(403, Message(MsgNotConfirmed))
  {
  }
}
