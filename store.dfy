/**
 * The handlers as the server runs them: methods that read and update the
 * `users` and `bookings` collections in place, consult the hashing library,
 * the random generator and the mail transport, and return the response.
 * Each method is proved to do what the matching function of module Handlers
 * says, for the oracle outcomes it met.
 */
module Store {
  import opened Wrappers
  import opened Digits
  import opened Tokens
  import opened Handlers

  /**
   * The mail transport. A send either delivers the mail or fails; a failure
   * is the exception `send_email` raises, which ends the request.
   */
  class Mailer {
    /** The mails delivered so far. */
    var outbox: seq<Mail>

    constructor ()
      ensures outbox == []
    {
      outbox := [];
    }

    method Send(mail: Mail) returns (ok: bool)
      modifies this
      ensures outbox == if ok then old(outbox) + [mail] else old(outbox)
    {
      ok := *;
      if ok {
        outbox := outbox + [mail];
      }
    }
  }

  /** The two collections and the configuration the handlers read. */
  class AccountStore {
    var users: map<string, User>
    var bookings: seq<Booking>
    /** The password hashing library. */
    const codec: Codec
    /** The address appointment notices go to. */
    const doctorMail: string

    function Snapshot(): (db: Db)
      reads this
    {
      Db(users, bookings)
    }

    ghost predicate Valid()
      reads this
    {
      Handlers.Valid(Snapshot())
    }

    /**
     * `Database.__init__`: the store opens collections that may already hold
     * users and bookings from earlier runs, as long as they are well formed.
     */
    constructor (codec: Codec, doctorMail: string, users0: map<string, User>, bookings0: seq<Booking>)
      requires Handlers.Valid(Db(users0, bookings0))
      ensures Valid()
      ensures users == users0 && bookings == bookings0
      ensures this.codec == codec && this.doctorMail == doctorMail
    {
      users := users0;
      bookings := bookings0;
      this.codec := codec;
      this.doctorMail := doctorMail;
    }

    /**
     * `SignupResource.post`. The ghost out-parameters report what the oracles
     * gave this request: the salt, the random draw and the mail outcome.
     */
    method Signup(form: Option<SignupForm>, mailer: Mailer)
      returns (response: Response, ghost salt: string, ghost draw: Draw, ghost mailOk: bool)
      requires Valid()
      modifies this, mailer
      ensures Valid()
      ensures var e := Handlers.Signup(old(Snapshot()), codec, form, salt, draw, mailOk);
        Snapshot() == e.db && mailer.outbox == old(mailer.outbox) + e.sent && response == e.response
    {
      salt, draw, mailOk := "", 100000, true;
      if form.None? {
        return Response(400, MissingArgument), salt, draw, mailOk;
      }
      var args := form.value;
      var s: string := *;
      salt := s;
      var hashed := codec.hash(args.password, s);
      if args.email in users {
        assert mailer.outbox == old(mailer.outbox) + [];
        return Response(409, Message(MsgEmailExists)), salt, draw, mailOk;
      }
      var n :| 100000 <= n <= 999999;
      draw := n;
      var code := DecimalString(n);
      var ok := mailer.Send(Mail(args.email, SubjectConfirm, ConfirmationCode(code)));
      mailOk := ok;
      if !ok {
        assert mailer.outbox == old(mailer.outbox) + [];
        return Response(500, ServerError), salt, draw, mailOk;
      }
      users := users[args.email := User(args.firstName, args.lastName, args.email, hashed, args.dob, args.role, code, false)];
      response := Response(201, Message(MsgSignupDone));
      assert Snapshot() == Handlers.Signup(old(Snapshot()), codec, form, salt, draw, mailOk).db;
    }

    /** `ConfirmEmailResource.post`. */
    method ConfirmEmail(form: Option<ConfirmForm>) returns (response: Response)
      requires Valid()
      modifies this
      ensures Valid()
      ensures Snapshot() == Handlers.ConfirmEmail(old(Snapshot()), form).db
      ensures response == Handlers.ConfirmEmail(old(Snapshot()), form).response
    {
      if form.None? {
        return Response(400, MissingArgument);
      }
      var args := form.value;
      if args.email in users && users[args.email].confirmation_code == args.code {
        users := users[args.email := users[args.email].(is_confirmed := true)];
        return Response(200, Message(MsgConfirmed));
      }
      response := Response(400, Message(MsgBadCode));
    }

    /** `LoginResource.post`; it changes nothing. */
    method Login(form: Option<LoginForm>, now: int) returns (response: Response)
      ensures response == Handlers.Login(Snapshot(), codec, form, now)
    {
      if form.None? {
        return Response(400, MissingArgument);
      }
      var args := form.value;
      if args.email in users {
        var user := users[args.email];
        if codec.check(user.password, args.password) {
          if !user.is_confirmed {
            return Response(403, Message(MsgNotConfirmed));
          }
          var token := GenerateToken(user.email, now);
          return Response(200, TokenIssued(token));
        }
      }
      response := Response(401, Message(MsgBadCredentials));
    }

    /** `ProtectedResource.get` behind `token_required`; it changes nothing. */
    method Protected(token: Option<Token>, now: int) returns (response: Response)
      ensures response == Handlers.Protected(Snapshot(), token, now)
    {
      match TokenRequired(token, now)
      case Unauthorized(message) =>
        response := Response(401, Message(message));
      case Authenticated(user) =>
        response := Get(user);
    }

    /** The body of `ProtectedResource.get`, with `user` the email the guard put in `g.user`. */
    method Get(user: string) returns (response: Response)
      ensures response == ProtectedGet(Snapshot(), user)
    {
      if user in users {
        var document := UserDocument(users[user]);
        document := document - {"_id"};
        document := document - {"password"};
        document := document - {"confirmation_code"};
        return Response(200, UserProfile(document));
      }
      response := Response(404, Message(MsgUserNotFound));
    }

    /** `AppointmentResource.post`. The ghost out-parameter reports the mail outcome. */
    method Appointment(form: Option<AppointmentForm>, mailer: Mailer) returns (response: Response, ghost mailOk: bool)
      requires Valid()
      modifies this, mailer
      ensures Valid()
      ensures var e := Handlers.Appointment(old(Snapshot()), doctorMail, form, mailOk);
        Snapshot() == e.db && mailer.outbox == old(mailer.outbox) + e.sent && response == e.response
    {
      mailOk := true;
      if form.None? {
        return Response(400, MissingArgument), mailOk;
      }
      var args := form.value;
      var booking := Booking(args.name, args.address, args.speciality, args.date, args.phone);
      var ok := mailer.Send(Mail(doctorMail, SubjectAppointment, AppointmentNotice(booking)));
      mailOk := ok;
      if !ok {
        assert mailer.outbox == old(mailer.outbox) + [];
        return Response(500, ServerError), mailOk;
      }
      bookings := bookings + [booking];
      response := Response(201, Message(MsgBooked));
    }
  }
}
