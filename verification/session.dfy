/**
 The session flags of the web front end (index.js): the user login, the
 volunteer login and sign-up, both logouts, and the two guard functions that
 let a request through only when the matching flag is set. Each handler
 returns the new session together with the path it redirects to. index.js
 defines the guards but mounts neither on a route, so the model states their
 verdicts on a session, not which pages they protect.
 */
module Session {
  import opened Common
  import opened Credentials

  datatype User = User(email: string)

  /** The volunteer record kept in the session; login stores only the email. */
  datatype Volunteer = Volunteer(firstName: Option<string>, lastName: Option<string>, email: string,
                                 phone: Option<string>, location: Option<string>)

  datatype Session = Session(authenticated: bool, user: Option<User>,
                             volunteerAuthenticated: bool, volunteer: Option<Volunteer>)

  /** A session with no flag set: a new visitor, or one whose session was destroyed. */
  const Fresh := Session(false, None, false, None)

  datatype Response = Response(session: Session, redirect: string)

  /** The flags agree with the records, and every stored email passed validation. */
  predicate Consistent(s: Session)
  {
    && (s.authenticated <==> s.user.Some?)
    && (s.user.Some? ==> ValidEmail(s.user.value.email))
    && (s.volunteerAuthenticated <==> s.volunteer.Some?)
    && (s.volunteer.Some? ==> ValidEmail(s.volunteer.value.email))
  }

  /** `POST /login`: on valid credentials mark the user signed in and go home; otherwise back to the form. */
  function Login(s: Session, email: string, password: string): (r: Response)
    ensures ValidCredentials(email, password) ==>
      r.session.authenticated && r.session.user == Some(User(email)) && r.redirect == "/"
    ensures !ValidCredentials(email, password) ==> r.session == s && r.redirect == "/login"
    ensures r.session.volunteerAuthenticated == s.volunteerAuthenticated && r.session.volunteer == s.volunteer
  {
    if !ValidCredentials(email, password) then Response(s, "/login")
    else Response(s.(authenticated := true, user := Some(User(email))), "/")
  }

  /** `GET /logout`: the whole session is destroyed, volunteer flags included. */
  function Logout(s: Session): (r: Response)
    ensures !r.session.authenticated && !r.session.volunteerAuthenticated
    ensures r.session.user.None? && r.session.volunteer.None?
    ensures r.redirect == "/login"
  {
    Response(Fresh, "/login")
  }

  /** `POST /volunteer/login`: on valid credentials store a volunteer record holding only the email. */
  function VolunteerLogin(s: Session, email: string, password: string): (r: Response)
    ensures ValidCredentials(email, password) ==>
      r.session.volunteerAuthenticated && r.session.volunteer == Some(Volunteer(None, None, email, None, None))
    ensures !ValidCredentials(email, password) ==> r.session == s
    ensures r.session.authenticated == s.authenticated && r.session.user == s.user
    ensures r.redirect == "/volunteer"
  {
    if !ValidCredentials(email, password) then Response(s, "/volunteer")
    else Response(s.(volunteerAuthenticated := true, volunteer := Some(Volunteer(None, None, email, None, None))), "/volunteer")
  }

  /** The sign-up form; the optional fields may be missing from the request body. */
  datatype SignupForm = SignupForm(firstName: Option<string>, lastName: Option<string>, email: string,
                                   password: string, phone: Option<string>, location: Option<string>)

  /** `POST /volunteer/signup`: the same validation, then the form's details (not the password) are stored. */
  function VolunteerSignup(s: Session, form: SignupForm): (r: Response)
    ensures ValidCredentials(form.email, form.password) ==>
      && r.session.volunteerAuthenticated
      && r.session.volunteer == Some(Volunteer(form.firstName, form.lastName, form.email, form.phone, form.location))
    ensures !ValidCredentials(form.email, form.password) ==> r.session == s
    ensures r.session.authenticated == s.authenticated && r.session.user == s.user
    ensures r.redirect == "/volunteer"
  {
    if !ValidCredentials(form.email, form.password) then Response(s, "/volunteer")
    else
      var v := Volunteer(form.firstName, form.lastName, form.email, form.phone, form.location);
      Response(s.(volunteerAuthenticated := true, volunteer := Some(v)), "/volunteer")
  }

  /** `GET /volunteer/logout`: clears the volunteer flag and record, leaving the user login alone. */
  function VolunteerLogout(s: Session): (r: Response)
    ensures !r.session.volunteerAuthenticated && r.session.volunteer.None?
    ensures r.session.authenticated == s.authenticated && r.session.user == s.user
    ensures r.redirect == "/volunteer"
  {
    Response(s.(volunteerAuthenticated := false, volunteer := None), "/volunteer")
  }

  datatype Gate = Proceed | RedirectTo(path: string)

  /** `requireAuth`: through only for a signed-in user, else to the login page. */
  function RequireAuth(s: Session): (g: Gate)
    ensures g == Proceed <==> s.authenticated
    ensures g != Proceed ==> g == RedirectTo("/login")
  {
    if s.authenticated then Proceed else RedirectTo("/login")
  }

  /** `requireVolunteerAuth`: through only for a signed-in volunteer, else to the volunteer page. */
  function RequireVolunteerAuth(s: Session): (g: Gate)
    ensures g == Proceed <==> s.volunteerAuthenticated
    ensures g != Proceed ==> g == RedirectTo("/volunteer")
  {
    if s.volunteerAuthenticated then Proceed else RedirectTo("/volunteer")
  }

  /** The requests that change the session. */
  datatype Request =
    | LoginRequest(email: string, password: string)
    | LogoutRequest
    | VolunteerLoginRequest(email: string, password: string)
    | VolunteerSignupRequest(form: SignupForm)
    | VolunteerLogoutRequest

  function Step(s: Session, q: Request): Response
  {
    match q
    case LoginRequest(e, p) => Login(s, e, p)
    case LogoutRequest => Logout(s)
    case VolunteerLoginRequest(e, p) => VolunteerLogin(s, e, p)
    case VolunteerSignupRequest(f) => VolunteerSignup(s, f)
    case VolunteerLogoutRequest => VolunteerLogout(s)
  }

  /** The session after a sequence of requests, in order. */
  function Run(s: Session, qs: seq<Request>): Session
  {
    if |qs| == 0 then s else Step(Run(s, qs[..|qs| - 1]), qs[|qs| - 1]).session
  }

  /** Every handler keeps the session consistent. */
  lemma StepPreservesConsistency(s: Session, q: Request)
    requires Consistent(s)
    ensures Consistent(Step(s, q).session)
  {
  }

  /** Any sequence of requests from a fresh session leaves it consistent. */
  lemma {:induction false} RunPreservesConsistency(s: Session, qs: seq<Request>)
    requires Consistent(s)
    ensures Consistent(Run(s, qs))
    decreases |qs|
  {
    if |qs| > 0 {
      RunPreservesConsistency(s, qs[..|qs| - 1]);
      StepPreservesConsistency(Run(s, qs[..|qs| - 1]), qs[|qs| - 1]);
    }
  }

  /** Some request in `qs` was a login accepted for `email`. */
  predicate AcceptedLogin(qs: seq<Request>, email: string)
  {
    exists i :: 0 <= i < |qs| && qs[i].LoginRequest? && qs[i].email == email && ValidCredentials(email, qs[i].password)
  }

  /**
   A user can only be signed in through an accepted login: from a fresh
   session, the signed-in email is one some accepted login request carried.
   */
  lemma {:induction false} SignedInOnlyByAcceptedLogin(qs: seq<Request>)
    ensures Run(Fresh, qs).user.Some? ==> AcceptedLogin(qs, Run(Fresh, qs).user.value.email)
    decreases |qs|
  {
    if |qs| > 0 {
      var init, q := qs[..|qs| - 1], qs[|qs| - 1];
      RunPreservesConsistency(Fresh, init);
      RunPreservesConsistency(Fresh, qs);
      SignedInOnlyByAcceptedLogin(init);
      var before := Run(Fresh, init);
      var after := Run(Fresh, qs);
      if after.user.Some? {
        var email := after.user.value.email;
        if q.LoginRequest? && ValidCredentials(q.email, q.password) {
          assert qs[|qs| - 1] == q;
        } else {
          assert before.user == after.user;
          var i :| 0 <= i < |init| && init[i].LoginRequest? && init[i].email == email
                   && ValidCredentials(email, init[i].password);
          assert qs[i] == init[i];
        }
      }
    }
  }

  /** Volunteer requests never touch the user login, so they never change the verdict of `requireAuth`. */
  lemma VolunteerRequestsKeepUserGate(s: Session, q: Request)
    requires q.VolunteerLoginRequest? || q.VolunteerSignupRequest? || q.VolunteerLogoutRequest?
    ensures RequireAuth(Step(s, q).session) == RequireAuth(s)
  {
  }

  /** After a logout both guard functions redirect, whatever the session held before. */
  lemma LogoutClosesBothGates(s: Session)
    ensures RequireAuth(Logout(s).session) == RedirectTo("/login")
    ensures RequireVolunteerAuth(Logout(s).session) == RedirectTo("/volunteer")
  {
  }
}
