/** The two authentication routes, `POST /signup` and `POST /google/callback`,
    over the user collection. bcrypt, the Google token verifier, document ids and
    the clock are parameters; each awaited collaborator that can throw is named
    by a `Step`, and a throw becomes the route's 500 reply. */
module AuthRoutes {
  import opened Text
  import opened UserModel

  /** An awaited call of a route that can throw. */
  datatype Step = FindOne | HashPassword | Save

  /** `req.body` of `/signup`; a `userType` that is absent or empty is `None`. */
  datatype SignupRequest = SignupRequest(name: string, email: string, password: string, userType: Option<string>)

  /** The `user` object of the 201 body. */
  datatype PublicUser = PublicUser(id: string, name: string, email: string, userType: Option<string>)

  datatype SignupReply = Created(user: PublicUser) | EmailTaken | SignupServerError

  function SignupStatus(r: SignupReply): int {
    match r
    case Created(_) => 201
    case EmailTaken => 409
    case SignupServerError => 500
  }

  /** `userType || 'student'`. */
  function RequestedUserType(t: Option<string>): (r: string)
    ensures t.None? ==> r == "student"
    ensures t.Some? && t.value != "" ==> r == t.value
  {
    match t
    case Some(v) => if v != "" then v else "student"
    case None => "student"
  }

  /** The document `/signup` builds: the hashed password, provider "local". */
  function LocalAccount(req: SignupRequest, hashed: string, id: string, now: int): (u: User)
    ensures u.email == req.email && u.name == req.name && u.id == id
    ensures u.password == Some(hashed) && u.authProvider == "local"
    ensures u.role == UserRole && u.profilePic == None
  {
    NewDocument(Fields(req.name, req.email, Some(hashed), None, Some("local"), None), id, now)
  }

  /** The 201 body as the route writes it: `newUser.userType` is read back from the
      document, and the schema has no `userType` path, so the value is lost. */
  function SignupBodyAsWritten(doc: User): (p: PublicUser)
    ensures p.id == doc.id && p.name == doc.name && p.email == doc.email
    ensures p.userType == None
  {
    PublicUser(doc.id, doc.name, doc.email, None)
  }

  /** As written, the default the route computes never reaches the client. */
  lemma SignupBodyDropsUserType(hash: (string, string) -> string, salt: string)
    ensures var req := SignupRequest("Asha", "asha@mlrit.ac.in", "secret1", None);
            var doc := LocalAccount(req, hash(req.password, salt), "u1", 0);
            RequestedUserType(req.userType) == "student" && SignupBodyAsWritten(doc).userType != Some("student")
  {
  }

  /** The 201 body as intended: id, name and email of the stored document and the
      defaulted `userType` of the request; never the password. */
  function SignupBody(doc: User, req: SignupRequest): (p: PublicUser)
    ensures p.id == doc.id && p.name == doc.name && p.email == doc.email
    ensures p.userType == Some(RequestedUserType(req.userType))
  {
    PublicUser(doc.id, doc.name, doc.email, Some(RequestedUserType(req.userType)))
  }

  /** What `verifyIdToken` followed by `getPayload()` gave: a throw, or a payload
      that may be missing. */
  datatype Verification = VerifyThrows | Verified(payload: Option<GooglePayload>)

  datatype GooglePayload = GooglePayload(email: string, name: string, picture: Option<string>)

  /** The `user` object of the 200 body. */
  datatype GoogleUser = GoogleUser(name: string, email: string, picture: Option<string>)

  datatype GoogleReply = Authenticated(user: GoogleUser) | InvalidToken | GoogleServerError

  function GoogleStatus(r: GoogleReply): int {
    match r
    case Authenticated(_) => 200
    case InvalidToken => 401
    case GoogleServerError => 500
  }

  /** The document a first Google login builds: no password, provider "google". */
  function GoogleAccount(p: GooglePayload, id: string, now: int): (u: User)
    ensures u.email == p.email && u.name == p.name && u.profilePic == p.picture && u.id == id
    ensures u.password == None && u.authProvider == "google" && u.role == UserRole
  {
    NewDocument(Fields(p.name, p.email, None, p.picture, Some("google"), None), id, now)
  }

  function GoogleBody(u: User): (g: GoogleUser)
    ensures g.name == u.name && g.email == u.email && g.picture == u.profilePic
  {
    GoogleUser(u.name, u.email, u.profilePic)
  }

  /** The user collection, as the two routes see it. */
  class UserStore {
    var users: map<string, User>

    ghost predicate Valid()
      reads this
    {
      StoreValid(users)
    }

    constructor ()
      ensures Valid() && users == map[]
    {
      users := map[];
    }

    /** `POST /signup`. `hash(password, salt)` is bcrypt with the generated salt,
        `id` the generated `_id`, `now` the clock, `fault` the call that throws. */
    method Signup(req: SignupRequest, hash: (string, string) -> string, salt: string,
                  id: string, now: int, fault: Option<Step>) returns (reply: SignupReply)
      requires Valid()
      modifies this
      ensures Valid()
      ensures fault == Some(FindOne) ==> reply == SignupServerError
      ensures reply == EmailTaken <==> fault != Some(FindOne) && req.email in old(users)
      ensures reply.Created? <==> fault.None? && req.email !in old(users) && req.name != "" && req.email != ""
      ensures reply == SignupServerError <==>
                fault == Some(FindOne) ||
                (req.email !in old(users) && (fault.Some? || req.name == "" || req.email == ""))
      ensures reply.Created? ==>
                var doc := LocalAccount(req, hash(req.password, salt), id, now);
                users == old(users)[req.email := doc] && reply.user == SignupBody(doc, req)
                && reply.user.(userType := None) == SignupBodyAsWritten(doc)
      ensures !reply.Created? ==> users == old(users)
    {
      if fault == Some(FindOne) {
        return SignupServerError;
      }
      if req.email in users {
        return EmailTaken;
      }
      if fault.Some? && fault.value.HashPassword? {
        return SignupServerError;
      }
      var hashed := hash(req.password, salt);
      var doc := LocalAccount(req, hashed, id, now);
      // the only fault still possible here is a throwing `save()`
      if fault.Some? || !UserModel.Valid(doc) {
        return SignupServerError;
      }
      users := users[req.email := doc];
      reply := Created(SignupBody(doc, req));
    }

    /** `POST /google/callback`: find the user by the verified email, or create one. */
    method GoogleCallback(v: Verification, id: string, now: int, fault: Option<Step>)
      returns (reply: GoogleReply)
      requires Valid()
      modifies this
      ensures Valid()
      ensures v.VerifyThrows? ==> reply == GoogleServerError && users == old(users)
      ensures v == Verified(None) ==> reply == InvalidToken && users == old(users)
      ensures v.Verified? && v.payload.Some? ==>
                var p := v.payload.value;
                if fault == Some(FindOne) then
                  reply == GoogleServerError && users == old(users)
                else if p.email in old(users) then
                  reply == Authenticated(GoogleBody(old(users)[p.email])) && users == old(users)
                else if fault == Some(Save) || p.name == "" || p.email == "" then
                  reply == GoogleServerError && users == old(users)
                else
                  users == old(users)[p.email := GoogleAccount(p, id, now)]
                  && reply == Authenticated(GoogleBody(GoogleAccount(p, id, now)))
    {
      if v.VerifyThrows? {
        return GoogleServerError;
      }
      if v.payload.None? {
        return InvalidToken;
      }
      var p := v.payload.value;
      if fault == Some(FindOne) {
        return GoogleServerError;
      }
      if p.email in users {
        return Authenticated(GoogleBody(users[p.email]));
      }
      var doc := GoogleAccount(p, id, now);
      if fault == Some(Save) || !UserModel.Valid(doc) {
        return GoogleServerError;
      }
      users := users[p.email := doc];
      reply := Authenticated(GoogleBody(doc));
    }
  }

  /** Two signups with one email: the second is refused with 409 and the first
      account is still the one on file. */
  method SignupTwice(first: SignupRequest, second: SignupRequest, hash: (string, string) -> string,
                     salt: string, now: int) returns (r1: SignupReply, r2: SignupReply, stored: User)
    requires first.email == second.email && first.name != "" && first.email != ""
    ensures SignupStatus(r1) == 201 && SignupStatus(r2) == 409
    ensures stored == LocalAccount(first, hash(first.password, salt), "u1", now)
  {
    var store := new UserStore();
    r1 := store.Signup(first, hash, salt, "u1", now, None);
    r2 := store.Signup(second, hash, salt, "u2", now, None);
    stored := store.users[first.email];
  }

  /** A second Google login with the same verified email creates nothing and
      answers with the account the first login created. */
  method GoogleLoginTwice(p: GooglePayload, now: int) returns (r1: GoogleReply, r2: GoogleReply, count: nat)
    requires p.name != "" && p.email != ""
    ensures r1 == r2 && GoogleStatus(r2) == 200
    ensures r2.user == GoogleUser(p.name, p.email, p.picture)
    ensures count == 1
  {
    var store := new UserStore();
    r1 := store.GoogleCallback(Verified(Some(p)), "g1", now, None);
    r2 := store.GoogleCallback(Verified(Some(p)), "g2", now + 1, None);
    count := |store.users|;
  }
}
