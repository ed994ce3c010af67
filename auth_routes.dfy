/**
 * `POST /google-login`: verify a Google ID token, find the user with that Google
 * subject or create one, and sign a session token carrying the user's id and
 * email. The token verifier and the signer are opaque functions: the verifier
 * yields the token's payload or nothing (it throws), the signer yields a token or
 * nothing (it throws); the signing secret is inside the signer.
 */
module AuthRoutes {
  import opened Options
  import ShortUrlModel

  type UserId = ShortUrlModel.UserId

  /** `expiresIn` of every session token. */
  const TokenLifetime := "7d"
  const InvalidToken := "Invalid Token"

  /** The fields the handler takes from `ticket.getPayload()`. */
  datatype Payload = Payload(sub: string, email: Option<string>, name: Option<string>,
                             picture: Option<string>)

  /** A user document; `id` is its `_id`. */
  datatype User = User(id: UserId, googleId: string, name: Option<string>,
                       email: Option<string>, profilePic: Option<string>)

  /** The claims signed into a session token. */
  datatype Claims = Claims(userId: UserId, email: Option<string>)

  /** `{ token, user }`, or a status with `{ message }`. */
  datatype LoginReply =
    | LoggedIn(token: string, user: User)
    | Rejected(status: nat, message: string)

  /** The user collection and the id the next created user receives. */
  datatype Table = Table(users: seq<User>, nextId: UserId)

  datatype LoginOutcome = LoginOutcome(reply: LoginReply, table: Table)

  type Verifier = string -> Option<Payload>
  type Signer = (Claims, string) -> Option<string>

  predicate HasGoogleId(users: seq<User>, sub: string) {
    exists i | 0 <= i < |users| :: users[i].googleId == sub
  }

  /** `User.findOne({ googleId: sub })`: the first user with that subject. */
  function FindByGoogleId(users: seq<User>, sub: string): (r: Option<nat>)
    ensures r.None? <==> !HasGoogleId(users, sub)
    ensures r.Some? ==> r.value < |users| && users[r.value].googleId == sub
    ensures r.Some? ==> forall j | 0 <= j < r.value :: users[j].googleId != sub
  {
    if users == [] then None
    else if users[0].googleId == sub then Some(0)
    else match FindByGoogleId(users[1..], sub)
      case None => None
      case Some(k) => Some(k + 1)
  }

  predicate UniqueGoogleIds(users: seq<User>) {
    forall i, j | 0 <= i < j < |users| :: users[i].googleId != users[j].googleId
  }

  /** At most one user per Google subject, and distinct ids all below `nextId`. */
  predicate TableValid(t: Table) {
    && UniqueGoogleIds(t.users)
    && (forall i | 0 <= i < |t.users| :: t.users[i].id < t.nextId)
    && (forall i, j | 0 <= i < j < |t.users| :: t.users[i].id != t.users[j].id)
  }

  /** `{ userId: user._id, email: user.email }` */
  function ClaimsFor(u: User): Claims {
    Claims(u.id, u.email)
  }

  /** `User.create({ googleId: sub, name, email, profilePic: picture })` */
  function NewUser(id: UserId, p: Payload): User {
    User(id, p.sub, p.name, p.email, p.picture)
  }

  /** The user the handler settles on and the table afterwards: find, or create. */
  function FindOrCreate(t: Table, p: Payload): (User, Table) {
    match FindByGoogleId(t.users, p.sub)
    case Some(i) => (t.users[i], t)
    case None =>
      var u := NewUser(t.nextId, p);
      (u, Table(t.users + [u], t.nextId + 1))
  }

  /** The reply to `POST /google-login` with `idToken`, and the user table afterwards. */
  function Login(t: Table, idToken: string, verify: Verifier, sign: Signer): LoginOutcome {
    match verify(idToken)
    case None => LoginOutcome(Rejected(401, InvalidToken), t)
    case Some(p) =>
      var (user, t') := FindOrCreate(t, p);
      match sign(ClaimsFor(user), TokenLifetime)
      case None => LoginOutcome(Rejected(401, InvalidToken), t')
      case Some(token) => LoginOutcome(LoggedIn(token, user), t')
  }

  /** A token that fails verification is refused: no lookup, no user, no token. */
  lemma LoginRejectsUnverifiedToken(t: Table, idToken: string, verify: Verifier, sign: Signer)
    requires verify(idToken).None?
    ensures Login(t, idToken, verify, sign) == LoginOutcome(Rejected(401, InvalidToken), t)
  {
  }

  /**
   * A known Google subject is served from the stored user, as stored: the table is
   * untouched whatever the reply, and the payload's name, email and picture are not
   * written back.
   */
  lemma LoginReusesExistingUser(t: Table, idToken: string, verify: Verifier, sign: Signer)
    requires verify(idToken).Some? && HasGoogleId(t.users, verify(idToken).value.sub)
    ensures var o := Login(t, idToken, verify, sign);
      && o.table == t
      && (o.reply.LoggedIn? ==>
            && o.reply.user in t.users
            && o.reply.user.googleId == verify(idToken).value.sub)
  {
  }

  /**
   * An unknown Google subject gets exactly one new user, appended after the old
   * ones, with the payload's subject, name, email and picture and an id no user
   * had. This happens before signing, so it stays even when signing then fails.
   */
  lemma LoginCreatesUser(t: Table, idToken: string, verify: Verifier, sign: Signer)
    requires TableValid(t)
    requires verify(idToken).Some? && !HasGoogleId(t.users, verify(idToken).value.sub)
    ensures var o := Login(t, idToken, verify, sign);
      var p := verify(idToken).value;
      && |o.table.users| == |t.users| + 1
      && o.table.users[..|t.users|] == t.users
      && var u := o.table.users[|t.users|];
         && u.googleId == p.sub && u.name == p.name
         && u.email == p.email && u.profilePic == p.picture
         && (forall i | 0 <= i < |t.users| :: t.users[i].id != u.id)
         && (o.reply.LoggedIn? ==> o.reply.user == u)
  {
  }

  /**
   * A token is issued only by the signer, for exactly the claims
   * `{ userId, email }` of the user returned beside it, with the seven-day
   * lifetime; that user is the table's one user for the verified subject.
   */
  lemma LoginTokenClaims(t: Table, idToken: string, verify: Verifier, sign: Signer)
    requires TableValid(t)
    ensures var o := Login(t, idToken, verify, sign);
      o.reply.LoggedIn? ==>
        && verify(idToken).Some?
        && sign(Claims(o.reply.user.id, o.reply.user.email), "7d") == Some(o.reply.token)
        && o.reply.user in o.table.users
        && o.reply.user.googleId == verify(idToken).value.sub
        && FindByGoogleId(o.table.users, o.reply.user.googleId).Some?
        && o.table.users[FindByGoogleId(o.table.users, o.reply.user.googleId).value] == o.reply.user
  {
  }

  /** Find-or-create keeps one user per Google subject and fresh, distinct ids. */
  lemma LoginKeepsTableValid(t: Table, idToken: string, verify: Verifier, sign: Signer)
    requires TableValid(t)
    ensures TableValid(Login(t, idToken, verify, sign).table)
  {
  }

  /** The user table after the logins with `tokens`, one after another. */
  function LoginAll(t: Table, tokens: seq<string>, verify: Verifier, sign: Signer): Table
    decreases |tokens|
  {
    if tokens == [] then t
    else LoginAll(Login(t, tokens[0], verify, sign).table, tokens[1..], verify, sign)
  }

  /**
   * After any series of sequential logins there is still at most one user per
   * Google subject (lookup comes before create), and each login adds at most one user.
   */
  lemma {:induction false} LoginsKeepOneUserPerGoogleId(t: Table, tokens: seq<string>,
                                                          verify: Verifier, sign: Signer)
    requires TableValid(t)
    ensures TableValid(LoginAll(t, tokens, verify, sign))
    ensures UniqueGoogleIds(LoginAll(t, tokens, verify, sign).users)
    ensures |LoginAll(t, tokens, verify, sign).users| <= |t.users| + |tokens|
    decreases |tokens|
  {
    if tokens != [] {
      var t1 := Login(t, tokens[0], verify, sign).table;
      LoginKeepsTableValid(t, tokens[0], verify, sign);
      assert |t1.users| <= |t.users| + 1;
      LoginsKeepOneUserPerGoogleId(t1, tokens[1..], verify, sign);
    }
  }

  /** The user collection, as the login handler sees it. */
  class UserTable {
    var users: seq<User>
    var nextId: UserId

    function State(): Table
      reads this
    {
      Table(users, nextId)
    }

    ghost predicate Valid()
      reads this
    {
      TableValid(State())
    }

    constructor ()
      ensures users == [] && Valid()
    {
      users := [];
      nextId := 0;
    }

    /** The `/google-login` handler for the body `{ token: idToken }`. */
    method GoogleLogin(idToken: string, verify: Verifier, sign: Signer) returns (reply: LoginReply)
      modifies this
      ensures LoginOutcome(reply, State()) == Login(old(State()), idToken, verify, sign)
      ensures old(Valid()) ==> Valid()
    {
      if Valid() {
        LoginKeepsTableValid(State(), idToken, verify, sign);
      }
      var payload := verify(idToken);
      if payload.None? {
        return Rejected(401, InvalidToken);
      }
      var p := payload.value;
      var found := FindByGoogleId(users, p.sub);
      var user: User;
      if found.None? {
        user := NewUser(nextId, p);
        users := users + [user];
        nextId := nextId + 1;
      } else {
        user := users[found.value];
      }
      var token := sign(ClaimsFor(user), TokenLifetime);
      if token.None? {
        return Rejected(401, InvalidToken);
      }
      reply := LoggedIn(token.value, user);
    }
  }
}
