/** The `register` and `login` handlers of backend/app.py over the `users` table.
    The database is a sequence of rows in storage order plus the next auto-increment id;
    whether `get_db_connection` succeeded is the parameter `connected`. bcrypt and JWT are
    symbolic: a digest records what it was made from, a token records its claims, key
    and algorithm. */
module Auth {
  import opened Wrappers
  import opened Sanitizer

  /** A bcrypt hash, symbolically: the password it was computed from and the salt that
      `bcrypt.gensalt()` drew. */
  datatype Digest = Digest(password: string, salt: nat)

  /** `bcrypt.hashpw(password, salt)`. */
  function Hash(password: string, salt: nat): Digest {
    Digest(password, salt)
  }

  /** `bcrypt.checkpw(password, digest)`: re-derives with the digest's own salt and compares. */
  predicate Check(password: string, digest: Digest) {
    Hash(password, digest.salt) == digest
  }

  /** The hash axiom: a password checks against every digest made from it, and an ideal
      hash lets no other password through. */
  lemma CheckHash(p: string, q: string, salt: nat)
    ensures Check(p, Hash(p, salt))
    ensures Check(q, Hash(p, salt)) <==> q == p
  {
  }

  /** A row of `users`: `id` is assigned by the table, `password` holds the digest. */
  datatype User = User(id: nat, username: string, email: string, password: Digest)

  /** The JWT payload: `user_id`, `username` and the `exp` claim (section 4.1.4 of RFC 7519)
      as seconds since the epoch. */
  datatype Claims = Claims(userId: nat, username: string, exp: int)

  /** `jwt.encode(payload, key, algorithm)`: a signed payload (JWS, HS256 is section 3.2 of
      RFC 7518); the MAC itself is not modelled. */
  datatype Token = Token(claims: Claims, key: string, alg: string)

  /** `timedelta(hours=1)`, in seconds. */
  const TokenLifetime: int := 3600

  /** The token both handlers issue for `u` at time `now`. */
  function IssueToken(u: User, now: int, secret: string): Token {
    Token(Claims(u.id, u.username, now + TokenLifetime), secret, "HS256")
  }

  /** The `user` object of a success reply: the row without its password. */
  datatype UserView = UserView(id: nat, username: string, email: string)

  function View(u: User): UserView {
    UserView(u.id, u.username, u.email)
  }

  /** The reply's `status` field: register sends the number 201, login the word "success". */
  datatype StatusField = Code(code: int) | Word(word: string)

  datatype Body =
    | Failure(error: string)
    | Authenticated(status: StatusField, message: string, token: Token, user: UserView)

  /** A JSON body with its HTTP status code. */
  datatype Reply = Reply(code: int, body: Body)

  const ConnectionFailed: Reply := Reply(500, Failure("Database connection failed"))
  const UserExists: Reply := Reply(400, Failure("User already exists!"))
  const InvalidCredentials: Reply := Reply(401, Failure("Invalid credentials!"))

  /** `SELECT * FROM users WHERE email = %s` followed by `fetchone()`: the first row,
      in storage order, whose email is `email`. */
  function Find(rows: seq<User>, email: string): (r: Option<User>)
    ensures r.None? <==> forall i | 0 <= i < |rows| :: rows[i].email != email
    ensures r.Some? ==> exists i | 0 <= i < |rows| ::
      rows[i] == r.value && rows[i].email == email &&
      forall j | 0 <= j < i :: rows[j].email != email
  {
    if rows == [] then None
    else if rows[0].email == email then Some(rows[0])
    else
      var r := Find(rows[1..], email);
      assert r.Some? ==> exists i | 0 <= i < |rows[1..]| ::
        rows[1..][i] == r.value && rows[1..][i].email == email &&
        forall j | 0 <= j < i :: rows[1..][j].email != email;
      assert r.Some? ==> exists i | 1 <= i < |rows| ::
        rows[i] == r.value && rows[i].email == email &&
        forall j | 0 <= j < i :: rows[j].email != email;
      r
  }

  /** At most one row per email. */
  predicate UniqueEmails(rows: seq<User>) {
    forall i, j | 0 <= i < j < |rows| :: rows[i].email != rows[j].email
  }

  /** With unique emails, the lookup finds exactly the row that has the email. */
  lemma FindUnique(rows: seq<User>, i: nat)
    requires UniqueEmails(rows) && i < |rows|
    ensures Find(rows, rows[i].email) == Some(rows[i])
  {
    var r := Find(rows, rows[i].email);
    var k :| 0 <= k < |rows| && rows[k] == r.value && rows[k].email == rows[i].email &&
      forall j | 0 <= j < k :: rows[j].email != rows[i].email;
    assert k == i;
  }

  /** After appending a row whose email no earlier row has, the lookup finds that row. */
  lemma FindAppended(rows: seq<User>, u: User)
    requires Find(rows, u.email).None?
    ensures Find(rows + [u], u.email) == Some(u)
  {
    var all := rows + [u];
    assert all[|rows|] == u;
    var r := Find(all, u.email);
    assert forall i | 0 <= i < |rows| :: all[i] == rows[i];
    var k :| 0 <= k < |all| && all[k] == r.value && all[k].email == u.email;
    assert k == |rows|;
  }

  /** The users table. */
  class UserTable {
    var rows: seq<User>
    var nextId: nat

    /** Emails are unique and every id is below the next auto-increment value, strictly
        increasing in storage order. */
    ghost predicate Valid()
      reads this
    {
      UniqueEmails(rows) &&
      (forall i | 0 <= i < |rows| :: rows[i].id < nextId) &&
      (forall i, j | 0 <= i < j < |rows| :: rows[i].id < rows[j].id)
    }

    constructor ()
      ensures Valid() && rows == [] && nextId == 1
    {
      rows := [];
      nextId := 1;
    }

    /** `register(username, email, password)` with the salt drawn by `bcrypt.gensalt()`,
        the time `now` and the signing key `secret`. */
    method Register(connected: bool, username: string, email: string, password: string,
                    salt: nat, now: int, secret: string) returns (r: Reply)
      requires Valid()
      modifies this
      ensures Valid()
      ensures !connected ==> r == ConnectionFailed && rows == old(rows) && nextId == old(nextId)
      ensures connected && Find(old(rows), Sanitize(email)).Some? ==>
        r == UserExists && rows == old(rows) && nextId == old(nextId)
      ensures connected && Find(old(rows), Sanitize(email)).None? ==>
        var u := User(old(nextId), Sanitize(username), Sanitize(email), Hash(password, salt));
        rows == old(rows) + [u] && nextId == old(nextId) + 1 &&
        r == Reply(201, Authenticated(Code(201), "User registered successfully!",
                                      IssueToken(u, now, secret), View(u)))
      ensures r.code == 201 ==>
        r.body.Authenticated? && r.body.token.alg == "HS256" && r.body.token.key == secret &&
        r.body.token.claims == Claims(r.body.user.id, r.body.user.username, now + TokenLifetime)
    {
      var name := Sanitize(username);
      var mail := Sanitize(email);
      var hashed := Hash(password, salt);
      if !connected {
        return ConnectionFailed;
      }
      var account := Find(rows, mail);
      if account.Some? {
        return UserExists;
      }
      rows := rows + [User(nextId, name, mail, hashed)];
      nextId := nextId + 1;
      FindAppended(old(rows), User(old(nextId), name, mail, hashed));
      var user := Find(rows, mail).value;
      var token := IssueToken(user, now, secret);
      r := Reply(201, Authenticated(Code(201), "User registered successfully!", token, View(user)));
    }

    /** `login(email, password)` at time `now`. It reads the table and changes nothing. */
    method Login(connected: bool, email: string, password: string, now: int, secret: string)
      returns (r: Reply)
      ensures !connected ==> r == ConnectionFailed
      ensures connected ==>
        (r.code == 200 <==>
          Find(rows, Sanitize(email)).Some? && Check(password, Find(rows, Sanitize(email)).value.password))
      ensures connected && r.code != 200 ==> r == InvalidCredentials
      ensures r.code == 200 ==>
        var u := Find(rows, Sanitize(email)).value;
        r == Reply(200, Authenticated(Word("success"), "Login successful!",
                                      IssueToken(u, now, secret), View(u)))
      ensures r.code == 200 ==>
        r.body.Authenticated? && r.body.token.alg == "HS256" && r.body.token.key == secret &&
        r.body.token.claims == Claims(r.body.user.id, r.body.user.username, now + TokenLifetime)
      ensures connected && UniqueEmails(rows) ==>
        (r.code == 200 <==>
          exists i | 0 <= i < |rows| :: rows[i].email == Sanitize(email) && Check(password, rows[i].password))
    {
      var mail := Sanitize(email);
      if !connected {
        return ConnectionFailed;
      }
      var user := Find(rows, mail);
      if user.Some? && Check(password, user.value.password) {
        var token := IssueToken(user.value, now, secret);
        return Reply(200, Authenticated(Word("success"), "Login successful!", token, View(user.value)));
      }
      r := InvalidCredentials;
      if UniqueEmails(rows) {
        forall i | 0 <= i < |rows| && rows[i].email == mail
          ensures !Check(password, rows[i].password)
        {
          FindUnique(rows, i);
        }
      }
    }
  }

  /** A client: a user who registers and then logs in with the same password, once with
      the same raw email and once with the email the registration echoed back, is let in
      both times as the same user, with a token claiming that user's id and username. */
  method RegisterThenLogin(t: UserTable, username: string, email: string, password: string,
                           salt: nat, now: int, later: int, secret: string)
    returns (registered: Reply, loggedIn: Reply, loggedInEchoed: Reply)
    requires t.Valid()
    modifies t
    ensures t.Valid()
    ensures registered.code == 201 ==>
      registered.body.Authenticated? &&
      registered.body.token.claims == Claims(registered.body.user.id, registered.body.user.username, now + TokenLifetime)
    ensures registered.code == 201 ==>
      loggedIn.code == 200 && loggedIn.body.Authenticated? &&
      loggedIn.body.user == registered.body.user &&
      loggedIn.body.token.claims.userId == registered.body.token.claims.userId &&
      loggedIn.body.token.claims.username == registered.body.token.claims.username &&
      loggedIn.body.token.claims.username == registered.body.user.username &&
      loggedIn.body.token.claims.exp == later + TokenLifetime
    ensures registered.code == 201 ==>
      loggedInEchoed.code == 200 && loggedInEchoed.body.Authenticated? &&
      loggedInEchoed.body.user == registered.body.user &&
      loggedInEchoed.body.token.claims == loggedIn.body.token.claims
  {
    registered := t.Register(true, username, email, password, salt, now, secret);
    loggedIn := t.Login(true, email, password, later, secret);
    var echoed := if registered.body.Authenticated? then registered.body.user.email else email;
    loggedInEchoed := t.Login(true, echoed, password, later, secret);
    if registered.code == 201 {
      SanitizeIdempotent(email);
      CheckHash(password, password, salt);
      FindAppended(old(t.rows), User(old(t.nextId), Sanitize(username), Sanitize(email), Hash(password, salt)));
    }
  }

  /** A client: registering an email a second time is refused and leaves the first row as it was. */
  method RegisterTwice(t: UserTable, name1: string, name2: string, email: string,
                       pw1: string, pw2: string, s1: nat, s2: nat, now: int, secret: string)
    returns (first: Reply, second: Reply)
    requires t.Valid()
    modifies t
    ensures t.Valid()
    ensures first.code == 201 ==>
      second == UserExists && t.rows == old(t.rows) + [User(old(t.nextId), Sanitize(name1), Sanitize(email), Hash(pw1, s1))]
  {
    first := t.Register(true, name1, email, pw1, s1, now, secret);
    if first.code == 201 {
      FindAppended(old(t.rows), User(old(t.nextId), Sanitize(name1), Sanitize(email), Hash(pw1, s1)));
    }
    second := t.Register(true, name2, email, pw2, s2, now, secret);
  }
}
