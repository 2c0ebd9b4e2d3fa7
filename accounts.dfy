/** The account and idea endpoints of the HTTP server (dist/server.js):
    bearer-token authentication, registration, login, reading and updating
    the caller's profile, and submitting an idea. The user and idea tables
    are maps held by a `Server` object; password hashing and token signing
    are black-box functions the server is created with. */
module Accounts {

  import opened Wrappers
  import opened PyStrings

  /** The claims of a token: `{ id, email }`, the only shape `issueToken`
      is given (the optional `isAdmin` of the payload type is never issued). */
  datatype TokenPayload = TokenPayload(id: int, email: string)

  /** What `jwt.verify` yields for a token: it throws (bad signature,
      expired), or returns a string payload, or an object whose `id` and
      `email` keys may each be absent. */
  datatype Decoded =
    | VerifyThrows
    | TextPayload(text: string)
    | ObjectPayload(id: Option<int>, email: Option<string>)

  datatype UserRow = UserRow(id: int, email: string, passwordHash: string, createdAt: int, updatedAt: int)

  datatype IdeaRow = IdeaRow(id: int, userId: int, title: string, content: string, aiReply: Option<string>)

  /** The JSON bodies the handlers send. No variant carries a password hash. */
  datatype Body =
    | Message(text: string)
    | Session(id: int, email: string, token: string)
    | Profile(id: int, email: string, createdAt: int, updatedAt: int)
    | ProfileUpdated(id: int, email: string, updatedAt: int)
    | IdeaCreated(id: int, title: string, content: string, aiReply: Option<string>)
    | InternalError

  datatype Reply = Reply(status: int, body: Body)

  datatype AuthOutcome = Authenticated(user: TokenPayload) | Rejected(reply: Reply)

  const BearerPrefix: string := "Bearer "
  const MinPasswordLength: nat := 8

  const MissingBearer: string := "Mangler bearer-token."
  const InvalidToken: string := "Ugyldig token."
  const InvalidOrExpiredToken: string := "Ugyldig eller utløpt token."
  const MissingCredentials: string := "E-post og passord må fylles ut."
  const PasswordTooShort: string := "Passord må være minst 8 tegn."
  const EmailRegistered: string := "E-post er allerede registrert."
  const BadLogin: string := "Ugyldig e-post eller passord."
  const UserNotFound: string := "Bruker ikke funnet."
  const NothingToUpdate: string := "Oppgi minst én verdi å oppdatere."
  const EmailInUse: string := "E-post er allerede i bruk."
  const MissingIdeaFields: string := "title og content må fylles ut."
  const IdeaOwnerNotFound: string := "Fant ikke bruker."

  /** JavaScript truthiness of an optional string field of a request body:
      absent, null and "" are all falsy. */
  predicate Filled(field: Option<string>) {
    field.Some? && field.value != ""
  }

  /** True of a password `register` and `PUT /api/me` refuse. */
  predicate TooShort(password: string) {
    JsLength(password) < MinPasswordLength
  }

  /** The token of an `Authorization` header: the header with its seven
      characters "Bearer " removed, when it starts with them. */
  function BearerToken(header: Option<string>): (token: Option<string>)
    ensures token.Some? <==> header.Some? && StartsWith(header.value, BearerPrefix)
    ensures token.Some? ==> header.value == BearerPrefix + token.value
  {
    if header.Some? && StartsWith(header.value, BearerPrefix) then
      Some(header.value[|BearerPrefix|..])
    else
      None
  }

  /** Stripping the prefix undoes adding it. */
  lemma BearerTokenRoundTrip(token: string)
    ensures BearerToken(Some(BearerPrefix + token)) == Some(token)
  {
    assert (BearerPrefix + token)[..|BearerPrefix|] == BearerPrefix;
  }

  /** A verified payload `requireUser` accepts: an object with both keys. */
  predicate HasClaims(d: Decoded) {
    d.ObjectPayload? && d.id.Some? && d.email.Some?
  }

  /** `requireUser`: succeeds exactly when the header carries a bearer token
      whose verified payload has `id` and `email`, and then yields exactly
      those two claims; every other outcome is a 401 with the message of
      its case. */
  function Authenticate(header: Option<string>, verify: string -> Decoded): (r: AuthOutcome)
    ensures r.Authenticated? <==> BearerToken(header).Some? && HasClaims(verify(BearerToken(header).value))
    ensures r.Authenticated? ==>
      var d := verify(BearerToken(header).value);
      r.user == TokenPayload(d.id.value, d.email.value)
    ensures BearerToken(header).None? ==> r == Rejected(Reply(401, Message(MissingBearer)))
    ensures BearerToken(header).Some? && verify(BearerToken(header).value) == VerifyThrows ==>
      r == Rejected(Reply(401, Message(InvalidOrExpiredToken)))
    ensures (BearerToken(header).Some? && verify(BearerToken(header).value) != VerifyThrows
             && !HasClaims(verify(BearerToken(header).value))) ==>
      r == Rejected(Reply(401, Message(InvalidToken)))
  {
    match BearerToken(header)
    case None => Rejected(Reply(401, Message(MissingBearer)))
    case Some(token) =>
      match verify(token)
      case VerifyThrows => Rejected(Reply(401, Message(InvalidOrExpiredToken)))
      case TextPayload(_) => Rejected(Reply(401, Message(InvalidToken)))
      case ObjectPayload(id, email) =>
        if id.Some? && email.Some? then Authenticated(TokenPayload(id.value, email.value))
        else Rejected(Reply(401, Message(InvalidToken)))
  }

  /** The e-mail index names, for every address, the one row holding it,
      and every row is indexed under its address. */
  ghost predicate IndexMatches(users: map<int, UserRow>, emailIndex: map<string, int>) {
    && (forall e :: e in emailIndex ==> emailIndex[e] in users && users[emailIndex[e]].email == e)
    && (forall id :: id in users ==> users[id].email in emailIndex && emailIndex[users[id].email] == id)
  }

  /** No two users share an e-mail address. */
  ghost predicate EmailsUnique(users: map<int, UserRow>) {
    forall i, j :: i in users && j in users && users[i].email == users[j].email ==> i == j
  }

  /** The tables of the database: rows are keyed by their own ids, ids are
      below the next autoincrement value, the e-mail index matches the user
      table, and every idea belongs to an existing user. */
  ghost predicate TablesValid(users: map<int, UserRow>, emailIndex: map<string, int>,
                              ideas: map<int, IdeaRow>, nextUserId: int, nextIdeaId: int) {
    && 1 <= nextUserId && 1 <= nextIdeaId
    && IndexMatches(users, emailIndex)
    && (forall id :: id in users ==> users[id].id == id && 1 <= id < nextUserId)
    && (forall k :: k in ideas ==> ideas[k].id == k && 1 <= k < nextIdeaId && ideas[k].userId in users)
  }

  /** A matching index makes the addresses unique. */
  lemma IndexedEmailsAreUnique(users: map<int, UserRow>, emailIndex: map<string, int>)
    requires IndexMatches(users, emailIndex)
    ensures EmailsUnique(users)
  {
    forall i, j | i in users && j in users && users[i].email == users[j].email
      ensures i == j
    {
      assert emailIndex[users[i].email] == i;
    }
  }

  /** Adding a row under a fresh id and a free address keeps the index
      matching (the write `register` performs). */
  lemma InsertKeepsIndex(users: map<int, UserRow>, emailIndex: map<string, int>, row: UserRow)
    requires IndexMatches(users, emailIndex)
    requires row.id !in users && row.email !in emailIndex
    ensures IndexMatches(users[row.id := row], emailIndex[row.email := row.id])
  {
  }

  /** Rewriting a row to an address that is free or already its own keeps
      the index matching (the write `PUT /api/me` performs). */
  lemma UpdateKeepsIndex(users: map<int, UserRow>, emailIndex: map<string, int>, row: UserRow)
    requires IndexMatches(users, emailIndex)
    requires row.id in users
    requires row.email !in emailIndex || emailIndex[row.email] == row.id
    ensures IndexMatches(users[row.id := row], (emailIndex - {users[row.id].email})[row.email := row.id])
  {
    var users' := users[row.id := row];
    var index' := (emailIndex - {users[row.id].email})[row.email := row.id];
    forall e | e in index'
      ensures index'[e] in users' && users'[index'[e]].email == e
    {
      if e != row.email {
        assert emailIndex[e] != row.id;
      }
    }
    forall id | id in users'
      ensures users'[id].email in index' && index'[users'[id].email] == id
    {
      if id != row.id {
        assert users[id].email != users[row.id].email by {
          IndexedEmailsAreUnique(users, emailIndex);
        }
      }
    }
  }

  /** The incoming request; `requireUser` stores the caller's claims in
      `user`. */
  class Request {
    const authorization: Option<string>
    var user: Option<TokenPayload>

    constructor (authorization: Option<string>)
      ensures this.authorization == authorization && user == None
    {
      this.authorization := authorization;
      user := None;
    }
  }

  class Server {
    /** `argon2.hash` */
    const hash: string -> string
    /** `argon2.verify(hash, password)` */
    const passwordMatches: (string, string) -> bool
    /** `issueToken`, i.e. `jwt.sign` with the server's secret */
    const sign: TokenPayload -> string
    /** `jwt.verify` with the server's secret */
    const verify: string -> Decoded

    var users: map<int, UserRow>
    var emailIndex: map<string, int>
    var ideas: map<int, IdeaRow>
    var nextUserId: int
    var nextIdeaId: int

    ghost predicate Valid()
      reads this
    {
      TablesValid(users, emailIndex, ideas, nextUserId, nextIdeaId)
    }

    constructor (hash: string -> string, passwordMatches: (string, string) -> bool,
                 sign: TokenPayload -> string, verify: string -> Decoded)
      ensures Valid()
      ensures this.hash == hash && this.passwordMatches == passwordMatches
      ensures this.sign == sign && this.verify == verify
      ensures users == map[] && emailIndex == map[] && ideas == map[]
    {
      this.hash := hash;
      this.passwordMatches := passwordMatches;
      this.sign := sign;
      this.verify := verify;
      users, emailIndex, ideas := map[], map[], map[];
      nextUserId, nextIdeaId := 1, 1;
    }

    /** `requireUser`: the outcome of `Authenticate`; on success the claims
        are attached to the request. */
    method RequireUser(request: Request) returns (outcome: AuthOutcome)
      modifies request
      ensures outcome == Authenticate(request.authorization, verify)
      ensures request.user == if outcome.Authenticated? then Some(outcome.user) else old(request.user)
    {
      outcome := Authenticate(request.authorization, verify);
      if outcome.Authenticated? {
        request.user := Some(outcome.user);
      }
    }

    /** `POST /api/register`: a missing field (400), a short password (400)
        and a taken address (409) are refused in that order and change no
        table; otherwise one row is added under the next id and a token for
        `{id, email}` is returned with 201. */
    method Register(email: Option<string>, password: Option<string>, now: int) returns (reply: Reply)
      requires Valid()
      modifies this
      ensures Valid()
      ensures ideas == old(ideas) && nextIdeaId == old(nextIdeaId)
      ensures !Filled(email) || !Filled(password) ==> reply == Reply(400, Message(MissingCredentials))
      ensures Filled(email) && Filled(password) && TooShort(password.value) ==>
        reply == Reply(400, Message(PasswordTooShort))
      ensures Filled(email) && Filled(password) && !TooShort(password.value) && email.value in old(emailIndex) ==>
        reply == Reply(409, Message(EmailRegistered))
      ensures reply.status == 201 <==>
        Filled(email) && Filled(password) && !TooShort(password.value) && email.value !in old(emailIndex)
      ensures reply.status != 201 ==>
        users == old(users) && emailIndex == old(emailIndex) && nextUserId == old(nextUserId)
      ensures reply.status == 201 ==>
        var id := old(nextUserId);
        && users == old(users)[id := UserRow(id, email.value, hash(password.value), now, now)]
        && emailIndex == old(emailIndex)[email.value := id]
        && nextUserId == id + 1
        && reply == Reply(201, Session(id, email.value, sign(TokenPayload(id, email.value))))
    {
      if !Filled(email) || !Filled(password) {
        return Reply(400, Message(MissingCredentials));
      }
      if TooShort(password.value) {
        return Reply(400, Message(PasswordTooShort));
      }
      if email.value in emailIndex {
        return Reply(409, Message(EmailRegistered));
      }
      var passwordHash := hash(password.value);
      var row := UserRow(nextUserId, email.value, passwordHash, now, now);
      InsertKeepsIndex(users, emailIndex, row);
      users := users[row.id := row];
      emailIndex := emailIndex[row.email := row.id];
      nextUserId := nextUserId + 1;
      var token := sign(TokenPayload(row.id, row.email));
      reply := Reply(201, Session(row.id, row.email, token));
    }

    /** `POST /api/login`: an unknown address and a wrong password get the
        same 401; success returns a token for the stored `{id, email}`. It
        writes nothing. */
    method Login(email: Option<string>, password: Option<string>) returns (reply: Reply)
      requires Valid()
      ensures !Filled(email) || !Filled(password) ==> reply == Reply(400, Message(MissingCredentials))
      ensures Filled(email) && Filled(password) ==>
        (reply.status == 200 <==>
          email.value in emailIndex && passwordMatches(users[emailIndex[email.value]].passwordHash, password.value))
      ensures Filled(email) && Filled(password) && reply.status != 200 ==> reply == Reply(401, Message(BadLogin))
      ensures reply.status == 200 ==>
        var row := users[emailIndex[email.value]];
        reply == Reply(200, Session(row.id, row.email, sign(TokenPayload(row.id, row.email))))
    {
      if !Filled(email) || !Filled(password) {
        return Reply(400, Message(MissingCredentials));
      }
      if email.value !in emailIndex {
        return Reply(401, Message(BadLogin));
      }
      var row := users[emailIndex[email.value]];
      var passwordOk := passwordMatches(row.passwordHash, password.value);
      if !passwordOk {
        return Reply(401, Message(BadLogin));
      }
      var token := sign(TokenPayload(row.id, row.email));
      reply := Reply(200, Session(row.id, row.email, token));
    }

    /** `GET /api/me`: the caller's id, e-mail and timestamps (never the
        hash), or 404 when the token's id has no row. */
    method GetMe(request: Request) returns (reply: Reply)
      requires Valid()
      modifies request
      ensures var auth := Authenticate(request.authorization, verify);
        && (auth.Rejected? ==> reply == auth.reply)
        && (auth.Authenticated? && auth.user.id !in users ==> reply == Reply(404, Message(UserNotFound)))
        && (auth.Authenticated? && auth.user.id in users ==>
              var row := users[auth.user.id];
              reply == Reply(200, Profile(row.id, row.email, row.createdAt, row.updatedAt)))
      ensures request.user == if reply.status == 401 then old(request.user)
                              else Some(Authenticate(request.authorization, verify).user)
    {
      var auth := RequireUser(request);
      if auth.Rejected? {
        return auth.reply;
      }
      if auth.user.id !in users {
        return Reply(404, Message(UserNotFound));
      }
      var row := users[auth.user.id];
      reply := Reply(200, Profile(row.id, row.email, row.createdAt, row.updatedAt));
    }

    /** The checks `PUT /api/me` makes before writing: something to
        update, an address that is free or the caller's own, and no short
        password. */
    predicate UpdateAccepted(id: int, email: Option<string>, password: Option<string>,
                             emailIndex: map<string, int>) {
      && (Filled(email) || Filled(password))
      && (Filled(email) ==> email.value !in emailIndex || emailIndex[email.value] == id)
      && !(Filled(password) && TooShort(password.value))
    }

    /** `PUT /api/me`: nothing to update (400), an address held by another
        user (409) and a short password (400) are refused in that order and
        change nothing; a token whose id has no row makes the update throw
        (500). Otherwise only the supplied fields of the caller's row are
        rewritten, and `updatedAt` is set. */
    method UpdateMe(request: Request, email: Option<string>, password: Option<string>, now: int)
      returns (reply: Reply)
      requires Valid()
      modifies this, request
      ensures Valid()
      ensures ideas == old(ideas) && nextUserId == old(nextUserId) && nextIdeaId == old(nextIdeaId)
      ensures var auth := Authenticate(request.authorization, verify);
        && (auth.Rejected? ==> reply == auth.reply)
        && (auth.Authenticated? && !Filled(email) && !Filled(password) ==>
              reply == Reply(400, Message(NothingToUpdate)))
        && (auth.Authenticated? && Filled(email) && email.value in old(emailIndex)
              && old(emailIndex)[email.value] != auth.user.id ==>
              reply == Reply(409, Message(EmailInUse)))
        && (auth.Authenticated? && (Filled(email) || Filled(password))
              && (Filled(email) ==> email.value !in old(emailIndex) || old(emailIndex)[email.value] == auth.user.id)
              && Filled(password) && TooShort(password.value) ==>
              reply == Reply(400, Message(PasswordTooShort)))
        && (auth.Authenticated? && UpdateAccepted(auth.user.id, email, password, old(emailIndex))
              && auth.user.id !in old(users) ==>
              reply == Reply(500, InternalError))
        && (reply.status == 200 <==>
              auth.Authenticated? && UpdateAccepted(auth.user.id, email, password, old(emailIndex))
              && auth.user.id in old(users))
      ensures reply.status != 200 ==> users == old(users) && emailIndex == old(emailIndex)
      ensures reply.status == 200 ==>
        var id := Authenticate(request.authorization, verify).user.id;
        && id in old(users)
        && var row := old(users)[id];
           var row' := UserRow(id,
                               if Filled(email) then email.value else row.email,
                               if Filled(password) then hash(password.value) else row.passwordHash,
                               row.createdAt, now);
           && users == old(users)[id := row']
           && reply == Reply(200, ProfileUpdated(id, row'.email, now))
      ensures request.user == if reply.status == 401 then old(request.user)
                              else Some(Authenticate(request.authorization, verify).user)
    {
      var auth := RequireUser(request);
      if auth.Rejected? {
        return auth.reply;
      }
      var id := auth.user.id;
      if !Filled(email) && !Filled(password) {
        return Reply(400, Message(NothingToUpdate));
      }
      if Filled(email) {
        if email.value in emailIndex && emailIndex[email.value] != id {
          return Reply(409, Message(EmailInUse));
        }
      }
      var newHash: Option<string> := None;
      if Filled(password) {
        if TooShort(password.value) {
          return Reply(400, Message(PasswordTooShort));
        }
        newHash := Some(hash(password.value));
      }
      if id !in users {
        return Reply(500, InternalError);
      }
      var row := users[id];
      var row' := UserRow(id,
                          if Filled(email) then email.value else row.email,
                          newHash.GetOr(row.passwordHash),
                          row.createdAt, now);
      UpdateKeepsIndex(users, emailIndex, row');
      emailIndex := (emailIndex - {row.email})[row'.email := id];
      users := users[id := row'];
      reply := Reply(200, ProfileUpdated(id, row'.email, now));
    }

    /** `POST /api/ideas`: with an authenticated caller, a title and a
        content, and an existing user row, exactly one idea owned by the
        token's id is added (201); every refusal leaves the tables as they
        were. */
    method CreateIdea(request: Request, title: Option<string>, content: Option<string>) returns (reply: Reply)
      requires Valid()
      modifies this, request
      ensures Valid()
      ensures users == old(users) && emailIndex == old(emailIndex) && nextUserId == old(nextUserId)
      ensures var auth := Authenticate(request.authorization, verify);
        && (auth.Rejected? ==> reply == auth.reply)
        && (auth.Authenticated? && (!Filled(title) || !Filled(content)) ==>
              reply == Reply(400, Message(MissingIdeaFields)))
        && (auth.Authenticated? && Filled(title) && Filled(content) && auth.user.id !in users ==>
              reply == Reply(404, Message(IdeaOwnerNotFound)))
        && (reply.status == 201 <==>
              auth.Authenticated? && Filled(title) && Filled(content) && auth.user.id in users)
      ensures reply.status != 201 ==> ideas == old(ideas) && nextIdeaId == old(nextIdeaId)
      ensures reply.status == 201 ==>
        var id := old(nextIdeaId);
        var owner := Authenticate(request.authorization, verify).user.id;
        && ideas == old(ideas)[id := IdeaRow(id, owner, title.value, content.value, None)]
        && nextIdeaId == id + 1
        && reply == Reply(201, IdeaCreated(id, title.value, content.value, None))
      ensures request.user == if reply.status == 401 then old(request.user)
                              else Some(Authenticate(request.authorization, verify).user)
    {
      var auth := RequireUser(request);
      if auth.Rejected? {
        return auth.reply;
      }
      if !Filled(title) || !Filled(content) {
        return Reply(400, Message(MissingIdeaFields));
      }
      if auth.user.id !in users {
        return Reply(404, Message(IdeaOwnerNotFound));
      }
      var idea := IdeaRow(nextIdeaId, auth.user.id, title.value, content.value, None);
      ideas := ideas[idea.id := idea];
      nextIdeaId := nextIdeaId + 1;
      reply := Reply(201, IdeaCreated(idea.id, idea.title, idea.content, idea.aiReply));
    }
  }
}
