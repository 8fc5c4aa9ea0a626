/** Credential checking and login tokens: the email/password backend and the
    one-token-per-user table. */
module Auth {

  import opened Wrappers
  import opened Accounts
  import Store

  /** The first stored id in `[from, bound)` whose row has this email. */
  function FindByEmail(users: UserTable, email: string, from: nat, bound: nat): (r: Option<nat>)
    ensures r.Some? ==> from <= r.value < bound && r.value in users && users[r.value].email == email
    ensures r.None? ==> forall id :: from <= id < bound && id in users ==> users[id].email != email
    decreases bound - from
  {
    if from >= bound then None
    else if from in users && users[from].email == email then Some(from)
    else FindByEmail(users, email, from + 1, bound)
  }

  /** The row a login email names, looked up by exact match on the stored email. */
  function LookupByEmail(users: UserTable, email: string): (r: Option<nat>)
    ensures r.Some? ==> r.value in users && users[r.value].email == email
    ensures r.None? <==> !EmailTaken(users, email)
  {
    FindByEmail(users, email, 0, Store.NextId(users))
  }

  predicate PasswordMatches(u: User, password: string) {
    u.password == Usable(password)
  }

  /** The email/password backend: both must be supplied, the email must name a user,
      the password must match and the user must be active. */
  function Authenticate(users: UserTable, email: Option<string>, password: Option<string>): (r: Option<User>)
    ensures r.Some? ==>
      && email.Some? && password.Some?
      && r.value in users.Values
      && r.value.email == email.value
      && PasswordMatches(r.value, password.value)
      && r.value.isActive
  {
    if email.None? || password.None? then None
    else
      match LookupByEmail(users, email.value)
      case None => None
      case Some(id) =>
        var u := users[id];
        if PasswordMatches(u, password.value) && u.isActive then Some(u) else None
  }

  /** With emails unique, authentication succeeds exactly for the active user whose email
      and password were supplied. */
  lemma AuthenticateIff(users: UserTable, email: string, password: string)
    requires TableValid(users)
    ensures Authenticate(users, Some(email), Some(password)).Some? <==>
      exists id :: id in users && users[id].email == email
                   && PasswordMatches(users[id], password) && users[id].isActive
  {
    var r := LookupByEmail(users, email);
    if r.Some? {
      forall id | id in users && users[id].email == email
        ensures id == r.value
      {
      }
    }
  }

  /** Login tokens by owning user id; each user holds at most one. */
  type TokenTable = map<nat, string>

  /** What `get_or_create` gives back: the token table after the call, the user's key,
      and whether the token was created by this call. */
  datatype TokenResult = TokenResult(tokens: TokenTable, key: string, created: bool)

  /** `get_or_create` on the token table: the user's existing key, or `freshKey` newly
      stored for them. The flag says whether a token was created. */
  function GetOrCreateToken(tokens: TokenTable, userId: nat, freshKey: string): (r: TokenResult)
    ensures r.created <==> userId !in tokens
    ensures r.created ==> r.key == freshKey
    ensures userId in r.tokens && r.tokens[userId] == r.key
    ensures r.tokens.Keys == tokens.Keys + {userId}
    ensures forall id :: id in tokens ==> id in r.tokens && r.tokens[id] == tokens[id]
  {
    if userId in tokens then TokenResult(tokens, tokens[userId], false)
    else TokenResult(tokens[userId := freshKey], freshKey, true)
  }

  /** A second `get_or_create` for the same user returns the same key and creates nothing. */
  lemma GetOrCreateIdempotent(tokens: TokenTable, userId: nat, key1: string, key2: string)
    ensures var first := GetOrCreateToken(tokens, userId, key1);
      GetOrCreateToken(first.tokens, userId, key2) == TokenResult(first.tokens, first.key, false)
  {
  }
}
