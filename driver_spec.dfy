/** The driver as a state machine over values: its instance state together
    with the user store and the saml_account store, and one function per
    driver operation giving the state after the call and what the call
    returns or raises. The class in SamlAuthDriver runs the same operations
    step by step and is proved equal to these functions. */
module SamlSpec {
  import opened SamlTypes
  import opened AttributeMapping

  datatype State = State(
    authWithSamlActivated: bool,
    currentPassword: string,
    samlAttributesValues: Attributes,
    userAttributesValues: map<string, string>,
    users: map<string, User>,          // the user store, keyed by login
    links: map<string, SamlAccount>)   // the saml_account store, keyed by login

  /** The state after a call, and what the call returned (Ok) or raised (Err).
      When a call raises, `next` holds whatever it had written before. */
  datatype Step<+T> = Step(next: State, out: Result<T>)

  /** A store row is filed under the login it holds: the login is the key. */
  ghost predicate Keyed(s: State)
  {
    && (forall k :: k in s.users ==> s.users[k].login == k)
    && (forall k :: k in s.links ==> s.links[k].login == k)
  }

  /** What the driver keeps true of the stores: every link belongs to a user
      and counts at least one SAML sign-in. */
  ghost predicate Coherent(s: State)
  {
    && Keyed(s)
    && s.links.Keys <= s.users.Keys
    && (forall k :: k in s.links ==> s.links[k].usageCount >= 1)
  }

  /** A driver before any call. */
  function Initial(): State
  {
    State(false, "", map[], map[], map[], map[])
  }

  // ---------------------------------------------------------------------
  // Store primitives (the data-access layer, reduced to maps)

  /** UPDATE of a user row: writes the record under its own login when a row
      with that login exists, otherwise changes nothing. */
  function UpdateRow(users: map<string, User>, u: User): (r: map<string, User>)
    ensures r.Keys == users.Keys
    ensures u.login in users ==> r[u.login] == u
    ensures forall k :: k in users && k != u.login ==> r[k] == users[k]
  {
    if u.login in users then users[u.login := u] else users
  }

  /** The user DAO's updatePassword(login, hash). */
  function UpdatePassword(users: map<string, User>, login: string, hash: string): (r: map<string, User>)
    ensures r.Keys == users.Keys
    ensures login in users ==> r[login] == users[login].(password := hash)
    ensures forall k :: k in users && k != login ==> r[k] == users[k]
  {
    if login in users then users[login := users[login].(password := hash)] else users
  }

  // ---------------------------------------------------------------------
  // The password policy

  /** canUseLocalPassword: a local password may be used when the
      configuration allows it for every account, when the login never signed
      in through SAML, or when it may administrate the SAML configuration. */
  function CanUseLocalPassword(env: Env, links: map<string, SamlAccount>, login: string): (r: bool)
    ensures r <==> env.allowSAMLAccountToUseLocalPassword || login !in links || login in env.samlAdmins
  {
    if env.allowSAMLAccountToUseLocalPassword then true
    else if login !in links then true
    else if login in env.samlAdmins then true
    else false
  }

  /** canChangePassword answers exactly as canUseLocalPassword. */
  function CanChangePassword(env: Env, s: State, login: string): (r: bool)
    ensures r <==> env.allowSAMLAccountToUseLocalPassword || login !in s.links || login in env.samlAdmins
  {
    CanUseLocalPassword(env, s.links, login)
  }

  // ---------------------------------------------------------------------
  // Driver operations

  /** createUserObject: a record that is not stored, with the login as given
      and the hashed password. */
  function CreateUserObject(env: Env, login: string, password: string): (u: User)
    ensures Property(u, "login") == Some(Text(login))
    ensures Property(u, "password") == Some(Text(env.crypt(password)))
    ensures forall n :: n != "login" && n != "password" ==> Property(u, n) == None
  {
    User(login, env.crypt(password), map[])
  }

  /** activateAuthWithSaml, with the random password generator's output
      passed in as `token`. */
  function ActivateAuthWithSaml(s: State, token: string): (r: (State, string))
    ensures r.0.authWithSamlActivated && r.0.currentPassword == r.1 && r.1 == token
    ensures r.0.(authWithSamlActivated := s.authWithSamlActivated, currentPassword := s.currentPassword) == s
  {
    (s.(authWithSamlActivated := true, currentPassword := token), token)
  }

  /** The link createSAMLAccount inserts for `login` at time `now`. */
  function NewLink(env: Env, s: State, login: string, now: string): SamlAccount
  {
    SamlAccount(login, now, now, 1, env.encode(s.samlAttributesValues))
  }

  /** createSAMLAccount: inserts a first link; the insert fails when the
      login already has one. */
  function CreateSamlAccount(env: Env, s: State, login: string, now: string): Step<()>
  {
    if login in s.links then Step(s, Err(DuplicateLink))
    else Step(s.(links := s.links[login := NewLink(env, s, login, now)]), Ok(()))
  }

  /** saveNewUser: inserts the record, then, in SAML mode, its first link. */
  function SaveNewUser(env: Env, s: State, u: User, now: string): Step<bool>
  {
    if u.login in s.users then Step(s, Err(DuplicateUser))
    else
      var s1 := s.(users := s.users[u.login := u]);
      if s.authWithSamlActivated then
        var c := CreateSamlAccount(env, s1, u.login, now);
        if c.out.Err? then Step(c.next, Err(c.out.error)) else Step(c.next, Ok(true))
      else Step(s1, Ok(true))
  }

  /** removeUser: deletes the link, then the user, both under the lowercased
      login; deleting a missing row is not an error. */
  function RemoveUser(env: Env, s: State, login: string): Step<bool>
  {
    var key := env.lower(login);
    Step(s.(links := s.links - {key}).(users := s.users - {key}), Ok(true))
  }

  /** updateUser, where `arg` is None for a value that is not a record. */
  function UpdateUser(s: State, arg: Option<User>): Step<bool>
  {
    if arg.None? then Step(s, Err(NotAUserRecord))
    else if arg.value.login == "" then Step(s, Err(LoginUnset))
    else Step(s.(users := UpdateRow(s.users, arg.value)), Ok(true))
  }

  /** getUser: the record of the lowercased login. */
  function GetUser(env: Env, s: State, login: string): (r: Option<User>)
    ensures r.Some? <==> env.lower(login) in s.users
    ensures r.Some? ==> r.value == s.users[env.lower(login)]
  {
    if env.lower(login) in s.users then Some(s.users[env.lower(login)]) else None
  }

  /** getUserList: every record for the pattern "%" or "", otherwise the
      records the store's findByLogin matches. */
  function GetUserList(env: Env, s: State, pattern: string): (r: set<User>)
    ensures r <= s.users.Values
    ensures pattern == "%" || pattern == "" ==> r == s.users.Values
    ensures pattern != "%" && pattern != "" ==>
              forall u :: u in s.users.Values ==> (u in r <==> env.like(u.login, pattern))
  {
    if pattern == "%" || pattern == "" then s.users.Values
    else set u | u in s.users.Values && env.like(u.login, pattern)
  }

  /** changePassword: stores the hash of the new password; the result says
      whether a record with that login was there to update. */
  function ChangePassword(env: Env, s: State, login: string, newPassword: string): Step<bool>
  {
    Step(s.(users := UpdatePassword(s.users, login, env.crypt(newPassword))), Ok(login in s.users))
  }

  /** setAttributesMapping: replaces the SAML attributes and folds the mapping
      into the user attribute values. */
  function SetAttributesMapping(s: State, saml: Attributes, mapping: seq<(string, string)>): State
  {
    s.(samlAttributesValues := saml,
       userAttributesValues := MapAttributes(s.userAttributesValues, saml, mapping))
  }

  /** The record verifyPassword builds for an unknown login in SAML mode. */
  function NewSamlUser(env: Env, s: State, login: string, password: string): User
  {
    var u := CreateUserObject(env, login, password);
    var u1 := if env.jcommunityEnabled then u.(props := u.props["status" := Num(1)]) else u;
    Overlay(u1, s.userAttributesValues)
  }

  /** The bookkeeping of a SAML sign-in by a known user: bump the link of
      `login`, or create the user's first link. */
  function TouchLink(env: Env, s: State, login: string, user: User, now: string): Step<()>
  {
    if login in s.links then
      var a := s.links[login];
      var a1 := a.(lastUsed := now, usageCount := a.usageCount + 1,
                   samlData := env.encode(s.samlAttributesValues));
      Step(s.(links := if a1.login in s.links then s.links[a1.login := a1] else s.links), Ok(()))
    else CreateSamlAccount(env, s, user.login, now)
  }

  /** verifyPassword(login, password) at time `now`: Ok(None) is PHP's false
      (or the missing user), Ok(Some(u)) the authenticated user. */
  function VerifyPassword(env: Env, s: State, login: string, password: string, now: string): Step<Option<User>>
  {
    if s.authWithSamlActivated then VerifySaml(env, s, login, password, now)
    else VerifyLocal(env, s, login, password)
  }

  /** The SAML branch of verifyPassword: the password must be the token. */
  function VerifySaml(env: Env, s: State, login: string, password: string, now: string): Step<Option<User>>
  {
    if s.currentPassword != password then Step(s, Ok(None))
    else
      var s1 := s.(currentPassword := "");
      if login !in s.users then
        if env.automaticAccountCreation then
          var u := NewSamlUser(env, s1, login, password);
          var saved := SaveNewUser(env, s1, u, now);
          if saved.out.Err? then Step(saved.next, Err(saved.out.error))
          else Step(saved.next.(authWithSamlActivated := false), Ok(Some(u)))
        else Step(s1.(authWithSamlActivated := false), Ok(None))
      else
        var t := TouchLink(env, s1, login, s.users[login], now);
        if t.out.Err? then Step(t.next, Err(t.out.error))
        else Step(t.next.(authWithSamlActivated := false), Ok(Some(s.users[login])))
  }

  /** The login/password branch of verifyPassword. */
  function VerifyLocal(env: Env, s: State, login: string, password: string): Step<Option<User>>
  {
    if login !in s.users then Step(s, Ok(None))
    else if !CanUseLocalPassword(env, s.links, login) then Step(s, Ok(None))
    else
      match env.check(password, s.users[login].password)
      case Mismatch => Step(s, Ok(None))
      case Match => Step(s, Ok(Some(s.users[login])))
      case NewHash(h) =>
        Step(s.(users := UpdatePassword(s.users, login, h)), Ok(Some(s.users[login].(password := h))))
  }
}
