/** The driver object: the SAML mode flag, the one-time token and the two
    attribute arrays are fields it updates in place, and so are the two stores
    it reaches through its data-access objects. Every method is proved to do
    what the matching function of SamlSpec says; the operations that sign in
    or write a user record are also proved to keep the stores coherent. */
module SamlAuthDriver {
  import opened SamlTypes
  import opened AttributeMapping
  import opened SamlSpec
  import SamlProperties

  class Driver {
    const env: Env
    var authWithSamlActivated: bool
    var currentPassword: string
    var samlAttributesValues: Attributes
    var userAttributesValues: map<string, string>
    var users: map<string, User>
    var links: map<string, SamlAccount>

    /** The fields as a value of the state machine. */
    function Snapshot(): State
      reads this
    {
      State(authWithSamlActivated, currentPassword, samlAttributesValues, userAttributesValues, users, links)
    }

    constructor (env: Env, users: map<string, User>, links: map<string, SamlAccount>)
      ensures this.env == env
      ensures Snapshot() == Initial().(users := users, links := links)
    {
      this.env := env;
      authWithSamlActivated, currentPassword := false, "";
      samlAttributesValues, userAttributesValues := map[], map[];
      this.users, this.links := users, links;
    }

    // -------------------------------------------------------------------
    // Read-only operations

    function GetUser(login: string): Option<User>
      reads this
    {
      SamlSpec.GetUser(env, Snapshot(), login)
    }

    function GetUserList(pattern: string): set<User>
      reads this
    {
      SamlSpec.GetUserList(env, Snapshot(), pattern)
    }

    function CreateUserObject(login: string, password: string): User
    {
      SamlSpec.CreateUserObject(env, login, password)
    }

    function CanUseLocalPassword(login: string): bool
      reads this
    {
      SamlSpec.CanUseLocalPassword(env, links, login)
    }

    function CanChangePassword(login: string): bool
      reads this
    {
      SamlSpec.CanChangePassword(env, Snapshot(), login)
    }

    function GetSAMLAttributes(): Attributes
      reads this
    {
      samlAttributesValues
    }

    function GetUserAttributes(): map<string, string>
      reads this
    {
      userAttributesValues
    }

    // -------------------------------------------------------------------
    // Store writes

    method CreateSamlAccount(user: User, now: string) returns (r: Result<()>)
      modifies this`links
      ensures var c := SamlSpec.CreateSamlAccount(env, old(Snapshot()), user.login, now);
              Snapshot() == c.next && r == c.out
    {
      if user.login in links {
        return Err(DuplicateLink);
      }
      var account := SamlAccount(user.login, now, now, 1, env.encode(samlAttributesValues));
      links := links[user.login := account];
      return Ok(());
    }

    method SaveNewUser(user: User, now: string) returns (r: Result<bool>)
      modifies this`users, this`links
      ensures var step := SamlSpec.SaveNewUser(env, old(Snapshot()), user, now);
              Snapshot() == step.next && r == step.out
      ensures old(Coherent(Snapshot())) ==> Coherent(Snapshot())
    {
      ghost var s0 := Snapshot();
      if Coherent(s0) {
        SamlProperties.SaveNewUserKeepsCoherent(env, s0, user, now);
      }
      if user.login in users {
        return Err(DuplicateUser);
      }
      users := users[user.login := user];
      if authWithSamlActivated {
        var created := CreateSamlAccount(user, now);
        if created.Err? {
          return Err(created.error);
        }
      }
      return Ok(true);
    }

    method RemoveUser(login: string) returns (r: bool)
      modifies this`users, this`links
      ensures var step := SamlSpec.RemoveUser(env, old(Snapshot()), login);
              Snapshot() == step.next && Ok(r) == step.out
      ensures old(Coherent(Snapshot())) ==> Coherent(Snapshot())
    {
      if Coherent(Snapshot()) {
        SamlProperties.RemoveUserKeepsCoherent(env, Snapshot(), login);
      }
      var key := env.lower(login);
      links := links - {key};
      users := users - {key};
      return true;
    }

    method UpdateUser(arg: Option<User>) returns (r: Result<bool>)
      modifies this`users
      ensures var step := SamlSpec.UpdateUser(old(Snapshot()), arg);
              Snapshot() == step.next && r == step.out
      ensures old(Coherent(Snapshot())) ==> Coherent(Snapshot())
    {
      if Coherent(Snapshot()) {
        SamlProperties.UpdateUserKeepsCoherent(Snapshot(), arg);
      }
      if arg.None? {
        return Err(NotAUserRecord);
      }
      var user := arg.value;
      if user.login == "" {
        return Err(LoginUnset);
      }
      if user.login in users {
        users := users[user.login := user];
      }
      return Ok(true);
    }

    /** The user DAO's updatePassword. */
    method UpdatePassword(login: string, hash: string) returns (updated: bool)
      modifies this`users
      ensures users == SamlSpec.UpdatePassword(old(users), login, hash)
      ensures updated == (login in old(users))
    {
      updated := login in users;
      if updated {
        users := users[login := users[login].(password := hash)];
      }
    }

    method ChangePassword(login: string, newPassword: string) returns (r: bool)
      modifies this`users
      ensures var step := SamlSpec.ChangePassword(env, old(Snapshot()), login, newPassword);
              Snapshot() == step.next && Ok(r) == step.out
      ensures old(Coherent(Snapshot())) ==> Coherent(Snapshot())
    {
      if Coherent(Snapshot()) {
        SamlProperties.ChangePasswordKeepsCoherent(env, Snapshot(), login, newPassword);
      }
      r := UpdatePassword(login, env.crypt(newPassword));
    }

    // -------------------------------------------------------------------
    // The SAML handshake

    method ActivateAuthWithSaml(token: string) returns (t: string)
      modifies this`authWithSamlActivated, this`currentPassword
      ensures (Snapshot(), t) == SamlSpec.ActivateAuthWithSaml(old(Snapshot()), token)
    {
      authWithSamlActivated := true;
      currentPassword := token;
      t := currentPassword;
    }

    method SetAttributesMapping(saml: Attributes, mapping: seq<(string, string)>)
      modifies this`samlAttributesValues, this`userAttributesValues
      ensures Snapshot() == SamlSpec.SetAttributesMapping(old(Snapshot()), saml, mapping)
      ensures GetSAMLAttributes() == saml
      ensures GetUserAttributes() == MapAttributes(old(GetUserAttributes()), saml, mapping)
    {
      samlAttributesValues := saml;
      for i := 0 to |mapping|
        invariant samlAttributesValues == saml
        invariant userAttributesValues == MapAttributes(old(userAttributesValues), saml, mapping[..i])
      {
        var (property, attribute) := mapping[i];
        assert mapping[..i + 1][..i] == mapping[..i];
        if attribute in saml && !Falsy(saml[attribute]) {
          userAttributesValues := userAttributesValues[property := Picked(saml[attribute])];
        }
      }
      assert mapping[..|mapping|] == mapping;
    }

    method VerifyPassword(login: string, password: string, now: string) returns (r: Result<Option<User>>)
      modifies this
      ensures var step := SamlSpec.VerifyPassword(env, old(Snapshot()), login, password, now);
              Snapshot() == step.next && r == step.out
      ensures old(Coherent(Snapshot())) ==> Coherent(Snapshot())
    {
      ghost var s0 := Snapshot();
      if Coherent(s0) {
        SamlProperties.VerifyPasswordKeepsCoherent(env, s0, login, password, now);
      }
      if authWithSamlActivated {
        r := VerifySaml(login, password, now);
      } else {
        r := VerifyLocal(login, password);
      }
    }

    /** The SAML branch of verifyPassword. */
    method VerifySaml(login: string, password: string, now: string) returns (r: Result<Option<User>>)
      modifies this
      ensures var step := SamlSpec.VerifySaml(env, old(Snapshot()), login, password, now);
              Snapshot() == step.next && r == step.out
    {
      var user := if login in users then Some(users[login]) else None;
      if currentPassword != password {
        return Ok(None);
      }
      currentPassword := "";
      if user.None? {
        if env.automaticAccountCreation {
          var u := CreateUserObject(login, password);
          if env.jcommunityEnabled {
            u := u.(props := u.props["status" := Num(1)]);
          }
          u := ApplyUserAttributes(u, userAttributesValues);
          var saved := SaveNewUser(u, now);
          if saved.Err? {
            return Err(saved.error);
          }
          user := Some(u);
        }
      } else if login in links {
        var account := links[login];
        account := account.(lastUsed := now, usageCount := account.usageCount + 1,
                            samlData := env.encode(samlAttributesValues));
        if account.login in links {
          links := links[account.login := account];
        }
      } else {
        var created := CreateSamlAccount(user.value, now);
        if created.Err? {
          return Err(created.error);
        }
      }
      authWithSamlActivated := false;
      return Ok(user);
    }

    /** The login/password branch of verifyPassword. */
    method VerifyLocal(login: string, password: string) returns (r: Result<Option<User>>)
      modifies this`users
      ensures var step := SamlSpec.VerifyLocal(env, old(Snapshot()), login, password);
              Snapshot() == step.next && r == step.out
    {
      var user := if login in users then Some(users[login]) else None;
      if user.None? {
        return Ok(None);
      }
      if !CanUseLocalPassword(login) {
        return Ok(None);
      }
      var result := env.check(password, user.value.password);
      if result.Mismatch? {
        return Ok(None);
      }
      if result.NewHash? {
        user := Some(user.value.(password := result.hash));
        var _ := UpdatePassword(login, result.hash);
      }
      return Ok(user);
    }
  }

  /** A sign-in as the host framework runs it: the SAML attributes are
      mapped, SAML mode is activated, and the returned token is passed back as
      the password. With coherent stores, and a login property, if the mapping
      leaves one, equal to the login signing in, the driver leaves SAML mode
      and the token is spent. */
  method SignInWithSaml(d: Driver, saml: Attributes, mapping: seq<(string, string)>,
                        token: string, login: string, now: string) returns (r: Result<Option<User>>)
    requires Coherent(d.Snapshot())
    requires var vals := MapAttributes(d.userAttributesValues, saml, mapping);
             "login" in vals ==> vals["login"] == login
    modifies d
    ensures r.Ok? && !d.authWithSamlActivated && d.currentPassword == ""
    ensures Coherent(d.Snapshot())
    ensures d.samlAttributesValues == saml
    ensures login in old(d.users) ==> r == Ok(Some(old(d.users)[login])) && d.users == old(d.users)
    ensures login in old(d.users) ==> login in d.links && d.links[login].samlData == d.env.encode(saml)
    ensures login !in old(d.users) && !d.env.automaticAccountCreation ==> r == Ok(None) && d.users == old(d.users)
    ensures login !in old(d.users) && d.env.automaticAccountCreation ==>
              && r.value.Some? && d.users == old(d.users)[login := r.value.value]
              && login in d.links && d.links[login].usageCount == 1
  {
    d.SetAttributesMapping(saml, mapping);
    SamlProperties.HandshakeSettersKeepCoherent(old(d.Snapshot()), token, saml, mapping);
    var t := d.ActivateAuthWithSaml(token);
    ghost var s := d.Snapshot();
    assert Coherent(s);
    SamlProperties.SamlLoginCompletes(d.env, s, login, t, now);
    if login in s.users {
      if login in s.links {
        SamlProperties.SamlLoginBumpsLink(d.env, s, login, t, now);
      } else {
        SamlProperties.SamlLoginCreatesLink(d.env, s, login, t, now);
      }
    } else if d.env.automaticAccountCreation {
      SamlProperties.SamlLoginCreatesUser(d.env, s, login, t, now);
    }
    r := d.VerifyPassword(login, t, now);
  }
}
