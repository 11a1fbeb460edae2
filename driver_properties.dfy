/** What the driver's operations promise, stated over the state machine of
    SamlSpec: the SAML handshake, the bookkeeping of the saml_account store,
    the password path, and the store invariant every operation keeps. */
module SamlProperties {
  import opened SamlTypes
  import opened AttributeMapping
  import opened SamlSpec

  // ---------------------------------------------------------------------
  // The SAML handshake

  /** Whatever the SAML attempt with the right token does, the token is spent;
      the mode is left only when the attempt completes without a store error. */
  lemma ActivateThenVerifySpendsToken(env: Env, s: State, token: string, login: string, now: string)
    ensures var (s1, t) := ActivateAuthWithSaml(s, token);
            var r := VerifyPassword(env, s1, login, t, now);
            && r.next.currentPassword == ""
            && (r.out.Ok? <==> !r.next.authWithSamlActivated)
  {
  }

  /** When the stores are coherent and any value mapped onto the login
      property is the login signing in, a SAML attempt with the right token
      always completes. */
  lemma SamlLoginCompletes(env: Env, s: State, login: string, password: string, now: string)
    requires Coherent(s)
    requires s.authWithSamlActivated && password == s.currentPassword
    requires "login" in s.userAttributesValues ==> s.userAttributesValues["login"] == login
    ensures var r := VerifyPassword(env, s, login, password, now);
            r.out.Ok? && !r.next.authWithSamlActivated && r.next.currentPassword == ""
  {
    if login !in s.users && env.automaticAccountCreation {
      var s1 := s.(currentPassword := "");
      var u0 := CreateUserObject(env, login, password);
      var u1 := if env.jcommunityEnabled then u0.(props := u0.props["status" := Num(1)]) else u0;
      OverlayEffect(u1, s.userAttributesValues);
      var u := NewSamlUser(env, s1, login, password);
      assert Property(u, "login") == Some(Text(login));
      assert u.login !in s1.links;
    }
  }

  /** A wrong token is refused and changes nothing: the mode and the token
      stay as they were. */
  lemma TokenMismatchChangesNothing(env: Env, s: State, login: string, password: string, now: string)
    requires s.authWithSamlActivated && password != s.currentPassword
    ensures VerifyPassword(env, s, login, password, now) == Step(s, Ok(None))
  {
  }

  /** Hence after a wrong token the driver is still in SAML mode: the next
      call, for any login, is refused unless it carries the token, even with
      the user's correct local password. */
  lemma MismatchKeepsSamlMode(env: Env, s: State, login: string, password: string,
                              login2: string, password2: string, now: string)
    requires s.authWithSamlActivated && password != s.currentPassword && password2 != s.currentPassword
    ensures var r := VerifyPassword(env, s, login, password, now);
            VerifyPassword(env, r.next, login2, password2, now) == Step(s, Ok(None))
  {
    TokenMismatchChangesNothing(env, s, login, password, now);
    TokenMismatchChangesNothing(env, s, login2, password2, now);
  }

  /** SAML sign-in of a user that has a link: the count goes up by exactly
      one, lastUsed becomes now, the attribute blob is replaced, firstUsed is
      kept; the user store is not written. */
  lemma SamlLoginBumpsLink(env: Env, s: State, login: string, password: string, now: string)
    requires Keyed(s)
    requires s.authWithSamlActivated && password == s.currentPassword
    requires login in s.users && login in s.links
    ensures var r := VerifyPassword(env, s, login, password, now);
            var a := s.links[login];
            && r.out == Ok(Some(s.users[login]))
            && r.next.users == s.users
            && r.next.links.Keys == s.links.Keys
            && r.next.links[login].login == login
            && r.next.links[login].usageCount == a.usageCount + 1
            && r.next.links[login].firstUsed == a.firstUsed
            && r.next.links[login].lastUsed == now
            && r.next.links[login].samlData == env.encode(s.samlAttributesValues)
            && (forall k :: k in s.links && k != login ==> r.next.links[k] == s.links[k])
            && !r.next.authWithSamlActivated && r.next.currentPassword == ""
            && r.next.samlAttributesValues == s.samlAttributesValues
            && r.next.userAttributesValues == s.userAttributesValues
  {
  }

  /** SAML sign-in of a user without a link creates the first one. */
  lemma SamlLoginCreatesLink(env: Env, s: State, login: string, password: string, now: string)
    requires Keyed(s)
    requires s.authWithSamlActivated && password == s.currentPassword
    requires login in s.users && login !in s.links
    ensures var r := VerifyPassword(env, s, login, password, now);
            && r.out == Ok(Some(s.users[login]))
            && r.next.users == s.users
            && r.next.links == s.links[login := SamlAccount(login, now, now, 1, env.encode(s.samlAttributesValues))]
            && !r.next.authWithSamlActivated && r.next.currentPassword == ""
  {
  }

  /** SAML sign-in of an unknown login without automatic account creation:
      no store changes and no user is returned. */
  lemma SamlLoginUnknownWithoutCreation(env: Env, s: State, login: string, password: string, now: string)
    requires !env.automaticAccountCreation
    requires s.authWithSamlActivated && password == s.currentPassword
    requires login !in s.users
    ensures var r := VerifyPassword(env, s, login, password, now);
            && r == Step(s.(authWithSamlActivated := false, currentPassword := ""), Ok(None))
            && r.next.users == s.users && r.next.links == s.links
  {
  }

  /** SAML sign-in of an unknown login with automatic account creation: the
      new record carries every mapped user attribute, a hash of the spent token
      as password unless an attribute overrides it, status 1 under jCommunity
      unless an attribute overrides it, and gets a first link. */
  lemma SamlLoginCreatesUser(env: Env, s: State, login: string, password: string, now: string)
    requires Coherent(s)
    requires env.automaticAccountCreation
    requires s.authWithSamlActivated && password == s.currentPassword
    requires login !in s.users
    requires "login" in s.userAttributesValues ==> s.userAttributesValues["login"] == login
    ensures var r := VerifyPassword(env, s, login, password, now);
            var vals := s.userAttributesValues;
            && r.out.Ok? && r.out.value.Some?
            && var u := r.out.value.value;
            && r.next.users == s.users[login := u]
            && r.next.links == s.links[login := SamlAccount(login, now, now, 1, env.encode(s.samlAttributesValues))]
            && u.login == login
            && (forall p :: p in vals ==> Property(u, p) == Some(Text(vals[p])))
            && ("password" !in vals ==> u.password == env.crypt(password))
            && (env.jcommunityEnabled && "status" !in vals ==> Property(u, "status") == Some(Num(1)))
            && (!env.jcommunityEnabled ==>
                  forall p :: p != "login" && p != "password" && p !in vals ==> Property(u, p) == None)
            && !r.next.authWithSamlActivated && r.next.currentPassword == ""
  {
    var s1 := s.(currentPassword := "");
    var u0 := CreateUserObject(env, login, password);
    var u1 := if env.jcommunityEnabled then u0.(props := u0.props["status" := Num(1)]) else u0;
    var u := NewSamlUser(env, s1, login, password);
    assert u == Overlay(u1, s.userAttributesValues);
    OverlayEffect(u1, s.userAttributesValues);
    assert Property(u, "login") == Property(u1, "login");
    assert login !in s1.links;
  }

  /** A value mapped onto the login property decides where the new record is
      filed: under that mapped login, not the one signing in. When a record
      with the mapped login exists, the insert raises and the driver stays in
      SAML mode with the token spent; otherwise the record and its first link
      are filed under the mapped login. */
  lemma SamlLoginMappedLogin(env: Env, s: State, login: string, password: string, now: string)
    requires Coherent(s)
    requires env.automaticAccountCreation
    requires s.authWithSamlActivated && password == s.currentPassword
    requires login !in s.users && "login" in s.userAttributesValues
    ensures var r := VerifyPassword(env, s, login, password, now);
            var mapped := s.userAttributesValues["login"];
            && (mapped in s.users ==> r == Step(s.(currentPassword := ""), Err(DuplicateUser)))
            && (mapped !in s.users ==>
                  && r.out.Ok? && r.out.value.Some?
                  && r.out.value.value.login == mapped
                  && r.next.users == s.users[mapped := r.out.value.value]
                  && r.next.links == s.links[mapped := SamlAccount(mapped, now, now, 1, env.encode(s.samlAttributesValues))]
                  && !r.next.authWithSamlActivated && r.next.currentPassword == "")
  {
    var s1 := s.(currentPassword := "");
    var u0 := CreateUserObject(env, login, password);
    var u1 := if env.jcommunityEnabled then u0.(props := u0.props["status" := Num(1)]) else u0;
    var u := NewSamlUser(env, s1, login, password);
    assert u == Overlay(u1, s.userAttributesValues);
    assert u.login == s.userAttributesValues["login"];
    assert u.login !in s.users ==> u.login !in s1.links;
  }

  /** Values left over from an earlier setAttributesMapping call reach the
      record that a later SAML sign-in creates, when the later mapping does
      not deliver that property. */
  lemma {:induction false} StaleAttributeReachesNewUser(env: Env, s: State, saml1: Attributes, mapping1: seq<(string, string)>,
                                                         saml2: Attributes, mapping2: seq<(string, string)>,
                                                         i: nat, login: string, now: string)
    requires Coherent(s)
    requires env.automaticAccountCreation && s.authWithSamlActivated
    requires login !in s.users
    requires forall j, k :: 0 <= j < k < |mapping1| ==> mapping1[j].0 != mapping1[k].0
    requires i < |mapping1| && Present(saml1, mapping1[i].1)
    requires mapping1[i].0 != "login" && mapping1[i].0 != "password"
    requires forall j :: 0 <= j < |mapping2| ==> !Writes(saml2, mapping2[j], mapping1[i].0)
    requires var vals := SetAttributesMapping(SetAttributesMapping(s, saml1, mapping1), saml2, mapping2).userAttributesValues;
             "login" in vals ==> vals["login"] == login
    ensures var s2 := SetAttributesMapping(SetAttributesMapping(s, saml1, mapping1), saml2, mapping2);
            var r := VerifyPassword(env, s2, login, s.currentPassword, now);
            r.out.Ok? && r.out.value.Some? &&
            Property(r.out.value.value, mapping1[i].0) == Some(Text(Picked(saml1[mapping1[i].1])))
  {
    var p := mapping1[i].0;
    var s1 := SetAttributesMapping(s, saml1, mapping1);
    var s2 := SetAttributesMapping(s1, saml2, mapping2);
    MapAttributesDistinct(s.userAttributesValues, saml1, mapping1, i);
    MapAttributesKeeps(s1.userAttributesValues, saml2, mapping2, p);
    assert s2.userAttributesValues[p] == Picked(saml1[mapping1[i].1]);
    assert Coherent(s2);
    SamlLoginCreatesUser(env, s2, login, s.currentPassword, now);
  }

  // ---------------------------------------------------------------------
  // The password path

  /** Outside SAML mode a call is refused, without any write, when the login
      is unknown, when the policy forbids a local password, or when the
      password does not check. */
  lemma PasswordLoginRefused(env: Env, s: State, login: string, password: string, now: string)
    requires !s.authWithSamlActivated
    requires login !in s.users
             || !CanUseLocalPassword(env, s.links, login)
             || env.check(password, s.users[login].password) == Mismatch
    ensures VerifyPassword(env, s, login, password, now) == Step(s, Ok(None))
  {
  }

  /** A password that checks returns the stored record and writes nothing. */
  lemma PasswordLoginAccepted(env: Env, s: State, login: string, password: string, now: string)
    requires !s.authWithSamlActivated && login in s.users
    requires CanUseLocalPassword(env, s.links, login)
    requires env.check(password, s.users[login].password) == Match
    ensures VerifyPassword(env, s, login, password, now) == Step(s, Ok(Some(s.users[login])))
  {
  }

  /** A password that checks against an outdated hash stores the new hash,
      and the returned record is the stored one. */
  lemma PasswordLoginRehashes(env: Env, s: State, login: string, password: string, now: string, h: string)
    requires !s.authWithSamlActivated && login in s.users
    requires CanUseLocalPassword(env, s.links, login)
    requires env.check(password, s.users[login].password) == NewHash(h)
    ensures var r := VerifyPassword(env, s, login, password, now);
            && r.out.Ok? && r.out.value.Some?
            && r.out.value.value.password == h
            && r.next.users[login] == r.out.value.value
            && r.next.users == s.users[login := s.users[login].(password := h)]
            && r.next.links == s.links
            && r.next.(users := s.users) == s
  {
  }

  /** After changePassword the new password signs in, as far as the policy
      lets a local password be used, provided the hashing primitive accepts a
      password against its own hash. */
  lemma ChangePasswordThenLogin(env: Env, s: State, login: string, newPassword: string, now: string)
    requires !s.authWithSamlActivated && login in s.users
    requires env.check(newPassword, env.crypt(newPassword)) == Match
    ensures var c := ChangePassword(env, s, login, newPassword);
            var r := VerifyPassword(env, c.next, login, newPassword, now);
            && c.out == Ok(true)
            && (CanUseLocalPassword(env, s.links, login) ==>
                  r.out == Ok(Some(s.users[login].(password := env.crypt(newPassword)))))
            && (!CanUseLocalPassword(env, s.links, login) ==> r.out == Ok(None))
  {
  }

  /** The password policy and canChangePassword on the three cases. */
  lemma LocalPasswordPolicy(env: Env, s: State, login: string)
    ensures login !in s.links ==> CanChangePassword(env, s, login)
    ensures login in s.links && !env.allowSAMLAccountToUseLocalPassword && login !in env.samlAdmins
            ==> !CanChangePassword(env, s, login)
    ensures env.allowSAMLAccountToUseLocalPassword || login in env.samlAdmins ==> CanChangePassword(env, s, login)
    ensures CanChangePassword(env, s, login) == CanUseLocalPassword(env, s.links, login)
  {
  }

  // ---------------------------------------------------------------------
  // Lookups and removal

  /** removeUser then getUser with the same login finds nothing, and the
      link under the lowercased login is gone too. */
  lemma RemoveThenGetUser(env: Env, s: State, login: string)
    ensures var r := RemoveUser(env, s, login);
            && GetUser(env, r.next, login) == None
            && env.lower(login) !in r.next.links
            && r.next.users == s.users - {env.lower(login)}
            && r.next.links == s.links - {env.lower(login)}
  {
  }

  /** getUser and removeUser lowercase the login, verifyPassword does not: a
      user stored as "bob" is found by getUser("Bob") but a password sign-in
      as "Bob" is refused. */
  lemma VerifyDoesNotLowercase()
    ensures var env := Env(false, false, false, {},
                           (x: string) => if x == "Bob" then "bob" else x,
                           (x: string) => x,
                           (p: string, h: string) => if p == h then Match else Mismatch,
                           (a: Attributes) => "",
                           (l: string, p: string) => false);
            var s := Initial().(users := map["bob" := User("bob", "pw", map[])]);
            && GetUser(env, s, "Bob") == Some(User("bob", "pw", map[]))
            && VerifyPassword(env, s, "Bob", "pw", "") == Step(s, Ok(None))
            && VerifyPassword(env, s, "bob", "pw", "") == Step(s, Ok(Some(User("bob", "pw", map[]))))
  {
  }

  /** updateUser raises for a missing record or an empty login and then
      writes nothing; otherwise it rewrites the row of that login, if any. */
  lemma UpdateUserCases(s: State, arg: Option<User>)
    ensures arg.None? ==> UpdateUser(s, arg) == Step(s, Err(NotAUserRecord))
    ensures arg.Some? && arg.value.login == "" ==> UpdateUser(s, arg) == Step(s, Err(LoginUnset))
    ensures arg.Some? && arg.value.login != "" ==>
              && UpdateUser(s, arg).out == Ok(true)
              && UpdateUser(s, arg).next.users.Keys == s.users.Keys
              && (arg.value.login in s.users ==> UpdateUser(s, arg).next.users[arg.value.login] == arg.value)
              && (forall k :: k in s.users && k != arg.value.login ==> UpdateUser(s, arg).next.users[k] == s.users[k])
              && (arg.value.login !in s.users ==> UpdateUser(s, arg).next.users == s.users)
              && UpdateUser(s, arg).next.links == s.links
  {
  }

  // ---------------------------------------------------------------------
  // The store invariant

  /** With coherent stores saveNewUser never meets an existing link. */
  lemma SaveNewUserNoStaleLink(env: Env, s: State, u: User, now: string)
    requires Coherent(s)
    ensures SaveNewUser(env, s, u, now).out != Err(DuplicateLink)
    ensures SaveNewUser(env, s, u, now).out.Ok? <==> u.login !in s.users
  {
  }

  lemma SaveNewUserKeepsCoherent(env: Env, s: State, u: User, now: string)
    requires Coherent(s)
    ensures Coherent(SaveNewUser(env, s, u, now).next)
  {
  }

  lemma VerifyPasswordKeepsCoherent(env: Env, s: State, login: string, password: string, now: string)
    requires Coherent(s)
    ensures Coherent(VerifyPassword(env, s, login, password, now).next)
  {
    if s.authWithSamlActivated {
      VerifySamlKeepsCoherent(env, s, login, password, now);
    } else {
      VerifyLocalKeepsCoherent(env, s, login, password);
    }
  }

  lemma VerifySamlKeepsCoherent(env: Env, s: State, login: string, password: string, now: string)
    requires Coherent(s)
    ensures Coherent(VerifySaml(env, s, login, password, now).next)
  {
    if s.currentPassword == password {
      var s1 := s.(currentPassword := "");
      if login !in s.users {
        if env.automaticAccountCreation {
          SaveNewUserKeepsCoherent(env, s1, NewSamlUser(env, s1, login, password), now);
        }
      } else {
        TouchLinkKeepsCoherent(env, s1, login, now);
      }
    }
  }

  /** The bookkeeping of a known user's SAML sign-in cannot fail and keeps
      the stores coherent. */
  lemma TouchLinkKeepsCoherent(env: Env, s: State, login: string, now: string)
    requires Coherent(s) && login in s.users
    ensures TouchLink(env, s, login, s.users[login], now).out.Ok?
    ensures Coherent(TouchLink(env, s, login, s.users[login], now).next)
  {
  }

  lemma VerifyLocalKeepsCoherent(env: Env, s: State, login: string, password: string)
    requires Coherent(s)
    ensures Coherent(VerifyLocal(env, s, login, password).next)
  {
  }

  lemma RemoveUserKeepsCoherent(env: Env, s: State, login: string)
    requires Coherent(s)
    ensures Coherent(RemoveUser(env, s, login).next)
  {
  }

  lemma UpdateUserKeepsCoherent(s: State, arg: Option<User>)
    requires Coherent(s)
    ensures Coherent(UpdateUser(s, arg).next)
  {
  }

  lemma ChangePasswordKeepsCoherent(env: Env, s: State, login: string, newPassword: string)
    requires Coherent(s)
    ensures Coherent(ChangePassword(env, s, login, newPassword).next)
  {
  }

  /** The handshake setters touch no store, so they keep it coherent. */
  lemma HandshakeSettersKeepCoherent(s: State, token: string, saml: Attributes, mapping: seq<(string, string)>)
    requires Coherent(s)
    ensures ActivateAuthWithSaml(s, token).0.users == s.users
    ensures ActivateAuthWithSaml(s, token).0.links == s.links
    ensures SetAttributesMapping(s, saml, mapping).users == s.users
    ensures SetAttributesMapping(s, saml, mapping).links == s.links
    ensures Coherent(ActivateAuthWithSaml(s, token).0)
    ensures Coherent(SetAttributesMapping(s, saml, mapping))
  {
  }
}
