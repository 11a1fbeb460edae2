# SAML authentication driver: a verified model

This project models `samlAuthDriver`, the authentication driver of the Jelix
SAML module (`saml/plugins/auth/saml/saml.auth.php`). The driver links a
SAML sign-in, which has already been validated, to a local user record.

- **The SAML mode handshake.** `activateAuthWithSaml` sets a flag and stores
  a one-time random password. The framework's ordinary login call then reaches
  `verifyPassword` with that password. In SAML mode, `verifyPassword` compares
  the password with the token. It then finds the user, or creates one when
  automatic account creation is on. Finally it records the sign-in in the
  `saml_account` store.
- **The local-password policy.** `canUseLocalPassword` and
  `canChangePassword` forbid local passwords for an account that has signed in
  through SAML. The configuration or an ACL right can allow them again.
- **The stores.** The user store and the `saml_account` link store are maps
  keyed by login. The driver inserts, updates and deletes their entries.
- **Attribute mapping.** `setAttributesMapping` folds the SAML attribute set
  through a property mapping into the user attribute values. Those values are
  copied onto any record created at sign-in.

The project has five modules:

- `SamlTypes` (`types.dfy`) holds the records, the attribute values, the
  three-way result of `checkPassword`, and `Env`. `Env` carries the
  configuration flags and the collaborators the driver calls but does not
  implement.
- `AttributeMapping` (`attributes.dfy`) holds the fold of
  `setAttributesMapping` and the loop that copies attributes onto a record.
- `SamlSpec` (`driver_spec.dfy`) is the driver as a state machine over values.
  It has one function per operation, which gives the next state and the result
  or the raised error.
- `SamlProperties` (`driver_properties.dfy`) holds the lemmas about those
  functions. They cover the handshake, the link bookkeeping, the password
  path, and the invariant that every link belongs to a user and counts at
  least one sign-in.
- `SamlAuthDriver` (`driver.dfy`) holds the class `Driver`. Its fields are
  the flag, the token, the two attribute arrays and the two stores. Its methods
  change those fields step by step. Each method is proved equal to its
  `SamlSpec` function. `SaveNewUser`, `RemoveUser`, `UpdateUser`,
  `ChangePassword` and `VerifyPassword` are also proved to keep the stores
  coherent. The other methods are not: `CreateSamlAccount` on its own can
  insert a link for a login that has no user record, and the helpers
  `UpdatePassword`, `VerifySaml` and `VerifyLocal` are covered through
  `ChangePassword` and `VerifyPassword`. `verifyPassword` dispatches to two
  methods, one for the SAML branch and one for the login/password branch.
  The read-only members `GetUser`, `GetUserList`, `CreateUserObject`,
  `CanUseLocalPassword` and `CanChangePassword` return the `SamlSpec`
  function on the current fields. `GetSAMLAttributes` and `GetUserAttributes`
  return the field itself.

Collaborators are parameters of the model:

- password hashing (`crypt`) and checking (`check`, which answers `Mismatch`,
  `Match` or `NewHash(h)`);
- lowercasing (`lower`);
- JSON encoding (`encode`);
- the store's `findByLogin` match (`like`);
- the ACL, as the set of logins granted `saml.config.access`;
- the `jcommunity` module flag;
- the configuration flags `automaticAccountCreation` and
  `allowSAMLAccountToUseLocalPassword`.

The clock and the random password generator are inputs to the operations
(`now`, `token`).

The model follows the code in these places:

- A wrong token in SAML mode returns false and keeps both the flag and the
  token. The flag is cleared only at the end of a completed SAML sign-in.
  So after a failed attempt, the next call is still in SAML mode and refuses
  even the user's correct local password (`MismatchKeepsSamlMode`).
- `verifyPassword` looks the login up as given. `getUser` and `removeUser`
  lowercase it first (`VerifyDoesNotLowercase`).
- `createUserObject` does not normalise the login.
- `jAuth::saveNewUser`, called from `verifyPassword`, is modelled as a call to
  this driver's `saveNewUser`. The flag is still set at that point, so the
  new user also gets its first link.
- `setAttributesMapping` never clears earlier user attribute values. A value
  from an earlier call can therefore reach a record created later
  (`StaleAttributeReachesNewUser`).

Store semantics:

- An insert under an existing key raises an error, as the database's primary
  key does. When that happens after the user insert of `saveNewUser`, the user
  row stays written.
- An update or delete of a missing row changes nothing.

## Model

| member | source | states |
|---|---|---|
| `SamlTypes.SetPropertyEffect` | saml/plugins/auth/saml/saml.auth.php:153-155 | assigning a property of a record changes that property to the value and leaves every other property as it was |
| `AttributeMapping.Falsy` | saml/plugins/auth/saml/saml.auth.php:227 | definition: PHP's false for a delivered value (`""`, `"0"`, the empty list); used by `Present` |
| `AttributeMapping.Present` | saml/plugins/auth/saml/saml.auth.php:227 | definition: the attribute is set and not false; its effect on the fold is stated in `MapAttributesKeys` and `MapAttributesLastWriter` |
| `AttributeMapping.MapAttributes` | saml/plugins/auth/saml/saml.auth.php:226-235 | definition of the mapping loop as a fold over the entries; its properties are stated in `MapAttributesKeys`, `MapAttributesKeeps` and `MapAttributesLastWriter`, and `Driver.SetAttributesMapping` is proved equal to it |
| `AttributeMapping.Overlay` | saml/plugins/auth/saml/saml.auth.php:153-155 | definition of the record after the attribute copy; its properties are stated in `OverlayEffect`, and `ApplyUserAttributes` is proved equal to it |
| `AttributeMapping.Picked` | saml/plugins/auth/saml/saml.auth.php:230-233 | a delivered attribute contributes its value, or the first element when it is a list |
| `AttributeMapping.MapAttributesKeys` | saml/plugins/auth/saml/saml.auth.php:222-236 | after the mapping loop, a property has a value exactly when it had one before or some mapping entry for it names a present, non-empty attribute |
| `AttributeMapping.MapAttributesKeeps` | saml/plugins/auth/saml/saml.auth.php:222-236 | a property that no entry writes keeps its previous value, because the user attribute values are never reset |
| `AttributeMapping.MapAttributesLastWriter` | saml/plugins/auth/saml/saml.auth.php:226-235 | a property takes the value picked from the attribute of the last entry that writes it; absent or empty attributes are skipped |
| `AttributeMapping.MapAttributesDistinct` | saml/plugins/auth/saml/saml.auth.php:226-235 | with the distinct properties of a PHP array, every property whose attribute is present takes that attribute's picked value |
| `AttributeMapping.MapAttributesExample` | saml/plugins/auth/saml/saml.auth.php:222-236 | `{"mail": ["a@example.org"]}` through `{"email": "mail"}` yields `{"email": "a@example.org"}` |
| `AttributeMapping.OverlayEffect` | saml/plugins/auth/saml/saml.auth.php:153-155 | after the copy, every user attribute value is the record's property of that name, and every other property is unchanged |
| `AttributeMapping.ApplyUserAttributes` | saml/plugins/auth/saml/saml.auth.php:153-155 | the property-by-property copy loop yields exactly `Overlay`, whatever order it visits the keys in |
| `SamlSpec.UpdateRow` | saml/plugins/auth/saml/saml.auth.php:81-82 | the user DAO's update keeps the set of logins, puts the record in the row of its own login when that row exists, and leaves every other row as it was |
| `SamlSpec.UpdatePassword` | saml/plugins/auth/saml/saml.auth.php:189-191 | the DAO's updatePassword changes only the password of the given login's row; the other rows and the set of logins are unchanged |
| `SamlSpec.CanUseLocalPassword` | saml/plugins/auth/saml/saml.auth.php:198-216 | true iff the global allow flag is set, or the login has no link, or the login holds `saml.config.access` |
| `SamlSpec.CanChangePassword` | saml/plugins/auth/saml/saml.auth.php:110-113 | the same three-way disjunction as `canUseLocalPassword` |
| `SamlSpec.CreateUserObject` | saml/plugins/auth/saml/saml.auth.php:94-99 | the new record has the login as given and the hash of the password; no other property is assigned |
| `SamlSpec.ActivateAuthWithSaml` | saml/plugins/auth/saml/saml.auth.php:126-131 | sets the flag, stores the token, returns exactly the stored token, and changes nothing else |
| `SamlSpec.CreateSamlAccount` | saml/plugins/auth/saml/saml.auth.php:49-58 | definition; `Driver.CreateSamlAccount` is proved equal to it, and the new link is stated in `SamlLoginCreatesLink` |
| `SamlSpec.SaveNewUser` | saml/plugins/auth/saml/saml.auth.php:38-47 | definition; properties in `SaveNewUserNoStaleLink` and `SaveNewUserKeepsCoherent` |
| `SamlSpec.RemoveUser` | saml/plugins/auth/saml/saml.auth.php:60-70 | definition; properties in `RemoveThenGetUser` and `RemoveUserKeepsCoherent` |
| `SamlSpec.UpdateUser` | saml/plugins/auth/saml/saml.auth.php:72-84 | definition; properties in `UpdateUserCases` and `UpdateUserKeepsCoherent` |
| `SamlSpec.ChangePassword` | saml/plugins/auth/saml/saml.auth.php:115-118 | definition; properties in `ChangePasswordThenLogin` and `ChangePasswordKeepsCoherent` |
| `SamlSpec.SetAttributesMapping` | saml/plugins/auth/saml/saml.auth.php:222-236 | definition; properties in `HandshakeSettersKeepCoherent` and `StaleAttributeReachesNewUser` |
| `SamlSpec.NewSamlUser` | saml/plugins/auth/saml/saml.auth.php:147-155 | definition of the record built for an unknown login; properties in `SamlLoginCreatesUser` and `SamlLoginMappedLogin` |
| `SamlSpec.TouchLink` | saml/plugins/auth/saml/saml.auth.php:159-170 | definition; properties in `SamlLoginBumpsLink`, `SamlLoginCreatesLink` and `TouchLinkKeepsCoherent` |
| `SamlSpec.VerifyPassword` | saml/plugins/auth/saml/saml.auth.php:133-195 | definition: the SAML branch when the flag is set, else the password branch; properties in `ActivateThenVerifySpendsToken` and `VerifyPasswordKeepsCoherent` |
| `SamlSpec.VerifySaml` | saml/plugins/auth/saml/saml.auth.php:138-172 | definition; properties in `SamlLoginCompletes`, `TokenMismatchChangesNothing`, `SamlLoginBumpsLink`, `SamlLoginCreatesLink`, `SamlLoginUnknownWithoutCreation`, `SamlLoginCreatesUser`, `SamlLoginMappedLogin` and `VerifySamlKeepsCoherent` |
| `SamlSpec.VerifyLocal` | saml/plugins/auth/saml/saml.auth.php:174-194 | definition; properties in `PasswordLoginRefused`, `PasswordLoginAccepted`, `PasswordLoginRehashes` and `VerifyLocalKeepsCoherent` |
| `SamlSpec.GetUser` | saml/plugins/auth/saml/saml.auth.php:86-92 | finds a record exactly when the lowercased login has one, and returns that record |
| `SamlSpec.GetUserList` | saml/plugins/auth/saml/saml.auth.php:101-108 | `"%"` and `""` return every record; any other pattern returns exactly the records the store's match accepts |
| `SamlProperties.ActivateThenVerifySpendsToken` | saml/plugins/auth/saml/saml.auth.php:126-172 | a SAML attempt with the returned token leaves the token empty; the flag is false exactly when the attempt raised no store error |
| `SamlProperties.SamlLoginCompletes` | saml/plugins/auth/saml/saml.auth.php:138-172 | with coherent stores, and a mapped `login` value, if any, equal to the login signing in, a SAML attempt with the right token succeeds and leaves SAML mode |
| `SamlProperties.TokenMismatchChangesNothing` | saml/plugins/auth/saml/saml.auth.php:138-142 | a wrong token returns false and leaves the flag, the token and both stores unchanged |
| `SamlProperties.MismatchKeepsSamlMode` | saml/plugins/auth/saml/saml.auth.php:138-142 | after a wrong token, the next call for any login is refused unless it carries the token |
| `SamlProperties.SamlLoginBumpsLink` | saml/plugins/auth/saml/saml.auth.php:159-167 | a known user with a link is returned unchanged; its link count goes up by exactly 1, `lastUsed` becomes now, the blob becomes the encoded attributes, `firstUsed` and all other links are kept |
| `SamlProperties.SamlLoginCreatesLink` | saml/plugins/auth/saml/saml.auth.php:159-172 | a known user without a link gets one with count 1 and `firstUsed == lastUsed == now`; the user store is unchanged |
| `SamlProperties.SamlLoginUnknownWithoutCreation` | saml/plugins/auth/saml/saml.auth.php:146-158 | without automatic creation, an unknown login returns no user and neither store changes |
| `SamlProperties.SamlLoginCreatesUser` | saml/plugins/auth/saml/saml.auth.php:146-157 | with automatic creation, and a mapped `login` value, if any, equal to the login signing in, the inserted record carries every mapped attribute, the hashed token as password and status 1 under jCommunity (unless an attribute overrides these), and gets a link with count 1 |
| `SamlProperties.SamlLoginMappedLogin` | saml/plugins/auth/saml/saml.auth.php:146-157 | with automatic creation, a mapped `login` value decides where the new record goes: if that login has a record, the insert raises a duplicate error, the token is spent and SAML mode stays on; otherwise the record and a first link are filed under the mapped login |
| `SamlProperties.StaleAttributeReachesNewUser` | saml/plugins/auth/saml/saml.auth.php:222-236 | a value mapped by an earlier `setAttributesMapping` call and not rewritten by a later one ends up on the record created at sign-in |
| `SamlProperties.PasswordLoginRefused` | saml/plugins/auth/saml/saml.auth.php:174-186 | outside SAML mode, an unknown login, a forbidden local password or a failed check returns false and writes nothing |
| `SamlProperties.PasswordLoginAccepted` | saml/plugins/auth/saml/saml.auth.php:184-194 | a check answering true returns the stored record and writes nothing |
| `SamlProperties.PasswordLoginRehashes` | saml/plugins/auth/saml/saml.auth.php:184-194 | a check answering a new hash stores it for that login only, and the returned record equals the stored one |
| `SamlProperties.ChangePasswordThenLogin` | saml/plugins/auth/saml/saml.auth.php:115-118 | after `changePassword`, the new password signs in exactly when the local-password policy allows it (given a hash that checks against itself) |
| `SamlProperties.LocalPasswordPolicy` | saml/plugins/auth/saml/saml.auth.php:198-216 | no link gives true; a link without the flag or the right gives false; the flag or the right gives true; `canChangePassword` equals `canUseLocalPassword` |
| `SamlProperties.RemoveThenGetUser` | saml/plugins/auth/saml/saml.auth.php:60-70 | `removeUser` drops the link and the user under the lowercased login, so `getUser` then finds nothing |
| `SamlProperties.VerifyDoesNotLowercase` | saml/plugins/auth/saml/saml.auth.php:133-136 | a record stored as `bob` is found by `getUser("Bob")`, but a password sign-in as `Bob` is refused |
| `SamlProperties.UpdateUserCases` | saml/plugins/auth/saml/saml.auth.php:72-84 | a non-record or an empty login raises and writes nothing; otherwise the call returns true and rewrites only that login's row |
| `SamlProperties.SaveNewUserNoStaleLink` | saml/plugins/auth/saml/saml.auth.php:38-58 | with coherent stores, `saveNewUser` never meets an existing link; it succeeds exactly when the login is new |
| `SamlProperties.SaveNewUserKeepsCoherent` | saml/plugins/auth/saml/saml.auth.php:38-58 | `saveNewUser` keeps every link tied to a user and counting at least one sign-in |
| `SamlProperties.VerifyPasswordKeepsCoherent` | saml/plugins/auth/saml/saml.auth.php:133-195 | `verifyPassword` keeps the stores coherent on every path, including the error paths |
| `SamlProperties.VerifySamlKeepsCoherent` | saml/plugins/auth/saml/saml.auth.php:138-172 | the SAML branch keeps the stores coherent, whether it creates a user, bumps or creates a link, or raises |
| `SamlProperties.TouchLinkKeepsCoherent` | saml/plugins/auth/saml/saml.auth.php:159-170 | for a known user of coherent stores, the link bookkeeping cannot raise and keeps the stores coherent |
| `SamlProperties.VerifyLocalKeepsCoherent` | saml/plugins/auth/saml/saml.auth.php:174-193 | the login/password branch, including a rehash, keeps the stores coherent |
| `SamlProperties.RemoveUserKeepsCoherent` | saml/plugins/auth/saml/saml.auth.php:60-70 | removing the link and the user under the same key keeps the stores coherent |
| `SamlProperties.UpdateUserKeepsCoherent` | saml/plugins/auth/saml/saml.auth.php:72-84 | `updateUser` keeps the stores coherent |
| `SamlProperties.ChangePasswordKeepsCoherent` | saml/plugins/auth/saml/saml.auth.php:115-118 | `changePassword` keeps the stores coherent |
| `SamlProperties.HandshakeSettersKeepCoherent` | saml/plugins/auth/saml/saml.auth.php:126-131 | activating SAML mode and mapping attributes leave both stores unchanged, so they stay coherent |
| `SamlAuthDriver.Driver.constructor` | saml/plugins/auth/saml/saml.auth.php:14-36 | a new driver is out of SAML mode with no attributes, over the given stores |
| `SamlAuthDriver.Driver.CreateSamlAccount` | saml/plugins/auth/saml/saml.auth.php:49-58 | inserts a link with count 1, `firstUsed == lastUsed == now` and the encoded attributes, or raises when the login already has one |
| `SamlAuthDriver.Driver.GetSAMLAttributes` | saml/plugins/auth/saml/saml.auth.php:238-240 | returns the SAML attributes field; after `SetAttributesMapping` it is the attribute set passed in (see that row) |
| `SamlAuthDriver.Driver.GetUserAttributes` | saml/plugins/auth/saml/saml.auth.php:242-244 | returns the user attribute values field; after `SetAttributesMapping` it is the `MapAttributes` fold over the old values (see that row) |
| `SamlAuthDriver.Driver.SaveNewUser` | saml/plugins/auth/saml/saml.auth.php:38-47 | inserts the record and, in SAML mode, its first link; equals `SamlSpec.SaveNewUser` and keeps the stores coherent |
| `SamlAuthDriver.Driver.RemoveUser` | saml/plugins/auth/saml/saml.auth.php:60-70 | deletes the link, then the user, under the lowercased login; equals `SamlSpec.RemoveUser` |
| `SamlAuthDriver.Driver.UpdateUser` | saml/plugins/auth/saml/saml.auth.php:72-84 | raises on a non-record or an empty login, otherwise updates; equals `SamlSpec.UpdateUser` |
| `SamlAuthDriver.Driver.UpdatePassword` | saml/plugins/auth/saml/saml.auth.php:189-191 | replaces the password of the login's row, if any, and reports whether there was one |
| `SamlAuthDriver.Driver.ChangePassword` | saml/plugins/auth/saml/saml.auth.php:115-118 | stores the hash of the new password; equals `SamlSpec.ChangePassword` |
| `SamlAuthDriver.Driver.ActivateAuthWithSaml` | saml/plugins/auth/saml/saml.auth.php:126-131 | sets the flag and the token and returns the token |
| `SamlAuthDriver.Driver.SetAttributesMapping` | saml/plugins/auth/saml/saml.auth.php:222-236 | replaces the SAML attributes; the loop leaves the user attribute values equal to the `MapAttributes` fold over the old values; the two getters then return these |
| `SamlAuthDriver.Driver.VerifyPassword` | saml/plugins/auth/saml/saml.auth.php:133-195 | equals `SamlSpec.VerifyPassword` on state and result, and keeps the stores coherent |
| `SamlAuthDriver.Driver.VerifySaml` | saml/plugins/auth/saml/saml.auth.php:135-173 | the SAML branch, step by step: token test, token cleared, user created or link bumped or created, flag cleared; equals `SamlSpec.VerifySaml` |
| `SamlAuthDriver.Driver.VerifyLocal` | saml/plugins/auth/saml/saml.auth.php:174-194 | the login/password branch, step by step, with the rehash written through `updatePassword`; equals `SamlSpec.VerifyLocal` |
| `SamlAuthDriver.SignInWithSaml` | saml/plugins/auth/saml/saml.auth.php:120-131 | when the mapped `login` value, if any, is the login signing in, mapping the attributes, activating, then verifying with the returned token succeeds. It spends the token and updates or creates the link. It returns the known user, or the created one when creation is on, or none |

## Left out

- The constructor's merge of the application configuration and its error for a missing DAO selector. The model starts from given stores and an `Env`.
- The data-access layer. Both stores are maps with exact string keys. A database whose collation ignores case would match logins that the model keeps apart.
- Which properties the user DAO persists. A record keeps every property assigned to it, including properties the DAO's table lacks.
- SamlSpec.CreateUserObject: `jDao::createRecord` gives the new record every property the DAO declares, at its default value. The model's record starts with no extra property, so "no other property" means none assigned by the driver.
- The store's pattern search behind `findByLogin`. It is the abstract `like`.
- Store errors other than a duplicate key on insert, such as a lost connection.
- `cryptPassword` and `checkPassword`. They are abstract functions in `Env`.
- `jAuth::getRandomPassword`, which is the `token` input, and `date()`, which is the `now` input.
- SamlSpec.CreateSamlAccount: `createSAMLAccount` calls `date()` twice, once for `firstUsed` and once for `lastUsed`. The model reads one `now` for both, so `firstUsed == lastUsed` assumes both calls fall in the same second.
- `json_encode` (abstract `encode`), `jAcl2::checkByUser` (a set of logins) and `jApp::isModuleEnabled` (a flag).
- `mb_strtolower`. It is the abstract `lower`, and the model assumes it exists. Without the mbstring extension the driver does not lowercase at all.
- PHP loose comparison. The token test and the empty-login test are plain string equality. PHP 8 treats two numeric strings such as `"1e3"` and `"1000"` as equal.
- PHP truthiness. An attribute is skipped when it is `""`, `"0"` or an empty list. A list value is taken as a 0-indexed list.
- Array order. The mapping is a sequence, so its order is kept. The copied user attribute values have distinct keys, and the copy loop is proved for every visiting order. The SAML attributes, however, are a map: `json_encode` of that PHP array depends on its order, which the abstract `encode` of a map cannot see. So the model does not say which order the stored `samlData` blob has.
- SamlSpec.ChangePassword: the DAO's `updatePassword` returns an affected-row count. The model returns whether a row with that login existed.
- SamlAuthDriver.SignInWithSaml: it models the host framework's call sequence, which the driver's doc comment asks for, not code in the driver.
- The events that `jAuth::saveNewUser` fires after the driver's `saveNewUser`.
- Integer width. `usageCount` is unbounded, whereas PHP would switch to a float after 2^63 - 1.
- The SAML protocol itself (assertions, signatures, metadata) and concurrent use of one driver instance.
