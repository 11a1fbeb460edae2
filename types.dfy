/** Values handled by the SAML authentication driver: user records, the
    saml_account link records, SAML attribute sets, and the collaborators the
    driver calls but does not implement (hashing, lowercasing, JSON encoding,
    the store's LIKE match, the ACL and the configuration flags). */
module SamlTypes {

  datatype Option<+T> = None | Some(value: T)

  /** The exceptions the driver raises or lets through from its stores. */
  datatype Error =
    | DuplicateUser   // the user store refused an insert: the login already has a record
    | DuplicateLink   // the saml_account store refused an insert: the login already has a link
    | NotAUserRecord  // updateUser was given something that is not a record
    | LoginUnset      // updateUser was given a record with an empty login

  datatype Result<+T> = Ok(value: T) | Err(error: Error)

  /** A value stored in a user record's extra properties: mapped SAML
      attributes are strings, the jCommunity status is the integer 1. */
  datatype Field = Text(s: string) | Num(n: int)

  /** A record of the user store. `props` holds every property other than
      `login` and `password` that was assigned to the record. */
  datatype User = User(login: string, password: string, props: map<string, Field>)

  /** A record of the saml_account store: one per login that has signed in
      through SAML. Timestamps are the clock's formatted strings. */
  datatype SamlAccount = SamlAccount(
    login: string,
    firstUsed: string,
    lastUsed: string,
    usageCount: int,
    samlData: string)

  /** A SAML attribute as the identity provider delivers it: a single value
      or a list of values. */
  datatype AttrValue = Scalar(s: string) | Multi(values: seq<string>)

  type Attributes = map<string, AttrValue>

  /** What the hashing primitive's checkPassword answers: false, true, or a
      new hash of the same password that should replace the stored one. */
  datatype CheckResult = Mismatch | Match | NewHash(hash: string)

  /** The configuration and the collaborators of one driver instance. */
  datatype Env = Env(
    automaticAccountCreation: bool,
    allowSAMLAccountToUseLocalPassword: bool,
    jcommunityEnabled: bool,
    samlAdmins: set<string>,                   // logins granted 'saml.config.access'
    lower: string -> string,                   // mb_strtolower
    crypt: string -> string,                   // cryptPassword
    check: (string, string) -> CheckResult,    // checkPassword(password, hash)
    encode: Attributes -> string,              // json_encode
    like: (string, string) -> bool)            // like(login, pattern): the store's findByLogin match

  /** The value of property `name` of record `u`, as `$u->name` reads it. */
  function Property(u: User, name: string): Option<Field>
  {
    if name == "login" then Some(Text(u.login))
    else if name == "password" then Some(Text(u.password))
    else if name in u.props then Some(u.props[name])
    else None
  }

  /** `$u->name = v` for a string `v`. */
  function SetProperty(u: User, name: string, v: string): User
  {
    if name == "login" then u.(login := v)
    else if name == "password" then u.(password := v)
    else u.(props := u.props[name := Text(v)])
  }

  /** Assigning a property changes that property and no other. */
  lemma SetPropertyEffect(u: User, name: string, v: string)
    ensures Property(SetProperty(u, name, v), name) == Some(Text(v))
    ensures forall n :: n != name ==> Property(SetProperty(u, name, v), n) == Property(u, n)
  {
  }
}
