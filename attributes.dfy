/** The attribute handling of the driver: how `setAttributesMapping` folds a
    SAML attribute set through the property mapping into the user attribute
    values, and how `verifyPassword` copies those values onto a new record. */
module AttributeMapping {
  import opened SamlTypes

  /** PHP's `!isset($a[$k]) || !$a[$k]` for a present attribute value: the
      empty string, the string "0" and the empty list are false. */
  predicate Falsy(v: AttrValue)
  {
    match v
    case Scalar(s) => s == "" || s == "0"
    case Multi(vs) => vs == []
  }

  /** The attribute is delivered and its value is not false. */
  predicate Present(saml: Attributes, attribute: string)
  {
    attribute in saml && !Falsy(saml[attribute])
  }

  /** The value kept from a delivered attribute: the value itself, or the
      first element of a list. */
  function Picked(v: AttrValue): (r: string)
    requires !Falsy(v)
    ensures v.Scalar? ==> r == v.s
    ensures v.Multi? ==> |v.values| > 0 && r == v.values[0]
  {
    match v
    case Scalar(s) => s
    case Multi(vs) => vs[0]
  }

  /** Entry `entry` of a mapping (property, attribute) assigns `property`. */
  predicate Writes(saml: Attributes, entry: (string, string), property: string)
  {
    entry.0 == property && Present(saml, entry.1)
  }

  /** The user attribute values after the first `|mapping|` iterations of the
      loop of setAttributesMapping, starting from `prev`. */
  function MapAttributes(prev: map<string, string>, saml: Attributes, mapping: seq<(string, string)>): map<string, string>
    decreases |mapping|
  {
    if mapping == [] then prev
    else
      var acc := MapAttributes(prev, saml, mapping[..|mapping| - 1]);
      var entry := mapping[|mapping| - 1];
      if Present(saml, entry.1) then acc[entry.0 := Picked(saml[entry.1])] else acc
  }

  /** Which properties the fold defines: the earlier ones and every property
      whose attribute is present. */
  lemma {:induction false} MapAttributesKeys(prev: map<string, string>, saml: Attributes, mapping: seq<(string, string)>, p: string)
    ensures p in MapAttributes(prev, saml, mapping) <==>
            p in prev || exists i :: 0 <= i < |mapping| && Writes(saml, mapping[i], p)
    decreases |mapping|
  {
    if mapping != [] {
      var init := mapping[..|mapping| - 1];
      MapAttributesKeys(prev, saml, init, p);
      if exists i :: 0 <= i < |mapping| && Writes(saml, mapping[i], p) {
        var i :| 0 <= i < |mapping| && Writes(saml, mapping[i], p);
        if i < |init| {
          assert init[i] == mapping[i];
        }
      }
      if exists i :: 0 <= i < |init| && Writes(saml, init[i], p) {
        var i :| 0 <= i < |init| && Writes(saml, init[i], p);
        assert mapping[i] == init[i];
      }
    }
  }

  /** A property no entry writes keeps its earlier value. */
  lemma {:induction false} MapAttributesKeeps(prev: map<string, string>, saml: Attributes, mapping: seq<(string, string)>, p: string)
    requires p in prev
    requires forall i :: 0 <= i < |mapping| ==> !Writes(saml, mapping[i], p)
    ensures p in MapAttributes(prev, saml, mapping)
    ensures MapAttributes(prev, saml, mapping)[p] == prev[p]
    decreases |mapping|
  {
    if mapping != [] {
      var init := mapping[..|mapping| - 1];
      assert forall i :: 0 <= i < |init| ==> init[i] == mapping[i];
      MapAttributesKeeps(prev, saml, init, p);
      assert !Writes(saml, mapping[|mapping| - 1], p);
    }
  }

  /** A property takes the value picked from the attribute of the last entry
      that writes it. */
  lemma {:induction false} MapAttributesLastWriter(prev: map<string, string>, saml: Attributes, mapping: seq<(string, string)>, i: nat)
    requires i < |mapping| && Present(saml, mapping[i].1)
    requires forall j :: i < j < |mapping| ==> !Writes(saml, mapping[j], mapping[i].0)
    ensures mapping[i].0 in MapAttributes(prev, saml, mapping)
    ensures MapAttributes(prev, saml, mapping)[mapping[i].0] == Picked(saml[mapping[i].1])
    decreases |mapping|
  {
    var init := mapping[..|mapping| - 1];
    if i < |init| {
      assert init[i] == mapping[i];
      assert forall j :: i < j < |init| ==> init[j] == mapping[j];
      MapAttributesLastWriter(prev, saml, init, i);
      assert !Writes(saml, mapping[|mapping| - 1], mapping[i].0);
    }
  }

  /** The mapping of setAttributesMapping is a PHP array, so its properties
      are distinct; then every property whose attribute is present takes that
      attribute's picked value. */
  lemma MapAttributesDistinct(prev: map<string, string>, saml: Attributes, mapping: seq<(string, string)>, i: nat)
    requires forall j, k :: 0 <= j < k < |mapping| ==> mapping[j].0 != mapping[k].0
    requires i < |mapping| && Present(saml, mapping[i].1)
    ensures mapping[i].0 in MapAttributes(prev, saml, mapping)
    ensures MapAttributes(prev, saml, mapping)[mapping[i].0] == Picked(saml[mapping[i].1])
  {
    MapAttributesLastWriter(prev, saml, mapping, i);
  }

  /** `{"mail": ["a@example.org"]}` through `{"email": "mail"}` on a fresh
      driver gives `{"email": "a@example.org"}`. */
  lemma MapAttributesExample()
    ensures MapAttributes(map[], map["mail" := Multi(["a@example.org"])], [("email", "mail")])
            == map["email" := "a@example.org"]
  {
    var saml := map["mail" := Multi(["a@example.org"])];
    assert Present(saml, "mail");
  }

  /** The record after `foreach ($vals as $property => $value) $user->$property = $value`. */
  function Overlay(u: User, vals: map<string, string>): User
  {
    User(
      if "login" in vals then vals["login"] else u.login,
      if "password" in vals then vals["password"] else u.password,
      u.props + ExtraProps(vals))
  }

  /** The values of `vals` that land in a record's extra properties. */
  function ExtraProps(vals: map<string, string>): map<string, Field>
  {
    map p | p in vals && p != "login" && p != "password" :: Text(vals[p])
  }

  /** After the copy every user attribute value is the record's property of
      that name, and every other property is as it was. */
  lemma OverlayEffect(u: User, vals: map<string, string>)
    ensures forall p :: p in vals ==> Property(Overlay(u, vals), p) == Some(Text(vals[p]))
    ensures forall p :: p !in vals ==> Property(Overlay(u, vals), p) == Property(u, p)
  {
  }

  lemma ExtraPropsAdd(vals: map<string, string>, p: string, v: string)
    requires p !in vals
    ensures p == "login" || p == "password" ==> ExtraProps(vals[p := v]) == ExtraProps(vals)
    ensures p != "login" && p != "password" ==> ExtraProps(vals[p := v]) == ExtraProps(vals)[p := Text(v)]
  {
    if p != "login" && p != "password" {
      assert ExtraProps(vals[p := v]) == ExtraProps(vals)[p := Text(v)];
    } else {
      assert ExtraProps(vals[p := v]) == ExtraProps(vals);
    }
  }

  lemma OverlayAdd(u: User, vals: map<string, string>, p: string, v: string)
    requires p !in vals
    ensures Overlay(u, vals[p := v]) == SetProperty(Overlay(u, vals), p, v)
  {
    ExtraPropsAdd(vals, p, v);
  }

  /** The copy loop of verifyPassword; the values are assigned one property
      at a time, in whatever order the array holds them. */
  method ApplyUserAttributes(u: User, vals: map<string, string>) returns (r: User)
    ensures r == Overlay(u, vals)
  {
    r := u;
    var todo := vals.Keys;
    while todo != {}
      invariant todo <= vals.Keys
      invariant r == Overlay(u, vals - todo)
      decreases todo
    {
      var p :| p in todo;
      OverlayAdd(u, vals - todo, p, vals[p]);
      assert (vals - todo)[p := vals[p]] == vals - (todo - {p});
      r := SetProperty(r, p, vals[p]);
      todo := todo - {p};
    }
    assert vals - {} == vals;
  }
}
