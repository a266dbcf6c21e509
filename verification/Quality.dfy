/** The schema validator and the quality decision. */
module Quality {
  import opened Collections
  import opened JsonValues

  // ----- Values and schemas -----

  type Amount = Figure<real>

  type Data = Json<Amount>

  /** What the validator may look at: data, or what an object inherits from Object.prototype. */
  datatype Value = Plain(json: Data) | Native | RootObject

  /** `kind` is the type keyword, "" when it is absent. */
  datatype Schema = Schema(
    kind: string,
    allowed: Option<seq<Data>>,
    required: seq<string>,
    properties: seq<Property>,
    items: Option<Schema>)

  datatype Property = Property(key: string, schema: Schema)

  const INHERITED := {
    "constructor", "hasOwnProperty", "isPrototypeOf", "propertyIsEnumerable", "toLocaleString", "toString", "valueOf",
    "__defineGetter__", "__defineSetter__", "__lookupGetter__", "__lookupSetter__", "__proto__"}

  function Own(fields: seq<Field<Amount>>, key: string): (r: Option<Data>)
    ensures r.Some? <==> key in Keys(fields)
    ensures r.Some? ==> Field(key, r.value) in fields
  {
    if fields == [] then None
    else if fields[0].key == key then
      assert Keys(fields)[0] == key;
      Some(fields[0].value)
    else
      assert key in Keys(fields) <==> key in Keys(fields[1..]) by { OtherKey(fields, key); }
      Own(fields[1..], key)
  }

  lemma OtherKey(fields: seq<Field<Amount>>, key: string)
    requires fields != [] && fields[0].key != key
    ensures key in Keys(fields) <==> key in Keys(fields[1..])
  {
    assert Keys(fields) == [fields[0].key] + Keys(fields[1..]);
  }

  predicate IsObject(v: Value) {
    v.RootObject? || (v.Plain? && v.json.Object?)
  }

  predicate IsArray(v: Value) {
    v.Plain? && v.json.Array?
  }

  /** obj[key], or None when `key in obj` is false. */
  function Member(v: Value, key: string): Option<Value>
    requires IsObject(v)
  {
    if v.Plain? && Own(v.json.fields, key).Some? then Some(Plain(Own(v.json.fields, key).value))
    else if key !in INHERITED then None
    else if key != "__proto__" then Some(Native)
    else if v.Plain? then Some(RootObject)
    else Some(Plain(Null))
  }

  /** matchesType, and the guard that skips it. */
  predicate HasType(v: Value, kind: string) {
    if kind == "object" then IsObject(v)
    else if kind == "array" then IsArray(v)
    else if kind == "string" then v.Plain? && v.json.Text?
    else if kind == "number" then v.Plain? && v.json.Number? && v.json.n.Finite?
    else if kind == "integer" then
      v.Plain? && v.json.Number? && v.json.n.Finite? && v.json.n.value.Floor as real == v.json.n.value
    else if kind == "boolean" then v.Plain? && v.json.Bool?
    else if kind == "null" then v.Plain? && v.json.Null?
    else true
  }

  predicate Primitive(x: Data) {
    !x.Array? && !x.Object?
  }

  /** enum.includes(value): objects and arrays are compared by identity, so never found. */
  predicate Listed(v: Value, allowed: seq<Data>) {
    v.Plain? && Primitive(v.json) && v.json in allowed
  }

  // ----- What it means to conform -----

  ghost predicate Conforms(v: Value, s: Schema)
    decreases s
  {
    && HasType(v, s.kind)
    && (s.allowed.Some? ==> Listed(v, s.allowed.value))
    && (s.kind == "object" && IsObject(v) ==>
          && (forall key :: key in s.required ==> Member(v, key).Some?)
          && forall p :: p in s.properties && Member(v, p.key).Some? ==> Conforms(Member(v, p.key).value, p.schema))
    && (s.kind == "array" && IsArray(v) && s.items.Some? ==>
          forall x :: x in v.json.items ==> Conforms(Plain(x), s.items.value))
  }

  // ----- What the validator reports -----

  datatype Step = Key(key: string) | Index(i: nat)

  datatype Flaw = WrongType | NotListed | Missing

  datatype Problem = Problem(path: seq<Step>, flaw: Flaw)

  /** There is a flaw at a path: following it through value and schema leads to a place that breaks one of the rules. */
  ghost predicate Flawed(v: Value, s: Schema, path: seq<Step>, flaw: Flaw)
    decreases s, 0
  {
    if !HasType(v, s.kind) then path == [] && flaw == WrongType
    else
      || (path == [] && flaw == NotListed && s.allowed.Some? && !Listed(v, s.allowed.value))
      || (s.kind == "object" && IsObject(v) &&
        (KeyMissing(v, s.required, path, flaw) || PropertyFlawed(v, s.properties, path, flaw)))
      || (s.kind == "array" && IsArray(v) && s.items.Some? && ItemFlawed(v.json.items, s.items.value, path, flaw))
  }

  ghost predicate KeyMissing(v: Value, required: seq<string>, path: seq<Step>, flaw: Flaw)
    requires IsObject(v)
  {
    flaw == Missing && |path| == 1 && path[0].Key? && path[0].key in required && Member(v, path[0].key).None?
  }

  ghost predicate PropertyFlawed(v: Value, properties: seq<Property>, path: seq<Step>, flaw: Flaw)
    requires IsObject(v)
    decreases properties, 0
  {
    && path != []
    && (exists p :: p in properties && path[0] == Key(p.key) && Member(v, p.key).Some? &&
          Flawed(Member(v, p.key).value, p.schema, path[1..], flaw))
  }

  ghost predicate ItemFlawed(items: seq<Data>, s: Schema, path: seq<Step>, flaw: Flaw)
    decreases s, 1
  {
    path != [] && path[0].Index? && path[0].i < |items| && Flawed(Plain(items[path[0].i]), s, path[1..], flaw)
  }

  function Errors(v: Value, s: Schema, path: seq<Step>): seq<Problem>
    decreases s, 0
  {
    if !HasType(v, s.kind) then [Problem(path, WrongType)]
    else
      UnlistedErrors(v, s.allowed, path)
      + (if s.kind == "object" && IsObject(v)
         then MissingErrors(v, s.required, path) + PropertyErrors(v, s.properties, path)
         else [])
      + (if s.kind == "array" && IsArray(v) && s.items.Some? then ItemErrors(v.json.items, s.items.value, path) else [])
  }

  function UnlistedErrors(v: Value, allowed: Option<seq<Data>>, path: seq<Step>): seq<Problem> {
    if allowed.Some? && !Listed(v, allowed.value) then [Problem(path, NotListed)] else []
  }

  function MissingErrors(v: Value, required: seq<string>, path: seq<Step>): seq<Problem>
    requires IsObject(v)
  {
    if required == [] then []
    else
      var front, key := MissingErrors(v, required[..|required| - 1], path), required[|required| - 1];
      if Member(v, key).None? then front + [Problem(path + [Key(key)], Missing)] else front
  }

  function PropertyErrors(v: Value, properties: seq<Property>, path: seq<Step>): seq<Problem>
    requires IsObject(v)
    decreases properties, 0
  {
    if properties == [] then []
    else
      var front, p := PropertyErrors(v, properties[..|properties| - 1], path), properties[|properties| - 1];
      if Member(v, p.key).Some? then front + Errors(Member(v, p.key).value, p.schema, path + [Key(p.key)]) else front
  }

  function ItemErrors(items: seq<Data>, s: Schema, path: seq<Step>): seq<Problem>
    decreases s, 1 + |items|
  {
    if items == [] then []
    else
      var i := |items| - 1;
      ItemErrors(items[..i], s, path) + Errors(Plain(items[i]), s, path + [Index(i)])
  }

  /** Below `path`, the problem names a flaw of the value. */
  ghost predicate Found(q: Problem, v: Value, s: Schema, path: seq<Step>) {
    path <= q.path && Flawed(v, s, q.path[|path|..], q.flaw)
  }

  /** Every reported problem is a flaw at its path, and every flaw is reported. */
  lemma {:induction false} ErrorsExact(v: Value, s: Schema, path: seq<Step>, q: Problem)
    ensures q in Errors(v, s, path) <==> Found(q, v, s, path)
    decreases s, 0
  {
    hide KeyMissing, PropertyFlawed, ItemFlawed, Listed, MissingErrors, PropertyErrors, ItemErrors, Member;
    assert path <= q.path && q.path[|path|..] == [] <==> q.path == path;
    if HasType(v, s.kind) {
      if s.kind == "object" {
        MissingExact(v, s.required, path, q);
        PropertiesExact(v, s.properties, path, q);
      } else if s.kind == "array" && s.items.Some? {
        ItemsExact(v.json.items, s.items.value, path, q);
      }
    }
  }

  /** What lies one step further down. */
  lemma Below(path: seq<Step>, step: Step, full: seq<Step>)
    ensures path + [step] <= full <==> path <= full && |path| < |full| && full[|path|] == step
    ensures path + [step] <= full ==> full[|path|..][1..] == full[|path| + 1..] && full[|path|..][0] == step
    ensures path + [step] == full <==> path <= full && full[|path|..] == [step]
  {
  }

  lemma {:induction false} MissingExact(v: Value, required: seq<string>, path: seq<Step>, q: Problem)
    requires IsObject(v)
    ensures q in MissingErrors(v, required, path) <==>
      path <= q.path && KeyMissing(v, required, q.path[|path|..], q.flaw)
  {
    if required != [] {
      var front, key := required[..|required| - 1], required[|required| - 1];
      hide Member;
      MissingExact(v, front, path, q);
      Below(path, Key(key), q.path);
      assert required == front + [key];
    }
  }

  lemma {:induction false} PropertiesExact(v: Value, properties: seq<Property>, path: seq<Step>, q: Problem)
    requires IsObject(v)
    ensures q in PropertyErrors(v, properties, path) <==>
      path <= q.path && PropertyFlawed(v, properties, q.path[|path|..], q.flaw)
    decreases properties, 0
  {
    if properties != [] {
      var front, p := properties[..|properties| - 1], properties[|properties| - 1];
      hide Member, Flawed, Errors;
      PropertiesExact(v, front, path, q);
      Below(path, Key(p.key), q.path);
      assert properties == front + [p];
      if Member(v, p.key).Some? {
        ErrorsExact(Member(v, p.key).value, p.schema, path + [Key(p.key)], q);
      }
    }
  }

  lemma {:induction false} ItemsExact(items: seq<Data>, s: Schema, path: seq<Step>, q: Problem)
    ensures q in ItemErrors(items, s, path) <==> path <= q.path && ItemFlawed(items, s, q.path[|path|..], q.flaw)
    decreases s, 1 + |items|
  {
    if items != [] {
      var i := |items| - 1;
      hide Flawed, Errors;
      ItemsExact(items[..i], s, path, q);
      Below(path, Index(i), q.path);
      ErrorsExact(Plain(items[i]), s, path + [Index(i)], q);
    }
  }

  // ----- Nothing reported means conforming -----

  lemma {:induction false} ErrorsIffNotConforming(v: Value, s: Schema, path: seq<Step>)
    ensures Errors(v, s, path) == [] <==> Conforms(v, s)
    decreases s, 0
  {
    hide Listed, MissingErrors, PropertyErrors, ItemErrors, Member;
    if HasType(v, s.kind) {
      if s.kind == "object" {
        NothingMissing(v, s.required, path);
        PropertiesConform(v, s.properties, path);
      } else if s.kind == "array" && s.items.Some? {
        ItemsConform(v.json.items, s.items.value, path);
      }
    }
  }

  lemma {:induction false} NothingMissing(v: Value, required: seq<string>, path: seq<Step>)
    requires IsObject(v)
    ensures MissingErrors(v, required, path) == [] <==> forall key :: key in required ==> Member(v, key).Some?
  {
    if required != [] {
      var front, key := required[..|required| - 1], required[|required| - 1];
      hide Member;
      NothingMissing(v, front, path);
      assert required == front + [key];
    }
  }

  lemma {:induction false} PropertiesConform(v: Value, properties: seq<Property>, path: seq<Step>)
    requires IsObject(v)
    ensures PropertyErrors(v, properties, path) == [] <==>
      forall p :: p in properties && Member(v, p.key).Some? ==> Conforms(Member(v, p.key).value, p.schema)
    decreases properties, 0
  {
    if properties != [] {
      var front, p := properties[..|properties| - 1], properties[|properties| - 1];
      hide Member, Conforms, Errors;
      PropertiesConform(v, front, path);
      assert properties == front + [p];
      if Member(v, p.key).Some? {
        ErrorsIffNotConforming(Member(v, p.key).value, p.schema, path + [Key(p.key)]);
      }
    }
  }

  lemma {:induction false} ItemsConform(items: seq<Data>, s: Schema, path: seq<Step>)
    ensures ItemErrors(items, s, path) == [] <==> forall x :: x in items ==> Conforms(Plain(x), s)
    decreases s, 1 + |items|
  {
    if items != [] {
      var i := |items| - 1;
      hide Conforms, Errors;
      ItemsConform(items[..i], s, path);
      ErrorsIffNotConforming(Plain(items[i]), s, path + [Index(i)]);
      assert items == items[..i] + [items[i]];
    }
  }

  /** Conforming is having no flaw anywhere. */
  lemma ConformsIffFlawless(v: Value, s: Schema)
    ensures Conforms(v, s) <==> forall path, flaw :: !Flawed(v, s, path, flaw)
  {
    hide *;
    ErrorsIffNotConforming(v, s, []);
    if Conforms(v, s) {
      forall path, flaw ensures !Flawed(v, s, path, flaw) {
        ErrorsExact(v, s, [], Problem(path, flaw));
        assert Problem(path, flaw) !in Errors(v, s, []);
        NotFound(v, s, path, flaw);
      }
    } else {
      var q := Errors(v, s, [])[0];
      ErrorsExact(v, s, [], q);
      NotFound(v, s, q.path, q.flaw);
    }
  }

  lemma NotFound(v: Value, s: Schema, path: seq<Step>, flaw: Flaw)
    ensures Found(Problem(path, flaw), v, s, []) <==> Flawed(v, s, path, flaw)
  {
    hide Flawed;
    assert path[0..] == path;
  }

  // ----- The validator -----

  lemma OneMoreKey(so: seq<Problem>, v: Value, required: seq<string>, i: nat, path: seq<Step>)
    requires IsObject(v) && i < |required|
    ensures so + MissingErrors(v, required[..i + 1], path) == so + MissingErrors(v, required[..i], path)
      + if Member(v, required[i]).None? then [Problem(path + [Key(required[i])], Missing)] else []
  {
    assert required[..i + 1][..i] == required[..i];
  }

  lemma OneMoreProperty(so: seq<Problem>, v: Value, properties: seq<Property>, i: nat, path: seq<Step>)
    requires IsObject(v) && i < |properties|
    ensures var p := properties[i];
      so + PropertyErrors(v, properties[..i + 1], path) == so + PropertyErrors(v, properties[..i], path)
        + if Member(v, p.key).Some? then Errors(Member(v, p.key).value, p.schema, path + [Key(p.key)]) else []
  {
    hide Errors, Member;
    assert properties[..i + 1][..i] == properties[..i];
  }

  lemma OneMoreItem(so: seq<Problem>, items: seq<Data>, s: Schema, i: nat, path: seq<Step>)
    requires i < |items|
    ensures so + ItemErrors(items[..i + 1], s, path) ==
      so + ItemErrors(items[..i], s, path) + Errors(Plain(items[i]), s, path + [Index(i)])
  {
    hide Errors;
    assert items[..i + 1][..i] == items[..i];
  }

  lemma ErrorsParts(v: Value, s: Schema, path: seq<Step>)
    ensures s.kind == "" ==> HasType(v, s.kind)
    ensures !HasType(v, s.kind) ==> Errors(v, s, path) == [Problem(path, WrongType)]
    ensures HasType(v, s.kind) && s.kind != "object" && s.kind != "array" ==>
      Errors(v, s, path) == UnlistedErrors(v, s.allowed, path)
    ensures IsObject(v) ==> MissingErrors(v, [], path) == [] && PropertyErrors(v, [], path) == []
    ensures IsObject(v) && s.kind == "object" ==>
      Errors(v, s, path) ==
      UnlistedErrors(v, s.allowed, path) + MissingErrors(v, s.required, path) + PropertyErrors(v, s.properties, path)
    ensures IsArray(v) && s.kind == "array" && s.items.None? ==>
      Errors(v, s, path) == UnlistedErrors(v, s.allowed, path)
    ensures IsArray(v) && s.kind == "array" && s.items.Some? ==>
      && ItemErrors([], s.items.value, path) == []
      && Errors(v, s, path) == UnlistedErrors(v, s.allowed, path) + ItemErrors(v.json.items, s.items.value, path)
    ensures HasType(v, s.kind) ==> (s.kind == "object" ==> IsObject(v)) && (s.kind == "array" ==> IsArray(v))
    ensures UnlistedErrors(v, s.allowed, path) ==
      if s.allowed.Some? && !Listed(v, s.allowed.value) then [Problem(path, NotListed)] else []
    ensures IsArray(v) ==> v.Plain? && v.json.Array?
  {
    hide MissingErrors, PropertyErrors, ItemErrors, Listed;
    if IsObject(v) {
      NoKeys(v, path);
    }
    if s.items.Some? {
      NoItems(s.items.value, path);
    }
  }

  lemma NoKeys(v: Value, path: seq<Step>)
    requires IsObject(v)
    ensures MissingErrors(v, [], path) == [] && PropertyErrors(v, [], path) == []
  {
  }

  lemma NoItems(s: Schema, path: seq<Step>)
    ensures ItemErrors([], s, path) == []
  {
  }

  method Validate(v: Value, s: Schema, path: seq<Step>) returns (errors: seq<Problem>)
    ensures errors == Errors(v, s, path)
    ensures errors == [] <==> Conforms(v, s)
    decreases s
  {
    hide *;
    ErrorsIffNotConforming(v, s, path);
    ErrorsParts(v, s, path);
    errors := [];
    if s.kind != "" {
      if !HasType(v, s.kind) {
        errors := errors + [Problem(path, WrongType)];
        return;
      }
    }
    if s.allowed.Some? && !Listed(v, s.allowed.value) {
      errors := errors + [Problem(path, NotListed)];
    }
    ghost var unlisted := errors;
    if s.kind == "object" && IsObject(v) {
      for i := 0 to |s.required|
        invariant errors == unlisted + MissingErrors(v, s.required[..i], path)
      {
        OneMoreKey(unlisted, v, s.required, i, path);
        if Member(v, s.required[i]).None? {
          errors := errors + [Problem(path + [Key(s.required[i])], Missing)];
        }
      }
      assert s.required[..|s.required|] == s.required;
      ghost var missing := errors;
      for i := 0 to |s.properties|
        invariant errors == missing + PropertyErrors(v, s.properties[..i], path)
      {
        OneMoreProperty(missing, v, s.properties, i, path);
        var key := s.properties[i].key;
        var member := Member(v, key);
        if member.Some? {
          var more := Validate(member.value, s.properties[i].schema, path + [Key(key)]);
          errors := errors + more;
        }
      }
      assert s.properties[..|s.properties|] == s.properties;
    }
    if s.kind == "array" && IsArray(v) {
      if s.items.Some? {
        var items := v.json.items;
        for i := 0 to |items|
          invariant errors == unlisted + ItemErrors(items[..i], s.items.value, path)
        {
          OneMoreItem(unlisted, items, s.items.value, i, path);
          var more := Validate(Plain(items[i]), s.items.value, path + [Index(i)]);
          errors := errors + more;
        }
        assert items[..|items|] == items;
      }
    }
  }
}
