/** The validator beside JSON Schema: where the two report the same. */
module SchemaStandard {
  import opened Collections
  import opened JsonValues
  import opened Quality

  // ----- The standard reading -----

  const KINDS := {"object", "array", "string", "number", "integer", "boolean", "null"}

  /** The type keyword (6.1.1).  A number beyond the range of a double counts as an integer. */
  predicate IsOfType(x: Data, kind: string) {
    match x
    case Null => kind == "null"
    case Bool(_) => kind == "boolean"
    case Number(n) => kind == "number" || (kind == "integer" && (n.Infinite? || n.value.Floor as real == n.value))
    case Text(_) => kind == "string"
    case Array(_) => kind == "array"
    case Object(_) => kind == "object"
  }

  predicate TypeOk(x: Data, kind: string) {
    kind == "" || IsOfType(x, kind)
  }

  ghost predicate InEnum(x: Data, allowed: seq<Data>) {
    exists y :: y in allowed && Same(x, y, {})
  }

  /** JSON Schema Validation, draft 2020-12: type (6.1.1), enum (6.1.2), required (6.5.3), with properties and items. */
  ghost predicate Standard(x: Data, s: Schema)
    decreases s
  {
    && TypeOk(x, s.kind)
    && (s.allowed.Some? ==> InEnum(x, s.allowed.value))
    && (x.Object? ==> forall key :: key in s.required ==> key in Keys(x.fields))
    && (x.Object? ==> forall p :: p in s.properties && p.key in Keys(x.fields) ==>
      Standard(ValueAt(x.fields, p.key), p.schema))
    && (x.Array? && s.items.Some? ==> forall y :: y in x.items ==> Standard(y, s.items.value))
  }

  function ValueAt(fields: seq<Field<Amount>>, key: string): Data
    requires key in Keys(fields)
  {
    Own(fields, key).value
  }

  /** What a validator by the standard would report, in the terms of Flawed: below a value of the wrong type nothing. */
  ghost predicate StandardFlawed(x: Data, s: Schema, path: seq<Step>, flaw: Flaw)
    decreases s, 0
  {
    if !TypeOk(x, s.kind) then path == [] && flaw == WrongType
    else
      || (path == [] && flaw == NotListed && s.allowed.Some? && !InEnum(x, s.allowed.value))
      || (x.Object? &&
        (RequiredFlawed(x.fields, s.required, path, flaw) || FieldFlawed(x.fields, s.properties, path, flaw)))
      || (x.Array? && s.items.Some? && EntryFlawed(x.items, s.items.value, path, flaw))
  }

  ghost predicate RequiredFlawed(fields: seq<Field<Amount>>, required: seq<string>, path: seq<Step>, flaw: Flaw) {
    flaw == Missing && |path| == 1 && path[0].Key? && path[0].key in required && path[0].key !in Keys(fields)
  }

  ghost predicate FieldFlawed(fields: seq<Field<Amount>>, properties: seq<Property>, path: seq<Step>, flaw: Flaw)
    decreases properties, 0
  {
    && path != []
    && (exists p :: p in properties && path[0] == Key(p.key) && p.key in Keys(fields) &&
          StandardFlawed(ValueAt(fields, p.key), p.schema, path[1..], flaw))
  }

  ghost predicate EntryFlawed(items: seq<Data>, s: Schema, path: seq<Step>, flaw: Flaw)
    decreases s, 1
  {
    path != [] && path[0].Index? && path[0].i < |items| && StandardFlawed(items[path[0].i], s, path[1..], flaw)
  }

  lemma {:induction false} StandardHasNoFlaw(x: Data, s: Schema, path: seq<Step>, flaw: Flaw)
    requires Standard(x, s)
    ensures !StandardFlawed(x, s, path, flaw)
    decreases s
  {
    hide TypeOk, InEnum, ValueAt;
    if path != [] {
      if x.Object? {
        forall p | p in s.properties && p.key in Keys(x.fields)
          ensures !StandardFlawed(ValueAt(x.fields, p.key), p.schema, path[1..], flaw)
        {
          StandardHasNoFlaw(ValueAt(x.fields, p.key), p.schema, path[1..], flaw);
        }
      }
      if x.Array? && s.items.Some? && path[0].Index? && path[0].i < |x.items| {
        StandardHasNoFlaw(x.items[path[0].i], s.items.value, path[1..], flaw);
      }
    }
  }

  lemma {:induction false} NotStandardHasFlaw(x: Data, s: Schema) returns (path: seq<Step>, flaw: Flaw)
    requires !Standard(x, s)
    ensures StandardFlawed(x, s, path, flaw)
    decreases s
  {
    hide TypeOk, InEnum, ValueAt;
    if !TypeOk(x, s.kind) {
      path, flaw := [], WrongType;
    } else if s.allowed.Some? && !InEnum(x, s.allowed.value) {
      path, flaw := [], NotListed;
    } else if x.Object? {
      if key :| key in s.required && key !in Keys(x.fields) {
        path, flaw := [Key(key)], Missing;
      } else {
        var p :| p in s.properties && p.key in Keys(x.fields) && !Standard(ValueAt(x.fields, p.key), p.schema);
        path, flaw := NotStandardHasFlaw(ValueAt(x.fields, p.key), p.schema);
        path := FieldPath(x.fields, s.properties, p, path, flaw);
      }
    } else {
      var i :| 0 <= i < |x.items| && !Standard(x.items[i], s.items.value);
      path, flaw := NotStandardHasFlaw(x.items[i], s.items.value);
      path := EntryPath(x.items, s.items.value, i, path, flaw);
    }
  }

  lemma FieldPath(fields: seq<Field<Amount>>, properties: seq<Property>, p: Property, rest: seq<Step>, flaw: Flaw)
    returns (path: seq<Step>)
    requires p in properties && p.key in Keys(fields) && StandardFlawed(ValueAt(fields, p.key), p.schema, rest, flaw)
    ensures path == [Key(p.key)] + rest && FieldFlawed(fields, properties, path, flaw)
  {
    hide StandardFlawed, ValueAt;
    path := [Key(p.key)] + rest;
    assert path[1..] == rest;
  }

  lemma EntryPath(items: seq<Data>, s: Schema, i: nat, rest: seq<Step>, flaw: Flaw) returns (path: seq<Step>)
    requires i < |items| && StandardFlawed(items[i], s, rest, flaw)
    ensures path == [Index(i)] + rest && EntryFlawed(items, s, path, flaw)
  {
    hide StandardFlawed;
    path := [Index(i)] + rest;
    assert path[1..] == rest;
  }

  // ----- Where the reports part -----

  /** What JSON.parse can give as a schema: no property twice, no key twice in an enum entry. */
  ghost predicate Proper(s: Schema) {
    && (forall i, j :: 0 <= i < j < |s.properties| ==> s.properties[i].key != s.properties[j].key)
    && (forall p :: p in s.properties ==> Proper(p.schema))
    && (s.items.Some? ==> Proper(s.items.value))
    && (s.allowed.Some? ==> forall y :: y in s.allowed.value ==> WellKeyed(y))
  }

  /** What an object inherits under a name. */
  function Inherited(key: string): Value {
    if key == "__proto__" then RootObject else Native
  }

  /** A type word the standard does not have, or a number the validator does not count as one. */
  predicate TypeDeparts(x: Data, kind: string) {
    (kind != "" && kind !in KINDS) || ((kind == "number" || kind == "integer") && x.Number? && x.n.Infinite?)
  }

  /** An array or object that the enum lists. */
  ghost predicate EnumDeparts(x: Data, s: Schema) {
    s.allowed.Some? && !Primitive(x) && InEnum(x, s.allowed.value)
  }

  /** Without a type: a rule of the standard for objects or arrays that the value breaks. */
  ghost predicate UntypedDeparts(x: Data, s: Schema) {
    && s.kind == ""
    && ((x.Object? &&
           ((exists key :: key in s.required && key !in Keys(x.fields)) ||
            exists p :: p in s.properties && p.key in Keys(x.fields) && !Standard(ValueAt(x.fields, p.key), p.schema)))
        || (x.Array? && s.items.Some? && exists y :: y in x.items && !Standard(y, s.items.value)))
  }

  /** An inherited name, and no own key: required, or under a schema that what is inherited does not meet. */
  ghost predicate InheritedDeparts(x: Data, s: Schema) {
    && s.kind == "object" && x.Object?
    && ((exists key :: key in s.required && key in INHERITED && key !in Keys(x.fields)) ||
        exists p :: p in s.properties && p.key in INHERITED && p.key !in Keys(x.fields) &&
          !Conforms(Inherited(p.key), p.schema))
  }

  /** One of these at the value itself or at a place that both readings visit. */
  ghost predicate Departs(x: Data, s: Schema)
    decreases s
  {
    || TypeDeparts(x, s.kind)
    || (TypeOk(x, s.kind) &&
          (|| EnumDeparts(x, s)
           || UntypedDeparts(x, s)
           || InheritedDeparts(x, s)
           || (s.kind == "object" && x.Object? &&
                 exists p :: p in s.properties && p.key in Keys(x.fields) &&
                   Departs(ValueAt(x.fields, p.key), p.schema))
           || (s.kind == "array" && x.Array? && s.items.Some? &&
                 exists y :: y in x.items && Departs(y, s.items.value))))
  }

  lemma TypesAgree(x: Data, kind: string)
    requires !TypeDeparts(x, kind)
    ensures HasType(Plain(x), kind) <==> TypeOk(x, kind)
    ensures x.Object? && kind != "" ==> (TypeOk(x, kind) <==> kind == "object")
    ensures x.Array? && kind != "" ==> (TypeOk(x, kind) <==> kind == "array")
  {
  }

  lemma ListsAgree(x: Data, s: Schema)
    requires s.allowed.Some? && WellKeyed(x) && forall y :: y in s.allowed.value ==> WellKeyed(y)
    ensures EnumDeparts(x, s) <==> (Listed(Plain(x), s.allowed.value) != InEnum(x, s.allowed.value))
  {
    var allowed := s.allowed.value;
    if Primitive(x) {
      assert Same(x, x, {});
      forall y | y in allowed && Same(x, y, {}) ensures x == y {
      }
    }
  }

  /** The members of an object: its own first, then what it inherits. */
  lemma Members(fields: seq<Field<Amount>>, key: string)
    ensures var m := Member(Plain(Object(fields)), key);
      if key in Keys(fields) then m == Some(Plain(ValueAt(fields, key)))
      else if key in INHERITED then m == Some(Inherited(key))
      else m == None
  {
  }

  lemma OwnWellKeyed(fields: seq<Field<Amount>>, key: string)
    requires WellKeyed(Object(fields)) && key in Keys(fields)
    ensures WellKeyed(ValueAt(fields, key))
  {
    var i :| 0 <= i < |fields| && fields[i] == Field(key, ValueAt(fields, key));
  }

  /** The same flaws at the same paths. */
  ghost predicate SameReports(x: Data, s: Schema) {
    forall path, flaw :: Flawed(Plain(x), s, path, flaw) <==> StandardFlawed(x, s, path, flaw)
  }

  /** Where nothing departs, the two reports are the same. */
  lemma {:induction false} ReportsAgree(x: Data, s: Schema, path: seq<Step>, flaw: Flaw)
    requires WellKeyed(x) && Proper(s) && !Departs(x, s)
    ensures Flawed(Plain(x), s, path, flaw) <==> StandardFlawed(x, s, path, flaw)
    decreases s, 1
  {
    hide INHERITED, KINDS, Member, HasType, TypeOk, TypeDeparts, Listed, InEnum, EnumDeparts, ValueAt, UntypedDeparts;
    hide InheritedDeparts, KeyMissing, PropertyFlawed, RequiredFlawed, FieldFlawed;
    TypesAgree(x, s.kind);
    if TypeOk(x, s.kind) {
      if s.allowed.Some? {
        ListsAgree(x, s);
      }
      if s.kind == "" {
        UntypedHasNoFlaw(x, s, path, flaw);
      } else if x.Object? {
        ObjectsAgree(x, s, path, flaw);
      } else if x.Array? && s.items.Some? && path != [] && path[0].Index? && path[0].i < |x.items| {
        ReportsAgree(x.items[path[0].i], s.items.value, path[1..], flaw);
      }
    }
  }

  lemma UntypedHasNoFlaw(x: Data, s: Schema, path: seq<Step>, flaw: Flaw)
    requires s.kind == "" && !UntypedDeparts(x, s)
    ensures x.Object? ==> !RequiredFlawed(x.fields, s.required, path, flaw)
    ensures x.Object? ==> !FieldFlawed(x.fields, s.properties, path, flaw)
    ensures x.Array? && s.items.Some? ==> !EntryFlawed(x.items, s.items.value, path, flaw)
  {
    hide Standard, StandardFlawed, ValueAt;
    if path != [] {
      if x.Object? {
        forall p | p in s.properties && p.key in Keys(x.fields)
          ensures !StandardFlawed(ValueAt(x.fields, p.key), p.schema, path[1..], flaw)
        {
          StandardHasNoFlaw(ValueAt(x.fields, p.key), p.schema, path[1..], flaw);
        }
      }
      if x.Array? && s.items.Some? && path[0].Index? && path[0].i < |x.items| {
        StandardHasNoFlaw(x.items[path[0].i], s.items.value, path[1..], flaw);
      }
    }
  }

  lemma {:induction false} ObjectsAgree(x: Data, s: Schema, path: seq<Step>, flaw: Flaw)
    requires WellKeyed(x) && Proper(s) && !Departs(x, s)
    requires s.kind == "object" && x.Object?
    ensures KeyMissing(Plain(x), s.required, path, flaw) <==> RequiredFlawed(x.fields, s.required, path, flaw)
    ensures PropertyFlawed(Plain(x), s.properties, path, flaw) <==> FieldFlawed(x.fields, s.properties, path, flaw)
    decreases s, 0
  {
    hide INHERITED, KINDS, Member, InEnum, EnumDeparts, UntypedDeparts, ValueAt, Flawed, StandardFlawed, Conforms;
    if path != [] && path[0].Key? {
      Members(x.fields, path[0].key);
      forall p | p in s.properties && p.key == path[0].key
        ensures var m := Member(Plain(x), p.key);
          (m.Some? && Flawed(m.value, p.schema, path[1..], flaw)) <==>
          (p.key in Keys(x.fields) && StandardFlawed(ValueAt(x.fields, p.key), p.schema, path[1..], flaw))
      {
        if p.key in Keys(x.fields) {
          OwnWellKeyed(x.fields, p.key);
          ReportsAgree(ValueAt(x.fields, p.key), p.schema, path[1..], flaw);
        } else if p.key in INHERITED {
          ConformsIffFlawless(Inherited(p.key), p.schema);
        }
      }
    }
  }

  /** What either reading reports of the value itself. */
  lemma AtTheTop(x: Data, s: Schema)
    ensures Flawed(Plain(x), s, [], WrongType) <==> !HasType(Plain(x), s.kind)
    ensures Flawed(Plain(x), s, [], NotListed) <==>
      HasType(Plain(x), s.kind) && s.allowed.Some? && !Listed(Plain(x), s.allowed.value)
    ensures StandardFlawed(x, s, [], WrongType) <==> !TypeOk(x, s.kind)
    ensures StandardFlawed(x, s, [], NotListed) <==> TypeOk(x, s.kind) && s.allowed.Some? && !InEnum(x, s.allowed.value)
  {
    hide HasType, TypeOk, Listed, InEnum;
  }

  lemma NothingMissingAtTheTop(v: Value, s: Schema)
    ensures !Flawed(v, s, [], Missing)
  {
    hide HasType, Listed;
  }

  lemma UnknownKind(x: Data, kind: string)
    requires kind != "" && kind !in KINDS
    ensures HasType(Plain(x), kind) && !TypeOk(x, kind)
  {
  }

  lemma InfiniteKind(x: Data, kind: string)
    requires (kind == "number" || kind == "integer") && x.Number? && x.n.Infinite?
    ensures !HasType(Plain(x), kind) && TypeOk(x, kind)
  {
  }

  lemma TypeDepartureShows(x: Data, s: Schema)
    requires TypeDeparts(x, s.kind)
    ensures Flawed(Plain(x), s, [], WrongType) != StandardFlawed(x, s, [], WrongType)
  {
    hide HasType, TypeOk, KINDS;
    AtTheTop(x, s);
    if s.kind != "" && s.kind !in KINDS {
      UnknownKind(x, s.kind);
    } else {
      InfiniteKind(x, s.kind);
    }
  }

  /** Without a type the validator reports nothing below the value. */
  lemma UntypedStopsAtTheTop(x: Data, s: Schema, path: seq<Step>, flaw: Flaw)
    requires s.kind == "" && path != []
    ensures !Flawed(Plain(x), s, path, flaw)
  {
  }

  lemma UntypedDepartureShows(x: Data, s: Schema) returns (path: seq<Step>, flaw: Flaw)
    requires UntypedDeparts(x, s)
    ensures Flawed(Plain(x), s, path, flaw) != StandardFlawed(x, s, path, flaw)
  {
    hide Flawed, ValueAt, Standard;
    assert TypeOk(x, s.kind);
    if x.Object? {
      if key :| key in s.required && key !in Keys(x.fields) {
        path, flaw := [Key(key)], Missing;
      } else {
        var p :| p in s.properties && p.key in Keys(x.fields) && !Standard(ValueAt(x.fields, p.key), p.schema);
        path, flaw := NotStandardHasFlaw(ValueAt(x.fields, p.key), p.schema);
        path := FieldPath(x.fields, s.properties, p, path, flaw);
      }
    } else {
      var y :| y in x.items && !Standard(y, s.items.value);
      var i :| 0 <= i < |x.items| && x.items[i] == y;
      path, flaw := NotStandardHasFlaw(y, s.items.value);
      path := EntryPath(x.items, s.items.value, i, path, flaw);
    }
    UntypedStopsAtTheTop(x, s, path, flaw);
  }

  /** What the validator reports below a member of an object. */
  lemma BelowMember(x: Data, s: Schema, p: Property, rest: seq<Step>, flaw: Flaw)
    requires s.kind == "object" && x.Object? && Proper(s) && p in s.properties && Member(Plain(x), p.key).Some?
    ensures Flawed(Plain(x), s, [Key(p.key)] + rest, flaw) <==>
      Flawed(Member(Plain(x), p.key).value, p.schema, rest, flaw)
  {
    var path := [Key(p.key)] + rest;
    assert path[1..] == rest && path[0] == Key(p.key);
    forall q | q in s.properties && q.key == p.key ensures q == p {
    }
    assert HasType(Plain(x), s.kind);
    hide Member, HasType, Proper;
    assert PropertyFlawed(Plain(x), s.properties, path, flaw) <==>
      Flawed(Member(Plain(x), p.key).value, p.schema, rest, flaw);
  }

  lemma BelowOwnField(x: Data, s: Schema, p: Property, rest: seq<Step>, flaw: Flaw)
    requires s.kind == "object" && x.Object? && Proper(s) && p in s.properties && p.key in Keys(x.fields)
    ensures StandardFlawed(x, s, [Key(p.key)] + rest, flaw) <==>
      StandardFlawed(ValueAt(x.fields, p.key), p.schema, rest, flaw)
  {
    var path := [Key(p.key)] + rest;
    assert path[1..] == rest && path[0] == Key(p.key);
    forall q | q in s.properties && q.key == p.key ensures q == p {
    }
    assert TypeOk(x, s.kind);
    hide ValueAt, TypeOk, Proper;
    assert FieldFlawed(x.fields, s.properties, path, flaw) <==>
      StandardFlawed(ValueAt(x.fields, p.key), p.schema, rest, flaw);
  }

  lemma InheritedDepartureShows(x: Data, s: Schema) returns (path: seq<Step>, flaw: Flaw)
    requires Proper(s) && InheritedDeparts(x, s)
    ensures Flawed(Plain(x), s, path, flaw) != StandardFlawed(x, s, path, flaw)
  {
    hide INHERITED, Member, Conforms, Flawed, ValueAt;
    assert TypeOk(x, s.kind);
    if key :| key in s.required && key in INHERITED && key !in Keys(x.fields) {
      path, flaw := [Key(key)], Missing;
      Members(x.fields, key);
      InheritedIsPresent(x, s, key);
    } else {
      var p :| p in s.properties && p.key in INHERITED && p.key !in Keys(x.fields) &&
        !Conforms(Inherited(p.key), p.schema);
      Members(x.fields, p.key);
      ConformsIffFlawless(Inherited(p.key), p.schema);
      var rest;
      rest, flaw :| Flawed(Inherited(p.key), p.schema, rest, flaw);
      path := [Key(p.key)] + rest;
      BelowMember(x, s, p, rest, flaw);
      NothingMissingAtTheTop(Inherited(p.key), p.schema);
    }
  }

  /** A member that is present, if only inherited, is not reported as missing. */
  lemma InheritedIsPresent(x: Data, s: Schema, key: string)
    requires s.kind == "object" && x.Object? && Member(Plain(x), key).Some?
    ensures !Flawed(Plain(x), s, [Key(key)], Missing)
  {
    hide Member;
    var path := [Key(key)];
    assert path[1..] == [];
    assert HasType(Plain(x), s.kind);
    if PropertyFlawed(Plain(x), s.properties, path, Missing) {
      var p :| p in s.properties && p.key == key && Flawed(Member(Plain(x), key).value, p.schema, [], Missing);
      NothingMissingAtTheTop(Member(Plain(x), key).value, p.schema);
    }
  }

  lemma BelowItem(x: Data, s: Schema, i: nat, rest: seq<Step>, flaw: Flaw)
    requires s.kind == "array" && x.Array? && s.items.Some? && i < |x.items|
    ensures Flawed(Plain(x), s, [Index(i)] + rest, flaw) <==> Flawed(Plain(x.items[i]), s.items.value, rest, flaw)
    ensures StandardFlawed(x, s, [Index(i)] + rest, flaw) <==> StandardFlawed(x.items[i], s.items.value, rest, flaw)
  {
    var path := [Index(i)] + rest;
    assert path[1..] == rest && path[0] == Index(i);
    assert HasType(Plain(x), s.kind) && TypeOk(x, s.kind);
    hide HasType, TypeOk;
  }

  /** A departure shows somewhere in the reports. */
  lemma {:induction false} DepartureShows(x: Data, s: Schema) returns (path: seq<Step>, flaw: Flaw)
    requires WellKeyed(x) && Proper(s) && Departs(x, s)
    ensures Flawed(Plain(x), s, path, flaw) != StandardFlawed(x, s, path, flaw)
    decreases s
  {
    hide INHERITED, KINDS, Member, HasType, TypeOk, TypeDeparts, Listed, InEnum, ValueAt, UntypedDeparts;
    hide InheritedDeparts, KeyMissing, PropertyFlawed, RequiredFlawed, FieldFlawed, ItemFlawed, EntryFlawed;
    if TypeDeparts(x, s.kind) {
      path, flaw := [], WrongType;
      TypeDepartureShows(x, s);
    } else {
      TypesAgree(x, s.kind);
      if EnumDeparts(x, s) {
        path, flaw := [], NotListed;
        ListsAgree(x, s);
        AtTheTop(x, s);
      } else if UntypedDeparts(x, s) {
        path, flaw := UntypedDepartureShows(x, s);
      } else if InheritedDeparts(x, s) {
        path, flaw := InheritedDepartureShows(x, s);
      } else if s.kind == "object" {
        var p :| p in s.properties && p.key in Keys(x.fields) && Departs(ValueAt(x.fields, p.key), p.schema);
        OwnWellKeyed(x.fields, p.key);
        path, flaw := DepartureShows(ValueAt(x.fields, p.key), p.schema);
        Members(x.fields, p.key);
        BelowMember(x, s, p, path, flaw);
        BelowOwnField(x, s, p, path, flaw);
        path := [Key(p.key)] + path;
      } else {
        var y :| y in x.items && Departs(y, s.items.value);
        var i :| 0 <= i < |x.items| && x.items[i] == y;
        path, flaw := DepartureShows(y, s.items.value);
        BelowItem(x, s, i, path, flaw);
        path := [Index(i)] + path;
      }
    }
  }

  /** For every value and schema: the validator reports what the standard would exactly where nothing departs. */
  lemma SameReportsIff(x: Data, s: Schema)
    requires WellKeyed(x) && Proper(s)
    ensures SameReports(x, s) <==> !Departs(x, s)
  {
    hide Departs, Flawed, StandardFlawed, Proper;
    if Departs(x, s) {
      var path, flaw := DepartureShows(x, s);
    } else {
      forall path, flaw ensures Flawed(Plain(x), s, path, flaw) <==> StandardFlawed(x, s, path, flaw) {
        ReportsAgree(x, s, path, flaw);
      }
    }
  }

  lemma FlawedDoesNotConform(v: Value, s: Schema, path: seq<Step>, flaw: Flaw)
    requires Flawed(v, s, path, flaw)
    ensures !Conforms(v, s)
  {
    hide Conforms, Flawed;
    ConformsIffFlawless(v, s);
  }

  /** The same reports mean the same verdict. */
  lemma SameReportsSameVerdict(x: Data, s: Schema)
    requires SameReports(x, s)
    ensures Conforms(Plain(x), s) <==> Standard(x, s)
  {
    hide Conforms, Standard, Flawed, StandardFlawed;
    if Standard(x, s) {
      forall path, flaw ensures !Flawed(Plain(x), s, path, flaw) {
        StandardHasNoFlaw(x, s, path, flaw);
      }
      ConformsIffFlawless(Plain(x), s);
    } else {
      var path, flaw := NotStandardHasFlaw(x, s);
      FlawedDoesNotConform(Plain(x), s, path, flaw);
    }
  }

  // ----- Which schemas can be relied on -----

  /** A schema that demands nothing. */
  ghost predicate Trivial(s: Schema) {
    && s.kind == "" && s.allowed.None? && s.required == []
    && (forall p :: p in s.properties ==> Trivial(p.schema))
    && (s.items.Some? ==> Trivial(s.items.value))
  }

  /** A finite array or object that has the type and is in the enum. */
  predicate ListedCompound(y: Data, s: Schema)
    requires s.allowed.Some?
  {
    y in s.allowed.value && !Primitive(y) && AllFinite(y) && TypeOk(y, s.kind)
  }

  /** The type is one of the standard's words; without one there is nothing to demand of objects and arrays; an enum
      lists no array or object that has the type; no required name is inherited, and what is inherited under the name of
      a property meets its schema; and so below. */
  ghost predicate Reliable(s: Schema) {
    && (s.kind == "" || s.kind in KINDS)
    && (s.allowed.Some? ==> forall y :: y in s.allowed.value ==> !ListedCompound(y, s))
    && (s.kind == "" ==>
          && s.required == []
          && (forall p :: p in s.properties ==> Trivial(p.schema))
          && (s.items.Some? ==> Trivial(s.items.value)))
    && (s.kind == "object" ==>
          && (forall key :: key in s.required ==> key !in INHERITED)
          && forall p :: p in s.properties ==>
               Reliable(p.schema) && (p.key in INHERITED ==> Conforms(Inherited(p.key), p.schema)))
    && (s.kind == "array" && s.items.Some? ==> Reliable(s.items.value))
  }

  lemma {:induction false} TrivialAccepts(x: Data, s: Schema)
    requires Trivial(s)
    ensures Standard(x, s)
    decreases s
  {
    hide ValueAt;
    if x.Object? {
      forall p | p in s.properties && p.key in Keys(x.fields) ensures Standard(ValueAt(x.fields, p.key), p.schema) {
        TrivialAccepts(ValueAt(x.fields, p.key), p.schema);
      }
    }
    if x.Array? && s.items.Some? {
      forall y | y in x.items ensures Standard(y, s.items.value) {
        TrivialAccepts(y, s.items.value);
      }
    }
  }

  /** A text longer than any in the list. */
  function Unlisted(allowed: seq<Data>): (t: string)
    ensures forall y :: y in allowed && y.Text? ==> |y.s| < |t|
  {
    if allowed == [] then "x"
    else
      var rest := Unlisted(allowed[1..]);
      if allowed[0].Text? && |rest| <= |allowed[0].s| then allowed[0].s + "x" else rest
  }

  lemma OneField(key: string, x: Data)
    ensures var fields := [Field(key, x)]; Keys(fields) == [key] && ValueAt(fields, key) == x
  {
  }

  /** A schema that demands something has a plain counterexample. */
  lemma {:induction false} NontrivialRejects(s: Schema) returns (x: Data)
    requires !Trivial(s)
    ensures WellKeyed(x) && AllFinite(x) && !Standard(x, s)
    decreases s
  {
    hide ValueAt;
    if s.kind != "" {
      x := if s.kind == "null" then Text("") else Null;
    } else if s.allowed.Some? {
      x := Text(Unlisted(s.allowed.value));
      assert !InEnum(x, s.allowed.value);
    } else if s.required != [] {
      x := Object([]);
      assert s.required[0] in s.required && Keys<Amount>([]) == [];
    } else if p :| p in s.properties && !Trivial(p.schema) {
      var y := NontrivialRejects(p.schema);
      x := Object([Field(p.key, y)]);
      OneField(p.key, y);
    } else {
      var y := NontrivialRejects(s.items.value);
      x := Array([y]);
      assert y in x.items;
    }
  }

  lemma {:induction false} ReliableNeverDeparts(x: Data, s: Schema)
    requires Reliable(s) && WellKeyed(x) && AllFinite(x) && Proper(s)
    ensures !Departs(x, s)
    decreases s
  {
    hide INHERITED, KINDS, ValueAt, Standard;
    if s.kind == "" {
      UntypedReliable(x, s);
    }
    if s.kind == "object" && x.Object? {
      forall p | p in s.properties && p.key in Keys(x.fields) ensures !Departs(ValueAt(x.fields, p.key), p.schema) {
        OwnPlain(x.fields, p.key);
        ReliableNeverDeparts(ValueAt(x.fields, p.key), p.schema);
      }
    }
    if s.kind == "array" && x.Array? && s.items.Some? {
      forall y | y in x.items ensures !Departs(y, s.items.value) {
        ReliableNeverDeparts(y, s.items.value);
      }
    }
    if TypeOk(x, s.kind) {
      ReliableEnum(x, s);
    }
  }

  lemma OwnPlain(fields: seq<Field<Amount>>, key: string)
    requires WellKeyed(Object(fields)) && AllFinite(Object(fields)) && key in Keys(fields)
    ensures WellKeyed(ValueAt(fields, key)) && AllFinite(ValueAt(fields, key))
  {
    var i :| 0 <= i < |fields| && fields[i] == Field(key, ValueAt(fields, key));
  }

  lemma UntypedReliable(x: Data, s: Schema)
    requires Reliable(s) && s.kind == ""
    ensures !UntypedDeparts(x, s)
  {
    hide ValueAt, Standard;
    if x.Object? {
      forall p | p in s.properties && p.key in Keys(x.fields) ensures Standard(ValueAt(x.fields, p.key), p.schema) {
        TrivialAccepts(ValueAt(x.fields, p.key), p.schema);
      }
    }
    if x.Array? && s.items.Some? {
      forall y | y in x.items ensures Standard(y, s.items.value) {
        TrivialAccepts(y, s.items.value);
      }
    }
  }

  lemma {:induction false} SameIsPlain(x: Data, y: Data)
    requires Same(x, y, {}) && AllFinite(x)
    ensures AllFinite(y) && (Primitive(y) <==> Primitive(x))
    decreases x
  {
    if x.Array? {
      forall i | 0 <= i < |y.items| ensures AllFinite(y.items[i]) {
        SameIsPlain(x.items[i], y.items[i]);
      }
    } else if x.Object? {
      forall j | 0 <= j < |y.fields| ensures AllFinite(y.fields[j].value) {
        assert Keys(y.fields)[j] in Keys(x.fields);
        var i :| 0 <= i < |x.fields| && Keys(x.fields)[i] == y.fields[j].key;
        SameIsPlain(x.fields[i].value, y.fields[j].value);
      }
    }
  }

  lemma {:induction false} SameAsItself(x: Data)
    requires WellKeyed(x)
    ensures Same(x, x, {})
    decreases x
  {
    match x
    case Array(items) =>
      forall i | 0 <= i < |items| ensures Same(items[i], items[i], {}) {
        SameAsItself(items[i]);
      }
    case Object(fields) =>
      forall i | 0 <= i < |fields| ensures Same(fields[i].value, fields[i].value, {}) {
        SameAsItself(fields[i].value);
      }
    case _ =>
  }

  lemma ReliableEnum(x: Data, s: Schema)
    requires Reliable(s) && AllFinite(x) && TypeOk(x, s.kind)
    ensures !EnumDeparts(x, s)
  {
    hide KINDS;
    if s.allowed.Some? && !Primitive(x) {
      forall y | y in s.allowed.value && Same(x, y, {}) ensures false {
        SameIsPlain(x, y);
      }
    }
  }

  /** A schema that cannot be relied on departs on some finite value. */
  lemma {:induction false} UnreliableDeparts(s: Schema) returns (x: Data)
    requires !Reliable(s) && Proper(s)
    ensures WellKeyed(x) && AllFinite(x) && Departs(x, s)
    decreases s, 1
  {
    hide INHERITED, KINDS, ValueAt, Standard, Conforms;
    if s.kind != "" && s.kind !in KINDS {
      x := Null;
    } else if s.allowed.Some? && exists y :: ListedCompound(y, s) {
      x :| ListedCompound(x, s);
      SameAsItself(x);
      assert EnumDeparts(x, s);
    } else if s.kind == "" {
      x := UntypedUnreliable(s);
    } else if s.kind == "object" {
      x := ObjectUnreliable(s);
    } else {
      var y := UnreliableDeparts(s.items.value);
      x := Array([y]);
      assert y in x.items;
    }
  }

  lemma UntypedUnreliable(s: Schema) returns (x: Data)
    requires s.kind == ""
    requires s.required != [] || (exists p :: p in s.properties && !Trivial(p.schema)) ||
      (s.items.Some? && !Trivial(s.items.value))
    ensures WellKeyed(x) && AllFinite(x) && Departs(x, s)
  {
    hide INHERITED, KINDS, ValueAt, Standard, Conforms, Trivial;
    if s.required != [] {
      x := Object([]);
      assert s.required[0] in s.required && Keys<Amount>([]) == [];
    } else if p :| p in s.properties && !Trivial(p.schema) {
      var y := NontrivialRejects(p.schema);
      x := Object([Field(p.key, y)]);
      OneField(p.key, y);
    } else {
      var y := NontrivialRejects(s.items.value);
      x := Array([y]);
      assert y in x.items;
    }
    assert UntypedDeparts(x, s);
  }

  lemma {:induction false} ObjectUnreliable(s: Schema) returns (x: Data)
    requires Proper(s) && s.kind == "object"
    requires
      || (exists key :: key in s.required && key in INHERITED)
      || (exists p :: p in s.properties && !Reliable(p.schema))
      || (exists p :: p in s.properties && p.key in INHERITED && !Conforms(Inherited(p.key), p.schema))
    ensures WellKeyed(x) && AllFinite(x) && Departs(x, s)
    decreases s, 0
  {
    hide INHERITED, ValueAt, Standard, Conforms, Reliable;
    assert Keys<Amount>([]) == [];
    if p :| p in s.properties && !Reliable(p.schema) {
      var y := UnreliableDeparts(p.schema);
      x := Object([Field(p.key, y)]);
      OneField(p.key, y);
    } else {
      x := Object([]);
      assert InheritedDeparts(x, s);
    }
  }

  /** For every schema: the validator reports what the standard would on all finite values exactly when it can be
      relied on. */
  lemma ReliableIff(s: Schema)
    requires Proper(s)
    ensures Reliable(s) <==> forall x :: WellKeyed(x) && AllFinite(x) ==> SameReports(x, s)
  {
    hide Reliable, SameReports, Departs, Proper;
    if Reliable(s) {
      forall x | WellKeyed(x) && AllFinite(x) ensures SameReports(x, s) {
        ReliableNeverDeparts(x, s);
        SameReportsIff(x, s);
      }
    } else {
      var x := UnreliableDeparts(s);
      SameReportsIff(x, s);
    }
  }

  /** There the validator decides as the standard does. */
  lemma ReliableIsStandard(x: Data, s: Schema)
    requires Reliable(s) && AllFinite(x) && WellKeyed(x) && Proper(s)
    ensures Conforms(Plain(x), s) <==> Standard(x, s)
  {
    ReliableNeverDeparts(x, s);
    SameReportsIff(x, s);
    SameReportsSameVerdict(x, s);
  }

  // ----- The departures, one by one -----

  /** An inherited name counts as present. */
  lemma InheritedCountsAsPresent(key: string)
    requires key in INHERITED
    ensures var s := Schema("object", None, [key], [], None); Conforms(Plain(Object([])), s) && !Standard(Object([]), s)
  {
    assert key in [key] && Keys<Amount>([]) == [];
    assert Own([], key).None?;
    hide INHERITED;
  }

  /** Rules are skipped where the schema names no type. */
  lemma UntypedRulesAreSkipped(key: string)
    ensures var s := Schema("", None, [key], [], None); Conforms(Plain(Object([])), s) && !Standard(Object([]), s)
  {
    assert key in [key] && Keys<Amount>([]) == [];
  }

  /** An enum never lists an array or an object. */
  lemma CompoundsAreNeverListed(x: Data)
    requires !Primitive(x)
    ensures var s := Schema("", Some([x]), [], [], None);
      !Conforms(Plain(x), s) && (WellKeyed(x) ==> Standard(x, s))
  {
    if WellKeyed(x) {
      SameAsItself(x);
      assert x in [x];
    }
  }

  /** A type word the standard does not have accepts everything. */
  lemma UnknownTypeAcceptsAll(x: Data, kind: string)
    requires kind != "" && kind !in KINDS
    ensures var s := Schema(kind, None, [], [], None); Conforms(Plain(x), s) && !Standard(x, s)
  {
    UnknownKind(x, kind);
    hide KINDS, HasType;
  }

  /** A number beyond the range of a double is no number. */
  lemma InfiniteIsNoNumber(positive: bool)
    ensures var x, s := Number(Infinite(positive)), Schema("number", None, [], [], None);
      !Conforms(Plain(x), s) && Standard(x, s)
  {
  }
}
