/** The canonical JSON text that is hashed and signed. */
module CanonicalJson {
  import opened JsonValues
  import opened JsonText

  // ----- Key orders -----

  /** The order of Array.prototype.sort on strings. */
  predicate Lex(a: string, b: string) {
    b != "" && (a == "" || a[0] < b[0] || (a[0] == b[0] && Lex(a[1..], b[1..])))
  }

  lemma {:induction false} LexIrreflexive(a: string)
    ensures !Lex(a, a)
  {
    if a != "" {
      LexIrreflexive(a[1..]);
    }
  }

  lemma {:induction false} LexTrichotomy(a: string, b: string)
    ensures Lex(a, b) || Lex(b, a) || a == b
    ensures !(Lex(a, b) && Lex(b, a))
  {
    if a != "" && b != "" {
      LexTrichotomy(a[1..], b[1..]);
      if a[0] == b[0] && a[1..] == b[1..] {
        assert a == [a[0]] + a[1..] && b == [b[0]] + b[1..];
      }
    }
  }

  lemma {:induction false} LexTransitive(a: string, b: string, c: string)
    requires Lex(a, b) && Lex(b, c)
    ensures Lex(a, c)
  {
    if a != "" && a[0] == b[0] && b[0] == c[0] {
      LexTransitive(a[1..], b[1..], c[1..]);
    }
  }

  /** An array index in decimal: below 2^32 - 1, without leading zeros. */
  predicate IsIndex(k: string) {
    && k != ""
    && (forall i :: 0 <= i < |k| ==> '0' <= k[i] <= '9')
    && (k[0] == '0' ==> |k| == 1)
    && (|k| < 10 || (|k| == 10 && (Lex(k, "4294967294") || k == "4294967294")))
  }

  /** The order in which an object built key by key in Lex order lists its keys: indices by value, then the rest. */
  predicate Before(a: string, b: string) {
    if IsIndex(a) && IsIndex(b) then |a| < |b| || (|a| == |b| && Lex(a, b))
    else if IsIndex(a) then true
    else if IsIndex(b) then false
    else Lex(a, b)
  }

  lemma BeforeTrichotomy(a: string, b: string)
    ensures Before(a, b) || Before(b, a) || a == b
    ensures !(Before(a, b) && Before(b, a)) && !Before(a, a)
  {
    hide Lex, IsIndex;
    LexTrichotomy(a, b);
    LexIrreflexive(a);
  }

  lemma BeforeTransitive(a: string, b: string, c: string)
    requires Before(a, b) && Before(b, c)
    ensures Before(a, c)
  {
    hide Lex, IsIndex;
    if Lex(a, b) && Lex(b, c) {
      LexTransitive(a, b, c);
    }
  }

  // ----- What the orders mean -----

  /** Dictionary order: a proper beginning comes first, otherwise the first difference decides. */
  lemma {:induction false} LexIff(a: string, b: string)
    ensures Lex(a, b) <==>
      || (a <= b && a != b)
      || exists k :: 0 <= k < |a| && k < |b| && a[..k] == b[..k] && a[k] < b[k]
  {
    if a != "" && b != "" {
      LexIff(a[1..], b[1..]);
      if k :| 0 <= k < |a[1..]| && k < |b[1..]| && a[1..][..k] == b[1..][..k] && a[1..][k] < b[1..][k] && a[0] == b[0] {
        assert a[..k + 1] == [a[0]] + a[1..][..k] && b[..k + 1] == [b[0]] + b[1..][..k];
        assert a[k + 1] < b[k + 1];
      }
      if k :| 0 <= k < |a| && k < |b| && a[..k] == b[..k] && a[k] < b[k] {
        if k == 0 {
          assert a[0] < b[0];
        } else {
          assert a[0] == a[..k][0] == b[..k][0] == b[0];
          assert a[1..][..k - 1] == a[..k][1..] == b[..k][1..] == b[1..][..k - 1];
        }
      }
      if a[0] < b[0] {
        assert a[..0] == b[..0];
      }
      if a[0] == b[0] {
        assert a == [a[0]] + a[1..] && b == [b[0]] + b[1..];
      }
    }
  }

  predicate Digits(s: string) {
    forall i :: 0 <= i < |s| ==> '0' <= s[i] <= '9'
  }

  function Pow10(n: nat): nat {
    if n == 0 then 1 else 10 * Pow10(n - 1)
  }

  function DigitOf(c: char): nat
    requires '0' <= c <= '9'
  {
    c as int - '0' as int
  }

  /** The number that digits spell. */
  function Spelled(s: string): nat
    requires Digits(s)
  {
    if s == "" then 0 else DigitOf(s[0]) * Pow10(|s| - 1) + Spelled(s[1..])
  }

  lemma {:induction false} SpelledBounds(s: string)
    requires Digits(s)
    ensures Spelled(s) < Pow10(|s|)
    ensures s != "" && s[0] != '0' ==> Pow10(|s| - 1) <= Spelled(s)
  {
    if s != "" {
      SpelledBounds(s[1..]);
      SpelledStep(s);
      hide Spelled, Pow10;
      OneDigit(DigitOf(s[0]), Spelled(s[1..]), Pow10(|s| - 1));
    }
  }

  lemma SpelledStep(s: string)
    requires Digits(s) && s != ""
    ensures Spelled(s) == DigitOf(s[0]) * Pow10(|s| - 1) + Spelled(s[1..]) && Pow10(|s|) == 10 * Pow10(|s| - 1)
    ensures DigitOf(s[0]) <= 9 && (s[0] != '0' ==> DigitOf(s[0]) >= 1)
  {
  }

  lemma OneDigit(d: nat, x: nat, p: nat)
    requires d <= 9 && x < p
    ensures d * p + x < 10 * p
    ensures d >= 1 ==> p <= d * p + x
  {
    assert d * p <= 9 * p;
    assert d >= 1 ==> 1 * p <= d * p;
  }

  lemma {:induction false} Pow10Grows(m: nat, n: nat)
    requires m <= n
    ensures 1 <= Pow10(m) <= Pow10(n)
  {
    if m < n {
      Pow10Grows(m, n - 1);
    } else if m > 0 {
      Pow10Grows(m - 1, m - 1);
    }
  }

  lemma {:induction false} LexIsNumeric(a: string, b: string)
    requires Digits(a) && Digits(b) && |a| == |b|
    ensures Lex(a, b) <==> Spelled(a) < Spelled(b)
  {
    if a != "" {
      var p, d, e, x, y := Pow10(|a| - 1), DigitOf(a[0]), DigitOf(b[0]), Spelled(a[1..]), Spelled(b[1..]);
      LexIsNumeric(a[1..], b[1..]);
      SpelledBounds(a[1..]);
      SpelledBounds(b[1..]);
      LeadingDigit(d, e, x, y, p);
    }
  }

  lemma LeadingDigit(d: nat, e: nat, x: nat, y: nat, p: nat)
    requires x < p && y < p
    ensures d * p + x < e * p + y <==> d < e || (d == e && x < y)
  {
    if d < e {
      assert (d + 1) * p <= e * p;
    } else if e < d {
      assert (e + 1) * p <= d * p;
    }
  }

  /** An index is the decimal spelling, without leading zeros, of a number below 2^32 - 1. */
  lemma IndexIff(k: string)
    ensures IsIndex(k) <==> k != "" && Digits(k) && (k[0] != '0' || k == "0") && Spelled(k) < 0x1_0000_0000 - 1
  {
    hide Spelled, Pow10, Lex;
    assert k != "" && k[0] == '0' ==> (|k| == 1 <==> k == "0");
    if k != "" && Digits(k) && (k[0] != '0' || |k| == 1) {
      InRangeIff(k);
    }
  }

  lemma InRangeIff(k: string)
    requires k != "" && Digits(k) && (k[0] != '0' || |k| == 1)
    ensures |k| < 10 || (|k| == 10 && (Lex(k, "4294967294") || k == "4294967294")) <==> Spelled(k) < 0x1_0000_0000 - 1
  {
    hide Spelled, Pow10, Lex;
    SpelledBounds(k);
    TenDigits();
    if |k| < 10 {
      Pow10Grows(|k|, 9);
    } else if |k| > 10 {
      Pow10Grows(10, |k| - 1);
    } else {
      LexIsNumeric(k, "4294967294");
      LexIsNumeric("4294967294", k);
      LexTrichotomy(k, "4294967294");
    }
  }

  lemma TenDigits()
    ensures Digits("4294967294") && Spelled("4294967294") == 4294967294
    ensures Pow10(9) == 1000000000 && Pow10(10) == 10000000000
  {
    hide *;
    Powers();
    SpelledEmpty();
    SpelledCons('4', "", 0, 1, "4");
    SpelledCons('9', "4", 4, 10, "94");
    SpelledCons('2', "94", 94, 100, "294");
    SpelledCons('7', "294", 294, 1000, "7294");
    SpelledCons('6', "7294", 7294, 10000, "67294");
    SpelledCons('9', "67294", 67294, 100000, "967294");
    SpelledCons('4', "967294", 967294, 1000000, "4967294");
    SpelledCons('9', "4967294", 4967294, 10000000, "94967294");
    SpelledCons('2', "94967294", 94967294, 100000000, "294967294");
    SpelledCons('4', "294967294", 294967294, 1000000000, "4294967294");
  }

  lemma SpelledCons(c: char, rest: string, n: nat, p: nat, whole: string)
    requires '0' <= c <= '9' && Digits(rest) && Spelled(rest) == n && Pow10(|rest|) == p && whole == [c] + rest
    ensures Digits(whole) && Spelled(whole) == (c as int - '0' as int) * p + n
  {
    assert whole[1..] == rest;
  }

  lemma SpelledEmpty()
    ensures Digits("") && Spelled("") == 0
  {
  }

  lemma Powers()
    ensures Pow10(0) == 1 && Pow10(1) == 10 && Pow10(2) == 100 && Pow10(3) == 1000 && Pow10(4) == 10000
    ensures Pow10(5) == 100000 && Pow10(6) == 1000000 && Pow10(7) == 10000000 && Pow10(8) == 100000000
    ensures Pow10(9) == 1000000000 && Pow10(10) == 10000000000
  {
    assert Pow10(3) == 1000;
    assert Pow10(6) == 1000000;
    assert Pow10(9) == 1000000000;
  }

  /** Keys that are indices come first, by the number they spell; the others follow in dictionary order. */
  lemma BeforeIff(a: string, b: string)
    ensures Before(a, b) <==>
      if IsIndex(a) && IsIndex(b) then Digits(a) && Digits(b) && Spelled(a) < Spelled(b)
      else IsIndex(a) || (!IsIndex(b) && Lex(a, b))
  {
    if IsIndex(a) && IsIndex(b) {
      SpelledBounds(a);
      SpelledBounds(b);
      if |a| == |b| {
        LexIsNumeric(a, b);
      } else if |a| < |b| {
        Pow10Grows(|a|, |b| - 1);
      } else {
        Pow10Grows(|b|, |a| - 1);
      }
      hide Spelled, Pow10, Lex;
    }
  }

  // ----- Objects -----

  /** The object the assignment `sorted[key] = value` leaves behind.  Assigning to "__proto__" makes no own field. */
  function Assign(fields: seq<Field<Printable>>, f: Field<Printable>): seq<Field<Printable>> {
    if f.key == "__proto__" then fields else Place(fields, f)
  }

  /** A known key keeps its place; a new index goes among the indices, any other new key to the end. */
  function Place(fields: seq<Field<Printable>>, f: Field<Printable>): seq<Field<Printable>> {
    if fields == [] then [f]
    else if fields[0].key == f.key then [f] + fields[1..]
    else if IsIndex(f.key) && f.key !in Keys(fields) && Before(f.key, fields[0].key) then [f] + fields
    else [fields[0]] + Place(fields[1..], f)
  }

  /** Object.keys(obj).sort(), with the fields in tow. */
  function Insert(f: Field<Printable>, fields: seq<Field<Printable>>): seq<Field<Printable>> {
    if fields == [] || !Lex(fields[0].key, f.key) then [f] + fields
    else [fields[0]] + Insert(f, fields[1..])
  }

  function SortFields(fields: seq<Field<Printable>>): seq<Field<Printable>> {
    if fields == [] then [] else Insert(fields[0], SortFields(fields[1..]))
  }

  function AssignAll(fields: seq<Field<Printable>>): seq<Field<Printable>> {
    if fields == [] then []
    else Assign(AssignAll(fields[..|fields| - 1]), fields[|fields| - 1])
  }

  /** sortKeys. */
  function Canon(v: Value): Value {
    match v
    case Array(items) => Array(seq(|items|, i requires 0 <= i < |items| => Canon(items[i])))
    case Object(fields) => Object(AssignAll(SortFields(CanonFields(fields))))
    case _ => v
  }

  function CanonFields(fields: seq<Field<Printable>>): (r: seq<Field<Printable>>)
    ensures |r| == |fields| && forall i :: 0 <= i < |fields| ==> r[i] == Field(fields[i].key, Canon(fields[i].value))
  {
    seq(|fields|, i requires 0 <= i < |fields| => Field(fields[i].key, Canon(fields[i].value)))
  }

  lemma CanonOfArray(items: seq<Value>, out: seq<Value>)
    requires |out| == |items| && forall i :: 0 <= i < |items| ==> out[i] == Canon(items[i])
    ensures Canon(Array(items)) == Array(out)
  {
    assert Canon(Array(items)).items == out;
  }

  lemma CanonOfObject(fields: seq<Field<Printable>>)
    ensures Canon(Object(fields)) == Object(AssignAll(CanonFields(SortFields(fields))))
  {
    SortThenCanon(fields);
  }

  lemma AssignStep(fields: seq<Field<Printable>>, i: nat)
    requires i < |fields|
    ensures AssignAll(fields[..i + 1]) == Assign(AssignAll(fields[..i]), fields[i])
  {
    assert fields[..i + 1][..i] == fields[..i];
  }

  lemma NothingAssigned()
    ensures AssignAll([]) == []
  {
  }

  /** The recursion and the loop of sortKeys. */
  method SortKeys(v: Value) returns (r: Value)
    ensures r == Canon(v)
    decreases v
  {
    hide Canon, CanonFields, AssignAll, Assign, SortFields;
    match v
    case Array(items) =>
      var out: seq<Value> := [];
      for i := 0 to |items|
        invariant |out| == i && forall k :: 0 <= k < i ==> out[k] == Canon(items[k])
      {
        var x := SortKeys(items[i]);
        out := out + [x];
      }
      CanonOfArray(items, out);
      r := Array(out);
    case Object(fields) =>
      var ordered := SortFields(fields);
      ghost var canon := CanonFields(ordered);
      var sorted: seq<Field<Printable>> := [];
      SortMembers(fields);
      NothingAssigned();
      for i := 0 to |ordered|
        invariant sorted == AssignAll(canon[..i])
      {
        assert ordered[i] in fields;
        var k :| 0 <= k < |fields| && fields[k] == ordered[i];
        var value := SortKeys(fields[k].value);
        sorted := Assign(sorted, Field(ordered[i].key, value));
        AssignStep(canon, i);
      }
      assert canon[..|ordered|] == canon;
      CanonOfObject(fields);
      r := Object(sorted);
    case _ =>
      CanonOfOther(v);
      r := v;
  }

  lemma CanonOfOther(v: Value)
    requires !v.Array? && !v.Object?
    ensures Canon(v) == v
  {
  }

  // ----- Sorting -----

  lemma {:induction false} InsertMembers(f: Field<Printable>, fields: seq<Field<Printable>>)
    ensures |Insert(f, fields)| == |fields| + 1
    ensures forall g :: g in Insert(f, fields) <==> g == f || g in fields
  {
    if !(fields == [] || !Lex(fields[0].key, f.key)) {
      InsertMembers(f, fields[1..]);
      assert forall g :: g in fields <==> g == fields[0] || g in fields[1..];
    }
  }

  lemma {:induction false} SortMembers(fields: seq<Field<Printable>>)
    ensures |SortFields(fields)| == |fields|
    ensures forall g :: g in SortFields(fields) <==> g in fields
  {
    if fields != [] {
      SortMembers(fields[1..]);
      InsertMembers(fields[0], SortFields(fields[1..]));
      assert forall g :: g in fields <==> g == fields[0] || g in fields[1..];
    }
  }

  lemma {:induction false} InsertThenCanon(f: Field<Printable>, fields: seq<Field<Printable>>)
    ensures CanonFields(Insert(f, fields)) == Insert(Field(f.key, Canon(f.value)), CanonFields(fields))
  {
    hide Canon, Lex;
    if !(fields == [] || !Lex(fields[0].key, f.key)) {
      InsertThenCanon(f, fields[1..]);
      assert CanonFields(fields)[1..] == CanonFields(fields[1..]);
    }
  }

  lemma {:induction false} SortThenCanon(fields: seq<Field<Printable>>)
    ensures CanonFields(SortFields(fields)) == SortFields(CanonFields(fields))
  {
    hide Canon, Insert;
    if fields != [] {
      SortThenCanon(fields[1..]);
      InsertThenCanon(fields[0], SortFields(fields[1..]));
      assert CanonFields(fields)[1..] == CanonFields(fields[1..]);
    }
  }

  ghost predicate LexSorted(fields: seq<Field<Printable>>) {
    forall i, j :: 0 <= i < j < |fields| ==> Lex(fields[i].key, fields[j].key)
  }

  /** Strictly in the order the object lists its keys. */
  ghost predicate InOrder(fields: seq<Field<Printable>>) {
    forall i, j :: 0 <= i < j < |fields| ==> Before(fields[i].key, fields[j].key)
  }

  lemma {:induction false} InsertLexSorted(f: Field<Printable>, fields: seq<Field<Printable>>)
    requires LexSorted(fields) && forall g :: g in fields ==> g.key != f.key
    ensures LexSorted(Insert(f, fields))
  {
    hide Lex;
    InsertMembers(f, fields);
    if fields == [] {
    } else if !Lex(fields[0].key, f.key) {
      LexTrichotomy(fields[0].key, f.key);
      forall j | 0 < j < |fields| ensures Lex(f.key, fields[j].key) {
        LexTransitive(f.key, fields[0].key, fields[j].key);
      }
    } else {
      InsertLexSorted(f, fields[1..]);
      var rest := Insert(f, fields[1..]);
      InsertMembers(f, fields[1..]);
      forall j | 0 <= j < |rest| ensures Lex(fields[0].key, rest[j].key) {
        assert rest[j] in rest;
      }
    }
  }

  lemma {:induction false} SortLexSorted(fields: seq<Field<Printable>>)
    requires DistinctKeys(fields)
    ensures LexSorted(SortFields(fields))
  {
    if fields != [] {
      SortLexSorted(fields[1..]);
      SortMembers(fields[1..]);
      InsertLexSorted(fields[0], SortFields(fields[1..]));
    }
  }

  /** Where a new field goes: the result is in order if the field comes after all names that are no index. */
  lemma {:induction false} PlaceInOrder(fields: seq<Field<Printable>>, f: Field<Printable>)
    requires InOrder(fields)
    requires forall g :: g in fields ==> g.key != f.key && (!IsIndex(g.key) && !IsIndex(f.key) ==> Lex(g.key, f.key))
    ensures InOrder(Place(fields, f))
    ensures forall g :: g in Place(fields, f) <==> g == f || g in fields
  {
    hide Lex, IsIndex;
    if fields == [] {
    } else if IsIndex(f.key) && Before(f.key, fields[0].key) {
      assert f.key !in Keys(fields);
      forall j | 0 < j < |fields| ensures Before(f.key, fields[j].key) {
        BeforeTransitive(f.key, fields[0].key, fields[j].key);
      }
    } else {
      assert fields[0] in fields;
      BeforeTrichotomy(f.key, fields[0].key);
      PlaceInOrder(fields[1..], f);
      var rest := Place(fields[1..], f);
      assert forall g :: g in fields <==> g == fields[0] || g in fields[1..];
      forall j | 0 <= j < |rest| ensures Before(fields[0].key, rest[j].key) {
        assert rest[j] in rest;
      }
    }
  }

  lemma {:induction false} AssignAllInOrder(fields: seq<Field<Printable>>)
    requires LexSorted(fields)
    ensures InOrder(AssignAll(fields))
    ensures forall g :: g in AssignAll(fields) <==> g in fields && g.key != "__proto__"
  {
    hide Lex, IsIndex;
    if fields != [] {
      var front, last := fields[..|fields| - 1], fields[|fields| - 1];
      AssignAllInOrder(front);
      assert forall g :: g in fields <==> g == last || g in front;
      LexIrreflexive(last.key);
      if last.key != "__proto__" {
        PlaceInOrder(AssignAll(front), last);
      }
    }
  }

  /** Two lists in order with the same members are the same list. */
  lemma {:induction false} InOrderUnique(a: seq<Field<Printable>>, b: seq<Field<Printable>>)
    requires InOrder(a) && InOrder(b) && forall g :: g in a <==> g in b
    ensures a == b
  {
    hide Before;
    assert (a != [] ==> a[0] in a) && (b != [] ==> b[0] in b);
    if a != [] {
      BeforeTrichotomy(a[0].key, b[0].key);
      assert a[0] == b[0];
      forall g ensures g in a[1..] <==> g in b[1..] {
        Remaining(a, g);
        Remaining(b, g);
      }
      InOrderUnique(a[1..], b[1..]);
    }
  }

  lemma Remaining(a: seq<Field<Printable>>, g: Field<Printable>)
    requires InOrder(a) && a != []
    ensures g in a[1..] <==> g in a && g != a[0]
  {
    hide Before;
    BeforeTrichotomy(a[0].key, a[0].key);
  }

  // ----- Equal up to the order of keys -----

  const LOST := {"__proto__"}

  lemma CanonFieldsMembers(fields: seq<Field<Printable>>)
    requires DistinctKeys(fields)
    ensures var r := AssignAll(SortFields(CanonFields(fields)));
      InOrder(r) && forall g :: g in r <==> g in CanonFields(fields) && g.key != "__proto__"
  {
    SortLexSorted(CanonFields(fields));
    SortMembers(CanonFields(fields));
    AssignAllInOrder(SortFields(CanonFields(fields)));
  }

  /** Same members in canonical form, except lost ones. */
  ghost predicate SameMembers(a: seq<Field<Printable>>, b: seq<Field<Printable>>) {
    forall g :: g in CanonFields(a) && g.key != "__proto__" <==> g in CanonFields(b) && g.key != "__proto__"
  }

  lemma {:induction false} SameIffCanonEqual(v: Value, w: Value)
    requires WellKeyed(v) && WellKeyed(w)
    ensures Same(v, w, LOST) <==> Canon(v) == Canon(w)
    decreases v
  {
    if v.Array? && w.Array? {
      SameItemsIffCanonEqual(v, w);
    } else if v.Object? && w.Object? {
      forall i, j | 0 <= i < |v.fields| && 0 <= j < |w.fields|
        ensures Same(v.fields[i].value, w.fields[j].value, LOST) <==>
          Canon(v.fields[i].value) == Canon(w.fields[j].value)
      {
        SameIffCanonEqual(v.fields[i].value, w.fields[j].value);
      }
      CanonFieldsMembers(v.fields);
      CanonFieldsMembers(w.fields);
      SameIffSameMembers(v.fields, w.fields);
      if SameMembers(v.fields, w.fields) {
        InOrderUnique(Canon(v).fields, Canon(w).fields);
      }
    }
  }

  lemma {:induction false} SameItemsIffCanonEqual(v: Value, w: Value)
    requires v.Array? && w.Array? && WellKeyed(v) && WellKeyed(w)
    ensures Same(v, w, LOST) <==> Canon(v) == Canon(w)
    decreases v, 0
  {
    var a, b := Canon(v).items, Canon(w).items;
    assert |a| == |v.items| && forall i :: 0 <= i < |a| ==> a[i] == Canon(v.items[i]);
    assert |b| == |w.items| && forall i :: 0 <= i < |b| ==> b[i] == Canon(w.items[i]);
    if |v.items| == |w.items| {
      forall i | 0 <= i < |v.items| ensures Same(v.items[i], w.items[i], LOST) <==> a[i] == b[i] {
        SameIffCanonEqual(v.items[i], w.items[i]);
      }
    }
  }

  ghost predicate ValuesAgree(a: seq<Field<Printable>>, b: seq<Field<Printable>>) {
    forall i, j :: 0 <= i < |a| && 0 <= j < |b| ==>
      (Same(a[i].value, b[j].value, LOST) <==> Canon(a[i].value) == Canon(b[j].value))
  }

  lemma SameIffSameMembers(a: seq<Field<Printable>>, b: seq<Field<Printable>>)
    requires DistinctKeys(a) && DistinctKeys(b) && ValuesAgree(a, b)
    ensures SameFields(a, b, LOST) <==> SameMembers(a, b)
  {
    hide Canon, Same, SameFields, ValuesAgree, DistinctKeys;
    if SameFields(a, b, LOST) {
      forall g: Field<Printable> | g.key != "__proto__" ensures g in CanonFields(a) <==> g in CanonFields(b) {
        SameMember(a, b, g);
      }
    }
    if SameMembers(a, b) {
      SameMembersSameFields(a, b);
    }
  }

  lemma SameMembersSameFields(a: seq<Field<Printable>>, b: seq<Field<Printable>>)
    requires DistinctKeys(a) && DistinctKeys(b) && ValuesAgree(a, b) && SameMembers(a, b)
    ensures SameFields(a, b, LOST)
  {
    var c, d := CanonFields(a), CanonFields(b);
    hide Canon, CanonFields, Same;
    forall i | 0 <= i < |a| && a[i].key !in LOST ensures exists k :: 0 <= k < |b| && d[k] == c[i] {
      assert c[i] in c && c[i] in d;
    }
    forall k | 0 <= k < |b| && b[k].key !in LOST ensures exists i :: 0 <= i < |a| && c[i] == d[k] {
      assert d[k] in d && d[k] in c;
    }
    forall key | key !in LOST ensures key in Keys(a) <==> key in Keys(b) {
      if key in Keys(a) {
        var i :| 0 <= i < |a| && Keys(a)[i] == key;
        var k :| 0 <= k < |b| && d[k] == c[i];
        assert Keys(b)[k] == key;
      }
      if key in Keys(b) {
        var k :| 0 <= k < |b| && Keys(b)[k] == key;
        var i :| 0 <= i < |a| && c[i] == d[k];
        assert Keys(a)[i] == key;
      }
    }
    forall i, j | 0 <= i < |a| && 0 <= j < |b| && a[i].key == b[j].key && a[i].key !in LOST
      ensures Same(a[i].value, b[j].value, LOST)
    {
      var k :| 0 <= k < |b| && d[k] == c[i];
      assert b[k].key == b[j].key;
    }
  }

  lemma SameMember(a: seq<Field<Printable>>, b: seq<Field<Printable>>, g: Field<Printable>)
    requires ValuesAgree(a, b) && SameFields(a, b, LOST) && g.key != "__proto__"
    ensures g in CanonFields(a) <==> g in CanonFields(b)
  {
    var c, d := CanonFields(a), CanonFields(b);
    assert g.key !in LOST;
    hide Canon, CanonFields, Same;
    assert g.key in Keys(a) <==> g.key in Keys(b);
    if g in c {
      var i :| 0 <= i < |a| && c[i] == g;
      assert Keys(a)[i] == g.key;
      var j :| 0 <= j < |b| && Keys(b)[j] == g.key;
      assert d[j] == g;
    }
    if g in d {
      var j :| 0 <= j < |b| && d[j] == g;
      assert Keys(b)[j] == g.key;
      var i :| 0 <= i < |a| && Keys(a)[i] == g.key;
      assert c[i] == g;
    }
  }

  // ----- Texts -----

  /** canonicalJson. */
  method CanonicalText(v: Value) returns (text: string)
    ensures text == Print(Canon(v))
  {
    var sorted := SortKeys(v);
    text := Print(sorted);
  }

  lemma {:induction false} ShownWellKeyed(v: Value)
    requires WellKeyed(v)
    ensures WellKeyed(Shown(v))
    decreases v
  {
    match v
    case Array(items) =>
      forall i | 0 <= i < |items| ensures WellKeyed(Shown(items[i])) {
        ShownWellKeyed(items[i]);
      }
    case Object(fields) =>
      forall i | 0 <= i < |fields| ensures WellKeyed(Shown(fields[i].value)) {
        ShownWellKeyed(fields[i].value);
      }
    case _ =>
  }

  /** It does not matter whether infinite numbers are replaced before sorting or after. */
  lemma {:induction false} ShownCanon(v: Value)
    requires WellKeyed(v)
    ensures Shown(Canon(v)) == Canon(Shown(v))
    decreases v
  {
    match v
    case Array(items) =>
      forall i | 0 <= i < |items| ensures Shown(Canon(items[i])) == Canon(Shown(items[i])) {
        ShownCanon(items[i]);
      }
      assert ShownItems(Canon(v).items) == Canon(Shown(v)).items;
    case Object(fields) =>
      forall i | 0 <= i < |fields| ensures Shown(Canon(fields[i].value)) == Canon(Shown(fields[i].value)) {
        ShownCanon(fields[i].value);
      }
      CanonFieldsMembers(fields);
      CanonFieldsMembers(ShownFields(fields));
      ShownMembers(fields, Canon(v).fields, Canon(Shown(v)).fields);
    case _ =>
  }

  lemma ShownMembers(fields: seq<Field<Printable>>, r: seq<Field<Printable>>, q: seq<Field<Printable>>)
    requires InOrder(r) && forall g :: g in r <==> g in CanonFields(fields) && g.key != "__proto__"
    requires InOrder(q) && forall g :: g in q <==> g in CanonFields(ShownFields(fields)) && g.key != "__proto__"
    requires forall i :: 0 <= i < |fields| ==> Shown(Canon(fields[i].value)) == Canon(Shown(fields[i].value))
    ensures ShownFields(r) == q
  {
    hide Canon, Shown, Before, CanonFields, ShownFields;
    assert InOrder(ShownFields(r));
    hide InOrder;
    forall g ensures g in ShownFields(r) <==> g in q {
      if g in ShownFields(r) {
        ShownMember(fields, r, q, g);
      }
      if g in q {
        MemberShown(fields, r, q, g);
      }
    }
    InOrderUnique(ShownFields(r), q);
  }

  lemma ShownMember(fields: seq<Field<Printable>>, r: seq<Field<Printable>>, q: seq<Field<Printable>>,
    g: Field<Printable>)
    requires forall h :: h in r ==> h in CanonFields(fields) && h.key != "__proto__"
    requires forall h :: h in CanonFields(ShownFields(fields)) && h.key != "__proto__" ==> h in q
    requires forall i :: 0 <= i < |fields| ==> Shown(Canon(fields[i].value)) == Canon(Shown(fields[i].value))
    requires g in ShownFields(r)
    ensures g in q
  {
    hide Canon, Shown, CanonFields, ShownFields;
    var c, d, s := CanonFields(fields), CanonFields(ShownFields(fields)), ShownFields(r);
    var i :| 0 <= i < |s| && s[i] == g;
    assert r[i] in r;
    var j :| 0 <= j < |c| && c[j] == r[i];
    assert d[j] in d && d[j] == g;
  }

  lemma MemberShown(fields: seq<Field<Printable>>, r: seq<Field<Printable>>, q: seq<Field<Printable>>,
    g: Field<Printable>)
    requires forall h :: h in CanonFields(fields) && h.key != "__proto__" ==> h in r
    requires forall h :: h in q ==> h in CanonFields(ShownFields(fields)) && h.key != "__proto__"
    requires forall i :: 0 <= i < |fields| ==> Shown(Canon(fields[i].value)) == Canon(Shown(fields[i].value))
    requires g in q
    ensures g in ShownFields(r)
  {
    hide Canon, Shown, CanonFields, ShownFields;
    var c, d, s := CanonFields(fields), CanonFields(ShownFields(fields)), ShownFields(r);
    var j :| 0 <= j < |d| && d[j] == g;
    assert c[j] in c && c[j] in r;
    var i :| 0 <= i < |r| && r[i] == c[j];
    assert s[i] == g;
  }

  /** Two values have the same canonical text exactly when they are equal up to the order of keys, fields named
      "__proto__" aside, and with every infinite number read as null. */
  lemma TextsEqualIff(v: Value, w: Value)
    requires WellKeyed(v) && WellKeyed(w)
    ensures Print(Canon(v)) == Print(Canon(w)) <==> Same(Shown(v), Shown(w), LOST)
  {
    hide *;
    ShownWellKeyed(v);
    ShownWellKeyed(w);
    SameIffCanonEqual(Shown(v), Shown(w));
    ShownCanon(v);
    ShownCanon(w);
    PrintShown(Canon(v));
    PrintShown(Canon(w));
    if Print(Canon(v)) == Print(Canon(w)) {
      assert Print(Canon(v)) + "" == Print(Canon(w)) + "";
      assert Delimited("") by { NothingFollows(); }
      PrintUnique(Canon(v), Canon(w), "", "");
    }
  }

  lemma NothingFollows()
    ensures Delimited("")
  {
  }

  lemma {:induction false} FiniteIsShown(v: Value)
    requires AllFinite(v)
    ensures Shown(v) == v
    decreases v
  {
    match v
    case Array(items) =>
      forall i | 0 <= i < |items| ensures Shown(items[i]) == items[i] {
        FiniteIsShown(items[i]);
      }
    case Object(fields) =>
      forall i | 0 <= i < |fields| ensures Shown(fields[i].value) == fields[i].value {
        FiniteIsShown(fields[i].value);
      }
    case _ =>
  }

  predicate ProtoFree(v: Value) {
    match v
    case Array(items) => forall i :: 0 <= i < |items| ==> ProtoFree(items[i])
    case Object(fields) => forall i :: 0 <= i < |fields| ==> fields[i].key != "__proto__" && ProtoFree(fields[i].value)
    case _ => true
  }

  lemma {:induction false} NothingLost(v: Value, w: Value)
    requires ProtoFree(v) && ProtoFree(w)
    ensures Same(v, w, {}) <==> Same(v, w, LOST)
    decreases v
  {
    if v.Array? && w.Array? && |v.items| == |w.items| {
      forall i | 0 <= i < |v.items| ensures Same(v.items[i], w.items[i], {}) <==> Same(v.items[i], w.items[i], LOST) {
        NothingLost(v.items[i], w.items[i]);
      }
    } else if v.Object? && w.Object? {
      var a, b := v.fields, w.fields;
      forall i, j | 0 <= i < |a| && 0 <= j < |b|
        ensures Same(a[i].value, b[j].value, {}) <==> Same(a[i].value, b[j].value, LOST)
      {
        NothingLost(a[i].value, b[j].value);
      }
      assert "__proto__" !in Keys(a) && "__proto__" !in Keys(b);
    }
  }

  /** Without "__proto__" keys and infinite numbers: the same text exactly when equal up to the order of keys at every
      depth. */
  lemma PlainTextsEqualIff(v: Value, w: Value)
    requires WellKeyed(v) && WellKeyed(w) && ProtoFree(v) && ProtoFree(w) && AllFinite(v) && AllFinite(w)
    ensures Print(Canon(v)) == Print(Canon(w)) <==> Same(v, w, {})
  {
    hide *;
    TextsEqualIff(v, w);
    FiniteIsShown(v);
    FiniteIsShown(w);
    NothingLost(v, w);
  }

  /** An infinite number, such as 1e999 is read as, signs like null. */
  lemma InfinitySignsLikeNull(positive: bool)
    ensures var v, w := Array([Number(Infinite(positive))]), Array([Null]);
      !Same(v, w, {}) && Print(Canon(v)) == Print(Canon(w)) == "[null]"
  {
    var v, w := Array([Number(Infinite(positive))]), Array([Null]);
    assert v.items[0] == Number(Infinite(positive)) && w.items[0] == Null;
    assert Canon(v).items == v.items && Canon(w).items == w.items;
    assert v.items[1..] == [] && w.items[1..] == [];
    assert PrintItems([], ",") == "]";
    assert PrintItems(v.items, "") == "" + ("null" + "]") && PrintItems(w.items, "") == "" + ("null" + "]");
  }

  /** A "__proto__" field is not signed: with it and without it the text is the same. */
  lemma ProtoIsLost(x: Value)
    requires WellKeyed(x)
    ensures var v, w := Object([Field("__proto__", x)]), Object([]);
      !Same(v, w, {}) && Print(Canon(v)) == Print(Canon(w))
  {
    var v, w := Object([Field("__proto__", x)]), Object([]);
    assert Keys(v.fields)[0] == "__proto__" && Keys(w.fields) == [];
    assert "__proto__" in Keys(v.fields) && !SameFields(v.fields, w.fields, {});
    assert Shown(w) == w && Keys(Shown(v).fields)[0] == "__proto__";
    assert Same(Shown(v), Shown(w), LOST);
    TextsEqualIff(v, w);
  }

  // ----- The canonical value -----

  /** Every object lists its keys in order. */
  ghost predicate Ordered(v: Value) {
    match v
    case Array(items) => forall i :: 0 <= i < |items| ==> Ordered(items[i])
    case Object(fields) => InOrder(fields) && forall i :: 0 <= i < |fields| ==> Ordered(fields[i].value)
    case _ => true
  }

  lemma InOrderDistinct(fields: seq<Field<Printable>>)
    requires InOrder(fields)
    ensures DistinctKeys(fields)
  {
    hide Before;
    forall i, j | 0 <= i < j < |fields| ensures fields[i].key != fields[j].key {
      BeforeTrichotomy(fields[i].key, fields[j].key);
    }
  }

  /** The canonical value has its keys in order everywhere and means the same as the original. */
  lemma {:induction false} CanonIsOrdered(v: Value)
    requires WellKeyed(v)
    ensures Ordered(Canon(v)) && WellKeyed(Canon(v)) && ProtoFree(Canon(v)) && Same(Canon(v), v, LOST)
    decreases v
  {
    match v
    case Array(items) =>
      forall i | 0 <= i < |items|
        ensures Ordered(Canon(items[i])) && WellKeyed(Canon(items[i])) && ProtoFree(Canon(items[i])) &&
          Same(Canon(items[i]), items[i], LOST)
      {
        CanonIsOrdered(items[i]);
      }
    case Object(fields) =>
      var r, c := Canon(v).fields, CanonFields(fields);
      CanonFieldsMembers(fields);
      InOrderDistinct(r);
      forall i | 0 <= i < |fields|
        ensures Ordered(c[i].value) && WellKeyed(c[i].value) && ProtoFree(c[i].value) &&
          Same(c[i].value, fields[i].value, LOST)
      {
        CanonIsOrdered(fields[i].value);
      }
      ObjectIsOrdered(r, fields);
    case _ =>
  }

  lemma ObjectIsOrdered(r: seq<Field<Printable>>, fields: seq<Field<Printable>>)
    requires InOrder(r) && DistinctKeys(r) && DistinctKeys(fields)
    requires forall g :: g in r <==> g in CanonFields(fields) && g.key != "__proto__"
    requires forall i :: 0 <= i < |fields| ==> var x := CanonFields(fields)[i].value;
      Ordered(x) && WellKeyed(x) && ProtoFree(x) && Same(x, fields[i].value, LOST)
    ensures Ordered(Object(r)) && WellKeyed(Object(r)) && ProtoFree(Object(r)) && SameFields(r, fields, LOST)
  {
    hide Canon, Same;
    var c := CanonFields(fields);
    forall i | 0 <= i < |r| ensures r[i].key != "__proto__" && exists j :: 0 <= j < |fields| && r[i] == c[j] {
      assert r[i] in r;
    }
    forall k | k !in LOST ensures k in Keys(r) <==> k in Keys(fields) {
      if k in Keys(r) {
        var i :| 0 <= i < |r| && Keys(r)[i] == k;
        var j :| 0 <= j < |fields| && r[i] == c[j];
        assert Keys(fields)[j] == k;
      }
      if k in Keys(fields) {
        var j :| 0 <= j < |fields| && Keys(fields)[j] == k;
        assert c[j] in c;
        var i :| 0 <= i < |r| && r[i] == c[j];
        assert Keys(r)[i] == k;
      }
    }
    forall i, j | 0 <= i < |r| && 0 <= j < |fields| && r[i].key == fields[j].key
      ensures Same(r[i].value, fields[j].value, LOST)
    {
      var k :| 0 <= k < |fields| && r[i] == c[k];
      assert fields[k].key == fields[j].key;
    }
  }

  /** Sorting again changes nothing. */
  lemma CanonIdempotent(v: Value)
    requires WellKeyed(v)
    ensures Canon(Canon(v)) == Canon(v)
  {
    hide *;
    CanonIsOrdered(v);
    SameIffCanonEqual(Canon(v), v);
  }

  /** Reading the canonical text gives the value back, up to the order of keys, fields named "__proto__" aside, and with
      every infinite number read as null; nothing is left over. */
  lemma CanonicalReadsBack(v: Value)
    requires WellKeyed(v)
    ensures var r := ReadValue(Print(Canon(v)));
      r.Read? && r.rest == "" && Ordered(r.value) && Same(r.value, Shown(v), LOST)
  {
    hide *;
    ShownWellKeyed(v);
    ShownCanon(v);
    CanonIsOrdered(Shown(v));
    NothingFollows();
    PrintRead(Canon(v), "");
    assert Print(Canon(v)) + "" == Print(Canon(v));
  }

  /** The order is that of sort() exactly when no array index stands before a smaller other key or a smaller longer
      index. */
  lemma SortedIffNoIndexOvertakes(fields: seq<Field<Printable>>)
    requires InOrder(fields)
    ensures LexSorted(fields) <==>
      forall i, j :: 0 <= i < j < |fields| && IsIndex(fields[i].key) ==> Lex(fields[i].key, fields[j].key)
  {
    hide Lex, IsIndex;
    if forall i, j :: 0 <= i < j < |fields| && IsIndex(fields[i].key) ==> Lex(fields[i].key, fields[j].key) {
      forall i, j | 0 <= i < j < |fields| ensures Lex(fields[i].key, fields[j].key) {
        assert Before(fields[i].key, fields[j].key);
      }
    }
  }

  /** The keys "9" and "10" are listed by value, against the order of sort(). */
  lemma IndicesByValue(x: Value, y: Value)
    ensures Canon(Object([Field("10", x), Field("9", y)])) == Object([Field("9", Canon(y)), Field("10", Canon(x))])
    ensures Lex("10", "9")
  {
    var f := [Field("10", x), Field("9", y)];
    var r := [Field("9", Canon(y)), Field("10", Canon(x))];
    hide *;
    TenAndNine();
    CanonOfTwo(f);
    CanonFieldsMembers(f);
    TwoMembers(f, r);
    InOrderUnique(AssignAll(SortFields(CanonFields(f))), r);
  }

  lemma CanonOfTwo(f: seq<Field<Printable>>)
    requires |f| == 2 && f[0].key != f[1].key
    ensures DistinctKeys(f) && Canon(Object(f)) == Object(AssignAll(SortFields(CanonFields(f))))
  {
    hide AssignAll, SortFields, CanonFields;
  }

  /** Two canonical fields in the other order. */
  lemma TwoMembers(f: seq<Field<Printable>>, r: seq<Field<Printable>>)
    requires |f| == 2 && f[0].key == "10" && f[1].key == "9"
    requires r == [Field("9", Canon(f[1].value)), Field("10", Canon(f[0].value))]
    ensures InOrder(r) && forall g :: g in r <==> g in CanonFields(f) && g.key != "__proto__"
  {
    TenAndNine();
    hide Canon, IsIndex, Lex;
    var c := CanonFields(f);
    assert c == [r[1], r[0]];
    assert Before("9", "10");
  }

  lemma TenAndNine()
    ensures IsIndex("9") && IsIndex("10") && Lex("10", "9") && !Lex("9", "10")
    ensures "9" != "10" && "9" != "__proto__" && "10" != "__proto__"
  {
    assert |"__proto__"| == 9;
  }
}
