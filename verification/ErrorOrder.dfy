/** The order in which the validator reports: what a rejected output is told first. */
module ErrorOrder {
  import opened Collections
  import opened JsonValues
  import opened Quality

  /** A problem seen from n steps further down. */
  function Under(q: Problem, n: nat): Problem
    requires n <= |q.path|
  {
    Problem(q.path[n..], q.flaw)
  }

  /** A key of the value itself is missing. */
  predicate MissesKey(q: Problem) {
    q.flaw == Missing && |q.path| == 1 && q.path[0].Key?
  }

  /** Of two problems of a value the first comes no later than the second: the value itself comes before what is in it,
      missing keys in the order of the schema before its properties in the order of the schema, items by index, and
      inside a property or an item the same again. */
  ghost predicate InTurn(s: Schema, p: Problem, q: Problem)
    decreases s, 1
  {
    || p.path == []
    || KeysInTurn(s.required, p, q)
    || (MissesKey(p) && q.path != [] && !MissesKey(q))
    || PropertiesInTurn(s.properties, p, q)
    || (s.items.Some? && ItemsInTurn(s.items.value, p, q))
  }

  ghost predicate KeysInTurn(required: seq<string>, p: Problem, q: Problem) {
    && MissesKey(p) && MissesKey(q)
    && exists a, b :: 0 <= a < b < |required| && p.path[0] == Key(required[a]) && q.path[0] == Key(required[b])
  }

  ghost predicate PropertiesInTurn(properties: seq<Property>, p: Problem, q: Problem)
    decreases properties, 0
  {
    && p.path != [] && q.path != [] && !MissesKey(p) && !MissesKey(q)
    && exists a, b :: 0 <= a <= b < |properties|
         && p.path[0] == Key(properties[a].key) && q.path[0] == Key(properties[b].key)
         && (a == b ==> InTurn(properties[a].schema, Under(p, 1), Under(q, 1)))
  }

  ghost predicate ItemsInTurn(s: Schema, p: Problem, q: Problem)
    decreases s, 2
  {
    && p.path != [] && q.path != [] && p.path[0].Index? && q.path[0].Index?
    && (p.path[0].i < q.path[0].i || (p.path[0].i == q.path[0].i && InTurn(s, Under(p, 1), Under(q, 1))))
  }

  ghost predicate Sequenced(s: Schema, errors: seq<Problem>, n: nat) {
    && (forall q :: q in errors ==> n <= |q.path|)
    && forall i, j :: 0 <= i < j < |errors| ==> InTurn(s, Under(errors[i], n), Under(errors[j], n))
  }

  lemma SequencedConcat(s: Schema, a: seq<Problem>, b: seq<Problem>, n: nat)
    requires Sequenced(s, a, n) && Sequenced(s, b, n)
    requires forall p, q :: p in a && q in b ==> InTurn(s, Under(p, n), Under(q, n))
    ensures Sequenced(s, a + b, n)
  {
    hide InTurn;
    forall i, j | 0 <= i < j < |a + b| ensures InTurn(s, Under((a + b)[i], n), Under((a + b)[j], n)) {
      if i < |a| && j >= |a| {
        assert a[i] in a && b[j - |a|] in b;
      }
    }
  }

  lemma NothingSequenced(s: Schema, n: nat)
    ensures Sequenced(s, [], n)
  {
  }

  /** The first k required keys. */
  lemma {:induction false} MissingSequenced(v: Value, s: Schema, k: nat, path: seq<Step>)
    requires IsObject(v) && k <= |s.required|
    ensures var errors := MissingErrors(v, s.required[..k], path);
      && Sequenced(s, errors, |path|)
      && forall q :: q in errors ==>
           q.flaw == Missing && exists a :: 0 <= a < k && q.path == path + [Key(s.required[a])]
  {
    if k == 0 {
      NothingSequenced(s, |path|);
    } else {
      hide Member, InTurn;
      MissingSequenced(v, s, k - 1, path);
      assert s.required[..k][..k - 1] == s.required[..k - 1];
      var front, x := MissingErrors(v, s.required[..k - 1], path), Problem(path + [Key(s.required[k - 1])], Missing);
      forall p | p in front ensures InTurn(s, Under(p, |path|), Under(x, |path|)) {
        var a :| 0 <= a < k - 1 && p.path == path + [Key(s.required[a])];
        EarlierKey(s, p, x, path, a, k - 1);
      }
      assert Sequenced(s, [x], |path|);
      SequencedConcat(s, front, [x], |path|);
    }
  }

  lemma EarlierKey(s: Schema, p: Problem, q: Problem, path: seq<Step>, a: nat, b: nat)
    requires a < b < |s.required| && p.flaw == Missing && q.flaw == Missing
    requires p.path == path + [Key(s.required[a])] && q.path == path + [Key(s.required[b])]
    ensures InTurn(s, Under(p, |path|), Under(q, |path|))
  {
    assert p.path[|path|..] == [Key(s.required[a])] && q.path[|path|..] == [Key(s.required[b])];
    assert KeysInTurn(s.required, Under(p, |path|), Under(q, |path|));
  }

  /** Problems below a step, no longer seen as missing keys of the value above it. */
  lemma BelowStep(v: Value, s: Schema, path: seq<Step>, step: Step, q: Problem)
    requires q in Errors(v, s, path + [step])
    ensures |path| < |q.path| && q.path[|path|] == step && path <= q.path && path + [step] <= q.path
    ensures !MissesKey(Under(q, |path|))
    ensures Under(Under(q, |path|), 1) == Under(q, |path| + 1) && Under(q, |path|).path[0] == step
  {
    ErrorsExact(v, s, path + [step], q);
    Below(path, step, q.path);
    TopMissesNothing(v, s);
    hide Flawed, Errors;
  }

  lemma TopMissesNothing(v: Value, s: Schema)
    ensures !Flawed(v, s, [], Missing)
  {
    hide HasType, Listed;
  }

  /** What is inside one property or item is in turn, seen from above. */
  lemma InsideProperty(v: Value, s: Schema, b: nat, path: seq<Step>)
    requires b < |s.properties|
    requires var p := s.properties[b];
      Sequenced(p.schema, Errors(v, p.schema, path + [Key(p.key)]), |path| + 1)
    ensures var p := s.properties[b]; Sequenced(s, Errors(v, p.schema, path + [Key(p.key)]), |path|)
  {
    hide Errors;
    var p := s.properties[b];
    var errors := Errors(v, p.schema, path + [Key(p.key)]);
    forall q | q in errors ensures |path| <= |q.path| {
      BelowStep(v, p.schema, path, Key(p.key), q);
    }
    forall i, j | 0 <= i < j < |errors| ensures InTurn(s, Under(errors[i], |path|), Under(errors[j], |path|)) {
      BelowStep(v, p.schema, path, Key(p.key), errors[i]);
      BelowStep(v, p.schema, path, Key(p.key), errors[j]);
      assert InTurn(p.schema, Under(errors[i], |path| + 1), Under(errors[j], |path| + 1));
      assert PropertiesInTurn(s.properties, Under(errors[i], |path|), Under(errors[j], |path|));
    }
  }

  lemma EarlierProperty(s: Schema, p: Problem, q: Problem, a: nat, b: nat)
    requires a < b < |s.properties| && p.path != [] && q.path != [] && !MissesKey(p) && !MissesKey(q)
    requires p.path[0] == Key(s.properties[a].key) && q.path[0] == Key(s.properties[b].key)
    ensures InTurn(s, p, q)
  {
    hide MissesKey;
    assert PropertiesInTurn(s.properties, p, q);
  }

  /** Under one of the first k properties. */
  ghost predicate UnderProperty(s: Schema, k: nat, q: Problem, path: seq<Step>)
    requires k <= |s.properties|
  {
    && |path| < |q.path| && !MissesKey(Under(q, |path|))
    && exists a :: 0 <= a < k && q.path[|path|] == Key(s.properties[a].key)
  }

  lemma {:induction false} PropertiesSequenced(v: Value, s: Schema, k: nat, path: seq<Step>)
    requires IsObject(v) && k <= |s.properties|
    ensures var errors := PropertyErrors(v, s.properties[..k], path);
      && Sequenced(s, errors, |path|)
      && forall q :: q in errors ==> UnderProperty(s, k, q, path)
    decreases s, 1, k
  {
    hide *;
    if k == 0 {
      NoKeys(v, path);
      NothingSequenced(s, |path|);
    } else {
      var p := s.properties[k - 1];
      PropertiesSequenced(v, s, k - 1, path);
      OneMoreProperty([], v, s.properties, k - 1, path);
      var front, m := PropertyErrors(v, s.properties[..k - 1], path), Member(v, p.key);
      assert [] + PropertyErrors(v, s.properties[..k], path) == PropertyErrors(v, s.properties[..k], path);
      assert [] + front + [] == front == [] + front;
      var more := if m.Some? then Errors(m.value, p.schema, path + [Key(p.key)]) else [];
      if m.Some? {
        ErrorsSequenced(m.value, p.schema, path + [Key(p.key)]);
        InsideProperty(m.value, s, k - 1, path);
        forall y | y in more ensures UnderLast(y, p.key, path) {
          BelowStep(m.value, p.schema, path, Key(p.key), y);
          UnderLastIs(y, p.key, path);
        }
      } else {
        NothingSequenced(s, |path|);
      }
      PropertyStep(s, k, path, front, more);
    }
  }

  /** Under one property. */
  ghost predicate UnderLast(q: Problem, key: string, path: seq<Step>) {
    |path| < |q.path| && !MissesKey(Under(q, |path|)) && q.path[|path|] == Key(key)
  }

  lemma UnderLastIs(q: Problem, key: string, path: seq<Step>)
    ensures UnderLast(q, key, path) <==>
      |path| < |q.path| && !MissesKey(Under(q, |path|)) && q.path[|path|] == Key(key)
  {
  }

  lemma PropertyStep(s: Schema, k: nat, path: seq<Step>, front: seq<Problem>, more: seq<Problem>)
    requires 0 < k <= |s.properties| && Sequenced(s, front, |path|) && Sequenced(s, more, |path|)
    requires forall q :: q in front ==> UnderProperty(s, k - 1, q, path)
    requires forall q :: q in more ==> UnderLast(q, s.properties[k - 1].key, path)
    ensures Sequenced(s, front + more, |path|)
    ensures forall q :: q in front + more ==> UnderProperty(s, k, q, path)
  {
    hide InTurn, MissesKey, Sequenced;
    forall x, y | x in front && y in more
      ensures |path| <= |x.path| && |path| <= |y.path| && InTurn(s, Under(x, |path|), Under(y, |path|))
    {
      var a :| 0 <= a < k - 1 && x.path[|path|] == Key(s.properties[a].key);
      EarlierProperty(s, Under(x, |path|), Under(y, |path|), a, k - 1);
    }
    SequencedConcat(s, front, more, |path|);
  }

  lemma InsideItem(x: Data, s: Schema, i: nat, path: seq<Step>)
    requires s.items.Some?
    requires Sequenced(s.items.value, Errors(Plain(x), s.items.value, path + [Index(i)]), |path| + 1)
    ensures Sequenced(s, Errors(Plain(x), s.items.value, path + [Index(i)]), |path|)
  {
    hide Errors;
    var errors := Errors(Plain(x), s.items.value, path + [Index(i)]);
    forall q | q in errors ensures |path| <= |q.path| {
      BelowStep(Plain(x), s.items.value, path, Index(i), q);
    }
    forall a, b | 0 <= a < b < |errors| ensures InTurn(s, Under(errors[a], |path|), Under(errors[b], |path|)) {
      BelowStep(Plain(x), s.items.value, path, Index(i), errors[a]);
      BelowStep(Plain(x), s.items.value, path, Index(i), errors[b]);
      assert InTurn(s.items.value, Under(errors[a], |path| + 1), Under(errors[b], |path| + 1));
      assert ItemsInTurn(s.items.value, Under(errors[a], |path|), Under(errors[b], |path|));
    }
  }

  lemma {:induction false} ItemsSequenced(items: seq<Data>, s: Schema, k: nat, path: seq<Step>)
    requires s.items.Some? && k <= |items|
    ensures var errors := ItemErrors(items[..k], s.items.value, path);
      && Sequenced(s, errors, |path|)
      && forall q :: q in errors ==> UnderItem(q, k, path)
    decreases s, 1, k
  {
    hide *;
    if k == 0 {
      NoItems(s.items.value, path);
      NothingSequenced(s, |path|);
    } else {
      ItemsSequenced(items, s, k - 1, path);
      OneMoreItem([], items, s.items.value, k - 1, path);
      var front, x := ItemErrors(items[..k - 1], s.items.value, path), items[k - 1];
      var more := Errors(Plain(x), s.items.value, path + [Index(k - 1)]);
      assert [] + front + more == front + more;
      assert [] + ItemErrors(items[..k], s.items.value, path) == ItemErrors(items[..k], s.items.value, path);
      ErrorsSequenced(Plain(x), s.items.value, path + [Index(k - 1)]);
      InsideItem(x, s, k - 1, path);
      forall y | y in more ensures |path| < |y.path| && y.path[|path|] == Index(k - 1) {
        BelowStep(Plain(x), s.items.value, path, Index(k - 1), y);
      }
      ItemStep(s, k, path, front, more);
    }
  }

  /** Under one of the first k items. */
  ghost predicate UnderItem(q: Problem, k: nat, path: seq<Step>) {
    |path| < |q.path| && q.path[|path|].Index? && q.path[|path|].i < k
  }

  lemma ItemStep(s: Schema, k: nat, path: seq<Step>, front: seq<Problem>, more: seq<Problem>)
    requires s.items.Some? && k > 0 && Sequenced(s, front, |path|) && Sequenced(s, more, |path|)
    requires forall q :: q in front ==> UnderItem(q, k - 1, path)
    requires forall q :: q in more ==> |path| < |q.path| && q.path[|path|] == Index(k - 1)
    ensures Sequenced(s, front + more, |path|)
    ensures forall q :: q in front + more ==> UnderItem(q, k, path)
  {
    hide InTurn, Sequenced;
    forall p, q | p in front && q in more
      ensures |path| <= |p.path| && |path| <= |q.path| && InTurn(s, Under(p, |path|), Under(q, |path|))
    {
      EarlierItem(s, Under(p, |path|), Under(q, |path|));
    }
    SequencedConcat(s, front, more, |path|);
  }

  lemma EarlierItem(s: Schema, p: Problem, q: Problem)
    requires s.items.Some? && p.path != [] && q.path != [] && p.path[0].Index? && q.path[0].Index?
    requires p.path[0].i < q.path[0].i
    ensures InTurn(s, p, q)
  {
    assert ItemsInTurn(s.items.value, p, q);
  }

  /** The problems are reported in turn. */
  lemma {:induction false} ErrorsSequenced(v: Value, s: Schema, path: seq<Step>)
    ensures Sequenced(s, Errors(v, s, path), |path|)
    decreases s, 2
  {
    hide Errors, InTurn, MissingErrors, PropertyErrors, ItemErrors, Listed, HasType;
    ErrorsParts(v, s, path);
    var top := UnlistedErrors(v, s.allowed, path);
    TopFirst(s, path);
    if HasType(v, s.kind) && s.kind == "object" {
      var missing, below := MissingErrors(v, s.required, path), PropertyErrors(v, s.properties, path);
      MissingSequenced(v, s, |s.required|, path);
      PropertiesSequenced(v, s, |s.properties|, path);
      assert s.required[..|s.required|] == s.required && s.properties[..|s.properties|] == s.properties;
      forall p, q | p in missing && q in below ensures InTurn(s, Under(p, |path|), Under(q, |path|)) {
        KeyBeforeProperty(s, p, q, path);
      }
      SequencedConcat(s, missing, below, |path|);
      SequencedConcat(s, top, missing + below, |path|);
      assert top + (missing + below) == top + missing + below;
    } else if HasType(v, s.kind) && s.kind == "array" && s.items.Some? {
      ItemsSequenced(v.json.items, s, |v.json.items|, path);
      assert v.json.items[..|v.json.items|] == v.json.items;
      SequencedConcat(s, top, ItemErrors(v.json.items, s.items.value, path), |path|);
    }
  }

  lemma TopFirst(s: Schema, path: seq<Step>)
    ensures forall flaw :: Sequenced(s, [Problem(path, flaw)], |path|)
    ensures Sequenced(s, [], |path|)
    ensures forall flaw, q: Problem ::
      |path| <= |q.path| ==> InTurn(s, Under(Problem(path, flaw), |path|), Under(q, |path|))
  {
  }

  lemma KeyBeforeProperty(s: Schema, p: Problem, q: Problem, path: seq<Step>)
    requires p.flaw == Missing && exists a :: 0 <= a < |s.required| && p.path == path + [Key(s.required[a])]
    requires UnderProperty(s, |s.properties|, q, path)
    ensures |path| <= |p.path| && InTurn(s, Under(p, |path|), Under(q, |path|))
  {
  }

  /** A report lists its problems in turn; so the problems a rejected output is told are the first in this order. */
  lemma ReportedInTurn(v: Value, s: Schema, i: nat, j: nat)
    requires i < j < |Errors(v, s, [])|
    ensures InTurn(s, Errors(v, s, [])[i], Errors(v, s, [])[j])
  {
    hide Errors, InTurn;
    ErrorsSequenced(v, s, []);
    var errors := Errors(v, s, []);
    assert Under(errors[i], 0) == errors[i] && Under(errors[j], 0) == errors[j];
  }
}
