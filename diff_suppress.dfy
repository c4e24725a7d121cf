/** Diff suppression for the `annotations` and `parameters` attributes: two
    JSON arrays of `{"key": ..., "value": ...}` objects are equivalent when they
    fold into the same key-to-value map, later duplicates overwriting earlier
    ones, so that element order does not matter. */
module DiffSuppress {

  /** A decoded JSON value. Objects are maps, so their field order is irrelevant,
      as it is for the Go maps `encoding/json` produces. */
  datatype Json =
    | JNull
    | JBool(b: bool)
    | JNumber(n: real)
    | JString(s: string)
    | JArray(items: seq<Json>)
    | JObject(fields: map<string, Json>)

  /** One decoded element of the array (a Go `map[string]interface{}`). */
  type Element = map<string, Json>

  /** What decoding a string into `[]map[string]interface{}` gives. */
  datatype Decoded = Decoded(elements: seq<Element>) | Malformed

  /** A missing field reads as nil, as indexing a Go map does. */
  function Field(e: Element, name: string): Json
  {
    if name in e then e[name] else JNull
  }

  function KeyOf(e: Element): Json
  {
    Field(e, "key")
  }

  function ValueOf(e: Element): Json
  {
    Field(e, "value")
  }

  /** The map the loop builds: each element in turn sets its key to its value. */
  function Folded(elements: seq<Element>): map<Json, Json>
  {
    if elements == [] then map[]
    else
      var last := elements[|elements| - 1];
      Folded(elements[..|elements| - 1])[KeyOf(last) := ValueOf(last)]
  }

  /** The meaning of `suppressEquivalentJSON`: a non-empty old value, both sides
      decodable, and equal folded maps. */
  predicate Equivalent(oldJson: string, newJson: string, decode: string -> Decoded)
  {
    && oldJson != ""
    && decode(oldJson).Decoded?
    && decode(newJson).Decoded?
    && Folded(decode(oldJson).elements) == Folded(decode(newJson).elements)
  }

  /** The loop over the decoded elements, setting each element's key to its value in turn. */
  method Fold(elements: seq<Element>) returns (acc: map<Json, Json>)
    ensures acc == Folded(elements)
  {
    acc := map[];
    var i := 0;
    while i < |elements|
      invariant 0 <= i <= |elements|
      invariant acc == Folded(elements[..i])
    {
      var m := elements[i];
      assert elements[..i + 1][..i] == elements[..i];
      acc := acc[KeyOf(m) := ValueOf(m)];
      i := i + 1;
    }
    assert elements[..i] == elements;
  }

  /** `suppressEquivalentJSON(k, old, new, d)`; decoding is the abstract `decode`. */
  method SuppressEquivalentJSON(oldJson: string, newJson: string, decode: string -> Decoded)
    returns (suppress: bool)
    ensures suppress == Equivalent(oldJson, newJson, decode)
    ensures oldJson == "" ==> !suppress
    ensures decode(oldJson).Malformed? || decode(newJson).Malformed? ==> !suppress
  {
    if oldJson == "" {
      return false;
    }
    var oldObj := decode(oldJson);
    if oldObj.Malformed? {
      return false;
    }
    var newObj := decode(newJson);
    if newObj.Malformed? {
      return false;
    }
    var oldm := Fold(oldObj.elements);
    var newm := Fold(newObj.elements);
    return oldm == newm;
  }

  /** A key is in the folded map exactly when some element carries it, and its
      value is that of the LAST element carrying it. */
  lemma {:induction false} FoldedLookup(elements: seq<Element>, k: Json)
    ensures k in Folded(elements) <==> exists i :: 0 <= i < |elements| && KeyOf(elements[i]) == k
    ensures k in Folded(elements) ==>
      exists i :: && 0 <= i < |elements| && KeyOf(elements[i]) == k
                  && Folded(elements)[k] == ValueOf(elements[i])
                  && forall j :: i < j < |elements| ==> KeyOf(elements[j]) != k
  {
    if elements != [] {
      var n := |elements| - 1;
      var init := elements[..n];
      FoldedLookup(init, k);
      assert forall i :: 0 <= i < n ==> init[i] == elements[i];
      if KeyOf(elements[n]) == k {
        assert Folded(elements)[k] == ValueOf(elements[n]);
      } else if k in Folded(elements) {
        var i :| 0 <= i < n && KeyOf(init[i]) == k && Folded(init)[k] == ValueOf(init[i])
          && forall j :: i < j < n ==> KeyOf(init[j]) != k;
        assert KeyOf(elements[i]) == k && Folded(elements)[k] == ValueOf(elements[i]);
      }
    }
  }

  /** An element whose key appears again later has no effect on the fold. */
  lemma {:induction false} EarlierDuplicateIgnored(p: seq<Element>, a: Element, q: seq<Element>)
    requires exists j :: 0 <= j < |q| && KeyOf(q[j]) == KeyOf(a)
    ensures Folded(p + [a] + q) == Folded(p + q)
    decreases |q|
  {
    var n := |q| - 1;
    var q' := q[..n];
    var c := q[n];
    assert (p + [a] + q)[..|p + [a] + q| - 1] == p + [a] + q';
    assert (p + q)[..|p + q| - 1] == p + q';
    if exists j :: 0 <= j < n && KeyOf(q'[j]) == KeyOf(a) {
      EarlierDuplicateIgnored(p, a, q');
    } else {
      assert KeyOf(c) == KeyOf(a);
      UnrepeatedLastSet(p, a, q');
    }
  }

  /** An element whose key does not appear later sets that key on top of the rest. */
  lemma {:induction false} UnrepeatedLastSet(p: seq<Element>, a: Element, q: seq<Element>)
    requires forall j :: 0 <= j < |q| ==> KeyOf(q[j]) != KeyOf(a)
    ensures Folded(p + [a] + q) == Folded(p + q)[KeyOf(a) := ValueOf(a)]
    decreases |q|
  {
    if q == [] {
      assert p + [a] + q == p + [a];
      assert (p + [a])[..|p|] == p;
      assert p + q == p;
    } else {
      var n := |q| - 1;
      var q' := q[..n];
      assert (p + [a] + q)[..|p + [a] + q| - 1] == p + [a] + q';
      assert (p + q)[..|p + q| - 1] == p + q';
      UnrepeatedLastSet(p, a, q');
    }
  }

  /** `[{k,1},{k,2}]` folds like `[{k,2}]`: the last occurrence wins. */
  lemma LastOccurrenceWins(oldJson: string, newJson: string, decode: string -> Decoded, p: seq<Element>, a: Element, q: seq<Element>)
    requires oldJson != "" && decode(oldJson) == Decoded(p + [a] + q) && decode(newJson) == Decoded(p + q)
    requires exists j :: 0 <= j < |q| && KeyOf(q[j]) == KeyOf(a)
    ensures Equivalent(oldJson, newJson, decode)
  {
    EarlierDuplicateIgnored(p, a, q);
  }

  /** No two elements share a key. */
  predicate DistinctKeys(elements: seq<Element>)
  {
    forall i, j :: 0 <= i < j < |elements| ==> KeyOf(elements[i]) != KeyOf(elements[j])
  }

  /** With distinct keys the folded map does not depend on element order. */
  lemma PermutationInvariant(xs: seq<Element>, ys: seq<Element>)
    requires DistinctKeys(xs)
    requires multiset(xs) == multiset(ys)
    ensures Folded(xs) == Folded(ys)
  {
    forall k ensures (k in Folded(xs) <==> k in Folded(ys))
                  && (k in Folded(xs) ==> Folded(xs)[k] == Folded(ys)[k])
    {
      FoldedLookup(xs, k);
      FoldedLookup(ys, k);
      if i :| 0 <= i < |xs| && KeyOf(xs[i]) == k {
        assert xs[i] in multiset(ys);
      }
      if i :| 0 <= i < |ys| && KeyOf(ys[i]) == k {
        assert ys[i] in multiset(xs);
      }
      if k in Folded(ys) {
        var i :| 0 <= i < |ys| && KeyOf(ys[i]) == k && Folded(ys)[k] == ValueOf(ys[i]);
        assert ys[i] in multiset(xs);
        var j :| 0 <= j < |xs| && xs[j] == ys[i];
        var l :| 0 <= l < |xs| && KeyOf(xs[l]) == k && Folded(xs)[k] == ValueOf(xs[l]);
        assert l == j;
      }
    }
  }

  /** Reordering the new array (distinct keys) does not change the verdict. */
  lemma EquivalentUnderReordering(oldJson: string, newJson: string, newJson': string, decode: string -> Decoded)
    requires decode(newJson).Decoded? && decode(newJson').Decoded?
    requires DistinctKeys(decode(newJson).elements)
    requires multiset(decode(newJson).elements) == multiset(decode(newJson').elements)
    ensures Equivalent(oldJson, newJson, decode) == Equivalent(oldJson, newJson', decode)
  {
    PermutationInvariant(decode(newJson).elements, decode(newJson').elements);
  }

  /** Reordering the old array (non-empty, distinct keys) does not change the verdict either. */
  lemma EquivalentUnderOldReordering(oldJson: string, oldJson': string, newJson: string, decode: string -> Decoded)
    requires oldJson != "" && oldJson' != ""
    requires decode(oldJson).Decoded? && decode(oldJson').Decoded?
    requires DistinctKeys(decode(oldJson).elements)
    requires multiset(decode(oldJson).elements) == multiset(decode(oldJson').elements)
    ensures Equivalent(oldJson, newJson, decode) == Equivalent(oldJson', newJson, decode)
  {
    PermutationInvariant(decode(oldJson).elements, decode(oldJson').elements);
  }

  /** Any non-empty decodable value is equivalent to itself. */
  lemma EquivalentReflexive(s: string, decode: string -> Decoded)
    requires s != "" && decode(s).Decoded?
    ensures Equivalent(s, s, decode)
  {
  }

  /** Appending an element with a newJson key, or one that changes a key's value,
      makes the arrays not equivalent. */
  lemma {:induction false} ChangedEntryBreaksEquivalence(oldJson: string, newJson: string, decode: string -> Decoded, e: Element)
    requires oldJson != "" && decode(oldJson).Decoded?
    requires decode(newJson) == Decoded(decode(oldJson).elements + [e])
    requires var m := Folded(decode(oldJson).elements); KeyOf(e) !in m || m[KeyOf(e)] != ValueOf(e)
    ensures !Equivalent(oldJson, newJson, decode)
  {
    var xs := decode(oldJson).elements;
    assert (xs + [e])[..|xs|] == xs;
    assert Folded(xs + [e]) == Folded(xs)[KeyOf(e) := ValueOf(e)];
  }

  /** Equivalence is exactly equality of the folded maps: same keys, equal values. */
  lemma EquivalentIffSameEntries(oldJson: string, newJson: string, decode: string -> Decoded)
    requires oldJson != "" && decode(oldJson).Decoded? && decode(newJson).Decoded?
    ensures Equivalent(oldJson, newJson, decode) <==>
      var m, m' := Folded(decode(oldJson).elements), Folded(decode(newJson).elements);
      m.Keys == m'.Keys && forall k :: k in m ==> m[k] == m'[k]
  {
    var m, m' := Folded(decode(oldJson).elements), Folded(decode(newJson).elements);
    if m.Keys == m'.Keys && forall k :: k in m ==> m[k] == m'[k] {
      assert m == m';
    }
  }
}
