/** SoftLayer entities the VLAN and firewall handlers share: catalogue product
    items and the keyname filter over them, billing items and tag references. */
module SoftLayer {
  import opened Common
  import Strings

  /** A product item of a package: its keyname and the ids of its prices, in catalogue order. */
  datatype ProductItem = ProductItem(keyName: string, priceIds: seq<int>)

  /** How an item's keyname is compared with the wanted one. */
  datatype MatchMode = Exact | Substring

  predicate Matches(item: ProductItem, keyName: string, mode: MatchMode)
  {
    match mode
    case Exact => item.keyName == keyName
    case Substring => Strings.Contains(item.keyName, keyName)
  }

  /** The items whose keyname matches, in catalogue order. */
  function Selected(items: seq<ProductItem>, keyName: string, mode: MatchMode): seq<ProductItem>
  {
    if items == [] then []
    else
      var last := items[|items| - 1];
      Selected(items[..|items| - 1], keyName, mode) + (if Matches(last, keyName, mode) then [last] else [])
  }

  /** Exactly the matching items are selected. */
  lemma {:induction false} SelectedMembers(items: seq<ProductItem>, keyName: string, mode: MatchMode)
    ensures forall x :: x in Selected(items, keyName, mode) <==> x in items && Matches(x, keyName, mode)
  {
    if items != [] {
      var init := items[..|items| - 1];
      SelectedMembers(init, keyName, mode);
      assert items == init + [items[|items| - 1]];
    }
  }

  /** Selection distributes over concatenation, so it keeps catalogue order. */
  lemma {:induction false} SelectedConcat(a: seq<ProductItem>, b: seq<ProductItem>, keyName: string, mode: MatchMode)
    ensures Selected(a + b, keyName, mode) == Selected(a, keyName, mode) + Selected(b, keyName, mode)
    decreases |b|
  {
    if b == [] {
      assert a + b == a;
    } else {
      var b' := b[..|b| - 1];
      assert (a + b)[..|a + b| - 1] == a + b';
      SelectedConcat(a, b', keyName, mode);
    }
  }

  /** Index of the first matching item. */
  predicate IsFirstMatch(items: seq<ProductItem>, keyName: string, mode: MatchMode, i: int)
  {
    && 0 <= i < |items|
    && Matches(items[i], keyName, mode)
    && forall j :: 0 <= j < i ==> !Matches(items[j], keyName, mode)
  }

  /** The selection is empty exactly when nothing matches, and otherwise it
      starts with the first matching item. */
  lemma {:induction false} SelectedHead(items: seq<ProductItem>, keyName: string, mode: MatchMode)
    ensures Selected(items, keyName, mode) == [] <==> forall j :: 0 <= j < |items| ==> !Matches(items[j], keyName, mode)
    ensures Selected(items, keyName, mode) != [] ==>
      exists i :: IsFirstMatch(items, keyName, mode, i) && Selected(items, keyName, mode)[0] == items[i]
  {
    if items != [] {
      var n := |items| - 1;
      var init := items[..n];
      SelectedHead(init, keyName, mode);
      assert forall j :: 0 <= j < n ==> init[j] == items[j];
      var sel := Selected(items, keyName, mode);
      assert sel == Selected(init, keyName, mode) + (if Matches(items[n], keyName, mode) then [items[n]] else []);
      if Selected(init, keyName, mode) != [] {
        var i :| IsFirstMatch(init, keyName, mode, i) && Selected(init, keyName, mode)[0] == init[i];
        assert IsFirstMatch(items, keyName, mode, i) && sel[0] == items[i];
      } else if Matches(items[n], keyName, mode) {
        assert IsFirstMatch(items, keyName, mode, n) && sel[0] == items[n];
      }
    }
  }

  /** A billing item; `id` is absent for VLANs SoftLayer manages itself. */
  datatype BillingItem = BillingItem(id: Option<int>)

  /** A tag reference of a resource and the name of its tag. */
  datatype TagReference = TagReference(id: int, tagName: string)

  /** Fills a fresh array, index by index, with the tag names of the references. */
  method CopyTagNames(tagRefs: seq<TagReference>) returns (names: seq<string>)
    ensures |names| == |tagRefs|
    ensures forall i :: 0 <= i < |tagRefs| ==> names[i] == tagRefs[i].tagName
  {
    var tags := new string[|tagRefs|];
    for i := 0 to |tagRefs|
      invariant forall j :: 0 <= j < i ==> tags[j] == tagRefs[j].tagName
    {
      tags[i] := tagRefs[i].tagName;
    }
    names := tags[..];
  }

  /** The `tags` attribute after a read: the tag names in reference order, or
      the prior value when there are no references. */
  method ReadTags(prior: seq<string>, tagRefs: seq<TagReference>) returns (tags: seq<string>)
    ensures tagRefs == [] ==> tags == prior
    ensures tagRefs != [] ==> |tags| == |tagRefs| && forall i :: 0 <= i < |tagRefs| ==> tags[i] == tagRefs[i].tagName
  {
    tags := prior;
    if |tagRefs| > 0 {
      tags := CopyTagNames(tagRefs);
    }
  }
}
