/** Normalisation of MediaHound method types into reply-table categories
    (`uniform_types`) and the ordering of the category columns
    (`sort_method_types`). */
module MediaTypes {
  import opened Common
  import opened Text

  /** The categories that get the first columns, in this order. */
  const Canonical: seq<string> := ["Subscription", "Rent", "Purchase"]

  /** The canonical categories are already title-cased. */
  lemma CanonicalTitled(k: nat)
    requires k < |Canonical|
    ensures Title(Canonical[k]) == Canonical[k]
  {
    if k == 0 {
      SubscriptionTitleCased();
    } else if k == 1 {
      RentTitleCased();
    } else {
      PurchaseTitleCased();
    }
  }

  lemma SubscriptionTitleCased()
    ensures IsTitleCased("Subscription")
  {
    TitleOfWord("Subscription");
  }

  lemma RentTitleCased()
    ensures IsTitleCased("Rent")
  {
    TitleOfWord("Rent");
  }

  lemma PurchaseTitleCased()
    ensures IsTitleCased("Purchase")
  {
    TitleOfWord("Purchase");
  }

  /** `uniform_types`: brokers and ad-supported offers count as
      subscriptions, rentals as rent; every other type is title-cased, so the
      result is always title-cased. */
  function UniformTypes(methodType: string): (r: string)
    ensures methodType == "broker" || methodType == "adSupported" ==> r == "Subscription"
    ensures methodType == "rental" ==> r == "Rent"
    ensures methodType != "broker" && methodType != "adSupported" && methodType != "rental"
      ==> r == Title(methodType)
    ensures IsTitleCased(r)
  {
    var ret :=
      if methodType == "broker" then "subscription"
      else if methodType == "rental" then "rent"
      else if methodType == "adSupported" then "subscription"
      else methodType;
    TitleOfSubscription();
    TitleOfRent();
    TitleIdempotent(ret);
    Title(ret)
  }

  lemma TitleOfSubscription()
    ensures Title("subscription") == "Subscription"
  {
    TitleOfWord("subscription");
  }

  lemma TitleOfRent()
    ensures Title("rent") == "Rent"
  {
    TitleOfWord("rent");
  }

  /** The members of `cands` that occur in `types`, in the order of `cands`. */
  function Present(cands: seq<string>, types: seq<string>): (r: seq<string>)
    ensures forall x :: x in r <==> x in cands && x in types
    ensures |r| <= |cands|
  {
    if cands == [] then []
    else
      var last := cands[|cands| - 1];
      Present(cands[..|cands| - 1], types) + (if last in types then [last] else [])
  }

  /** `[x.title() for x in types if x not in Canonical]`. */
  function Unmatched(types: seq<string>): seq<string> {
    if types == [] then []
    else
      var last := types[|types| - 1];
      Unmatched(types[..|types| - 1]) + (if last !in Canonical then [Title(last)] else [])
  }

  /** On title-cased inputs the unmatched values are the inputs that are not
      canonical. */
  lemma {:induction false} UnmatchedOfTitled(types: seq<string>)
    requires forall x :: x in types ==> IsTitleCased(x)
    ensures forall y :: y in Unmatched(types) <==> y in types && y !in Canonical
  {
    if types != [] {
      var init := types[..|types| - 1];
      assert forall x :: x in types <==> x in init || x == types[|types| - 1];
      UnmatchedOfTitled(init);
    }
  }

  /** The contract of `sort_method_types`: the canonical categories that
      occur come first, in canonical order, followed by every distinct
      title-cased non-canonical value once, in an unspecified order. */
  predicate IsColumnOrder(ret: seq<string>, types: seq<string>) {
    var head := Present(Canonical, types);
    |head| <= |ret| && ret[..|head|] == head && IsEnumeration(ret[|head|..], Elems(Unmatched(types)))
  }

  method SortMethodTypes(methodTypes: seq<string>) returns (ret: seq<string>)
    ensures IsColumnOrder(ret, methodTypes)
  {
    ret := [];
    var orderedTypes := Canonical;
    for k := 0 to |orderedTypes|
      invariant ret == Present(orderedTypes[..k], methodTypes)
    {
      assert orderedTypes[..k + 1][..k] == orderedTypes[..k];
      var i := orderedTypes[k];
      if i in methodTypes {
        CanonicalTitled(k);
        ret := ret + [Title(i)];
      }
    }
    assert orderedTypes[..|orderedTypes|] == Canonical;
    var unmatched: seq<string> := [];
    for j := 0 to |methodTypes|
      invariant unmatched == Unmatched(methodTypes[..j])
    {
      assert methodTypes[..j + 1][..j] == methodTypes[..j];
      if methodTypes[j] !in orderedTypes {
        unmatched := unmatched + [Title(methodTypes[j])];
      }
    }
    assert methodTypes[..|methodTypes|] == methodTypes;
    var head := ret;
    if unmatched != [] {
      var distinct := Enumerate(Elems(unmatched));
      ret := ret + distinct;
      assert ret[|head|..] == distinct;
    } else {
      assert ret[|head|..] == [];
    }
  }

  /** When every input is title-cased (as `uniform_types` makes them) the
      columns have no duplicates and are exactly the distinct inputs. */
  lemma ColumnsDistinct(ret: seq<string>, types: seq<string>)
    requires IsColumnOrder(ret, types)
    requires forall x :: x in types ==> IsTitleCased(x)
    ensures NoDup(ret)
    ensures Elems(ret) == Elems(types)
  {
    UnmatchedOfTitled(types);
    ColumnsNoDup(ret, types);
    ColumnsCover(ret, types);
  }

  lemma ColumnsNoDup(ret: seq<string>, types: seq<string>)
    requires IsColumnOrder(ret, types)
    requires forall y :: y in Unmatched(types) <==> y in types && y !in Canonical
    ensures NoDup(ret)
  {
    var head := Present(Canonical, types);
    var tail := ret[|head|..];
    PresentNoDup(Canonical, types);
    forall i, j | 0 <= i < j < |ret| ensures ret[i] != ret[j] {
      if j < |head| {
        assert ret[i] == head[i] && ret[j] == head[j];
      } else if i >= |head| {
        assert ret[i] == tail[i - |head|] && ret[j] == tail[j - |head|];
      } else {
        assert ret[i] == head[i] && ret[i] in Canonical;
        assert ret[j] == tail[j - |head|] && ret[j] in Elems(tail);
      }
    }
  }

  lemma ColumnsCover(ret: seq<string>, types: seq<string>)
    requires IsColumnOrder(ret, types)
    requires forall y :: y in Unmatched(types) <==> y in types && y !in Canonical
    ensures Elems(ret) == Elems(types)
  {
    var head := Present(Canonical, types);
    var tail := ret[|head|..];
    forall x | x in ret ensures x in types {
      var k :| 0 <= k < |ret| && ret[k] == x;
      if k < |head| {
        assert x == head[k];
      } else {
        assert x == tail[k - |head|] && x in Elems(tail);
      }
    }
    forall x | x in types ensures x in Elems(ret) {
      if x in Canonical {
        assert x in head;
        var k :| 0 <= k < |head| && head[k] == x;
        assert ret[k] == x;
      } else {
        assert x in Elems(tail);
        var k :| 0 <= k < |tail| && tail[k] == x;
        assert ret[|head| + k] == x;
      }
    }
  }

  lemma {:induction false} PresentNoDup(cands: seq<string>, types: seq<string>)
    requires NoDup(cands)
    ensures NoDup(Present(cands, types))
  {
    if cands != [] {
      var init := cands[..|cands| - 1];
      assert NoDup(init);
      PresentNoDup(init, types);
      assert cands[|cands| - 1] !in init;
    }
  }

  lemma {:induction false} PresentAll(cands: seq<string>, types: seq<string>)
    requires forall c :: c in cands ==> c in types
    ensures Present(cands, types) == cands
  {
    if cands != [] {
      var init, last := cands[..|cands| - 1], cands[|cands| - 1];
      assert forall k :: 0 <= k < |init| ==> init[k] == cands[k];
      PresentAll(init, types);
      assert last in types;
      assert init + [last] == cands;
    }
  }

  lemma {:induction false} UnmatchedOfCanonical(types: seq<string>)
    requires forall x :: x in types ==> x in Canonical
    ensures Unmatched(types) == []
  {
    if types != [] {
      UnmatchedOfCanonical(types[..|types| - 1]);
    }
  }

  /** When the inputs are exactly the three canonical categories (with
      repetitions), the columns are the canonical ones in canonical order. */
  lemma ColumnsOfCanonical(ret: seq<string>, types: seq<string>)
    requires IsColumnOrder(ret, types)
    requires forall x :: x in types <==> x in Canonical
    ensures ret == Canonical
  {
    PresentAll(Canonical, types);
    UnmatchedOfCanonical(types);
    assert ret == ret[..3] + ret[3..];
  }

  /** The four method types MediaHound reports most. */
  lemma UniformTypesOfExamples()
    ensures UniformTypes("purchase") == "Purchase"
    ensures UniformTypes("rental") == "Rent"
    ensures UniformTypes("broker") == "Subscription"
    ensures UniformTypes("adSupported") == "Subscription"
  {
    TitleOfWord("purchase");
  }

  /** Offers of type purchase, rental, adSupported and broker give the
      columns Subscription, Rent, Purchase, with one Subscription column. */
  lemma ColumnOrderExample(ret: seq<string>, types: seq<string>)
    requires types == [UniformTypes("purchase"), UniformTypes("rental"),
                        UniformTypes("adSupported"), UniformTypes("broker")]
    requires IsColumnOrder(ret, types)
    ensures ret == ["Subscription", "Rent", "Purchase"]
  {
    UniformTypesOfExamples();
    assert types == ["Purchase", "Rent", "Subscription", "Subscription"];
    assert forall x :: x in types ==> x in Canonical;
    assert forall x :: x in Canonical ==> x in types;
    ColumnsOfCanonical(ret, types);
  }

  lemma {:induction false} UnmatchedHas(types: seq<string>, x: string)
    requires x in types && x !in Canonical
    ensures Title(x) in Unmatched(types)
  {
    var init := types[..|types| - 1];
    if types[|types| - 1] != x {
      assert x in init by {
        var k :| 0 <= k < |types| && types[k] == x;
        assert init[k] == x;
      }
      UnmatchedHas(init, x);
    }
  }

  lemma {:induction false} PresentOfNone(cands: seq<string>)
    ensures Present(cands, []) == []
  {
    if cands != [] {
      PresentOfNone(cands[..|cands| - 1]);
    }
  }

  /** There are columns exactly when some method type was met. */
  lemma ColumnsEmptyIff(ret: seq<string>, types: seq<string>)
    requires IsColumnOrder(ret, types)
    ensures ret == [] <==> types == []
  {
    var head := Present(Canonical, types);
    if types == [] {
      PresentOfNone(Canonical);
      assert Unmatched(types) == [];
      assert Elems(ret[|head|..]) == {};
    } else {
      var x := types[0];
      if x in Canonical {
        assert x in head;
      } else {
        UnmatchedHas(types, x);
        assert Title(x) in Elems(ret[|head|..]);
      }
    }
  }
}
