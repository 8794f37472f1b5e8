/** The gift and rite organiser of the werewolf sheet: it copies the actor's
    gift map and rite list, routes every gift item into one of them and shows
    each list ordered by level and then by name. */
module GiftOrganiser {
  import opened Common
  import opened Items
  import Collation

  /** Where the organiser puts an item. */
  datatype Destination = Nowhere | Rites | Powers(key: string)

  /** The lists the sheet hands to its template: `giftsList` is the copied
      gift map with its powers filled in, `ritesList` the filled rite list. */
  datatype Prepared = Prepared(giftsList: map<string, GiftCategory>, ritesList: seq<Item>)

  /** The routing rule: a gift whose type is "rite" goes to the rites, a gift
      with any other type to that category's powers, everything else nowhere. */
  function Route(x: Item): (d: Destination)
    ensures d == Rites <==> x.kind == "gift" && x.giftType == Some("rite")
    ensures d.Powers? <==> x.kind == "gift" && x.giftType.Some? && x.giftType.value != "rite"
    ensures d.Powers? ==> d.key == x.giftType.value
  {
    if x.kind != "gift" then Nowhere
    else if x.giftType == Some("rite") then Rites
    else if x.giftType.Some? then Powers(x.giftType.value)
    else Nowhere
  }

  /** The items of `s` routed to `d`, in input order. */
  function RoutedTo(s: seq<Item>, d: Destination): (r: seq<Item>)
    ensures |r| <= |s|
    ensures forall i :: 0 <= i < |r| ==> Route(r[i]) == d
  {
    if s == [] then []
    else RoutedTo(s[..|s| - 1], d) + (if Route(s[|s| - 1]) == d then [s[|s| - 1]] else [])
  }

  /** The item's category lookup succeeds: it is not a gift bound for a
      category that the gift map lacks. */
  predicate Resolvable(x: Item, gifts: map<string, GiftCategory>)
  {
    Route(x).Powers? ==> Route(x).key in gifts
  }

  /** `p` is what the organiser promises for `items`, the gift map `gifts` and
      the rite list `rites`: the same category keys, labels and descriptions;
      each powers list sorted and holding exactly its seed powers plus the
      items routed to it; the rite list sorted and holding exactly the seed
      rites plus the items routed to it. Entries that tie in level and name
      keep the order they had there (seed first, then input order). */
  ghost predicate Organised(items: seq<Item>, gifts: map<string, GiftCategory>, rites: seq<Item>, p: Prepared)
  {
    && p.giftsList.Keys == gifts.Keys
    && (forall k :: k in gifts ==>
          && p.giftsList[k].name == gifts[k].name
          && p.giftsList[k].description == gifts[k].description
          && Sorted(p.giftsList[k].powers)
          && multiset(p.giftsList[k].powers) == multiset(gifts[k].powers + RoutedTo(items, Powers(k)))
          && SameTies(gifts[k].powers + RoutedTo(items, Powers(k)), p.giftsList[k].powers))
    && Sorted(p.ritesList)
    && multiset(p.ritesList) == multiset(rites + RoutedTo(items, Rites))
    && SameTies(rites + RoutedTo(items, Rites), p.ritesList)
  }

  /** Exchanges the neighbours at `j - 1` and `j`. */
  method SwapNeighbours(a: array<Item>, j: int)
    requires 0 < j < a.Length
    modifies a
    ensures a[j - 1] == old(a[j]) && a[j] == old(a[j - 1])
    ensures forall k :: 0 <= k < a.Length && k != j - 1 && k != j ==> a[k] == old(a[k])
    ensures multiset(a[..]) == multiset(old(a[..]))
  {
    a[j - 1], a[j] := a[j], a[j - 1];
  }

  /** Moves `a[i]` down into the sorted prefix `a[..i]`, leaving `a[..i + 1]`
      sorted and the rest of the array as it was. */
  method InsertNext(a: array<Item>, i: int)
    requires 0 <= i < a.Length
    requires forall k :: 0 < k < i ==> InOrder(a[k - 1], a[k])
    modifies a
    ensures forall k :: 0 < k <= i ==> InOrder(a[k - 1], a[k])
    ensures forall k :: i < k < a.Length ==> a[k] == old(a[k])
    ensures multiset(a[..]) == multiset(old(a[..]))
    ensures SameTies(old(a[..]), a[..])
  {
    var j := i;
    while j > 0 && !InOrder(a[j - 1], a[j])
      invariant 0 <= j <= i
      invariant forall k :: 0 < k < j ==> InOrder(a[k - 1], a[k])
      invariant forall k :: j < k <= i ==> InOrder(a[k - 1], a[k])
      invariant 0 < j < i ==> InOrder(a[j - 1], a[j + 1])
      invariant forall k :: i < k < a.Length ==> a[k] == old(a[k])
      invariant multiset(a[..]) == multiset(old(a[..]))
      invariant SameTies(old(a[..]), a[..])
    {
      InOrderTotal(a[j - 1], a[j]);
      // Neighbours out of order do not tie, so swapping them keeps the ties.
      Collation.NameLeReflexive(a[j].name);
      ghost var before := a[..];
      SwapKeepsTies(before, j);
      SwapNeighbours(a, j);
      assert a[..] == before[j - 1 := before[j]][j := before[j - 1]];
      j := j - 1;
    }
  }

  /** Sorts `a` in place with the sheet's comparator (insertion sort). The
      sort is stable: entries that tie keep their order. */
  method SortByLevelThenName(a: array<Item>)
    modifies a
    ensures Sorted(a[..])
    ensures multiset(a[..]) == multiset(old(a[..]))
    ensures SameTies(old(a[..]), a[..])
  {
    var i := 0;
    while i < a.Length
      invariant 0 <= i <= a.Length
      invariant forall k :: 0 < k < i ==> InOrder(a[k - 1], a[k])
      invariant multiset(a[..]) == multiset(old(a[..]))
      invariant SameTies(old(a[..]), a[..])
    {
      InsertNext(a, i);
      i := i + 1;
    }
  }

  /** Sorts a list by copying it into a buffer, sorting the buffer and reading
      it back, as the sheet sorts each array and reassigns it. */
  method SortList(s: seq<Item>) returns (r: seq<Item>)
    ensures Sorted(r)
    ensures multiset(r) == multiset(s)
    ensures SameTies(s, r)
  {
    var buffer := new Item[|s|](j requires 0 <= j < |s| => s[j]);
    assert buffer[..] == s;
    SortByLevelThenName(buffer);
    r := buffer[..];
  }

  /** Routing one more item extends exactly the list it is routed to. */
  lemma RoutedToSnoc(s: seq<Item>, x: Item, d: Destination)
    ensures RoutedTo(s + [x], d) == RoutedTo(s, d) + (if Route(x) == d then [x] else [])
  {
    assert (s + [x])[..|s + [x]| - 1] == s;
  }

  /** The gift map after routing `s`: every category's seed powers followed
      by the items of `s` routed to it. */
  ghost function Filled(gifts: map<string, GiftCategory>, s: seq<Item>): map<string, GiftCategory>
  {
    map k | k in gifts :: gifts[k].(powers := gifts[k].powers + RoutedTo(s, Powers(k)))
  }

  /** Before any item is routed the copy equals the seed map. */
  lemma FilledEmpty(gifts: map<string, GiftCategory>)
    ensures Filled(gifts, []) == gifts
  {
    forall k | k in gifts ensures Filled(gifts, [])[k] == gifts[k] {
      assert gifts[k].powers + [] == gifts[k].powers;
    }
  }

  /** Routing one more item extends one category's powers when the item is
      routed there and leaves them alone otherwise. */
  lemma FilledSnocAt(gifts: map<string, GiftCategory>, s: seq<Item>, x: Item, k: string)
    requires k in gifts
    ensures Filled(gifts, s + [x])[k] ==
      if Route(x) == Powers(k) then Filled(gifts, s)[k].(powers := Filled(gifts, s)[k].powers + [x])
      else Filled(gifts, s)[k]
  {
    RoutedToSnoc(s, x, Powers(k));
    var seed, routed := gifts[k].powers, RoutedTo(s, Powers(k));
    assert seed + (routed + [x]) == (seed + routed) + [x];
    assert seed + (routed + []) == seed + routed;
  }

  /** Routing one more gift bound for category `key` appends it there and
      leaves every other category alone. */
  lemma FilledSnocOwn(gifts: map<string, GiftCategory>, s: seq<Item>, x: Item)
    requires Route(x).Powers? && Route(x).key in gifts
    ensures Filled(gifts, s + [x]) ==
      Filled(gifts, s)[Route(x).key := Filled(gifts, s)[Route(x).key].(powers := Filled(gifts, s)[Route(x).key].powers + [x])]
  {
    var key := Route(x).key;
    var before, after := Filled(gifts, s), Filled(gifts, s + [x]);
    var expected := before[key := before[key].(powers := before[key].powers + [x])];
    assert after.Keys == expected.Keys;
    forall k | k in after ensures after[k] == expected[k] {
      FilledSnocAt(gifts, s, x, k);
    }
  }

  /** Routing one more item that is not bound for a category leaves every
      category alone. */
  lemma FilledSnocElse(gifts: map<string, GiftCategory>, s: seq<Item>, x: Item)
    requires !Route(x).Powers?
    ensures Filled(gifts, s + [x]) == Filled(gifts, s)
  {
    var before, after := Filled(gifts, s), Filled(gifts, s + [x]);
    assert after.Keys == before.Keys;
    forall k | k in after ensures after[k] == before[k] {
      FilledSnocAt(gifts, s, x, k);
    }
  }

  /** Routing one more resolvable item appends it to its own category and
      leaves every other category alone. */
  lemma FilledSnoc(gifts: map<string, GiftCategory>, s: seq<Item>, x: Item)
    requires Resolvable(x, gifts)
    ensures Route(x).Powers? ==>
      Filled(gifts, s + [x]) ==
        Filled(gifts, s)[Route(x).key := Filled(gifts, s)[Route(x).key].(powers := Filled(gifts, s)[Route(x).key].powers + [x])]
    ensures !Route(x).Powers? ==> Filled(gifts, s + [x]) == Filled(gifts, s)
  {
    if Route(x).Powers? {
      FilledSnocOwn(gifts, s, x);
    } else {
      FilledSnocElse(gifts, s, x);
    }
  }

  /** What `Filled` holds, key by key. */
  lemma FilledAt(gifts: map<string, GiftCategory>, s: seq<Item>)
    ensures Filled(gifts, s).Keys == gifts.Keys
    ensures forall k :: k in gifts ==>
      Filled(gifts, s)[k] == gifts[k].(powers := gifts[k].powers + RoutedTo(s, Powers(k)))
  {
  }

  /** Allocating one item to its container: a rite is appended to the rite
      list, another typed gift to its category's powers, and anything else is
      skipped. A gift whose category is missing is the sheet's `TypeError`.
      When the lists are the seeds filled with the items `seen` so far, the
      result is the seeds filled with `seen + [x]`. */
  method Allocate(x: Item, giftsList: map<string, GiftCategory>, ritesList: seq<Item>,
                  ghost gifts: map<string, GiftCategory>, ghost rites: seq<Item>, ghost seen: seq<Item>)
    returns (r: Result<Prepared, Fault>)
    requires giftsList == Filled(gifts, seen)
    requires ritesList == rites + RoutedTo(seen, Rites)
    ensures r.Err? <==> !Resolvable(x, gifts)
    ensures r.Err? ==> r.error == UndefinedEntry("gifts", x.giftType.value)
    ensures r.Ok? ==> r.value.ritesList == ritesList + (if Route(x) == Rites then [x] else [])
    ensures r.Ok? && Route(x).Powers? ==>
      var key := Route(x).key;
      r.value.giftsList == giftsList[key := giftsList[key].(powers := giftsList[key].powers + [x])]
    ensures r.Ok? && !Route(x).Powers? ==> r.value.giftsList == giftsList
    ensures r.Ok? ==> r.value.giftsList == Filled(gifts, seen + [x])
    ensures r.Ok? ==> r.value.ritesList == rites + RoutedTo(seen + [x], Rites)
  {
    assert giftsList.Keys == gifts.Keys;
    RoutedToSnoc(seen, x, Rites);
    r := Ok(Prepared(giftsList, ritesList));
    if x.kind == "gift" {
      if x.giftType == Some("rite") {
        r := Ok(Prepared(giftsList, ritesList + [x]));
      } else if x.giftType.Some? {
        var key := x.giftType.value;
        if key !in giftsList {
          return Err(UndefinedEntry("gifts", key));
        }
        r := Ok(Prepared(giftsList[key := giftsList[key].(powers := giftsList[key].powers + [x])], ritesList));
      }
    }
    if r.Ok? {
      FilledSnoc(gifts, seen, x);
    }
  }

  /** The routing pass of the organiser (the loop over the items). It fails at
      the first gift whose category is missing from the gift map, as the sheet
      throws there; otherwise every category's powers and the rite list are
      their seeds followed by the items routed to them, in input order. */
  method RouteItems(items: seq<Item>, gifts: map<string, GiftCategory>, rites: seq<Item>)
    returns (r: Result<Prepared, Fault>)
    ensures r.Ok? <==> forall i :: 0 <= i < |items| ==> Resolvable(items[i], gifts)
    ensures r.Err? ==>
      exists i :: 0 <= i < |items|
        && !Resolvable(items[i], gifts)
        && (forall j :: 0 <= j < i ==> Resolvable(items[j], gifts))
        && r.error == UndefinedEntry("gifts", items[i].giftType.value)
    ensures r.Ok? ==> r.value.giftsList.Keys == gifts.Keys
    ensures r.Ok? ==> forall k :: k in gifts ==>
      r.value.giftsList[k] == gifts[k].(powers := gifts[k].powers + RoutedTo(items, Powers(k)))
    ensures r.Ok? ==> r.value.ritesList == rites + RoutedTo(items, Rites)
  {
    var giftsList := gifts;
    var ritesList := rites;
    var i := 0;
    assert items[..0] == [];
    FilledEmpty(gifts);
    while i < |items|
      invariant 0 <= i <= |items|
      invariant forall j :: 0 <= j < i ==> Resolvable(items[j], gifts)
      invariant giftsList == Filled(gifts, items[..i])
      invariant ritesList == rites + RoutedTo(items[..i], Rites)
    {
      var x := items[i];
      var step := Allocate(x, giftsList, ritesList, gifts, rites, items[..i]);
      if step.Err? {
        return Err(step.error);
      }
      TakeOneMore(items, i);
      giftsList, ritesList := step.value.giftsList, step.value.ritesList;
      i := i + 1;
    }
    assert items[..i] == items;
    FilledAt(gifts, items);
    r := Ok(Prepared(giftsList, ritesList));
  }

  /** The sorting pass over the gift map (the loop over its keys): every
      powers list is sorted, keeps its entries and keeps tied entries in
      their order; nothing else changes. */
  method SortCategories(gifts: map<string, GiftCategory>) returns (sorted: map<string, GiftCategory>)
    ensures sorted.Keys == gifts.Keys
    ensures forall k :: k in gifts ==>
      && sorted[k].name == gifts[k].name
      && sorted[k].description == gifts[k].description
      && Sorted(sorted[k].powers)
      && multiset(sorted[k].powers) == multiset(gifts[k].powers)
      && SameTies(gifts[k].powers, sorted[k].powers)
  {
    sorted := gifts;
    var pending := gifts.Keys;
    while pending != {}
      invariant sorted.Keys == gifts.Keys
      invariant forall k :: k in sorted ==>
        && sorted[k].name == gifts[k].name
        && sorted[k].description == gifts[k].description
        && multiset(sorted[k].powers) == multiset(gifts[k].powers)
      invariant pending <= gifts.Keys
      invariant forall k :: k in pending ==> sorted[k] == gifts[k]
      invariant forall k :: k in sorted && k !in pending ==>
        Sorted(sorted[k].powers) && SameTies(gifts[k].powers, sorted[k].powers)
      decreases pending
    {
      var key :| key in pending;
      var powers := SortList(sorted[key].powers);
      sorted := sorted[key := sorted[key].(powers := powers)];
      pending := pending - {key};
    }
  }

  /** The organiser: route, then sort every powers list and the rite list. */
  method PrepareItems(items: seq<Item>, gifts: map<string, GiftCategory>, rites: seq<Item>)
    returns (r: Result<Prepared, Fault>)
    ensures r.Ok? <==> forall i :: 0 <= i < |items| ==> Resolvable(items[i], gifts)
    ensures r.Err? ==>
      exists i :: 0 <= i < |items|
        && !Resolvable(items[i], gifts)
        && (forall j :: 0 <= j < i ==> Resolvable(items[j], gifts))
        && r.error == UndefinedEntry("gifts", items[i].giftType.value)
    ensures r.Ok? ==> Organised(items, gifts, rites, r.value)
  {
    var routed := RouteItems(items, gifts, rites);
    if routed.Err? {
      return Err(routed.error);
    }
    var giftsList := SortCategories(routed.value.giftsList);
    var ritesList := SortList(routed.value.ritesList);
    r := Ok(Prepared(giftsList, ritesList));
  }

  /** Routing neither loses nor duplicates: an item occurs in the list for `d`
      exactly as often as in the input when it is routed to `d`, and never
      otherwise. */
  lemma {:induction false} RoutedCount(items: seq<Item>, d: Destination, x: Item)
    ensures multiset(RoutedTo(items, d))[x] == if Route(x) == d then multiset(items)[x] else 0
  {
    if items != [] {
      var init, last := items[..|items| - 1], items[|items| - 1];
      assert items == init + [last];
      RoutedCount(init, d, x);
    }
  }

  /** Where an item ends up after a successful run: the rite list and each
      category hold their seed copies of `x`, plus every input copy of `x` when
      `x` is routed there, and none when it is routed elsewhere or nowhere. */
  lemma PlacementCounts(items: seq<Item>, gifts: map<string, GiftCategory>, rites: seq<Item>, p: Prepared, x: Item)
    requires Organised(items, gifts, rites, p)
    ensures multiset(p.ritesList)[x] ==
      multiset(rites)[x] + (if Route(x) == Rites then multiset(items)[x] else 0)
    ensures forall k :: k in gifts ==>
      (multiset(p.giftsList[k].powers)[x] ==
       multiset(gifts[k].powers)[x] + (if Route(x) == Powers(k) then multiset(items)[x] else 0))
  {
    RoutedCount(items, Rites, x);
    forall k | k in gifts
      ensures multiset(p.giftsList[k].powers)[x] ==
        multiset(gifts[k].powers)[x] + (if Route(x) == Powers(k) then multiset(items)[x] else 0)
    {
      RoutedCount(items, Powers(k), x);
    }
  }

  /** No two different entries share both level and name. */
  predicate DistinctKeys(s: seq<Item>)
  {
    forall x, y :: x in s && y in s && x.level == y.level && x.name == y.name ==> x == y
  }

  /** The first entries of two sorted arrangements of the same entries agree. */
  lemma HeadsAgree(s: seq<Item>, t: seq<Item>)
    requires Sorted(s) && Sorted(t)
    requires s != [] && multiset(s) == multiset(t)
    requires DistinctKeys(s)
    ensures t != [] && s[0] == t[0]
  {
    assert s[0] in multiset(t);
    assert t != [] && t[0] in multiset(s);
    var i :| 0 <= i < |s| && s[i] == t[0];
    var j :| 0 <= j < |t| && t[j] == s[0];
    SortedPairwise(s, 0, i);
    SortedPairwise(t, 0, j);
    InOrderTie(s[0], t[0]);
    assert s[0] in s && t[0] in s;
  }

  /** Dropping equal first entries keeps two arrangements permutations of
      each other. */
  lemma TailsPermuted(s: seq<Item>, t: seq<Item>)
    requires s != [] && t != [] && s[0] == t[0]
    requires multiset(s) == multiset(t)
    ensures multiset(s[1..]) == multiset(t[1..])
  {
    assert s == [s[0]] + s[1..] && t == [t[0]] + t[1..];
    assert multiset(s[1..]) == multiset(s) - multiset{s[0]};
    assert multiset(t[1..]) == multiset(t) - multiset{t[0]};
  }

  /** The shown order is determined: two sorted arrangements of the same
      entries agree when no two different entries tie under the comparator.
      Unlike `Items.SortedTiesAgree`, this needs no assumption about the
      order ties keep, so it holds for any sort the host might use, stable
      or not; `SortedTiesAgree` covers lists with ties, for a stable sort. */
  lemma {:induction false} SortedPermutationsAgree(s: seq<Item>, t: seq<Item>)
    requires Sorted(s) && Sorted(t)
    requires multiset(s) == multiset(t)
    requires DistinctKeys(s)
    ensures s == t
    decreases |s|
  {
    if s == [] {
      assert |t| == |multiset(t)| == 0;
    } else {
      HeadsAgree(s, t);
      TailsPermuted(s, t);
      var s', t' := s[1..], t[1..];
      assert DistinctKeys(s') by {
        forall x | x in s' ensures x in s { assert x == s[1 + IndexOf(s', x)]; }
      }
      SortedPermutationsAgree(s', t');
      assert s == [s[0]] + s' && t == [t[0]] + t';
    }
  }

  /** The position of an element of `s`. */
  function IndexOf(s: seq<Item>, x: Item): (i: nat)
    requires x in s
    ensures i < |s| && s[i] == x
  {
    if s[0] == x then 0 else 1 + IndexOf(s[1..], x)
  }

  /** A worked example: two rites given as Beta (level 2) then Alpha (level 1)
      and one "totem" gift Zeta (level 1), with an empty "totem" category and
      no seed rites, come out as rites [Alpha, Beta] and totem powers [Zeta]. */
  lemma ExampleOrganised(p: Prepared)
    requires Organised(ExampleItems(), ExampleGifts(), [], p)
    ensures p.ritesList == [ExampleAlpha(), ExampleBeta()]
    ensures p.giftsList["totem"].powers == [ExampleZeta()]
  {
    ExampleRouting();
    ExampleRites(p.ritesList);
    var gifts := ExampleGifts();
    assert "totem" in gifts && gifts["totem"].powers == [];
    ExampleTotem(p.giftsList["totem"].powers);
  }

  /** The only sorted arrangement of the example's rites. */
  lemma ExampleRites(rites: seq<Item>)
    requires Sorted(rites)
    requires multiset(rites) == multiset([] + [ExampleBeta(), ExampleAlpha()])
    ensures rites == [ExampleAlpha(), ExampleBeta()]
  {
    var expected := [ExampleAlpha(), ExampleBeta()];
    assert multiset([] + [ExampleBeta(), ExampleAlpha()]) == multiset(expected);
    assert InOrder(expected[0], expected[1]);
    SortedPermutationsAgree(expected, rites);
  }

  /** The only sorted arrangement of the example's totem powers. */
  lemma ExampleTotem(powers: seq<Item>)
    requires Sorted(powers)
    requires multiset(powers) == multiset([] + [ExampleZeta()])
    ensures powers == [ExampleZeta()]
  {
    assert [] + [ExampleZeta()] == [ExampleZeta()];
    SortedPermutationsAgree([ExampleZeta()], powers);
  }

  /** How the example's items are routed. */
  lemma ExampleRouting()
    ensures RoutedTo(ExampleItems(), Rites) == [ExampleBeta(), ExampleAlpha()]
    ensures RoutedTo(ExampleItems(), Powers("totem")) == [ExampleZeta()]
  {
    var items := ExampleItems();
    var first, second := [ExampleBeta()], [ExampleBeta(), ExampleAlpha()];
    assert items[..2] == second && second[..1] == first && first[..0] == [];
    assert RoutedTo(first, Rites) == [ExampleBeta()];
    assert RoutedTo(second, Rites) == [ExampleBeta(), ExampleAlpha()];
    assert RoutedTo(first, Powers("totem")) == [];
    assert RoutedTo(second, Powers("totem")) == [];
  }

  /** Two rites that differ only in their document id, as two presses of the
      "new rite" button make, are shown in the order they were given. */
  lemma ExampleNewRites(p: Prepared)
    requires Organised(ExampleNewRiteItems(), map[], [], p)
    ensures p.ritesList == ExampleNewRiteItems()
  {
    var items := ExampleNewRiteItems();
    assert items[..1] == [items[0]] && [items[0]][..0] == [];
    assert RoutedTo(items, Rites) == items;
    assert [] + items == items;
    Collation.NameLeReflexive("New Rite");
    assert Sorted(items);
    SortedTiesAgree(items, p.ritesList);
  }

  function ExampleNewRiteItems(): seq<Item>
  {
    [Item("first", "gift", "New Rite", Some("rite"), 0, "", "", "", false),
     Item("second", "gift", "New Rite", Some("rite"), 0, "", "", "", false)]
  }

  function ExampleGifts(): map<string, GiftCategory> { map["totem" := GiftCategory("Totem", "", [])] }
  function ExampleItems(): seq<Item> { [ExampleBeta(), ExampleAlpha(), ExampleZeta()] }
  function ExampleAlpha(): Item { Item("alpha", "gift", "Alpha", Some("rite"), 1, "", "", "", false) }
  function ExampleBeta(): Item { Item("beta", "gift", "Beta", Some("rite"), 2, "", "", "", false) }
  function ExampleZeta(): Item { Item("zeta", "gift", "Zeta", Some("totem"), 1, "", "", "", false) }
}
