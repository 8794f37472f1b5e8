/** The item documents the sheet reads, the gift categories it fills and the
    order in which it shows their powers. */
module Items {
  import opened Common
  import opened Collation

  /** An item owned by the actor. `id` is the document's id, which tells
      apart two documents with the same data; `kind` is the document's `type`
      ("gift", "feature", ...); `giftType` is absent when the item's data has
      none. `renown`, `dice1`, `dice2` and `skill` are the roll settings of a
      gift. */
  datatype Item = Item(
    id: string,
    kind: string,
    name: string,
    giftType: Option<string>,
    level: int,
    renown: string,
    dice1: string,
    dice2: string,
    skill: bool)

  /** One entry of the actor's gift map: its label, its description and the
      powers shown under it. */
  datatype GiftCategory = GiftCategory(name: string, description: string, powers: seq<Item>)

  /** The sheet's comparator: lower level first, and on equal levels by name.
      `InOrder(x, y)` holds when `x` may be shown before `y`. */
  predicate InOrder(x: Item, y: Item)
    ensures x.level < y.level ==> InOrder(x, y)
    ensures x.level > y.level ==> !InOrder(x, y)
    ensures x.level == y.level ==> (InOrder(x, y) <==> NameLe(x.name, y.name))
  {
    x.level < y.level || (x.level == y.level && NameLe(x.name, y.name))
  }

  /** Every pair of neighbours is in order. */
  predicate Sorted(s: seq<Item>)
  {
    forall k :: 0 < k < |s| ==> InOrder(s[k - 1], s[k])
  }

  /** Any two items are ordered one way or the other. */
  lemma InOrderTotal(x: Item, y: Item)
    ensures InOrder(x, y) || InOrder(y, x)
  {
    NameLeTotal(x.name, y.name);
  }

  lemma InOrderTransitive(x: Item, y: Item, z: Item)
    requires InOrder(x, y) && InOrder(y, z)
    ensures InOrder(x, z)
  {
    if x.level == y.level == z.level {
      NameLeTransitive(x.name, y.name, z.name);
    }
  }

  /** A tie in both directions means equal level and equal name. */
  lemma InOrderTie(x: Item, y: Item)
    requires InOrder(x, y) && InOrder(y, x)
    ensures x.level == y.level && x.name == y.name
  {
    NameLeAntisymmetric(x.name, y.name);
  }

  /** Sortedness of neighbours gives sortedness of every pair. */
  lemma {:induction false} SortedPairwise(s: seq<Item>, i: int, j: int)
    requires Sorted(s)
    requires 0 <= i <= j < |s|
    ensures InOrder(s[i], s[j])
    decreases j - i
  {
    if i == j {
      NameLeReflexive(s[i].name);
    } else {
      SortedPairwise(s, i, j - 1);
      InOrderTransitive(s[i], s[j - 1], s[j]);
    }
  }

  /** The entries of `s` with this level and name, in the order of `s`: the
      entries the comparator cannot tell apart. */
  function Ties(s: seq<Item>, level: int, name: string): seq<Item>
  {
    if s == [] then []
    else (if s[0].level == level && s[0].name == name then [s[0]] else []) + Ties(s[1..], level, name)
  }

  /** `t` holds every group of tied entries of `s` in the same order: what a
      stable sort keeps. */
  ghost predicate SameTies(s: seq<Item>, t: seq<Item>)
  {
    forall level, name :: Ties(s, level, name) == Ties(t, level, name)
  }

  lemma {:induction false} TiesAppend(s: seq<Item>, t: seq<Item>, level: int, name: string)
    ensures Ties(s + t, level, name) == Ties(s, level, name) + Ties(t, level, name)
    decreases |s|
  {
    if s == [] {
      assert s + t == t;
    } else {
      assert (s + t)[0] == s[0] && (s + t)[1..] == s[1..] + t;
      TiesAppend(s[1..], t, level, name);
    }
  }

  lemma {:induction false} TiesMember(s: seq<Item>, level: int, name: string, x: Item)
    requires x in Ties(s, level, name)
    ensures x in s && x.level == level && x.name == name
    decreases |s|
  {
    if x != s[0] || s[0].level != level || s[0].name != name {
      TiesMember(s[1..], level, name, x);
    }
  }

  /** Exchanging two neighbours that do not tie keeps every group of ties in
      its order. */
  lemma SwapKeepsTies(s: seq<Item>, j: int)
    requires 0 < j < |s|
    requires s[j - 1].level != s[j].level || s[j - 1].name != s[j].name
    ensures SameTies(s, s[j - 1 := s[j]][j := s[j - 1]])
  {
    var p, q := s[j - 1], s[j];
    var front, back := s[..j - 1], s[j + 1..];
    var swapped := s[j - 1 := q][j := p];
    assert s == front + ([p, q] + back);
    assert swapped == front + ([q, p] + back);
    forall level, name
      ensures Ties(s, level, name) == Ties(swapped, level, name)
    {
      assert [p, q][1..] == [q] && [q, p][1..] == [p] && [q][1..] == [] && [p][1..] == [];
      assert Ties([p, q], level, name) == Ties([q, p], level, name);
      TiesAppend([p, q], back, level, name);
      TiesAppend([q, p], back, level, name);
      TiesAppend(front, [p, q] + back, level, name);
      TiesAppend(front, [q, p] + back, level, name);
    }
  }

  /** The first entry of a list heads its own group of ties. */
  lemma TiesHead(s: seq<Item>)
    requires s != []
    ensures Ties(s, s[0].level, s[0].name) != []
    ensures Ties(s, s[0].level, s[0].name)[0] == s[0]
    ensures Ties(s, s[0].level, s[0].name)[1..] == Ties(s[1..], s[0].level, s[0].name)
  {
  }

  /** The shown order is determined: two sorted lists that keep the same
      groups of ties in the same order are equal. So a sorted list that keeps
      its input's ties in input order, as a stable sort does, is the only
      possible output. */
  lemma {:induction false} SortedTiesAgree(s: seq<Item>, t: seq<Item>)
    requires Sorted(s) && Sorted(t)
    requires SameTies(s, t)
    ensures s == t
    decreases |s|
  {
    if s == [] && t != [] {
      TiesHead(t);
      assert false;
    } else if s != [] && t == [] {
      TiesHead(s);
      assert false;
    } else if s != [] {
      TiesHead(s);
      TiesHead(t);
      // Each first entry occurs in the other list.
      assert Ties(t, s[0].level, s[0].name)[0] == s[0];
      TiesMember(t, s[0].level, s[0].name, s[0]);
      assert Ties(s, t[0].level, t[0].name)[0] == t[0];
      TiesMember(s, t[0].level, t[0].name, t[0]);
      var i :| 0 <= i < |s| && s[i] == t[0];
      var j :| 0 <= j < |t| && t[j] == s[0];
      SortedPairwise(s, 0, i);
      SortedPairwise(t, 0, j);
      InOrderTie(s[0], t[0]);
      assert s[0] == t[0];
      forall level, name
        ensures Ties(s[1..], level, name) == Ties(t[1..], level, name)
      {
        assert Ties(s, level, name) == Ties(t, level, name);
        var head := if s[0].level == level && s[0].name == name then [s[0]] else [];
        assert Ties(s, level, name) == head + Ties(s[1..], level, name);
        assert Ties(t, level, name) == head + Ties(t[1..], level, name);
        assert Ties(s[1..], level, name) == Ties(s, level, name)[|head|..];
        assert Ties(t[1..], level, name) == Ties(t, level, name)[|head|..];
      }
      SortedTiesAgree(s[1..], t[1..]);
      assert s == [s[0]] + s[1..] && t == [t[0]] + t[1..];
    }
  }
}
