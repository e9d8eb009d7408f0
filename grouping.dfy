/** Grouping a list into a dictionary of lists by a key, as both alert views do: the
    mosaic with a `forEach` that pushes into `groups[dateKey]`, the table with a
    `reduce` that pushes into `acc[key]`. A JavaScript object keeps its (non-numeric)
    keys in insertion order, so the dictionary is modelled as the sequence of its
    entries in that order. */
module Grouping {
  import opened Js

  datatype Group<K, T> = Group(key: K, members: seq<T>)

  /** The keys are pairwise distinct, as in a dictionary. */
  predicate DistinctKeys<K(==), T>(gs: seq<Group<K, T>>) {
    forall i, j :: 0 <= i < j < |gs| ==> gs[i].key != gs[j].key
  }

  /** The members stored under key `k`, or the empty list when `k` has no entry. */
  function MembersOf<K(==), T>(gs: seq<Group<K, T>>, k: K): seq<T> {
    if gs == [] then [] else if gs[0].key == k then gs[0].members else MembersOf(gs[1..], k)
  }

  function TotalSize<K(==), T>(gs: seq<Group<K, T>>): nat {
    if gs == [] then 0 else |gs[0].members| + TotalSize(gs[1..])
  }

  /** The test "has key `k`", as a function value so that every use denotes the same one. */
  function KeyIs<K(==), T>(keyOf: T -> K, k: K): T -> bool {
    y => keyOf(y) == k
  }

  /** One push: `groups[k] ||= []; groups[k].push(x)`. */
  function Insert<K(==), T>(gs: seq<Group<K, T>>, k: K, x: T): seq<Group<K, T>> {
    if gs == [] then [Group(k, [x])]
    else if gs[0].key == k then [gs[0].(members := gs[0].members + [x])] + gs[1..]
    else [gs[0]] + Insert(gs[1..], k, x)
  }

  /** The dictionary after pushing every element of `s`, first to last. */
  function GroupsOf<K(==), T>(s: seq<T>, keyOf: T -> K): seq<Group<K, T>> {
    if s == [] then [] else Insert(GroupsOf(s[..|s| - 1], keyOf), keyOf(s[|s| - 1]), s[|s| - 1])
  }

  /** The loop of both views: for each element, find its key's entry and push onto it,
      or add a new entry at the end. */
  method GroupByKey<K(==), T>(s: seq<T>, keyOf: T -> K) returns (gs: seq<Group<K, T>>)
    ensures gs == GroupsOf(s, keyOf)
  {
    gs := [];
    var i := 0;
    while i < |s|
      invariant 0 <= i <= |s|
      invariant gs == GroupsOf(s[..i], keyOf)
    {
      var x := s[i];
      var k := keyOf(x);
      var j := 0;
      while j < |gs| && gs[j].key != k
        invariant 0 <= j <= |gs|
        invariant forall m :: 0 <= m < j ==> gs[m].key != k
      {
        j := j + 1;
      }
      InsertAt(gs, k, x, j);
      if j < |gs| {
        gs := gs[j := gs[j].(members := gs[j].members + [x])];
      } else {
        gs := gs + [Group(k, [x])];
      }
      assert s[..i + 1][..i] == s[..i];
      i := i + 1;
    }
    assert s[..i] == s;
  }

  /** `Insert` updates the first entry with key `k` in place, or appends a new entry. */
  lemma {:induction false} InsertAt<K, T>(gs: seq<Group<K, T>>, k: K, x: T, j: nat)
    requires j <= |gs|
    requires forall m :: 0 <= m < j ==> gs[m].key != k
    requires j < |gs| ==> gs[j].key == k
    ensures j < |gs| ==> Insert(gs, k, x) == gs[j := gs[j].(members := gs[j].members + [x])]
    ensures j == |gs| ==> Insert(gs, k, x) == gs + [Group(k, [x])]
  {
    if gs != [] && j > 0 {
      InsertAt(gs[1..], k, x, j - 1);
      if j < |gs| {
        assert gs[j := gs[j].(members := gs[j].members + [x])]
            == [gs[0]] + gs[1..][j - 1 := gs[j].(members := gs[j].members + [x])];
      } else {
        assert gs + [Group(k, [x])] == [gs[0]] + (gs[1..] + [Group(k, [x])]);
      }
    }
  }

  /** After a push, the entry for `k` exists, every earlier key still has its entry, and no
      other key appears. */
  lemma {:induction false} InsertKeys<K, T>(gs: seq<Group<K, T>>, k: K, x: T)
    ensures forall g :: g in Insert(gs, k, x) ==> g.key == k || exists h :: h in gs && h.key == g.key
    ensures exists g :: g in Insert(gs, k, x) && g.key == k
    ensures forall h :: h in gs ==> exists g :: g in Insert(gs, k, x) && g.key == h.key
  {
    var r := Insert(gs, k, x);
    if gs == [] {
      assert r[0] in r;
    } else if gs[0].key == k {
      assert r[0] in r && r[0].key == k;
      assert forall i :: 1 <= i < |r| ==> r[i] == gs[i];
      forall h | h in gs ensures exists g :: g in r && g.key == h.key {
        var i :| 0 <= i < |gs| && gs[i] == h;
        assert r[i] in r;
      }
    } else {
      InsertKeys(gs[1..], k, x);
      assert r == [gs[0]] + Insert(gs[1..], k, x);
      forall h | h in gs ensures exists g :: g in r && g.key == h.key {
        if h != gs[0] {
          assert h in gs[1..];
        }
      }
    }
  }

  /** The keys of the entries, in entry order. */
  function KeysOf<K, T>(gs: seq<Group<K, T>>): (ks: seq<K>)
    ensures |ks| == |gs| && forall i :: 0 <= i < |gs| ==> ks[i] == gs[i].key
  {
    if gs == [] then [] else [gs[0].key] + KeysOf(gs[1..])
  }

  /** A push adds its key at the end when it is new and leaves the keys alone otherwise. */
  lemma {:induction false} InsertKeySeq<K, T>(gs: seq<Group<K, T>>, k: K, x: T)
    ensures KeysOf(Insert(gs, k, x)) == if k in KeysOf(gs) then KeysOf(gs) else KeysOf(gs) + [k]
  {
    if gs != [] && gs[0].key != k {
      InsertKeySeq(gs[1..], k, x);
      assert KeysOf(gs) == [gs[0].key] + KeysOf(gs[1..]);
    } else if gs != [] {
      var r := Insert(gs, k, x);
      assert KeysOf(r) == KeysOf(gs);
    }
  }

  /** A push keeps the keys distinct. */
  lemma InsertDistinct<K, T>(gs: seq<Group<K, T>>, k: K, x: T)
    requires DistinctKeys(gs)
    ensures DistinctKeys(Insert(gs, k, x))
  {
    InsertKeySeq(gs, k, x);
    var ks, rs := KeysOf(gs), KeysOf(Insert(gs, k, x));
    forall i, j | 0 <= i < j < |rs| ensures rs[i] != rs[j] {
      if j == |ks| {
        assert k !in ks && rs[i] == ks[i];
      }
    }
  }

  /** A push keeps every entry non-empty. */
  lemma {:induction false} InsertNonEmpty<K, T>(gs: seq<Group<K, T>>, k: K, x: T)
    requires forall g :: g in gs ==> g.members != []
    ensures forall g :: g in Insert(gs, k, x) ==> g.members != []
  {
    if gs != [] && gs[0].key != k {
      InsertNonEmpty(gs[1..], k, x);
      assert Insert(gs, k, x) == [gs[0]] + Insert(gs[1..], k, x);
    } else if gs != [] {
      var r := Insert(gs, k, x);
      assert forall i :: 1 <= i < |r| ==> r[i] == gs[i];
    }
  }

  lemma {:induction false} InsertMembers<K, T>(gs: seq<Group<K, T>>, k: K, x: T, k': K)
    ensures MembersOf(Insert(gs, k, x), k') == if k' == k then MembersOf(gs, k) + [x] else MembersOf(gs, k')
  {
    if gs != [] && gs[0].key != k {
      InsertMembers(gs[1..], k, x, k');
    }
  }

  lemma {:induction false} InsertTotal<K, T>(gs: seq<Group<K, T>>, k: K, x: T)
    ensures TotalSize(Insert(gs, k, x)) == TotalSize(gs) + 1
  {
    if gs != [] && gs[0].key != k {
      InsertTotal(gs[1..], k, x);
      assert Insert(gs, k, x)[1..] == Insert(gs[1..], k, x);
    } else if gs != [] {
      assert Insert(gs, k, x)[1..] == gs[1..];
    }
  }

  /** With distinct keys, the members of an entry are exactly what `MembersOf` finds. */
  lemma {:induction false} MembersOfEntry<K, T>(gs: seq<Group<K, T>>, g: Group<K, T>)
    requires DistinctKeys(gs) && g in gs
    ensures MembersOf(gs, g.key) == g.members
  {
    if gs[0] != g {
      assert g in gs[1..];
      assert gs[0].key != g.key by {
        var i :| 0 <= i < |gs| && gs[i] == g;
      }
      MembersOfEntry(gs[1..], g);
    }
  }

  /** The entries have distinct keys and none is empty. */
  lemma {:induction false} GroupsShape<K, T>(s: seq<T>, keyOf: T -> K)
    ensures DistinctKeys(GroupsOf(s, keyOf))
    ensures forall g :: g in GroupsOf(s, keyOf) ==> g.members != []
  {
    if s != [] {
      GroupsShape(s[..|s| - 1], keyOf);
      InsertDistinct(GroupsOf(s[..|s| - 1], keyOf), keyOf(s[|s| - 1]), s[|s| - 1]);
      InsertNonEmpty(GroupsOf(s[..|s| - 1], keyOf), keyOf(s[|s| - 1]), s[|s| - 1]);
    }
  }

  /** The list stored under any key is the input filtered by that key: each element is
      in the entry for its own key and in no other, in input order. */
  lemma {:induction false} GroupsMembers<K, T>(s: seq<T>, keyOf: T -> K, k: K)
    ensures MembersOf(GroupsOf(s, keyOf), k) == Filter(s, KeyIs(keyOf, k))
  {
    if s != [] {
      var init, x := s[..|s| - 1], s[|s| - 1];
      assert s == init + [x];
      GroupsMembers(init, keyOf, k);
      InsertMembers(GroupsOf(init, keyOf), keyOf(x), x, k);
      FilterAppend(init, [x], KeyIs(keyOf, k));
    }
  }

  /** Every element's key has an entry. */
  lemma {:induction false} GroupsCover<K, T>(s: seq<T>, keyOf: T -> K)
    ensures forall x :: x in s ==> exists g :: g in GroupsOf(s, keyOf) && g.key == keyOf(x)
  {
    if s != [] {
      var init, x := s[..|s| - 1], s[|s| - 1];
      assert s == init + [x];
      GroupsCover(init, keyOf);
      InsertKeys(GroupsOf(init, keyOf), keyOf(x), x);
      forall y | y in s ensures exists g :: g in GroupsOf(s, keyOf) && g.key == keyOf(y) {
        if y != x {
          assert y in init;
          var h :| h in GroupsOf(init, keyOf) && h.key == keyOf(y);
        }
      }
    }
  }

  /** The entry sizes add up to the input length. */
  lemma {:induction false} GroupsTotal<K, T>(s: seq<T>, keyOf: T -> K)
    ensures TotalSize(GroupsOf(s, keyOf)) == |s|
  {
    if s != [] {
      GroupsTotal(s[..|s| - 1], keyOf);
      InsertTotal(GroupsOf(s[..|s| - 1], keyOf), keyOf(s[|s| - 1]), s[|s| - 1]);
    }
  }

  /** The grouping is a partition that keeps the input order: the keys are distinct,
      every entry is non-empty and holds exactly the elements with its key in input
      order, every element's key has an entry, and the entry sizes add up to the input
      length. */
  lemma GroupsPartition<K, T>(s: seq<T>, keyOf: T -> K)
    ensures DistinctKeys(GroupsOf(s, keyOf))
    ensures forall g :: g in GroupsOf(s, keyOf) ==> g.members != [] && g.members == Filter(s, KeyIs(keyOf, g.key))
    ensures forall x :: x in s ==> exists g :: g in GroupsOf(s, keyOf) && g.key == keyOf(x)
    ensures TotalSize(GroupsOf(s, keyOf)) == |s|
  {
    var gs := GroupsOf(s, keyOf);
    GroupsShape(s, keyOf);
    GroupsCover(s, keyOf);
    GroupsTotal(s, keyOf);
    forall g | g in gs ensures g.members == Filter(s, KeyIs(keyOf, g.key)) {
      MembersOfEntry(gs, g);
      GroupsMembers(s, keyOf, g.key);
    }
  }
}
