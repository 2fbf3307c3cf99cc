/** Rows grouped by owner: flattening lists into a keyed table and reading them back in order. */
module Rows {

  datatype Row<K, V> = Row(key: K, pos: nat, value: V)

  /** One owner's list as rows, numbered in order. */
  function RowsOf<K, V>(key: K, list: seq<V>): (r: seq<Row<K, V>>)
    ensures |r| == |list| && forall i :: 0 <= i < |r| ==> r[i] == Row(key, i, list[i])
  {
    seq(|list|, i requires 0 <= i < |list| => Row(key, i, list[i]))
  }

  /** All owners' rows, owner after owner. */
  function Flatten<K, V>(lists: seq<seq<Row<K, V>>>): seq<Row<K, V>> {
    if lists == [] then [] else Flatten(lists[..|lists| - 1]) + lists[|lists| - 1]
  }

  /** Every list holds one owner's rows, in order of position, and no two lists the same owner's. */
  ghost predicate Owned<K(!new), V(!new)>(keys: seq<K>, lists: seq<seq<Row<K, V>>>) {
    && |keys| == |lists|
    && (forall i, j :: 0 <= i < |lists| && 0 <= j < |lists[i]| ==> lists[i][j].key == keys[i])
    && (forall i :: 0 <= i < |lists| ==> ByPosition(lists[i]))
    && forall i, j :: 0 <= i < j < |keys| ==> keys[i] != keys[j]
  }

  function Select<K(==), V>(rows: seq<Row<K, V>>, key: K): seq<Row<K, V>> {
    if rows == [] then []
    else Select(rows[..|rows| - 1], key) + if rows[|rows| - 1].key == key then [rows[|rows| - 1]] else []
  }

  function Values<K, V>(rows: seq<Row<K, V>>): (r: seq<V>)
    ensures |r| == |rows| && forall i :: 0 <= i < |r| ==> r[i] == rows[i].value
  {
    seq(|rows|, i requires 0 <= i < |rows| => rows[i].value)
  }

  /** One owner's list, as the rows give it. */
  function Group<K(==), V>(rows: seq<Row<K, V>>, key: K): seq<V> {
    Values(Select(rows, key))
  }

  /** A read of the table: all its rows, each owner's in order of position. */
  ghost predicate IsRead<K, V>(table: seq<Row<K, V>>, rows: seq<Row<K, V>>) {
    && multiset(rows) == multiset(table)
    && forall i, j :: 0 <= i < j < |rows| && rows[i].key == rows[j].key ==> rows[i].pos < rows[j].pos
  }

  ghost predicate ByPosition<K, V>(rows: seq<Row<K, V>>) {
    forall i, j :: 0 <= i < j < |rows| ==> rows[i].pos < rows[j].pos
  }

  /** No two rows share a key and a position: the table's primary key holds. */
  ghost predicate NoneTwice<K, V>(rows: seq<Row<K, V>>) {
    forall i, j :: 0 <= i < j < |rows| ==> rows[i].key != rows[j].key || rows[i].pos != rows[j].pos
  }

  /** If each owner's positions are distinct, so are all the rows' keys. */
  lemma {:induction false} FlattenedOnce<K(!new), V(!new)>(keys: seq<K>, lists: seq<seq<Row<K, V>>>)
    requires |keys| == |lists| && forall i, j :: 0 <= i < j < |keys| ==> keys[i] != keys[j]
    requires forall i, j :: 0 <= i < |lists| && 0 <= j < |lists[i]| ==> lists[i][j].key == keys[i]
    requires forall i :: 0 <= i < |lists| ==> NoneTwice(lists[i])
    ensures NoneTwice(Flatten(lists)) && forall r :: r in Flatten(lists) ==> r.key in keys
  {
    if lists != [] {
      var last := |lists| - 1;
      FlattenedOnce(keys[..last], lists[..last]);
      var init, own := Flatten(lists[..last]), lists[last];
      forall i, j | 0 <= i < |init| && 0 <= j < |own| ensures init[i].key != own[j].key {
        assert init[i] in init && init[i].key in keys[..last];
      }
      forall r | r in init + own ensures r.key in keys {
        if r in init {
          assert r.key in keys[..last];
        } else {
          assert r in own && keys[last] in keys;
        }
      }
    }
  }

  /** A table whose keys are distinct holds no owner's position twice. */
  lemma {:induction false} OnceInEach<K, V>(lists: seq<seq<Row<K, V>>>, i: nat)
    requires NoneTwice(Flatten(lists)) && i < |lists|
    ensures NoneTwice(lists[i])
  {
    var last := |lists| - 1;
    var init, own := Flatten(lists[..last]), lists[last];
    assert Flatten(lists) == init + own;
    if i < last {
      assert forall j :: 0 <= j < |init| ==> (init + own)[j] == init[j];
      OnceInEach(lists[..last], i);
    } else {
      assert forall j :: 0 <= j < |own| ==> (init + own)[|init| + j] == own[j];
    }
  }

  lemma {:induction false} Selected<K, V>(rows: seq<Row<K, V>>, key: K)
    ensures forall x :: multiset(Select(rows, key))[x] == if x.key == key then multiset(rows)[x] else 0
    ensures forall x :: x in Select(rows, key) ==> x in rows && x.key == key
  {
    if rows != [] {
      Selected(rows[..|rows| - 1], key);
      assert rows == rows[..|rows| - 1] + [rows[|rows| - 1]];
    }
  }

  lemma {:induction false} SelectedInOrder<K, V>(rows: seq<Row<K, V>>, key: K)
    requires forall i, j :: 0 <= i < j < |rows| && rows[i].key == rows[j].key ==> rows[i].pos < rows[j].pos
    ensures ByPosition(Select(rows, key))
  {
    if rows != [] {
      var init, last := rows[..|rows| - 1], rows[|rows| - 1];
      SelectedInOrder(init, key);
      Selected(init, key);
      var kept := Select(init, key);
      if last.key == key {
        forall i | 0 <= i < |kept| ensures kept[i].pos < last.pos {
          assert kept[i] in kept;
          var j :| 0 <= j < |init| && init[j] == kept[i];
          assert rows[j] == kept[i];
        }
      }
    }
  }

  /** The same rows in the same order of position are the same list. */
  lemma {:induction false} OneOrder<K, V>(a: seq<Row<K, V>>, b: seq<Row<K, V>>)
    requires multiset(a) == multiset(b) && ByPosition(a) && ByPosition(b)
    ensures a == b
  {
    SameLength(a, b);
    if a != [] {
      SameLast(a, b);
      WithoutLast(a, b);
      OneOrder(a[..|a| - 1], b[..|b| - 1]);
      Rejoined(a, b);
    }
  }

  lemma WithoutLast<T>(a: seq<T>, b: seq<T>)
    requires a != [] && b != [] && a[|a| - 1] == b[|b| - 1] && multiset(a) == multiset(b)
    ensures multiset(a[..|a| - 1]) == multiset(b[..|b| - 1])
  {
    var init, rest, x := a[..|a| - 1], b[..|b| - 1], a[|a| - 1];
    assert a == init + [x] && b == rest + [x];
    Cancelled(multiset(init), multiset(rest), x);
  }

  lemma Cancelled<T>(m: multiset<T>, n: multiset<T>, x: T)
    requires m + multiset{x} == n + multiset{x}
    ensures m == n
  {
    forall z ensures m[z] == n[z] {
      assert (m + multiset{x})[z] == (n + multiset{x})[z];
    }
  }

  lemma Rejoined<T>(a: seq<T>, b: seq<T>)
    requires a != [] && b != [] && a[..|a| - 1] == b[..|b| - 1] && a[|a| - 1] == b[|b| - 1]
    ensures a == b
  {
    assert a == a[..|a| - 1] + [a[|a| - 1]];
    assert b == b[..|b| - 1] + [b[|b| - 1]];
  }

  lemma SameLength<T>(a: seq<T>, b: seq<T>)
    requires multiset(a) == multiset(b)
    ensures |a| == |b|
  {
    assert |multiset(a)| == |a| && |multiset(b)| == |b|;
  }

  lemma SameLast<K, V>(a: seq<Row<K, V>>, b: seq<Row<K, V>>)
    requires multiset(a) == multiset(b) && ByPosition(a) && ByPosition(b) && a != [] && |a| == |b|
    ensures a[|a| - 1] == b[|b| - 1]
  {
    var x, y := a[|a| - 1], b[|b| - 1];
    assert x in a && y in b;
    assert x in multiset(b) && y in multiset(a);
    var i :| 0 <= i < |b| && b[i] == x;
    var j :| 0 <= j < |a| && a[j] == y;
    assert i < |b| - 1 ==> x.pos < y.pos;
    assert j < |a| - 1 ==> y.pos < x.pos;
  }

  lemma {:induction false} SelectConcat<K, V>(a: seq<Row<K, V>>, b: seq<Row<K, V>>, key: K)
    ensures Select(a + b, key) == Select(a, key) + Select(b, key)
  {
    if b == [] {
      assert a + b == a;
    } else {
      assert (a + b)[..|a + b| - 1] == a + b[..|b| - 1];
      SelectConcat(a, b[..|b| - 1], key);
    }
  }

  lemma {:induction false} SelectOwn<K, V>(list: seq<Row<K, V>>, key: K, other: K)
    requires forall j :: 0 <= j < |list| ==> list[j].key == key
    ensures Select(list, other) == if other == key then list else []
  {
    if list != [] {
      SelectOwn(list[..|list| - 1], key, other);
      assert list == list[..|list| - 1] + [list[|list| - 1]];
    }
  }

  lemma {:induction false} SelectFlat<K(!new), V(!new)>(keys: seq<K>, lists: seq<seq<Row<K, V>>>, key: K)
    requires Owned(keys, lists)
    ensures forall i :: 0 <= i < |keys| && keys[i] == key ==> Select(Flatten(lists), key) == lists[i]
    ensures key !in keys ==> Select(Flatten(lists), key) == []
  {
    if lists != [] {
      var init, last := lists[..|lists| - 1], |lists| - 1;
      OwnedInit(keys, lists);
      SelectFlat(keys[..last], init, key);
      SelectConcat(Flatten(init), lists[last], key);
      SelectOwn(lists[last], keys[last], key);
      hide Select;
      assert key in keys[..last] ==> key in keys;
      if key == keys[last] {
        assert key !in keys[..last];
      }
    }
  }

  lemma OwnedInit<K(!new), V(!new)>(keys: seq<K>, lists: seq<seq<Row<K, V>>>)
    requires Owned(keys, lists) && lists != []
    ensures Owned(keys[..|lists| - 1], lists[..|lists| - 1])
    ensures Flatten(lists) == Flatten(lists[..|lists| - 1]) + lists[|lists| - 1]
  {
  }

  /** Whatever order the table is read in, regrouping gives every owner exactly the list it had, and others none. */
  lemma Regrouped<K(!new), V(!new)>(keys: seq<K>, lists: seq<seq<Row<K, V>>>, rows: seq<Row<K, V>>, key: K)
    requires Owned(keys, lists) && IsRead(Flatten(lists), rows)
    ensures forall i :: 0 <= i < |keys| && keys[i] == key ==> Group(rows, key) == Values(lists[i])
    ensures key !in keys ==> Group(rows, key) == []
  {
    SelectFlat(keys, lists, key);
    var flat := Select(Flatten(lists), key);
    Selected(rows, key);
    Selected(Flatten(lists), key);
    SelectedInOrder(rows, key);
    SameCounts(Select(rows, key), flat);
    if key in keys {
      var i :| 0 <= i < |keys| && keys[i] == key;
      OneOrder(Select(rows, key), flat);
    } else {
      assert ByPosition(flat);
      OneOrder(Select(rows, key), flat);
    }
  }

  lemma SameCounts<T>(a: seq<T>, b: seq<T>)
    requires forall x :: multiset(a)[x] == multiset(b)[x]
    ensures multiset(a) == multiset(b)
  {
  }

  /** An owner with a row has a list that is not empty. */
  lemma GroupNotEmpty<K, V>(rows: seq<Row<K, V>>, n: nat)
    requires n < |rows|
    ensures Group(rows, rows[n].key) != []
  {
    Selected(rows, rows[n].key);
    assert rows[n] in multiset(rows);
    assert rows[n] in multiset(Select(rows, rows[n].key));
  }

  function Lookup<K(==), V>(m: map<K, seq<V>>, key: K): seq<V> {
    if key in m then m[key] else []
  }

  /** The loader's loop: rows appended, as they come, to their owner's list. */
  method Regroup<K(==), V>(rows: seq<Row<K, V>>) returns (lists: map<K, seq<V>>)
    ensures forall key :: Lookup(lists, key) == Group(rows, key)
  {
    lists := map[];
    for i := 0 to |rows|
      invariant forall key :: Lookup(lists, key) == Group(rows[..i], key)
    {
      var row := rows[i];
      assert rows[..i + 1][..i] == rows[..i];
      ghost var before := lists;
      lists := lists[row.key := Lookup(lists, row.key) + [row.value]];
      forall key ensures Lookup(lists, key) == Group(rows[..i + 1], key) {
        OneMoreRow(rows, i, key);
        assert Lookup(before, key) == Group(rows[..i], key);
      }
    }
    assert rows[..|rows|] == rows;
  }

  lemma OneMoreRow<K, V>(rows: seq<Row<K, V>>, i: nat, key: K)
    requires i < |rows|
    ensures Group(rows[..i + 1], key) == if key == rows[i].key then Group(rows[..i], key) + [rows[i].value] else Group(rows[..i], key)
  {
    assert rows[..i + 1][..i] == rows[..i];
  }
}
