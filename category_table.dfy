/** The `categories` object of the main slice: category groups keyed by group
    id. It is a plain JavaScript object, so its keys are strings (a numeric
    group id is looked up by its `toString()`), and its properties are
    enumerated in JavaScript's order: keys that are array indices ascending by
    numeric value first, then every other key in the order it was created.
    The table keeps its properties in creation order; `Entries` gives the
    enumeration order. */
module CategoryTable {
  import opened Js
  import opened Entities
  import opened Sorting

  datatype Entry = Entry(key: string, group: Category)

  type Table = seq<Entry>

  predicate KeysUnique(t: Table) {
    forall i, j :: 0 <= i < j < |t| ==> t[i].key != t[j].key
  }

  function Keys(t: Table): set<string> {
    set e | e in t :: e.key
  }

  function IndexOf(t: Table, key: string): (r: int)
    ensures -1 <= r < |t|
    ensures r >= 0 ==> t[r].key == key
    ensures r == -1 <==> key !in Keys(t)
  {
    FindIndex(t, (e: Entry) => e.key == key)
  }

  /** `t[key]` */
  function Get(t: Table, key: string): (r: Option<Category>)
    ensures r.Some? <==> key in Keys(t)
  {
    var i := IndexOf(t, key);
    if i >= 0 then Some(t[i].group) else None
  }

  /** `t[key] = c`: an existing property keeps its place, a new one goes last. */
  function Put(t: Table, key: string, c: Category): (r: Table)
    ensures key in Keys(t) ==> |r| == |t|
    ensures key !in Keys(t) ==> r == t + [Entry(key, c)]
  {
    var i := IndexOf(t, key);
    if i >= 0 then t[i := Entry(key, c)] else t + [Entry(key, c)]
  }

  /** `delete t[key]` */
  function Delete(t: Table, key: string): (r: Table)
    ensures |r| <= |t|
  {
    Filter(t, (e: Entry) => e.key != key)
  }

  /** The group found under a key is an entry of the table. */
  lemma GetEntry(t: Table, key: string)
    requires Get(t, key).Some?
    ensures Entry(key, Get(t, key).value) in t
  {
    var i := IndexOf(t, key);
    assert t[i] == Entry(key, Get(t, key).value);
  }

  /** In a table with unique keys, the property with a given key is at the one index holding it. */
  lemma UniqueIndex(t: Table, key: string, i: int)
    requires KeysUnique(t)
    requires 0 <= i < |t| && t[i].key == key
    ensures IndexOf(t, key) == i && Get(t, key) == Some(t[i].group)
  {
  }

  /** Writing a property reads back the written group and leaves every other property as it was. */
  lemma {:induction false} GetPut(t: Table, key: string, c: Category, other: string)
    requires KeysUnique(t)
    ensures KeysUnique(Put(t, key, c))
    ensures Keys(Put(t, key, c)) == Keys(t) + {key}
    ensures Get(Put(t, key, c), key) == Some(c)
    ensures other != key ==> Get(Put(t, key, c), other) == Get(t, other)
  {
    var r := Put(t, key, c);
    var i := IndexOf(t, key);
    if i >= 0 {
      assert forall k :: 0 <= k < |r| ==> r[k].key == t[k].key;
      assert Keys(r) == Keys(t) by {
        forall x | x in Keys(r) ensures x in Keys(t) {
          var e :| e in r && e.key == x;
          var k :| 0 <= k < |r| && r[k] == e;
          assert t[k] in t;
        }
        forall x | x in Keys(t) ensures x in Keys(r) {
          var e :| e in t && e.key == x;
          var k :| 0 <= k < |t| && t[k] == e;
          assert r[k] in r;
        }
      }
      UniqueIndex(r, key, i);
      if other != key && other in Keys(t) {
        var j := IndexOf(t, other);
        UniqueIndex(t, other, j);
        UniqueIndex(r, other, j);
      }
    } else {
      assert Keys(r) == Keys(t) + {key} by {
        forall x | x in Keys(r) ensures x in Keys(t) + {key} {
          var e :| e in r && e.key == x;
          assert e in t || e == Entry(key, c);
        }
        forall x | x in Keys(t) + {key} ensures x in Keys(r) {
          if x == key {
            assert r[|t|] in r;
          } else {
            var e :| e in t && e.key == x;
            assert e in r;
          }
        }
      }
      assert KeysUnique(r) by {
        forall k | 0 <= k < |t| ensures t[k].key != key {
          assert t[k] in t;
        }
      }
      UniqueIndex(r, key, |t|);
      if other != key && other in Keys(t) {
        var j := IndexOf(t, other);
        UniqueIndex(t, other, j);
        UniqueIndex(r, other, j);
      }
    }
  }

  lemma {:induction false} FilterKeepsKeysUnique(t: Table, p: Entry -> bool)
    requires KeysUnique(t)
    ensures KeysUnique(Filter(t, p))
  {
    if t != [] {
      FilterKeepsKeysUnique(t[1..], p);
      FilterMembers(t[1..], p);
      var rest := Filter(t[1..], p);
      forall k | 0 <= k < |rest| ensures rest[k].key != t[0].key {
        assert rest[k] in t[1..];
      }
    }
  }

  /** Deleting a property removes exactly that key. */
  lemma {:induction false} GetDelete(t: Table, key: string, other: string)
    requires KeysUnique(t)
    ensures KeysUnique(Delete(t, key))
    ensures Keys(Delete(t, key)) == Keys(t) - {key}
    ensures Get(Delete(t, key), key) == None
    ensures other != key ==> Get(Delete(t, key), other) == Get(t, other)
  {
    var p := (e: Entry) => e.key != key;
    var r := Delete(t, key);
    FilterKeepsKeysUnique(t, p);
    FilterMembers(t, p);
    assert Keys(r) == Keys(t) - {key} by {
      forall x | x in Keys(r) ensures x in Keys(t) - {key} {
        var e :| e in r && e.key == x;
      }
      forall x | x in Keys(t) - {key} ensures x in Keys(r) {
        var e :| e in t && e.key == x;
        assert e in r;
      }
    }
    if other != key && other in Keys(t) {
      var j := IndexOf(t, other);
      UniqueIndex(t, other, j);
      assert t[j] in r;
      var k :| 0 <= k < |r| && r[k] == t[j];
      UniqueIndex(r, other, k);
    }
  }

  // ---------------------------------------------------------------------------
  // Enumeration order (`Object.entries`, `Object.keys`)

  /** A key that JavaScript treats as an array index. */
  predicate IsArrayIndex(key: string) {
    IsCanonicalNumeral(key) && DecimalValue(key) < 4294967295
  }

  predicate IsIndexEntry(e: Entry) {
    IsArrayIndex(e.key)
  }

  predicate IsNamedEntry(e: Entry) {
    !IsArrayIndex(e.key)
  }

  /** The numeric value of a digit-only key (0 for any other key). */
  function KeyNumber(key: string): nat {
    if AllDigits(key) then DecimalValue(key) else 0
  }

  predicate IndexLe(a: Entry, b: Entry) {
    KeyNumber(a.key) <= KeyNumber(b.key)
  }

  /** `Object.entries(t)`: array-index keys ascending, then the others in creation order. */
  function Entries(t: Table): Table {
    SortBy(Filter(t, IsIndexEntry), IndexLe) + Filter(t, IsNamedEntry)
  }

  /** Enumeration visits every property exactly once: it is a permutation of the table. */
  lemma EntriesPermutation(t: Table)
    ensures multiset(Entries(t)) == multiset(t)
    ensures |Entries(t)| == |t|
  {
    FilterSplitsMultiset(t, IsIndexEntry, IsNamedEntry);
    SortPermutes(Filter(t, IsIndexEntry), IndexLe);
    assert |multiset(Entries(t))| == |multiset(t)|;
  }

  /** Enumeration puts the array-index keys first, in ascending numeric order,
      and the other keys after them in creation order. */
  lemma EntriesOrder(t: Table)
    ensures var r := Entries(t);
      var n := |Filter(t, IsIndexEntry)|;
      n <= |r|
      && (forall k :: 0 <= k < n ==> IsArrayIndex(r[k].key))
      && (forall i, j :: 0 <= i < j < n ==> KeyNumber(r[i].key) <= KeyNumber(r[j].key))
      && r[n..] == Filter(t, IsNamedEntry)
  {
    var indexed := Filter(t, IsIndexEntry);
    var s := SortBy(indexed, IndexLe);
    SortSorted(indexed, IndexLe);
    forall k | 0 <= k < |s| ensures IsArrayIndex(s[k].key) {
      assert s[k] in multiset(indexed);
      var j :| 0 <= j < |indexed| && indexed[j] == s[k];
    }
    var r := Entries(t);
    assert r == s + Filter(t, IsNamedEntry);
    assert forall k :: 0 <= k < |s| ==> r[k] == s[k];
  }

  /** `Object.keys(t)` */
  function KeyList(t: Table): (ks: seq<string>)
    ensures |ks| == |t|
  {
    EntriesPermutation(t);
    var es := Entries(t);
    seq(|es|, k requires 0 <= k < |es| => es[k].key)
  }

  /** `Object.keys` lists exactly the keys of the table. */
  lemma KeyListKeys(t: Table)
    ensures forall k :: k in KeyList(t) <==> k in Keys(t)
  {
    EntriesPermutation(t);
    var es := Entries(t);
    var ks := KeyList(t);
    assert |ks| == |es| && forall i :: 0 <= i < |ks| ==> ks[i] == es[i].key;
    forall k | k in ks ensures k in Keys(t) {
      var i :| 0 <= i < |ks| && ks[i] == k;
      assert es[i] in multiset(t);
    }
    forall k | k in Keys(t) ensures k in ks {
      var e :| e in t && e.key == k;
      assert e in multiset(es);
      var i :| 0 <= i < |es| && es[i] == e;
      assert ks[i] == k;
    }
  }
}
