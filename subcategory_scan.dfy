/** `updateSubcategoryAction` and `deleteSubcategoryAction`
    (redux/main/mainSlice.ts:233-289) walk `Object.keys(categories)` and look
    each group up as `categories[parseInt(key)]`. For a numeric key that is
    the group itself; for a temporary group key (`f_g_…`) it is
    `categories[NaN]`, which does not exist. Both reducers are modelled as
    written and as evidently intended, looking each group up by its own key;
    the main slice uses the intended ones. */
module SubcategoryScan {
  import opened Js
  import opened Entities
  import opened CategoryTable

  /** The payload of `updateSubcategoryAction`. */
  datatype SubcategoryEdit = SubcategoryEdit(id: Id, name: string, color: string, groupId: Id)

  /** `{...sub, ...edit}` */
  function EditPatch(u: SubcategoryEdit): SubcategoryPatch {
    SubcategoryPatch(Some(u.id), Some(u.name), Some(u.color), Some(u.groupId), None, None)
  }

  /** `group.subcategories.findIndex(sub => sub.id === id)` */
  function PositionIn(g: Category, id: Id): (i: int)
    ensures -1 <= i < |g.subcategories|
    ensures i >= 0 ==> g.subcategories[i].id == id
    ensures i == -1 <==> forall k :: 0 <= k < |g.subcategories| ==> g.subcategories[k].id != id
  {
    FindIndex(g.subcategories, (s: Subcategory) => s.id == id)
  }

  /** The key a group is looked up under after `parseInt`: `String(parseInt(key))`. */
  function ParsedKey(key: string): string {
    NumberKey(ParseInt(key))
  }

  /** `+key === id` for the number `parseInt` gave and the payload's group id. */
  predicate SameNumber(n: Number, id: Id) {
    n.Int? && id.Num? && n.i == id.n
  }

  // ---------------------------------------------------------------------------
  // updateSubcategoryAction as written

  datatype Scan = Crashed | Scanned(current: Option<string>, index: int)

  /** The `forEach` over the keys seen so far: the last group holding the
      subcategory wins, and a key whose parsed group does not exist throws
      (reading `subcategories` of `undefined`). */
  function ScanAsWritten(t: Table, id: Id, keys: seq<string>): (r: Scan)
    ensures r.Scanned? && r.current.Some? ==>
      Get(t, ParsedKey(r.current.value)).Some? && 0 <= r.index < |Get(t, ParsedKey(r.current.value)).value.subcategories|
  {
    if keys == [] then Scanned(None, -1)
    else
      var acc := ScanAsWritten(t, id, keys[..|keys| - 1]);
      var key := keys[|keys| - 1];
      if acc.Crashed? then Crashed
      else match Get(t, ParsedKey(key))
        case None => Crashed
        case Some(g) =>
          var i := PositionIn(g, id);
          if i != -1 then Scanned(Some(key), i) else acc
  }

  /** `updateSubcategoryAction` as written; `None` when the reducer throws. */
  function UpdateAsWritten(t: Table, u: SubcategoryEdit): Option<Table> {
    UpdateAsWrittenAt(t, u, ScanAsWritten(t, u.id, KeyList(t)))
  }

  /** What the reducer as written does once its scan has ended. */
  function UpdateAsWrittenAt(t: Table, u: SubcategoryEdit, scan: Scan): Option<Table>
    requires scan.Scanned? && scan.current.Some? ==>
      Get(t, ParsedKey(scan.current.value)).Some? && 0 <= scan.index < |Get(t, ParsedKey(scan.current.value)).value.subcategories|
  {
    match scan
    case Crashed => None
    case Scanned(cur, i) =>
      if cur.None? then Some(t)
      else
        var key := ParsedKey(cur.value);
        var g := Get(t, key).value;
        var newKey := IdString(u.groupId);
        if !SameNumber(ParseInt(cur.value), u.groupId) then
          var t1 := Put(t, key, g.(subcategories := g.subcategories[..i] + g.subcategories[i + 1..]));
          match Get(t1, newKey)
          case None => Some(t1)
          case Some(ng) =>
            Some(Put(t1, newKey, ng.(subcategories := ng.subcategories + [MergeSubcategory(g.subcategories[i], EditPatch(u))])))
        else
          Some(Put(t, key, g.(subcategories := g.subcategories[i := MergeSubcategory(g.subcategories[i], EditPatch(u))])))
  }

  lemma {:induction false} ScanCrashes(t: Table, id: Id, keys: seq<string>, j: int)
    requires 0 <= j < |keys| && Get(t, ParsedKey(keys[j])).None?
    ensures ScanAsWritten(t, id, keys).Crashed?
  {
    var front := keys[..|keys| - 1];
    if j < |keys| - 1 {
      assert front[j] == keys[j];
      ScanCrashes(t, id, front, j);
    }
  }

  /** As written, the reducer throws whenever some key does not read back
      through `parseInt`, whatever subcategory is edited. */
  lemma UpdateAsWrittenThrows(t: Table, u: SubcategoryEdit, k: string)
    requires k in Keys(t) && Get(t, ParsedKey(k)).None?
    ensures UpdateAsWritten(t, u).None?
  {
    KeyListKeys(t);
    var keys := KeyList(t);
    var j :| 0 <= j < |keys| && keys[j] == k;
    ScanCrashes(t, u.id, keys, j);
  }

  /** A table with group 1 and a not yet synchronised group `f_g_a1`:
      editing the subcategory of group 1 throws. */
  lemma UpdateThrowsBesideTemporaryGroup()
    ensures var s := Subcategory(Num(5), "Paliwo", "00ff00", Num(1), None, "house", Str("h1"));
      var t := [Entry("1", Category([s], "Auto", "ff0000")), Entry("f_g_a1", Category([], "Nowa", "ffffff"))];
      UpdateAsWritten(t, SubcategoryEdit(Num(5), "Benzyna", "00ff00", Num(1))) == None
  {
    var s := Subcategory(Num(5), "Paliwo", "00ff00", Num(1), None, "house", Str("h1"));
    var t := [Entry("1", Category([s], "Auto", "ff0000")), Entry("f_g_a1", Category([], "Nowa", "ffffff"))];
    ParseIntNaN("f_g_a1");
    assert t[1] in t;
    assert Get(t, "NaN").None? by {
      assert "NaN" != "1" && "NaN" != "f_g_a1";
      assert forall e :: e in t ==> e.key != "NaN";
    }
    UpdateAsWrittenThrows(t, SubcategoryEdit(Num(5), "Benzyna", "00ff00", Num(1)), "f_g_a1");
  }

  // ---------------------------------------------------------------------------
  // updateSubcategoryAction as intended: each group looked up by its own key

  datatype Holder = NotFound | FoundIn(key: string, index: nat)

  /** The last group, in key order, that holds the subcategory. */
  function FindHolder(t: Table, id: Id, keys: seq<string>): (h: Holder)
    ensures h.FoundIn? ==> h.key in keys && Get(t, h.key).Some?
                           && h.index < |Get(t, h.key).value.subcategories|
                           && Get(t, h.key).value.subcategories[h.index].id == id
  {
    if keys == [] then NotFound
    else
      var acc := FindHolder(t, id, keys[..|keys| - 1]);
      var key := keys[|keys| - 1];
      match Get(t, key)
      case None => acc
      case Some(g) =>
        var i := PositionIn(g, id);
        if i != -1 then FoundIn(key, i) else acc
  }

  /** One more key for the scan. */
  lemma FindHolderSnoc(t: Table, id: Id, keys: seq<string>, key: string)
    ensures FindHolder(t, id, keys + [key]) ==
      match Get(t, key)
      case None => FindHolder(t, id, keys)
      case Some(g) => if PositionIn(g, id) != -1 then FoundIn(key, PositionIn(g, id)) else FindHolder(t, id, keys)
  {
    assert (keys + [key])[..|keys|] == keys;
  }

  /** `updateSubcategoryAction`: a group change moves the merged record to the
      end of the new group (dropping it when that group does not exist); an
      unchanged group merges the record in place. */
  function UpdateSubcategoryIn(t: Table, u: SubcategoryEdit): Table {
    UpdateAt(t, u, FindHolder(t, u.id, KeyList(t)))
  }

  /** What the reducer does once the holder is known. */
  function UpdateAt(t: Table, u: SubcategoryEdit, h: Holder): Table
    requires h.FoundIn? ==> Get(t, h.key).Some? && h.index < |Get(t, h.key).value.subcategories|
  {
    match h
    case NotFound => t
    case FoundIn(key, i) =>
      var g := Get(t, key).value;
      var newKey := IdString(u.groupId);
      if key != newKey then
        var t1 := Put(t, key, g.(subcategories := g.subcategories[..i] + g.subcategories[i + 1..]));
        match Get(t1, newKey)
        case None => t1
        case Some(ng) =>
          Put(t1, newKey, ng.(subcategories := ng.subcategories + [MergeSubcategory(g.subcategories[i], EditPatch(u))]))
      else
        Put(t, key, g.(subcategories := g.subcategories[i := MergeSubcategory(g.subcategories[i], EditPatch(u))]))
  }

  /** An edit keeps the set of groups. */
  lemma UpdateSubcategoryKeepsGroups(t: Table, u: SubcategoryEdit)
    requires KeysUnique(t)
    ensures KeysUnique(UpdateSubcategoryIn(t, u)) && Keys(UpdateSubcategoryIn(t, u)) == Keys(t)
    ensures FindHolder(t, u.id, KeyList(t)).NotFound? ==> UpdateSubcategoryIn(t, u) == t
  {
    UpdateAtKeepsGroups(t, u, FindHolder(t, u.id, KeyList(t)));
  }

  lemma UpdateAtKeepsGroups(t: Table, u: SubcategoryEdit, h: Holder)
    requires KeysUnique(t)
    requires h.FoundIn? ==> Get(t, h.key).Some? && h.index < |Get(t, h.key).value.subcategories|
    ensures KeysUnique(UpdateAt(t, u, h)) && Keys(UpdateAt(t, u, h)) == Keys(t)
  {
    if h.FoundIn? {
      var key, i := h.key, h.index;
      var g := Get(t, key).value;
      var newKey := IdString(u.groupId);
      if key != newKey {
        var g1 := g.(subcategories := g.subcategories[..i] + g.subcategories[i + 1..]);
        var t1 := Put(t, key, g1);
        GetPut(t, key, g1, newKey);
        if Get(t1, newKey).Some? {
          var ng := Get(t1, newKey).value;
          GetPut(t1, newKey, ng.(subcategories := ng.subcategories + [MergeSubcategory(g.subcategories[i], EditPatch(u))]), key);
        }
      } else {
        GetPut(t, key, g.(subcategories := g.subcategories[i := MergeSubcategory(g.subcategories[i], EditPatch(u))]), key);
      }
    }
  }

  /** A group change takes the record out of its group and appends the merged
      record to the new group, or drops it when the new group does not exist. */
  lemma UpdateSubcategoryMoves(t: Table, u: SubcategoryEdit, key: string, i: nat)
    requires KeysUnique(t)
    requires FindHolder(t, u.id, KeyList(t)) == FoundIn(key, i)
    requires key != IdString(u.groupId)
    ensures var r := UpdateSubcategoryIn(t, u);
      var subs := Get(t, key).value.subcategories;
      var newKey := IdString(u.groupId);
      Get(r, key).Some? && Get(r, key).value.subcategories == subs[..i] + subs[i + 1..]
      && (Get(t, newKey).None? ==> Get(r, newKey).None?)
      && (Get(t, newKey).Some? ==>
            Get(r, newKey).Some? && Get(r, newKey).value.subcategories ==
              Get(t, newKey).value.subcategories + [MergeSubcategory(subs[i], EditPatch(u))])
  {
    var g := Get(t, key).value;
    var newKey := IdString(u.groupId);
    var g1 := g.(subcategories := g.subcategories[..i] + g.subcategories[i + 1..]);
    var t1 := Put(t, key, g1);
    GetPut(t, key, g1, newKey);
    if Get(t1, newKey).Some? {
      var ng := Get(t1, newKey).value;
      GetPut(t1, newKey, ng.(subcategories := ng.subcategories + [MergeSubcategory(g.subcategories[i], EditPatch(u))]), key);
    }
  }

  /** Without a group change the merged record takes the old one's place. */
  lemma UpdateSubcategoryMergesInPlace(t: Table, u: SubcategoryEdit, key: string, i: nat)
    requires KeysUnique(t)
    requires FindHolder(t, u.id, KeyList(t)) == FoundIn(key, i)
    requires key == IdString(u.groupId)
    ensures var subs := Get(t, key).value.subcategories;
      Get(UpdateSubcategoryIn(t, u), key).Some?
      && Get(UpdateSubcategoryIn(t, u), key).value.subcategories == subs[i := MergeSubcategory(subs[i], EditPatch(u))]
  {
    var g := Get(t, key).value;
    GetPut(t, key, g.(subcategories := g.subcategories[i := MergeSubcategory(g.subcategories[i], EditPatch(u))]), key);
  }

  /** `parseInt` reads a numeric key back as the group number exactly when the
      key is that number's `toString`. */
  lemma SameNumberIffSameKey(k: string, n: int)
    requires IsCanonicalNumeral(k)
    ensures SameNumber(ParseInt(k), Num(n)) <==> k == IdString(Num(n))
  {
    ParseIntCanonical(k);
    SignShowsInFirstChar(n);
    if n >= 0 {
      NatToStringRoundTrip(n);
      CanonicalIsToString(k);
    } else if k == IntToString(n) {
      assert false;
    }
  }

  lemma ParsedKeyCanonical(k: string)
    requires IsCanonicalNumeral(k)
    ensures ParsedKey(k) == k
  {
    ParseIntCanonical(k);
  }

  lemma {:induction false} ScanAgrees(t: Table, id: Id, keys: seq<string>)
    requires forall k :: k in keys ==> IsCanonicalNumeral(k) && k in Keys(t)
    ensures var h := FindHolder(t, id, keys);
      ScanAsWritten(t, id, keys) == if h.NotFound? then Scanned(None, -1) else Scanned(Some(h.key), h.index)
  {
    if keys != [] {
      var front := keys[..|keys| - 1];
      var key := keys[|keys| - 1];
      assert forall k :: k in front ==> k in keys;
      ScanAgrees(t, id, front);
      ParsedKeyCanonical(key);
    }
  }

  /** Once the scans agree on the holder and its key reads back as itself,
      the two reducers make the same change. */
  lemma UpdateAgreesOnHolder(t: Table, u: SubcategoryEdit, key: string, i: nat)
    requires Get(t, key).Some? && i < |Get(t, key).value.subcategories|
    requires ParsedKey(key) == key
    requires SameNumber(ParseInt(key), u.groupId) <==> key == IdString(u.groupId)
    ensures UpdateAsWrittenAt(t, u, Scanned(Some(key), i)) == Some(UpdateAt(t, u, FoundIn(key, i)))
  {
  }

  /** On a table whose keys are all numeric and an edit naming a numeric
      group, the reducer as written does what is intended. */
  lemma UpdateAgreesOnNumericKeys(t: Table, u: SubcategoryEdit)
    requires forall k :: k in Keys(t) ==> IsCanonicalNumeral(k)
    requires u.groupId.Num?
    ensures UpdateAsWritten(t, u) == Some(UpdateSubcategoryIn(t, u))
  {
    KeyListKeys(t);
    ScanAgrees(t, u.id, KeyList(t));
    var h := FindHolder(t, u.id, KeyList(t));
    if h.FoundIn? {
      assert h.key in Keys(t);
      ParsedKeyCanonical(h.key);
      SameNumberIffSameKey(h.key, u.groupId.n);
      UpdateAgreesOnHolder(t, u, h.key, h.index);
    }
  }

  // ---------------------------------------------------------------------------
  // deleteSubcategoryAction

  /** `s.id.toString() !== id.toString()` */
  function OtherId(id: Id): Subcategory -> bool {
    (s: Subcategory) => IdString(s.id) != IdString(id)
  }

  /** The group without the subcategories whose id string is `id`'s. */
  function Pruned(g: Category, id: Id): Category {
    g.(subcategories := Filter(g.subcategories, OtherId(id)))
  }

  /** Pruning keeps exactly the subcategories with another id string. */
  lemma PrunedMembers(g: Category, id: Id)
    ensures forall s :: s in Pruned(g, id).subcategories <==> s in g.subcategories && IdString(s.id) != IdString(id)
  {
    FilterMembers(g.subcategories, OtherId(id));
  }

  /** As written: the group of each key is looked up as `categories[parseInt(key)]`
      and skipped when that does not exist. */
  function DeleteAsWritten(t: Table, id: Id, keys: seq<string>): Table {
    if keys == [] then t
    else
      var acc := DeleteAsWritten(t, id, keys[..|keys| - 1]);
      var key := ParsedKey(keys[|keys| - 1]);
      match Get(acc, key)
      case None => acc
      case Some(g) => Put(acc, key, Pruned(g, id))
  }

  /** A subcategory added to a group that is not yet synchronised survives its deletion. */
  lemma DeleteAsWrittenSkipsTemporaryGroup()
    ensures var s := Subcategory(Str("f_x1"), "Kino", "ffffff", Str("f_g_a1"), None, "house", Str("h1"));
      var t := [Entry("f_g_a1", Category([s], "Nowa", "ffffff"))];
      DeleteAsWritten(t, Str("f_x1"), KeyList(t)) == t
  {
    var s := Subcategory(Str("f_x1"), "Kino", "ffffff", Str("f_g_a1"), None, "house", Str("h1"));
    var t := [Entry("f_g_a1", Category([s], "Nowa", "ffffff"))];
    KeyListKeys(t);
    var keys := KeyList(t);
    assert t[0] in t;
    assert keys == ["f_g_a1"];
    ParseIntNaN("f_g_a1");
    assert keys[..0] == [];
    assert Get(t, "NaN").None?;
  }

  /** As intended: each group is looked up by its own key. */
  function DeleteFrom(t: Table, id: Id, keys: seq<string>): Table {
    if keys == [] then t
    else
      var acc := DeleteFrom(t, id, keys[..|keys| - 1]);
      var key := keys[|keys| - 1];
      match Get(acc, key)
      case None => acc
      case Some(g) => Put(acc, key, Pruned(g, id))
  }

  /** One more key for the deletion. */
  lemma DeleteFromSnoc(t: Table, id: Id, keys: seq<string>, key: string)
    ensures DeleteFrom(t, id, keys + [key]) ==
      var acc := DeleteFrom(t, id, keys);
      match Get(acc, key)
      case None => acc
      case Some(g) => Put(acc, key, Pruned(g, id))
  {
    assert (keys + [key])[..|keys|] == keys;
  }

  lemma PrunedTwice(g: Category, id: Id)
    ensures Pruned(Pruned(g, id), id) == Pruned(g, id)
  {
    FilterIdempotent(g.subcategories, OtherId(id));
  }

  lemma {:induction false} FilterIdempotent(s: seq<Subcategory>, p: Subcategory -> bool)
    ensures Filter(Filter(s, p), p) == Filter(s, p)
  {
    if s != [] {
      FilterIdempotent(s[1..], p);
      if p(s[0]) {
        var f := Filter(s, p);
        assert f == [s[0]] + Filter(s[1..], p);
        assert f[0] == s[0] && f[1..] == Filter(s[1..], p);
        assert Filter(f, p) == [f[0]] + Filter(f[1..], p);
      } else {
        assert Filter(s, p) == Filter(s[1..], p);
      }
    }
  }

  /** Every group whose key was visited loses the deleted subcategory and nothing else. */
  lemma {:induction false} DeleteFromEffect(t: Table, id: Id, keys: seq<string>)
    requires KeysUnique(t)
    ensures KeysUnique(DeleteFrom(t, id, keys)) && Keys(DeleteFrom(t, id, keys)) == Keys(t)
    ensures forall k ::
      Get(DeleteFrom(t, id, keys), k) == (if k in keys && Get(t, k).Some? then Some(Pruned(Get(t, k).value, id)) else Get(t, k))
  {
    if keys != [] {
      var front := keys[..|keys| - 1];
      var key := keys[|keys| - 1];
      DeleteFromEffect(t, id, front);
      var acc := DeleteFrom(t, id, front);
      assert forall k :: k in keys <==> k in front || k == key;
      if Get(acc, key).Some? {
        var g := Get(acc, key).value;
        forall k ensures Get(Put(acc, key, Pruned(g, id)), k) ==
          if k in keys && Get(t, k).Some? then Some(Pruned(Get(t, k).value, id)) else Get(t, k)
        {
          GetPut(acc, key, Pruned(g, id), k);
          if k == key && key in front {
            PrunedTwice(Get(t, k).value, id);
          }
        }
        GetPut(acc, key, Pruned(g, id), key);
      }
    }
  }

  /** `deleteSubcategoryAction` as intended. */
  function DeleteSubcategoryIn(t: Table, id: Id): Table {
    DeleteFrom(t, id, KeyList(t))
  }

  /** After the deletion no group holds a subcategory with that id string,
      and every other subcategory stays in its group. */
  lemma DeleteSubcategoryEffect(t: Table, id: Id)
    requires KeysUnique(t)
    ensures var r := DeleteSubcategoryIn(t, id);
      KeysUnique(r) && Keys(r) == Keys(t)
      && forall k :: k in Keys(t) ==> Get(r, k) == Some(Pruned(Get(t, k).value, id))
  {
    KeyListKeys(t);
    DeleteFromEffect(t, id, KeyList(t));
  }
}
