/** The nested model an API context builds (src/api/APIContext.py) and the
    views derived from it: the flat field list, the types view, the unpacked
    row and the SQL text. Python dicts become insertion-ordered item lists. */
module Model {
  import opened Text
  import opened Schema

  /** A model entry: a field without relation, or a foreign-key field followed
      by the branch of the table it refers to (the `<fq_name>_branch` dict). */
  datatype Entry = Leaf(field: Field) | Rel(field: Field, branch: seq<Entry>)

  /** The display names of the entries of one model level, in order. */
  function Names(m: seq<Entry>): (r: seq<string>)
    ensures |r| == |m| && forall i :: 0 <= i < |m| ==> r[i] == m[i].field.apiName
  {
    seq(|m|, i requires 0 <= i < |m| => m[i].field.apiName)
  }

  /** Every entry carries a SQL name, at every depth. */
  predicate SqlNamed(m: seq<Entry>)
  {
    forall i :: 0 <= i < |m| ==> m[i].field.sqlName.Some? && (m[i].Rel? ==> SqlNamed(m[i].branch))
  }

  /** An entry is a leaf exactly when its field has no relation, at every depth. */
  predicate LeafIffNoRelation(m: seq<Entry>)
  {
    forall i :: 0 <= i < |m| ==> (m[i].Leaf? <==> m[i].field.relation.None?) && (m[i].Rel? ==> LeafIffNoRelation(m[i].branch))
  }

  /** The display names of one level are pairwise distinct, at every depth. */
  predicate DistinctKeys(m: seq<Entry>)
  {
    && (forall i, j :: 0 <= i < j < |m| ==> m[i].field.apiName != m[j].field.apiName)
    && forall i :: 0 <= i < |m| ==> m[i].Rel? ==> DistinctKeys(m[i].branch)
  }

  // ---------------------------------------------------------------- flat_fields

  /** The fields of the model in preorder, leaves only: a foreign-key field is
      replaced by the flattening of its branch. */
  function Flatten(m: seq<Entry>): seq<Field>
    decreases m
  {
    if |m| == 0 then [] else Flatten(m[..|m| - 1]) + FlatOne(m[|m| - 1])
  }

  function FlatOne(e: Entry): seq<Field>
    decreases e
  {
    match e case Leaf(f) => [f] case Rel(_, b) => Flatten(b)
  }

  lemma FlattenSnoc(m: seq<Entry>, e: Entry)
    ensures Flatten(m + [e]) == Flatten(m) + FlatOne(e)
  {
    assert (m + [e])[..|m|] == m;
  }

  lemma {:induction false} FlattenConcat(a: seq<Entry>, b: seq<Entry>)
    ensures Flatten(a + b) == Flatten(a) + Flatten(b)
    decreases |b|
  {
    if |b| > 0 {
      var n := |b| - 1;
      assert a + b == (a + b[..n]) + [b[n]];
      assert b == b[..n] + [b[n]];
      FlattenConcat(a, b[..n]);
      FlattenSnoc(a + b[..n], b[n]);
      FlattenSnoc(b[..n], b[n]);
      calc {
        Flatten(a + b);
        Flatten((a + b[..n]) + [b[n]]);
        Flatten(a + b[..n]) + FlatOne(b[n]);
        Flatten(a) + Flatten(b[..n]) + FlatOne(b[n]);
        Flatten(a) + (Flatten(b[..n]) + FlatOne(b[n]));
        Flatten(a) + Flatten(b[..n] + [b[n]]);
      }
    } else {
      assert a + b == a;
    }
  }

  /** Only fields without relation are flattened, and all carry SQL names when
      the model does. */
  lemma {:induction false} FlattenFields(m: seq<Entry>)
    requires LeafIffNoRelation(m)
    ensures forall k :: 0 <= k < |Flatten(m)| ==> Flatten(m)[k].relation.None?
    ensures SqlNamed(m) ==> SqlNamedFields(Flatten(m))
  {
    if |m| > 0 {
      var n := |m| - 1;
      FlattenFields(m[..n]);
      if m[n].Rel? {
        FlattenFields(m[n].branch);
      }
      var pre: seq<Field>, tail: seq<Field> := Flatten(m[..n]), FlatOne(m[n]);
      assert SqlNamed(m) ==> SqlNamed(m[..n]) by {
        if SqlNamed(m) {
          forall i | 0 <= i < n
            ensures m[..n][i].field.sqlName.Some? && (m[..n][i].Rel? ==> SqlNamed(m[..n][i].branch))
          {
            assert m[..n][i] == m[i];
          }
        }
      }
      assert Flatten(m) == pre + tail;
      forall k | 0 <= k < |pre| + |tail|
        ensures (pre + tail)[k].relation.None?
        ensures SqlNamed(m) ==> (pre + tail)[k].sqlName.Some?
      {
        if k >= |pre| {
          assert (pre + tail)[k] == tail[k - |pre|];
          if m[n].Rel? {
            assert tail == Flatten(m[n].branch);
          } else {
            assert tail == [m[n].field];
          }
        }
      }
    }
  }

  // ---------------------------------------------------------------- dict views

  /** A value built from Python dicts: a leaf value, or a dict of items. */
  datatype Nested<T> = Value(value: T) | Obj(items: seq<Item<T>>)
  datatype Item<T> = Item(key: string, val: Nested<T>)

  function Keys<T>(items: seq<Item<T>>): (r: seq<string>)
    ensures |r| == |items| && forall i :: 0 <= i < |items| ==> r[i] == items[i].key
  {
    seq(|items|, i requires 0 <= i < |items| => items[i].key)
  }

  /** `d[key] = v`: an existing key keeps its place and takes the new value,
      a new key is appended. */
  function Put<T>(items: seq<Item<T>>, key: string, v: Nested<T>): (r: seq<Item<T>>)
    ensures key !in Keys(items) ==> r == items + [Item(key, v)]
    ensures key in Keys(items) ==> Keys(r) == Keys(items)
    ensures key in Keys(items) ==> r[IndexOf(Keys(items), key)] == Item(key, v)
    ensures key in Keys(items) ==> forall i :: 0 <= i < |items| && i != IndexOf(Keys(items), key) ==> r[i] == items[i]
  {
    if key in Keys(items) then
      var i := IndexOf(Keys(items), key);
      items[..i] + [Item(key, v)] + items[i + 1..]
    else items + [Item(key, v)]
  }

  /** types_view / __types_rec: each display name maps to the field type, or
      for a foreign key to the types view of its branch. */
  function TypesOf(m: seq<Entry>): seq<Item<string>>
    decreases m
  {
    if |m| == 0 then [] else Put(TypesOf(m[..|m| - 1]), m[|m| - 1].field.apiName, TypeOf(m[|m| - 1]))
  }

  function TypeOf(e: Entry): Nested<string>
    decreases e
  {
    match e case Leaf(f) => Value(f.typ) case Rel(_, b) => Obj(TypesOf(b))
  }

  /** The leaves of a nested value in order, each with its key. */
  function Leaves<T>(items: seq<Item<T>>): seq<(string, T)>
    decreases items
  {
    if |items| == 0 then [] else Leaves(items[..|items| - 1]) + LeavesOf(items[|items| - 1])
  }

  function LeavesOf<T>(it: Item<T>): seq<(string, T)>
    decreases it
  {
    match it.val case Value(x) => [(it.key, x)] case Obj(xs) => Leaves(xs)
  }

  lemma LeavesSnoc<T>(items: seq<Item<T>>, it: Item<T>)
    ensures Leaves(items + [it]) == Leaves(items) + LeavesOf(it)
  {
    assert (items + [it])[..|items|] == items;
  }

  /** The leaves a flat field list stands for: display name and type. */
  function Typed(fs: seq<Field>): (r: seq<(string, string)>)
    ensures |r| == |fs| && forall k :: 0 <= k < |fs| ==> r[k] == (fs[k].apiName, fs[k].typ)
  {
    seq(|fs|, k requires 0 <= k < |fs| => (fs[k].apiName, fs[k].typ))
  }

  lemma TypedConcat(a: seq<Field>, b: seq<Field>)
    ensures Typed(a + b) == Typed(a) + Typed(b)
  {
  }

  /** A prefix of a level with distinct names has distinct names. */
  lemma DistinctKeysPrefix(m: seq<Entry>, n: nat)
    requires DistinctKeys(m) && n <= |m|
    ensures DistinctKeys(m[..n])
  {
    forall i | 0 <= i < n && m[..n][i].Rel?
      ensures DistinctKeys(m[..n][i].branch)
    {
      assert m[..n][i] == m[i];
    }
  }

  /** With distinct display names at each level, the types view has one key
      per entry, in model order: every assignment appends. */
  lemma {:induction false} TypesKeys(m: seq<Entry>)
    requires DistinctKeys(m)
    ensures Keys(TypesOf(m)) == Names(m)
    ensures |m| > 0 ==> TypesOf(m) == TypesOf(m[..|m| - 1]) + [Item(m[|m| - 1].field.apiName, TypeOf(m[|m| - 1]))]
  {
    if |m| > 0 {
      var n := |m| - 1;
      var e := m[n];
      DistinctKeysPrefix(m, n);
      TypesKeys(m[..n]);
      var pre := TypesOf(m[..n]);
      forall i | 0 <= i < n
        ensures Keys(pre)[i] != e.field.apiName
      {
        assert Keys(pre)[i] == m[i].field.apiName;
      }
      assert Names(m) == Names(m[..n]) + [e.field.apiName];
    }
  }

  /** ... and the leaves of the types view are the flat fields, in order. */
  lemma {:induction false} TypesLeaves(m: seq<Entry>)
    requires DistinctKeys(m)
    ensures Leaves(TypesOf(m)) == Typed(Flatten(m))
  {
    if |m| > 0 {
      var n := |m| - 1;
      var e := m[n];
      DistinctKeysPrefix(m, n);
      TypesLeaves(m[..n]);
      TypesKeys(m);
      LeavesSnoc(TypesOf(m[..n]), Item(e.field.apiName, TypeOf(e)));
      if e.Rel? {
        TypesLeaves(e.branch);
      }
      assert LeavesOf(Item(e.field.apiName, TypeOf(e))) == Typed(FlatOne(e));
      TypedConcat(Flatten(m[..n]), FlatOne(e));
    }
  }

  // ---------------------------------------------------------------- unpack_single

  /** The position of the last field with display name `key`, or -1. */
  function LastIndex(fs: seq<Field>, key: string): (r: int)
    ensures -1 <= r < |fs|
    ensures r >= 0 ==> fs[r].apiName == key && forall j :: r < j < |fs| ==> fs[j].apiName != key
    ensures r == -1 <==> forall j :: 0 <= j < |fs| ==> fs[j].apiName != key
  {
    if |fs| == 0 then -1
    else if fs[|fs| - 1].apiName == key then |fs| - 1
    else LastIndex(fs[..|fs| - 1], key)
  }

  /** `values[ind]` with Python indexing for -1; None is the IndexError. */
  function Pick<V>(values: seq<V>, ind: int): (r: Option<V>)
    ensures r.Some? <==> (0 <= ind < |values| || (ind == -1 && |values| > 0))
    ensures 0 <= ind < |values| ==> r == Some(values[ind])
  {
    if ind == -1 then (if |values| > 0 then Some(values[|values| - 1]) else None)
    else if 0 <= ind < |values| then Some(values[ind])
    else None
  }

  /** unpack_single / __unpack_single_rec: every leaf of the types view is
      replaced by the row value at the position of the last flat field with
      its key; None when that position is out of the row. */
  function Unpack<V>(items: seq<Item<string>>, fs: seq<Field>, values: seq<V>): Option<seq<Item<V>>>
    decreases items
  {
    if |items| == 0 then Some([])
    else
      var pre := Unpack(items[..|items| - 1], fs, values);
      var last := UnpackItem(items[|items| - 1], fs, values);
      if pre.Some? && last.Some? then Some(pre.value + [last.value]) else None
  }

  function UnpackItem<V>(it: Item<string>, fs: seq<Field>, values: seq<V>): Option<Item<V>>
    decreases it
  {
    match it.val
    case Value(_) =>
      var v := Pick(values, LastIndex(fs, it.key));
      if v.Some? then Some(Item(it.key, Value(v.value))) else None
    case Obj(xs) =>
      var r := Unpack(xs, fs, values);
      if r.Some? then Some(Item(it.key, Obj(r.value))) else None
  }

  /** Unpacking stops at the first leaf that finds no row value. */
  lemma {:induction false} UnpackNonePrefix<V>(items: seq<Item<string>>, n: nat, fs: seq<Field>, values: seq<V>)
    requires n <= |items| && Unpack(items[..n], fs, values).None?
    ensures Unpack(items, fs, values).None?
    decreases |items|
  {
    if n < |items| {
      var k := |items| - 1;
      assert items[..k][..n] == items[..n];
      UnpackNonePrefix(items[..k], n, fs, values);
    } else {
      assert items[..n] == items;
    }
  }

  /** The leaves an unpacking is meant to produce: each key of `ls` with the
      row value of the last field of that name. */
  ghost predicate PicksFor<V>(ls: seq<(string, string)>, fs: seq<Field>, values: seq<V>, r: seq<(string, V)>)
  {
    |r| == |ls| && forall k :: 0 <= k < |ls| ==> r[k].0 == ls[k].0 && Pick(values, LastIndex(fs, ls[k].0)) == Some(r[k].1)
  }

  /** Every leaf of `ls` finds its row value. */
  ghost predicate AllPicked<V>(ls: seq<(string, string)>, fs: seq<Field>, values: seq<V>)
  {
    forall k :: 0 <= k < |ls| ==> Pick(values, LastIndex(fs, ls[k].0)).Some?
  }

  lemma PicksForConcat<V>(a: seq<(string, string)>, b: seq<(string, string)>, fs: seq<Field>, values: seq<V>,
                          ra: seq<(string, V)>, rb: seq<(string, V)>)
    requires PicksFor(a, fs, values, ra) && PicksFor(b, fs, values, rb)
    ensures PicksFor(a + b, fs, values, ra + rb)
  {
    forall k | 0 <= k < |a| + |b|
      ensures (a + b)[k] == if k < |a| then a[k] else b[k - |a|]
      ensures (ra + rb)[k] == if k < |a| then ra[k] else rb[k - |a|]
    {
    }
  }

  lemma AllPickedConcat<V>(a: seq<(string, string)>, b: seq<(string, string)>, fs: seq<Field>, values: seq<V>)
    ensures AllPicked(a + b, fs, values) <==> AllPicked(a, fs, values) && AllPicked(b, fs, values)
  {
    if AllPicked(a + b, fs, values) {
      forall k | 0 <= k < |b|
        ensures Pick(values, LastIndex(fs, b[k].0)).Some?
      {
        assert (a + b)[|a| + k] == b[k];
      }
      forall k | 0 <= k < |a|
        ensures Pick(values, LastIndex(fs, a[k].0)).Some?
      {
        assert (a + b)[k] == a[k];
      }
    }
    if AllPicked(a, fs, values) && AllPicked(b, fs, values) {
      forall k | 0 <= k < |a + b|
        ensures Pick(values, LastIndex(fs, (a + b)[k].0)).Some?
      {
        if k >= |a| {
          assert (a + b)[k] == b[k - |a|];
        }
      }
    }
  }

  /** Unpacking succeeds exactly when every leaf finds its row value, and
      then its leaves are those values under the same keys, in order. */
  lemma {:induction false} UnpackLeaves<V>(items: seq<Item<string>>, fs: seq<Field>, values: seq<V>)
    ensures Unpack(items, fs, values).Some? <==> AllPicked(Leaves(items), fs, values)
    ensures Unpack(items, fs, values).Some? ==> PicksFor(Leaves(items), fs, values, Leaves(Unpack(items, fs, values).value))
    decreases items
  {
    if |items| > 0 {
      var n := |items| - 1;
      UnpackLeaves(items[..n], fs, values);
      UnpackItemLeaves(items[n], fs, values);
      AllPickedConcat(Leaves(items[..n]), LeavesOf(items[n]), fs, values);
      if Unpack(items, fs, values).Some? {
        var pre := Unpack(items[..n], fs, values).value;
        var last := UnpackItem(items[n], fs, values).value;
        LeavesSnoc(pre, last);
        PicksForConcat(Leaves(items[..n]), LeavesOf(items[n]), fs, values, Leaves(pre), LeavesOf(last));
      }
    }
  }

  lemma {:induction false} UnpackItemLeaves<V>(it: Item<string>, fs: seq<Field>, values: seq<V>)
    ensures UnpackItem(it, fs, values).Some? <==> AllPicked(LeavesOf(it), fs, values)
    ensures UnpackItem(it, fs, values).Some? ==>
      PicksFor(LeavesOf(it), fs, values, LeavesOf(UnpackItem(it, fs, values).value))
    decreases it
  {
    if it.val.Obj? {
      UnpackLeaves(it.val.items, fs, values);
    } else {
      assert LeavesOf(it) == [(it.key, it.val.value)];
      assert AllPicked(LeavesOf(it), fs, values) <==> Pick(values, LastIndex(fs, it.key)).Some? by {
        assert LeavesOf(it)[0].0 == it.key;
      }
    }
  }

  /** With distinct display names throughout, the last field of a name is the
      only one. */
  lemma LastIndexDistinct(fs: seq<Field>, k: nat)
    requires k < |fs| && forall i, j :: 0 <= i < j < |fs| ==> fs[i].apiName != fs[j].apiName
    ensures LastIndex(fs, fs[k].apiName) == k
  {
  }

  /** Preorder flattening matches unpacking: when display names are distinct
      and the row has one value per flat field, unpacking the row over the
      types view puts the i-th value under the i-th flat field's name, in
      the same order. */
  lemma UnpackRoundTrip<V>(m: seq<Entry>, values: seq<V>)
    requires DistinctKeys(m)
    requires forall i, j :: 0 <= i < j < |Flatten(m)| ==> Flatten(m)[i].apiName != Flatten(m)[j].apiName
    requires |values| == |Flatten(m)|
    ensures Unpack(TypesOf(m), Flatten(m), values).Some?
    ensures var r := Leaves(Unpack(TypesOf(m), Flatten(m), values).value);
      |r| == |values| && forall k :: 0 <= k < |values| ==> r[k] == (Flatten(m)[k].apiName, values[k])
  {
    var fs := Flatten(m);
    TypesLeaves(m);
    forall k | 0 <= k < |fs|
      ensures LastIndex(fs, fs[k].apiName) == k
    {
      LastIndexDistinct(fs, k);
    }
    UnpackLeaves(TypesOf(m), fs, values);
  }

  // ---------------------------------------------------------------- get_sql_parts

  /** `s[:-k]`: Python drops the last k characters, or all of a shorter string. */
  function Chop(s: string, k: nat): (r: string)
    ensures |s| >= k ==> r == s[..|s| - k]
    ensures |s| < k ==> r == ""
  {
    if |s| >= k then s[..|s| - k] else ""
  }

  /** Every field of the list has a SQL name. */
  predicate SqlNamedFields(fs: seq<Field>)
  {
    forall k :: 0 <= k < |fs| ==> fs[k].sqlName.Some?
  }

  /** The SQL names of fields that all have one. */
  function Columns(fs: seq<Field>): (r: seq<string>)
    requires SqlNamedFields(fs)
    ensures |r| == |fs| && forall k :: 0 <= k < |fs| ==> r[k] == fs[k].sqlName.value
  {
    seq(|fs|, k requires 0 <= k < |fs| => fs[k].sqlName.value)
  }

  /** The SQL frame get_sql_parts builds from the flat SQL names, the
      `fq_name AS alias` items of the tables and the join clauses. */
  function SqlText(columns: seq<string>, froms: seq<string>, joins: seq<string>): string
  {
    var select := Chop("SELECT \n\t" + Terminated(columns, ", "), 2);
    var from := Chop(select + " \nFROM\n\t" + Terminated(froms, ", "), 2);
    var wh := from + " \nWHERE\n\t" + Terminated(joins, " AND ");
    if |joins| > 0 then Chop(wh, 4) else wh
  }

  /** The trailing-separator trimming of get_sql_parts is a join: with at
      least one column and one table, the text lists the columns and tables
      separated by ", ", an always-present WHERE header, then the joins
      separated by " AND " and followed by one space. */
  lemma SqlTextJoined(columns: seq<string>, froms: seq<string>, joins: seq<string>)
    requires |columns| > 0 && |froms| > 0
    ensures SqlText(columns, froms, joins)
         == "SELECT \n\t" + JoinSep(columns, ", ") + " \nFROM\n\t" + JoinSep(froms, ", ") + " \nWHERE\n\t"
            + (if |joins| > 0 then JoinSep(joins, " AND ") + " " else "")
  {
    TerminatedIsJoinPlusSep(columns, ", ");
    var select := "SELECT \n\t" + JoinSep(columns, ", ");
    assert Chop("SELECT \n\t" + Terminated(columns, ", "), 2) == select by {
      assert "SELECT \n\t" + Terminated(columns, ", ") == select + ", ";
    }
    TerminatedIsJoinPlusSep(froms, ", ");
    var from := select + " \nFROM\n\t" + JoinSep(froms, ", ");
    assert Chop(select + " \nFROM\n\t" + Terminated(froms, ", "), 2) == from by {
      assert select + " \nFROM\n\t" + Terminated(froms, ", ") == from + ", ";
    }
    if |joins| > 0 {
      TerminatedIsJoinPlusSep(joins, " AND ");
      var wh := from + " \nWHERE\n\t" + JoinSep(joins, " AND ");
      assert from + " \nWHERE\n\t" + Terminated(joins, " AND ") == wh + " " + "AND ";
    }
  }

  /** With no column the SELECT header loses its own "\n\t". */
  lemma SqlTextNoColumns(froms: seq<string>, joins: seq<string>)
    ensures SqlText([], froms, joins)[..7] == "SELECT "
    ensures |froms| > 0 ==> SqlText([], froms, joins)[..15] == "SELECT  \nFROM\n\t"
  {
  }
}
