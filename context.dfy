/** The API context compiler (src/api/APIContext.py): from a root table it
    walks foreign-key relations depth first, clones every table it reaches,
    numbers the clones t1, t2, ... in discovery order, records one join per
    relation and builds the nested model of field clones. */
module Context {
  import opened Text
  import opened Schema
  import opened Model

  /** API_REL_CHAR: separates the steps of a relation path in display names. */
  const RelChar: char := '_'

  /** The SQL alias of the k-th table of a context (counting from 1). */
  function Alias(k: nat): string
  {
    "t" + NatToString(k)
  }

  /** Aliases are never reused: different positions get different aliases. */
  lemma AliasInjective(a: nat, b: nat)
    requires Alias(a) == Alias(b)
    ensures a == b
  {
    assert Alias(a)[1..] == NatToString(a);
    assert Alias(b)[1..] == NatToString(b);
    NatToStringInjective(a, b);
  }

  /** A join clause `<owner alias>.<column> = <target alias>.<refColumn>`. */
  datatype Join = Join(owner: nat, column: string, target: nat, refColumn: string)

  function JoinText(j: Join): string
  {
    Alias(j.owner) + "." + j.column + " = " + Alias(j.target) + "." + j.refColumn
  }

  function Render(js: seq<Join>): (r: seq<string>)
    ensures |r| == |js| && forall k :: 0 <= k < |js| ==> r[k] == JoinText(js[k])
  {
    seq(|js|, k requires 0 <= k < |js| => JoinText(js[k]))
  }

  /** Every relation of `fs` leads to a ranked table of rank below `bound`. */
  ghost predicate RelBelow(fs: seq<Field>, rank: map<DatabaseTable, nat>, bound: nat)
  {
    forall i :: 0 <= i < |fs| && fs[i].relation.Some? ==>
      fs[i].relation.value.parent in rank && rank[fs[i].relation.value.parent] < bound
  }

  /** The relation graph of the snapshot is acyclic: each relation leads to a
      table of lower rank. */
  ghost predicate Ranked(rank: map<DatabaseTable, nat>)
  {
    forall t {:trigger RelBelow(t.children.items, rank, rank[t])} :: t in rank ==> RelBelow(t.children.items, rank, rank[t])
  }

  /** The display name of a mounted field: a root field keeps its clone's fresh
      api name (its column name), a branch field gets the path prefix. */
  function Display(prefix: Option<string>, f: Field): string
  {
    if prefix.None? then f.name else prefix.value + f.name
  }

  /** The prefix handed to the branch of `f`: the triggering field's api name
      (for a root field, the original field's api name) and API_REL_CHAR. */
  function BranchPrefix(prefix: Option<string>, f: Field): string
  {
    (if prefix.None? then f.apiName else Display(prefix, f)) + [RelChar]
  }

  /** The clone of `f` placed in the model of the table with alias number `owner`. */
  function Mounted(f: Field, owner: nat, prefix: Option<string>): (m: Field)
    ensures m.sqlName == Some(Alias(owner) + "." + f.name)
    ensures m.apiName == Display(prefix, f)
    ensures m.name == f.name && m.relation == f.relation && m.typ == f.typ && m.key == f.key
  {
    Clone(f).(sqlName := Some(Alias(owner) + "." + f.name), apiName := Display(prefix, f))
  }

  /** What expanding a list of fields produces: the model entries, the tables
      reached (in discovery order) and the joins (in the same order). */
  datatype Expansion = Expansion(entries: seq<Entry>, targets: seq<DatabaseTable>, joins: seq<Join>)

  /** The expansion of the fields `fs` of the table with alias number `owner`,
      when the next table reached gets alias number `next`: the reference
      definition of gen_model / branch_rel. */
  ghost function Expand(fs: seq<Field>, owner: nat, prefix: Option<string>, next: nat,
                        rank: map<DatabaseTable, nat>, bound: nat): (e: Expansion)
    requires Ranked(rank) && RelBelow(fs, rank, bound)
    ensures |e.entries| == |fs| && |e.joins| == |e.targets|
    decreases bound, |fs|
  {
    if |fs| == 0 then Expansion([], [], [])
    else Step(Expand(fs[..|fs| - 1], owner, prefix, next, rank, bound), fs[|fs| - 1], owner, prefix, next, rank, bound)
  }

  /** Mounting one more field `f` after the expansion `pre`. */
  ghost function Step(pre: Expansion, f: Field, owner: nat, prefix: Option<string>, next: nat,
                      rank: map<DatabaseTable, nat>, bound: nat): (e: Expansion)
    requires Ranked(rank) && (f.relation.Some? ==> f.relation.value.parent in rank && rank[f.relation.value.parent] < bound)
    requires |pre.joins| == |pre.targets|
    ensures |e.entries| == |pre.entries| + 1 && |e.joins| == |e.targets|
    decreases bound, 0
  {
    var m := Mounted(f, owner, prefix);
    if f.relation.None? then
      Expansion(pre.entries + [Leaf(m)], pre.targets, pre.joins)
    else
      var k := next + |pre.targets|;
      var target := f.relation.value.parent;
      var sub := Expand(target.children.items, k, Some(BranchPrefix(prefix, f)), k + 1, rank, rank[target]);
      Expansion(pre.entries + [Rel(m, sub.entries)],
                pre.targets + [target] + sub.targets,
                pre.joins + [Join(owner, f.name, k, f.relation.value.name)] + sub.joins)
  }

  /** Expanding one more field extends the expansion of the fields before it. */
  lemma ExpandSnoc(fs: seq<Field>, i: nat, owner: nat, prefix: Option<string>, next: nat,
                   rank: map<DatabaseTable, nat>, bound: nat)
    requires Ranked(rank) && RelBelow(fs, rank, bound) && i < |fs|
    ensures RelBelow(fs[..i], rank, bound) && RelBelow(fs[..i + 1], rank, bound)
    ensures Expand(fs[..i + 1], owner, prefix, next, rank, bound)
         == Step(Expand(fs[..i], owner, prefix, next, rank, bound), fs[i], owner, prefix, next, rank, bound)
  {
    assert fs[..i + 1][..i] == fs[..i];
  }

  /** Unfolding one step of the expansion when the new field has no relation. */
  lemma StepLeaf(pre: Expansion, f: Field, owner: nat, prefix: Option<string>, next: nat,
                 rank: map<DatabaseTable, nat>, bound: nat)
    requires Ranked(rank) && f.relation.None? && |pre.joins| == |pre.targets|
    ensures Step(pre, f, owner, prefix, next, rank, bound)
         == Expansion(pre.entries + [Leaf(Mounted(f, owner, prefix))], pre.targets, pre.joins)
  {
  }

  /** Unfolding one step of the expansion when the new field is a relation. */
  lemma StepRel(pre: Expansion, f: Field, owner: nat, prefix: Option<string>, next: nat,
                rank: map<DatabaseTable, nat>, bound: nat)
    requires Ranked(rank) && f.relation.Some? && |pre.joins| == |pre.targets|
    requires f.relation.value.parent in rank && rank[f.relation.value.parent] < bound
    ensures var target := f.relation.value.parent;
      var k := next + |pre.targets|;
      var sub := Expand(target.children.items, k, Some(BranchPrefix(prefix, f)), k + 1, rank, rank[target]);
      Step(pre, f, owner, prefix, next, rank, bound)
        == Expansion(pre.entries + [Rel(Mounted(f, owner, prefix), sub.entries)],
                     pre.targets + [target] + sub.targets,
                     pre.joins + [Join(owner, f.name, k, f.relation.value.name)] + sub.joins)
  {
  }

  /** `entries` mounts the fields `fs` one to one and in order, and an entry
      is a relation entry exactly when its field has a relation. */
  predicate MountsOf(entries: seq<Entry>, fs: seq<Field>, owner: nat, prefix: Option<string>)
  {
    |entries| == |fs|
    && forall i :: 0 <= i < |fs| ==>
         entries[i].field == Mounted(fs[i], owner, prefix) && (entries[i].Rel? <==> fs[i].relation.Some?)
  }

  lemma MountsOfSnoc(entries: seq<Entry>, fs: seq<Field>, owner: nat, prefix: Option<string>, x: Entry, f: Field)
    requires MountsOf(entries, fs, owner, prefix)
    requires x.field == Mounted(f, owner, prefix) && (x.Rel? <==> f.relation.Some?)
    ensures MountsOf(entries + [x], fs + [f], owner, prefix)
  {
    forall i | 0 <= i < |fs| + 1
      ensures (entries + [x])[i] == if i < |fs| then entries[i] else x
      ensures (fs + [f])[i] == if i < |fs| then fs[i] else f
    {
    }
  }

  /** Each field is mounted once, in order, and is a relation entry exactly
      when it has a relation. */
  lemma {:induction false} ExpandMounts(fs: seq<Field>, owner: nat, prefix: Option<string>, next: nat,
                                        rank: map<DatabaseTable, nat>, bound: nat)
    requires Ranked(rank) && RelBelow(fs, rank, bound)
    ensures MountsOf(Expand(fs, owner, prefix, next, rank, bound).entries, fs, owner, prefix)
    decreases |fs|
  {
    if |fs| > 0 {
      var n := |fs| - 1;
      var f := fs[n];
      ExpandMounts(fs[..n], owner, prefix, next, rank, bound);
      var pre := Expand(fs[..n], owner, prefix, next, rank, bound);
      if f.relation.Some? {
        StepRel(pre, f, owner, prefix, next, rank, bound);
      } else {
        StepLeaf(pre, f, owner, prefix, next, rank, bound);
      }
      var e := Expand(fs, owner, prefix, next, rank, bound);
      MountsOfSnoc(pre.entries, fs[..n], owner, prefix, e.entries[n], f);
      assert fs[..n] + [f] == fs;
      assert pre.entries + [e.entries[n]] == e.entries;
    }
  }

  lemma ShapeConcat(a: seq<Entry>, b: seq<Entry>)
    requires SqlNamed(a) && LeafIffNoRelation(a) && SqlNamed(b) && LeafIffNoRelation(b)
    ensures SqlNamed(a + b) && LeafIffNoRelation(a + b)
  {
    forall i | 0 <= i < |a + b|
      ensures (a + b)[i] == if i < |a| then a[i] else b[i - |a|]
    {
    }
  }

  /** At every depth, entries carry SQL names and are leaves exactly when
      their field has no relation. */
  lemma {:induction false} ExpandShape(fs: seq<Field>, owner: nat, prefix: Option<string>, next: nat,
                                       rank: map<DatabaseTable, nat>, bound: nat)
    requires Ranked(rank) && RelBelow(fs, rank, bound)
    ensures var e := Expand(fs, owner, prefix, next, rank, bound);
      SqlNamed(e.entries) && LeafIffNoRelation(e.entries)
    decreases bound, |fs|
  {
    if |fs| > 0 {
      var n := |fs| - 1;
      var f := fs[n];
      ExpandShape(fs[..n], owner, prefix, next, rank, bound);
      var pre := Expand(fs[..n], owner, prefix, next, rank, bound);
      if f.relation.Some? {
        var k := next + |pre.targets|;
        var target := f.relation.value.parent;
        ExpandShape(target.children.items, k, Some(BranchPrefix(prefix, f)), k + 1, rank, rank[target]);
        ShapeStep(pre, f, owner, prefix, next, rank, bound);
      } else {
        StepLeaf(pre, f, owner, prefix, next, rank, bound);
        ShapeConcat(pre.entries, [Leaf(Mounted(f, owner, prefix))]);
      }
    }
  }

  /** A relation step keeps the entries SQL-named and shaped by relations. */
  lemma ShapeStep(pre: Expansion, f: Field, owner: nat, prefix: Option<string>, next: nat,
                  rank: map<DatabaseTable, nat>, bound: nat)
    requires Ranked(rank) && f.relation.Some? && |pre.joins| == |pre.targets|
    requires f.relation.value.parent in rank && rank[f.relation.value.parent] < bound
    requires SqlNamed(pre.entries) && LeafIffNoRelation(pre.entries)
    requires var k := next + |pre.targets|;
      var sub := Expand(f.relation.value.parent.children.items, k, Some(BranchPrefix(prefix, f)), k + 1, rank,
                        rank[f.relation.value.parent]);
      SqlNamed(sub.entries) && LeafIffNoRelation(sub.entries)
    ensures var e := Step(pre, f, owner, prefix, next, rank, bound);
      SqlNamed(e.entries) && LeafIffNoRelation(e.entries)
  {
    var k := next + |pre.targets|;
    var target := f.relation.value.parent;
    var sub := Expand(target.children.items, k, Some(BranchPrefix(prefix, f)), k + 1, rank, rank[target]);
    StepRel(pre, f, owner, prefix, next, rank, bound);
    ShapeConcat(pre.entries, [Rel(Mounted(f, owner, prefix), sub.entries)]);
  }

  /** Every table in `ts` is one of the ranked schema tables. */
  ghost predicate AllRanked(ts: seq<DatabaseTable>, rank: map<DatabaseTable, nat>)
  {
    forall k :: 0 <= k < |ts| ==> ts[k] in rank
  }

  /** The tables reached are ranked. */
  lemma {:induction false} ExpandTargetsRanked(fs: seq<Field>, owner: nat, prefix: Option<string>, next: nat,
                                               rank: map<DatabaseTable, nat>, bound: nat)
    requires Ranked(rank) && RelBelow(fs, rank, bound)
    ensures AllRanked(Expand(fs, owner, prefix, next, rank, bound).targets, rank)
    decreases bound, |fs|
  {
    if |fs| > 0 {
      var n := |fs| - 1;
      var f := fs[n];
      ExpandTargetsRanked(fs[..n], owner, prefix, next, rank, bound);
      var pre := Expand(fs[..n], owner, prefix, next, rank, bound);
      if f.relation.Some? {
        var k := next + |pre.targets|;
        var target := f.relation.value.parent;
        ExpandTargetsRanked(target.children.items, k, Some(BranchPrefix(prefix, f)), k + 1, rank, rank[target]);
        TargetsStep(pre, f, owner, prefix, next, rank, bound);
      } else {
        StepLeaf(pre, f, owner, prefix, next, rank, bound);
      }
    }
  }

  /** A relation step reaches only ranked tables. */
  lemma TargetsStep(pre: Expansion, f: Field, owner: nat, prefix: Option<string>, next: nat,
                    rank: map<DatabaseTable, nat>, bound: nat)
    requires Ranked(rank) && f.relation.Some? && |pre.joins| == |pre.targets|
    requires f.relation.value.parent in rank && rank[f.relation.value.parent] < bound
    requires AllRanked(pre.targets, rank)
    requires var k := next + |pre.targets|;
      AllRanked(Expand(f.relation.value.parent.children.items, k, Some(BranchPrefix(prefix, f)), k + 1, rank,
                       rank[f.relation.value.parent]).targets, rank)
    ensures AllRanked(Step(pre, f, owner, prefix, next, rank, bound).targets, rank)
  {
    var k := next + |pre.targets|;
    var target := f.relation.value.parent;
    var sub := Expand(target.children.items, k, Some(BranchPrefix(prefix, f)), k + 1, rank, rank[target]);
    StepRel(pre, f, owner, prefix, next, rank, bound);
    var ts := pre.targets + [target] + sub.targets;
    forall j | 0 <= j < |ts|
      ensures ts[j] in rank
    {
      if j < |pre.targets| {
        assert ts[j] == pre.targets[j];
      } else if j > |pre.targets| {
        assert ts[j] == sub.targets[j - |pre.targets| - 1];
      }
    }
  }

  /** Join k leads to table number next + k, and starts from the owner or
      from a table reached before its target. */
  predicate Chained(js: seq<Join>, owner: nat, next: nat)
  {
    forall k :: 0 <= k < |js| ==>
      js[k].target == next + k && (js[k].owner == owner || next <= js[k].owner < js[k].target)
  }

  lemma ChainedSnoc(pre: seq<Join>, owner: nat, next: nat, column: string, refColumn: string, sub: seq<Join>)
    requires Chained(pre, owner, next)
    requires Chained(sub, next + |pre|, next + |pre| + 1)
    ensures Chained(pre + [Join(owner, column, next + |pre|, refColumn)] + sub, owner, next)
  {
    var js := pre + [Join(owner, column, next + |pre|, refColumn)] + sub;
    forall k | 0 <= k < |js|
      ensures js[k].target == next + k && (js[k].owner == owner || next <= js[k].owner < js[k].target)
    {
      if k < |pre| {
        assert js[k] == pre[k];
      } else if k > |pre| {
        assert js[k] == sub[k - |pre| - 1];
      }
    }
  }

  lemma {:induction false} ExpandJoins(fs: seq<Field>, owner: nat, prefix: Option<string>, next: nat,
                                       rank: map<DatabaseTable, nat>, bound: nat)
    requires Ranked(rank) && RelBelow(fs, rank, bound)
    ensures Chained(Expand(fs, owner, prefix, next, rank, bound).joins, owner, next)
    decreases bound, |fs|
  {
    if |fs| > 0 {
      var n := |fs| - 1;
      var f := fs[n];
      ExpandJoins(fs[..n], owner, prefix, next, rank, bound);
      var pre := Expand(fs[..n], owner, prefix, next, rank, bound);
      if f.relation.Some? {
        var k := next + |pre.targets|;
        var target := f.relation.value.parent;
        ExpandJoins(target.children.items, k, Some(BranchPrefix(prefix, f)), k + 1, rank, rank[target]);
        JoinsStep(pre, f, owner, prefix, next, rank, bound);
      } else {
        StepLeaf(pre, f, owner, prefix, next, rank, bound);
      }
    }
  }

  /** A relation step keeps the joins chained. */
  lemma JoinsStep(pre: Expansion, f: Field, owner: nat, prefix: Option<string>, next: nat,
                  rank: map<DatabaseTable, nat>, bound: nat)
    requires Ranked(rank) && f.relation.Some? && |pre.joins| == |pre.targets|
    requires f.relation.value.parent in rank && rank[f.relation.value.parent] < bound
    requires Chained(pre.joins, owner, next)
    requires var k := next + |pre.targets|;
      Chained(Expand(f.relation.value.parent.children.items, k, Some(BranchPrefix(prefix, f)), k + 1, rank,
                     rank[f.relation.value.parent]).joins, k, k + 1)
    ensures Chained(Step(pre, f, owner, prefix, next, rank, bound).joins, owner, next)
  {
    var k := next + |pre.targets|;
    var target := f.relation.value.parent;
    var sub := Expand(target.children.items, k, Some(BranchPrefix(prefix, f)), k + 1, rank, rank[target]);
    StepRel(pre, f, owner, prefix, next, rank, bound);
    assert |pre.joins| == |pre.targets|;
    ChainedSnoc(pre.joins, owner, next, f.name, f.relation.value.name, sub.joins);
  }

  lemma RenderConcat(a: seq<Join>, b: seq<Join>)
    ensures Render(a + b) == Render(a) + Render(b)
  {
    forall k | 0 <= k < |a + b|
      ensures Render(a + b)[k] == (Render(a) + Render(b))[k]
    {
      if k < |a| {
        assert (a + b)[k] == a[k];
      } else {
        assert (a + b)[k] == b[k - |a|];
      }
    }
  }

  /** Appending the join of one relation and then the joins of its branch
      renders as the joins of the whole expansion step. */
  lemma RenderStep(before: seq<string>, js: seq<Join>, j: Join, sub: seq<Join>)
    ensures before + Render(js) + [JoinText(j)] + Render(sub) == before + Render(js + [j] + sub)
  {
    RenderConcat(js, [j]);
    RenderConcat(js + [j], sub);
    assert Render([j]) == [JoinText(j)];
  }

  /** The joiner text gen_model and branch_rel build is the join clause. */
  lemma JoinerText(owner: nat, column: string, target: nat, refColumn: string)
    ensures Alias(owner) + "." + column + " = t" + NatToString(target) + "." + refColumn
         == JoinText(Join(owner, column, target, refColumn))
  {
    var x := Alias(owner) + "." + column;
    assert x + " = t" == x + " = " + "t";
    assert x + " = t" + NatToString(target) == x + " = " + Alias(target);
  }

  /** A table clone: same name, database and protection, and the same
      children list object as its original. */
  predicate CloneOf(c: DatabaseTable, t: DatabaseTable)
  {
    c.name == t.name && c.database == t.database && c.children == t.children
    && c.protection == t.protection
  }

  /** tables[base..base + |targets|] are clones of `targets`, in order. */
  predicate ClonesOf(tables: seq<DatabaseTable>, base: nat, targets: seq<DatabaseTable>)
  {
    base + |targets| <= |tables| && forall k :: 0 <= k < |targets| ==> CloneOf(tables[base + k], targets[k])
  }

  lemma ClonesOfSnoc(tables: seq<DatabaseTable>, base: nat, a: seq<DatabaseTable>, n: nat,
                     target: DatabaseTable, b: seq<DatabaseTable>)
    requires base + |a| == n < |tables|
    requires ClonesOf(tables[..n], base, a) && CloneOf(tables[n], target) && ClonesOf(tables, n + 1, b)
    ensures ClonesOf(tables, base, a + [target] + b)
  {
    var c := a + [target] + b;
    forall k | 0 <= k < |c|
      ensures CloneOf(tables[base + k], c[k])
    {
      if k < |a| {
        assert tables[..n][base + k] == tables[base + k];
      } else if k > |a| {
        assert tables[(n + 1) + (k - |a| - 1)] == tables[base + k];
      }
    }
  }

  lemma ClonesOfPrefix(tables: seq<DatabaseTable>, more: seq<DatabaseTable>, base: nat, a: seq<DatabaseTable>)
    requires ClonesOf(tables, base, a)
    ensures ClonesOf(tables + more, base, a)
  {
    forall j | 0 <= j < |tables|
      ensures (tables + more)[j] == tables[j]
    {
    }
  }

  /** Table i of the context carries alias t(i+1). */
  ghost predicate Numbered(tables: seq<DatabaseTable>)
    reads (set t | t in tables)`dbName
  {
    forall j :: 0 <= j < |tables| ==> tables[j].dbName == Some(Alias(j + 1))
  }

  /** From tables `t0` and joins `j0`, expansion `e` has been carried out:
      one clone per target appended after `t0`, and its joins rendered. */
  ghost predicate Grown(t0: seq<DatabaseTable>, j0: seq<string>, t1: seq<DatabaseTable>, j1: seq<string>, e: Expansion)
  {
    && |t1| == |t0| + |e.targets| && t1[..|t0|] == t0
    && ClonesOf(t1, |t0|, e.targets)
    && j1 == j0 + Render(e.joins)
  }

  /** What branch_rel adds to tables `t0` and joins `j0`: the clone of
      `target` next, then the expansion of its fields under that clone. */
  ghost predicate Branched(t0: seq<DatabaseTable>, j0: seq<string>, t1: seq<DatabaseTable>, j1: seq<string>,
                           entries: seq<Entry>, target: DatabaseTable, prefix: string, rank: map<DatabaseTable, nat>)
  {
    && Ranked(rank) && target in rank && |t1| > |t0| && t1[..|t0|] == t0 && CloneOf(t1[|t0|], target)
    && var e := Expand(target.children.items, |t0| + 1, Some(prefix), |t0| + 2, rank, rank[target]);
    && Grown(t1[..|t0| + 1], j0, t1, j1, e)
    && entries == e.entries
  }

  /** Cloning `target` after `t0` and then growing by the expansion of its
      fields is what branch_rel adds. */
  lemma BranchedOf(t0: seq<DatabaseTable>, t0c: seq<DatabaseTable>, j0: seq<string>, t1: seq<DatabaseTable>,
                   j1: seq<string>, entries: seq<Entry>, target: DatabaseTable, prefix: string,
                   rank: map<DatabaseTable, nat>)
    requires Ranked(rank) && target in rank
    requires |t0c| == |t0| + 1 && t0c[..|t0|] == t0 && CloneOf(t0c[|t0|], target)
    requires var e := Expand(target.children.items, |t0| + 1, Some(prefix), |t0| + 2, rank, rank[target]);
      Grown(t0c, j0, t1, j1, e) && entries == e.entries
    ensures Branched(t0, j0, t1, j1, entries, target, prefix, rank)
  {
    assert t1[..|t0c|] == t0c;
    assert t1[..|t0|] == t0c[..|t0|];
    assert t1[|t0|] == t0c[|t0|];
  }

  /** What mounting one field adds: its entry, and for a relation the join to
      the next alias followed by the branch of the related table. */
  ghost predicate Mounts(t0: seq<DatabaseTable>, j0: seq<string>, t1: seq<DatabaseTable>, j1: seq<string>,
                         entry: Entry, f: Field, owner: nat, prefix: Option<string>, rank: map<DatabaseTable, nat>)
  {
    && entry.field == Mounted(f, owner, prefix)
    && if f.relation.None? then entry.Leaf? && t1 == t0 && j1 == j0
       else
         && entry.Rel?
         && Branched(t0, j0 + [JoinText(Join(owner, f.name, |t0| + 1, f.relation.value.name))], t1, j1,
                     entry.branch, f.relation.value.parent, BranchPrefix(prefix, f), rank)
  }

  /** Mounting field `f` after expansion `e` carries out Step(e, f). */
  lemma GrowStep(t0: seq<DatabaseTable>, j0: seq<string>, mid: seq<DatabaseTable>, jmid: seq<string>,
                 t1: seq<DatabaseTable>, j1: seq<string>, entry: Entry, e: Expansion, f: Field,
                 owner: nat, prefix: Option<string>, next: nat, rank: map<DatabaseTable, nat>, bound: nat)
    requires Ranked(rank) && next == |t0| + 1 && |e.joins| == |e.targets|
    requires f.relation.Some? ==> f.relation.value.parent in rank && rank[f.relation.value.parent] < bound
    requires Grown(t0, j0, mid, jmid, e) && Mounts(mid, jmid, t1, j1, entry, f, owner, prefix, rank)
    ensures Grown(t0, j0, t1, j1, Step(e, f, owner, prefix, next, rank, bound))
    ensures Step(e, f, owner, prefix, next, rank, bound).entries == e.entries + [entry]
  {
    if f.relation.None? {
      StepLeaf(e, f, owner, prefix, next, rank, bound);
    } else {
      GrowRel(t0, j0, mid, jmid, t1, j1, entry, e, f, owner, prefix, next, rank, bound);
    }
  }

  /** GrowStep for a relation field. */
  lemma GrowRel(t0: seq<DatabaseTable>, j0: seq<string>, mid: seq<DatabaseTable>, jmid: seq<string>,
                t1: seq<DatabaseTable>, j1: seq<string>, entry: Entry, e: Expansion, f: Field,
                owner: nat, prefix: Option<string>, next: nat, rank: map<DatabaseTable, nat>, bound: nat)
    requires Ranked(rank) && next == |t0| + 1 && |e.joins| == |e.targets|
    requires f.relation.Some? && f.relation.value.parent in rank && rank[f.relation.value.parent] < bound
    requires Grown(t0, j0, mid, jmid, e) && Mounts(mid, jmid, t1, j1, entry, f, owner, prefix, rank)
    ensures var s := Step(e, f, owner, prefix, next, rank, bound);
      Grown(t0, j0, t1, j1, s) && s.entries == e.entries + [entry]
  {
    var target := f.relation.value.parent;
    var n := |mid|;
    var se := Expand(target.children.items, n + 1, Some(BranchPrefix(prefix, f)), n + 2, rank, rank[target]);
    var j := Join(owner, f.name, n + 1, f.relation.value.name);
    StepRel(e, f, owner, prefix, next, rank, bound);
    assert next + |e.targets| == n + 1;
    GrowTables(t0, mid, t1, e.targets, target, se.targets);
    RenderStep(j0, e.joins, j, se.joins);
  }

  /** The tables part of GrowStep: a clone of `target` after the clones of
      `a`, followed by the clones of `b`, are the clones of `a + [target] + b`. */
  lemma GrowTables(t0: seq<DatabaseTable>, mid: seq<DatabaseTable>, t1: seq<DatabaseTable>,
                   a: seq<DatabaseTable>, target: DatabaseTable, b: seq<DatabaseTable>)
    requires |mid| == |t0| + |a| && mid[..|t0|] == t0 && ClonesOf(mid, |t0|, a)
    requires |t1| == |mid| + 1 + |b| && t1[..|mid|] == mid
    requires CloneOf(t1[|mid|], target) && ClonesOf(t1, |mid| + 1, b)
    ensures |t1| == |t0| + |a + [target] + b| && t1[..|t0|] == t0
    ensures ClonesOf(t1, |t0|, a + [target] + b)
  {
    ClonesOfSnoc(t1, |t0|, a, |mid|, target, b);
    assert t1[..|t0|] == mid[..|t0|];
  }

  /** In every branch, each display name is the display name of the field
      the branch hangs from, then API_REL_CHAR, then the column name. */
  predicate Prefixed(m: seq<Entry>)
  {
    forall i :: 0 <= i < |m| && m[i].Rel? ==>
      && (forall j :: 0 <= j < |m[i].branch| ==>
            m[i].branch[j].field.apiName == m[i].field.apiName + [RelChar] + m[i].branch[j].field.name)
      && Prefixed(m[i].branch)
  }

  lemma PrefixedSnoc(m: seq<Entry>, x: Entry)
    requires Prefixed(m) && Prefixed([x])
    ensures Prefixed(m + [x])
  {
    forall i | 0 <= i < |m| + 1
      ensures (m + [x])[i] == if i < |m| then m[i] else x
    {
    }
  }

  /** Every relation field of `fs` still has its column name as api name. */
  predicate RelationsPlainNamed(fs: seq<Field>)
  {
    forall k :: 0 <= k < |fs| && fs[k].relation.Some? ==> fs[k].apiName == fs[k].name
  }

  /** Display names accumulate the relation path: inside a branch every field
      is named after the field that leads to it. At the root this needs the
      schema's relation fields to carry their column names as api names
      (what a new DatabaseField does), since branch_rel is handed the
      original root field and not its clone. */
  lemma {:induction false} ExpandPrefixed(fs: seq<Field>, owner: nat, prefix: Option<string>, next: nat,
                                          rank: map<DatabaseTable, nat>, bound: nat)
    requires Ranked(rank) && RelBelow(fs, rank, bound)
    requires prefix.None? ==> RelationsPlainNamed(fs)
    ensures Prefixed(Expand(fs, owner, prefix, next, rank, bound).entries)
    decreases bound, |fs|
  {
    if |fs| > 0 {
      var n := |fs| - 1;
      var f := fs[n];
      var m := Mounted(f, owner, prefix);
      assert prefix.None? ==> RelationsPlainNamed(fs[..n]) by {
        if prefix.None? {
          forall k | 0 <= k < n && fs[..n][k].relation.Some?
            ensures fs[..n][k].apiName == fs[..n][k].name
          {
            assert fs[..n][k] == fs[k];
          }
        }
      }
      ExpandPrefixed(fs[..n], owner, prefix, next, rank, bound);
      var pre := Expand(fs[..n], owner, prefix, next, rank, bound);
      if f.relation.Some? {
        var k := next + |pre.targets|;
        var target := f.relation.value.parent;
        var bp := BranchPrefix(prefix, f);
        ExpandPrefixed(target.children.items, k, Some(bp), k + 1, rank, rank[target]);
        assert prefix.None? ==> f.apiName == f.name;
        PrefixedStep(pre, f, owner, prefix, next, rank, bound);
      } else {
        StepLeaf(pre, f, owner, prefix, next, rank, bound);
        PrefixedSnoc(pre.entries, Leaf(m));
      }
    }
  }

  /** A relation step keeps the entries prefixed. */
  lemma PrefixedStep(pre: Expansion, f: Field, owner: nat, prefix: Option<string>, next: nat,
                     rank: map<DatabaseTable, nat>, bound: nat)
    requires Ranked(rank) && f.relation.Some? && |pre.joins| == |pre.targets|
    requires f.relation.value.parent in rank && rank[f.relation.value.parent] < bound
    requires Prefixed(pre.entries) && (prefix.None? ==> f.apiName == f.name)
    requires var k := next + |pre.targets|;
      Prefixed(Expand(f.relation.value.parent.children.items, k, Some(BranchPrefix(prefix, f)), k + 1, rank,
                      rank[f.relation.value.parent]).entries)
    ensures Prefixed(Step(pre, f, owner, prefix, next, rank, bound).entries)
  {
    var k := next + |pre.targets|;
    var target := f.relation.value.parent;
    var bp := BranchPrefix(prefix, f);
    var m := Mounted(f, owner, prefix);
    PrefixedBranch(target.children.items, k, m, bp, rank);
    StepRel(pre, f, owner, prefix, next, rank, bound);
    PrefixedSnoc(pre.entries, Rel(m, Expand(target.children.items, k, Some(bp), k + 1, rank, rank[target]).entries));
  }

  /** One branch entry is prefixed when its fields are expanded with the
      prefix `<its display name>_`. */
  lemma PrefixedBranch(fs: seq<Field>, k: nat, m: Field, bp: string, rank: map<DatabaseTable, nat>)
    requires Ranked(rank) && m.relation.Some? && m.relation.value.parent in rank
    requires fs == m.relation.value.parent.children.items
    requires bp == m.apiName + [RelChar]
    requires Prefixed(Expand(fs, k, Some(bp), k + 1, rank, rank[m.relation.value.parent]).entries)
    ensures Prefixed([Rel(m, Expand(fs, k, Some(bp), k + 1, rank, rank[m.relation.value.parent]).entries)])
  {
    var sub := Expand(fs, k, Some(bp), k + 1, rank, rank[m.relation.value.parent]);
    ExpandMounts(fs, k, Some(bp), k + 1, rank, rank[m.relation.value.parent]);
    forall j | 0 <= j < |sub.entries|
      ensures sub.entries[j].field.apiName == m.apiName + [RelChar] + sub.entries[j].field.name
    {
      assert sub.entries[j].field == Mounted(fs[j], k, Some(bp));
    }
  }

  /** Aliases of a numbered table list never repeat. */
  lemma AliasesDistinct(tables: seq<DatabaseTable>, i: nat, j: nat)
    requires Numbered(tables) && i < j < |tables|
    ensures tables[i].dbName != tables[j].dbName
  {
    if tables[i].dbName == tables[j].dbName {
      AliasInjective(i + 1, j + 1);
    }
  }

  /** The `<fq_name> AS <alias>` items of the FROM clause. */
  function Froms(tables: seq<DatabaseTable>): (r: seq<string>)
    reads set t | t in tables
    requires forall k :: 0 <= k < |tables| ==> tables[k].dbName.Some?
    ensures |r| == |tables| && forall k :: 0 <= k < |tables| ==> r[k] == tables[k].fqName + " AS " + tables[k].dbName.value
  {
    seq(|tables|, k reads set t | t in tables requires 0 <= k < |tables| && tables[k].dbName.Some? =>
          tables[k].fqName + " AS " + tables[k].dbName.value)
  }

  class APIContext {
    const name: string
    const schema: seq<Database>
    var table: DatabaseTable
    var tables: seq<DatabaseTable>
    var joins: seq<string>
    var model: seq<Entry>

    /** The state a compiled context is in: its model, tables and joins are
        those of the expansion of the root table, and every table carries its
        alias. */
    ghost predicate CompiledFrom(root: DatabaseTable, rank: map<DatabaseTable, nat>)
      reads this, (set t | t in tables)`dbName
    {
      && Ranked(rank) && root in rank
      && var e := Expand(root.children.items, 1, None, 2, rank, rank[root]);
      && |tables| == 1 + |e.targets| && tables[0] == table && CloneOf(table, root)
      && ClonesOf(tables, 1, e.targets)
      && Numbered(tables)
      && joins == Render(e.joins)
      && model == e.entries
    }

    /** What every query-time operation relies on: the root and the tables
        reached each carry their alias, one join per table reached, and every
        model entry has a SQL name and is a branch exactly when it is a
        foreign key. */
    ghost predicate Valid()
      reads this, (set t | t in tables)`dbName
    {
      QueryReady() && |tables| >= 1 && |joins| == |tables| - 1
    }

    /** The part of Valid the query-time operations read. */
    ghost predicate QueryReady()
      reads this, (set t | t in tables)`dbName
    {
      Numbered(tables) && SqlNamed(model) && LeafIffNoRelation(model)
    }

    /** APIContext(schema, table): the name, the root clone, then gen_model.
        `rank` witnesses that the relations reachable from `table` are acyclic. */
    constructor (schema: seq<Database>, table: DatabaseTable, ghost rank: map<DatabaseTable, nat>)
      requires Ranked(rank) && table in rank
      ensures name == ReplaceChar(table.fqName, '.', RelChar) && this.schema == schema
      ensures fresh(this.table)
      ensures CompiledFrom(table, rank) && Valid()
    {
      name := ReplaceChar(table.fqName, '.', RelChar);
      this.schema := schema;
      var root := table.Clone();
      this.table := root;
      tables := [root];
      joins := [];
      model := [];
      new;
      GenModel(rank, rank[table]);
      ExpandShape(table.children.items, 1, None, 2, rank, rank[table]);
    }

    /** gen_model: alias t1 for the root clone, then every root field mounted
        under t1. */
    method GenModel(ghost rank: map<DatabaseTable, nat>, ghost bound: nat)
      requires Ranked(rank) && RelBelow(table.children.items, rank, bound)
      requires tables == [table] && joins == []
      modifies this, table`dbName
      ensures table == old(table)
      ensures var e := Expand(table.children.items, 1, None, 2, rank, bound);
        && Grown([table], [], tables, joins, e) && model == e.entries
      ensures Numbered(tables)
    {
      model := [];
      var tid := "t1";
      tables[0].dbName := Some(tid);
      assert tid == Alias(1);
      model := MountAll(table.children.items, tid, None, 1, rank, bound);
    }

    /** branch_rel: clone the table `branchField` refers to, give it the next
        alias, and mount its fields under that alias with the display prefix
        `<branchField's api name>_`. */
    method BranchRel(branchField: Field, ghost rank: map<DatabaseTable, nat>)
      returns (entries: seq<Entry>)
      requires Ranked(rank) && Numbered(tables)
      requires branchField.relation.Some? && branchField.relation.value.parent in rank
      modifies this
      ensures table == old(table) && model == old(model)
      ensures Branched(old(tables), old(joins), tables, joins, entries, branchField.relation.value.parent,
                       branchField.apiName + [RelChar], rank)
      ensures Numbered(tables)
      decreases rank[branchField.relation.value.parent], 2
    {
      var apiNameP1 := branchField.apiName + [RelChar];
      var target := branchField.relation.value.parent;
      ghost var t0 := tables;
      var c, tid := AddClone(target);
      ghost var t0c := tables;
      assert RelBelow(target.children.items, rank, rank[target]);
      entries := MountAll(c.children.items, tid, Some(apiNameP1), |tables|, rank, rank[target]);
      BranchedOf(t0, t0c, old(joins), tables, joins, entries, target, apiNameP1, rank);
    }

    /** The first half of branch_rel: append a clone of `target` to the
        tables and give it the next alias. */
    method AddClone(target: DatabaseTable) returns (c: DatabaseTable, tid: string)
      requires Numbered(tables)
      modifies this
      ensures table == old(table) && model == old(model) && joins == old(joins)
      ensures fresh(c) && tables == old(tables) + [c] && CloneOf(c, target)
      ensures tid == Alias(|tables|) && Numbered(tables)
    {
      c := target.Clone();
      tables := tables + [c];
      tid := "t" + NatToString(|tables|);
      c.dbName := Some(tid);
    }

    /** The loop of gen_model and of branch_rel: mount every field of `fs`
        under the table with alias number `owner`, in order. */
    method MountAll(fs: seq<Field>, tid: string, prefix: Option<string>, owner: nat,
                    ghost rank: map<DatabaseTable, nat>, ghost bound: nat)
      returns (entries: seq<Entry>)
      requires Ranked(rank) && RelBelow(fs, rank, bound) && Numbered(tables)
      requires 1 <= owner <= |tables| && tid == Alias(owner)
      modifies this
      ensures table == old(table) && model == old(model)
      ensures var e := Expand(fs, owner, prefix, |old(tables)| + 1, rank, bound);
        Grown(old(tables), old(joins), tables, joins, e) && entries == e.entries
      ensures Numbered(tables)
      decreases bound, 1
    {
      ghost var t0, j0, next := tables, joins, |tables| + 1;
      ghost var e := Expansion([], [], []);
      entries := [];
      var i := 0;
      while i < |fs|
        invariant 0 <= i <= |fs|
        invariant e == Expand(fs[..i], owner, prefix, next, rank, bound)
        invariant table == old(table) && model == old(model)
        invariant Grown(t0, j0, tables, joins, e) && entries == e.entries
        invariant Numbered(tables)
      {
        ExpandSnoc(fs, i, owner, prefix, next, rank, bound);
        ghost var mid, jmid := tables, joins;
        var entry := Mount(fs[i], tid, prefix, owner, rank, bound);
        entries := entries + [entry];
        GrowStep(t0, j0, mid, jmid, tables, joins, entry, e, fs[i], owner, prefix, next, rank, bound);
        e := Step(e, fs[i], owner, prefix, next, rank, bound);
        i := i + 1;
      }
      assert fs[..|fs|] == fs;
    }

    /** One turn of the loop: mount the clone of `f` under the table with alias
        `tid`, and for a relation record the join to the next table and expand
        it with branch_rel (passing the original field at the root, the
        renamed clone in a branch). */
    method Mount(f: Field, tid: string, prefix: Option<string>, owner: nat,
                 ghost rank: map<DatabaseTable, nat>, ghost bound: nat)
      returns (entry: Entry)
      requires Ranked(rank) && Numbered(tables)
      requires 1 <= owner <= |tables| && tid == Alias(owner)
      requires f.relation.Some? ==> f.relation.value.parent in rank && rank[f.relation.value.parent] < bound
      modifies this
      ensures table == old(table) && model == old(model)
      ensures Mounts(old(tables), old(joins), tables, joins, entry, f, owner, prefix, rank)
      ensures Numbered(tables)
      decreases bound, 0
    {
      var m := Clone(f).(sqlName := Some(tid + "." + f.name));
      if prefix.Some? {
        m := m.(apiName := prefix.value + f.name);
      }
      assert m == Mounted(f, owner, prefix);
      if f.relation.None? {
        entry := Leaf(m);
      } else {
        var joiner := tables[owner - 1].dbName.value + "." + f.name + " = t" + NatToString(|tables| + 1) + "." + f.relation.value.name;
        ghost var j := Join(owner, f.name, |tables| + 1, f.relation.value.name);
        JoinerText(owner, f.name, |tables| + 1, f.relation.value.name);
        assert joiner == JoinText(j);
        joins := joins + [joiner];
        var branchField := if prefix.None? then f else m;
        assert branchField.apiName + [RelChar] == BranchPrefix(prefix, f);
        var sub := BranchRel(branchField, rank);
        entry := Rel(m, sub);
        assert Branched(old(tables), old(joins) + [JoinText(j)], tables, joins, entry.branch,
                        f.relation.value.parent, BranchPrefix(prefix, f), rank);
      }
    }
      /** flat_fields: the fields of the model without a branch, in preorder. */
    method FlatFields() returns (fields: seq<Field>)
      ensures fields == Flatten(model)
    {
      fields := FlatFieldsRec([], model);
    }

    /** __flat_fields_rec: append the leaves of `parent` to `fields`, descending
        into every branch where its foreign-key field stands. */
    method FlatFieldsRec(fields: seq<Field>, parent: seq<Entry>) returns (r: seq<Field>)
      ensures r == fields + Flatten(parent)
      decreases parent
    {
      r := fields;
      var i := 0;
      while i < |parent|
        invariant 0 <= i <= |parent| && r == fields + Flatten(parent[..i])
      {
        match parent[i] {
          case Leaf(f) =>
            r := r + [f];
          case Rel(_, b) =>
            r := FlatFieldsRec(r, b);
        }
        FlattenSnoc(parent[..i], parent[i]);
        assert parent[..i + 1] == parent[..i] + [parent[i]];
        i := i + 1;
      }
      assert parent[..|parent|] == parent;
    }

    /** types_view: each display name mapped to its type, or to the types of
        its branch. */
    method TypesView() returns (d: seq<Item<string>>)
      ensures d == TypesOf(model)
    {
      d := TypesRec(model);
    }

    /** __types_rec: the types view of one model level. */
    method TypesRec(branch: seq<Entry>) returns (hook: seq<Item<string>>)
      ensures hook == TypesOf(branch)
      decreases branch
    {
      hook := [];
      var i := 0;
      while i < |branch|
        invariant 0 <= i <= |branch| && hook == TypesOf(branch[..i])
      {
        assert branch[..i + 1][..i] == branch[..i];
        match branch[i] {
          case Leaf(f) =>
            hook := Put(hook, f.apiName, Value(f.typ));
          case Rel(f, b) =>
            var sub := TypesRec(b);
            hook := Put(hook, f.apiName, Obj(sub));
        }
        i := i + 1;
      }
      assert branch[..|branch|] == branch;
    }

    /** get_sql_parts: the SELECT list of the flat SQL names, the FROM list of
        the tables with their aliases and the WHERE list of the joins, each
        accumulated with a trailing separator that is then cut off. */
    method GetSqlParts() returns (sql: string)
      requires QueryReady()
      ensures SqlNamedFields(Flatten(model)) && sql == SqlText(Columns(Flatten(model)), Froms(tables), joins)
    {
      var flat := FlatFields();
      FlattenFields(model);
      var select := SelectClause(flat);
      var from := FromClause(select);
      sql := WhereClause(from);
    }

    /** The first loop of get_sql_parts: `<sql_name>, ` per flat field, then
        the last two characters cut. */
    method SelectClause(flat: seq<Field>) returns (sql: string)
      requires SqlNamedFields(flat)
      ensures sql == Chop("SELECT \n\t" + Terminated(Columns(flat), ", "), 2)
    {
      sql := "SELECT \n\t";
      ghost var cols := Columns(flat);
      var i := 0;
      while i < |flat|
        invariant 0 <= i <= |flat| && sql == "SELECT \n\t" + Terminated(cols[..i], ", ")
      {
        sql := sql + flat[i].sqlName.value + ", ";
        TerminatedSnoc(cols[..i], cols[i], ", ");
        assert cols[..i + 1] == cols[..i] + [cols[i]];
        i := i + 1;
      }
      assert cols[..|flat|] == cols;
      sql := sql[..|sql| - 2];
    }

    /** The second loop: `<fq_name> AS <alias>, ` per table, then the last two
        characters cut. */
    method FromClause(select: string) returns (sql: string)
      requires forall k :: 0 <= k < |tables| ==> tables[k].dbName.Some?
      ensures sql == Chop(select + " \nFROM\n\t" + Terminated(Froms(tables), ", "), 2)
    {
      var head := select + " \nFROM\n\t";
      sql := head;
      var ts := tables;
      ghost var froms := Froms(ts);
      var i := 0;
      while i < |ts|
        invariant 0 <= i <= |ts| && sql == head + Terminated(froms[..i], ", ")
      {
        var item := ts[i].fqName + " AS " + ts[i].dbName.value;
        sql := sql + item + ", ";
        TerminatedSnoc(froms[..i], item, ", ");
        assert froms[..i + 1] == froms[..i] + [item];
        i := i + 1;
      }
      assert froms[..|ts|] == froms;
      sql := sql[..|sql| - 2];
    }

    /** The third loop: `<join> AND ` per join, then, when there was one, the
        last four characters cut. */
    method WhereClause(from: string) returns (sql: string)
      ensures var wh := from + " \nWHERE\n\t" + Terminated(joins, " AND ");
        sql == if |joins| > 0 then Chop(wh, 4) else wh
    {
      sql := from + " \nWHERE\n\t";
      var i := 0;
      while i < |joins|
        invariant 0 <= i <= |joins| && sql == from + " \nWHERE\n\t" + Terminated(joins[..i], " AND ")
      {
        sql := sql + joins[i] + " AND ";
        TerminatedSnoc(joins[..i], joins[i], " AND ");
        assert joins[..i + 1] == joins[..i] + [joins[i]];
        i := i + 1;
      }
      assert joins[..|joins|] == joins;
      if |joins| > 0 {
        sql := sql[..|sql| - 4];
      }
    }

    /** unpack_single: the types view with every leaf replaced by the value
        of `result` at the position of the last flat field of that name;
        None where Python raises IndexError. */
    method UnpackSingle<V>(result: seq<V>) returns (r: Option<seq<Item<V>>>)
      ensures r == Unpack(TypesOf(model), Flatten(model), result)
    {
      var fields := FlatFields();
      var values: seq<V> := [];
      var i := 0;
      while i < |result|
        invariant 0 <= i <= |result| && values == result[..i]
      {
        values := values + [result[i]];
        i := i + 1;
      }
      assert values == result;
      var structure := TypesView();
      r := UnpackRec(fields, values, structure);
    }

    /** __unpack_single_rec over one level of the structure. */
    method UnpackRec<V>(fields: seq<Field>, values: seq<V>, parent: seq<Item<string>>) returns (r: Option<seq<Item<V>>>)
      ensures r == Unpack(parent, fields, values)
      decreases parent
    {
      var out: seq<Item<V>> := [];
      var i := 0;
      while i < |parent|
        invariant 0 <= i <= |parent| && Unpack(parent[..i], fields, values) == Some(out)
      {
        assert parent[..i + 1][..i] == parent[..i];
        var it := parent[i];
        match it.val {
          case Value(_) =>
            var ind := LastField(fields, it.key);
            if ind == -1 && |values| > 0 {
              out := out + [Item(it.key, Value(values[|values| - 1]))];
            } else if 0 <= ind < |values| {
              out := out + [Item(it.key, Value(values[ind]))];
            } else {
              UnpackNonePrefix(parent, i + 1, fields, values);
              return None;
            }
          case Obj(xs) =>
            var sub := UnpackRec(fields, values, xs);
            if sub.None? {
              UnpackNonePrefix(parent, i + 1, fields, values);
              return None;
            }
            out := out + [Item(it.key, Obj(sub.value))];
        }
        i := i + 1;
      }
      assert parent[..|parent|] == parent;
      r := Some(out);
    }

    /** The search loop of unpack_single: the position of the last field
        whose display name is `key`, or -1. */
    method LastField(fields: seq<Field>, key: string) returns (ind: int)
      ensures ind == LastIndex(fields, key)
    {
      ind := -1;
      var j := 0;
      while j < |fields|
        invariant 0 <= j <= |fields| && ind == LastIndex(fields[..j], key)
      {
        assert fields[..j + 1][..j] == fields[..j];
        if fields[j].apiName == key {
          ind := j;
        }
        j := j + 1;
      }
      assert fields[..|fields|] == fields;
    }
  }
  /** The root level of a compiled context: one entry per column of the root
      table in order, named by its column, SQL-named under t1, and a branch
      exactly for the foreign keys; below it, display names accumulate the
      relation path. */
  lemma CompiledRoot(c: APIContext, root: DatabaseTable, rank: map<DatabaseTable, nat>)
    requires c.CompiledFrom(root, rank) && RelationsPlainNamed(root.children.items)
    ensures var fs := root.children.items;
      && |c.model| == |fs|
      && (forall i :: 0 <= i < |fs| ==>
            && c.model[i].field.apiName == fs[i].name
            && c.model[i].field.sqlName == Some("t1." + fs[i].name)
            && (c.model[i].Rel? <==> fs[i].relation.Some?))
      && Prefixed(c.model)
  {
    ExpandMounts(root.children.items, 1, None, 2, rank, rank[root]);
    ExpandPrefixed(root.children.items, 1, None, 2, rank, rank[root]);
    forall i | 0 <= i < |root.children.items|
      ensures c.model[i].field.sqlName == Some("t1." + root.children.items[i].name)
    {
      assert c.model[i].field == Mounted(root.children.items[i], 1, None);
      assert Alias(1) + "." == "t1.";
    }
  }

  /** The joins of a compiled context: one per table reached, join k leads
      to the alias of table k + 1 and starts from the root or from a table
      reached before it. */
  lemma CompiledJoins(c: APIContext, root: DatabaseTable, rank: map<DatabaseTable, nat>)
    requires c.CompiledFrom(root, rank)
    ensures |c.joins| == |c.tables| - 1
    ensures var js := Expand(root.children.items, 1, None, 2, rank, rank[root]).joins;
      && |js| == |c.joins|
      && forall k :: 0 <= k < |c.joins| ==>
           && c.joins[k] == JoinText(js[k])
           && Some(Alias(js[k].target)) == c.tables[k + 1].dbName
           && 1 <= js[k].owner < js[k].target
  {
    var e := Expand(root.children.items, 1, None, 2, rank, rank[root]);
    ExpandJoins(root.children.items, 1, None, 2, rank, rank[root]);
    forall k | 0 <= k < |c.joins|
      ensures e.joins[k].target == k + 2 && 1 <= e.joins[k].owner < e.joins[k].target
    {
    }
  }
}
