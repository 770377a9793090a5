/** AliasName: a primary name with a list of aliases (src/db/AliasName.py). */
module Aliasing {
  import opened Text

  /** What is_this answers for a name and alias list: `n` is the name or one of the aliases. */
  predicate Names(name: string, aliases: seq<string>, n: string)
  {
    n == name || n in aliases
  }

  /** What are_these answers: the two names overlap by name, by alias, or name against alias. */
  predicate Overlap(name1: string, aliases1: seq<string>, name2: string, aliases2: seq<string>)
  {
    || name1 == name2
    || name2 in aliases1
    || name1 in aliases2
    || exists a :: a in aliases1 && a in aliases2
  }

  lemma OverlapSymmetric(name1: string, aliases1: seq<string>, name2: string, aliases2: seq<string>)
    ensures Overlap(name1, aliases1, name2, aliases2) <==> Overlap(name2, aliases2, name1, aliases1)
  {
  }

  lemma OverlapReflexive(name: string, aliases: seq<string>)
    ensures Overlap(name, aliases, name, aliases)
  {
  }

  /** Two names overlap exactly when some string is matched by both. */
  lemma OverlapIsCommonMatch(name1: string, aliases1: seq<string>, name2: string, aliases2: seq<string>)
    ensures Overlap(name1, aliases1, name2, aliases2)
        <==> exists n :: Names(name1, aliases1, n) && Names(name2, aliases2, n)
  {
    if Overlap(name1, aliases1, name2, aliases2) {
      if name1 == name2 {
        assert Names(name1, aliases1, name1) && Names(name2, aliases2, name1);
      } else if name2 in aliases1 {
        assert Names(name1, aliases1, name2) && Names(name2, aliases2, name2);
      } else if name1 in aliases2 {
        assert Names(name1, aliases1, name1) && Names(name2, aliases2, name1);
      } else {
        var a :| a in aliases1 && a in aliases2;
        assert Names(name1, aliases1, a) && Names(name2, aliases2, a);
      }
    }
  }

  /** A Python value handed to a parameter that force_type checks to be a str. */
  datatype Value = Str(s: string) | NotStr

  datatype AliasError = TypeError | ValueError(alias: string)

  /** The list with its first occurrence of `a` taken out, as Python's list.remove(a). */
  function RemoveFirst(s: seq<string>, a: string): seq<string>
  {
    if a !in s then s else s[..IndexOf(s, a)] + s[IndexOf(s, a) + 1..]
  }

  /** Removing takes away exactly one copy of the alias. */
  lemma RemoveFirstMultiset(s: seq<string>, a: string)
    requires a in s
    ensures multiset(RemoveFirst(s, a)) == multiset(s) - multiset{a}
  {
    var i := IndexOf(s, a);
    assert s == s[..i] + [a] + s[i + 1..];
    assert multiset(s) == multiset(s[..i]) + multiset{a} + multiset(s[i + 1..]);
  }

  /** After removing `a`, the name still answers to `a` only if it is the
      primary name or `a` was listed more than once. */
  lemma RemovedAliasNoLongerMatches(name: string, aliases: seq<string>, a: string)
    requires a in aliases
    ensures Names(name, RemoveFirst(aliases, a), a) <==> a == name || multiset(aliases)[a] > 1
  {
    RemoveFirstMultiset(aliases, a);
    assert a in RemoveFirst(aliases, a) <==> multiset(RemoveFirst(aliases, a))[a] > 0;
  }

  /** The strings of a list of values that are all strings. */
  function Strings(xs: seq<Value>): (r: seq<string>)
    requires forall k :: 0 <= k < |xs| ==> xs[k].Str?
    ensures |r| == |xs| && forall k :: 0 <= k < |xs| ==> r[k] == xs[k].s
  {
    if |xs| == 0 then [] else [xs[0].s] + Strings(xs[1..])
  }

  class AliasName {
    var name: string
    var aliases: seq<string>

    constructor (name: string, aliases: seq<string>)
      ensures this.name == name && this.aliases == aliases
    {
      this.name := name;
      this.aliases := aliases;
    }

    /** is_this: the flag loop over the aliases. */
    method IsThis(n: string) returns (matches: bool)
      ensures matches <==> Names(name, aliases, n)
    {
      matches := false;
      if n == name {
        matches := true;
      }
      for i := 0 to |aliases|
        invariant matches <==> (n == name || n in aliases[..i])
      {
        if n == aliases[i] {
          matches := true;
        }
        assert aliases[..i + 1] == aliases[..i] + [aliases[i]];
      }
      assert aliases[..|aliases|] == aliases;
    }

    /** add_alias: the alias is type-checked and appended. */
    method AddAlias(alias: Value) returns (err: Option<AliasError>)
      modifies this
      ensures name == old(name)
      ensures err.Some? <==> alias.NotStr?
      ensures err.Some? ==> err.value == TypeError && aliases == old(aliases)
      ensures err.None? ==> aliases == old(aliases) + [alias.s] && Names(name, aliases, alias.s)
    {
      if alias.NotStr? {
        return Some(TypeError);
      }
      aliases := aliases + [alias.s];
      err := None;
    }

    /** add_aliases: every element is type-checked first, then all are appended in order. */
    method AddAliases(xs: seq<Value>) returns (err: Option<AliasError>)
      modifies this
      ensures name == old(name)
      ensures err.None? <==> forall k :: 0 <= k < |xs| ==> xs[k].Str?
      ensures err.Some? ==> err.value == TypeError && aliases == old(aliases)
      ensures err.None? ==> aliases == old(aliases) + Strings(xs)
      ensures err.None? ==> forall k :: 0 <= k < |xs| ==> Names(name, aliases, xs[k].s)
    {
      for i := 0 to |xs|
        invariant forall k :: 0 <= k < i ==> xs[k].Str?
      {
        if xs[i].NotStr? {
          return Some(TypeError);
        }
      }
      ghost var before := aliases;
      for i := 0 to |xs|
        invariant name == old(name)
        invariant aliases == before + Strings(xs[..i])
      {
        assert xs[..i + 1] == xs[..i] + [xs[i]];
        assert Strings(xs[..i + 1]) == Strings(xs[..i]) + [xs[i].s];
        aliases := aliases + [xs[i].s];
      }
      assert xs[..|xs|] == xs;
      err := None;
      forall k | 0 <= k < |xs|
        ensures Names(name, aliases, xs[k].s)
      {
        assert aliases[|before| + k] == xs[k].s;
      }
    }

    /** remove_alias: an alias that is not listed raises ValueError; otherwise
        its first occurrence is removed. */
    method RemoveAlias(alias: Value) returns (err: Option<AliasError>)
      modifies this
      ensures name == old(name)
      ensures alias.NotStr? ==> err == Some(TypeError) && aliases == old(aliases)
      ensures alias.Str? && alias.s !in old(aliases) ==> err == Some(ValueError(alias.s)) && aliases == old(aliases)
      ensures alias.Str? && alias.s in old(aliases) ==> err.None? && aliases == RemoveFirst(old(aliases), alias.s)
    {
      if alias.NotStr? {
        return Some(TypeError);
      }
      var a := alias.s;
      var i := 0;
      while i < |aliases| && aliases[i] != a
        invariant 0 <= i <= |aliases|
        invariant a !in aliases[..i]
      {
        assert aliases[..i + 1] == aliases[..i] + [aliases[i]];
        i := i + 1;
      }
      if i == |aliases| {
        assert aliases[..i] == aliases;
        return Some(ValueError(a));
      }
      IndexOfFirst(aliases, a, i);
      aliases := aliases[..i] + aliases[i + 1..];
      err := None;
    }
  }

  /** are_these: the flag loops over names and aliases of both. */
  method AreThese(n1: AliasName, n2: AliasName) returns (overlap: bool)
    ensures overlap <==> Overlap(n1.name, n1.aliases, n2.name, n2.aliases)
  {
    overlap := false;
    if n1.name == n2.name {
      overlap := true;
    }
    for i := 0 to |n1.aliases|
      invariant overlap <==> n1.name == n2.name || n2.name in n1.aliases[..i]
    {
      if n1.aliases[i] == n2.name {
        overlap := true;
      }
      assert n1.aliases[..i + 1] == n1.aliases[..i] + [n1.aliases[i]];
    }
    assert n1.aliases[..|n1.aliases|] == n1.aliases;
    for i := 0 to |n2.aliases|
      invariant overlap <==> n1.name == n2.name || n2.name in n1.aliases || n1.name in n2.aliases[..i]
    {
      if n2.aliases[i] == n1.name {
        overlap := true;
      }
      assert n2.aliases[..i + 1] == n2.aliases[..i] + [n2.aliases[i]];
    }
    assert n2.aliases[..|n2.aliases|] == n2.aliases;
    for i := 0 to |n1.aliases|
      invariant overlap <==> (|| n1.name == n2.name || n2.name in n1.aliases || n1.name in n2.aliases
                              || exists a :: a in n1.aliases[..i] && a in n2.aliases)
    {
      for j := 0 to |n2.aliases|
        invariant overlap <==> (|| n1.name == n2.name || n2.name in n1.aliases || n1.name in n2.aliases
                                || (exists a :: a in n1.aliases[..i] && a in n2.aliases)
                                || n1.aliases[i] in n2.aliases[..j])
      {
        if n1.aliases[i] == n2.aliases[j] {
          overlap := true;
        }
        assert n2.aliases[..j + 1] == n2.aliases[..j] + [n2.aliases[j]];
      }
      assert n2.aliases[..|n2.aliases|] == n2.aliases;
      assert n1.aliases[..i + 1] == n1.aliases[..i] + [n1.aliases[i]];
    }
    assert n1.aliases[..|n1.aliases|] == n1.aliases;
  }
}
