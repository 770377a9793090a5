/** The two pure helpers of the HTTP layer (src/falc/FalconResources.py):
    parsing a URL query string into request arguments and mapping the
    controller's return numbers to HTTP statuses. */
module Resources {
  import opened Text

  // ---------------------------------------------------------------- num_to_status

  /** The falcon status constants the resources answer with. */
  datatype Status = Http200 | Http201 | Http204 | Http400 | Http404 | Http500

  /** The numeric code of a status line. */
  function Code(s: Status): int
  {
    match s
    case Http200 => 200
    case Http201 => 201
    case Http204 => 204
    case Http400 => 400
    case Http404 => 404
    case Http500 => 500
  }

  /** num_to_status: the status whose code is the return number, or 500 for
      a number no status has. */
  function NumToStatus(retno: int): (s: Status)
    ensures Code(s) == retno <==> retno in [200, 201, 204, 400, 404, 500]
    ensures Code(s) != retno ==> s == Http500
  {
    if retno == 200 then Http200
    else if retno == 201 then Http201
    else if retno == 204 then Http204
    else if retno == 400 then Http400
    else if retno == 404 then Http404
    else Http500
  }

  /** Code and num_to_status are inverse on the statuses. */
  lemma StatusRoundTrip(s: Status)
    ensures NumToStatus(Code(s)) == s
  {
  }

  // ---------------------------------------------------------------- qstr_to_args

  /** The `=`-split of every `&`-separated segment. */
  function Segments(qs: string): (r: seq<seq<string>>)
    ensures |r| == |Split(qs, '&')| && forall i :: 0 <= i < |r| ==> r[i] == Split(Split(qs, '&')[i], '=')
  {
    var bare := Split(qs, '&');
    seq(|bare|, i requires 0 <= i < |bare| => Split(bare[i], '='))
  }

  /** The args dict the second loop builds from the split segments, later
      keys overwriting earlier ones; an IndexError when a segment has no
      value (no `=`). */
  function ArgsOf(ps: seq<seq<string>>): (r: Result<map<string, string>, string>)
    ensures r.Err? ==> r.error == "IndexError"
    decreases |ps|
  {
    if |ps| == 0 then Ok(map[])
    else
      var pre := ArgsOf(ps[..|ps| - 1]);
      var p := ps[|ps| - 1];
      if pre.Err? then pre
      else if |p| < 2 then Err("IndexError")
      else Ok(pre.value[p[0] := p[1]])
  }

  /** qstr_to_args as a value. */
  function Parse(qs: string): Result<map<string, string>, string>
  {
    ArgsOf(Segments(qs))
  }

  /** The args fail exactly when some segment has no `=`; otherwise their
      keys are the segment keys and each maps to the value of the last
      segment with that key. */
  lemma {:induction false} ArgsOfSpec(ps: seq<seq<string>>)
    ensures ArgsOf(ps).Err? <==> exists i :: 0 <= i < |ps| && |ps[i]| < 2
    ensures ArgsOf(ps).Ok? ==> forall k :: k in ArgsOf(ps).value <==> exists i :: 0 <= i < |ps| && ps[i][0] == k
    ensures ArgsOf(ps).Ok? ==>
      forall i :: 0 <= i < |ps| && (forall j :: i < j < |ps| ==> ps[j][0] != ps[i][0]) ==> ArgsOf(ps).value[ps[i][0]] == ps[i][1]
    decreases |ps|
  {
    if |ps| > 0 {
      var n := |ps| - 1;
      var pre := ps[..n];
      ArgsOfSpec(pre);
      assert forall i :: 0 <= i < n ==> pre[i] == ps[i];
      if ArgsOf(ps).Err? {
        if ArgsOf(pre).Err? {
          var i :| 0 <= i < n && |pre[i]| < 2;
          assert |ps[i]| < 2;
        } else {
          assert |ps[n]| < 2;
        }
      }
    }
  }

  /** An empty query string is one segment without `=`: it cannot be parsed,
      which is why the resources test for it before parsing. */
  lemma EmptyQueryFails()
    ensures Parse("").Err?
  {
    assert Split("", '&') == [""];
    assert Split("", '=') == [""];
    assert Segments("")[0] == [""];
    ArgsOfSpec(Segments(""));
  }

  /** qstr_to_args: split on `&`, split each segment on `=`, then store
      `args[p[0]] = p[1]` for every pair in order. */
  method QstrToArgs(qs: string) returns (r: Result<map<string, string>, string>)
    ensures r == Parse(qs)
  {
    var bare := Split(qs, '&');
    ghost var segs := Segments(qs);
    var pairs: seq<seq<string>> := [];
    var i := 0;
    while i < |bare|
      invariant 0 <= i <= |bare| && pairs == segs[..i]
    {
      pairs := pairs + [Split(bare[i], '=')];
      i := i + 1;
    }
    assert pairs == segs;
    var args: map<string, string> := map[];
    var j := 0;
    while j < |pairs|
      invariant 0 <= j <= |pairs| && ArgsOf(pairs[..j]) == Ok(args)
    {
      assert pairs[..j + 1][..j] == pairs[..j];
      if |pairs[j]| < 2 {
        ArgsOfSpec(pairs);
        assert 0 <= j < |pairs| && |pairs[j]| < 2;
        return Err("IndexError");
      }
      args := args[pairs[j][0] := pairs[j][1]];
      j := j + 1;
    }
    assert pairs[..|pairs|] == pairs;
    r := Ok(args);
  }

  // ---------------------------------------------------------------- round trip

  /** A query string `k1=v1&k2=v2...` for key/value pairs. */
  function Encode(kvs: seq<(string, string)>): string
  {
    JoinSep(seq(|kvs|, i requires 0 <= i < |kvs| => kvs[i].0 + "=" + kvs[i].1), "&")
  }

  /** Neither `&` nor `=` occurs in the text. */
  predicate Plain(s: string)
  {
    '&' !in s && '=' !in s
  }

  lemma SplitCons(a: string, b: string, c: char)
    requires c !in a
    ensures Split(a + [c] + b, c) == [a] + Split(b, c)
  {
    var s := a + [c] + b;
    assert s[|a|] == c && s[..|a|] == a;
    IndexOfFirst(s, c, |a|);
    assert s[|a| + 1..] == b;
  }

  /** Splitting a join of separator-free items gives the items back. */
  lemma {:induction false} SplitJoinSep(xs: seq<string>, c: char)
    requires |xs| >= 1 && forall k :: 0 <= k < |xs| ==> c !in xs[k]
    ensures Split(JoinSep(xs, [c]), c) == xs
    decreases |xs|
  {
    if |xs| == 1 {
      assert JoinSep(xs, [c]) == xs[0];
    } else {
      var rest := JoinSep(xs[1..], [c]);
      assert JoinSep(xs, [c]) == xs[0] + [c] + rest;
      SplitJoinSep(xs[1..], c);
      SplitCons(xs[0], rest, c);
      assert xs == [xs[0]] + xs[1..];
    }
  }

  /** The segments of an encoded query string are its key/value pairs. */
  lemma EncodeSegments(kvs: seq<(string, string)>)
    requires |kvs| >= 1 && forall i :: 0 <= i < |kvs| ==> Plain(kvs[i].0) && Plain(kvs[i].1)
    ensures |Segments(Encode(kvs))| == |kvs|
    ensures forall i :: 0 <= i < |kvs| ==> Segments(Encode(kvs))[i] == [kvs[i].0, kvs[i].1]
  {
    var items := seq(|kvs|, i requires 0 <= i < |kvs| => kvs[i].0 + "=" + kvs[i].1);
    forall k | 0 <= k < |items|
      ensures '&' !in items[k]
    {
      assert items[k] == kvs[k].0 + "=" + kvs[k].1;
    }
    SplitJoinSep(items, '&');
    forall i | 0 <= i < |kvs|
      ensures Split(items[i], '=') == [kvs[i].0, kvs[i].1]
    {
      SplitCons(kvs[i].0, kvs[i].1, '=');
      assert Split(kvs[i].1, '=') == [kvs[i].1];
    }
  }

  /** Parsing an encoded query string gives back every key, each with the
      value of its last occurrence. */
  lemma ParseEncode(kvs: seq<(string, string)>)
    requires |kvs| >= 1 && forall i :: 0 <= i < |kvs| ==> Plain(kvs[i].0) && Plain(kvs[i].1)
    ensures Parse(Encode(kvs)).Ok?
    ensures forall k :: k in Parse(Encode(kvs)).value <==> exists i :: 0 <= i < |kvs| && kvs[i].0 == k
    ensures forall i :: 0 <= i < |kvs| && (forall j :: i < j < |kvs| ==> kvs[j].0 != kvs[i].0) ==>
      Parse(Encode(kvs)).value[kvs[i].0] == kvs[i].1
  {
    var ps := Segments(Encode(kvs));
    EncodeSegments(kvs);
    ArgsOfSpec(ps);
    assert forall i :: 0 <= i < |ps| ==> |ps[i]| == 2 && ps[i][0] == kvs[i].0;
  }

  /** A text without `&` is a single segment. */
  lemma OneSegment(s: string)
    requires '&' !in s
    ensures Segments(s) == [Split(s, '=')]
  {
    assert Split(s, '&') == [s];
  }

  /** The first two `=`-pieces of `k=v=w`. */
  lemma TwoPieces(k: string, v: string, w: string)
    requires Plain(k) && Plain(v)
    ensures var p := Split(k + "=" + v + "=" + w, '=');
      |p| >= 2 && p[0] == k && p[1] == v
  {
    var rest := v + "=" + w;
    assert k + "=" + v + "=" + w == k + ['='] + rest;
    assert rest == v + ['='] + w;
    SplitCons(k, rest, '=');
    SplitCons(v, w, '=');
  }

  /** A segment with more than one `=` keeps only the text between the
      first and the second as its value; the rest is dropped. */
  lemma ParseDropsExtraValue(k: string, v: string, w: string)
    requires Plain(k) && Plain(v) && '&' !in w
    ensures Parse(k + "=" + v + "=" + w) == Ok(map[k := v])
  {
    var s := k + "=" + v + "=" + w;
    assert forall i :: 0 <= i < |s| ==> s[i] != '&';
    OneSegment(s);
    TwoPieces(k, v, w);
    var ps := Segments(s);
    var p := Split(s, '=');
    assert ps == [p] && ps[..0] == [];
    assert ArgsOf(ps) == Ok(map[][p[0] := p[1]]);
  }
}
