/**
 * `URL.parseQuery`: a search such as `uid=100&name=shenli` read into a
 * mapping from key to value, where a value is a string, `true` (a group
 * without `=`) or an array of those (a repeated key).
 */
module Query {
  import opened Js
  import opened Strings

  /** One value given for a key: decoded text, or `true` for a group without `=`. */
  datatype Scalar = Text(text: string) | True

  /** A query entry: a single value, or the array a repeated key builds. */
  datatype QueryValue = One(value: Scalar) | Many(items: seq<Scalar>)

  type Query = map<string, QueryValue>

  /** What `parseQuery` gives back: a query, `undefined`, or the `URIError` a decode throws. */
  datatype Outcome = Parsed(query: Query) | Undefined | Malformed

  /** A decoded group. */
  datatype Group = Group(key: string, value: Scalar)

  /** The values an entry holds, in order (`[].concat(v)`). */
  function Items(v: QueryValue): seq<Scalar>
  {
    match v
    case One(x) => [x]
    case Many(xs) => xs
  }

  /**
   * One decoded group merged into the query: a new key is stored with its
   * value; a key already holding `true` keeps it; otherwise the new value
   * is appended, turning the entry into an array.
   */
  function Merge(q: Query, key: string, value: Scalar): (r: Query)
    ensures r.Keys == q.Keys + {key}
    ensures forall k :: k in q && k != key ==> r[k] == q[k]
    ensures key !in q ==> r[key] == One(value)
    ensures key in q && q[key] == One(True) ==> r == q
    ensures key in q && q[key] != One(True) ==> r[key].Many? && r[key].items == Items(q[key]) + [value]
  {
    if key !in q then q[key := One(value)]
    else if q[key] == One(True) then q
    else q[key := Many(Items(q[key]) + [value])]
  }

  /**
   * A non-empty group decoded: it is cut at its first `=`, the key is the
   * decoded text before it and the value the decoded text after it, or
   * `true` when there is no `=`. `None` when `decode` throws.
   */
  function DecodeGroup(item: string, decode: string -> Option<string>): (g: Option<Group>)
    ensures g.Some? ==> decode(CutAt(item, '=').before) == Some(g.value.key)
    ensures g.Some? ==> (g.value.value == True <==> '=' !in item)
    ensures g.Some? && '=' in item ==> decode(CutAt(item, '=').after.value) == Some(g.value.value.text)
    ensures g.None? <==> decode(CutAt(item, '=').before).None?
                         || ('=' in item && decode(CutAt(item, '=').after.value).None?)
  {
    var cut := CutAt(item, '=');
    match decode(cut.before)
    case None => None
    case Some(key) =>
      match cut.after
      case None => Some(Group(key, True))
      case Some(raw) =>
        match decode(raw)
        case None => None
        case Some(v) => Some(Group(key, Text(v)))
  }

  // ---------------------------------------------------------------------
  // As written: the `return` inside the loop
  // ---------------------------------------------------------------------

  /**
   * `parseQuery` as written: the `return` inside the loop ends it after the
   * first non-empty group, and a search whose groups are all empty falls off
   * the end of the loop and gives `undefined`.
   */
  function FirstGroupOnly(groups: seq<string>, decode: string -> Option<string>): (r: Outcome)
    ensures r.Undefined? <==> forall k :: 0 <= k < |groups| ==> groups[k] == ""
    ensures r.Parsed? ==> |r.query| == 1
    decreases |groups|
  {
    if groups == [] then Outcome.Undefined
    else if groups[0] == "" then
      var r := FirstGroupOnly(groups[1..], decode);
      assert forall k :: 1 <= k < |groups| ==> groups[k] == groups[1..][k - 1];
      r
    else
      match DecodeGroup(groups[0], decode)
      case None => Malformed
      case Some(g) =>
        assert map[g.key := One(g.value)].Keys == {g.key};
        Parsed(map[g.key := One(g.value)])
  }

  /**
   * The first non-empty group decides what the as-written parser returns:
   * its key, the only one, or `URIError` when it fails to decode.
   */
  lemma {:induction false} FirstGroupOnlyKey(groups: seq<string>, decode: string -> Option<string>, i: nat)
    requires i < |groups| && groups[i] != ""
    requires forall k :: 0 <= k < i ==> groups[k] == ""
    ensures DecodeGroup(groups[i], decode).None? ==> FirstGroupOnly(groups, decode) == Malformed
    ensures DecodeGroup(groups[i], decode).Some? ==>
            FirstGroupOnly(groups, decode)
            == Parsed(map[DecodeGroup(groups[i], decode).value.key := One(DecodeGroup(groups[i], decode).value.value)])
    decreases i
  {
    if i > 0 {
      assert groups[0] == "";
      FirstGroupOnlyKey(groups[1..], decode, i - 1);
    }
  }

  /** `URL.parseQuery` as written (URL.js:100-135), loop and early `return` included. */
  method ParseQueryAsWritten(search: string, decode: string -> Option<string>) returns (r: Outcome)
    ensures r == FirstGroupOnly(Split(search, '&'), decode)
  {
    var groups := Split(search, '&');
    var query: Query := map[];
    var i := 0;
    while i < |groups|
      invariant 0 <= i <= |groups|
      invariant FirstGroupOnly(groups[i..], decode) == FirstGroupOnly(groups, decode)
    {
      var item := groups[i];
      if item == "" {
        assert groups[i..][1..] == groups[i + 1..];
        i := i + 1;
        continue;
      }
      var g := DecodeGroup(item, decode);
      if g.None? {
        return Malformed;
      }
      query := Merge(query, g.value.key, g.value.value);
      assert query == map[g.value.key := One(g.value.value)];
      return Parsed(query);
    }
    return Outcome.Undefined;
  }

  // ---------------------------------------------------------------------
  // As intended: every group is parsed
  // ---------------------------------------------------------------------

  /** The non-empty groups decoded in order; `None` when some decode throws. */
  function DecodeAll(groups: seq<string>, decode: string -> Option<string>): (r: Option<seq<Group>>)
    ensures r.Some? ==> |r.value| <= |groups|
    decreases |groups|
  {
    if groups == [] then Some([])
    else
      match DecodeAll(groups[..|groups| - 1], decode)
      case None => None
      case Some(prev) =>
        var last := groups[|groups| - 1];
        if last == "" then Some(prev)
        else
          match DecodeGroup(last, decode)
          case None => None
          case Some(g) => Some(prev + [g])
  }

  /** Once a decode has thrown, the rest of the groups cannot undo it. */
  lemma {:induction false} DecodeAllFails(groups: seq<string>, decode: string -> Option<string>)
    ensures DecodeAll(groups, decode).None? <==>
            exists i :: 0 <= i < |groups| && groups[i] != "" && DecodeGroup(groups[i], decode).None?
    decreases |groups|
  {
    if groups != [] {
      var init := groups[..|groups| - 1];
      DecodeAllFails(init, decode);
      assert forall i :: 0 <= i < |init| ==> init[i] == groups[i];
    }
  }

  /** Once a group fails to decode, the groups after it cannot undo that. */
  lemma {:induction false} DecodeAllStaysMalformed(groups: seq<string>, decode: string -> Option<string>, i: nat)
    requires i <= |groups| && DecodeAll(groups[..i], decode).None?
    ensures DecodeAll(groups, decode).None?
    decreases |groups| - i
  {
    if i < |groups| {
      assert groups[..i + 1][..i] == groups[..i];
      DecodeAllStaysMalformed(groups, decode, i + 1);
    } else {
      assert groups[..i] == groups;
    }
  }

  /** The groups merged one after another into an empty query. */
  function Fold(gs: seq<Group>): Query
  {
    if gs == [] then map[]
    else Merge(Fold(gs[..|gs| - 1]), gs[|gs| - 1].key, gs[|gs| - 1].value)
  }

  /** `parseQuery` as evidently intended: every group is merged; it is never `undefined`. */
  function ParseAll(search: string, decode: string -> Option<string>): (r: Outcome)
    ensures !r.Undefined?
  {
    match DecodeAll(Split(search, '&'), decode)
    case None => Malformed
    case Some(gs) => Parsed(Fold(gs))
  }

  /** The intended parse throws exactly when some non-empty group fails to decode. */
  lemma ParseAllFails(search: string, decode: string -> Option<string>)
    ensures ParseAll(search, decode).Malformed? ==>
              exists i :: 0 <= i < |Split(search, '&')| && Split(search, '&')[i] != ""
                          && DecodeGroup(Split(search, '&')[i], decode).None?
    ensures forall i :: (0 <= i < |Split(search, '&')| && Split(search, '&')[i] != ""
                         && DecodeGroup(Split(search, '&')[i], decode).None?)
                        ==> ParseAll(search, decode).Malformed?
  {
    var groups := Split(search, '&');
    DecodeAllFails(groups, decode);
    forall i | 0 <= i < |groups| && groups[i] != "" && DecodeGroup(groups[i], decode).None?
      ensures ParseAll(search, decode).Malformed?
    {
      assert DecodeAll(groups, decode).None?;
    }
  }

  /** One more group: skipped when empty, else decoded and appended, or the decode fails. */
  lemma DecodeAllNext(groups: seq<string>, decode: string -> Option<string>, i: nat)
    requires i < |groups| && DecodeAll(groups[..i], decode).Some?
    ensures groups[i] == "" ==> DecodeAll(groups[..i + 1], decode) == DecodeAll(groups[..i], decode)
    ensures groups[i] != "" && DecodeGroup(groups[i], decode).None? ==> DecodeAll(groups[..i + 1], decode).None?
    ensures groups[i] != "" && DecodeGroup(groups[i], decode).Some? ==>
              DecodeAll(groups[..i + 1], decode)
              == Some(DecodeAll(groups[..i], decode).value + [DecodeGroup(groups[i], decode).value])
  {
    assert groups[..i + 1][..i] == groups[..i];
  }

  /** Merging one more group into the fold. */
  lemma FoldNext(gs: seq<Group>, g: Group)
    ensures Fold(gs + [g]) == Merge(Fold(gs), g.key, g.value)
  {
    assert (gs + [g])[..|gs|] == gs;
  }

  /** `URL.parseQuery` with the `return` after the loop: every group is parsed. */
  method ParseQuery(search: string, decode: string -> Option<string>) returns (r: Outcome)
    ensures r == ParseAll(search, decode)
  {
    var groups := Split(search, '&');
    var query: Query := map[];
    ghost var done: seq<Group> := [];
    var i := 0;
    while i < |groups|
      invariant 0 <= i <= |groups|
      invariant DecodeAll(groups[..i], decode) == Some(done)
      invariant query == Fold(done)
    {
      var item := groups[i];
      DecodeAllNext(groups, decode, i);
      if item != "" {
        var g := DecodeGroup(item, decode);
        if g.None? {
          DecodeAllStaysMalformed(groups, decode, i + 1);
          return Malformed;
        }
        FoldNext(done, g.value);
        query := Merge(query, g.value.key, g.value.value);
        done := done + [g.value];
      }
      i := i + 1;
    }
    assert groups[..i] == groups;
    return Parsed(query);
  }

  /** The values the groups give for `key`, in order. */
  function ValuesOf(gs: seq<Group>, key: string): seq<Scalar>
  {
    if gs == [] then []
    else ValuesOf(gs[..|gs| - 1], key) + (if gs[|gs| - 1].key == key then [gs[|gs| - 1].value] else [])
  }

  /**
   * What merging every group builds: a key is present exactly when some
   * group gives it; if its first value is `true` the entry stays `true`,
   * otherwise the entry holds every value given for it, in order, as a
   * single value when there is one and as an array when there are more.
   */
  lemma {:induction false} FoldCollects(gs: seq<Group>, key: string)
    ensures key in Fold(gs) <==> ValuesOf(gs, key) != []
    ensures key in Fold(gs) && ValuesOf(gs, key)[0] == True ==> Fold(gs)[key] == One(True)
    ensures key in Fold(gs) && ValuesOf(gs, key)[0] != True ==> Items(Fold(gs)[key]) == ValuesOf(gs, key)
    ensures key in Fold(gs) && ValuesOf(gs, key)[0] != True ==> (Fold(gs)[key].One? <==> |ValuesOf(gs, key)| == 1)
    decreases |gs|
  {
    if gs != [] {
      var prefix := gs[..|gs| - 1];
      FoldCollects(prefix, key);
    }
  }

  // ---------------------------------------------------------------------
  // The two side by side
  // ---------------------------------------------------------------------

  /** The identity decoding, for inputs without escapes. */
  function Plain(s: string): Option<string> { Some(s) }

  /** A search of two groups splits into exactly those two groups. */
  lemma SplitTwo(a: string, b: string, c: char)
    requires c !in a && c !in b
    ensures Split(a + [c] + b, c) == [a, b]
  {
    CutAtUnique(a + [c] + b, c, a, b);
  }

  /** A `k=v` group with no escapes to decode. */
  lemma PlainPair(k: string, v: string)
    requires '=' !in k
    ensures DecodeGroup(k + "=" + v, Plain) == Some(Group(k, Text(v)))
  {
    CutAtUnique(k + "=" + v, '=', k, v);
  }

  /** Two non-empty groups that decode are both kept, in order. */
  lemma DecodeAllPair(a: string, b: string, decode: string -> Option<string>)
    requires a != "" && b != ""
    requires DecodeGroup(a, decode).Some? && DecodeGroup(b, decode).Some?
    ensures DecodeAll([a, b], decode) == Some([DecodeGroup(a, decode).value, DecodeGroup(b, decode).value])
  {
    var ga, gb := DecodeGroup(a, decode).value, DecodeGroup(b, decode).value;
    var one, two := [a], [a, b];
    assert one[..|one| - 1] == [];
    assert [] + [ga] == [ga];
    assert DecodeAll(one, decode) == Some([ga]);
    assert two[..|two| - 1] == one;
    assert [ga] + [gb] == [ga, gb];
  }

  /** Two groups merged into an empty query. */
  lemma FoldPair(g1: Group, g2: Group)
    ensures Fold([g1, g2]) == Merge(map[g1.key := One(g1.value)], g2.key, g2.value)
  {
    assert [g1, g2][..|[g1, g2]| - 1] == [g1];
    assert [g1][..|[g1]| - 1] == [];
    assert Fold([g1]) == Merge(map[], g1.key, g1.value) == map[g1.key := One(g1.value)];
  }

  /** Two non-empty groups without escapes, parsed by both parsers. */
  lemma {:induction false} TwoPlainPairs(k1: string, v1: string, k2: string, v2: string)
    requires '=' !in k1 && '=' !in k2 && '&' !in k1 + "=" + v1 && '&' !in k2 + "=" + v2
    ensures FirstGroupOnly(Split(k1 + "=" + v1 + "&" + k2 + "=" + v2, '&'), Plain)
            == Parsed(map[k1 := One(Text(v1))])
    ensures ParseAll(k1 + "=" + v1 + "&" + k2 + "=" + v2, Plain)
            == Parsed(Merge(map[k1 := One(Text(v1))], k2, Text(v2)))
  {
    var g1, g2 := k1 + "=" + v1, k2 + "=" + v2;
    assert k1 + "=" + v1 + "&" + k2 + "=" + v2 == g1 + ['&'] + g2;
    SplitTwo(g1, g2, '&');
    PlainPair(k1, v1);
    PlainPair(k2, v2);
    assert g1[|k1|] == '=' && g2[|k2|] == '=';
    DecodeAllPair(g1, g2, Plain);
    FoldPair(Group(k1, Text(v1)), Group(k2, Text(v2)));
  }

  /** On `x=1&y=2` the parser as written drops `y`; the intended one keeps both keys. */
  lemma SecondGroupDropped()
    ensures FirstGroupOnly(Split("x=1&y=2", '&'), Plain) == Parsed(map["x" := One(Text("1"))])
    ensures ParseAll("x=1&y=2", Plain) == Parsed(map["x" := One(Text("1")), "y" := One(Text("2"))])
  {
    assert "x=1&y=2" == "x" + "=" + "1" + "&" + "y" + "=" + "2";
    TwoPlainPairs("x", "1", "y", "2");
  }

  /** A second text value for a key turns its entry into a two-element array. */
  lemma SecondValueMakesArray(k: string, a: string, b: string)
    ensures Merge(map[k := One(Text(a))], k, Text(b)) == map[k := Many([Text(a), Text(b)])]
  {
    var q := map[k := One(Text(a))];
    assert Items(q[k]) + [Text(b)] == [Text(a), Text(b)];
  }

  /** A repeated key collects its values into an array: `x=1&x=2` gives `x: ["1", "2"]`. */
  lemma RepeatedKeyBuildsArray()
    ensures ParseAll("x=1&x=2", Plain) == Parsed(map["x" := Many([Text("1"), Text("2")])])
  {
    SecondValueMakesArray("x", "1", "2");
    assert "x=1&x=2" == "x" + "=" + "1" + "&" + "x" + "=" + "2";
    TwoPlainPairs("x", "1", "x", "2");
  }
}
