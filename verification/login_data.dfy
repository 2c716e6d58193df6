/**
  The reshaping `login` applies to the backend's tag-grouped bookmark list
  (src/services/api.js:49-80): a flat list of bookmark entries, a count per
  tag, the tags in first-seen order, and the persisted aggregate.
 */
module LoginData {
  import opened Text
  import opened Values

  /** A group contributes when its `tag` is truthy and its `bookmarks` is an array. */
  predicate Qualifies(g: Value) {
    Truthy(Get(g, "tag")) && Get(g, "bookmarks").Arr?
  }

  function Members(g: Value): seq<Value>
    requires Qualifies(g)
  {
    Get(g, "bookmarks").items
  }

  /** The property key `tagCounts[g.tag]` writes: the tag's string form. */
  function TagKey(g: Value): string {
    ToText(Get(g, "tag"))
  }

  /** The flat entry for one bookmark; its tag is the bookmark's own, not the group's. */
  function Entry(b: Value): (e: Value)
    ensures Get(e, "url") == Get(b, "url")
    ensures Get(e, "tag") == Get(b, "tag")
    ensures Get(e, "click_count") == Get(b, "click_count")
    ensures Get(e, "created_at") == Get(b, "created_at")
    ensures e.Obj? && e.fields.Keys == {"url", "tag", "click_count", "created_at"}
  {
    Obj(map["url" := Get(b, "url"), "tag" := Get(b, "tag"),
            "click_count" := Get(b, "click_count"), "created_at" := Get(b, "created_at")])
  }

  function Entries(bs: seq<Value>): (es: seq<Value>)
    ensures |es| == |bs|
    ensures forall i :: 0 <= i < |bs| ==> es[i] == Entry(bs[i])
  {
    seq(|bs|, i requires 0 <= i < |bs| => Entry(bs[i]))
  }

  /** What one group adds to the flat list. */
  function Contribution(g: Value): seq<Value> {
    if Qualifies(g) then Entries(Members(g)) else []
  }

  /** The concatenation of `f` over `xs`, built element by element in order. */
  function FlatMap<T, U>(xs: seq<T>, f: T -> seq<U>): seq<U> {
    if xs == [] then [] else FlatMap(xs[..|xs| - 1], f) + f(xs[|xs| - 1])
  }

  /** The flat list, built group by group in order. */
  function Flat(gs: seq<Value>): seq<Value> {
    FlatMap(gs, Contribution)
  }

  /** The one key an assignment to a plain object does not create: writing a
      number to `__proto__` goes to the prototype setter, which ignores it. */
  const ProtoKey := "__proto__"

  /** A group whose count lands in `tagCounts`. */
  predicate Counted(g: Value) {
    Qualifies(g) && TagKey(g) != ProtoKey
  }

  /** The tag counts after processing the groups in order. */
  function Counts(gs: seq<Value>): map<string, nat> {
    if gs == [] then map[]
    else
      var m := Counts(gs[..|gs| - 1]);
      var g := gs[|gs| - 1];
      if Counted(g) then m[TagKey(g) := |Members(g)|] else m
  }

  /** The keys of the counts object in insertion order (`Object.keys(tagCounts)`). */
  function TagOrder(gs: seq<Value>): seq<string> {
    if gs == [] then []
    else
      var ks := TagOrder(gs[..|gs| - 1]);
      var g := gs[|gs| - 1];
      if Counted(g) && TagKey(g) !in ks then ks + [TagKey(g)] else ks
  }

  /** Some step of the two nested `forEach` loops reads a property of null or undefined. */
  predicate Crashes(gs: seq<Value>) {
    exists i :: 0 <= i < |gs| && GroupCrashes(gs[i])
  }

  predicate GroupCrashes(g: Value) {
    Nullish(g) || (Qualifies(g) && exists j :: 0 <= j < |Members(g)| && Nullish(Members(g)[j]))
  }

  /** The number of bookmarks of qualifying groups. */
  function Total(gs: seq<Value>): nat {
    if gs == [] then 0
    else Total(gs[..|gs| - 1]) + (if Qualifies(gs[|gs| - 1]) then |Members(gs[|gs| - 1])| else 0)
  }

  // ---------------------------------------------------------------------------
  // The flat list

  /** Concatenating over a concatenation is concatenating the two results. */
  lemma {:induction false} FlatMapAppend<T, U>(a: seq<T>, b: seq<T>, f: T -> seq<U>)
    ensures FlatMap(a + b, f) == FlatMap(a, f) + FlatMap(b, f)
    decreases |b|
  {
    if b == [] {
      assert a + b == a;
    } else {
      var b' := b[..|b| - 1];
      var ab := a + b;
      assert ab[..|ab| - 1] == a + b';
      assert ab[|ab| - 1] == b[|b| - 1];
      FlatMapAppend(a, b', f);
    }
  }

  /** Flattening distributes over concatenation of group lists. */
  lemma FlatAppend(a: seq<Value>, b: seq<Value>)
    ensures Flat(a + b) == Flat(a) + Flat(b)
  {
    FlatMapAppend(a, b, Contribution);
  }

  /** A group without a truthy tag or without an array of bookmarks is skipped. */
  lemma SkipsNonQualifying(a: seq<Value>, g: Value, b: seq<Value>)
    requires !Qualifies(g)
    ensures Flat(a + [g] + b) == Flat(a + b)
  {
    FlatAppend(a + [g], b);
    FlatAppend(a, [g]);
    assert Flat([g]) == [] by {
      assert [g][..0] == [];
    }
    FlatAppend(a, b);
  }

  /** A single qualifying group contributes exactly its bookmarks' entries, in order. */
  lemma SingleGroup(g: Value)
    requires Qualifies(g)
    ensures Flat([g]) == Entries(Members(g))
  {
    assert [g][..0] == [];
    assert Flat([g]) == FlatMap([], Contribution) + Contribution(g);
  }

  /** The flat list has one entry per bookmark of a qualifying group. */
  lemma {:induction false} FlatLength(gs: seq<Value>)
    ensures |Flat(gs)| == Total(gs)
  {
    if gs != [] {
      FlatLength(gs[..|gs| - 1]);
    }
  }

  /** Every bookmark of every qualifying group appears in the flat list, and
      every entry of the flat list comes from such a bookmark. */
  lemma {:induction false} FlatMembership(gs: seq<Value>)
    ensures forall i, k :: 0 <= i < |gs| && Qualifies(gs[i]) && 0 <= k < |Members(gs[i])| ==>
      Entry(Members(gs[i])[k]) in Flat(gs)
    ensures forall e :: e in Flat(gs) ==>
      exists i, k :: 0 <= i < |gs| && Qualifies(gs[i]) && 0 <= k < |Members(gs[i])| && e == Entry(Members(gs[i])[k])
  {
    if gs != [] {
      var p := gs[..|gs| - 1];
      var g := gs[|gs| - 1];
      FlatMembership(p);
      assert Flat(gs) == Flat(p) + Contribution(g);
      forall i, k | 0 <= i < |gs| && Qualifies(gs[i]) && 0 <= k < |Members(gs[i])|
        ensures Entry(Members(gs[i])[k]) in Flat(gs)
      {
        if i < |gs| - 1 {
          assert gs[i] == p[i];
          assert Entry(Members(p[i])[k]) in Flat(p);
        } else {
          assert Contribution(g)[k] == Entry(Members(gs[i])[k]);
        }
      }
      forall e | e in Flat(gs)
        ensures exists i, k :: 0 <= i < |gs| && Qualifies(gs[i]) && 0 <= k < |Members(gs[i])| && e == Entry(Members(gs[i])[k])
      {
        if e in Flat(p) {
          var i, k :| 0 <= i < |p| && Qualifies(p[i]) && 0 <= k < |Members(p[i])| && e == Entry(Members(p[i])[k]);
          assert gs[i] == p[i];
        } else {
          assert e in Contribution(g);
          var k :| 0 <= k < |Contribution(g)| && Contribution(g)[k] == e;
          assert Qualifies(gs[|gs| - 1]);
        }
      }
    }
  }

  // ---------------------------------------------------------------------------
  // The tag counts

  /** A tag is counted exactly when it is not `__proto__` and some qualifying
      group carries it. */
  lemma {:induction false} CountsDomain(gs: seq<Value>, key: string)
    ensures key in Counts(gs) <==> key != ProtoKey && exists i :: 0 <= i < |gs| && Qualifies(gs[i]) && TagKey(gs[i]) == key
  {
    if gs != [] {
      var p := gs[..|gs| - 1];
      CountsDomain(p, key);
      if key in Counts(p) {
        var i :| 0 <= i < |p| && Qualifies(p[i]) && TagKey(p[i]) == key;
        assert gs[i] == p[i];
      }
      if exists i :: 0 <= i < |gs| && Qualifies(gs[i]) && TagKey(gs[i]) == key {
        var i :| 0 <= i < |gs| && Qualifies(gs[i]) && TagKey(gs[i]) == key;
        if i < |gs| - 1 {
          assert p[i] == gs[i];
        }
      }
    }
  }

  /** The count of a tag is the size of the LAST qualifying group with that tag:
      a later group for the same tag overwrites an earlier one. */
  lemma {:induction false} CountsLastWins(gs: seq<Value>, j: int)
    requires 0 <= j < |gs| && Counted(gs[j])
    requires forall i :: j < i < |gs| ==> !(Qualifies(gs[i]) && TagKey(gs[i]) == TagKey(gs[j]))
    ensures TagKey(gs[j]) in Counts(gs)
    ensures Counts(gs)[TagKey(gs[j])] == |Members(gs[j])|
  {
    if j < |gs| - 1 {
      var p := gs[..|gs| - 1];
      assert p[j] == gs[j];
      CountsLastWins(p, j);
    }
  }

  /** The tag list names each counted tag once, in the order first seen. */
  lemma {:induction false} TagOrderMatchesCounts(gs: seq<Value>)
    ensures forall k :: k in TagOrder(gs) <==> k in Counts(gs)
    ensures forall a, b :: 0 <= a < b < |TagOrder(gs)| ==> TagOrder(gs)[a] != TagOrder(gs)[b]
  {
    if gs != [] {
      TagOrderMatchesCounts(gs[..|gs| - 1]);
    }
  }

  // ---------------------------------------------------------------------------
  // The loops of the source

  /** The two nested `forEach` loops: the flat list, the counts and the key order,
      or `false` in `ok` when a step would read a property of null or undefined. */
  method FlattenGroups(gs: seq<Value>) returns (ok: bool, flat: seq<Value>, counts: map<string, nat>, keys: seq<string>)
    ensures ok <==> !Crashes(gs)
    ensures ok ==> flat == Flat(gs) && counts == Counts(gs) && keys == TagOrder(gs)
    ensures ok ==> |flat| == Total(gs)
  {
    flat, counts, keys := [], map[], [];
    var i := 0;
    while i < |gs|
      invariant 0 <= i <= |gs|
      invariant flat == Flat(gs[..i]) && counts == Counts(gs[..i]) && keys == TagOrder(gs[..i])
      invariant forall x :: 0 <= x < i ==> !GroupCrashes(gs[x])
    {
      var g := gs[i];
      if Nullish(g) {
        assert GroupCrashes(gs[i]);
        return false, flat, counts, keys;
      }
      assert gs[..i + 1][..i] == gs[..i];
      if Qualifies(g) {
        var key := TagKey(g);
        var ms := Members(g);
        if key != ProtoKey {
          counts := counts[key := |ms|];
          if key !in keys {
            keys := keys + [key];
          }
        }
        var j := 0;
        var added: seq<Value> := [];
        while j < |ms|
          invariant 0 <= j <= |ms|
          invariant added == Entries(ms[..j])
          invariant forall y :: 0 <= y < j ==> !Nullish(ms[y])
        {
          if Nullish(ms[j]) {
            assert GroupCrashes(gs[i]);
            return false, flat, counts, keys;
          }
          added := added + [Entry(ms[j])];
          j := j + 1;
        }
        assert ms[..j] == ms;
        flat := flat + added;
      }
      i := i + 1;
    }
    assert gs[..i] == gs;
    FlatLength(gs);
    return true, flat, counts, keys;
  }

  /** The counts as the object `tagCounts`. */
  function CountsObject(counts: map<string, nat>): (v: Value)
    ensures v.Obj? && v.fields.Keys == counts.Keys
    ensures forall k :: k in counts ==> v.fields[k] == Num(counts[k])
  {
    Obj(map k | k in counts :: Num(counts[k]))
  }

  /** The persisted `userData` aggregate. */
  function UserData(userInfo: Value, gs: seq<Value>): (v: Value)
    ensures Get(v, "user") == userInfo
    ensures Get(v, "bookmarks") == Array(Flat(gs))
    ensures Get(v, "tagCounts") == CountsObject(Counts(gs))
    ensures Get(v, "totalBookmarks") == Num(Total(gs))
    ensures Get(v, "tags") == Array(seq(|TagOrder(gs)|, i requires 0 <= i < |TagOrder(gs)| => Str(TagOrder(gs)[i])))
    ensures v.Obj? && v.fields.Keys == {"user", "bookmarks", "tags", "tagCounts", "totalBookmarks"}
  {
    FlatLength(gs);
    var tags := TagOrder(gs);
    Obj(map["user" := userInfo, "bookmarks" := Array(Flat(gs)),
            "tags" := Array(seq(|tags|, i requires 0 <= i < |tags| => Str(tags[i]))),
            "tagCounts" := CountsObject(Counts(gs)), "totalBookmarks" := Num(|Flat(gs)|)])
  }

  /** One group "a" holding one bookmark "u1" flattens to one entry with url "u1" and tag "a", and counts `{a: 1}`. */
  lemma OneGroupExample()
    ensures
      var b := Obj(map["url" := Str("u1"), "tag" := Str("a")]);
      var g := Obj(map["tag" := Str("a"), "bookmarks" := Array([b])]);
      && Flat([g]) == [Entry(b)]
      && Get(Flat([g])[0], "url") == Str("u1") && Get(Flat([g])[0], "tag") == Str("a")
      && Counts([g]) == map["a" := 1]
      && !Crashes([g])
  {
    var b := Obj(map["url" := Str("u1"), "tag" := Str("a")]);
    var g := Obj(map["tag" := Str("a"), "bookmarks" := Array([b])]);
    assert [g][..0] == [];
    assert Qualifies(g);
    assert !GroupCrashes(g) by {
      assert Members(g) == [b];
    }
  }

  /** A group tagged `__proto__` still adds its bookmarks to the flat list, but
      leaves the counts and the tag list as they were. */
  lemma ProtoTagNotCounted(gs: seq<Value>, g: Value)
    requires Qualifies(g) && TagKey(g) == ProtoKey
    ensures Counts(gs + [g]) == Counts(gs)
    ensures TagOrder(gs + [g]) == TagOrder(gs)
    ensures Flat(gs + [g]) == Flat(gs) + Entries(Members(g))
  {
    assert (gs + [g])[..|gs|] == gs;
  }

  /** The entry's tag is the bookmark's own even inside a group with another tag. */
  lemma EntryKeepsBookmarkTag()
    ensures
      var b := Obj(map["url" := Str("u"), "tag" := Str("x")]);
      var g := Obj(map["tag" := Str("y"), "bookmarks" := Array([b])]);
      Get(Flat([g])[0], "tag") == Str("x")
  {
    var b := Obj(map["url" := Str("u"), "tag" := Str("x")]);
    var g := Obj(map["tag" := Str("y"), "bookmarks" := Array([b])]);
    assert [g][..0] == [];
    assert Qualifies(g);
  }
}
