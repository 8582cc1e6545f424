/** The source list of `src/sources.ts`: the imported JSON index, accepted
    only when it is an array of well-formed records, then sorted by name.
    `localeCompare` is taken as a parameter: any total preorder on names. */
module Sources {
  import opened Common

  /** The record every source carries. */
  datatype Source = Source(id: string, name: string, url: string)

  /** The imported JSON document: an array of objects, or anything else.
      An array element that is a primitive is an object without properties. */
  datatype Json = JsonArray(items: seq<JsObject>) | JsonOther

  /** `isSource(obj)`. */
  predicate IsSource(obj: JsObject) {
    Prop(obj, "id").Str? && Prop(obj, "name").Str? && Prop(obj, "url").Str?
  }

  /** The typed view `isSource` licenses. */
  function AsSource(obj: JsObject): (s: Source)
    requires IsSource(obj)
    ensures Str(s.id) == Prop(obj, "id") && Str(s.name) == Prop(obj, "name") && Str(s.url) == Prop(obj, "url")
  {
    Source(Prop(obj, "id").s, Prop(obj, "name").s, Prop(obj, "url").s)
  }

  /** The source object `s` as a JSON object passes `isSource`. */
  lemma SourceObjectIsSource(s: Source)
    ensures IsSource(map["id" := Str(s.id), "name" := Str(s.name), "url" := Str(s.url)])
    ensures AsSource(map["id" := Str(s.id), "name" := Str(s.name), "url" := Str(s.url)]) == s
  {
  }

  /** A comparison on names: `le(a, b)` when `a.localeCompare(b) <= 0`. */
  type Order = (string, string) -> bool

  ghost predicate TotalPreorder(le: Order) {
    && (forall a, b :: le(a, b) || le(b, a))
    && (forall a, b, c :: le(a, b) && le(b, c) ==> le(a, c))
  }

  ghost predicate SortedByName(s: seq<Source>, le: Order) {
    forall i, j :: 0 <= i < j < |s| ==> le(s[i].name, s[j].name)
  }

  /** Places `x` after every element whose name is not above its own, so
      that equal names keep their order. */
  function Insert(x: Source, s: seq<Source>, le: Order): (r: seq<Source>)
    ensures multiset(r) == multiset(s) + multiset{x}
    ensures |r| == |s| + 1
  {
    if |s| == 0 then [x]
    else if !le(s[0].name, x.name) then [x] + s
    else
      assert s == [s[0]] + s[1..];
      [s[0]] + Insert(x, s[1..], le)
  }

  /** The sort: each element is inserted, in order, into the sorted prefix. */
  function SortByName(s: seq<Source>, le: Order): (r: seq<Source>)
    ensures multiset(r) == multiset(s)
    ensures |r| == |s|
  {
    if |s| == 0 then []
    else
      assert s == s[..|s| - 1] + [s[|s| - 1]];
      Insert(s[|s| - 1], SortByName(s[..|s| - 1], le), le)
  }

  /** A head below every name of a sorted list can go in front of it. */
  lemma ConsSorted(h: Source, t: seq<Source>, le: Order)
    requires SortedByName(t, le)
    requires forall k :: 0 <= k < |t| ==> le(h.name, t[k].name)
    ensures SortedByName([h] + t, le)
  {
    var r := [h] + t;
    forall i, j | 0 <= i < j < |r|
      ensures le(r[i].name, r[j].name)
    {
      assert r[j] == t[j - 1];
      if i > 0 {
        assert r[i] == t[i - 1];
      }
    }
  }

  /** Every element of `Insert(x, s)` is `x` or an element of `s`. */
  lemma InsertFrom(x: Source, s: seq<Source>, le: Order, k: nat)
    requires k < |Insert(x, s, le)|
    ensures Insert(x, s, le)[k] == x || Insert(x, s, le)[k] in s
  {
    var t := Insert(x, s, le);
    assert t[k] in multiset(t);
  }

  /** A sorted list's head is below every later name. */
  lemma HeadBelow(s: seq<Source>, le: Order, y: Source)
    requires SortedByName(s, le) && |s| > 0 && y in s[1..]
    ensures le(s[0].name, y.name)
  {
    var m :| 0 <= m < |s[1..]| && s[1..][m] == y;
    assert s[1 + m] == y;
  }

  lemma {:induction false} InsertSorted(x: Source, s: seq<Source>, le: Order)
    requires TotalPreorder(le) && SortedByName(s, le)
    ensures SortedByName(Insert(x, s, le), le)
  {
    if |s| > 0 && le(s[0].name, x.name) {
      assert SortedByName(s[1..], le);
      InsertSorted(x, s[1..], le);
      var t := Insert(x, s[1..], le);
      forall k | 0 <= k < |t|
        ensures le(s[0].name, t[k].name)
      {
        InsertFrom(x, s[1..], le, k);
        if t[k] != x {
          HeadBelow(s, le, t[k]);
        }
      }
      ConsSorted(s[0], t, le);
    } else if |s| > 0 {
      // s[0] is strictly above x, so every name of s is above x
      assert le(x.name, s[0].name);
      forall k | 0 <= k < |s|
        ensures le(x.name, s[k].name)
      {
        if k > 0 {
          assert le(s[0].name, s[k].name);
        }
      }
      ConsSorted(x, s, le);
    }
  }

  /** The sort orders names under any total preorder. */
  lemma {:induction false} SortByNameSorted(s: seq<Source>, le: Order)
    requires TotalPreorder(le)
    ensures SortedByName(SortByName(s, le), le)
  {
    if |s| > 0 {
      SortByNameSorted(s[..|s| - 1], le);
      InsertSorted(s[|s| - 1], SortByName(s[..|s| - 1], le), le);
    }
  }

  /** `jsonSources` seen through `isSource`. */
  function Typed(items: seq<JsObject>): (r: seq<Source>)
    requires forall i :: 0 <= i < |items| ==> IsSource(items[i])
    ensures |r| == |items| && forall i :: 0 <= i < |items| ==> r[i] == AsSource(items[i])
  {
    seq(|items|, i requires 0 <= i < |items| => AsSource(items[i]))
  }

  /** `sources`: the sorted typed records when the document is an array of
      valid records, and `[]` otherwise. */
  function ValidSources(json: Json, le: Order): (r: seq<Source>)
    ensures !json.JsonArray? ==> r == []
    ensures json.JsonArray? && (exists i :: 0 <= i < |json.items| && !IsSource(json.items[i])) ==> r == []
    ensures json.JsonArray? && (forall i :: 0 <= i < |json.items| ==> IsSource(json.items[i])) ==>
      && |r| == |json.items|
      && multiset(r) == multiset(Typed(json.items))
  {
    if json.JsonArray? && forall i :: 0 <= i < |json.items| ==> IsSource(json.items[i]) then
      SortByName(Typed(json.items), le)
    else []
  }

  /** Every accepted list is sorted by name. */
  lemma ValidSourcesSorted(json: Json, le: Order)
    requires TotalPreorder(le)
    ensures SortedByName(ValidSources(json, le), le)
  {
    if json.JsonArray? && forall i :: 0 <= i < |json.items| ==> IsSource(json.items[i]) {
      SortByNameSorted(Typed(json.items), le);
    }
  }

  /** Every source in the accepted list is one of the document's records. */
  lemma ValidSourcesFromDocument(json: Json, le: Order, s: Source)
    requires s in ValidSources(json, le)
    ensures json.JsonArray? && exists i :: 0 <= i < |json.items| && IsSource(json.items[i]) && AsSource(json.items[i]) == s
  {
    var items := json.items;
    var typed := Typed(items);
    assert s in multiset(ValidSources(json, le));
    assert s in multiset(typed);
    var i :| 0 <= i < |typed| && typed[i] == s;
    assert IsSource(items[i]) && AsSource(items[i]) == s;
  }
}
