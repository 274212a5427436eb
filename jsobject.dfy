/** The two JavaScript built-ins `formatRules` relies on: `Object.fromEntries`,
    which folds key/value pairs into an object, and `JSON.stringify`, which
    prints that object. An object is modelled as its own properties in
    insertion order, which is the order `JSON.stringify` prints them in. */
module JsObject {
  import opened Wrappers

  /** The property names of `obj`, in order. */
  function Keys<V>(obj: seq<(string, V)>): seq<string> {
    seq(|obj|, i requires 0 <= i < |obj| => obj[i].0)
  }

  /** No property name occurs twice, as in every JavaScript object. */
  predicate DistinctKeys<V>(obj: seq<(string, V)>) {
    forall i, j | 0 <= i < j < |obj| :: obj[i].0 != obj[j].0
  }

  /** `obj[k]`: the value of the first property named `k`, if any. */
  function Get<V>(obj: seq<(string, V)>, k: string): (r: Option<V>)
    ensures r.None? <==> k !in Keys(obj)
  {
    if obj == [] then None
    else if obj[0].0 == k then
      assert Keys(obj)[0] == k;
      Some(obj[0].1)
    else
      assert Keys(obj) == [obj[0].0] + Keys(obj[1..]);
      Get(obj[1..], k)
  }

  /** `obj[k] = v`: an existing property keeps its place and takes the new
      value; a new property goes last. */
  function Put<V>(obj: seq<(string, V)>, k: string, v: V): (r: seq<(string, V)>)
    ensures |r| == if k in Keys(obj) then |obj| else |obj| + 1
    ensures Keys(r) == if k in Keys(obj) then Keys(obj) else Keys(obj) + [k]
  {
    if obj == [] then [(k, v)]
    else if obj[0].0 == k then
      assert Keys(obj)[0] == k;
      var r := [(k, v)] + obj[1..];
      assert Keys(r) == Keys(obj) by {
        forall i | 0 <= i < |r| ensures Keys(r)[i] == Keys(obj)[i] {
          if i > 0 { assert r[i] == obj[i]; }
        }
      }
      r
    else
      var rest := Put(obj[1..], k, v);
      KeysOfCons(obj);
      var r := [obj[0]] + rest;
      KeysOfCons(r);
      assert r[1..] == rest;
      r
  }

  /** The names of a non-empty object: the first name, then the others'. */
  lemma KeysOfCons<V>(obj: seq<(string, V)>)
    requires obj != []
    ensures Keys(obj) == [obj[0].0] + Keys(obj[1..])
  {
  }

  /** After `obj[k] = v`, `k` reads as `v` and every other name reads as
      before. */
  lemma {:induction false} PutReadsBack<V>(obj: seq<(string, V)>, k: string, v: V, k': string)
    ensures Get(Put(obj, k, v), k) == Some(v)
    ensures k' != k ==> Get(Put(obj, k, v), k') == Get(obj, k')
  {
    if obj != [] && obj[0].0 != k {
      PutReadsBack(obj[1..], k, v, k');
      var r := Put(obj, k, v);
      assert r[0] == obj[0] && r[1..] == Put(obj[1..], k, v);
    } else if obj != [] {
      var r := Put(obj, k, v);
      assert r[0] == (k, v) && r[1..] == obj[1..];
    }
  }

  /** Putting a property keeps the property names distinct. */
  lemma PutKeepsKeysDistinct<V>(obj: seq<(string, V)>, k: string, v: V)
    requires DistinctKeys(obj)
    ensures DistinctKeys(Put(obj, k, v))
  {
    var r := Put(obj, k, v);
    forall i, j | 0 <= i < j < |r|
      ensures r[i].0 != r[j].0
    {
      assert Keys(r)[i] == r[i].0 && Keys(r)[j] == r[j].0;
      if j < |obj| {
        assert Keys(obj)[i] == obj[i].0 && Keys(obj)[j] == obj[j].0;
      } else {
        assert Keys(obj)[i] == obj[i].0;
      }
    }
  }

  /** The reference reading of `Object.fromEntries(entries)` at `k`: the value
      of the LAST entry named `k`. */
  function LastValue<V>(entries: seq<(string, V)>, k: string): Option<V> {
    if entries == [] then None
    else if entries[|entries| - 1].0 == k then Some(entries[|entries| - 1].1)
    else LastValue(entries[..|entries| - 1], k)
  }

  /** `Object.fromEntries(entries)`: the entries put one after the other into an
      empty object. Its properties are exactly the entries' names, each named
      once, and each holding the value of the last entry of that name. */
  function FromEntries<V>(entries: seq<(string, V)>): (obj: seq<(string, V)>)
    ensures DistinctKeys(obj)
    ensures forall k :: k in Keys(obj) <==> k in Keys(entries)
    ensures forall k :: Get(obj, k) == LastValue(entries, k)
  {
    if entries == [] then []
    else
      var prefix := entries[..|entries| - 1];
      var (k, v) := entries[|entries| - 1];
      var obj := FromEntries(prefix);
      PutKeepsKeysDistinct(obj, k, v);
      assert Keys(entries) == Keys(prefix) + [k];
      forall k' ensures Get(Put(obj, k, v), k') == LastValue(entries, k') {
        PutReadsBack(obj, k, v, k');
      }
      Put(obj, k, v)
  }

  /** With distinct names, `Object.fromEntries` keeps every entry, in order. */
  lemma {:induction false} FromDistinctEntries<V>(entries: seq<(string, V)>)
    requires DistinctKeys(entries)
    ensures FromEntries(entries) == entries
  {
    if entries != [] {
      var prefix := entries[..|entries| - 1];
      var (k, v) := entries[|entries| - 1];
      LastNameIsNew(entries);
      FromDistinctEntries(prefix);
      AppendNewKey(prefix, k, v);
      calc {
        FromEntries(entries);
        Put(FromEntries(prefix), k, v);
        prefix + [(k, v)];
        entries;
      }
    }
  }

  /** With distinct names, the last entry's name is not among the others,
      which are distinct too. */
  lemma LastNameIsNew<V>(entries: seq<(string, V)>)
    requires DistinctKeys(entries) && entries != []
    ensures var prefix := entries[..|entries| - 1];
      DistinctKeys(prefix) && entries[|entries| - 1].0 !in Keys(prefix)
  {
    var prefix := entries[..|entries| - 1];
    forall i | 0 <= i < |prefix|
      ensures Keys(prefix)[i] != entries[|entries| - 1].0
    {
      assert entries[i].0 != entries[|entries| - 1].0;
    }
  }

  /** Putting a new name appends it. */
  lemma {:induction false} AppendNewKey<V>(obj: seq<(string, V)>, k: string, v: V)
    requires k !in Keys(obj)
    ensures Put(obj, k, v) == obj + [(k, v)]
  {
    if obj != [] {
      KeysOfCons(obj);
      assert obj[0].0 != k;
      AppendNewKey(obj[1..], k, v);
      assert Put(obj, k, v) == [obj[0]] + Put(obj[1..], k, v);
      assert [obj[0]] + (obj[1..] + [(k, v)]) == obj + [(k, v)];
    }
  }

  /** A JSON string literal (escaping is not modelled). */
  function Quote(s: string): string {
    "\"" + s + "\""
  }

  /** One printed property, `"name": value`. */
  function Member<V>(p: (string, V), valueJson: V -> string): string {
    Quote(p.0) + ": " + valueJson(p.1)
  }

  /** The printed properties of `obj`, separated by commas. */
  function Members<V>(obj: seq<(string, V)>, valueJson: V -> string): string {
    if obj == [] then ""
    else if |obj| == 1 then Member(obj[0], valueJson)
    else Member(obj[0], valueJson) + ", " + Members(obj[1..], valueJson)
  }

  /** `JSON.stringify(obj)`, in a compact layout: one deterministic text per
      object. */
  function Stringify<V>(obj: seq<(string, V)>, valueJson: V -> string): string {
    "{" + Members(obj, valueJson) + "}"
  }

  /** `w` occurs somewhere in `s`. */
  predicate Occurs(w: string, s: string) {
    exists i | 0 <= i <= |s| :: w <= s[i..]
  }

  /** An occurrence in a part is an occurrence in the whole. */
  lemma OccursInConcat(w: string, a: string, b: string, c: string)
    requires Occurs(w, b)
    ensures Occurs(w, a + b + c)
  {
    var i :| 0 <= i <= |b| && w <= b[i..];
    assert (a + b + c)[|a| + i..][..|w|] == b[i..][..|w|];
  }

  /** Every property of the object is printed, as `"name": value`. */
  lemma {:induction false} StringifyPrintsEveryMember<V>(obj: seq<(string, V)>, valueJson: V -> string, i: nat)
    requires i < |obj|
    ensures Occurs(Member(obj[i], valueJson), Stringify(obj, valueJson))
  {
    MembersPrintEveryMember(obj, valueJson, i);
    OccursInConcat(Member(obj[i], valueJson), "{", Members(obj, valueJson), "}");
  }

  lemma {:induction false} MembersPrintEveryMember<V>(obj: seq<(string, V)>, valueJson: V -> string, i: nat)
    requires i < |obj|
    ensures Occurs(Member(obj[i], valueJson), Members(obj, valueJson))
  {
    var m := Member(obj[i], valueJson);
    if i == 0 {
      if |obj| == 1 {
        assert m <= Members(obj, valueJson)[0..];
      } else {
        assert m <= Members(obj, valueJson)[0..];
      }
    } else {
      MembersPrintEveryMember(obj[1..], valueJson, i - 1);
      OccursInConcat(m, Member(obj[0], valueJson) + ", ", Members(obj[1..], valueJson), "");
      assert Members(obj, valueJson) == Member(obj[0], valueJson) + ", " + Members(obj[1..], valueJson) + "";
    }
  }
}
