/** A decoded JSON value as the PHP code sees it after `json_decode`:
    a list or an object is a PHP array, an object keeps its key order. */
module JsonValues {
  import opened Failures
  import opened PhpStrings

  datatype Json =
    | JNull
    | JBool(b: bool)
    | JInt(n: int)
    | JString(s: string)
    | JList(items: seq<Json>)
    | JObject(members: seq<(string, Json)>)
  {
    /** PHP's `is_array`. */
    predicate IsArray() { JList? || JObject? }

    /** PHP's `count` on an array. */
    function Count(): nat
      requires IsArray()
    {
      if JList? then |items| else |members|
    }

    /** The values a `foreach` visits, in order; nothing for a non-array. */
    function Values(): (vs: seq<Json>)
      ensures JList? ==> vs == items
      ensures JObject? ==> |vs| == |members| && forall i :: 0 <= i < |vs| ==> vs[i] == members[i].1
      ensures !IsArray() ==> vs == []
    {
      match this
      case JList(xs) => xs
      case JObject(ms) => seq(|ms|, i requires 0 <= i < |ms| => ms[i].1)
      case _ => []
    }
  }

  /** A PHP array value: what a parameter or property typed `array` accepts. */
  type PhpArray = v: Json | v.IsArray() witness JList([])

  /** The position of the first member with key `k`; `|ms|` when no member
      has that key. */
  function FirstIndex(ms: seq<(string, Json)>, k: string): (i: nat)
    ensures i <= |ms|
    ensures i < |ms| ==> ms[i].0 == k
    ensures forall j :: 0 <= j < i ==> ms[j].0 != k
  {
    if ms == [] || ms[0].0 == k then 0
    else
      var i := FirstIndex(ms[1..], k);
      assert forall j :: 1 <= j < i + 1 ==> ms[j] == ms[1..][j - 1];
      i + 1
  }

  /** A position that fits the description of `FirstIndex` is that index. */
  lemma FirstIndexOf(ms: seq<(string, Json)>, k: string, i: nat)
    requires i <= |ms| && (i < |ms| ==> ms[i].0 == k)
    requires forall j :: 0 <= j < i ==> ms[j].0 != k
    ensures FirstIndex(ms, k) == i
  {
    var f := FirstIndex(ms, k);
    assert f < |ms| ==> ms[f].0 == k;
  }

  /** The value stored under `k`: that of the first member with that key. */
  function Lookup(ms: seq<(string, Json)>, k: string): Option<Json> {
    var i := FirstIndex(ms, k);
    if i < |ms| then Some(ms[i].1) else None
  }

  /** A lookup finds nothing exactly when no member has the key, and
      otherwise the value of the first member that has it. */
  lemma LookupFirst(ms: seq<(string, Json)>, k: string)
    ensures Lookup(ms, k).None? <==> forall i :: 0 <= i < |ms| ==> ms[i].0 != k
    ensures Lookup(ms, k).Some? ==>
      exists i :: 0 <= i < |ms| && ms[i] == (k, Lookup(ms, k).value) && forall j :: 0 <= j < i ==> ms[j].0 != k
  {
  }

  /** Whether PHP turns the string key `k` into an integer key: the canonical
      decimal text of a natural number. JSON lists have exactly the integer
      keys 0 .. n-1; a JSON object's key "0" is the integer key 0 as well. */
  predicate IsIndexKey(k: string) {
    1 <= |k| && AllDigits(k) && (k[0] == '0' ==> |k| == 1)
  }

  /** The value stored in the array `v` under the key `k`, null included; None
      when `v` is not an array or has no such key. */
  function At(v: Json, k: string): (r: Option<Json>)
    ensures v.JObject? ==> r == Lookup(v.members, k)
    ensures r.Some? && v.JList? ==> IsIndexKey(k) && DigitsValue(k) < |v.items| && r.value == v.items[DigitsValue(k)]
    ensures !v.IsArray() ==> r.None?
  {
    match v
    case JObject(ms) => Lookup(ms, k)
    case JList(xs) => if IsIndexKey(k) && DigitsValue(k) < |xs| then Some(xs[DigitsValue(k)]) else None
    case _ => None
  }

  /** `$v[k]` read under `isset` or `??`: None when `v` has no key `k` or holds
      null there. On a string or a number every such read is unset. */
  function Get(v: Json, k: string): (r: Option<Json>)
    ensures r.Some? <==> At(v, k).Some? && At(v, k).value != JNull
    ensures r.Some? ==> r == At(v, k)
  {
    match At(v, k)
    case Some(x) => if x == JNull then None else Some(x)
    case None => None
  }

  /** `$v[k]` as a plain read: it gives what `isset` finds, and null
      wherever `isset` fails. */
  function Read(v: Json, k: string): (r: Json)
    ensures Get(v, k).Some? ==> r == Get(v, k).value
    ensures Get(v, k).None? ==> r == JNull
  {
    match At(v, k)
    case Some(x) => x
    case None => JNull
  }

  /** `$v[0]` read under `isset`. */
  function Index0(v: Json): (r: Option<Json>)
    ensures r.Some? ==> r.value != JNull
    ensures v.JList? && |v.items| > 0 && v.items[0] != JNull ==> r == Some(v.items[0])
  {
    assert DigitsValue("0") == 0 by { assert "0"[..0] == []; }
    Get(v, "0")
  }

  /** Like `Get`, on a value that may itself be missing. */
  function GetOpt(v: Option<Json>, k: string): Option<Json> {
    if v.Some? then Get(v.value, k) else None
  }

  function Index0Opt(v: Option<Json>): Option<Json> {
    if v.Some? then Index0(v.value) else None
  }

  /** `$a[k] = v` on a string-keyed array: the first member with key `k` is
      overwritten in place, otherwise the member is appended. */
  function Put(ms: seq<(string, Json)>, k: string, v: Json): (r: seq<(string, Json)>)
    ensures Lookup(r, k) == Some(v)
    ensures |r| == if Lookup(ms, k).Some? then |ms| else |ms| + 1
  {
    var i := FirstIndex(ms, k);
    if i < |ms| then
      var r := ms[i := (k, v)];
      FirstIndexOf(r, k, i);
      r
    else
      var r := ms + [(k, v)];
      FirstIndexOf(r, k, |ms|);
      r
  }

  /** Putting a key leaves the value under every other key as it was. */
  lemma PutOthers(ms: seq<(string, Json)>, k: string, v: Json, other: string)
    requires other != k
    ensures Lookup(Put(ms, k, v), other) == Lookup(ms, other)
  {
    var i := FirstIndex(ms, other);
    var r := Put(ms, k, v);
    if FirstIndex(ms, k) < |ms| {
      FirstIndexOf(r, other, i);
    } else {
      FirstIndexOf(r, other, if i < |ms| then i else |ms| + 1);
    }
  }

  /** Putting a key that the array holds keeps the order and every other
      member: only the value at that key's first position changes. */
  lemma PutExisting(ms: seq<(string, Json)>, i: nat, v: Json)
    requires i < |ms|
    requires forall j :: 0 <= j < i ==> ms[j].0 != ms[i].0
    ensures Put(ms, ms[i].0, v) == ms[i := (ms[i].0, v)]
  {
    FirstIndexOf(ms, ms[i].0, i);
  }

  /** The keys of a string-keyed array, in order. */
  function Keys(ms: seq<(string, Json)>): (ks: seq<string>)
    ensures |ks| == |ms| && forall i :: 0 <= i < |ms| ==> ks[i] == ms[i].0
  {
    if ms == [] then []
    else
      var rest := Keys(ms[1..]);
      assert forall i :: 1 <= i < |ms| ==> ms[i] == ms[1..][i - 1];
      [ms[0].0] + rest
  }

  /** No key occurs twice, as in every PHP array. */
  predicate DistinctKeys(ms: seq<(string, Json)>) {
    forall i, j :: 0 <= i < j < |ms| ==> ms[i].0 != ms[j].0
  }

  /** Putting a key the array lacks appends it. */
  lemma PutMissing(ms: seq<(string, Json)>, k: string, v: Json)
    requires Lookup(ms, k).None?
    ensures Put(ms, k, v) == ms + [(k, v)]
  {
  }

  /** Putting a key keeps the keys in order and appends a missing one. */
  lemma PutKeys(ms: seq<(string, Json)>, k: string, v: Json)
    ensures |Put(ms, k, v)| >= |ms|
    ensures forall i :: 0 <= i < |ms| ==> Put(ms, k, v)[i].0 == ms[i].0
    ensures Lookup(ms, k).None? ==> Put(ms, k, v) == ms + [(k, v)]
  {
  }

  /** Putting a key that the array holds keeps its keys as they are. */
  lemma PutKeepsKeys(ms: seq<(string, Json)>, k: string, v: Json)
    requires Lookup(ms, k).Some?
    ensures Keys(Put(ms, k, v)) == Keys(ms)
  {
    PutKeys(ms, k, v);
  }

  /** The keys after a put depend on the keys before it only. */
  lemma PutKeysOf(ms: seq<(string, Json)>, k: string, v: Json)
    ensures Keys(Put(ms, k, v)) == if k in Keys(ms) then Keys(ms) else Keys(ms) + [k]
  {
    var i := FirstIndex(ms, k);
    if i < |ms| {
      PutKeepsKeys(ms, k, v);
      assert Keys(ms)[i] == k;
    } else {
      assert k !in Keys(ms) by {
        forall j | 0 <= j < |ms|
          ensures Keys(ms)[j] != k
        {
          assert ms[j].0 != k;
        }
      }
      var r := ms + [(k, v)];
      assert Keys(r) == Keys(ms) + [k] by {
        assert forall j :: 0 <= j < |r| ==> Keys(r)[j] == (Keys(ms) + [k])[j];
      }
    }
  }

  /** The second of two puts under the same key is the one that counts. */
  lemma PutTwice(ms: seq<(string, Json)>, k: string, v1: Json, v2: Json)
    ensures Put(Put(ms, k, v1), k, v2) == Put(ms, k, v2)
  {
    var i := FirstIndex(ms, k);
    var once := Put(ms, k, v1);
    FirstIndexOf(once, k, i);
    if i < |ms| {
      assert once[i := (k, v2)] == ms[i := (k, v2)];
    } else {
      assert once[i := (k, v2)] == ms + [(k, v2)];
    }
  }

  /** Putting a key into an array with distinct keys keeps them distinct. */
  lemma PutDistinct(ms: seq<(string, Json)>, k: string, v: Json)
    requires DistinctKeys(ms)
    ensures DistinctKeys(Put(ms, k, v))
  {
    PutKeys(ms, k, v);
    var r := Put(ms, k, v);
    var ks := Keys(r);
    if Lookup(ms, k).None? {
      assert forall i :: 0 <= i < |ms| ==> ks[i] == ms[i].0 != k;
    }
    assert forall i, j :: 0 <= i < j < |r| ==> ks[i] != ks[j];
  }

  /** Two arrays with distinct keys, the same keys in the same order and
      the same value at every key are the same array. */
  lemma SameArrays(a: seq<(string, Json)>, b: seq<(string, Json)>)
    requires DistinctKeys(a) && Keys(a) == Keys(b)
    requires forall k :: Lookup(a, k) == Lookup(b, k)
    ensures a == b
  {
    forall i | 0 <= i < |a|
      ensures a[i] == b[i]
    {
      assert a[i].0 == Keys(a)[i] == Keys(b)[i] == b[i].0;
      assert forall j :: 0 <= j < i ==> b[j].0 == Keys(a)[j];
      LookupAt(a, i);
      LookupAt(b, i);
    }
  }

  lemma LookupAt(ms: seq<(string, Json)>, i: nat)
    requires i < |ms| && forall j :: 0 <= j < i ==> ms[j].0 != ms[i].0
    ensures Lookup(ms, ms[i].0) == Some(ms[i].1)
  {
    FirstIndexOf(ms, ms[i].0, i);
  }

  /** PHP's string conversion of a value, as used when a value is
      concatenated into a message or passed to a string parameter: null
      and false are "", true is "1", an array is "Array". */
  function StringOf(v: Json): (s: string)
    ensures v.IsArray() ==> s == "Array"
    ensures s == "" <==> v == JNull || v == JBool(false) || v == JString("")
  {
    match v
    case JNull => ""
    case JBool(b) => if b then "1" else ""
    case JInt(n) => IntToString(n)
    case JString(s) => s
    case JList(_) => "Array"
    case JObject(_) => "Array"
  }

  /** PHP's loose comparison `v == null`. Null, false, 0, "" and the empty
      array equal null; "0" does not, since null against a string compares as
      "" against that string. With `objectsDecoded` a JSON object stands for
      a `stdClass` object, which never equals null. */
  predicate LooselyNull(v: Json, objectsDecoded: bool)
    ensures !v.IsArray() ==> (LooselyNull(v, objectsDecoded) <==> StringOf(v) == "" || v == JInt(0))
    ensures v.IsArray() && LooselyNull(v, objectsDecoded) ==> v.Count() == 0
  {
    match v
    case JNull => true
    case JBool(b) => !b
    case JInt(n) => n == 0
    case JString(s) => s == ""
    case JList(xs) => xs == []
    case JObject(ms) => !objectsDecoded && ms == []
  }
}
