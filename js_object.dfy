/**
 * Plain JavaScript objects with string keys, as the interception server sees
 * headers, route parameters and JSON objects: own properties in insertion
 * order. `Object.keys` reports them in that order as long as no key looks
 * like an array index (such keys come first, in ascending numeric order).
 */
module JsObject {
  import opened Wrappers
  import Seqs

  datatype Entry<V> = Entry(key: string, val: V)

  type Object<V> = seq<Entry<V>>

  /** Keys of a real object are distinct. */
  predicate UniqueKeys<V>(o: Object<V>) {
    forall i, j :: 0 <= i < j < |o| ==> o[i].key != o[j].key
  }

  /** `Object.keys(o).find(p)`, as the index of the first key satisfying `p`. */
  function Find<V>(o: Object<V>, p: string -> bool): (r: Option<nat>)
    ensures r.Some? ==> r.value < |o| && p(o[r.value].key)
    ensures r.Some? ==> forall j :: 0 <= j < r.value ==> !p(o[j].key)
    ensures r.None? ==> forall j :: 0 <= j < |o| ==> !p(o[j].key)
    decreases |o|
  {
    if |o| == 0 then None
    else if p(o[0].key) then Some(0)
    else match Find(o[1..], p)
      case None => None
      case Some(i) => Some(i + 1)
  }

  /** `o[k]`: the value of the property named exactly `k`, if there is one. */
  function Lookup<V>(o: Object<V>, k: string): (r: Option<V>)
    ensures r.None? <==> forall j :: 0 <= j < |o| ==> o[j].key != k
    ensures r.Some? ==> exists j :: 0 <= j < |o| && o[j] == Entry(k, r.value)
  {
    match Find(o, key => key == k)
    case None => None
    case Some(i) => Some(o[i].val)
  }

  /** In an object with distinct keys, the entry holding `k` determines `o[k]`. */
  lemma LookupAt<V>(o: Object<V>, j: nat)
    requires UniqueKeys(o) && j < |o|
    ensures Lookup(o, o[j].key) == Some(o[j].val)
  {
  }

  /** Two objects with the same keys at the same positions find the same first key. */
  lemma FindSameKeys<V>(o: Object<V>, o': Object<V>, p: string -> bool)
    requires |o| <= |o'|
    requires forall j :: 0 <= j < |o| ==> o'[j].key == o[j].key
    requires Find(o, p).Some?
    ensures Find(o', p) == Find(o, p)
  {
  }

  /** The assignment `o[k] = v`: overwrite in place if `k` is a key, else append it. */
  function Assign<V>(o: Object<V>, k: string, v: V): (r: Object<V>)
    ensures Lookup(r, k) == Some(v)
    ensures forall k' :: k' != k ==> Lookup(r, k') == Lookup(o, k')
    ensures |r| == if Lookup(o, k).Some? then |o| else |o| + 1
    ensures forall j :: 0 <= j < |o| ==> r[j].key == o[j].key
    ensures forall j :: 0 <= j < |o| && o[j].key != k ==> r[j] == o[j]
    ensures UniqueKeys(o) ==> UniqueKeys(r)
  {
    match Find(o, key => key == k)
    case Some(i) =>
      var r := o[i := Entry(k, v)];
      AssignLookups(o, k, v, i, r);
      r
    case None =>
      var r := o + [Entry(k, v)];
      AssignLookups(o, k, v, |o|, r);
      r
  }

  /** The lookups after an assignment, for either position the entry lands in. */
  lemma AssignLookups<V>(o: Object<V>, k: string, v: V, i: nat, r: Object<V>)
    requires i <= |o|
    requires i < |o| ==> o[i].key == k && (forall j :: 0 <= j < i ==> o[j].key != k) && r == o[i := Entry(k, v)]
    requires i == |o| ==> (forall j :: 0 <= j < |o| ==> o[j].key != k) && r == o + [Entry(k, v)]
    ensures Lookup(r, k) == Some(v)
    ensures forall k' :: k' != k ==> Lookup(r, k') == Lookup(o, k')
  {
    assert r[i].key == k;
    assert forall m :: 0 <= m < i ==> r[m].key != k;
    forall k' | k' != k ensures Lookup(r, k') == Lookup(o, k') {
      var fo := Find(o, key => key == k');
      var fr := Find(r, key => key == k');
      if fo.Some? {
        FindSameKeys(o, r, key => key == k');
      } else {
        assert forall m :: 0 <= m < |r| ==> r[m].key != k';
      }
    }
  }

  /** `const { [k]: _, ...rest } = o`: every property except `k`, in order. */
  function Omit<V>(o: Object<V>, k: string): (r: Object<V>)
    ensures forall i :: 0 <= i < |r| ==> r[i] in o && r[i].key != k
    ensures forall i :: 0 <= i < |o| && o[i].key != k ==> o[i] in r
  {
    Seqs.Filter(o, (e: Entry<V>) => e.key != k)
  }

  /** Omitting `k` leaves every other lookup as it was, and removes `k`. */
  lemma {:induction false} OmitLookup<V>(o: Object<V>, k: string, k': string)
    ensures Lookup(Omit(o, k), k) == None
    ensures k' != k ==> Lookup(Omit(o, k), k') == Lookup(o, k')
    decreases |o|
  {
    var r := Omit(o, k);
    if |o| > 0 {
      OmitLookup(o[1..], k, k');
      assert o == [o[0]] + o[1..];
      Seqs.FilterAppend([o[0]], o[1..], (e: Entry<V>) => e.key != k);
      LookupCons(o, k');
      if o[0].key != k {
        assert r == [o[0]] + Omit(o[1..], k);
        LookupCons(r, k');
        assert r[1..] == Omit(o[1..], k);
      } else {
        assert r == Omit(o[1..], k);
      }
    }
  }

  /** `o[k]` looked up one property at a time. */
  lemma LookupCons<V>(o: Object<V>, k: string)
    requires |o| > 0
    ensures Lookup(o, k) == if o[0].key == k then Some(o[0].val) else Lookup(o[1..], k)
  {
  }

  /** Omitting a key from an object with distinct keys keeps them distinct. */
  lemma {:induction false} OmitUnique<V>(o: Object<V>, k: string)
    requires UniqueKeys(o)
    ensures UniqueKeys(Omit(o, k))
    decreases |o|
  {
    if |o| > 0 {
      var keep := (e: Entry<V>) => e.key != k;
      var tail := Omit(o[1..], k);
      OmitUnique(o[1..], k);
      assert o == [o[0]] + o[1..];
      Seqs.FilterAppend([o[0]], o[1..], keep);
      if keep(o[0]) {
        forall j | 0 <= j < |tail| ensures o[0].key != tail[j].key {
          var m :| 0 <= m < |o[1..]| && o[1..][m] == tail[j];
          assert o[m + 1] == tail[j];
        }
        assert Omit(o, k) == [o[0]] + tail;
      } else {
        assert Omit(o, k) == tail;
      }
    }
  }

  /** ASCII case folding, the part of `String.prototype.toLowerCase` header names use. */
  function LowerChar(c: char): char {
    if 'A' <= c <= 'Z' then (c as int + 32) as char else c
  }

  function Lower(s: string): (r: string)
    ensures |r| == |s|
  {
    seq(|s|, i requires 0 <= i < |s| => LowerChar(s[i]))
  }
}
