/**
 * The configuration document as json.loads returns it: a tree whose objects
 * are Python dicts (ordered, one entry per key) and whose other nodes are
 * leaves or lists of leaves.
 */
module ConfigTree {

  datatype Json =
    | JStr(str: string)
    | JBool(b: bool)
    | JNull
    | JNum(n: int)
    | JArr(items: seq<Json>)
    | JObj(members: seq<(string, Json)>)

  /** One dict entry, in insertion order. */
  type Member = (string, Json)

  /** The keys of a dict, in insertion order. */
  function Keys(ms: seq<Member>): seq<string> {
    seq(|ms|, i requires 0 <= i < |ms| => ms[i].0)
  }

  /** No element occurs twice. */
  predicate Distinct<T(==)>(ks: seq<T>) {
    forall i, j :: 0 <= i < j < |ks| ==> ks[i] != ks[j]
  }

  /** The position of the first occurrence of k. */
  function Find(ks: seq<string>, k: string): (i: nat)
    requires k in ks
    ensures i < |ks| && ks[i] == k && k !in ks[..i]
  {
    if ks[0] == k then 0 else 1 + Find(ks[1..], k)
  }

  /** d[k] on a dict that has the key k. */
  function Get(ms: seq<Member>, k: string): Json
    requires k in Keys(ms)
  {
    ms[Find(Keys(ms), k)].1
  }

  /** d[k] = v on a dict that already has the key k: the entry keeps its position. */
  function Put(ms: seq<Member>, k: string, v: Json): seq<Member>
    requires k in Keys(ms)
  {
    ms[Find(Keys(ms), k) := (k, v)]
  }

  /**
   * A document the template's comment allows: every object has distinct keys
   * (as every dict json.loads returns does), and no list holds an object at any
   * depth (the configuration's own rule, which json.loads does not enforce).
   */
  predicate WellFormed(j: Json) {
    match j
    case JObj(ms) => Distinct(Keys(ms)) && forall i :: 0 <= i < |ms| ==> WellFormed(ms[i].1)
    case JArr(items) => forall i :: 0 <= i < |items| ==> !items[i].JObj? && WellFormed(items[i])
    case _ => true
  }

  /** The key path p (a list of keys, outermost first) leads to a value in j. */
  predicate HasPath(j: Json, p: seq<string>)
    decreases |p|
  {
    p == [] || (j.JObj? && p[0] in Keys(j.members) && HasPath(Get(j.members, p[0]), p[1..]))
  }

  /** The value that the key path p leads to. */
  function At(j: Json, p: seq<string>): Json
    requires HasPath(j, p)
    decreases |p|
  {
    if p == [] then j else At(Get(j.members, p[0]), p[1..])
  }

  lemma {:induction false} FindDistinct(ks: seq<string>, i: nat)
    requires Distinct(ks) && i < |ks|
    ensures Find(ks, ks[i]) == i
  {
  }

  /** In a dict with distinct keys, looking up the key at position i gives the value there. */
  lemma GetAt(ms: seq<Member>, i: nat)
    requires Distinct(Keys(ms)) && i < |ms|
    ensures ms[i].0 in Keys(ms) && Get(ms, ms[i].0) == ms[i].1
  {
    assert Keys(ms)[i] == ms[i].0;
    FindDistinct(Keys(ms), i);
  }

  /** The first occurrence is the one position holding k with no k before it. */
  lemma FindUnique(ks: seq<string>, k: string, i: nat)
    requires i < |ks| && ks[i] == k && k !in ks[..i]
    ensures Find(ks, k) == i
  {
  }

  lemma FindAppend(ks: seq<string>, x: string, k: string)
    requires k in ks + [x]
    ensures k in ks ==> Find(ks + [x], k) == Find(ks, k)
    ensures k !in ks ==> Find(ks + [x], k) == |ks|
  {
    if k in ks {
      var i := Find(ks, k);
      assert (ks + [x])[..i] == ks[..i];
      FindUnique(ks + [x], k, i);
    } else {
      assert (ks + [x])[..|ks|] == ks;
      FindUnique(ks + [x], k, |ks|);
    }
  }

  lemma KeysAppend(ms: seq<Member>, m: Member)
    ensures Keys(ms + [m]) == Keys(ms) + [m.0]
  {
  }

  /** Adding a new entry at the end keeps every old lookup and adds one. */
  lemma GetAppend(ms: seq<Member>, k: string, v: Json)
    ensures k in Keys(ms + [(k, v)])
    ensures forall k' :: k' in Keys(ms) ==> k' in Keys(ms + [(k, v)]) && Get(ms + [(k, v)], k') == Get(ms, k')
    ensures k !in Keys(ms) ==> Get(ms + [(k, v)], k) == v
  {
    KeysAppend(ms, (k, v));
    forall k' | k' in Keys(ms)
      ensures Get(ms + [(k, v)], k') == Get(ms, k')
    {
      FindAppend(Keys(ms), k, k');
    }
    if k !in Keys(ms) {
      FindAppend(Keys(ms), k, k);
    }
  }

  lemma KeysPut(ms: seq<Member>, k: string, v: Json)
    requires k in Keys(ms)
    ensures Keys(Put(ms, k, v)) == Keys(ms)
  {
  }

  /** Overwriting one entry changes that lookup and no other. */
  lemma GetPut(ms: seq<Member>, k: string, v: Json)
    requires k in Keys(ms)
    ensures Keys(Put(ms, k, v)) == Keys(ms)
    ensures Get(Put(ms, k, v), k) == v
    ensures forall k' :: k' in Keys(ms) && k' != k ==> Get(Put(ms, k, v), k') == Get(ms, k')
  {
    KeysPut(ms, k, v);
  }

  /** Two dicts with the same keys in the same order and the same lookups are equal. */
  lemma EqualByKeys(a: seq<Member>, b: seq<Member>)
    requires Distinct(Keys(a)) && Keys(a) == Keys(b)
    requires forall k :: k in Keys(a) ==> Get(a, k) == Get(b, k)
    ensures a == b
  {
    assert |a| == |Keys(a)| == |Keys(b)| == |b|;
    forall i | 0 <= i < |a|
      ensures a[i] == b[i]
    {
      assert Keys(a)[i] == a[i].0 && Keys(b)[i] == b[i].0;
      GetAt(a, i);
      GetAt(b, i);
    }
  }

  /** The values of a well-formed dict are well-formed. */
  lemma WellFormedGet(ms: seq<Member>, k: string)
    requires WellFormed(JObj(ms)) && k in Keys(ms)
    ensures WellFormed(Get(ms, k))
  {
  }

  /** A path into a dict is a key followed by a path into that key's value. */
  lemma HasPathCons(j: Json, k: string, q: seq<string>)
    ensures HasPath(j, [k] + q) <==> (j.JObj? && k in Keys(j.members) && HasPath(Get(j.members, k), q))
    ensures HasPath(j, [k] + q) ==> At(j, [k] + q) == At(Get(j.members, k), q)
  {
    assert ([k] + q)[0] == k && ([k] + q)[1..] == q;
  }

  /** A path extended by one key leads to a value exactly when the path leads to a dict with that key. */
  lemma {:induction false} HasPathSnoc(j: Json, q: seq<string>, k: string)
    ensures HasPath(j, q + [k]) <==> HasPath(j, q) && At(j, q).JObj? && k in Keys(At(j, q).members)
    decreases |q|
  {
    if q == [] {
      assert q + [k] == [k] + [];
      HasPathCons(j, k, []);
    } else {
      assert q + [k] == [q[0]] + (q[1..] + [k]);
      assert q == [q[0]] + q[1..];
      HasPathCons(j, q[0], q[1..] + [k]);
      HasPathCons(j, q[0], q[1..]);
      if j.JObj? && q[0] in Keys(j.members) {
        HasPathSnoc(Get(j.members, q[0]), q[1..], k);
      }
    }
  }
}
