/**
 * Abstract JSON values as the client hands them to its serialiser.
 *
 * An object is a sequence of (key, value) entries in insertion order, built
 * with Put, which behaves like assignment into a Python dict: a new key is
 * appended, an existing key keeps its place and takes the new value.
 */
module Json {
  import opened Wrappers

  datatype Value =
    | JNull
    | JBool(b: bool)
    | JInt(i: int)
    | JStr(s: string)
    | JArr(items: seq<Value>)
    | JObj(fields: seq<(string, Value)>)

  type Fields = seq<(string, Value)>

  /** The keys of an object, as a set. */
  function KeySet(fs: Fields): (ks: set<string>)
    ensures forall k :: k in ks <==> exists i :: 0 <= i < |fs| && fs[i].0 == k
  {
    if fs == [] then {} else {fs[0].0} + KeySet(fs[1..])
  }

  /** No key occurs twice: what every Python dict satisfies. */
  predicate DistinctKeys(fs: Fields)
  {
    forall i, j :: 0 <= i < j < |fs| ==> fs[i].0 != fs[j].0
  }

  /** The value stored under `k`, or None when `k` is not a key. */
  function Lookup(fs: Fields, k: string): (r: Option<Value>)
    ensures r.None? <==> k !in KeySet(fs)
    ensures r.Some? ==> exists i :: 0 <= i < |fs| && fs[i] == (k, r.value)
  {
    if fs == [] then None
    else if fs[0].0 == k then Some(fs[0].1)
    else Lookup(fs[1..], k)
  }

  /** `d[k] = v` on a Python dict. */
  function Put(fs: Fields, k: string, v: Value): (r: Fields)
    ensures KeySet(r) == KeySet(fs) + {k}
    ensures |r| == if k in KeySet(fs) then |fs| else |fs| + 1
    ensures forall i :: 0 <= i < |fs| ==> r[i].0 == fs[i].0
    ensures k !in KeySet(fs) ==> r[|fs|] == (k, v)
  {
    if fs == [] then [(k, v)]
    else if fs[0].0 == k then [(k, v)] + fs[1..]
    else [fs[0]] + Put(fs[1..], k, v)
  }

  /** After `d[k] = v`, `d[k]` is `v` and every other key keeps its value. */
  lemma {:induction false} PutLookup(fs: Fields, k: string, v: Value, k': string)
    ensures Lookup(Put(fs, k, v), k') == if k' == k then Some(v) else Lookup(fs, k')
  {
    if fs != [] && fs[0].0 != k {
      PutLookup(fs[1..], k, v, k');
    }
  }

  /** Assignment keeps a dict free of repeated keys. */
  lemma PutDistinct(fs: Fields, k: string, v: Value)
    requires DistinctKeys(fs)
    ensures DistinctKeys(Put(fs, k, v))
  {
    var r := Put(fs, k, v);
    forall i, j | 0 <= i < j < |r| ensures r[i].0 != r[j].0 {
      if j == |fs| {
        assert fs[i].0 in KeySet(fs);
      }
    }
  }
}
