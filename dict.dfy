/**
 * Python dictionaries as insertion-ordered association lists.
 *
 * A Python `dict` keeps its keys unique and remembers insertion order:
 * assigning to an existing key keeps its position, assigning to a new key
 * appends it, and `del` removes it.  The memory files, the configuration
 * trees and the JSON objects of the system are all such dictionaries.
 */
module Dict {
  import opened Wrappers

  /** The keys of `d`, in order (Python's `d.keys()`). */
  function Keys<V>(d: seq<(string, V)>): (ks: seq<string>)
    ensures |ks| == |d|
  {
    if d == [] then [] else [d[0].0] + Keys(d[1..])
  }

  /** Python's `k in d`. */
  predicate HasKey<V>(d: seq<(string, V)>, k: string) {
    d != [] && (d[0].0 == k || HasKey(d[1..], k))
  }

  /** No key occurs twice: every dictionary the Python code builds has this shape. */
  predicate UniqueKeys<V>(d: seq<(string, V)>) {
    d == [] || (!HasKey(d[1..], d[0].0) && UniqueKeys(d[1..]))
  }

  /** Python's `d.get(k)`: the value stored under `k`, if any. */
  function Get<V>(d: seq<(string, V)>, k: string): (r: Option<V>)
    ensures r.Some? <==> HasKey(d, k)
    ensures r.Some? ==> (k, r.value) in d
  {
    if d == [] then None
    else if d[0].0 == k then Some(d[0].1)
    else Get(d[1..], k)
  }

  /** Python's `d[k] = v`: an existing key keeps its place, a new key goes last. */
  function Set<V>(d: seq<(string, V)>, k: string, v: V): (r: seq<(string, V)>)
    ensures Get(r, k) == Some(v)
    ensures forall k' :: k' != k ==> Get(r, k') == Get(d, k')
    ensures HasKey(d, k) ==> Keys(r) == Keys(d)
    ensures !HasKey(d, k) ==> Keys(r) == Keys(d) + [k]
    ensures forall k' :: HasKey(r, k') <==> HasKey(d, k') || k' == k
    ensures UniqueKeys(d) ==> UniqueKeys(r)
  {
    if d == [] then [(k, v)]
    else if d[0].0 == k then
      var r := [(k, v)] + d[1..];
      assert r[1..] == d[1..];
      r
    else
      var rest := Set(d[1..], k, v);
      var r := [d[0]] + rest;
      assert r[1..] == rest;
      r
  }

  /** Python's `del d[k]`, tolerant of an absent key: every entry with key `k` goes, the rest keep their order. */
  function Remove<V>(d: seq<(string, V)>, k: string): (r: seq<(string, V)>)
    ensures !HasKey(r, k)
    ensures forall k' :: k' != k ==> Get(r, k') == Get(d, k')
    ensures forall k' :: HasKey(r, k') <==> HasKey(d, k') && k' != k
    ensures UniqueKeys(d) ==> UniqueKeys(r)
    ensures HasKey(d, k) ==> |r| < |d|
    ensures !HasKey(d, k) ==> r == d
  {
    if d == [] then []
    else if d[0].0 == k then Remove(d[1..], k)
    else
      var rest := Remove(d[1..], k);
      var r := [d[0]] + rest;
      assert r[1..] == rest;
      assert !HasKey(d, k) ==> rest == d[1..] && r == d;
      r
  }

  /** In a dictionary with unique keys, the value stored in an entry is what `Get` returns for its key. */
  lemma {:induction false} GetEntry<V>(d: seq<(string, V)>, i: nat)
    requires UniqueKeys(d) && i < |d|
    ensures Get(d, d[i].0) == Some(d[i].1)
  {
    if i > 0 {
      HasKeyAt(d[1..], i - 1);
      GetEntry(d[1..], i - 1);
    }
  }

  lemma {:induction false} HasKeyAt<V>(d: seq<(string, V)>, i: nat)
    requires i < |d|
    ensures HasKey(d, d[i].0)
  {
    if i > 0 {
      HasKeyAt(d[1..], i - 1);
    }
  }

  /** In a dictionary with unique keys, `del d[k]` takes out the one entry of `k` and leaves the others in order. */
  lemma {:induction false} RemoveAt<V>(d: seq<(string, V)>, i: nat)
    requires UniqueKeys(d) && i < |d|
    ensures Remove(d, d[i].0) == d[..i] + d[i + 1..]
  {
    if i == 0 {
      assert d[..0] + d[1..] == d[1..];
    } else {
      HasKeyAt(d[1..], i - 1);
      assert d[1..][i - 1] == d[i];
      RemoveAt(d[1..], i - 1);
      assert d[..i] + d[i + 1..] == [d[0]] + (d[1..][..i - 1] + d[1..][i..]);
    }
  }

  /** A key is among `Keys(d)` exactly when `d` has it. */
  lemma {:induction false} KeysHasKey<V>(d: seq<(string, V)>, k: string)
    ensures k in Keys(d) <==> HasKey(d, k)
  {
    if d != [] {
      KeysHasKey(d[1..], k);
    }
  }

  /** The `i`-th key is the key of the `i`-th entry. */
  lemma {:induction false} KeyAt<V>(d: seq<(string, V)>, i: nat)
    requires i < |d|
    ensures Keys(d)[i] == d[i].0
  {
    if i > 0 {
      KeyAt(d[1..], i - 1);
    }
  }

  /** The set of keys of `d`. */
  function KeySet<V>(d: seq<(string, V)>): (ks: set<string>)
    ensures forall k :: k in ks <==> k in Keys(d)
  {
    set k | k in Keys(d)
  }
}
