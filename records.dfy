/**
 * A JavaScript object with string keys, in its iteration order: a list of key/value pairs.
 * `{...r, [k]: v}` keeps the position of an existing key and appends a new one.
 */
module Records {
  import opened Wrappers

  type Assoc<V> = seq<(string, V)>

  function Keys<V>(r: Assoc<V>): (ks: seq<string>)
    ensures |ks| == |r| && forall i :: 0 <= i < |r| ==> ks[i] == r[i].0
  {
    seq(|r|, i requires 0 <= i < |r| => r[i].0)
  }

  /** `Object.values(r)` */
  function Values<V>(r: Assoc<V>): (vs: seq<V>)
    ensures |vs| == |r| && forall i :: 0 <= i < |r| ==> vs[i] == r[i].1
  {
    seq(|r|, i requires 0 <= i < |r| => r[i].1)
  }

  predicate DistinctKeys<V>(r: Assoc<V>)
  {
    forall i, j :: 0 <= i < j < |r| ==> r[i].0 != r[j].0
  }

  /** `r[k]`: the value of the first pair with key `k`, None when the key is absent. */
  function Lookup<V>(r: Assoc<V>, k: string): (o: Option<V>)
    ensures o.None? <==> k !in Keys(r)
    decreases |r|
  {
    if |r| == 0 then None
    else if r[0].0 == k then Some(r[0].1)
    else
      assert Keys(r) == [r[0].0] + Keys(r[1..]);
      Lookup(r[1..], k)
  }

  /** With distinct keys, a lookup finds the value stored at the key's position. */
  lemma {:induction false} LookupAt<V>(r: Assoc<V>, i: nat)
    requires DistinctKeys(r) && i < |r|
    ensures Lookup(r, r[i].0) == Some(r[i].1)
    decreases i
  {
    if i > 0 {
      assert r[1..][i - 1] == r[i];
      LookupAt(r[1..], i - 1);
    }
  }

  /** A value found by lookup is stored in some pair with that key. */
  lemma {:induction false} LookupFound<V>(r: Assoc<V>, k: string)
    requires Lookup(r, k).Some?
    ensures exists i :: 0 <= i < |r| && r[i] == (k, Lookup(r, k).value)
    decreases |r|
  {
    if r[0].0 != k {
      LookupFound(r[1..], k);
      var i :| 0 <= i < |r[1..]| && r[1..][i] == (k, Lookup(r[1..], k).value);
      assert r[i + 1] == r[1..][i];
    }
  }

  /** `{...r, [k]: v}`; the lemmas below say what it guarantees. */
  function Put<V>(r: Assoc<V>, k: string, v: V): Assoc<V>
    decreases |r|
  {
    if |r| == 0 then [(k, v)]
    else if r[0].0 == k then [(k, v)] + r[1..]
    else [r[0]] + Put(r[1..], k, v)
  }

  /** After a spread update the key maps to the new value and every other key is unchanged. */
  lemma {:induction false} PutLookup<V>(r: Assoc<V>, k: string, v: V, k': string)
    ensures Lookup(Put(r, k, v), k') == if k' == k then Some(v) else Lookup(r, k')
    decreases |r|
  {
    if |r| > 0 && r[0].0 != k {
      PutLookup(r[1..], k, v, k');
      assert ([r[0]] + Put(r[1..], k, v))[1..] == Put(r[1..], k, v);
    } else if |r| > 0 {
      assert ([(k, v)] + r[1..])[1..] == r[1..];
    }
  }

  /** An existing key keeps its position; a new key is appended at the end. */
  lemma {:induction false} PutKeys<V>(r: Assoc<V>, k: string, v: V)
    ensures k in Keys(r) ==> Keys(Put(r, k, v)) == Keys(r)
    ensures k !in Keys(r) ==> Put(r, k, v) == r + [(k, v)]
    decreases |r|
  {
    if |r| > 0 {
      assert Keys(r) == [r[0].0] + Keys(r[1..]);
      if r[0].0 != k {
        PutKeys(r[1..], k, v);
        var rest := Put(r[1..], k, v);
        assert Keys([r[0]] + rest) == [r[0].0] + Keys(rest);
        if k !in Keys(r) {
          assert [r[0]] + (r[1..] + [(k, v)]) == r + [(k, v)];
        }
      } else {
        assert Keys(Put(r, k, v)) == [k] + Keys(r[1..]);
      }
    }
  }

  /** A spread update keeps the keys distinct. */
  lemma PutDistinct<V>(r: Assoc<V>, k: string, v: V)
    requires DistinctKeys(r)
    ensures DistinctKeys(Put(r, k, v))
  {
    PutKeys(r, k, v);
    var r' := Put(r, k, v);
    if k in Keys(r) {
      assert Keys(r') == Keys(r);
      forall i, j | 0 <= i < j < |r'| ensures r'[i].0 != r'[j].0 {
        assert Keys(r')[i] == Keys(r)[i] && Keys(r')[j] == Keys(r)[j];
      }
    }
  }
}
