/** Where the keys of a list are seen for the first time. */
module FirstSeen {

  predicate IsFirst(keys: seq<string>, p: nat)
    requires p < |keys|
  {
    forall q | 0 <= q < p :: keys[q] != keys[p]
  }

  /** The positions, among the first `n`, of keys not seen before, in order. */
  function Firsts(keys: seq<string>, n: nat): (r: seq<nat>)
    requires n <= |keys|
    ensures forall k | 0 <= k < |r| :: r[k] < n
  {
    if n == 0 then [] else Firsts(keys, n - 1) + (if IsFirst(keys, n - 1) then [n - 1] else [])
  }

  lemma {:induction false} FirstsAre(keys: seq<string>, n: nat)
    requires n <= |keys|
    ensures forall k | 0 <= k < |Firsts(keys, n)| :: IsFirst(keys, Firsts(keys, n)[k])
    ensures forall j, k | 0 <= j < k < |Firsts(keys, n)| :: Firsts(keys, n)[j] < Firsts(keys, n)[k]
  {
    if n > 0 {
      FirstsAre(keys, n - 1);
    }
  }

  lemma {:induction false} FirstsPrefix(keys: seq<string>, key: string, n: nat)
    requires n <= |keys|
    ensures Firsts(keys + [key], n) == Firsts(keys, n)
  {
    if n > 0 {
      FirstsPrefix(keys, key, n - 1);
      assert forall q | 0 <= q < n :: (keys + [key])[q] == keys[q];
    }
  }

  /** A key seen before adds nothing, a new one adds its position. */
  lemma FirstsGrow(keys: seq<string>, key: string)
    ensures Firsts(keys + [key], |keys| + 1) == Firsts(keys, |keys|) + (if key in keys then [] else [|keys|])
  {
    FirstsPrefix(keys, key, |keys|);
    assert (keys + [key])[..|keys|] == keys;
  }

  /** Different first positions have different keys. */
  lemma FirstsDiffer(keys: seq<string>, n: nat, j: nat, k: nat)
    requires n <= |keys| && j < |Firsts(keys, n)| && k < |Firsts(keys, n)| && j != k
    ensures keys[Firsts(keys, n)[j]] != keys[Firsts(keys, n)[k]]
  {
    FirstsAre(keys, n);
    var f := Firsts(keys, n);
    var a, b := if j < k then f[j] else f[k], if j < k then f[k] else f[j];
    assert IsFirst(keys, b) && a < b;
  }

  /** Every key has a first position. */
  lemma {:induction false} EveryKeyFirst(keys: seq<string>, n: nat, p: nat)
    requires p < n <= |keys|
    ensures exists k :: 0 <= k < |Firsts(keys, n)| && keys[Firsts(keys, n)[k]] == keys[p]
  {
    var f, g := Firsts(keys, n - 1), Firsts(keys, n);
    assert f <= g;
    if p < n - 1 {
      EveryKeyFirst(keys, n - 1, p);
      var k :| 0 <= k < |f| && keys[f[k]] == keys[p];
      assert g[k] == f[k];
    } else if IsFirst(keys, p) {
      assert g[|f|] == p;
    } else {
      var q :| 0 <= q < p && keys[q] == keys[p];
      EveryKeyFirst(keys, n - 1, q);
      var k :| 0 <= k < |f| && keys[f[k]] == keys[q];
      assert g[k] == f[k];
    }
  }

  function KeySet(keys: seq<string>): set<string> {
    set x | x in keys
  }

  /** There are as many first positions as different keys. */
  lemma {:induction false} FirstsCount(keys: seq<string>, n: nat)
    requires n <= |keys|
    ensures |Firsts(keys, n)| == |KeySet(keys[..n])|
  {
    if n > 0 {
      FirstsCount(keys, n - 1);
      KeysNext(keys, n - 1);
    }
  }

  lemma KeysNext(keys: seq<string>, n: nat)
    requires n < |keys|
    ensures |KeySet(keys[..n + 1])| == |KeySet(keys[..n])| + (if IsFirst(keys, n) then 1 else 0)
  {
    var before := KeySet(keys[..n]);
    assert keys[..n + 1] == keys[..n] + [keys[n]];
    assert KeySet(keys[..n + 1]) == before + {keys[n]};
    assert IsFirst(keys, n) <==> keys[n] !in before;
    assert keys[n] in before ==> before + {keys[n]} == before;
  }
}
