/** The session's list of recently touched files: at most 32, one entry a path, the latest touch last. */
module FileHistory {

  const MAX_FILES := 32

  datatype Touch = Touch(path: string, action: string)

  // ---------------------------------------------------------------- the unbounded history

  predicate Touches(ts: seq<Touch>, path: string) {
    exists i :: 0 <= i < |ts| && ts[i].path == path
  }

  /** Every touch that no later touch of the same path replaces, in order. */
  function Latest(ts: seq<Touch>): seq<Touch> {
    if ts == [] then []
    else (if Touches(ts[1..], ts[0].path) then [] else [ts[0]]) + Latest(ts[1..])
  }

  function LastOf(ts: seq<Touch>, n: nat): seq<Touch> {
    if |ts| <= n then ts else ts[|ts| - n..]
  }

  function Without(ts: seq<Touch>, path: string): seq<Touch> {
    if ts == [] then []
    else (if ts[0].path == path then [] else [ts[0]]) + Without(ts[1..], path)
  }

  predicate Distinct(ts: seq<Touch>) {
    forall i, j | 0 <= i < j < |ts| :: ts[i].path != ts[j].path
  }

  /** One more touch replaces the path's earlier entry, wherever it is, and goes last. */
  lemma {:induction false} LatestExtend(ts: seq<Touch>, t: Touch)
    ensures Latest(ts + [t]) == Without(Latest(ts), t.path) + [t]
  {
    if ts == [] {
      assert ts + [t] == [t];
      assert Latest([t]) == [t];
    } else {
      var first, rest := ts[0], ts[1..];
      assert (ts + [t])[1..] == rest + [t];
      LatestExtend(rest, t);
      TouchesExtend(rest, t, first.path);
      if Touches(rest, first.path) {
        assert Latest(ts) == Latest(rest);
      } else {
        WithoutFirst(first, Latest(rest), t.path);
      }
    }
  }

  lemma WithoutFirst(first: Touch, rest: seq<Touch>, path: string)
    ensures Without([first] + rest, path) == (if first.path == path then [] else [first]) + Without(rest, path)
  {
    assert ([first] + rest)[1..] == rest;
  }

  lemma TouchesExtend(ts: seq<Touch>, t: Touch, path: string)
    ensures Touches(ts + [t], path) <==> Touches(ts, path) || t.path == path
  {
    if Touches(ts, path) {
      var i :| 0 <= i < |ts| && ts[i].path == path;
      assert (ts + [t])[i].path == path;
    }
    assert (ts + [t])[|ts|] == t;
  }

  lemma {:induction false} LatestWithin(ts: seq<Touch>, k: nat)
    requires k < |Latest(ts)|
    ensures Touches(ts, Latest(ts)[k].path)
  {
    var rest := ts[1..];
    var kept := if Touches(rest, ts[0].path) then 0 else 1;
    if k >= kept {
      LatestWithin(rest, k - kept);
      var i :| 0 <= i < |rest| && rest[i].path == Latest(rest)[k - kept].path;
      assert ts[i + 1] == rest[i];
    } else {
      assert ts[0].path == Latest(ts)[0].path;
    }
  }

  lemma {:induction false} LatestDistinct(ts: seq<Touch>)
    ensures Distinct(Latest(ts))
  {
    if ts != [] {
      var rest := ts[1..];
      LatestDistinct(rest);
      forall k | 0 <= k < |Latest(rest)|
        ensures Touches(rest, Latest(rest)[k].path)
      {
        LatestWithin(rest, k);
      }
    }
  }

  // ---------------------------------------------------------------- the bounded list

  lemma {:induction false} WithoutNone(ts: seq<Touch>, path: string)
    requires !Touches(ts, path)
    ensures Without(ts, path) == ts
  {
    if ts != [] {
      assert ts[0].path != path;
      WithoutNone(ts[1..], path);
    }
  }

  /** Among distinct paths, taking one out removes exactly its position. */
  lemma {:induction false} WithoutAt(ts: seq<Touch>, k: nat)
    requires Distinct(ts) && k < |ts|
    ensures Without(ts, ts[k].path) == ts[..k] + ts[k + 1..]
  {
    if k == 0 {
      assert !Touches(ts[1..], ts[0].path);
      WithoutNone(ts[1..], ts[0].path);
    } else {
      WithoutAt(ts[1..], k - 1);
      assert ts[1..][..k - 1] == ts[1..k] && ts[1..][k..] == ts[k + 1..];
    }
  }

  /** Whatever is in front of enough entries does not show in the last ones. */
  lemma SuffixLast(front: seq<Touch>, back: seq<Touch>, n: nat)
    requires front == [] || |back| >= n
    ensures LastOf(front + back, n) == LastOf(back, n)
  {
    assert front == [] ==> front + back == back;
  }

  /** Bounding first and then taking a path out gives the same last entries as taking it out of everything. */
  lemma BoundedStep(all: seq<Touch>, t: Touch)
    requires Distinct(all)
    ensures LastOf(Without(LastOf(all, MAX_FILES), t.path) + [t], MAX_FILES)
         == LastOf(Without(all, t.path) + [t], MAX_FILES)
  {
    var bounded := LastOf(all, MAX_FILES);
    var front := all[..|all| - |bounded|];
    assert all == front + bounded;
    if Touches(front, t.path) {
      var k :| 0 <= k < |front| && front[k].path == t.path;
      EvictedReturns(front, bounded, k, t);
    } else {
      WithoutBack(front, bounded, t.path);
      var back := Without(bounded, t.path) + [t];
      assert Without(all, t.path) + [t] == front + back;
      WithoutLength(bounded, t.path);
      SuffixLast(front, back, MAX_FILES);
    }
  }

  /** A path that had been evicted comes back. */
  lemma EvictedReturns(front: seq<Touch>, bounded: seq<Touch>, k: nat, t: Touch)
    requires Distinct(front + bounded) && k < |front| && front[k].path == t.path && |bounded| == MAX_FILES
    ensures LastOf(Without(bounded, t.path) + [t], MAX_FILES)
         == LastOf(Without(front + bounded, t.path) + [t], MAX_FILES)
  {
    WithoutFront(front, bounded, k);
    BackUntouched(front, bounded, k);
    WithoutNone(bounded, t.path);
    var rest := front[..k] + front[k + 1..];
    assert rest + bounded + [t] == rest + (bounded + [t]);
    SuffixLast(rest, bounded + [t], MAX_FILES);
  }

  lemma WithoutFront(front: seq<Touch>, back: seq<Touch>, k: nat)
    requires Distinct(front + back) && k < |front|
    ensures Without(front + back, front[k].path) == front[..k] + front[k + 1..] + back
  {
    var all := front + back;
    assert all[k] == front[k];
    WithoutAt(all, k);
    assert all[..k] == front[..k] && all[k + 1..] == front[k + 1..] + back;
  }

  lemma BackUntouched(front: seq<Touch>, back: seq<Touch>, k: nat)
    requires Distinct(front + back) && k < |front|
    ensures !Touches(back, front[k].path)
  {
    var all := front + back;
    forall i | 0 <= i < |back|
      ensures back[i].path != front[k].path
    {
      assert all[|front| + i] == back[i] && all[k] == front[k];
    }
  }

  lemma {:induction false} WithoutBack(front: seq<Touch>, back: seq<Touch>, path: string)
    requires !Touches(front, path)
    ensures Without(front + back, path) == front + Without(back, path)
  {
    if front == [] {
      assert front + back == back;
    } else {
      assert front[0].path != path;
      assert (front + back)[1..] == front[1..] + back;
      WithoutBack(front[1..], back, path);
    }
  }

  /** Among distinct paths at most one entry goes. */
  lemma WithoutLength(ts: seq<Touch>, path: string)
    requires Distinct(ts)
    ensures |Without(ts, path)| >= |ts| - 1
  {
    if Touches(ts, path) {
      var k :| 0 <= k < |ts| && ts[k].path == path;
      WithoutAt(ts, k);
    } else {
      WithoutNone(ts, path);
    }
  }

  class OperationalState {
    var files: seq<Touch>
    ghost var touched: seq<Touch>

    /** The list is the end of the unbounded history. */
    ghost predicate Valid()
      reads this
    {
      files == LastOf(Latest(touched), MAX_FILES)
    }

    constructor ()
      ensures Valid() && touched == []
    {
      files, touched := [], [];
    }

    method RecordFile(touch: Touch)
      requires Valid()
      modifies this
      ensures Valid() && touched == old(touched) + [touch]
    {
      LatestDistinct(touched);
      LatestExtend(touched, touch);
      BoundedStep(Latest(touched), touch);
      ghost var before := files;
      assert Distinct(files);
      var index := IndexOf(files, touch.path);
      if index < |files| {
        WithoutAt(files, index);
        files := files[..index] + files[index + 1..];
      } else {
        WithoutNone(files, touch.path);
      }
      files := files + [touch];
      touched := touched + [touch];
      if |files| > MAX_FILES {
        files := files[|files| - MAX_FILES..];
      }
    }
  }

  /** The first entry of a path, or the length when there is none. */
  method IndexOf(ts: seq<Touch>, path: string) returns (k: nat)
    ensures k <= |ts| && (k < |ts| ==> ts[k].path == path) && forall i | 0 <= i < k :: ts[i].path != path
  {
    k := 0;
    while k < |ts| && ts[k].path != path
      invariant k <= |ts| && forall i | 0 <= i < k :: ts[i].path != path
    {
      k := k + 1;
    }
  }
}
