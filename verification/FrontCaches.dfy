/** A thread's front cache as the code lays it out, and what draining the caches comes to. */
module FrontCaches {
  import opened Wrappers
  import opened PoolModel
  import opened PoolSizes

  /** A per-bucket front stack: `slots` is a fixed array whose entries from `len` on are stale. */
  datatype Front = Front(len: nat, slots: seq<nat>)

  predicate FrontOk(f: Front) { |f.slots| == FRONT_CAP && f.len <= FRONT_CAP }

  function Stack(f: Front): seq<nat>
    requires FrontOk(f)
  {
    f.slots[..f.len]
  }

  predicate FrontsOk(fronts: seq<seq<Front>>) {
    forall t, i :: 0 <= t < |fronts| && 0 <= i < |fronts[t]| ==> FrontOk(fronts[t][i])
  }

  predicate RowOk(row: seq<Front>) { forall i :: 0 <= i < |row| ==> FrontOk(row[i]) }

  function Row(row: seq<Front>): (r: seq<seq<nat>>)
    requires RowOk(row)
    ensures |r| == |row| && forall i :: 0 <= i < |r| ==> r[i] == Stack(row[i])
  {
    seq(|row|, i requires 0 <= i < |row| => Stack(row[i]))
  }

  function Rows(fronts: seq<seq<Front>>): (r: seq<seq<seq<nat>>>)
    requires FrontsOk(fronts)
    ensures |r| == |fronts| && forall t :: 0 <= t < |r| ==> r[t] == Row(fronts[t])
  {
    seq(|fronts|, t requires 0 <= t < |fronts| => Row(fronts[t]))
  }

  lemma {:induction false} RowsUpdate(fronts: seq<seq<Front>>, t: nat, i: nat, f: Front)
    requires FrontsOk(fronts) && t < |fronts| && i < |fronts[t]| && FrontOk(f)
    ensures FrontsOk(fronts[t := fronts[t][i := f]])
    ensures Rows(fronts[t := fronts[t][i := f]]) == Rows(fronts)[t := Rows(fronts)[t][i := Stack(f)]]
  {
    var u := fronts[t := fronts[t][i := f]];
    assert FrontsOk(u);
    assert Row(u[t]) == Row(fronts[t])[i := Stack(f)];
    assert Rows(u) == Rows(fronts)[t := Rows(fronts)[t][i := Stack(f)]];
  }

  function NewRow(): (r: seq<Front>)
    ensures |r| == NUM_BUCKETS && RowOk(r) && Row(r) == EmptyFront()
  {
    var r := seq(NUM_BUCKETS, (i: nat) => Front(0, [0, 0, 0, 0]));
    assert Row(r) == EmptyFront();
    r
  }

  lemma {:induction false} FreeAllConcat(d: Driver, a: seq<nat>, b: seq<nat>)
    ensures FreeAll(d, a + b) == FreeAll(FreeAll(d, a), b)
    decreases |a|
  {
    if a == [] {
      assert a + b == b;
    } else {
      assert (a + b)[0] == a[0] && (a + b)[1..] == a[1..] + b;
      FreeAllConcat(Free(d, a[0]), a[1..], b);
    }
  }

  lemma {:induction false} ConcatSnoc(stacks: seq<seq<nat>>, st: seq<nat>)
    ensures Concat(stacks + [st]) == Concat(stacks) + st
  {
    if stacks == [] {
      assert Concat([st]) == st + Concat([st][1..]);
    } else {
      ConcatSnoc(stacks[1..], st);
      assert (stacks + [st])[1..] == stacks[1..] + [st];
    }
  }

  lemma {:induction false} ConcatFrontsSnoc(fronts: seq<seq<seq<nat>>>, f: seq<seq<nat>>)
    ensures ConcatFronts(fronts + [f]) == ConcatFronts(fronts) + Concat(f)
  {
    if fronts == [] {
      assert ConcatFronts([f]) == Concat(f) + ConcatFronts([f][1..]);
    } else {
      ConcatFrontsSnoc(fronts[1..], f);
      assert (fronts + [f])[1..] == fronts[1..] + [f];
      var a, b, c := Concat(fronts[0]), ConcatFronts(fronts[1..]), Concat(f);
      assert a + (b + c) == (a + b) + c;
    }
  }

  /** Freeing the first rows and then the next is freeing one row more. */
  lemma {:induction false} FreeNextRow(d: Driver, rows: seq<seq<seq<nat>>>, t: nat)
    requires t < |rows|
    ensures FreeAll(d, ConcatFronts(rows[..t + 1])) == FreeAll(FreeAll(d, ConcatFronts(rows[..t])), Concat(rows[t]))
  {
    ConcatFrontsSnoc(rows[..t], rows[t]);
    FreeAllConcat(d, ConcatFronts(rows[..t]), Concat(rows[t]));
    assert rows[..t + 1] == rows[..t] + [rows[t]];
  }

  lemma {:induction false} EmptyRows(fronts: seq<seq<Front>>)
    requires FrontsOk(fronts)
    requires forall t :: 0 <= t < |fronts| ==> |fronts[t]| == NUM_BUCKETS
    requires forall t, j :: 0 <= t < |fronts| && 0 <= j < |fronts[t]| ==> fronts[t][j].len == 0
    ensures Rows(fronts) == EmptyFronts(|fronts|)
  {
    forall t | 0 <= t < |fronts| ensures Rows(fronts)[t] == EmptyFront() {
      assert Row(fronts[t]) == EmptyFront();
    }
  }

  lemma {:induction false} ConcatEmpty(stacks: seq<seq<nat>>)
    requires forall i :: 0 <= i < |stacks| ==> stacks[i] == []
    ensures Concat(stacks) == []
  {
    if stacks != [] { ConcatEmpty(stacks[1..]); }
  }

  lemma {:induction false} ConcatFrontsEmpty(fronts: seq<seq<seq<nat>>>)
    requires forall t :: 0 <= t < |fronts| ==> fronts[t] == EmptyFront()
    ensures ConcatFronts(fronts) == []
  {
    if fronts != [] {
      ConcatEmpty(fronts[0]);
      ConcatFrontsEmpty(fronts[1..]);
    }
  }

  lemma {:induction false} ConcatNothing(stacks: seq<seq<nat>>, i: nat)
    requires Concat(stacks) == [] && i < |stacks|
    ensures stacks[i] == []
  {
    if i > 0 { ConcatNothing(stacks[1..], i - 1); }
  }

  lemma {:induction false} ConcatFrontsNothing(fronts: seq<seq<seq<nat>>>, t: nat)
    requires ConcatFronts(fronts) == [] && t < |fronts|
    ensures Concat(fronts[t]) == []
  {
    if t > 0 { ConcatFrontsNothing(fronts[1..], t - 1); }
  }

  /** Nothing cached means every stack is empty. */
  lemma {:induction false} NothingCached(s: State)
    requires Shaped(s) && Cached(s) == []
    ensures s.fronts == EmptyFronts(|s.fronts|) && s.back == EmptyFront()
  {
    forall i | 0 <= i < NUM_BUCKETS ensures s.back[i] == [] {
      ConcatNothing(s.back, i);
    }
    forall t | 0 <= t < |s.fronts| ensures s.fronts[t] == EmptyFront() {
      ConcatFrontsNothing(s.fronts, t);
      forall i | 0 <= i < NUM_BUCKETS ensures s.fronts[t][i] == [] {
        ConcatNothing(s.fronts[t], i);
      }
    }
  }

  lemma {:induction false} NothingToEmpty(s: State)
    requires Shaped(s) && Exclusive(s) && Cached(s) == []
    ensures Enabled(s, Close) && Apply(s, Close) == Shut(s)
  {
    NothingCached(s);
    assert Emptied(s) == s;
  }

  lemma {:induction false} EmptyCache(n: nat)
    ensures ConcatFronts(EmptyFronts(n)) + Concat(EmptyFront()) == []
  {
    ConcatFrontsEmpty(EmptyFronts(n));
    ConcatEmpty(EmptyFront());
  }

  /** A row with the given stacks; what the unused slots hold does not matter. */
  function Laid(stacks: seq<seq<nat>>): (r: seq<Front>)
    requires forall i :: 0 <= i < |stacks| ==> |stacks[i]| <= FRONT_CAP
    ensures RowOk(r) && Row(r) == stacks
  {
    var r := seq(|stacks|,
      i requires 0 <= i < |stacks| => Front(|stacks[i]|, stacks[i] + seq(FRONT_CAP - |stacks[i]|, j => 0)));
    assert Row(r) == stacks;
    r
  }

  /** All threads' rows, thread `t`'s being left as it is. */
  function LaidOut(rows: seq<seq<seq<nat>>>, t: nat, own: seq<Front>): (r: seq<seq<Front>>)
    requires t < |rows| && RowOk(own) && Row(own) == rows[t]
    requires forall u, i :: 0 <= u < |rows| && 0 <= i < |rows[u]| ==> |rows[u][i]| <= FRONT_CAP
    ensures FrontsOk(r) && Rows(r) == rows && r[t] == own
  {
    var r := seq(|rows|, u requires 0 <= u < |rows| => if u == t then own else Laid(rows[u]));
    assert FrontsOk(r) by {
      forall u | 0 <= u < |r| ensures RowOk(r[u]) {}
    }
    assert Rows(r) == rows;
    r
  }
}
