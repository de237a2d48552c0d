/** Totals over a column of a table, and how one write to the table moves them. */
module Sums {
  import opened Wrappers

  function Sum(ws: seq<nat>): nat {
    if ws == [] then 0 else Sum(ws[..|ws| - 1]) + ws[|ws| - 1]
  }

  lemma SumAppend(ws: seq<nat>, v: nat)
    ensures Sum(ws + [v]) == Sum(ws) + v
  {
    assert (ws + [v])[..|ws|] == ws;
  }

  lemma {:induction false} SumUpdate(ws: seq<nat>, i: nat, v: nat)
    requires i < |ws|
    ensures Sum(ws[i := v]) + ws[i] == Sum(ws) + v
  {
    var last := |ws| - 1;
    if i == last {
      assert ws[i := v][..last] == ws[..last];
    } else {
      SumUpdate(ws[..last], i, v);
      assert ws[i := v][..last] == ws[..last][i := v];
    }
  }

  lemma {:induction false} SumLe(ws: seq<nat>, vs: seq<nat>)
    requires |ws| == |vs|
    requires forall i :: 0 <= i < |ws| ==> ws[i] <= vs[i]
    ensures Sum(ws) <= Sum(vs)
  {
    if ws != [] {
      SumLe(ws[..|ws| - 1], vs[..|vs| - 1]);
    }
  }

  lemma {:induction false} SumZero(ws: seq<nat>)
    requires forall i :: 0 <= i < |ws| ==> ws[i] == 0
    ensures Sum(ws) == 0
  {
    if ws != [] {
      SumZero(ws[..|ws| - 1]);
    }
  }

  /** One cell changed, every other cell stayed: the total moves by exactly that cell. */
  lemma SumChange(ws: seq<nat>, vs: seq<nat>, i: nat)
    requires |ws| == |vs| && i < |ws|
    requires forall k :: 0 <= k < |ws| && k != i ==> ws[k] == vs[k]
    ensures Sum(vs) + ws[i] == Sum(ws) + vs[i]
  {
    SumUpdate(ws, i, vs[i]);
    assert ws[i := vs[i]] == vs;
  }

  /** One cell added at the end. */
  lemma SumGrow(ws: seq<nat>, vs: seq<nat>)
    requires |vs| == |ws| + 1
    requires forall k :: 0 <= k < |ws| ==> ws[k] == vs[k]
    ensures Sum(vs) == Sum(ws) + vs[|ws|]
  {
    SumAppend(ws, vs[|ws|]);
    assert ws + [vs[|ws|]] == vs;
  }

  /** Flags that agree everywhere except for one that only `all` sets. */
  lemma SumKept(all: seq<nat>, lost: seq<nat>, kept: Option<nat>)
    requires |all| == |lost|
    requires kept.Some? ==> kept.value < |all|
    requires forall i :: 0 <= i < |all| ==> all[i] == lost[i] + (if kept == Some(i) then 1 else 0)
    ensures Sum(all) == Sum(lost) + (if kept.Some? then 1 else 0)
  {
    if kept.Some? {
      SumChange(lost, all, kept.value);
    } else {
      assert all == lost;
    }
  }

  /** No cell grew and one cell lost all it had. */
  lemma SumDrop(ws: seq<nat>, vs: seq<nat>, i: nat)
    requires |ws| == |vs| && i < |ws|
    requires forall k :: 0 <= k < |ws| ==> vs[k] <= ws[k]
    requires vs[i] == 0
    ensures Sum(vs) + ws[i] <= Sum(ws)
  {
    SumUpdate(ws, i, 0);
    SumLe(vs, ws[i := 0]);
  }

  lemma {:induction false} SumPlus(xs: seq<nat>, ys: seq<nat>, zs: seq<nat>)
    requires |xs| == |ys| == |zs|
    requires forall i :: 0 <= i < |xs| ==> zs[i] == xs[i] + ys[i]
    ensures Sum(zs) == Sum(xs) + Sum(ys)
  {
    if xs != [] {
      var n := |xs| - 1;
      SumPlus(xs[..n], ys[..n], zs[..n]);
    }
  }

  lemma {:induction false} SumOfFlags(ws: seq<nat>)
    requires forall i :: 0 <= i < |ws| ==> ws[i] <= 1
    ensures Sum(ws) <= |ws|
  {
    if ws != [] {
      SumOfFlags(ws[..|ws| - 1]);
    }
  }
}
