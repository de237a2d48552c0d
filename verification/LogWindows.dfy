/** The windows of the burn scanner. */
module LogWindows {
  import opened Protocol

  datatype Window = Window(from: nat, to: nat)

  /** Windows that follow one another without gap or overlap from `last` + 1 up
      to `to`, none longer than ten blocks. */
  predicate Tiles(windows: seq<Window>, last: nat, to: nat) {
    if windows == [] then to == last
    else
      var w := windows[|windows| - 1];
      && last < w.from <= w.to < w.from + MAX_LOG_RANGE && w.to == to
      && Tiles(windows[..|windows| - 1], last, w.from - 1)
  }

  lemma TilesExtend(windows: seq<Window>, last: nat, from: nat, to: nat)
    requires last < from <= to < from + MAX_LOG_RANGE && Tiles(windows, last, from - 1)
    ensures Tiles(windows + [Window(from, to)], last, to)
  {
    assert (windows + [Window(from, to)])[..|windows|] == windows;
  }

  lemma {:induction false} TilesGoUp(windows: seq<Window>, last: nat, to: nat)
    requires Tiles(windows, last, to)
    ensures last <= to && forall k :: 0 <= k < |windows| ==> windows[k].to <= to
  {
    if windows != [] {
      var n := |windows| - 1;
      TilesGoUp(windows[..n], last, windows[n].from - 1);
      assert forall k :: 0 <= k < n ==> windows[..n][k] == windows[k];
    }
  }

  lemma {:induction false} TilesInOrder(windows: seq<Window>, last: nat, to: nat)
    requires Tiles(windows, last, to)
    ensures forall k, m :: 0 <= k < m < |windows| ==> windows[k].to < windows[m].from
  {
    if windows != [] {
      var n := |windows| - 1;
      TilesInOrder(windows[..n], last, windows[n].from - 1);
      TilesGoUp(windows[..n], last, windows[n].from - 1);
      assert forall k :: 0 <= k < n ==> windows[..n][k] == windows[k];
    }
  }

  predicate Covered(windows: seq<Window>, block: nat) {
    exists k :: 0 <= k < |windows| && windows[k].from <= block <= windows[k].to
  }

  lemma CoveredByLast(windows: seq<Window>, block: nat)
    requires windows != []
    ensures var n := |windows| - 1;
      Covered(windows, block) <==> Covered(windows[..n], block) || windows[n].from <= block <= windows[n].to
  {
    var n := |windows| - 1;
    if k :| 0 <= k < n && windows[..n][k].from <= block <= windows[..n][k].to {
      assert windows[k] == windows[..n][k];
    }
    if k :| 0 <= k < |windows| && windows[k].from <= block <= windows[k].to && k < n {
      assert windows[..n][k] == windows[k];
    }
  }

  lemma {:induction false} TilesCover(windows: seq<Window>, last: nat, to: nat, block: nat)
    requires Tiles(windows, last, to)
    ensures last < block <= to <==> Covered(windows, block)
  {
    if windows != [] {
      var n := |windows| - 1;
      TilesCover(windows[..n], last, windows[n].from - 1, block);
      CoveredByLast(windows, block);
    }
  }

  lemma {:induction false} TilesAreShort(windows: seq<Window>, last: nat, to: nat)
    requires Tiles(windows, last, to)
    ensures forall k :: 0 <= k < |windows| ==> windows[k].from <= windows[k].to < windows[k].from + 10
  {
    if windows != [] {
      var n := |windows| - 1;
      TilesAreShort(windows[..n], last, windows[n].from - 1);
      assert forall k :: 0 <= k < n ==> windows[..n][k] == windows[k];
    }
  }

  /** Every block after `last` up to `to` lies in exactly one of the windows, none of
      which is longer than ten blocks. */
  lemma TilesCoverOnce(windows: seq<Window>, last: nat, to: nat, block: nat)
    requires Tiles(windows, last, to)
    ensures last <= to
    ensures last < block <= to <==>
      exists k :: 0 <= k < |windows| && windows[k].from <= block <= windows[k].to
    ensures forall k, m :: 0 <= k < m < |windows| ==> windows[k].to < windows[m].from
    ensures forall k :: 0 <= k < |windows| ==> windows[k].from <= windows[k].to < windows[k].from + 10
  {
    TilesAreShort(windows, last, to);
    TilesGoUp(windows, last, to);
    TilesInOrder(windows, last, to);
    TilesCover(windows, last, to, block);
  }
}
