/** The dialog that lets the user pick which fetched tasks to import: one
    checkbox per task, all ticked at first, and an import button that keeps
    the tasks whose box is ticked, in their original order. */
module ImportModal {
  import opened Wrappers
  import opened TaskBuilder

  /** Box `i` counts as ticked: a box past the end reads as `undefined`, which is falsy. */
  predicate Kept(keep: seq<bool>, i: nat) {
    i < |keep| && keep[i]
  }

  /** `tasks.filter((_, i) => selected[i])`. */
  function Filter(ts: seq<FormattedTask>, keep: seq<bool>): seq<FormattedTask> {
    if ts == [] then []
    else
      var n := |ts| - 1;
      Filter(ts[..n], keep) + (if Kept(keep, n) then [ts[n]] else [])
  }

  /** The positions below `n` whose box is ticked, in increasing order. */
  function KeptIndices(n: nat, keep: seq<bool>): (r: seq<nat>)
    ensures forall k :: 0 <= k < |r| ==> r[k] < n
    ensures forall k, l :: 0 <= k < l < |r| ==> r[k] < r[l]
    ensures forall i :: 0 <= i < n ==> (i in r <==> Kept(keep, i))
  {
    if n == 0 then [] else KeptIndices(n - 1, keep) + (if Kept(keep, n - 1) then [n - 1] else [])
  }

  /** The import keeps exactly the ticked tasks, in their original order. */
  lemma {:induction false} FilterSelects(ts: seq<FormattedTask>, keep: seq<bool>)
    ensures var idx := KeptIndices(|ts|, keep);
      |Filter(ts, keep)| == |idx| && forall k :: 0 <= k < |idx| ==> Filter(ts, keep)[k] == ts[idx[k]]
    decreases |ts|
  {
    if ts != [] {
      var n := |ts| - 1;
      FilterSelects(ts[..n], keep);
      assert KeptIndices(|ts[..n]|, keep) == KeptIndices(n, keep);
    }
  }

  /** Everything is imported exactly when every box is ticked. */
  lemma {:induction false} FilterKeepsAll(ts: seq<FormattedTask>, keep: seq<bool>)
    ensures Filter(ts, keep) == ts <==> forall i :: 0 <= i < |ts| ==> Kept(keep, i)
    decreases |ts|
  {
    if ts != [] {
      var n := |ts| - 1;
      FilterKeepsAll(ts[..n], keep);
      FilterShorter(ts[..n], keep);
      if Filter(ts, keep) == ts {
        assert Filter(ts[..n], keep) == Filter(ts, keep)[..n];
      }
    }
  }

  lemma {:induction false} FilterShorter(ts: seq<FormattedTask>, keep: seq<bool>)
    ensures |Filter(ts, keep)| <= |ts|
    decreases |ts|
  {
    if ts != [] {
      FilterShorter(ts[..|ts| - 1], keep);
    }
  }

  /** The boxes as the dialog opens: every one ticked. */
  function AllTicked(n: nat): (r: seq<bool>)
    ensures |r| == n && forall i :: 0 <= i < n ==> Kept(r, i)
  {
    seq(n, i => true)
  }

  /** The boxes after the user's clicks, each `(index, checked)`, one after the other. */
  function Toggled(start: seq<bool>, clicks: seq<(nat, bool)>): (r: seq<bool>)
    ensures |r| == |start|
  {
    if clicks == [] then start
    else
      var prev := Toggled(start, clicks[..|clicks| - 1]);
      var click := clicks[|clicks| - 1];
      if click.0 < |prev| then prev[click.0 := click.1] else prev
  }

  /** The value of the last click on box `i`, if it was clicked at all. */
  function LastClick(clicks: seq<(nat, bool)>, i: nat): Option<bool> {
    if clicks == [] then None
    else if clicks[|clicks| - 1].0 == i then Some(clicks[|clicks| - 1].1)
    else LastClick(clicks[..|clicks| - 1], i)
  }

  /** A box ends as the last click on it left it, or as it started when it was never clicked. */
  lemma {:induction false} ToggledLastClick(start: seq<bool>, clicks: seq<(nat, bool)>, i: nat)
    requires i < |start|
    ensures Toggled(start, clicks)[i] == if LastClick(clicks, i).Some? then LastClick(clicks, i).value else start[i]
    decreases |clicks|
  {
    if clicks != [] {
      ToggledLastClick(start, clicks[..|clicks| - 1], i);
    }
  }

  class TaskImportModal {
    const tasks: seq<FormattedTask>
    const selected: array<bool>

    /** One box per task, as many boxes as tasks. */
    ghost predicate Valid()
      reads this
    {
      selected.Length == |tasks|
    }

    /** Every box starts ticked. */
    constructor(tasks: seq<FormattedTask>)
      ensures Valid() && this.tasks == tasks && fresh(selected)
      ensures selected[..] == AllTicked(|tasks|)
    {
      this.tasks := tasks;
      selected := new bool[|tasks|](i => true);
    }

    /** The `onchange` handler of box `index`. */
    method SetChecked(index: nat, checked: bool)
      requires index < selected.Length
      modifies selected
      ensures selected[..] == old(selected[..])[index := checked]
    {
      selected[index] := checked;
    }

    /** The user's clicks on the boxes, one handler call each. */
    method Click(clicks: seq<(nat, bool)>)
      modifies selected
      ensures selected[..] == Toggled(old(selected[..]), clicks)
    {
      ghost var start := selected[..];
      var c := 0;
      while c < |clicks|
        invariant 0 <= c <= |clicks|
        invariant selected[..] == Toggled(start, clicks[..c])
      {
        assert clicks[..c + 1][..c] == clicks[..c];
        if clicks[c].0 < selected.Length {
          SetChecked(clicks[c].0, clicks[c].1);
        }
        c := c + 1;
      }
      assert clicks[..|clicks|] == clicks;
    }

    /** The import button: the ticked tasks, in order. */
    method ImportSelected() returns (chosen: seq<FormattedTask>)
      requires Valid()
      ensures chosen == Filter(tasks, selected[..])
    {
      chosen := Filter(tasks, selected[..]);
    }
  }
}
