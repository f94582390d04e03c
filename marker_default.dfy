/**
 * The Views style plugin `MarkerDefault` (leaflet_views/src/Plugin/views/style/MarkerDefault.php): it renders
 * every row of every grouping set through the row plugin, concatenates each set's rendered rows into its
 * features, and lets `renderLeafletGroup` decide whether a set is spliced into the output as a flat list or
 * appended as one group entry.
 */
module MarkerDefault {
  import opened Common
  import opened Php

  /** The view object whose `row_index` property the plugin sets while rows are rendered. */
  class View {
    var rowIndex: Option<nat>

    constructor ()
      ensures rowIndex == None
    {
      rowIndex := None;
    }
  }

  /** One grouping set: its `group` label and its rows, each with the result index it is keyed by. */
  datatype GroupingSet<R> = GroupingSet(group: Value, rows: seq<(nat, R)>)

  /**
   * What `renderLeafletGroup` returns: a plain list of features (no `group` key, so `empty()` holds), or
   * an array `{group: TRUE, label: title, features}`.
   */
  datatype GroupResult = FeatureList(items: seq<Entry>) | GroupArray(title: Value, features: seq<Entry>)

  /** The base `renderLeafletGroup`. */
  function RenderLeafletGroup(features: seq<Entry>, title: Value, level: nat): GroupResult
  {
    FeatureList(features)
  }

  /** The base `renderLeafletGroup` hands its features back as a list, whatever the title and level. */
  lemma BaseGroupIgnoresTitleAndLevel(features: seq<Entry>, t1: Value, l1: nat, t2: Value, l2: nat)
    ensures RenderLeafletGroup(features, t1, l1) == RenderLeafletGroup(features, t2, l2)
    ensures RenderLeafletGroup(features, t1, l1).FeatureList?
    ensures RenderLeafletGroup(features, t1, l1).items == features
  {
  }

  /** Each row of a set rendered by the row plugin, which sees `row_index` set to that row's index. */
  function RenderedRows<R>(rows: seq<(nat, R)>, renderRow: (Option<nat>, R) -> seq<Entry>): (rendered: seq<seq<Entry>>)
    ensures |rendered| == |rows|
  {
    seq(|rows|, i requires 0 <= i < |rows| => renderRow(Some(rows[i].0), rows[i].1))
  }

  /** `$set['features']`: the set's rendered rows merged in row order. */
  function SetFeatures<R>(gs: GroupingSet<R>, renderRow: (Option<nat>, R) -> seq<Entry>): seq<Entry>
  {
    Flatten(RenderedRows(gs.rows, renderRow))
  }

  /** Splice a flat list into the output, or append a group array as one entry. */
  function Place(output: seq<Entry>, g: GroupResult): seq<Entry>
  {
    if g.FeatureList? then output + g.items else output + [Group(g.title, g.features)]
  }

  /** The output of `renderGroupingSets` for the given sets, under a given `renderLeafletGroup`. */
  function GroupingSetsOutput<R>(
    sets: seq<GroupingSet<R>>,
    level: nat,
    renderRow: (Option<nat>, R) -> seq<Entry>,
    renderLeafletGroup: (seq<Entry>, Value, nat) -> GroupResult): seq<Entry>
  {
    if sets == [] then []
    else
      var last := sets[|sets| - 1];
      Place(GroupingSetsOutput(sets[..|sets| - 1], level, renderRow, renderLeafletGroup),
            renderLeafletGroup(SetFeatures(last, renderRow), last.group, level))
  }

  /**
   * `renderGroupingSets`: renders the rows in place with `row_index` set, merges them into the set's
   * features, places the result of `renderLeafletGroup`, and unsets `row_index` at the end.
   */
  method RenderGroupingSets<R>(
    view: View,
    sets: seq<GroupingSet<R>>,
    level: nat,
    renderRow: (Option<nat>, R) -> seq<Entry>,
    renderLeafletGroup: (seq<Entry>, Value, nat) -> GroupResult)
    returns (output: seq<Entry>)
    modifies view
    ensures output == GroupingSetsOutput(sets, level, renderRow, renderLeafletGroup)
    ensures view.rowIndex == None
  {
    output := [];
    var s := 0;
    while s < |sets|
      invariant 0 <= s <= |sets|
      invariant output == GroupingSetsOutput(sets[..s], level, renderRow, renderLeafletGroup)
    {
      var gs := sets[s];
      var rendered: seq<seq<Entry>> := [];
      var r := 0;
      while r < |gs.rows|
        invariant 0 <= r <= |gs.rows|
        invariant |rendered| == r
        invariant forall i :: 0 <= i < r ==> rendered[i] == renderRow(Some(gs.rows[i].0), gs.rows[i].1)
      {
        view.rowIndex := Some(gs.rows[r].0);
        rendered := rendered + [renderRow(view.rowIndex, gs.rows[r].1)];
        r := r + 1;
      }
      assert rendered == RenderedRows(gs.rows, renderRow);
      var features: seq<Entry> := [];
      var g := 0;
      while g < |rendered|
        invariant 0 <= g <= |rendered|
        invariant features == Flatten(rendered[..g])
      {
        assert rendered[..g + 1][..g] == rendered[..g];
        features := features + rendered[g];
        g := g + 1;
      }
      assert rendered[..g] == rendered;
      var featureGroup := renderLeafletGroup(features, gs.group, level);
      if featureGroup.FeatureList? {
        output := output + featureGroup.items;
      } else {
        output := output + [Group(featureGroup.title, featureGroup.features)];
      }
      assert sets[..s + 1][..s] == sets[..s];
      s := s + 1;
    }
    assert sets[..s] == sets;
    view.rowIndex := None;
  }

  /** A set's features are the rendered rows in row order: splitting the rows splits the features. */
  lemma SetFeaturesSplit<R>(group: Value, a: seq<(nat, R)>, b: seq<(nat, R)>, renderRow: (Option<nat>, R) -> seq<Entry>)
    ensures SetFeatures(GroupingSet(group, a + b), renderRow)
         == SetFeatures(GroupingSet(group, a), renderRow) + SetFeatures(GroupingSet(group, b), renderRow)
  {
    assert RenderedRows(a + b, renderRow) == RenderedRows(a, renderRow) + RenderedRows(b, renderRow);
    FlattenAppend(RenderedRows(a, renderRow), RenderedRows(b, renderRow));
  }

  /** The sets are processed independently and in order. */
  lemma {:induction false} OutputAppend<R>(
    a: seq<GroupingSet<R>>,
    b: seq<GroupingSet<R>>,
    level: nat,
    renderRow: (Option<nat>, R) -> seq<Entry>,
    renderLeafletGroup: (seq<Entry>, Value, nat) -> GroupResult)
    ensures GroupingSetsOutput(a + b, level, renderRow, renderLeafletGroup)
         == GroupingSetsOutput(a, level, renderRow, renderLeafletGroup) + GroupingSetsOutput(b, level, renderRow, renderLeafletGroup)
    decreases |b|
  {
    if b == [] {
      assert a + b == a;
    } else {
      var n := |b| - 1;
      assert (a + b)[..|a + b| - 1] == a + b[..n];
      assert (a + b)[|a + b| - 1] == b[n];
      var g := renderLeafletGroup(SetFeatures(b[n], renderRow), b[n].group, level);
      OutputAppend(a, b[..n], level, renderRow, renderLeafletGroup);
      PlaceAppend(GroupingSetsOutput(a, level, renderRow, renderLeafletGroup),
        GroupingSetsOutput(b[..n], level, renderRow, renderLeafletGroup), g);
    }
  }

  lemma PlaceAppend(x: seq<Entry>, y: seq<Entry>, g: GroupResult)
    ensures Place(x + y, g) == x + Place(y, g)
  {
  }

  /** The features of every set, in set order. */
  function AllSetFeatures<R>(sets: seq<GroupingSet<R>>, renderRow: (Option<nat>, R) -> seq<Entry>): (all: seq<seq<Entry>>)
    ensures |all| == |sets|
  {
    seq(|sets|, i requires 0 <= i < |sets| => SetFeatures(sets[i], renderRow))
  }

  /**
   * With the base `renderLeafletGroup`, the output is every set's features concatenated in set order:
   * nothing is dropped or duplicated and no group entry is made.
   */
  lemma {:induction false} BaseFlattensSets<R>(sets: seq<GroupingSet<R>>, level: nat, renderRow: (Option<nat>, R) -> seq<Entry>)
    ensures GroupingSetsOutput(sets, level, renderRow, RenderLeafletGroup) == Flatten(AllSetFeatures(sets, renderRow))
    decreases |sets|
  {
    if sets != [] {
      var n := |sets| - 1;
      BaseFlattensSets(sets[..n], level, renderRow);
      assert AllSetFeatures(sets, renderRow)[..n] == AllSetFeatures(sets[..n], renderRow);
    }
  }
}
