/**
 * The Views style plugin `MarkerClusterGroup` (leaflet_views/src/Plugin/views/style/MarkerClusterGroup.php):
 * a `MarkerLayerGroup` whose `renderLeafletGroup` wraps every set into one group entry.
 */
module MarkerClusterGroup {
  import opened Common
  import opened Php
  import MarkerDefault
  import MarkerLayerGroup

  /** `renderLeafletGroup`: `{group: TRUE, label: $title, features: $features}`; the level is not used. */
  function RenderLeafletGroup(features: seq<Entry> := [], title: Value := Str(""), level: nat := 0): (g: MarkerDefault.GroupResult)
    ensures g.GroupArray?
    ensures g.title == title && g.features == features
  {
    MarkerDefault.GroupArray(title, features)
  }

  /** Called with no arguments, the group has the empty label and no features. */
  lemma DefaultArguments()
    ensures RenderLeafletGroup() == MarkerDefault.GroupArray(Str(""), [])
  {
  }

  function GroupOf(features: seq<Entry>, title: Value, level: nat): MarkerDefault.GroupResult
  {
    RenderLeafletGroup(features, title, level)
  }

  /** Every grouping set becomes exactly one group entry labelled with that set's `group`, in set order. */
  lemma {:induction false} OneGroupPerSet<R>(sets: seq<MarkerDefault.GroupingSet<R>>, level: nat, renderRow: (Option<nat>, R) -> seq<Entry>)
    ensures var out := MarkerDefault.GroupingSetsOutput(sets, level, renderRow, GroupOf);
      && |out| == |sets|
      && forall i :: 0 <= i < |sets| ==> out[i] == Group(sets[i].group, MarkerDefault.SetFeatures(sets[i], renderRow))
    decreases |sets|
  {
    if sets != [] {
      var n := |sets| - 1;
      OneGroupPerSet(sets[..n], level, renderRow);
    }
  }

  /**
   * Without groupings the parent yields the single `''` set; the cluster map then holds one group, labelled with
   * the display title or "Label missing", holding every rendered row's features in row order.
   */
  lemma UngroupedIsOneLabelledCluster<R>(group: Value, rows: seq<(nat, R)>, title: Value, level: nat, renderRow: (Option<nat>, R) -> seq<Entry>)
    ensures var sets := MarkerLayerGroup.RenderGrouping([("", MarkerDefault.GroupingSet(group, rows))], [], title);
      MarkerDefault.GroupingSetsOutput(MarkerLayerGroup.SetValues(sets), level, renderRow, GroupOf)
        == [Group(MarkerLayerGroup.FallbackLabel(title), Flatten(MarkerDefault.RenderedRows(rows, renderRow)))]
  {
    var parent := [("", MarkerDefault.GroupingSet(group, rows))];
    assert MarkerLayerGroup.IsUngrouped(parent[0]);
    assert FirstIndex(parent, MarkerLayerGroup.IsUngrouped) == Some(0);
    var values := MarkerLayerGroup.SetValues(MarkerLayerGroup.RenderGrouping(parent, [], title));
    assert values == [MarkerDefault.GroupingSet(MarkerLayerGroup.FallbackLabel(title), rows)];
    OneGroupPerSet(values, level, renderRow);
  }
}
