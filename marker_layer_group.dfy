/**
 * The Views style plugin `MarkerLayerGroup` (leaflet_views/src/Plugin/views/style/MarkerLayerGroup.php):
 * a `MarkerDefault` that turns on grouping, labels the ungrouped set, and renders a row group as a
 * `LayerGroup` node. It keeps the inherited `renderLeafletGroup`.
 */
module MarkerLayerGroup {
  import opened Common
  import opened Php
  import LeafletViewsStyle
  import MarkerDefault

  /** `$sets` as an ordered keyed array: the grouping key of each set and the set. */
  type Sets<R> = seq<(string, MarkerDefault.GroupingSet<R>)>

  /** The values of a keyed array of sets, in order, as `renderGroupingSets` iterates them. */
  function SetValues<R>(sets: Sets<R>): (values: seq<MarkerDefault.GroupingSet<R>>)
    ensures |values| == |sets|
    ensures forall i :: 0 <= i < |sets| ==> values[i] == sets[i].1
  {
    seq(|sets|, i requires 0 <= i < |sets| => sets[i].1)
  }

  /** The label the ungrouped set gets: the display title when truthy, else "Label missing". */
  function FallbackLabel(title: Value): (v: Value)
    ensures Truthy(title) ==> v == title
    ensures !Truthy(title) ==> v == Message("Label missing")
    ensures Truthy(v)
  {
    if Truthy(title) then title else Message("Label missing")
  }

  function IsUngrouped<R>(entry: (string, MarkerDefault.GroupingSet<R>)): bool
  {
    entry.0 == ""
  }

  /**
   * `renderGrouping`, given what the parent's `renderGrouping` returned. With no groupings, `$sets['']['group']`
   * is written: the `''` set keeps its place and rows and gets the fallback label; when there is no such set,
   * PHP creates one, at the end, holding only the label.
   */
  function RenderGrouping<R>(parentSets: Sets<R>, groupings: seq<Value>, title: Value): (sets: Sets<R>)
    ensures groupings != [] ==> sets == parentSets
    ensures groupings == [] ==> match FirstIndex(parentSets, IsUngrouped)
      case Some(i) =>
        && |sets| == |parentSets|
        && sets[i] == ("", MarkerDefault.GroupingSet(FallbackLabel(title), parentSets[i].1.rows))
        && forall j :: 0 <= j < |sets| && j != i ==> sets[j] == parentSets[j]
      case None =>
        sets == parentSets + [("", MarkerDefault.GroupingSet(FallbackLabel(title), []))]
  {
    if groupings != [] then parentSets
    else match FirstIndex(parentSets, IsUngrouped)
      case Some(i) => parentSets[i := ("", parentSets[i].1.(group := FallbackLabel(title)))]
      case None => parentSets + [("", MarkerDefault.GroupingSet(FallbackLabel(title), []))]
  }

  /**
   * Relabelling changes no rendered feature: with the inherited `renderLeafletGroup` the sets are flattened,
   * so the output is the parent's sets flattened, labels ignored (an added label-only set has no rows).
   */
  lemma {:induction false} LabelLeavesOutputUnchanged<R>(
    parentSets: Sets<R>,
    groupings: seq<Value>,
    title: Value,
    level: nat,
    renderRow: (Option<nat>, R) -> seq<Entry>)
    ensures MarkerDefault.GroupingSetsOutput(SetValues(RenderGrouping(parentSets, groupings, title)), level, renderRow, MarkerDefault.RenderLeafletGroup)
         == MarkerDefault.GroupingSetsOutput(SetValues(parentSets), level, renderRow, MarkerDefault.RenderLeafletGroup)
  {
    var sets := RenderGrouping(parentSets, groupings, title);
    MarkerDefault.BaseFlattensSets(SetValues(sets), level, renderRow);
    MarkerDefault.BaseFlattensSets(SetValues(parentSets), level, renderRow);
    if groupings == [] {
      match FirstIndex(parentSets, IsUngrouped)
      case Some(i) =>
        assert MarkerDefault.AllSetFeatures(SetValues(sets), renderRow) == MarkerDefault.AllSetFeatures(SetValues(parentSets), renderRow);
      case None =>
        var extra := MarkerDefault.GroupingSet(FallbackLabel(title), []);
        assert MarkerDefault.AllSetFeatures(SetValues(sets), renderRow)
            == MarkerDefault.AllSetFeatures(SetValues(parentSets), renderRow) + [[]] by {
          assert MarkerDefault.SetFeatures(extra, renderRow) == [];
        }
    }
  }

  /** `renderRowGroup`: a `LayerGroup` node over the rows, without `#title`. */
  function RenderRowGroup(rows: seq<LeafletViewsStyle.Node>): LeafletViewsStyle.Node
  {
    LeafletViewsStyle.Element(Str("LayerGroup"), LeafletViewsStyle.Rows(rows), [], Null, Null)
  }

  /** A row group extracts to exactly one group, labelled NULL (no `#title`), holding its rows' features in row order. */
  lemma RowGroupIsOneUnlabelledGroup(rows: seq<LeafletViewsStyle.Node>)
    ensures LeafletViewsStyle.Extract(RenderRowGroup(rows)) == [Group(Null, LeafletViewsStyle.ExtractRows(rows))]
  {
  }

  /** `defineOptions`: the parent's option definitions, unchanged. */
  function DefineOptions(parent: map<string, Value>): (options: map<string, Value>)
    ensures options.Keys == parent.Keys
    ensures forall k :: k in parent ==> options[k] == parent[k]
  {
    parent
  }
}
