/**
 * The `DimensionPlotView` view plugin, the variant of `DimensionPlot` that the
 * web widget is built for. Its classifier and factory rule are the same; its
 * drop handlers only assign the one binding, its `onDatasetChanged` has no
 * guard of its own, and its `onDimensionChanged` does not check the range of
 * the picker's index.
 */
module DimensionPlotView {

  import opened Wrappers
  import opened Json
  import opened Datasets
  import opened DropRegions
  import opened PlotWebWidget
  import DimensionPlot

  // ---------------------------------------------------------------------------
  // Factory rules
  // ---------------------------------------------------------------------------

  /** `supportedDataTypes`: the plugin is offered for point datasets. */
  function SupportedDataTypes(): (r: seq<DataType>)
    ensures forall t :: t in r <==> t == PointType
  {
    [PointType]
  }

  /** `getPluginTriggerActions`: one action for a non-empty selection of point datasets. */
  function PluginTriggerActions(datasets: seq<DatasetRef>): (actions: seq<DimensionPlot.TriggerAction>)
    ensures |actions| <= 1
    ensures |actions| == 1 <==> |datasets| >= 1 && forall i :: 0 <= i < |datasets| ==> datasets[i].dataType == PointType
    ensures forall a :: a in actions ==> a == DimensionPlot.TriggerAction("Dimension Plot Viewer", "Plot dimensions", |datasets|)
  {
    if |datasets| >= 1 && AllOfType(datasets, PointType) then
      [DimensionPlot.TriggerAction("Dimension Plot Viewer", "Plot dimensions", |datasets|)]
    else
      []
  }

  /**
   * Both factories offer an action on the same selections and for the same
   * supported types; only the action's title differs.
   */
  lemma SameTriggerRule(datasets: seq<DatasetRef>)
    ensures SupportedDataTypes() == DimensionPlot.SupportedDataTypes()
    ensures |PluginTriggerActions(datasets)| == |DimensionPlot.PluginTriggerActions(datasets)|
    ensures forall k :: 0 <= k < |PluginTriggerActions(datasets)| ==>
      PluginTriggerActions(datasets)[k].title == "Dimension Plot Viewer" &&
      DimensionPlot.PluginTriggerActions(datasets)[k].title == "Dimension Plot" &&
      PluginTriggerActions(datasets)[k].instancesRequested == DimensionPlot.PluginTriggerActions(datasets)[k].instancesRequested
  {
  }

  // ---------------------------------------------------------------------------
  // The render rule
  // ---------------------------------------------------------------------------

  /** `onDimensionChanged` calls `setData` whenever both bindings are valid, whatever the index. */
  predicate CallsSetData<V>(feature: Option<Points<V>>, clusters: Option<Clusters>)
  {
    feature.Some? && clusters.Some?
  }

  /**
   * The two render guards side by side: wherever `DimensionPlot` renders this
   * plugin renders too, and they part exactly where both bindings are valid and
   * the picker's index is outside the feature dataset's dimensions, which
   * `setData` then indexes out of range.
   */
  lemma RenderGuardsDiffer<V>(feature: Option<Points<V>>, clusters: Option<Clusters>, dimensionIndex: int)
    ensures DimensionPlot.CallsSetData(feature, clusters, dimensionIndex) ==> CallsSetData(feature, clusters)
    ensures (CallsSetData(feature, clusters) && !DimensionPlot.CallsSetData(feature, clusters, dimensionIndex)) <==>
      (feature.Some? && clusters.Some? && !(0 <= dimensionIndex < feature.value.NumDimensions()))
  {
  }

  /**
   * The documents one `onDimensionChanged` sends. The index is passed on
   * unchecked, and `setData` reads it once the cluster counts agree, so it must
   * be in range whenever both bindings are valid and the clusters consistent.
   */
  function Rendered<V>(feature: Option<Points<V>>, clusters: Option<Clusters>, dimensionIndex: int): (out: seq<Json<V>>)
    requires feature.Some? ==> feature.value.Valid()
    requires CallsSetData(feature, clusters) && clusters.value.Consistent() ==>
      0 <= dimensionIndex < feature.value.NumDimensions()
    ensures |out| <= 1
    ensures |out| == 1 <==> CallsSetData(feature, clusters) && clusters.value.Consistent()
    ensures out == DimensionPlot.Rendered(feature, clusters, dimensionIndex)
  {
    if CallsSetData(feature, clusters) then
      ClusterSend(feature.value, dimensionIndex, clusters.value)
    else
      []
  }

  // ---------------------------------------------------------------------------
  // The plugin
  // ---------------------------------------------------------------------------

  class Plugin<V> {

    var featureDataset: Option<Points<V>>
    var clusterDataset: Option<Clusters>
    /** Whether the drop widget still shows its "No data loaded" indicator. */
    var showDropIndicator: bool
    /** The points dataset last handed to the dimension picker (possibly none). */
    var pickerDataset: Option<Points<V>>
    const webWidget: PlotWebWidget<V>

    ghost predicate Valid()
      reads this
    {
      featureDataset.Some? ==> featureDataset.value.Valid()
    }

    /** The picker's index is usable wherever `setData` reads it: both bindings valid, cluster counts agreeing. */
    predicate IndexInRange(dimensionIndex: int)
      reads this
    {
      featureDataset.Some? && clusterDataset.Some? && clusterDataset.value.Consistent() ==>
        0 <= dimensionIndex < featureDataset.value.NumDimensions()
    }

    constructor ()
      ensures Valid() && fresh(webWidget) && webWidget.sent == []
      ensures featureDataset == None && clusterDataset == None && pickerDataset == None
      ensures showDropIndicator
    {
      featureDataset := None;
      clusterDataset := None;
      pickerDataset := None;
      showDropIndicator := true;
      webWidget := new PlotWebWidget();
    }

    function FeatureId(): Option<string>
      reads this
    {
      if featureDataset.Some? then Some(featureDataset.value.id) else None
    }

    /** The regions shown for a drag: no droppable region re-offers the bound feature dataset. */
    function DropRegionsFor(mime: MimeData): (regions: seq<DropRegion>)
      reads this
      requires mime.DatasetsMimeData? ==> |mime.datasets| >= 1
      ensures |regions| <= 1
      ensures forall r :: r in regions && r.dropping ==>
        (r.action.LoadPoints? || r.action.LoadClusters?) && FeatureId() != Some(r.action.datasetId)
      ensures forall r :: r in regions && r.dropping ==> mime.DatasetsMimeData? && r.action.datasetId == mime.datasets[0].id
    {
      Classify(mime, FeatureId())
    }

    /** Accepting a Points region: bind the feature dataset; the clusters stay and nothing is rebuilt. */
    method OnPointsDropped(candidate: Points<V>)
      requires Valid() && candidate.Valid()
      modifies this
      ensures Valid()
      ensures featureDataset == Some(candidate) && !showDropIndicator
      ensures clusterDataset == old(clusterDataset) && pickerDataset == old(pickerDataset)
    {
      showDropIndicator := false;
      featureDataset := Some(candidate);
    }

    /** Accepting a Clusters region: bind the cluster dataset; nothing is rebuilt. */
    method OnClustersDropped(candidate: Clusters)
      requires Valid()
      modifies this
      ensures Valid()
      ensures clusterDataset == Some(candidate) && !showDropIndicator
      ensures featureDataset == old(featureDataset) && pickerDataset == old(pickerDataset)
    {
      showDropIndicator := false;
      clusterDataset := Some(candidate);
    }

    /** `onDatasetChanged`: always hand the feature binding to the picker, then re-render. */
    method OnDatasetChanged(dimensionIndex: int)
      requires Valid() && IndexInRange(dimensionIndex)
      modifies this`pickerDataset, webWidget
      ensures pickerDataset == featureDataset
      ensures webWidget.sent == old(webWidget.sent) + Rendered(featureDataset, clusterDataset, dimensionIndex)
    {
      pickerDataset := featureDataset;
      OnDimensionChanged(dimensionIndex);
    }

    /** `onDimensionChanged`: render whenever both bindings are valid, with the picker's index as is. */
    method OnDimensionChanged(dimensionIndex: int)
      requires Valid() && IndexInRange(dimensionIndex)
      modifies webWidget
      ensures webWidget.sent == old(webWidget.sent) + Rendered(featureDataset, clusterDataset, dimensionIndex)
    {
      if !featureDataset.Some? || !clusterDataset.Some? {
        return;
      }
      webWidget.SetDataClusters(featureDataset.value, dimensionIndex, clusterDataset.value);
    }
  }
}
