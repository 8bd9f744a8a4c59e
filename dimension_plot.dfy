/**
 * The `DimensionPlot` view plugin: it binds a feature (point) dataset and a
 * cluster dataset by drag and drop, and re-renders the selected dimension
 * grouped by the clusters whenever a binding or the dimension changes.
 */
module DimensionPlot {

  import opened Wrappers
  import opened Json
  import opened Datasets
  import opened DropRegions
  import opened PlotWebWidget

  // ---------------------------------------------------------------------------
  // Factory rules
  // ---------------------------------------------------------------------------

  /** `supportedDataTypes`: the plugin is offered for point datasets. */
  function SupportedDataTypes(): (r: seq<DataType>)
    ensures forall t :: t in r <==> t == PointType
  {
    [PointType]
  }

  /** A trigger action; running it requests one view plugin per dataset. */
  datatype TriggerAction = TriggerAction(title: string, description: string, instancesRequested: nat)

  /** `getPluginTriggerActions`: one action for a non-empty selection of point datasets. */
  function PluginTriggerActions(datasets: seq<DatasetRef>): (actions: seq<TriggerAction>)
    ensures |actions| <= 1
    ensures |actions| == 1 <==> |datasets| >= 1 && forall i :: 0 <= i < |datasets| ==> datasets[i].dataType == PointType
    ensures forall a :: a in actions ==> a == TriggerAction("Dimension Plot", "Plot dimensions", |datasets|)
  {
    if |datasets| >= 1 && AllOfType(datasets, PointType) then
      [TriggerAction("Dimension Plot", "Plot dimensions", |datasets|)]
    else
      []
  }

  /** An action is offered exactly when the selection is non-empty and of supported types only. */
  lemma TriggerOfferedForSupportedTypes(datasets: seq<DatasetRef>)
    ensures |PluginTriggerActions(datasets)| == 1 <==>
      |datasets| >= 1 && forall i :: 0 <= i < |datasets| ==> datasets[i].dataType in SupportedDataTypes()
  {
    if |datasets| >= 1 && forall i :: 0 <= i < |datasets| ==> datasets[i].dataType in SupportedDataTypes() {
      forall i | 0 <= i < |datasets| ensures datasets[i].dataType == PointType {
        assert datasets[i].dataType in SupportedDataTypes();
      }
    }
  }

  // ---------------------------------------------------------------------------
  // The render rule
  // ---------------------------------------------------------------------------

  /** `onDimensionChanged` calls `setData` only with both bindings valid and the index in range. */
  predicate CallsSetData<V>(feature: Option<Points<V>>, clusters: Option<Clusters>, dimensionIndex: int)
  {
    feature.Some? && clusters.Some? && 0 <= dimensionIndex < feature.value.NumDimensions()
  }

  /** The documents one `onDimensionChanged` sends, for the bindings and the picker's index. */
  function Rendered<V>(feature: Option<Points<V>>, clusters: Option<Clusters>, dimensionIndex: int): (out: seq<Json<V>>)
    requires feature.Some? ==> feature.value.Valid()
    ensures |out| <= 1
    ensures |out| == 1 <==> CallsSetData(feature, clusters, dimensionIndex) && clusters.value.Consistent()
    ensures |out| == 1 ==> out[0] == ClusterDocument(feature.value, dimensionIndex, clusters.value)
  {
    if CallsSetData(feature, clusters, dimensionIndex) then
      ClusterSend(feature.value, dimensionIndex, clusters.value)
    else
      []
  }

  // ---------------------------------------------------------------------------
  // The plugin
  // ---------------------------------------------------------------------------

  class Plugin<V> {

    var featureDataset: Option<Points<V>>
    var clusterDataset: Option<Clusters>
    /** Whether the drop widget still shows its "No data loaded" indicator. */
    var showDropIndicator: bool
    /** The points dataset last handed to the dimension picker. */
    var pickerDataset: Option<Points<V>>
    const webWidget: PlotWebWidget<V>

    ghost predicate Valid()
      reads this
    {
      featureDataset.Some? ==> featureDataset.value.Valid()
    }

    constructor ()
      ensures Valid() && fresh(webWidget) && webWidget.sent == []
      ensures featureDataset == None && clusterDataset == None && pickerDataset == None
      ensures showDropIndicator
    {
      featureDataset := None;
      clusterDataset := None;
      pickerDataset := None;
      showDropIndicator := true;
      webWidget := new PlotWebWidget();
    }

    /** Whether both dataset references are valid. */
    predicate BothBound()
      reads this
    {
      featureDataset.Some? && clusterDataset.Some?
    }

    function FeatureId(): Option<string>
      reads this
    {
      if featureDataset.Some? then Some(featureDataset.value.id) else None
    }

    /** The regions shown for a drag: no droppable region re-offers the bound feature dataset. */
    function DropRegionsFor(mime: MimeData): (regions: seq<DropRegion>)
      reads this
      requires mime.DatasetsMimeData? ==> |mime.datasets| >= 1
      ensures |regions| <= 1
      ensures forall r :: r in regions && r.dropping ==>
        (r.action.LoadPoints? || r.action.LoadClusters?) && FeatureId() != Some(r.action.datasetId)
      ensures forall r :: r in regions && r.dropping ==> mime.DatasetsMimeData? && r.action.datasetId == mime.datasets[0].id
    {
      Classify(mime, FeatureId())
    }

    /**
     * Accepting a Points region: bind the feature dataset, clear the cluster
     * binding and rebuild. The rebuild finds no clusters, so nothing is sent.
     */
    method OnPointsDropped(candidate: Points<V>, dimensionIndex: int)
      requires Valid() && candidate.Valid()
      modifies this, webWidget
      ensures Valid()
      ensures featureDataset == Some(candidate) && clusterDataset == None && !showDropIndicator
      ensures pickerDataset == old(pickerDataset)
      ensures webWidget.sent == old(webWidget.sent)
    {
      showDropIndicator := false;
      featureDataset := Some(candidate);
      clusterDataset := None;
      OnDatasetChanged(dimensionIndex);
    }

    /** Accepting a Clusters region: bind only the cluster dataset and rebuild. */
    method OnClustersDropped(candidate: Clusters, dimensionIndex: int)
      requires Valid()
      modifies this, webWidget
      ensures Valid()
      ensures featureDataset == old(featureDataset) && clusterDataset == Some(candidate) && !showDropIndicator
      ensures pickerDataset == if featureDataset.Some? then featureDataset else old(pickerDataset)
      ensures webWidget.sent == old(webWidget.sent) + Rendered(featureDataset, clusterDataset, dimensionIndex)
    {
      showDropIndicator := false;
      clusterDataset := Some(candidate);
      OnDatasetChanged(dimensionIndex);
    }

    /**
     * `onDatasetChanged`: with both bindings valid, hand the feature dataset to
     * the picker and re-render; otherwise change nothing.
     */
    method OnDatasetChanged(dimensionIndex: int)
      requires Valid()
      modifies this`pickerDataset, webWidget
      ensures BothBound() ==> pickerDataset == featureDataset
      ensures !BothBound() ==> pickerDataset == old(pickerDataset)
      ensures webWidget.sent == old(webWidget.sent) + Rendered(featureDataset, clusterDataset, dimensionIndex)
    {
      if !BothBound() {
        return;
      }
      pickerDataset := featureDataset;
      OnDimensionChanged(dimensionIndex);
    }

    /**
     * `onDimensionChanged`, with `dimensionIndex` the picker's current index:
     * render only with both bindings valid and the index in range.
     */
    method OnDimensionChanged(dimensionIndex: int)
      requires Valid()
      modifies webWidget
      ensures webWidget.sent == old(webWidget.sent) + Rendered(featureDataset, clusterDataset, dimensionIndex)
    {
      if !BothBound() {
        return;
      }
      if 0 <= dimensionIndex < featureDataset.value.NumDimensions() {
        webWidget.SetDataClusters(featureDataset.value, dimensionIndex, clusterDataset.value);
      }
    }
  }
}
