/**
 * The drop classifier of the view plugins: when datasets are dragged onto the
 * view, it decides which drop regions to show. A region that accepts the drop
 * carries the action to run; the plugins differ only in those actions.
 */
module DropRegions {

  import opened Wrappers
  import opened Datasets

  /** The payload of a drag: dataset mime data with its datasets, or anything else. */
  datatype MimeData = DatasetsMimeData(datasets: seq<DatasetRef>) | OtherMimeData

  /** What accepting a region does: nothing, or bind the dragged dataset. */
  datatype DropAction = NoAction | LoadPoints(datasetId: string) | LoadClusters(datasetId: string)

  datatype DropRegion = DropRegion(title: string, description: string, iconName: string, dropping: bool, action: DropAction)

  /** The types the classifier offers a region for: `DataTypes({ PointType, ClusterType })`. */
  const DroppableTypes: seq<DataType> := [PointType, ClusterType]

  const AlreadyLoaded := DropRegion("Warning", "Data already loaded", "exclamation-circle", false, NoAction)

  const Incompatible := DropRegion("Incompatible data", "This type of data is not supported", "exclamation-circle", false, NoAction)

  /**
   * The regions offered for a payload, given the id of the bound feature
   * dataset (`None` when none is bound). The payload's first dataset is read
   * without a check, so dataset mime data must carry at least one dataset.
   */
  function Classify(mime: MimeData, featureId: Option<string>): (regions: seq<DropRegion>)
    requires mime.DatasetsMimeData? ==> |mime.datasets| >= 1
    ensures |regions| <= 1
    ensures regions == [] <==> mime.OtherMimeData? || |mime.datasets| > 1
    ensures regions != [] ==>
      var d := mime.datasets[0];
      && (regions[0] == Incompatible <==> d.dataType !in DroppableTypes)
      && (regions[0] == AlreadyLoaded <==> d.dataType in DroppableTypes && featureId == Some(d.id))
      && (regions[0].action == LoadPoints(d.id) <==> d.dataType == PointType && featureId != Some(d.id))
      && (regions[0].action == LoadClusters(d.id) <==> d.dataType == ClusterType && featureId != Some(d.id))
      && (regions[0].dropping <==> regions[0].action != NoAction)
      && (regions[0].action.LoadPoints? ==>
            regions[0] == DropRegion("Points", "Visualize " + d.guiName, "map-marker-alt", true, LoadPoints(d.id)))
      && (regions[0].action.LoadClusters? ==>
            regions[0] == DropRegion("Clusters", "Add clusters " + d.guiName, "map-marker-alt", true, LoadClusters(d.id)))
  {
    if mime.OtherMimeData? then
      []
    else if |mime.datasets| > 1 then
      []
    else
      var dataset := mime.datasets[0];
      if dataset.dataType in DroppableTypes then
        if featureId.Some? && dataset.id == featureId.value then
          [AlreadyLoaded]
        else if dataset.dataType == PointType then
          [DropRegion("Points", "Visualize " + dataset.guiName, "map-marker-alt", true, LoadPoints(dataset.id))]
        else if dataset.dataType == ClusterType then
          [DropRegion("Clusters", "Add clusters " + dataset.guiName, "map-marker-alt", true, LoadClusters(dataset.id))]
        else
          []
      else
        [Incompatible]
  }
}
