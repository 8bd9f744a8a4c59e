/**
 * The datasets the plugin reads: a point dataset (rows of named dimensions)
 * and a cluster dataset (a list of cluster names beside a list of clusters,
 * each with a colour and a list of point indices).
 */
module Datasets {

  const UINT32_LIMIT: int := 0x1_0000_0000
  const INT32_LIMIT: int := 0x8000_0000

  /** An unsigned 32-bit point index, as clusters store them. */
  type UInt32 = i: int | 0 <= i < UINT32_LIMIT

  /** The C++ cast `(int)` of an unsigned 32-bit index: two's complement wrap-around. */
  function ToSigned32(u: UInt32): (r: int)
    ensures -INT32_LIMIT <= r < INT32_LIMIT
    ensures r == u <==> u < INT32_LIMIT
    ensures r < 0 <==> u >= INT32_LIMIT
    ensures (r - u) % UINT32_LIMIT == 0
  {
    if u < INT32_LIMIT then u else u - UINT32_LIMIT
  }

  /** A point dataset: its id, its dimension names and its rows. */
  datatype Points<V> = Points(id: string, dimensionNames: seq<string>, rows: seq<seq<V>>)
  {
    function NumDimensions(): nat { |dimensionNames| }

    function NumPoints(): nat { |rows| }

    /** Every row has one entry per dimension. */
    predicate Valid()
    {
      forall i :: 0 <= i < |rows| ==> |rows[i]| == |dimensionNames|
    }
  }

  /**
   * `extractDataForDimension(values, dim)`: column `dim`, one value per point,
   * in point order.
   */
  function Column<V>(p: Points<V>, dim: int): (r: seq<V>)
    requires p.Valid() && 0 <= dim < p.NumDimensions()
    ensures |r| == p.NumPoints()
    ensures forall i :: 0 <= i < |r| ==> r[i] == p.rows[i][dim]
  {
    seq(|p.rows|, i requires 0 <= i < |p.rows| => p.rows[i][dim])
  }

  /**
   * One cluster. The document builder does not read `name`: it takes each
   * cluster's name from the dataset's separate `clusterNames` list, by position.
   */
  datatype Cluster = Cluster(name: string, color: string, indices: seq<UInt32>)

  /**
   * A cluster dataset. `clusterNames` is what `getClusterNames()` returns and is
   * kept apart from `clusters`, because the document builder checks that the
   * two lists have the same length.
   */
  datatype Clusters = Clusters(id: string, clusterNames: seq<string>, clusters: seq<Cluster>)
  {
    predicate Consistent() { |clusterNames| == |clusters| }
  }

  /** The data type of a dataset as the drop classifier sees it. */
  datatype DataType = PointType | ClusterType | OtherType(typeName: string)

  /** A dataset handle as a drag payload or a plugin factory sees it. */
  datatype DatasetRef = DatasetRef(id: string, guiName: string, dataType: DataType)

  /** `areAllDatasetsOfTheSameType(datasets, t)`: every handle is of type `t`. */
  function AllOfType(datasets: seq<DatasetRef>, t: DataType): (b: bool)
    ensures b <==> forall i :: 0 <= i < |datasets| ==> datasets[i].dataType == t
  {
    if datasets == [] then true else datasets[0].dataType == t && AllOfType(datasets[1..], t)
  }
}
