/**
 * The document builder of the web widget: the two overloads of `setData`
 * turn a point dataset, a dimension and a grouping into one JSON document
 * and hand it to the communication object, which forwards it to the page.
 */
module PlotWebWidget {

  import opened Wrappers
  import opened Json
  import opened Datasets

  // ---------------------------------------------------------------------------
  // The documents, stated declaratively
  // ---------------------------------------------------------------------------

  /** The JSON array of a value column, one number per point. */
  function ValueArray<V>(column: seq<V>): seq<Json<V>>
  {
    seq(|column|, i requires 0 <= i < |column| => JNumber(column[i]))
  }

  /** The JSON array of a cluster's indices, each cast to a signed 32-bit int. */
  function IndexArray<V>(indices: seq<UInt32>): seq<Json<V>>
  {
    seq(|indices|, k requires 0 <= k < |indices| => JInt(ToSigned32(indices[k])))
  }

  function IntArray<V>(xs: seq<int>): seq<Json<V>>
  {
    seq(|xs|, k requires 0 <= k < |xs| => JInt(xs[k]))
  }

  function StringArray<V>(xs: seq<string>): seq<Json<V>>
  {
    seq(|xs|, k requires 0 <= k < |xs| => JString(xs[k]))
  }

  /** The record `{name, indices, color}` describing one cluster. */
  function CategoryObject<V>(name: string, c: Cluster): (r: Json<V>)
    ensures Keys(r) == {"name", "indices", "color"}
  {
    JObject(map["name" := JString(name), "indices" := JArray(IndexArray(c.indices)), "color" := JString(c.color)])
  }

  /**
   * The cluster-mode document: the dimension's name as title, the dimension's
   * column as values, and one category record per cluster in cluster order.
   */
  function ClusterDocument<V>(p: Points<V>, dim: int, cd: Clusters): (doc: Json<V>)
    requires p.Valid() && 0 <= dim < p.NumDimensions() && cd.Consistent()
    ensures Keys(doc) == {"title", "values", "categories"}
    ensures "categoryIds" !in Keys(doc)
  {
    var categories := seq(|cd.clusters|, i requires 0 <= i < |cd.clusters| =>
      CategoryObject(cd.clusterNames[i], cd.clusters[i]));
    JObject(map[
      "title" := JString(p.dimensionNames[dim]),
      "values" := JArray(ValueArray(Column(p, dim))),
      "categories" := JArray(categories)])
  }

  /**
   * The category-id document: title and values as in cluster mode, the category
   * names as plain strings, and the first `NumPoints()` category ids.
   */
  function CategoryIdDocument<V>(p: Points<V>, dim: int, categories: seq<string>, categoryIds: seq<int>): (doc: Json<V>)
    requires p.Valid() && 0 <= dim < p.NumDimensions() && |categoryIds| >= p.NumPoints()
    ensures Keys(doc) == {"title", "values", "categories", "categoryIds"}
  {
    JObject(map[
      "title" := JString(p.dimensionNames[dim]),
      "values" := JArray(ValueArray(Column(p, dim))),
      "categories" := JArray(StringArray(categories)),
      "categoryIds" := JArray(IntArray(categoryIds[..p.NumPoints()]))])
  }

  /**
   * What one call of the cluster overload sends: its document when the names
   * and the clusters agree in number, nothing at all otherwise.
   */
  function ClusterSend<V>(p: Points<V>, dim: int, cd: Clusters): (out: seq<Json<V>>)
    requires p.Valid() && (cd.Consistent() ==> 0 <= dim < p.NumDimensions())
    ensures |out| <= 1
    ensures |out| == 1 <==> |cd.clusterNames| == |cd.clusters|
  {
    if cd.Consistent() then [ClusterDocument(p, dim, cd)] else []
  }

  // ---------------------------------------------------------------------------
  // What a reader of the documents finds in them
  // ---------------------------------------------------------------------------

  /**
   * Reading the category-id document back gives the dimension name, the
   * column, the category names verbatim and the point-count prefix of the ids.
   */
  lemma CategoryIdDocumentReadBack<V>(p: Points<V>, dim: int, categories: seq<string>, categoryIds: seq<int>)
    requires p.Valid() && 0 <= dim < p.NumDimensions() && |categoryIds| >= p.NumPoints()
    ensures var doc := CategoryIdDocument(p, dim, categories, categoryIds);
      && Field(doc, "title") == JString(p.dimensionNames[dim])
      && AsNumbers(Field(doc, "values")) == Some(Column(p, dim))
      && AsStrings(Field(doc, "categories")) == Some(categories)
      && AsInts(Field(doc, "categoryIds")) == Some(categoryIds[..p.NumPoints()])
  {
    var doc := CategoryIdDocument(p, dim, categories, categoryIds);
    assert AsNumbers(Field(doc, "values")).value == Column(p, dim);
    assert AsStrings(Field(doc, "categories")).value == categories;
    assert AsInts(Field(doc, "categoryIds")).value == categoryIds[..p.NumPoints()];
  }

  /** The values array of either document has one number per point, equal to column `dim`. */
  lemma ClusterDocumentValues<V>(p: Points<V>, dim: int, cd: Clusters)
    requires p.Valid() && 0 <= dim < p.NumDimensions() && cd.Consistent()
    ensures var vals := AsNumbers(Field(ClusterDocument(p, dim, cd), "values"));
      && vals.Some? && |vals.value| == p.NumPoints()
      && forall i :: 0 <= i < p.NumPoints() ==> vals.value[i] == p.rows[i][dim]
  {
    var vals := AsNumbers(Field(ClusterDocument(p, dim, cd), "values"));
    assert vals.value == Column(p, dim);
  }

  // ---------------------------------------------------------------------------
  // The builders, element by element as the source appends to its arrays
  // ---------------------------------------------------------------------------

  /** The loop that copies the extracted column into the `vals` array. */
  method CopyValues<V>(dimValues: seq<V>) returns (vals: seq<Json<V>>)
    ensures vals == ValueArray(dimValues)
  {
    vals := [];
    var i := 0;
    while i < |dimValues|
      invariant 0 <= i <= |dimValues|
      invariant |vals| == i
      invariant forall k :: 0 <= k < i ==> vals[k] == JNumber(dimValues[k])
    {
      vals := vals + [JNumber(dimValues[i])];
      i := i + 1;
    }
  }

  /**
   * The body of the category-id overload up to serialisation. The debug output
   * reads the first three values, so at least three points are needed; one id
   * is read per point.
   */
  method BuildCategoryIdDocument<V>(p: Points<V>, dim: int, categories: seq<string>, categoryIds: seq<int>)
    returns (doc: Json<V>)
    requires p.Valid() && 0 <= dim < p.NumDimensions()
    requires p.NumPoints() >= 3
    requires |categoryIds| >= p.NumPoints()
    ensures doc == CategoryIdDocument(p, dim, categories, categoryIds)
  {
    var dimValues := Column(p, dim);
    var debugShown := [dimValues[0], dimValues[1], dimValues[2]];
    var vals := CopyValues(dimValues);

    var categoryIdArray: seq<Json<V>> := [];
    var i := 0;
    while i < |dimValues|
      invariant 0 <= i <= |dimValues|
      invariant |categoryIdArray| == i
      invariant forall k :: 0 <= k < i ==> categoryIdArray[k] == JInt(categoryIds[k])
    {
      categoryIdArray := categoryIdArray + [JInt(categoryIds[i])];
      i := i + 1;
    }

    var categoryArray: seq<Json<V>> := [];
    i := 0;
    while i < |categories|
      invariant 0 <= i <= |categories|
      invariant |categoryArray| == i
      invariant forall k :: 0 <= k < i ==> categoryArray[k] == JString(categories[k])
    {
      categoryArray := categoryArray + [JString(categories[i])];
      i := i + 1;
    }

    var rootObj: map<string, Json<V>> := map[];
    rootObj := rootObj["title" := JString(p.dimensionNames[dim])];
    rootObj := rootObj["values" := JArray(vals)];
    rootObj := rootObj["categories" := JArray(categoryArray)];
    rootObj := rootObj["categoryIds" := JArray(categoryIdArray)];
    assert categoryIdArray == IntArray(categoryIds[..p.NumPoints()]);
    assert categoryArray == StringArray(categories);
    doc := JObject(rootObj);
  }

  /** The inner loop of the cluster overload: the cluster's indices, cast to int. */
  method CopyIndices<V>(indices: seq<UInt32>) returns (indexArray: seq<Json<V>>)
    ensures indexArray == IndexArray(indices)
  {
    indexArray := [];
    var i := 0;
    while i < |indices|
      invariant 0 <= i <= |indices|
      invariant |indexArray| == i
      invariant forall k :: 0 <= k < i ==> indexArray[k] == JInt(ToSigned32(indices[k]))
    {
      indexArray := indexArray + [JInt(ToSigned32(indices[i]))];
      i := i + 1;
    }
  }

  /**
   * The body of the cluster overload up to serialisation: no document when the
   * number of cluster names differs from the number of clusters. The dimension
   * is only read once the counts agree, so only then must it be in range.
   */
  method BuildClusterDocument<V>(p: Points<V>, dim: int, cd: Clusters) returns (doc: Option<Json<V>>)
    requires p.Valid() && (cd.Consistent() ==> 0 <= dim < p.NumDimensions())
    ensures doc.None? <==> |cd.clusterNames| != |cd.clusters|
    ensures doc.Some? ==> cd.Consistent() && doc.value == ClusterDocument(p, dim, cd)
  {
    var clusterNames := cd.clusterNames;
    if |clusterNames| != |cd.clusters| {
      return None;
    }

    var categories: seq<Json<V>> := [];
    var i := 0;
    while i < |cd.clusters|
      invariant 0 <= i <= |cd.clusters|
      invariant |categories| == i
      invariant forall k :: 0 <= k < i ==> categories[k] == CategoryObject(clusterNames[k], cd.clusters[k])
    {
      var cluster := cd.clusters[i];
      var clusterName := clusterNames[i];
      var indexArray := CopyIndices(cluster.indices);
      var category: map<string, Json<V>> := map[];
      category := category["name" := JString(clusterName)];
      category := category["indices" := JArray(indexArray)];
      category := category["color" := JString(cluster.color)];
      categories := categories + [JObject(category)];
      i := i + 1;
    }

    var dimValues := Column(p, dim);
    var vals := CopyValues(dimValues);

    var rootObj: map<string, Json<V>> := map[];
    rootObj := rootObj["title" := JString(p.dimensionNames[dim])];
    rootObj := rootObj["values" := JArray(vals)];
    rootObj := rootObj["categories" := JArray(categories)];
    assert categories == seq(|cd.clusters|, k requires 0 <= k < |cd.clusters| =>
      CategoryObject(cd.clusterNames[k], cd.clusters[k]));
    doc := Some(JObject(rootObj));
  }

  // ---------------------------------------------------------------------------
  // The widget and the documents it sends
  // ---------------------------------------------------------------------------

  class PlotWebWidget<V> {

    /** Every document passed to `_commObject.setData`, oldest first. */
    var sent: seq<Json<V>>

    constructor ()
      ensures sent == []
    {
      sent := [];
    }

    /** The category-id overload: exactly one document is sent. */
    method SetDataCategoryIds(p: Points<V>, dim: int, categories: seq<string>, categoryIds: seq<int>)
      requires p.Valid() && 0 <= dim < p.NumDimensions()
      requires p.NumPoints() >= 3
      requires |categoryIds| >= p.NumPoints()
      modifies this
      ensures sent == old(sent) + [CategoryIdDocument(p, dim, categories, categoryIds)]
    {
      var doc := BuildCategoryIdDocument(p, dim, categories, categoryIds);
      sent := sent + [doc];
    }

    /** The cluster overload: one document, or nothing when names and clusters disagree in number. */
    method SetDataClusters(p: Points<V>, dim: int, cd: Clusters)
      requires p.Valid() && (cd.Consistent() ==> 0 <= dim < p.NumDimensions())
      modifies this
      ensures sent == old(sent) + ClusterSend(p, dim, cd)
    {
      var doc := BuildClusterDocument(p, dim, cd);
      if doc.Some? {
        sent := sent + [doc.value];
      }
    }
  }
}
