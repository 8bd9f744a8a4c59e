/**
 * The document on both sides: what the page's data preparation makes of the
 * cluster-mode document the widget builds. Indices pass through the signed
 * 32-bit cast on the way, so an index of 2^31 or more reaches the page as a
 * negative number and reads an undefined value.
 */
module RoundTrip {

  import opened Wrappers
  import opened Json
  import opened Datasets
  import opened PlotWebWidget
  import opened PlotView

  /** A cluster's indices as the page receives them. */
  function SignedIndices(indices: seq<UInt32>): (r: seq<int>)
    ensures |r| == |indices|
    ensures forall t :: 0 <= t < |r| ==> r[t] == ToSigned32(indices[t])
  {
    seq(|indices|, t requires 0 <= t < |indices| => ToSigned32(indices[t]))
  }

  /** The category records the page destructures, one per cluster, in cluster order. */
  function PageCategories(cd: Clusters): (cats: seq<CategoryView>)
    requires cd.Consistent()
    ensures |cats| == |cd.clusters|
    ensures forall i :: 0 <= i < |cats| ==>
      cats[i] == CategoryView(cd.clusterNames[i], SignedIndices(cd.clusters[i].indices), cd.clusters[i].color)
  {
    seq(|cd.clusters|, i requires 0 <= i < |cd.clusters| =>
      CategoryView(cd.clusterNames[i], SignedIndices(cd.clusters[i].indices), cd.clusters[i].color))
  }

  lemma IndexArrayReadBack<V>(indices: seq<UInt32>)
    ensures AsInts(JArray(IndexArray<V>(indices))) == Some(SignedIndices(indices))
  {
    assert AsInts(JArray(IndexArray<V>(indices))).value == SignedIndices(indices);
  }

  lemma ValueArrayReadBack<V>(column: seq<V>)
    ensures AsNumbers(JArray(ValueArray(column))) == Some(column)
  {
    assert AsNumbers(JArray(ValueArray(column))).value == column;
  }

  /**
   * The page reads from a cluster-mode document exactly what went in: the
   * dimension's name, its column, and every cluster's name, cast indices and
   * colour, in cluster order.
   */
  lemma ReadBuiltDocument<V>(p: Points<V>, dim: int, cd: Clusters)
    requires p.Valid() && 0 <= dim < p.NumDimensions() && cd.Consistent()
    ensures ReadClusterDocument(ClusterDocument(p, dim, cd)) ==
      Some(ClusterView(p.dimensionNames[dim], Column(p, dim), PageCategories(cd)))
  {
    var doc := ClusterDocument(p, dim, cd);
    var items := doc.fields["categories"].items;
    ValueArrayReadBack(Column(p, dim));
    forall k | 0 <= k < |items|
      ensures IsCategory(items[k])
      ensures CategoryOf(items[k]) == PageCategories(cd)[k]
    {
      IndexArrayReadBack<V>(cd.clusters[k].indices);
    }
    var view := ReadClusterDocument(doc);
    assert view.Some?;
    assert view.value.categories == PageCategories(cd);
  }

  lemma DistinctNamesAt(cats: seq<CategoryView>, a: nat, b: nat)
    requires Distinct(Names(cats)) && a < b < |cats|
    ensures cats[a].name != cats[b].name
  {
    assert Names(cats)[a] != Names(cats)[b];
  }

  /** With distinct names, no later category shares the name of category `i`. */
  lemma LaterNamesDiffer(cats: seq<CategoryView>, i: nat)
    requires Distinct(Names(cats)) && i < |cats|
    ensures forall k :: i < k < |cats| ==> cats[k].name != cats[i].name
  {
    forall k | i < k < |cats| ensures cats[k].name != cats[i].name {
      DistinctNamesAt(cats, i, k);
    }
  }

  /** A category no later category shares its name with is the last of that name. */
  lemma LastWithUnique(cats: seq<CategoryView>, n: string, i: nat)
    requires i < |cats| && cats[i].name == n
    requires forall k :: i < k < |cats| ==> cats[k].name != n
    ensures n in Names(cats) && LastWith(cats, n) == i
  {
    assert Names(cats)[i] == n;
  }

  /** With distinct names, category `i` is the last (and only) one of its name. */
  lemma LastWithDistinct(cats: seq<CategoryView>, i: nat)
    requires Distinct(Names(cats)) && i < |cats|
    ensures cats[i].name in Names(cats)
    ensures LastWith(cats, cats[i].name) == i
  {
    LaterNamesDiffer(cats, i);
    LastWithUnique(cats, cats[i].name, i);
  }

  lemma MapsAtName(cats: seq<CategoryView>, n: string)
    requires n in Names(cats)
    ensures n in CategoryMapOf(cats).props && CategoryMapOf(cats).props[n] == cats[LastWith(cats, n)].indices
    ensures n in CategoryColorMapOf(cats).props && CategoryColorMapOf(cats).props[n] == cats[LastWith(cats, n)].color
  {
  }

  /** With distinct names, both objects hold category `i`'s own indices and colour under its name. */
  lemma MapsAtDistinctName(cats: seq<CategoryView>, i: nat)
    requires Distinct(Names(cats)) && i < |cats|
    ensures cats[i].name in CategoryMapOf(cats).props && CategoryMapOf(cats).props[cats[i].name] == cats[i].indices
    ensures cats[i].name in CategoryColorMapOf(cats).props && CategoryColorMapOf(cats).props[cats[i].name] == cats[i].color
  {
    LastWithDistinct(cats, i);
    MapsAtName(cats, cats[i].name);
  }

  /**
   * With distinct names, `Object.entries(categoryMap)` lists every category's
   * name and indices, in document order.
   */
  lemma DistinctNamesEntries(cats: seq<CategoryView>)
    requires Distinct(Names(cats))
    ensures |CategoryMapOf(cats).Entries()| == |cats|
    ensures forall i :: 0 <= i < |cats| ==> CategoryMapOf(cats).Entries()[i] == (cats[i].name, cats[i].indices)
  {
    var m := CategoryMapOf(cats);
    assert m.keys == Names(cats) by { FirstAppearanceOfDistinct(Names(cats)); }
    forall i | 0 <= i < |cats| ensures m.Entries()[i] == (cats[i].name, cats[i].indices) {
      MapsAtDistinctName(cats, i);
    }
  }

  /** The value the page reads for a received index. */
  function PageValue<V>(p: Points<V>, dim: int, u: UInt32): (v: Option<V>)
    requires p.Valid() && 0 <= dim < p.NumDimensions()
    ensures v.Some? <==> u < INT32_LIMIT && u < p.NumPoints()
    ensures v.Some? ==> v.value == p.rows[u][dim]
  {
    Lookup(Column(p, dim), ToSigned32(u))
  }

  /** Each cluster's name with its indices as the page receives them, in cluster order. */
  function ClusterEntries(cd: Clusters): (es: seq<(string, seq<int>)>)
    requires cd.Consistent()
    ensures |es| == |cd.clusters|
    ensures forall i :: 0 <= i < |es| ==> es[i] == (cd.clusterNames[i], SignedIndices(cd.clusters[i].indices))
  {
    seq(|cd.clusters|, i requires 0 <= i < |cd.clusters| => (cd.clusterNames[i], SignedIndices(cd.clusters[i].indices)))
  }

  /**
   * Cluster names that the page's objects store as own properties in insertion
   * order: no array-index names and no `__proto__`.
   */
  predicate PlainNames(cd: Clusters)
  {
    forall k :: 0 <= k < |cd.clusterNames| ==> IsPlainKey(cd.clusterNames[k])
  }

  /**
   * With distinct cluster names that are plain keys, `Object.entries(categoryMap)`
   * is one entry per cluster, in cluster order.
   */
  lemma ClusterEntriesDistinct(cd: Clusters)
    requires cd.Consistent() && Distinct(cd.clusterNames) && PlainNames(cd)
    ensures CategoryMapOf(PageCategories(cd)).Entries() == ClusterEntries(cd)
    ensures EntryNames(ClusterEntries(cd)) == cd.clusterNames
  {
    var cats := PageCategories(cd);
    assert Names(cats) == cd.clusterNames;
    DistinctNamesEntries(cats);
    assert EntryNames(ClusterEntries(cd)) == cd.clusterNames;
  }

  /**
   * End to end, for distinct cluster names that are plain keys: the records the page groups under
   * cluster `i`'s name are one per index of that cluster, in index order, each
   * holding the point's value in the selected dimension, or undefined where
   * the index is 2^31 or more or past the last point.
   */
  lemma GroupedRecordsOfCluster<V>(p: Points<V>, dim: int, cd: Clusters, i: nat)
    requires p.Valid() && 0 <= dim < p.NumDimensions() && cd.Consistent()
    requires Distinct(cd.clusterNames) && PlainNames(cd) && i < |cd.clusters|
    ensures var view := ReadClusterDocument(ClusterDocument(p, dim, cd)).value;
      var idx := cd.clusters[i].indices;
      RecordsOf(Flatten(view.values, CategoryMapOf(view.categories).Entries()), cd.clusterNames[i]) ==
        seq(|idx|, t requires 0 <= t < |idx| => FlatRecord(PageValue(p, dim, idx[t]), cd.clusterNames[i]))
  {
    var view := ReadClusterDocument(ClusterDocument(p, dim, cd)).value;
    assert view.values == Column(p, dim) && view.categories == PageCategories(cd) by {
      ReadBuiltDocument(p, dim, cd);
    }
    var entries := ClusterEntries(cd);
    assert CategoryMapOf(view.categories).Entries() == entries && EntryNames(entries) == cd.clusterNames by {
      ClusterEntriesDistinct(cd);
    }
    var idx := cd.clusters[i].indices;
    assert entries[i] == (cd.clusterNames[i], SignedIndices(idx));
    RecordsOfFlatten(Column(p, dim), entries, i);
    BlockOfCluster(p, dim, cd.clusterNames[i], idx);
  }

  /** The records pushed for one cluster read the points' values through the cast indices. */
  lemma BlockOfCluster<V>(p: Points<V>, dim: int, name: string, idx: seq<UInt32>)
    requires p.Valid() && 0 <= dim < p.NumDimensions()
    ensures Block(Column(p, dim), name, SignedIndices(idx)) ==
      seq(|idx|, t requires 0 <= t < |idx| => FlatRecord(PageValue(p, dim, idx[t]), name))
  {
  }

  /**
   * End to end, for distinct cluster names that are plain keys: the category names on the axis are
   * the cluster names in cluster order, leaving out the clusters without indices.
   */
  lemma AxisNamesOfClusters<V>(p: Points<V>, dim: int, cd: Clusters)
    requires p.Valid() && 0 <= dim < p.NumDimensions() && cd.Consistent()
    requires Distinct(cd.clusterNames) && PlainNames(cd)
    ensures var view := ReadClusterDocument(ClusterDocument(p, dim, cd)).value;
      Group(Flatten(view.values, CategoryMapOf(view.categories).Entries())).keys == NonEmptyClusterNames(cd)
  {
    var view := ReadClusterDocument(ClusterDocument(p, dim, cd)).value;
    assert view.values == Column(p, dim) && view.categories == PageCategories(cd) by {
      ReadBuiltDocument(p, dim, cd);
    }
    assert CategoryMapOf(view.categories).Entries() == ClusterEntries(cd) by {
      ClusterEntriesDistinct(cd);
    }
    AxisNamesOfEntries(view.values, cd);
  }

  /** Grouping the records of the per-cluster entries yields the clusters' names that have indices. */
  lemma AxisNamesOfEntries<V>(values: seq<V>, cd: Clusters)
    requires cd.Consistent() && Distinct(cd.clusterNames)
    ensures Group(Flatten(values, ClusterEntries(cd))).keys == NonEmptyClusterNames(cd)
  {
    var entries := ClusterEntries(cd);
    assert EntryNames(entries) == cd.clusterNames;
    CategoryNamesAreNonEmptyEntries(values, entries);
    NonEmptyNamesOfClusters(cd, |cd.clusters|);
    assert entries[..|cd.clusters|] == entries;
  }

  /** The names of the clusters among the first `n` that have at least one index, in order. */
  function NonEmptyClusterNamesUpTo(cd: Clusters, n: nat): (ns: seq<string>)
    requires cd.Consistent() && n <= |cd.clusters|
    ensures |ns| <= n
    ensures forall x :: x in ns ==> x in cd.clusterNames[..n]
  {
    if n == 0 then
      []
    else
      NonEmptyClusterNamesUpTo(cd, n - 1) + (if |cd.clusters[n - 1].indices| > 0 then [cd.clusterNames[n - 1]] else [])
  }

  function NonEmptyClusterNames(cd: Clusters): seq<string>
    requires cd.Consistent()
  {
    NonEmptyClusterNamesUpTo(cd, |cd.clusters|)
  }

  lemma {:induction false} NonEmptyNamesOfClusters(cd: Clusters, n: nat)
    requires cd.Consistent() && n <= |cd.clusters|
    ensures NonEmptyNames(ClusterEntries(cd)[..n]) == NonEmptyClusterNamesUpTo(cd, n)
  {
    if n > 0 {
      var es := ClusterEntries(cd);
      NonEmptyNamesOfClusters(cd, n - 1);
      assert es[..n][..n - 1] == es[..n - 1];
      assert es[..n][n - 1] == (cd.clusterNames[n - 1], SignedIndices(cd.clusters[n - 1].indices));
    }
  }
}
