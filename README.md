# DimensionPlot — a Dafny model of the document builder, the binding rules and the page's data preparation

The DimensionPlot plugins show one dimension of a point dataset, grouped by the
clusters of a cluster dataset. The model covers three parts:

- **The web widget's document builder.** These are the two `setData` overloads
  in `src/PlotWebWidget.cpp`.
  - The cluster overload sends nothing when the cluster-name list and the
    cluster list differ in length.
  - Otherwise it builds `{title, values, categories}`. `categories` holds one
    `{name, indices, color}` record per cluster, in cluster order.
  - The category-id overload builds `{title, values, categories, categoryIds}`.
- **The two view plugins.** These are `DimensionPlot` and its variant
  `DimensionPlotView`.
  - The drop classifier decides which region a drag shows: none, "Incompatible
    data", the "already loaded" warning, Points or Clusters.
  - The drop handlers assign the feature and cluster bindings.
  - `onDatasetChanged` and `onDimensionChanged` decide when the widget renders.
  - The factory rule decides when a trigger action is offered.
  - The two plugins differ in the handlers and in the render guards. The model
    states both side by side.
- **The page's data preparation.** This is the start of `plotData` in
  `res/dimplot/plot_view.js`. It turns the cluster-mode document into:
  - a name-to-indices object and a name-to-colour object;
  - a flat list of `{value, category}` records;
  - the records grouped by category;
  - the list of category names.

## How the model is organised

The modules follow the program's structure:

| module | models |
|---|---|
| `Json` | JSON values as `QJsonArray`/`QJsonObject` build them. An object is a map, so `insert` replaces. |
| `Datasets` | Point datasets, cluster datasets, dataset handles, column extraction and the `(int)` cast of a `uint32_t` index. |
| `PlotWebWidget` | The documents as functions. The builders are methods whose loops append element by element, proved equal to those functions. The widget is a class whose `sent` field records every document passed to `_commObject.setData`. |
| `DropRegions` | The shared drop classifier. Its code is the same in both plugins. What accepting a region does is a `DropAction` value. |
| `DimensionPlot`, `DimensionPlotView` | The factory rules as functions. Each plugin is a class holding its bindings, the drop-indicator flag, the dataset last handed to the dimension picker, and its web widget. |
| `PlotView` | The page's loops as methods proved against functions. A JavaScript object is its own keys in insertion order plus a property map; that is its enumeration order for keys that are not array indices and not `__proto__`. `d3.group` keeps categories in order of first appearance. |
| `RoundTrip` | What the page makes of the document the widget builds. |

Conventions:

- Dataset values are only copied, never computed, so their type is a type
  parameter `V`.
- The picker's current dimension index is an input to the methods.
- `extractDataForDimension(values, dim)` is modelled as `Datasets.Column`:
  column `dim` of the point rows, one value per point, in point order.
- A `values[i]` outside the array is `undefined` in JavaScript; the model
  writes this as `None` (`PlotView.Lookup`).
- The page's destructuring of the document, `{title, values, categories}` and
  `{name, indices, color}` per category, is `PlotView.ReadClusterDocument`. It
  gives a view for documents of that shape and no view for any other.
- The cast `(int)` of a cluster index is modelled with its two's-complement
  wrap-around. The page therefore receives an index of 2^31 or more as a
  negative number, and reads `undefined` for it.

## Model

| member | source | states |
|---|---|---|
| Datasets.ToSigned32 | src/PlotWebWidget.cpp:113 | The cast result is a signed 32-bit value, congruent to the index modulo 2^32. It equals the index exactly when the index is below 2^31, and it is negative otherwise. |
| Datasets.AllOfType | src/DimensionPlot.cpp:166 | True exactly when every dataset in the list has the given type. |
| PlotWebWidget.CategoryObject | src/PlotWebWidget.cpp:116-119 | A category record has exactly the keys `name`, `indices` and `color`. |
| PlotWebWidget.ClusterDocument | src/PlotWebWidget.cpp:134-138 | The cluster-mode document has exactly the keys `title`, `values` and `categories`, and no `categoryIds`. |
| PlotWebWidget.CategoryIdDocument | src/PlotWebWidget.cpp:80-84 | The category-id document has exactly the keys `title`, `values`, `categories` and `categoryIds`. |
| PlotWebWidget.ClusterSend | src/PlotWebWidget.cpp:95-100 | A cluster-overload call sends at most one document. It sends one exactly when the number of cluster names equals the number of clusters. The dimension must be in range only in that case. |
| PlotWebWidget.CategoryIdDocumentReadBack | src/PlotWebWidget.cpp:68-84 | The category-id document reads back as: the dimension's name; the column; the category names verbatim and in order; and the first n category ids, n being the number of points. |
| PlotWebWidget.ClusterDocumentValues | src/PlotWebWidget.cpp:128-137 | `values` has one number per point, and entry i is point i's value in dimension `dim`. |
| PlotWebWidget.CopyValues | src/PlotWebWidget.cpp:128-132 | The copy loop yields the column's values as JSON numbers, element for element. |
| PlotWebWidget.BuildCategoryIdDocument | src/PlotWebWidget.cpp:55-86 | The overload's loops and inserts build exactly the category-id document. It requires at least three points (the debug output reads three values) and at least one category id per point. |
| PlotWebWidget.CopyIndices | src/PlotWebWidget.cpp:110-114 | The index loop yields every index cast to a signed 32-bit int, in the cluster's order. |
| PlotWebWidget.BuildClusterDocument | src/PlotWebWidget.cpp:93-139 | No document exactly when the number of names differs from the number of clusters, whatever the dimension. Otherwise the loops and inserts build exactly the cluster-mode document. |
| PlotWebWidget.PlotWebWidget.SetDataCategoryIds | src/PlotWebWidget.cpp:55-91 | Each call appends exactly one document, the category-id document, to what was sent. |
| PlotWebWidget.PlotWebWidget.SetDataClusters | src/PlotWebWidget.cpp:93-146 | Each call appends the cluster-mode document, or nothing when names and clusters disagree in number, whatever the dimension. |
| DropRegions.Classify | src/DimensionPlot.cpp:50-104 | The classifier gives at most one region. It gives none for a payload that is not dataset mime data or carries more than one dataset. Otherwise: "Incompatible" exactly when the type is neither points nor clusters; the warning exactly when the id is the bound feature dataset's, for either type; otherwise a droppable Points or Clusters region with its texts, bound to the dragged id. Only those two regions can be dropped. |
| DimensionPlot.SupportedDataTypes | src/DimensionPlot.cpp:146-154 | The factory supports exactly the point type. |
| DimensionPlot.PluginTriggerActions | src/DimensionPlot.cpp:156-176 | At most one action. It is offered exactly when the selection is non-empty and all of it is of point type, and it is titled "Dimension Plot". |
| DimensionPlot.TriggerOfferedForSupportedTypes | src/DimensionPlot.cpp:146-176 | An action is offered exactly when the selection is non-empty and every dataset's type is among the supported types. |
| DimensionPlot.Rendered | src/DimensionPlot.cpp:126-139 | One `onDimensionChanged` sends at most one document. It sends exactly when both bindings are valid, the index is within the feature dataset's dimensions, and names and clusters agree in number. What it sends is the cluster-mode document. |
| DimensionPlot.Plugin.DropRegionsFor | src/DimensionPlot.cpp:69-101 | No droppable region re-offers the bound feature dataset. Every droppable region binds the dragged dataset. |
| DimensionPlot.Plugin.OnPointsDropped | src/DimensionPlot.cpp:78-84 | A Points drop binds the feature dataset, clears the clusters and hides the drop indicator. It leaves the picker alone and sends nothing. |
| DimensionPlot.Plugin.OnClustersDropped | src/DimensionPlot.cpp:90-95 | A Clusters drop binds only the clusters and re-renders as `onDatasetChanged` does. |
| DimensionPlot.Plugin.OnDatasetChanged | src/DimensionPlot.cpp:113-124 | With both bindings valid, the picker gets the feature dataset and the widget re-renders. Otherwise the picker keeps its dataset and nothing is sent. |
| DimensionPlot.Plugin.OnDimensionChanged | src/DimensionPlot.cpp:126-139 | The widget receives exactly what `Rendered` gives for the bindings and the index. |
| DimensionPlotView.SupportedDataTypes | src/DimensionPlotView.cpp:133-141 | The factory supports exactly the point type. |
| DimensionPlotView.PluginTriggerActions | src/DimensionPlotView.cpp:143-163 | At most one action. It is offered exactly when the selection is non-empty and all point type, and it is titled "Dimension Plot Viewer". |
| DimensionPlotView.SameTriggerRule | src/DimensionPlotView.cpp:133-163 | Both factories support the same types and offer actions for the same selections. Only the titles differ. |
| DimensionPlotView.RenderGuardsDiffer | src/DimensionPlotView.cpp:115-126 | Wherever `DimensionPlot` renders, this plugin renders too. They part exactly where both bindings are valid and the index is outside the feature dataset's dimensions. |
| DimensionPlotView.Rendered | src/DimensionPlotView.cpp:115-126 | One `onDimensionChanged` sends at most one document. It sends exactly when both bindings are valid and names and clusters agree in number. With the index in range whenever `setData` reads it, that is exactly what `DimensionPlot`'s sends. |
| DimensionPlotView.Plugin.DropRegionsFor | src/DimensionPlotView.cpp:50-99 | No droppable region re-offers the bound feature dataset. Every droppable region binds the dragged dataset. |
| DimensionPlotView.Plugin.OnPointsDropped | src/DimensionPlotView.cpp:78-81 | A Points drop binds only the feature dataset and keeps the clusters. The handler itself sends nothing. |
| DimensionPlotView.Plugin.OnClustersDropped | src/DimensionPlotView.cpp:87-90 | A Clusters drop binds only the clusters. The handler itself sends nothing. |
| DimensionPlotView.Plugin.OnDatasetChanged | src/DimensionPlotView.cpp:108-113 | The picker always gets the feature binding, even an invalid one. Then the widget re-renders as `onDimensionChanged` does. |
| DimensionPlotView.Plugin.OnDimensionChanged | src/DimensionPlotView.cpp:115-126 | With both bindings valid, the widget receives what the cluster overload sends for the unchecked index: the cluster-mode document when names and clusters agree in number, nothing when they do not. Otherwise nothing is sent. |
| PlotView.ReadIgnoresOtherKeys | res/dimplot/plot_view.js:5-11 | The page reads only `title`, `values` and `categories`: adding or replacing any other key of the document leaves what it reads unchanged. |
| PlotView.JsObject.Assign | res/dimplot/plot_view.js:12-13 | `obj[k] = v` keeps a valid object valid. It sets `k` to `v` and leaves every other value alone. The old keys keep their order as a prefix, and exactly a new key is appended, last. |
| PlotView.JsObject.Entries | res/dimplot/plot_view.js:18 | `Object.entries` is one entry per key, in key order, each with its value, and no name occurs twice. |
| PlotView.Group | res/dimplot/plot_view.js:24 | `d3.group` yields a valid object whose keys are exactly the categories that occur. Each group is non-empty and holds only records of its own category. |
| PlotView.FirstAppearance | res/dimplot/plot_view.js:24-25 | The group keys are distinct, are exactly the names that occur, and are no more in number than the records. |
| PlotView.FirstAppearanceOrdered | res/dimplot/plot_view.js:24-25 | The group keys come out in the order in which their names first occur. |
| PlotView.FirstAppearanceOfDistinct | res/dimplot/plot_view.js:24-25 | A list of distinct names comes out unchanged. |
| PlotView.CategoryMapsHoldLast | res/dimplot/plot_view.js:11-14 | A duplicate name overwrites: each name holds the indices and the colour of the last category with that name. |
| PlotView.CategoryMapStep | res/dimplot/plot_view.js:11-14 | One turn of the first loop is one `obj[name] = v` assignment in each object. A new name goes last, and a repeated name keeps its place. |
| PlotView.AssignCategories | res/dimplot/plot_view.js:8-14 | The first loop leaves both objects as the name lists in order of first appearance, each name with its last category's indices and colour. |
| PlotView.FlattenEntries | res/dimplot/plot_view.js:17-22 | The nested loops push one `{value: values[i], category: name}` record per index of every entry, entry after entry. |
| PlotView.FlattenLength | res/dimplot/plot_view.js:17-22 | `flatData` has as many records as there are indices over all entries. |
| PlotView.FlattenContiguous | res/dimplot/plot_view.js:18-21 | An entry's records form one contiguous run, in its index order, right after the runs of the entries before it. |
| PlotView.RecordsOfFlatten | res/dimplot/plot_view.js:18-24 | With distinct entry names, the records of an entry's category are exactly that entry's run. |
| PlotView.RecordsOfAbsent | res/dimplot/plot_view.js:18-24 | A category that no entry carries has no records. |
| PlotView.CategoryNamesAreNonEmptyEntries | res/dimplot/plot_view.js:24-25 | With distinct entry names, the category names are the entries' names in entry order, without the entries whose index list is empty. |
| PlotView.GroupedNamesOfObject | res/dimplot/plot_view.js:18-25 | For the entries of any object, the category names are its non-empty entries' names, in entry order. |
| PlotView.PrepareData | res/dimplot/plot_view.js:5-25 | Over names that are plain object keys, the data preparation yields: the two objects; the flattened records of the entries; their grouping; and as category names the non-empty entries' names in entry order. |
| RoundTrip.PageValue | src/PlotWebWidget.cpp:113 | The page reads a value for a sent index exactly when the index is below 2^31 and below the number of points. That value is the point's value in the dimension. |
| RoundTrip.ReadBuiltDocument | src/PlotWebWidget.cpp:103-138 | The page reads back from the cluster-mode document: the dimension's name; the column; and every cluster's name, cast indices and colour, in cluster order. |
| RoundTrip.DistinctNamesEntries | res/dimplot/plot_view.js:11-18 | Over the JsObject model, for distinct plain-key names, `Object.entries(categoryMap)` is every category's name and indices, in document order. |
| RoundTrip.MapsAtDistinctName | res/dimplot/plot_view.js:11-14 | With distinct names, both objects hold each category's own indices and colour under its name. |
| RoundTrip.ClusterEntriesDistinct | res/dimplot/plot_view.js:18 | With distinct cluster names that are plain keys, the entries are one per cluster, in cluster order, with the cast indices. |
| RoundTrip.BlockOfCluster | res/dimplot/plot_view.js:19-20 | A cluster's records read, for each of its indices in order, the point's value, or undefined where the cast index falls outside the values. |
| RoundTrip.GroupedRecordsOfCluster | res/dimplot/plot_view.js:17-22 | End to end, with distinct cluster names that are plain keys: a cluster's records are one per index, in index order. Each holds the point's value in the dimension, or undefined where the index is 2^31 or more or past the last point. |
| RoundTrip.NonEmptyNamesOfClusters | res/dimplot/plot_view.js:24-25 | The non-empty entries' names are the names of the clusters that have indices, in cluster order. |
| RoundTrip.AxisNamesOfClusters | res/dimplot/plot_view.js:24-25 | End to end, with distinct cluster names that are plain keys: the category names are the cluster names in cluster order, without the clusters that have no indices. |

## Left out

- Widget construction, layout, page loading, resource initialisation and resize handling: UI plumbing with no data logic (src/DimensionPlot.cpp:30-48, src/PlotWebWidget.cpp:31-53, 156-173).
- `applyAspectRatio`: widget geometry computed with a floating-point division (src/PlotWebWidget.cpp:175-189).
- JSON text serialisation, `qDebug`, `qWarning` (src/DimensionPlot.cpp:117, 130) and `Timer` output: library calls and logging. The document is a value; each sent document is recorded as that value, not as its text. The debug output's read of the first three values is kept, as a precondition. Because the text is not modelled, neither is Qt's `toJson` writing NaN and infinite numbers as `null`: for such a point value the page reads `null`, where RoundTrip.ReadBuiltDocument and RoundTrip.GroupedRecordsOfCluster promise the value itself.
- `js_partitionHovered`, the web-channel bridge (`res/js_libs/qwebchannel.tools.js`) and all signal/slot wiring: event plumbing. The re-entry of `onDatasetChanged` through a dataset's `changed` signal is therefore not modelled. The handlers are modelled as called directly. This affects DimensionPlotView.Plugin.OnPointsDropped and DimensionPlotView.Plugin.OnClustersDropped, whose assignment fires the `changed` signal connected at src/DimensionPlotView.cpp:102-103, and DimensionPlot.Plugin.OnClustersDropped, whose re-render through that signal (src/DimensionPlot.cpp:108) comes on top of the direct call.
- The dimension picker (`SettingsAction`, `DimensionPickerAction`): the model records the dataset handed to the picker, and takes the picker's current index as a method argument.
- The data manager lookup `mv::data().getDataset(id)`: it is outside this model. A region's action names the dragged id, and the handlers take the dataset that id resolves to.
- `QList::first()` on an empty dataset list: it is undefined behaviour, so `DropRegions.Classify` requires dataset mime data to carry at least one dataset.
- `onDimensionChanged2` and the cell metadata: only declared in the header, with no body (src/DimensionPlotView.h:56, 64).
- The headers: they are declarations only.
- All d3 rendering after the data preparation (res/dimplot/plot_view.js:27 onwards): floating-point scales and quantiles, random jitter, SVG drawing.
- PlotView.PrepareData: covers only category names that are plain object keys. Names that are canonical array indices (`Object.entries` enumerates them first, in numeric order) and `__proto__` (assignment replaces the prototype) are excluded. The exclusion is slightly wider than JavaScript's: it also covers index-like names of 2^32 - 1 and above.
- PlotView.ReadClusterDocument: a document of any other shape reads as no view. The page's behaviour on such input, a JavaScript exception or `undefined` fields, is not modelled.
- DimensionPlotView.Plugin.OnDatasetChanged: carries the same index requirement as DimensionPlotView.Plugin.OnDimensionChanged, which it calls.
- DimensionPlotView.Plugin.OnDimensionChanged: requires the picker's index to be in range whenever both bindings are valid and the cluster names and clusters agree in number, since only then does `setData` index the dimension names with it. What happens with an index out of range is not modelled. `DimensionPlotView.RenderGuardsDiffer` states exactly which inputs this excludes compared with `DimensionPlot`.
- RoundTrip.ClusterEntriesDistinct: requires the cluster names to be plain object keys. A name that is an array index would be enumerated first by `Object.entries`, and `__proto__` would not be stored, so the entries would not follow cluster order.
- RoundTrip.GroupedRecordsOfCluster: requires the cluster names to be plain object keys, for the reason given for RoundTrip.ClusterEntriesDistinct.
- RoundTrip.AxisNamesOfClusters: requires the cluster names to be plain object keys, for the reason given for RoundTrip.ClusterEntriesDistinct.
