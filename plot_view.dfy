/**
 * The data preparation at the start of the page's `plotData`: it turns the
 * cluster-mode document into a name-to-indices object, a name-to-colour
 * object, a flat list of `{value, category}` records, the records grouped by
 * category, and the list of category names drawn on the axis.
 */
module PlotView {

  import opened Wrappers
  import opened Json

  // ---------------------------------------------------------------------------
  // What the page reads from the document
  // ---------------------------------------------------------------------------

  /** One category record as the page destructures it: `{name, indices, color}`. */
  datatype CategoryView = CategoryView(name: string, indices: seq<int>, color: string)

  /** The fields the page destructures from the document: `{title, values, categories}`. */
  datatype ClusterView<V> = ClusterView(title: string, values: seq<V>, categories: seq<CategoryView>)

  predicate IsCategory<V>(j: Json<V>)
  {
    && j.JObject?
    && "name" in j.fields && j.fields["name"].JString?
    && "indices" in j.fields && AsInts(j.fields["indices"]).Some?
    && "color" in j.fields && j.fields["color"].JString?
  }

  function CategoryOf<V>(j: Json<V>): CategoryView
    requires IsCategory(j)
  {
    CategoryView(j.fields["name"].str, AsInts(j.fields["indices"]).value, j.fields["color"].str)
  }

  /**
   * `const { title, values, categories } = jsonDoc` and the destructuring of
   * each category, on documents of the expected shape; `None` otherwise.
   * Keys the page does not read are ignored.
   */
  function ReadClusterDocument<V>(j: Json<V>): (r: Option<ClusterView<V>>)
    ensures r.Some? <==>
      && j.JObject?
      && "title" in j.fields && j.fields["title"].JString?
      && "values" in j.fields && AsNumbers(j.fields["values"]).Some?
      && "categories" in j.fields && j.fields["categories"].JArray?
      && forall k :: 0 <= k < |j.fields["categories"].items| ==> IsCategory(j.fields["categories"].items[k])
    ensures r.Some? ==> r.value.title == j.fields["title"].str
    ensures r.Some? ==> r.value.values == AsNumbers(j.fields["values"]).value
    ensures r.Some? ==> |r.value.categories| == |j.fields["categories"].items|
    ensures r.Some? ==> forall k :: 0 <= k < |r.value.categories| ==>
      && IsCategory(j.fields["categories"].items[k])
      && r.value.categories[k] == CategoryOf(j.fields["categories"].items[k])
  {
    if && j.JObject?
       && "title" in j.fields && j.fields["title"].JString?
       && "values" in j.fields && AsNumbers(j.fields["values"]).Some?
       && "categories" in j.fields && j.fields["categories"].JArray?
       && forall k :: 0 <= k < |j.fields["categories"].items| ==> IsCategory(j.fields["categories"].items[k])
    then
      var items := j.fields["categories"].items;
      Some(ClusterView(
        j.fields["title"].str,
        AsNumbers(j.fields["values"]).value,
        seq(|items|, k requires 0 <= k < |items| && IsCategory(items[k]) => CategoryOf(items[k]))))
    else
      None
  }

  /** Keys other than `title`, `values` and `categories` do not change what the page reads. */
  lemma ReadIgnoresOtherKeys<V>(fields: map<string, Json<V>>, k: string, v: Json<V>)
    requires k != "title" && k != "values" && k != "categories"
    ensures ReadClusterDocument(JObject(fields[k := v])) == ReadClusterDocument(JObject(fields))
  {
  }

  // ---------------------------------------------------------------------------
  // Sequences of names
  // ---------------------------------------------------------------------------

  predicate Distinct(s: seq<string>)
  {
    forall i, j :: 0 <= i < j < |s| ==> s[i] != s[j]
  }

  /** The distinct entries of `s`, each where it first appears. */
  function FirstAppearance(s: seq<string>): (r: seq<string>)
    ensures Distinct(r)
    ensures forall x :: x in r <==> x in s
    ensures |r| <= |s|
  {
    if s == [] then
      []
    else
      var r0 := FirstAppearance(s[..|s| - 1]);
      assert forall x :: x in s <==> x in s[..|s| - 1] || x == s[|s| - 1];
      if s[|s| - 1] in r0 then r0 else r0 + [s[|s| - 1]]
  }

  /** The position of the first occurrence of `x` in `s`. */
  function FirstIndex(s: seq<string>, x: string): (i: nat)
    requires x in s
    ensures i < |s| && s[i] == x
    ensures forall k :: 0 <= k < i ==> s[k] != x
  {
    if s[0] == x then 0 else 1 + FirstIndex(s[1..], x)
  }

  lemma {:induction false} FirstIndexOfPrefix(s: seq<string>, m: nat, x: string)
    requires m <= |s| && x in s[..m]
    ensures x in s && FirstIndex(s, x) == FirstIndex(s[..m], x)
  {
    var i := FirstIndex(s[..m], x);
    var j := FirstIndex(s, x);
    assert s[..m][i] == s[i];
  }

  /** The names come out in the order in which they first appear. */
  lemma {:induction false} FirstAppearanceOrderedPair(s: seq<string>, i: nat, j: nat)
    requires i < j < |FirstAppearance(s)|
    ensures FirstIndex(s, FirstAppearance(s)[i]) < FirstIndex(s, FirstAppearance(s)[j])
  {
    var init, x := s[..|s| - 1], s[|s| - 1];
    var r0, r := FirstAppearance(init), FirstAppearance(s);
    assert s == init + [x];
    FirstAppearanceSnoc(init, x);
    assert r[i] == r0[i];
    FirstIndexOfPrefix(s, |s| - 1, r0[i]);
    if j < |r0| {
      FirstAppearanceOrderedPair(init, i, j);
      FirstIndexOfPrefix(s, |s| - 1, r0[j]);
    } else {
      FirstIndexOfNew(s);
    }
  }

  /** The names come out in the order in which they first appear. */
  lemma FirstAppearanceOrdered(s: seq<string>)
    ensures var r := FirstAppearance(s);
      forall i, j :: 0 <= i < j < |r| ==> FirstIndex(s, r[i]) < FirstIndex(s, r[j])
  {
    var r := FirstAppearance(s);
    forall i, j | 0 <= i < j < |r| ensures FirstIndex(s, r[i]) < FirstIndex(s, r[j]) {
      FirstAppearanceOrderedPair(s, i, j);
    }
  }

  /** A name not seen before the last position first appears there. */
  lemma FirstIndexOfNew(s: seq<string>)
    requires s != [] && s[|s| - 1] !in s[..|s| - 1]
    ensures FirstIndex(s, s[|s| - 1]) == |s| - 1
  {
  }

  lemma {:induction false} FirstAppearanceOfDistinct(s: seq<string>)
    requires Distinct(s)
    ensures FirstAppearance(s) == s
  {
    if s != [] {
      var init := s[..|s| - 1];
      FirstAppearanceOfDistinct(init);
      assert s == init + [s[|s| - 1]];
    }
  }

  /** The JavaScript canonical array-index strings ("0", "17", but not "07"), whose keys objects enumerate first. */
  predicate IsArrayIndexName(s: string)
  {
    && |s| > 0
    && (forall k :: 0 <= k < |s| ==> '0' <= s[k] <= '9')
    && (s[0] != '0' || |s| == 1)
  }

  /**
   * A name that `obj[name] = v` stores as an own property enumerated in
   * insertion order: not an array index, and not `__proto__`, whose
   * assignment replaces the object's prototype instead.
   */
  predicate IsPlainKey(s: string)
  {
    !IsArrayIndexName(s) && s != "__proto__"
  }

  // ---------------------------------------------------------------------------
  // JavaScript objects used as dictionaries
  // ---------------------------------------------------------------------------

  /**
   * A plain object used as a dictionary: its own keys, in the order in which
   * they were first assigned, and the value of each. That is the enumeration
   * order of `Object.entries` for keys that are not array indices.
   */
  datatype JsObject<T> = JsObject(keys: seq<string>, props: map<string, T>)
  {
    predicate Valid()
    {
      Distinct(keys) && (forall k :: k in props ==> k in keys) && (forall k :: k in keys ==> k in props)
    }

    /** `obj[k] = v`: a new key goes last, an existing key keeps its place. */
    function Assign(k: string, v: T): (o: JsObject<T>)
      ensures Valid() ==> o.Valid()
      ensures o.props.Keys == props.Keys + {k} && o.props[k] == v
      ensures forall x :: x in props && x != k ==> o.props[x] == props[x]
      ensures |keys| <= |o.keys| <= |keys| + 1 && o.keys[..|keys|] == keys
      ensures |o.keys| == |keys| + 1 <==> k !in props
      ensures k !in props ==> o.keys[|keys|] == k
    {
      if k in props then JsObject(keys, props[k := v]) else JsObject(keys + [k], props[k := v])
    }

    /** `Object.entries(obj)`. */
    function Entries(): (es: seq<(string, T)>)
      requires Valid()
      ensures |es| == |keys|
      ensures forall i :: 0 <= i < |es| ==> es[i] == (keys[i], props[keys[i]])
      ensures forall i, j :: 0 <= i < j < |es| ==> es[i].0 != es[j].0
    {
      seq(|keys|, i requires 0 <= i < |keys| => (keys[i], props[keys[i]]))
    }
  }

  // ---------------------------------------------------------------------------
  // The two dictionaries
  // ---------------------------------------------------------------------------

  function Names(cats: seq<CategoryView>): (ns: seq<string>)
    ensures |ns| == |cats| && forall k :: 0 <= k < |cats| ==> ns[k] == cats[k].name
  {
    seq(|cats|, k requires 0 <= k < |cats| => cats[k].name)
  }

  /** The position of the last category named `n`. */
  function LastWith(cats: seq<CategoryView>, n: string): (j: nat)
    requires n in Names(cats)
    ensures j < |cats| && cats[j].name == n
    ensures forall k :: j < k < |cats| ==> cats[k].name != n
  {
    if cats[|cats| - 1].name == n then
      |cats| - 1
    else
      assert Names(cats[..|cats| - 1]) == Names(cats)[..|cats| - 1];
      LastWith(cats[..|cats| - 1], n)
  }

  /**
   * `categoryMap` as the first loop leaves it: the names in order of first
   * appearance, each with the indices of the LAST category of that name.
   */
  function CategoryMapOf(cats: seq<CategoryView>): (m: JsObject<seq<int>>)
    ensures m.Valid()
    ensures m.keys == FirstAppearance(Names(cats))
  {
    JsObject(FirstAppearance(Names(cats)), LastIndices(cats))
  }

  /** `categoryColorMap` as the first loop leaves it: the colour of the last category of each name. */
  function CategoryColorMapOf(cats: seq<CategoryView>): (m: JsObject<string>)
    ensures m.Valid()
    ensures m.keys == FirstAppearance(Names(cats))
  {
    JsObject(FirstAppearance(Names(cats)), LastColors(cats))
  }

  /** Each name with the indices of its last category. */
  function LastIndices(cats: seq<CategoryView>): map<string, seq<int>>
  {
    map n | n in Names(cats) :: cats[LastWith(cats, n)].indices
  }

  /** Each name with the colour of its last category. */
  function LastColors(cats: seq<CategoryView>): map<string, string>
  {
    map n | n in Names(cats) :: cats[LastWith(cats, n)].color
  }

  /** A duplicate name overwrites: each name maps to the indices and colour of its last category. */
  lemma CategoryMapsHoldLast(cats: seq<CategoryView>, n: string)
    requires n in CategoryMapOf(cats).props
    ensures exists j :: (0 <= j < |cats| && cats[j].name == n
      && CategoryMapOf(cats).props[n] == cats[j].indices
      && CategoryColorMapOf(cats).props[n] == cats[j].color
      && forall k :: j < k < |cats| ==> cats[k].name != n)
  {
    var j := LastWith(cats, n);
    assert cats[j].name == n;
  }

  lemma LastWithStep(cats: seq<CategoryView>, i: nat, n: string)
    requires i < |cats| && n in Names(cats[..i + 1])
    ensures n != cats[i].name ==> n in Names(cats[..i])
    ensures LastWith(cats[..i + 1], n) == if n == cats[i].name then i else LastWith(cats[..i], n)
  {
    var pre, cur := cats[..i], cats[..i + 1];
    assert cur[..i] == pre;
    assert Names(cur) == Names(pre) + [cats[i].name];
  }

  lemma NamesStep(cats: seq<CategoryView>, i: nat)
    requires i < |cats|
    ensures Names(cats[..i + 1]) == Names(cats[..i]) + [cats[i].name]
    ensures FirstAppearance(Names(cats[..i + 1])) ==
      var f := FirstAppearance(Names(cats[..i]));
      if cats[i].name in f then f else f + [cats[i].name]
  {
    var ns := Names(cats[..i + 1]);
    assert ns == Names(cats[..i]) + [cats[i].name];
    assert ns[..|ns| - 1] == Names(cats[..i]);
  }

  lemma CategoryMapKeysStep(cats: seq<CategoryView>, i: nat)
    requires i < |cats|
    ensures CategoryMapOf(cats[..i + 1]).keys == CategoryMapOf(cats[..i]).Assign(cats[i].name, cats[i].indices).keys
    ensures CategoryColorMapOf(cats[..i + 1]).keys == CategoryColorMapOf(cats[..i]).Assign(cats[i].name, cats[i].color).keys
  {
    NamesStep(cats, i);
  }

  lemma LastIndicesStep(cats: seq<CategoryView>, i: nat)
    requires i < |cats|
    ensures LastIndices(cats[..i + 1]) == LastIndices(cats[..i])[cats[i].name := cats[i].indices]
    ensures LastColors(cats[..i + 1]) == LastColors(cats[..i])[cats[i].name := cats[i].color]
  {
    var pre, cur := cats[..i], cats[..i + 1];
    assert Names(cur) == Names(pre) + [cats[i].name] by { assert cur[..i] == pre; }
    forall x | x in Names(cur) ensures LastIndices(cur)[x] == LastIndices(pre)[cats[i].name := cats[i].indices][x]
      && LastColors(cur)[x] == LastColors(pre)[cats[i].name := cats[i].color][x]
    {
      LastWithStep(cats, i, x);
    }
  }

  /** One turn of the first loop: assigning the next category's name in both objects. */
  lemma CategoryMapStep(cats: seq<CategoryView>, i: nat)
    requires i < |cats|
    ensures CategoryMapOf(cats[..i + 1]) == CategoryMapOf(cats[..i]).Assign(cats[i].name, cats[i].indices)
    ensures CategoryColorMapOf(cats[..i + 1]) == CategoryColorMapOf(cats[..i]).Assign(cats[i].name, cats[i].color)
  {
    CategoryMapKeysStep(cats, i);
    LastIndicesStep(cats, i);
  }

  // ---------------------------------------------------------------------------
  // The flat records and their grouping
  // ---------------------------------------------------------------------------

  /** An entry of `flatData`; `value` is `None` where `values[i]` is undefined. */
  datatype FlatRecord<V> = FlatRecord(value: Option<V>, category: string)

  /** `values[i]`: undefined outside the array. */
  function Lookup<V>(values: seq<V>, i: int): (r: Option<V>)
    ensures r.Some? <==> 0 <= i < |values|
    ensures r.Some? ==> r.value == values[i]
  {
    if 0 <= i < |values| then Some(values[i]) else None
  }

  /** The records pushed for one entry: one per index, in index order. */
  function Block<V>(values: seq<V>, cat: string, indices: seq<int>): (b: seq<FlatRecord<V>>)
    ensures |b| == |indices|
    ensures forall t :: 0 <= t < |b| ==> b[t] == FlatRecord(Lookup(values, indices[t]), cat)
  {
    seq(|indices|, t requires 0 <= t < |indices| => FlatRecord(Lookup(values, indices[t]), cat))
  }

  /** The records for a list of entries, entry after entry. */
  function Flatten<V>(values: seq<V>, entries: seq<(string, seq<int>)>): seq<FlatRecord<V>>
  {
    if entries == [] then
      []
    else
      var last := entries[|entries| - 1];
      Flatten(values, entries[..|entries| - 1]) + Block(values, last.0, last.1)
  }

  function Categories<V>(flat: seq<FlatRecord<V>>): (cs: seq<string>)
    ensures |cs| == |flat| && forall i :: 0 <= i < |flat| ==> cs[i] == flat[i].category
  {
    seq(|flat|, i requires 0 <= i < |flat| => flat[i].category)
  }

  /** The records of one category, in their order. */
  function RecordsOf<V>(flat: seq<FlatRecord<V>>, cat: string): (rs: seq<FlatRecord<V>>)
    ensures |rs| <= |flat|
  {
    if flat == [] then
      []
    else
      var last := flat[|flat| - 1];
      RecordsOf(flat[..|flat| - 1], cat) + (if last.category == cat then [last] else [])
  }

  /** The records of a category all carry that category. */
  lemma {:induction false} RecordsOfCategory<V>(flat: seq<FlatRecord<V>>, cat: string)
    ensures forall t :: 0 <= t < |RecordsOf(flat, cat)| ==> RecordsOf(flat, cat)[t].category == cat
  {
    if flat != [] {
      RecordsOfCategory(flat[..|flat| - 1], cat);
    }
  }

  /** A category that occurs in the records has at least one record. */
  lemma {:induction false} RecordsOfPresent<V>(flat: seq<FlatRecord<V>>)
    ensures forall c :: c in Categories(flat) ==> RecordsOf(flat, c) != []
  {
    if flat != [] {
      var init := flat[..|flat| - 1];
      RecordsOfPresent(init);
      forall c | c in Categories(flat) ensures RecordsOf(flat, c) != [] {
        var t :| 0 <= t < |flat| && flat[t].category == c;
        if t < |init| {
          assert init[t].category == c;
          assert c in Categories(init);
        }
      }
    }
  }

  /** `d3.group(flatData, d => d.category)`: categories by first appearance, each with its records. */
  function Group<V>(flat: seq<FlatRecord<V>>): (g: JsObject<seq<FlatRecord<V>>>)
    ensures g.Valid()
    ensures forall c :: c in g.props <==> c in Categories(flat)
    ensures forall c :: c in g.props ==> g.props[c] != [] && forall t :: 0 <= t < |g.props[c]| ==> g.props[c][t].category == c
  {
    RecordsOfPresent(flat);
    forall c | c in Categories(flat) ensures forall t :: 0 <= t < |RecordsOf(flat, c)| ==> RecordsOf(flat, c)[t].category == c {
      RecordsOfCategory(flat, c);
    }
    JsObject(FirstAppearance(Categories(flat)), map c | c in Categories(flat) :: RecordsOf(flat, c))
  }

  function EntryNames<T>(entries: seq<(string, T)>): (ns: seq<string>)
    ensures |ns| == |entries| && forall k :: 0 <= k < |entries| ==> ns[k] == entries[k].0
  {
    seq(|entries|, k requires 0 <= k < |entries| => entries[k].0)
  }

  /** The names of the entries whose index list is not empty, in entry order. */
  function NonEmptyNames(entries: seq<(string, seq<int>)>): seq<string>
  {
    if entries == [] then
      []
    else
      var last := entries[|entries| - 1];
      NonEmptyNames(entries[..|entries| - 1]) + (if |last.1| > 0 then [last.0] else [])
  }

  function SumLengths(entries: seq<(string, seq<int>)>): nat
  {
    if entries == [] then 0 else SumLengths(entries[..|entries| - 1]) + |entries[|entries| - 1].1|
  }

  /** `flatData` has one record per index of every entry. */
  lemma {:induction false} FlattenLength<V>(values: seq<V>, entries: seq<(string, seq<int>)>)
    ensures |Flatten(values, entries)| == SumLengths(entries)
  {
    if entries != [] {
      FlattenLength(values, entries[..|entries| - 1]);
    }
  }

  lemma {:induction false} FlattenAppend<V>(values: seq<V>, a: seq<(string, seq<int>)>, b: seq<(string, seq<int>)>)
    ensures Flatten(values, a + b) == Flatten(values, a) + Flatten(values, b)
  {
    if b != [] {
      var b0 := b[..|b| - 1];
      assert (a + b)[..|a + b| - 1] == a + b0;
      FlattenAppend(values, a, b0);
    } else {
      assert a + b == a;
    }
  }

  /** The records of entry `k` form one contiguous run, after those of the entries before it. */
  lemma FlattenContiguous<V>(values: seq<V>, entries: seq<(string, seq<int>)>, k: nat)
    requires k < |entries|
    ensures var start := |Flatten(values, entries[..k])|;
      var run := Block(values, entries[k].0, entries[k].1);
      && start + |run| <= |Flatten(values, entries)|
      && Flatten(values, entries)[start..start + |run|] == run
  {
    assert entries == entries[..k + 1] + entries[k + 1..];
    FlattenAppend(values, entries[..k + 1], entries[k + 1..]);
    assert entries[..k + 1][..k] == entries[..k];
  }

  lemma {:induction false} RecordsOfAppend<V>(a: seq<FlatRecord<V>>, b: seq<FlatRecord<V>>, cat: string)
    ensures RecordsOf(a + b, cat) == RecordsOf(a, cat) + RecordsOf(b, cat)
  {
    if b != [] {
      var b0 := b[..|b| - 1];
      assert (a + b)[..|a + b| - 1] == a + b0;
      RecordsOfAppend(a, b0, cat);
    } else {
      assert a + b == a;
    }
  }

  lemma {:induction false} RecordsOfBlock<V>(values: seq<V>, name: string, indices: seq<int>, cat: string)
    ensures RecordsOf(Block(values, name, indices), cat) == if name == cat then Block(values, name, indices) else []
  {
    if indices != [] {
      var init := indices[..|indices| - 1];
      RecordsOfBlock(values, name, init, cat);
      assert Block(values, name, indices)[..|indices| - 1] == Block(values, name, init);
    }
  }

  /**
   * With distinct names, the records of category `entries[k].0` are exactly
   * that entry's records: one per index, in index order.
   */
  lemma {:induction false} RecordsOfFlatten<V>(values: seq<V>, entries: seq<(string, seq<int>)>, k: nat)
    requires Distinct(EntryNames(entries)) && k < |entries|
    ensures RecordsOf(Flatten(values, entries), entries[k].0) == Block(values, entries[k].0, entries[k].1)
  {
    var init := entries[..|entries| - 1];
    var last := entries[|entries| - 1];
    var ns := EntryNames(entries);
    assert EntryNames(init) == ns[..|entries| - 1];
    RecordsOfAppend(Flatten(values, init), Block(values, last.0, last.1), entries[k].0);
    RecordsOfBlock(values, last.0, last.1, entries[k].0);
    if k < |entries| - 1 {
      assert ns[k] != ns[|entries| - 1];
      RecordsOfFlatten(values, init, k);
    } else {
      assert last.0 !in EntryNames(init) by {
        forall j | 0 <= j < |init| ensures EntryNames(init)[j] != last.0 {
          assert ns[j] != ns[|entries| - 1];
        }
      }
      RecordsOfAbsent(values, init, last.0);
    }
  }

  /** A category no entry carries has no records. */
  lemma {:induction false} RecordsOfAbsent<V>(values: seq<V>, entries: seq<(string, seq<int>)>, cat: string)
    requires cat !in EntryNames(entries)
    ensures RecordsOf(Flatten(values, entries), cat) == []
  {
    if entries != [] {
      var init := entries[..|entries| - 1];
      var last := entries[|entries| - 1];
      assert EntryNames(init) == EntryNames(entries)[..|entries| - 1];
      assert EntryNames(entries)[|entries| - 1] == last.0;
      RecordsOfAppend(Flatten(values, init), Block(values, last.0, last.1), cat);
      RecordsOfBlock(values, last.0, last.1, cat);
      RecordsOfAbsent(values, init, cat);
    }
  }

  lemma {:induction false} CategoriesAppend<V>(a: seq<FlatRecord<V>>, b: seq<FlatRecord<V>>)
    ensures Categories(a + b) == Categories(a) + Categories(b)
  {
  }

  /** `m` copies of `x`. */
  function Repeat(x: string, m: nat): (r: seq<string>)
    ensures |r| == m && forall k :: 0 <= k < m ==> r[k] == x
  {
    if m == 0 then [] else Repeat(x, m - 1) + [x]
  }

  /** Appending one name keeps the distinct names and adds it at the end when it is new. */
  lemma FirstAppearanceSnoc(s: seq<string>, x: string)
    ensures FirstAppearance(s + [x]) == if x in s then FirstAppearance(s) else FirstAppearance(s) + [x]
  {
    var t := s + [x];
    assert t[..|t| - 1] == s;
  }

  /** Appending a run of one name already present, or absent before, to a sequence of names. */
  lemma {:induction false} FirstAppearanceRun(s: seq<string>, x: string, m: nat)
    ensures FirstAppearance(s + Repeat(x, m)) ==
      if m > 0 && x !in s then FirstAppearance(s) + [x] else FirstAppearance(s)
  {
    if m > 0 {
      var t0 := s + Repeat(x, m - 1);
      assert s + Repeat(x, m) == t0 + [x];
      FirstAppearanceRun(s, x, m - 1);
      FirstAppearanceSnoc(t0, x);
      if m > 1 {
        assert t0[|t0| - 1] == x;
      } else {
        assert t0 == s;
      }
    } else {
      assert s + Repeat(x, m) == s;
    }
  }

  lemma {:induction false} CategoriesOfFlatten<V>(values: seq<V>, entries: seq<(string, seq<int>)>)
    ensures forall c :: c in Categories(Flatten(values, entries)) ==> c in NonEmptyNames(entries)
    ensures forall c :: c in NonEmptyNames(entries) ==> c in EntryNames(entries)
  {
    if entries != [] {
      var init := entries[..|entries| - 1];
      var last := entries[|entries| - 1];
      CategoriesOfFlatten(values, init);
      CategoriesAppend(Flatten(values, init), Block(values, last.0, last.1));
      assert EntryNames(init) == EntryNames(entries)[..|entries| - 1];
    }
  }

  /**
   * With distinct names, the grouped category names are the entries' names
   * in entry order, leaving out every entry whose index list is empty.
   */
  lemma {:induction false} CategoryNamesAreNonEmptyEntries<V>(values: seq<V>, entries: seq<(string, seq<int>)>)
    requires Distinct(EntryNames(entries))
    ensures Group(Flatten(values, entries)).keys == NonEmptyNames(entries)
  {
    if entries != [] {
      var init := entries[..|entries| - 1];
      var last := entries[|entries| - 1];
      assert EntryNames(init) == EntryNames(entries)[..|entries| - 1];
      CategoryNamesAreNonEmptyEntries(values, init);
      CategoriesOfFlatten(values, init);
      var b := Block(values, last.0, last.1);
      CategoriesAppend(Flatten(values, init), b);
      assert Categories(b) == Repeat(last.0, |last.1|);
      assert last.0 !in EntryNames(init);
      FirstAppearanceRun(Categories(Flatten(values, init)), last.0, |last.1|);
    }
  }

  // ---------------------------------------------------------------------------
  // The page's loops
  // ---------------------------------------------------------------------------

  /** The first loop: assign every category's indices and colour under its name. */
  method AssignCategories(categories: seq<CategoryView>)
    returns (categoryMap: JsObject<seq<int>>, categoryColorMap: JsObject<string>)
    ensures categoryMap == CategoryMapOf(categories)
    ensures categoryColorMap == CategoryColorMapOf(categories)
  {
    categoryMap := JsObject([], map[]);
    categoryColorMap := JsObject([], map[]);
    var i := 0;
    while i < |categories|
      invariant 0 <= i <= |categories|
      invariant categoryMap == CategoryMapOf(categories[..i])
      invariant categoryColorMap == CategoryColorMapOf(categories[..i])
    {
      CategoryMapStep(categories, i);
      categoryMap := categoryMap.Assign(categories[i].name, categories[i].indices);
      categoryColorMap := categoryColorMap.Assign(categories[i].name, categories[i].color);
      i := i + 1;
    }
    assert categories[..i] == categories;
  }

  /** The second loop: push one record per index of every entry. */
  method FlattenEntries<V>(values: seq<V>, entries: seq<(string, seq<int>)>) returns (flatData: seq<FlatRecord<V>>)
    ensures flatData == Flatten(values, entries)
  {
    flatData := [];
    var k := 0;
    while k < |entries|
      invariant 0 <= k <= |entries|
      invariant flatData == Flatten(values, entries[..k])
    {
      var (cat, indices) := entries[k];
      ghost var before := flatData;
      var t := 0;
      while t < |indices|
        invariant 0 <= t <= |indices|
        invariant |flatData| == |before| + t && flatData[..|before|] == before
        invariant forall s :: 0 <= s < t ==> flatData[|before| + s] == FlatRecord(Lookup(values, indices[s]), cat)
      {
        flatData := flatData + [FlatRecord(Lookup(values, indices[t]), cat)];
        t := t + 1;
      }
      assert flatData == before + Block(values, cat, indices);
      assert entries[..k + 1][..k] == entries[..k];
      k := k + 1;
    }
    assert entries[..k] == entries;
  }

  /**
   * The data preparation of `plotData`. Names that are array indices would be
   * enumerated ahead of the others by `Object.entries`, and `__proto__` would
   * not be stored at all; the model covers the documents without such names.
   */
  method PrepareData<V>(doc: ClusterView<V>)
    returns (categoryMap: JsObject<seq<int>>, categoryColorMap: JsObject<string>,
             flatData: seq<FlatRecord<V>>, grouped: JsObject<seq<FlatRecord<V>>>, categoryNames: seq<string>)
    requires forall k :: 0 <= k < |doc.categories| ==> IsPlainKey(doc.categories[k].name)
    ensures categoryMap == CategoryMapOf(doc.categories)
    ensures categoryColorMap == CategoryColorMapOf(doc.categories)
    ensures flatData == Flatten(doc.values, categoryMap.Entries())
    ensures grouped == Group(flatData)
    ensures categoryNames == NonEmptyNames(categoryMap.Entries())
  {
    categoryMap, categoryColorMap := AssignCategories(doc.categories);
    var entries := categoryMap.Entries();
    flatData := FlattenEntries(doc.values, entries);
    grouped := Group(flatData);
    categoryNames := grouped.keys;
    GroupedNamesOfObject(doc.values, categoryMap);
  }

  /** The entries of an object have distinct names, so grouping their records yields the non-empty ones. */
  lemma GroupedNamesOfObject<V>(values: seq<V>, obj: JsObject<seq<int>>)
    requires obj.Valid()
    ensures Group(Flatten(values, obj.Entries())).keys == NonEmptyNames(obj.Entries())
  {
    assert EntryNames(obj.Entries()) == obj.keys;
    CategoryNamesAreNonEmptyEntries(values, obj.Entries());
  }
}
