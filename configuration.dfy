/** The configuration snapshot and its query, filter and selection engine (src/config.rs). */
module Configuration {
  import opened Results
  import opened Text
  import opened Tables
  import Collections

  type Collection = Collections.Collection

  datatype Config = Config(defaultRunner: string, defaultMenu: string, collections: seq<(string, Collection)>)

  /** One item together with the name of the collection it comes from. */
  datatype Entry = Entry(collection: string, key: string, payload: string)

  /** `Config::template`: empty runner, the `dmenu` menu, no collections. */
  function Template(): (r: Config)
    ensures r.defaultRunner == "" && r.defaultMenu == "dmenu" && r.collections == []
  {
    Config("", "dmenu", [])
  }

  /** `Config::default()` as derived: every field empty. */
  function Default(): (r: Config)
    ensures r.defaultRunner == "" && r.defaultMenu == "" && r.collections == []
  {
    Config("", "", [])
  }

  // ---------------------------------------------------------------- filtering

  /** Selective filtering: the lower-cased name equals some lower-cased input. */
  predicate NamedExactly(name: string, inputs: seq<string>) {
    exists j :: j in inputs && Lower(name) == Lower(j)
  }

  /** Non-selective filtering: the lower-cased name contains some lower-cased input. */
  predicate NamedLike(name: string, inputs: seq<string>) {
    exists j :: j in inputs && Contains(Lower(name), Lower(j))
  }

  function ExactMatcher(inputs: seq<string>): ((string, Collection)) -> bool {
    (e: (string, Collection)) => NamedExactly(e.0, inputs)
  }

  function LikeMatcher(inputs: seq<string>): ((string, Collection)) -> bool {
    (e: (string, Collection)) => NamedLike(e.0, inputs)
  }

  /** Whether `filter_collections` keeps a collection of this name. */
  predicate Kept(name: string, inputs: seq<string>, selective: bool) {
    |inputs| == 0 || (if selective then NamedExactly(name, inputs) else NamedLike(name, inputs))
  }

  /** `Config::filter_collections`. */
  function FilterCollections(config: Config, inputs: seq<string>, selective: bool): (r: seq<(string, Collection)>)
    ensures IsSubsequence(r, config.collections)
    ensures |inputs| == 0 ==> r == config.collections
    ensures forall i :: 0 <= i < |r| ==> r[i] in config.collections && Kept(r[i].0, inputs, selective)
    ensures forall i :: 0 <= i < |config.collections| && Kept(config.collections[i].0, inputs, selective) ==>
              config.collections[i] in r
  {
    SubsequenceOfItself(config.collections);
    if |inputs| == 0 then config.collections
    else if selective then Filter(config.collections, ExactMatcher(inputs))
    else Filter(config.collections, LikeMatcher(inputs))
  }

  /** A collection is never listed twice, however many inputs match it. */
  lemma FilterCollectionsUnique(config: Config, inputs: seq<string>, selective: bool)
    requires UniqueKeys(config.collections)
    ensures UniqueKeys(FilterCollections(config, inputs, selective))
  {
    if |inputs| > 0 {
      if selective {
        FilterUnique(config.collections, ExactMatcher(inputs));
      } else {
        FilterUnique(config.collections, LikeMatcher(inputs));
      }
    }
  }

  /** `Config::list_collections`, apart from what it prints: it fails exactly when the filter keeps nothing. */
  function ListCollections(config: Config, inputs: seq<string>, selective: bool): (r: Result<()>)
    ensures r.Err? <==> FilterCollections(config, inputs, selective) == []
    ensures r.Err? ==> r.msg == "No collections are found"
  {
    if |FilterCollections(config, inputs, selective)| == 0 then Err("No collections are found") else Ok(())
  }

  /** Listing everything fails only on a configuration without collections. */
  lemma ListAllFailsOnlyWhenEmpty(config: Config, selective: bool)
    ensures ListCollections(config, [], selective).Err? <==> config.collections == []
  {
  }

  function NameMatcher(query: string): ((string, Collection)) -> bool {
    (e: (string, Collection)) => Contains(Lower(e.0), Lower(query))
  }

  /** `Config::query_collections`: the collections whose lower-cased name contains the lower-cased query. */
  function QueryCollections(config: Config, query: string): (r: seq<(string, Collection)>)
    ensures IsSubsequence(r, config.collections)
    ensures forall i :: 0 <= i < |r| ==> r[i] in config.collections && Contains(Lower(r[i].0), Lower(query))
    ensures forall i :: 0 <= i < |config.collections| && Contains(Lower(config.collections[i].0), Lower(query)) ==>
              config.collections[i] in r
  {
    Filter(config.collections, NameMatcher(query))
  }

  /** An empty query finds every collection. */
  lemma QueryCollectionsEmptyQuery(config: Config)
    ensures QueryCollections(config, "") == config.collections
  {
    forall e | e in config.collections ensures NameMatcher("")(e) {
      ContainsEmpty(Lower(e.0));
    }
    FilterKeepsAll(config.collections, NameMatcher(""));
  }

  // ---------------------------------------------------------------- selection

  /** The 0 / 1 / many policy shared by `select_collections` and `select_items`.
      `choice` is what the interactive chooser returns: an index, or None when
      the input could not be read. */
  function Choose<T>(candidates: seq<T>, choice: Option<nat>, notFound: string): (r: Result<T>)
    ensures r.Ok? ==> r.value in candidates
    ensures r.Err? <==> |candidates| == 0 || (|candidates| > 1 && (choice.None? || choice.value >= |candidates|))
    ensures |candidates| == 0 ==> r == Err(notFound)
    ensures |candidates| == 1 ==> r == Ok(candidates[0])
    ensures |candidates| > 1 && choice.Some? && choice.value < |candidates| ==> r == Ok(candidates[choice.value])
    ensures |candidates| > 1 && choice.None? ==> r == Err("Cannot observe user input")
    ensures |candidates| > 1 && choice.Some? && choice.value >= |candidates| ==> r == Err("Index out of bounds")
  {
    if |candidates| == 0 then Err(notFound)
    else if |candidates| == 1 then Ok(candidates[0])
    else match choice
      case None => Err("Cannot observe user input")
      case Some(i) => if i < |candidates| then Ok(candidates[i]) else Err("Index out of bounds")
  }

  /** `Config::select_collections`. */
  function SelectCollections(config: Config, query: string, choice: Option<nat>): (r: Result<(string, Collection)>)
    ensures config.collections == [] ==> r == Err("No collections are found!")
    ensures config.collections != [] ==>
              r == Choose(QueryCollections(config, query), choice, "Cannot find any collections with that query.")
    ensures r.Ok? ==> r.value in config.collections && Contains(Lower(r.value.0), Lower(query))
  {
    if |config.collections| == 0 then Err("No collections are found!")
    else Choose(QueryCollections(config, query), choice, "Cannot find any collections with that query.")
  }

  /** With a single match the chooser is never consulted. */
  lemma SelectCollectionsSingleMatch(config: Config, query: string, c1: Option<nat>, c2: Option<nat>)
    requires |QueryCollections(config, query)| == 1
    ensures SelectCollections(config, query, c1) == SelectCollections(config, query, c2)
                                                 == Ok(QueryCollections(config, query)[0])
  {
    assert config.collections != [];
  }

  // ---------------------------------------------------------------- item queries

  /** `Config::query_items`: per collection, in order, its matching items; collections with none are dropped. */
  function QueryItems(collections: seq<(string, Collection)>, query: string): seq<(string, seq<(string, string)>)> {
    if collections == [] then []
    else
      var hits := Collections.QueryItems(collections[0].1, query);
      var rest := QueryItems(collections[1..], query);
      if hits == [] then rest else [(collections[0].0, hits)] + rest
  }

  /** Every collection paired with its own query result, dropped or not. */
  function Groups(collections: seq<(string, Collection)>, query: string): (r: seq<(string, seq<(string, string)>)>)
    ensures |r| == |collections|
    ensures forall i :: 0 <= i < |r| ==> r[i] == (collections[i].0, Collections.QueryItems(collections[i].1, query))
  {
    if collections == [] then []
    else [(collections[0].0, Collections.QueryItems(collections[0].1, query))] + Groups(collections[1..], query)
  }

  predicate NonEmptyGroup(g: (string, seq<(string, string)>)) {
    g.1 != []
  }

  function NonEmptyMatcher(): ((string, seq<(string, string)>)) -> bool {
    g => NonEmptyGroup(g)
  }

  /** `query_items` is the per-collection query with the empty results filtered out:
      collection order is kept and exactly the collections without a match are dropped. */
  lemma {:induction false} QueryItemsDropsEmpty(collections: seq<(string, Collection)>, query: string)
    ensures QueryItems(collections, query) == Filter(Groups(collections, query), NonEmptyMatcher())
  {
    if collections != [] {
      QueryItemsDropsEmpty(collections[1..], query);
      assert Groups(collections, query)[1..] == Groups(collections[1..], query);
    }
  }

  /** The items of one collection, each tagged with the collection's name. */
  function Tag(name: string, items: seq<(string, string)>): (r: seq<Entry>)
    ensures |r| == |items|
    ensures forall i :: 0 <= i < |items| ==> r[i] == Entry(name, items[i].0, items[i].1)
  {
    if items == [] then [] else [Entry(name, items[0].0, items[0].1)] + Tag(name, items[1..])
  }

  /** The `flat_map` of a list of groups into entries, in order. */
  function Flatten(groups: seq<(string, seq<(string, string)>)>): seq<Entry> {
    if groups == [] then [] else Tag(groups[0].0, groups[0].1) + Flatten(groups[1..])
  }

  /** Every item of every collection, collection by collection, in order. */
  function Entries(collections: seq<(string, Collection)>): seq<Entry> {
    if collections == [] then []
    else Tag(collections[0].0, collections[0].1.items) + Entries(collections[1..])
  }

  lemma {:induction false} EntriesAppend(a: seq<(string, Collection)>, b: seq<(string, Collection)>)
    ensures Entries(a + b) == Entries(a) + Entries(b)
  {
    if a == [] {
      assert a + b == b;
    } else {
      assert (a + b)[0] == a[0];
      assert (a + b)[1..] == a[1..] + b;
      EntriesAppend(a[1..], b);
    }
  }

  /** Every entry names a collection that is really there. */
  lemma {:induction false} EntriesOrigin(collections: seq<(string, Collection)>, e: Entry)
    requires e in Entries(collections)
    ensures HasKey(collections, e.collection)
    ensures exists j :: 0 <= j < |collections| && collections[j].0 == e.collection &&
                        (e.key, e.payload) in collections[j].1.items
  {
    var t := Tag(collections[0].0, collections[0].1.items);
    assert Keys(collections) == [collections[0].0] + Keys(collections[1..]);
    if e in t {
      var i :| 0 <= i < |t| && t[i] == e;
      assert collections[0].1.items[i] == (e.key, e.payload);
    } else {
      EntriesOrigin(collections[1..], e);
      var j :| 0 <= j < |collections[1..]| && collections[1..][j].0 == e.collection &&
               (e.key, e.payload) in collections[1..][j].1.items;
      assert collections[j + 1] == collections[1..][j];
    }
  }

  predicate EntryMatches(e: Entry, query: string) {
    Collections.ItemMatches((e.key, e.payload), query)
  }

  function EntryMatcher(query: string): Entry -> bool {
    e => EntryMatches(e, query)
  }

  /** Tagging commutes with filtering. */
  lemma {:induction false} TagQueryItems(name: string, c: Collection, query: string)
    decreases |c.items|
    ensures Filter(Tag(name, c.items), EntryMatcher(query)) == Tag(name, Collections.QueryItems(c, query))
  {
    if c.items != [] {
      var c' := Collections.Collection(c.defaultRunner, c.items[1..]);
      TagQueryItems(name, c', query);
      assert Tag(name, c.items)[1..] == Tag(name, c'.items);
    }
  }

  /** The candidates of `select_items` are exactly the matching entries of the whole
      configuration, in configuration order. */
  lemma {:induction false} FlattenQueryItems(collections: seq<(string, Collection)>, query: string)
    ensures Flatten(QueryItems(collections, query)) == Filter(Entries(collections), EntryMatcher(query))
  {
    if collections != [] {
      var head := collections[0];
      var hits := Collections.QueryItems(head.1, query);
      FlattenQueryItems(collections[1..], query);
      FilterAppend(Tag(head.0, head.1.items), Entries(collections[1..]), EntryMatcher(query));
      TagQueryItems(head.0, head.1, query);
      if hits != [] {
        var r := [(head.0, hits)] + QueryItems(collections[1..], query);
        assert r[1..] == QueryItems(collections[1..], query);
      }
    }
  }

  /** `Config::select_items`: the 0 / 1 / many policy over the flattened query results. */
  function SelectItems(config: Config, query: string, choice: Option<nat>): (r: Result<Entry>)
    ensures r == Choose(Filter(Entries(config.collections), EntryMatcher(query)), choice,
                        "Cannot find any items with that query.")
    ensures r.Ok? ==> r.value in Entries(config.collections) && EntryMatches(r.value, query)
  {
    FlattenQueryItems(config.collections, query);
    Choose(Flatten(QueryItems(config.collections, query)), choice, "Cannot find any items with that query.")
  }

  /** `Config::search_items`, apart from what it prints: it counts the groups and fails when there are none. */
  method SearchItems(config: Config, query: string) returns (r: Result<()>)
    ensures r.Err? <==> QueryItems(config.collections, query) == []
    ensures r.Err? ==> r.msg == "Cannot find any results with query."
  {
    var results := QueryItems(config.collections, query);
    var count := 0;
    for i := 0 to |results|
      invariant count == i
    {
      count := count + 1;
    }
    if count == 0 {
      r := Err("Cannot find any results with query.");
    } else {
      r := Ok(());
    }
  }

  /** Search fails exactly when no item of any collection matches. */
  lemma SearchFailsIffNoMatch(config: Config, query: string)
    ensures QueryItems(config.collections, query) == [] <==>
            forall e :: e in Entries(config.collections) ==> !EntryMatches(e, query)
  {
    var groups := QueryItems(config.collections, query);
    var matching := Filter(Entries(config.collections), EntryMatcher(query));
    FlattenQueryItems(config.collections, query);
    QueryItemsDropsEmpty(config.collections, query);
    if groups != [] {
      assert groups[0].1 != [];
      assert Flatten(groups) == Tag(groups[0].0, groups[0].1) + Flatten(groups[1..]);
      assert matching[0] in Entries(config.collections) && EntryMatches(matching[0], query);
    }
  }
}
