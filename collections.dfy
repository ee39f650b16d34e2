/** A collection (src/collections.rs): an optional runner of its own and an
    insertion-ordered map from item label to payload. */
module Collections {
  import opened Results
  import opened Text
  import opened Tables

  datatype Collection = Collection(defaultRunner: Option<string>, items: seq<(string, string)>)

  /** The label or the payload contains the query, both lower-cased. */
  predicate ItemMatches(item: (string, string), query: string) {
    Contains(Lower(item.0), Lower(query)) || Contains(Lower(item.1), Lower(query))
  }

  function ItemMatcher(query: string): ((string, string)) -> bool {
    item => ItemMatches(item, query)
  }

  /** `Collection::query_items`: the matching items, in the collection's order. */
  function QueryItems(c: Collection, query: string): (r: seq<(string, string)>)
    ensures |r| <= |c.items|
    ensures forall i :: 0 <= i < |r| ==> r[i] in c.items && ItemMatches(r[i], query)
    ensures forall i :: 0 <= i < |c.items| && ItemMatches(c.items[i], query) ==> c.items[i] in r
    ensures IsSubsequence(r, c.items)
  {
    Filter(c.items, ItemMatcher(query))
  }

  /** The empty query matches every item, so nothing is dropped. */
  lemma QueryItemsEmptyQuery(c: Collection)
    ensures QueryItems(c, "") == c.items
  {
    forall item | item in c.items ensures ItemMatcher("")(item) {
      ContainsEmpty(Lower(item.0));
    }
    FilterKeepsAll(c.items, ItemMatcher(""));
  }

  /** Matching ignores the case of the query. */
  lemma QueryItemsIgnoresQueryCase(c: Collection, query: string)
    ensures QueryItems(c, query) == QueryItems(c, Lower(query))
  {
    LowerIdempotent(query);
    FilterAgree(c.items, ItemMatcher(query), ItemMatcher(Lower(query)));
  }

  /** A collection whose labels are unique yields unique labels. */
  lemma QueryItemsUnique(c: Collection, query: string)
    requires UniqueKeys(c.items)
    ensures UniqueKeys(QueryItems(c, query))
  {
    FilterUnique(c.items, ItemMatcher(query));
  }

  /** `Collection::template`: no runner of its own and the single example item. */
  function Template(): (r: Collection)
    ensures r.defaultRunner == None
    ensures Keys(r.items) == ["example key"]
    ensures Lookup(r.items, "example key") == Some("example value")
  {
    Collection(None, [("example key", "example value")])
  }
}
