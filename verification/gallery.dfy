/**
 The public gallery page (`GalleryPage`): a fixed list of clothing items
 narrowed by a category button and a search box. The effect that reacts to
 either criterion recomputes the visible list from the fixed list, never from
 the previous result.
 */
module Gallery {
  import Catalog
  import Seqs
  import Text

  type Item = Catalog.Item

  /** The fixed list the page filters. */
  const ClothingItems: seq<Item> := [
    Catalog.Item(1, "Classic Denim Jacket", "outerwear", 129.99,
      "https://images.unsplash.com/photo-1523205771623-e0faa4d2813d?ixlib=rb-4.0.3&ixid=M3wxMjA3fDB8MHxwaG90by1wYWdlfHx8fGVufDB8fHx8fA%3D%3D&auto=format&fit=crop&w=2069&q=80"),
    Catalog.Item(2, "Floral Summer Dress", "dresses", 89.99,
      "https://images.unsplash.com/photo-1585487000160-6ebcfceb0d03?ixlib=rb-4.0.3&ixid=M3wxMjA3fDB8MHxwaG90by1wYWdlfHx8fGVufDB8fHx8fA%3D%3D&auto=format&fit=crop&w=2574&q=80"),
    Catalog.Item(3, "Slim Fit Chinos", "pants", 69.99,
      "https://images.unsplash.com/photo-1552374196-1ab2a1c593e8?ixlib=rb-4.0.3&ixid=M3wxMjA3fDB8MHxwaG90by1wYWdlfHx8fGVufDB8fHx8fA%3D%3D&auto=format&fit=crop&w=2187&q=80"),
    Catalog.Item(4, "Oversized Knit Sweater", "tops", 79.99,
      "https://images.unsplash.com/photo-1596755094514-f87e34085b2c?ixlib=rb-4.0.3&ixid=M3wxMjA3fDB8MHxwaG90by1wYWdlfHx8fGVufDB8fHx8fA%3D%3D&auto=format&fit=crop&w=2188&q=80"),
    Catalog.Item(5, "Leather Ankle Boots", "footwear", 149.99,
      "https://images.unsplash.com/photo-1621996346565-e3dbc646d9a9?ixlib=rb-4.0.3&ixid=M3wxMjA3fDB8MHxwaG90by1wYWdlfHx8fGVufDB8fHx8fA%3D%3D&auto=format&fit=crop&w=2380&q=80"),
    Catalog.Item(6, "Silk Blouse", "tops", 99.99,
      "https://images.unsplash.com/photo-1581044777550-4cfa60707c03?ixlib=rb-4.0.3&ixid=M3wxMjA3fDB8MHxwaG90by1wYWdlfHx8fGVufDB8fHx8fA%3D%3D&auto=format&fit=crop&w=986&q=80"),
    Catalog.Item(7, "Tailored Blazer", "outerwear", 199.99,
      "https://images.unsplash.com/photo-1497339100210-9e87df79c218?ixlib=rb-4.0.3&ixid=M3wxMjA3fDB8MHxwaG90by1wYWdlfHx8fGVufDB8fHx8fA%3D%3D&auto=format&fit=crop&w=2560&q=80"),
    Catalog.Item(8, "Pleated Midi Skirt", "bottoms", 79.99,
      "https://images.unsplash.com/photo-1502716119720-b23a93e5fe1b?ixlib=rb-4.0.3&ixid=M3wxMjA3fDB8MHxwaG90by1wYWdlfHx8fGVufDB8fHx8fA%3D%3D&auto=format&fit=crop&w=2540&q=80")
  ]

  /** The page's state: the two criteria and the list currently shown. */
  datatype State = State(activeCategory: string, searchTerm: string, filteredItems: seq<Item>)

  /** The state on mount over the fixed list `items`: category 'all', empty term, every item. */
  function Start(items: seq<Item>): State
  {
    State(Catalog.AllCategories, "", items)
  }

  const Init := Start(ClothingItems)

  /** The item is in the chosen category and its lower-cased name contains the lower-cased term. */
  predicate Matches(it: Item, category: string, term: string)
  {
    && (category == Catalog.AllCategories || it.category == category)
    && Text.Includes(Text.Lower(it.name), Text.Lower(term))
  }

  /** The filter run by the page's effect. */
  function Project(items: seq<Item>, category: string, term: string): (r: seq<Item>)
    ensures forall x :: x in r <==> x in items && Matches(x, category, term)
    ensures forall x :: multiset(r)[x] == if Matches(x, category, term) then multiset(items)[x] else 0
    ensures Seqs.IsSubsequence(r, items)
  {
    var matches := (it: Item) => Matches(it, category, term);
    Seqs.FilterIsSubsequence(items, matches);
    Seqs.Filter(items, matches)
  }

  /** The shown list is what the criteria select from the fixed list `items`. */
  predicate Consistent(s: State, items: seq<Item>)
  {
    s.filteredItems == Project(items, s.activeCategory, s.searchTerm)
  }

  datatype Event = SetCategory(category: string) | SetSearch(term: string)

  /**
   A criterion changes, then the effect recomputes the shown list from the
   fixed list `items` (`ClothingItems` on the page), ignoring the old result.
   */
  function Step(s: State, e: Event, items: seq<Item>): (r: State)
    ensures Consistent(r, items)
    ensures e.SetCategory? ==> r.activeCategory == e.category && r.searchTerm == s.searchTerm
    ensures e.SetSearch? ==> r.searchTerm == e.term && r.activeCategory == s.activeCategory
  {
    var criteria := match e
      case SetCategory(category) => s.(activeCategory := category)
      case SetSearch(term) => s.(searchTerm := term);
    criteria.(filteredItems := Project(items, criteria.activeCategory, criteria.searchTerm))
  }

  function Run(s: State, events: seq<Event>, items: seq<Item>): State
    decreases |events|
  {
    if |events| == 0 then s else Run(Step(s, events[0], items), events[1..], items)
  }

  /** With category 'all' and an empty term every item is shown. */
  lemma ProjectShowsAll(items: seq<Item>)
    ensures Project(items, Catalog.AllCategories, "") == items
  {
    var matches := (it: Item) => Matches(it, Catalog.AllCategories, "");
    forall it | it in items
      ensures matches(it)
    {
      Text.EmptyIncluded(Text.Lower(it.name));
    }
    Seqs.FilterKeepsAll(items, matches);
  }

  /** The state on mount agrees with its criteria. */
  lemma StartConsistent(items: seq<Item>)
    ensures Consistent(Start(items), items)
  {
    ProjectShowsAll(items);
  }

  /** The page's own mount state over `ClothingItems` agrees with its criteria. */
  lemma InitConsistent()
    ensures Consistent(Init, ClothingItems)
    ensures Init.filteredItems == ClothingItems
  {
    StartConsistent(ClothingItems);
  }

  /** Every state reached from a consistent one shows exactly the items its criteria select. */
  lemma {:induction false} RunConsistent(s: State, events: seq<Event>, items: seq<Item>)
    requires Consistent(s, items)
    ensures Consistent(Run(s, events, items), items)
    decreases |events|
  {
    if |events| > 0 {
      RunConsistent(Step(s, events[0], items), events[1..], items);
    }
  }

  /**
   The shown list depends only on the current criteria: two histories from
   mount that end with the same category and term show the same items.
   */
  lemma HistoryIndependent(items: seq<Item>, a: seq<Event>, b: seq<Event>)
    requires Run(Start(items), a, items).activeCategory == Run(Start(items), b, items).activeCategory
    requires Run(Start(items), a, items).searchTerm == Run(Start(items), b, items).searchTerm
    ensures Run(Start(items), a, items).filteredItems == Run(Start(items), b, items).filteredItems
  {
    StartConsistent(items);
    RunConsistent(Start(items), a, items);
    RunConsistent(Start(items), b, items);
  }
}
