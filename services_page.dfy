/** The catalogue page: a search box, a category and a location
    dropdown and a sort order over the cached services, a reset button,
    and one count per category. */
module ServicesPage {
  import opened Types
  import Seqs
  import Text
  import ServiceContext

  /** The four orders the sort dropdown offers. */
  datatype SortOrder = Newest | PriceLow | PriceHigh | ByRating

  /** The `switch (sortBy)`: an unrecognised key falls through to newest first. */
  function ParseSortBy(key: string): (o: SortOrder)
    ensures key == "price-low" <==> o == PriceLow
    ensures key == "price-high" <==> o == PriceHigh
    ensures key == "rating" <==> o == ByRating
  {
    if key == "price-low" then PriceLow
    else if key == "price-high" then PriceHigh
    else if key == "rating" then ByRating
    else Newest
  }

  predicate CheaperFirst(a: Service, b: Service)
  {
    a.price <= b.price
  }

  predicate DearerFirst(a: Service, b: Service)
  {
    a.price >= b.price
  }

  predicate BetterRatedFirst(a: Service, b: Service)
  {
    a.rating >= b.rating
  }

  /** The comparator of each order, as "may come before": `cmp(a, b) <= 0`. */
  function Comparator(o: SortOrder): (Service, Service) -> bool
  {
    match o
    case Newest => ServiceContext.NewerService
    case PriceLow => CheaperFirst
    case PriceHigh => DearerFirst
    case ByRating => BetterRatedFirst
  }

  lemma ComparatorIsPreorder(o: SortOrder)
    ensures Seqs.TotalPreorder(Comparator(o))
  {
    match o
    case Newest => ServiceContext.NewerServiceIsPreorder();
    case PriceLow =>
    case PriceHigh =>
    case ByRating =>
  }

  /** The page's four pieces of state. */
  datatype Query = Query(searchTerm: string, category: string, location: string, sortBy: string)

  /** What the reset button sets and what the page starts with. */
  const ResetQuery := Query("", "", "", "newest")

  /** The filter callback: available, title includes the search term (both lowercased), and the
      category and location equal to the chosen ones unless those are ''. `lower` stands for
      `toLowerCase`. */
  predicate Matches(s: Service, q: Query, lower: string -> string)
  {
    && s.available
    && Text.Contains(lower(s.title), lower(q.searchTerm))
    && (q.category == "" || s.category == q.category)
    && (q.location == "" || s.location == q.location)
  }

  function Keep(q: Query, lower: string -> string): Service -> bool
  {
    (s: Service) => Matches(s, q, lower)
  }

  /** `filteredServices`: exactly the matching services, in the order the sort key asks for. */
  function FilteredServices(services: seq<Service>, q: Query, lower: string -> string): (r: seq<Service>)
    ensures forall s | s in r :: Matches(s, q, lower)
    ensures forall s :: multiset(r)[s] == if Matches(s, q, lower) then multiset(services)[s] else 0
    ensures q.sortBy == "price-low" ==> forall i, j | 0 <= i < j < |r| :: r[i].price <= r[j].price
    ensures q.sortBy == "price-high" ==> forall i, j | 0 <= i < j < |r| :: r[i].price >= r[j].price
    ensures q.sortBy == "rating" ==> forall i, j | 0 <= i < j < |r| :: r[i].rating >= r[j].rating
    ensures q.sortBy !in {"price-low", "price-high", "rating"} ==>
      forall i, j | 0 <= i < j < |r| :: r[i].createdAt >= r[j].createdAt
  {
    var kept := Seqs.Filter(services, Keep(q, lower));
    var o := ParseSortBy(q.sortBy);
    var r := Seqs.SortBy(kept, Comparator(o));
    ComparatorIsPreorder(o);
    Seqs.SortBySorted(kept, Comparator(o));
    Seqs.SameElements(r, kept);
    SortedByOrder(r, o);
    r
  }

  /** What being in an order's comparator order says about the fields it compares. */
  lemma SortedByOrder(r: seq<Service>, o: SortOrder)
    requires Seqs.SortedBy(r, Comparator(o))
    ensures o == PriceLow ==> forall i, j | 0 <= i < j < |r| :: r[i].price <= r[j].price
    ensures o == PriceHigh ==> forall i, j | 0 <= i < j < |r| :: r[i].price >= r[j].price
    ensures o == ByRating ==> forall i, j | 0 <= i < j < |r| :: r[i].rating >= r[j].rating
    ensures o == Newest ==> forall i, j | 0 <= i < j < |r| :: r[i].createdAt >= r[j].createdAt
  {
  }

  /** Sorting what is already in order changes nothing. */
  lemma {:induction false} SortByOfSorted<T>(s: seq<T>, le: (T, T) -> bool)
    requires Seqs.SortedBy(s, le)
    ensures Seqs.SortBy(s, le) == s
  {
    if s != [] {
      assert Seqs.SortedBy(s[1..], le);
      SortByOfSorted(s[1..], le);
      if |s| > 1 {
        assert le(s[0], s[1]);
        assert Seqs.Insert(s[0], s[1..], le) == [s[0]] + s[1..];
      }
      assert [s[0]] + s[1..] == s;
    }
  }

  /** After reset the page lists the cache exactly as the store fetched it. */
  lemma ResetShowsCache(rows: seq<Service>, lower: string -> string)
    requires lower("") == ""
    ensures FilteredServices(ServiceContext.AvailableNewest(rows), ResetQuery, lower)
         == ServiceContext.AvailableNewest(rows)
  {
    var cache := ServiceContext.AvailableNewest(rows);
    forall i | 0 <= i < |cache| ensures Keep(ResetQuery, lower)(cache[i]) {
      assert cache[i] in cache;
      Text.ContainsEmpty(lower(cache[i].title));
    }
    Seqs.FilterKeepsAll(cache, Keep(ResetQuery, lower));
    assert Seqs.SortedBy(cache, ServiceContext.NewerService);
    SortByOfSorted(cache, ServiceContext.NewerService);
  }

  /** With no search term and no category or location chosen, only availability decides. */
  lemma EmptyFiltersKeepAvailable(services: seq<Service>, sortBy: string, lower: string -> string)
    requires lower("") == ""
    ensures forall s :: multiset(FilteredServices(services, Query("", "", "", sortBy), lower))[s]
                     == if s.available then multiset(services)[s] else 0
  {
    forall s ensures Matches(s, Query("", "", "", sortBy), lower) == s.available {
      Text.ContainsEmpty(lower(s.title));
    }
  }

  function InCategory(name: string): Service -> bool
  {
    (s: Service) => s.category == name && s.available
  }

  /** The number on each category button: the available cached services of that category. */
  function CategoryCount(services: seq<Service>, name: string): (n: nat)
    ensures n <= |services|
  {
    |Seqs.Filter(services, InCategory(name))|
  }

  /** Clicking a category button shows exactly as many services as the button counts. */
  lemma CategoryCountIsFilterSize(services: seq<Service>, name: string, sortBy: string, lower: string -> string)
    requires lower("") == "" && name != ""
    ensures |FilteredServices(services, Query("", name, "", sortBy), lower)| == CategoryCount(services, name)
  {
    var q := Query("", name, "", sortBy);
    forall s ensures Keep(q, lower)(s) == InCategory(name)(s) {
      Text.ContainsEmpty(lower(s.title));
    }
    Seqs.FilterSamePredicate(services, Keep(q, lower), InCategory(name));
  }

  /** `[...new Set(xs)]`: the distinct values, each kept at its first occurrence. */
  function Distinct(xs: seq<string>): (r: seq<string>)
    ensures forall i, j | 0 <= i < j < |r| :: r[i] != r[j]
    ensures forall x :: x in r <==> x in xs
  {
    if xs == [] then []
    else
      var rest := Distinct(xs[..|xs| - 1]);
      assert xs == xs[..|xs| - 1] + [xs[|xs| - 1]];
      if xs[|xs| - 1] in rest then rest else rest + [xs[|xs| - 1]]
  }

  /** A `Set` iterates in insertion order, so the distinct values come in the order of their first
      occurrences in `xs`. */
  lemma {:induction false} DistinctKeepsFirstOrder(xs: seq<string>)
    ensures forall i, j | 0 <= i < j < |Distinct(xs)| ::
      Seqs.FirstIndex(xs, Distinct(xs)[i]) < Seqs.FirstIndex(xs, Distinct(xs)[j])
  {
    if xs != [] {
      var init, last := xs[..|xs| - 1], xs[|xs| - 1];
      assert xs == init + [last];
      var rest, r := Distinct(init), Distinct(xs);
      DistinctKeepsFirstOrder(init);
      forall x | x in init ensures Seqs.FirstIndex(xs, x) == Seqs.FirstIndex(init, x) {
        Seqs.FirstIndexAppend(init, last, x);
      }
      if last !in rest {
        Seqs.FirstIndexAppend(init, last, last);
        assert r == rest + [last];
        forall i | 0 <= i < |rest| ensures r[i] == rest[i] && Seqs.FirstIndex(xs, r[i]) < |init| {
          assert rest[i] in init;
        }
      }
    }
  }

  function LocationsOf(services: seq<Service>): (r: seq<string>)
    ensures |r| == |services|
    ensures forall i | 0 <= i < |r| :: r[i] == services[i].location
  {
    seq(|services|, i requires 0 <= i < |services| => services[i].location)
  }

  /** The location dropdown: each cached service's location once, and nothing else. */
  function Locations(services: seq<Service>): (r: seq<string>)
    ensures forall i, j | 0 <= i < j < |r| :: r[i] != r[j]
    ensures forall x :: x in r <==> exists i | 0 <= i < |services| :: services[i].location == x
  {
    var all := LocationsOf(services);
    assert forall x :: x in all <==> exists i | 0 <= i < |services| :: services[i].location == x;
    Distinct(all)
  }
}
