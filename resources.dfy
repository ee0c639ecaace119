/**
 * The resource catalog page (src/pages/Resources.jsx): which endpoint and
 * parameters a fetch uses (search over filter over sort over the plain
 * list), what the page keeps from the reply, and the filter checkboxes.
 *
 * The 500 ms debounce before a fetch is not modelled: a fetch here is the
 * one that finally runs for the current search term, filters and sort.
 */
module Resources {
  import opened Client
  import Js

  datatype Resource = Resource(id: string, name: string, category: string)

  /** The lists a checkbox can toggle. */
  datatype FilterKey = Category | Building | Features

  /** The `filters` state. `features` is `None` once the key is missing
      from the object; `status` is a key no control of the page sets. */
  datatype Filters = Filters(
    category: seq<string>, building: seq<string>, minCapacity: int,
    features: Option<seq<string>>, status: Option<string>)

  const InitialFilters := Filters([], [], 0, Some([]), None)

  // ----- fetchResources: endpoint and params -----

  datatype Param = Text(s: string) | Number(n: int)

  datatype Query = Query(endpoint: string, params: map<string, Param>)

  /** `searchTerm.trim().length > 0`: the term is not all white space. */
  predicate Searching(searchTerm: string) {
    !Js.IsBlank(searchTerm)
  }

  predicate Filtering(f: Filters) {
    |f.category| > 0 || |f.building| > 0 || f.minCapacity > 0
  }

  /** `filters.status` is truthy. */
  predicate StatusSet(f: Filters) {
    f.status.Some? && f.status.value != ""
  }

  /** The parameters of the filter endpoint: the first category as `type`,
      the first building, the minimum capacity when positive, and `status`
      when the filters carry one. */
  function FilterParams(f: Filters): map<string, Param> {
    var withType: map<string, Param> := if |f.category| > 0 then map["type" := Text(f.category[0])] else map[];
    var withBuilding := if |f.building| > 0 then withType["building" := Text(f.building[0])] else withType;
    var withCapacity := if f.minCapacity > 0 then withBuilding["minCapacity" := Number(f.minCapacity)] else withBuilding;
    if StatusSet(f) then withCapacity["status" := Text("Active")] else withCapacity
  }

  /** The parameters of the sort endpoint: the option split at '-' gives
      `by` and, when there is a second piece, `order`. */
  function SortParams(sortOption: string): map<string, Param> {
    var pieces := Js.Split(sortOption, '-');
    map["by" := Text(pieces[0])] + (if |pieces| > 1 then map["order" := Text(pieces[1])] else map[])
  }

  /** The request a fetch makes. */
  function SelectQuery(searchTerm: string, f: Filters, sortOption: string): Query {
    if Searching(searchTerm) then Query("/resources/search", map["query" := Text(searchTerm)])
    else if Filtering(f) then Query("/resources/filter", FilterParams(f))
    else if sortOption != "" then Query("/resources/sort", SortParams(sortOption))
    else Query("/resources", map[])
  }

  /** A non-blank search term wins over everything else and is sent
      untrimmed. */
  lemma SearchWins(searchTerm: string, f: Filters, sortOption: string)
    requires Searching(searchTerm)
    ensures SelectQuery(searchTerm, f, sortOption) == Query("/resources/search", map["query" := Text(searchTerm)])
  {
  }

  /** Without a search, any category, building or positive minimum capacity
      selects the filter endpoint; each parameter is present exactly when
      its filter is, and carries the first selected value. */
  lemma FilterParamsExact(searchTerm: string, f: Filters, sortOption: string)
    requires !Searching(searchTerm) && Filtering(f)
    ensures SelectQuery(searchTerm, f, sortOption).endpoint == "/resources/filter"
    ensures var p := SelectQuery(searchTerm, f, sortOption).params;
      && ("type" in p <==> |f.category| > 0)
      && ("building" in p <==> |f.building| > 0)
      && ("minCapacity" in p <==> f.minCapacity > 0)
      && ("status" in p <==> StatusSet(f))
      && p.Keys <= {"type", "building", "minCapacity", "status"}
      && ("type" in p ==> p["type"] == Text(f.category[0]))
      && ("building" in p ==> p["building"] == Text(f.building[0]))
      && ("minCapacity" in p ==> p["minCapacity"] == Number(f.minCapacity))
  {
  }

  /** The amenity checkboxes never change the request. */
  lemma FeaturesIgnored(searchTerm: string, f: Filters, sortOption: string, features: Option<seq<string>>)
    ensures SelectQuery(searchTerm, f.(features := features), sortOption) == SelectQuery(searchTerm, f, sortOption)
  {
  }

  /** Without a search, filters select the filter endpoint. */
  lemma FilterBranch(searchTerm: string, f: Filters, sortOption: string)
    requires !Searching(searchTerm) && Filtering(f)
    ensures SelectQuery(searchTerm, f, sortOption) == Query("/resources/filter", FilterParams(f))
  {
  }

  /** With neither a search nor a filter, a sort option selects the sort
      endpoint. */
  lemma SortBranch(searchTerm: string, f: Filters, sortOption: string)
    requires !Searching(searchTerm) && !Filtering(f) && sortOption != ""
    ensures SelectQuery(searchTerm, f, sortOption) == Query("/resources/sort", SortParams(sortOption))
  {
  }

  /** An option "field-order" splits into its two halves. */
  lemma SortParamsPair(field: string, order: string)
    requires '-' !in field && '-' !in order
    ensures SortParams(field + "-" + order) == map["by" := Text(field), "order" := Text(order)]
  {
    Js.SplitPair(field, order, '-');
  }

  /** With neither a search nor a filter, a sort option of the form
      "field-order" is sent as its two halves. */
  lemma SortSplitsOption(searchTerm: string, f: Filters, field: string, order: string)
    requires !Searching(searchTerm) && !Filtering(f)
    requires '-' !in field && '-' !in order
    ensures SelectQuery(searchTerm, f, field + "-" + order) ==
      Query("/resources/sort", map["by" := Text(field), "order" := Text(order)])
  {
    SortBranch(searchTerm, f, field + "-" + order);
    SortParamsPair(field, order);
  }

  /** "name-asc", as the sort menu offers it. */
  lemma SortByNameAscending(searchTerm: string, f: Filters)
    requires !Searching(searchTerm) && !Filtering(f)
    ensures SelectQuery(searchTerm, f, "name-asc") ==
      Query("/resources/sort", map["by" := Text("name"), "order" := Text("asc")])
  {
    assert "name-asc" == "name" + "-" + "asc";
    SortSplitsOption(searchTerm, f, "name", "asc");
  }

  /** With no search, no filter and no sort, the plain list is fetched
      without parameters. */
  lemma DefaultQuery(searchTerm: string, f: Filters)
    requires !Searching(searchTerm) && !Filtering(f)
    ensures SelectQuery(searchTerm, f, "") == Query("/resources", map[])
  {
  }

  /** `status` is sent only when the filters carry it. */
  lemma StatusOnlyWhenSet(searchTerm: string, f: Filters, sortOption: string)
    requires !StatusSet(f)
    ensures "status" !in SelectQuery(searchTerm, f, sortOption).params
  {
    if !Searching(searchTerm) && !Filtering(f) && sortOption != "" {
      var pieces := Js.Split(sortOption, '-');
      assert SelectQuery(searchTerm, f, sortOption).params.Keys <= {"by", "order"};
    }
  }

  // ----- the reply -----

  datatype ResourcesReply = ResourcesReply(success: bool, resources: Option<seq<Resource>>)

  /** The list shown after a fetch: the reply's resources (none when it
      carries none) when it reports success, nothing otherwise. */
  function ResourcesAfter(response: Outcome<ResourcesReply>): (r: seq<Resource>)
    ensures r != [] ==> response.Reply? && response.body.success && response.body.resources == Some(r)
    ensures response.Reply? && response.body.success && response.body.resources.Some? ==>
      r == response.body.resources.value
  {
    match response
    case Reply(body) => if body.success then (match body.resources case Some(rs) => rs case None => []) else []
    case Failure(_) => []
  }

  // ----- handleCheckboxChange -----

  /** `list.filter(item => item !== value)`. */
  function Without(list: seq<string>, value: string): seq<string> {
    Js.Filter(list, (x: string) => x != value)
  }

  /** `list.includes(value) ? list.filter(...) : [...list, value]`. */
  function Toggle(list: seq<string>, value: string): (r: seq<string>)
    ensures value in list ==> value !in r && forall x :: x in r <==> x in list && x != value
    ensures value in list ==> forall x :: multiset(r)[x] == if x == value then 0 else multiset(list)[x]
    ensures value !in list ==> r == list + [value]
  {
    Js.FilterCount(list, (x: string) => x != value);
    if value in list then Without(list, value) else list + [value]
  }

  /** Removing a value keeps the other entries in their order. */
  lemma ToggleOffKeepsOrder(list: seq<string>, value: string)
    requires value in list
    ensures Js.IsSubsequence(Toggle(list, value), list)
  {
    Js.FilterIsSubsequence(list, (x: string) => x != value);
  }

  /** Toggling an absent value twice gives the list back. */
  lemma ToggleTwice(list: seq<string>, value: string)
    requires value !in list
    ensures Toggle(Toggle(list, value), value) == list
  {
    var keep := (x: string) => x != value;
    Js.FilterAppend(list, [value], keep);
    Js.FilterKeepsAll(list, keep);
    assert Js.Filter([value], keep) == [];
  }

  /** `prev[key]`; `None` when the key is missing. */
  function ListOf(f: Filters, key: FilterKey): Option<seq<string>> {
    match key
    case Category => Some(f.category)
    case Building => Some(f.building)
    case Features => f.features
  }

  /** The updater passed to `setFilters`: the toggled list under `key`,
      every other key as it was. `None` when the list under `key` is
      missing, where `includes` on `undefined` throws. */
  function ToggleFilter(f: Filters, key: FilterKey, value: string): (r: Option<Filters>)
    ensures r.Some? <==> ListOf(f, key).Some?
    ensures r.Some? ==>
      && ListOf(r.value, key) == Some(Toggle(ListOf(f, key).value, value))
      && r.value.minCapacity == f.minCapacity && r.value.status == f.status
      && (forall k :: k != key ==> ListOf(r.value, k) == ListOf(f, k))
  {
    match ListOf(f, key)
    case None => None
    case Some(list) =>
      var t := Toggle(list, value);
      Some(match key
        case Category => f.(category := t)
        case Building => f.(building := t)
        case Features => f.(features := Some(t)))
  }

  /** What "Clear Filters" sets, as written: an object without the
      `features` key. */
  const ClearedFiltersAsWritten := Filters([], [], 0, None, None)

  /** After "Clear Filters" as written, the next amenity checkbox throws. */
  lemma ClearedFiltersBreakAmenities(value: string)
    ensures ToggleFilter(ClearedFiltersAsWritten, Features, value) == None
  {
  }

  /** Filters that hold every list the checkboxes toggle and no status. */
  predicate Complete(f: Filters) {
    f.features.Some? && f.status.None?
  }

  /** Every toggle of complete filters succeeds and keeps them complete. */
  lemma ToggleKeepsComplete(f: Filters, key: FilterKey, value: string)
    requires Complete(f)
    ensures ToggleFilter(f, key, value).Some? && Complete(ToggleFilter(f, key, value).value)
  {
  }

  /** The page's state. */
  class Page {
    var resources: seq<Resource>
    var loading: bool
    var searchTerm: string
    var sortOption: string
    var filters: Filters
    var events: seq<Event>

    ghost predicate Valid()
      reads this
    {
      Complete(filters)
    }

    constructor ()
      ensures Valid() && filters == InitialFilters && searchTerm == "" && sortOption == ""
      ensures resources == [] && loading && events == []
    {
      resources := [];
      loading := true;
      searchTerm, sortOption := "", "";
      filters := InitialFilters;
      events := [];
    }

    /** The first half of `fetchResources`: the endpoint and parameters,
        built up branch by branch. */
    method BuildQuery() returns (q: Query)
      ensures q == SelectQuery(searchTerm, filters, sortOption)
    {
      var endpoint := "/resources";
      var params: map<string, Param> := map[];
      if !Js.IsBlank(searchTerm) {
        endpoint := "/resources/search";
        params := params["query" := Text(searchTerm)];
        SearchWins(searchTerm, filters, sortOption);
      } else if |filters.category| > 0 || |filters.building| > 0 || filters.minCapacity > 0 {
        endpoint := "/resources/filter";
        if |filters.category| > 0 { params := params["type" := Text(filters.category[0])]; }
        if |filters.building| > 0 { params := params["building" := Text(filters.building[0])]; }
        if filters.minCapacity > 0 { params := params["minCapacity" := Number(filters.minCapacity)]; }
        if filters.status.Some? && filters.status.value != "" { params := params["status" := Text("Active")]; }
        assert params == FilterParams(filters);
        FilterBranch(searchTerm, filters, sortOption);
      } else if sortOption != "" {
        endpoint := "/resources/sort";
        var pieces := Js.Split(sortOption, '-');
        params := params["by" := Text(pieces[0])];
        if |pieces| > 1 { params := params["order" := Text(pieces[1])]; }
        assert params == SortParams(sortOption);
        SortBranch(searchTerm, filters, sortOption);
      } else {
        DefaultQuery(searchTerm, filters);
      }
      q := Query(endpoint, params);
    }

    /** `fetchResources`: call the chosen endpoint and keep the resources
        of a successful reply (none otherwise). */
    method FetchResources(response: Outcome<ResourcesReply>) returns (q: Query)
      modifies this
      ensures q == SelectQuery(searchTerm, filters, sortOption)
      ensures resources == ResourcesAfter(response) && !loading
      ensures events == old(events) + [Request("GET", q.endpoint)]
      ensures searchTerm == old(searchTerm) && sortOption == old(sortOption) && filters == old(filters)
    {
      loading := true;
      q := BuildQuery();
      events := events + [Request("GET", q.endpoint)];
      match response {
        case Reply(body) =>
          if body.success {
            resources := if body.resources.Some? then body.resources.value else [];
          } else {
            resources := [];
          }
        case Failure(_) =>
          resources := [];
      }
      loading := false;
    }

    /** `handleCheckboxChange(key, value)`. */
    method ToggleCheckbox(key: FilterKey, value: string)
      requires Valid()
      modifies this
      ensures Valid()
      ensures ToggleFilter(old(filters), key, value) == Some(filters)
      ensures resources == old(resources) && searchTerm == old(searchTerm) && sortOption == old(sortOption)
      ensures loading == old(loading) && events == old(events)
    {
      var list := match key
        case Category => filters.category
        case Building => filters.building
        case Features => filters.features.value;
      var updated := if value in list then Without(list, value) else list + [value];
      match key {
        case Category => filters := filters.(category := updated);
        case Building => filters := filters.(building := updated);
        case Features => filters := filters.(features := Some(updated));
      }
    }

    /** The capacity slider: `Number` of its value, every other key kept. */
    method SetMinCapacity(n: int)
      requires Valid()
      modifies this
      ensures Valid() && filters == old(filters).(minCapacity := n)
      ensures resources == old(resources) && searchTerm == old(searchTerm) && sortOption == old(sortOption)
      ensures loading == old(loading) && events == old(events)
    {
      filters := filters.(minCapacity := n);
    }

    /** "Clear Filters", corrected: back to the filters the page starts
        with, so the amenity list is kept (as `[]`), then an empty search
        and the default sort. */
    method ClearFilters()
      modifies this
      ensures Valid() && filters == InitialFilters && searchTerm == "" && sortOption == ""
      ensures resources == old(resources) && loading == old(loading) && events == old(events)
    {
      filters := InitialFilters;
      searchTerm := "";
      sortOption := "";
    }
  }

  /** A fetch from a valid page never sends `status`. */
  lemma ValidPageNeverSendsStatus(searchTerm: string, f: Filters, sortOption: string)
    requires Complete(f)
    ensures "status" !in SelectQuery(searchTerm, f, sortOption).params
  {
    StatusOnlyWhenSet(searchTerm, f, sortOption);
  }
}
