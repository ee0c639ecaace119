/**
 * The administrator's panel (src/pages/Admin/AdminPanel.jsx): the list of
 * resources or of all bookings, the search over it, and the deletion of a
 * resource, which removes it from the list without a refetch.
 */
module AdminPanel {
  import opened Client
  import Js

  datatype Tab = ResourcesTab | BookingsTab

  /** A row of either list. A resource carries `_id` and `name`; a booking
      carries the names in its resource and user snapshots. A missing
      field (or a missing snapshot) is `None`. */
  datatype Item = Item(
    id: Option<string>, name: Option<string>,
    resourceSnapshotName: Option<string>, userSnapshotName: Option<string>)

  // ----- filteredData -----

  /** `x?.toLowerCase() || ''`. */
  function LowerOrEmpty(x: Option<string>): (r: string)
    ensures x.None? ==> r == ""
    ensures x.Some? ==> r == Js.ToLower(x.value)
    ensures r == "" <==> x.None? || x.value == ""
  {
    match x
    case Some(s) => Js.ToLower(s)
    case None => ""
  }

  /** Both sides of the search comparison are already in lower case: a
      row's field as compared holds no capital, and lower-casing it again
      changes nothing. */
  lemma LowerOrEmptyIsLower(x: Option<string>)
    ensures forall i :: 0 <= i < |LowerOrEmpty(x)| ==> !('A' <= LowerOrEmpty(x)[i] <= 'Z')
    ensures Js.ToLower(LowerOrEmpty(x)) == LowerOrEmpty(x)
  {
    if x.Some? {
      Js.ToLowerNoCapitals(x.value);
      Js.ToLowerIdempotent(x.value);
    }
  }

  /** Whether a row matches a non-empty search term, compared in lower case:
      on the resources tab by name or id, on the bookings tab by the
      resource's or the user's name. */
  predicate Matches(item: Item, tab: Tab, searchTerm: string) {
    var term := Js.ToLower(searchTerm);
    match tab
    case ResourcesTab => Js.Includes(LowerOrEmpty(item.name), term) || Js.Includes(LowerOrEmpty(item.id), term)
    case BookingsTab =>
      Js.Includes(LowerOrEmpty(item.resourceSnapshotName), term) ||
      Js.Includes(LowerOrEmpty(item.userSnapshotName), term)
  }

  /** The rows shown: all of them for an empty term, else the matching ones. */
  function FilteredData(data: seq<Item>, tab: Tab, searchTerm: string): (r: seq<Item>)
    ensures searchTerm == "" ==> r == data
    ensures forall x :: x in r <==> x in data && (searchTerm == "" || Matches(x, tab, searchTerm))
    ensures searchTerm != "" ==>
      forall x :: multiset(r)[x] == if Matches(x, tab, searchTerm) then multiset(data)[x] else 0
  {
    Js.FilterCount(data, (item: Item) => Matches(item, tab, searchTerm));
    if searchTerm == "" then data else Js.Filter(data, (item: Item) => Matches(item, tab, searchTerm))
  }

  /** The rows shown are rows of the list, in the list's order. */
  lemma FilteredInOrder(data: seq<Item>, tab: Tab, searchTerm: string)
    ensures Js.IsSubsequence(FilteredData(data, tab, searchTerm), data)
  {
    if searchTerm == "" {
      var all := (item: Item) => true;
      Js.FilterKeepsAll(data, all);
      Js.FilterIsSubsequence(data, all);
    } else {
      Js.FilterIsSubsequence(data, (item: Item) => Matches(item, tab, searchTerm));
    }
  }

  /** On the resources tab a row is kept exactly when its lower-cased name
      or id contains the lower-cased term; a row without a name is matched
      by its id alone. */
  lemma ResourceRowKeptIff(data: seq<Item>, searchTerm: string, x: Item)
    requires searchTerm != "" && x in data
    ensures x in FilteredData(data, ResourcesTab, searchTerm) <==>
      (exists k :: Js.OccursAt(LowerOrEmpty(x.name), Js.ToLower(searchTerm), k)) ||
      (exists k :: Js.OccursAt(LowerOrEmpty(x.id), Js.ToLower(searchTerm), k))
  {
    Js.IncludesIff(LowerOrEmpty(x.name), Js.ToLower(searchTerm));
    Js.IncludesIff(LowerOrEmpty(x.id), Js.ToLower(searchTerm));
  }

  /** On the bookings tab a row is kept exactly when the resource's or the
      user's lower-cased snapshot name contains the lower-cased term. */
  lemma BookingRowKeptIff(data: seq<Item>, searchTerm: string, x: Item)
    requires searchTerm != "" && x in data
    ensures x in FilteredData(data, BookingsTab, searchTerm) <==>
      (exists k :: Js.OccursAt(LowerOrEmpty(x.resourceSnapshotName), Js.ToLower(searchTerm), k)) ||
      (exists k :: Js.OccursAt(LowerOrEmpty(x.userSnapshotName), Js.ToLower(searchTerm), k))
  {
    Js.IncludesIff(LowerOrEmpty(x.resourceSnapshotName), Js.ToLower(searchTerm));
    Js.IncludesIff(LowerOrEmpty(x.userSnapshotName), Js.ToLower(searchTerm));
  }

  // ----- the optimistic delete -----

  /** `data.filter(item => item._id !== id)`. */
  function RemoveId(data: seq<Item>, id: string): (r: seq<Item>)
    ensures forall x :: x in r <==> x in data && x.id != Some(id)
    ensures forall x :: multiset(r)[x] == if x.id == Some(id) then 0 else multiset(data)[x]
  {
    Js.FilterCount(data, (item: Item) => item.id != Some(id));
    Js.Filter(data, (item: Item) => item.id != Some(id))
  }

  /** The rows that stay keep their order, and a list without the id is
      left as it was. */
  lemma RemoveIdKeepsRest(data: seq<Item>, id: string)
    ensures Js.IsSubsequence(RemoveId(data, id), data)
    ensures (forall i :: 0 <= i < |data| ==> data[i].id != Some(id)) ==> RemoveId(data, id) == data
  {
    var keep := (item: Item) => item.id != Some(id);
    assert RemoveId(data, id) == Js.Filter(data, keep);
    Js.FilterIsSubsequence(data, keep);
    if forall i :: 0 <= i < |data| ==> data[i].id != Some(id) {
      Js.FilterKeepsAll(data, keep);
    }
  }

  /** The answer to DELETE: its HTTP status and `data.success`. */
  datatype DeleteReply = DeleteReply(status: int, success: bool)

  predicate Deleted(r: DeleteReply) {
    r.status == 200 || r.success
  }

  // ----- fetchData -----

  /** `obj[key]`. */
  function Get(fields: map<string, Js.Value<Item>>, key: string): Js.Value<Item> {
    if key in fields then fields[key] else Js.Undefined
  }

  /** The list read from a reply body, or `None` where the body is `null`
      or `undefined` and reading a property of it throws. */
  function ResourcesList(body: Js.Value<Item>): (r: Option<seq<Item>>)
    ensures r.None? <==> body.Undefined? || body.Null?
    ensures body.Arr? ==> r == Some(body.items)
    ensures body.Obj? && Get(body.fields, "resources").Arr? ==> r == Some(Get(body.fields, "resources").items)
    ensures body.Obj? && Js.Truthy(Get(body.fields, "resources")) && !Get(body.fields, "resources").Arr? ==> r == Some([])
    ensures r.Some? && !body.Arr? && !(body.Obj? && Get(body.fields, "resources").Arr?) ==> r == Some([])
  {
    match body
    case Undefined => None
    case Null => None
    case Obj(fields) =>
      var list := Js.Or(Get(fields, "resources"), body);
      Some(if list.Arr? then list.items else [])
    case Arr(items) => Some(items)
    case _ => Some([])
  }

  /** `data.bookings || []`; `None` where reading the property throws. A
      truthy `bookings` that is not a list is also `None`. */
  function BookingsList(body: Js.Value<Item>): (r: Option<seq<Item>>)
    ensures body.Obj? && Get(body.fields, "bookings").Arr? ==> r == Some(Get(body.fields, "bookings").items)
    ensures body.Obj? && !Js.Truthy(Get(body.fields, "bookings")) ==> r == Some([])
    ensures !body.Obj? && !body.Undefined? && !body.Null? ==> r == Some([])
  {
    match body
    case Undefined => None
    case Null => None
    case Obj(fields) =>
      var list := Get(fields, "bookings");
      if list.Arr? then Some(list.items) else if !Js.Truthy(list) then Some([]) else None
    case _ => Some([])
  }

  function DeletePath(id: string): string {
    "/resources/" + id
  }

  /** The panel's state. */
  class Panel {
    var activeTab: Tab
    var data: seq<Item>
    var loading: bool
    var searchTerm: string
    var isDeleteModalOpen: bool
    var resourceToDelete: Option<string>
    var isDeleting: bool
    var events: seq<Event>

    constructor ()
      ensures activeTab == ResourcesTab && data == [] && loading && searchTerm == ""
      ensures !isDeleteModalOpen && resourceToDelete == None && !isDeleting && events == []
    {
      activeTab := ResourcesTab;
      data := [];
      loading := true;
      searchTerm := "";
      isDeleteModalOpen := false;
      resourceToDelete := None;
      isDeleting := false;
      events := [];
    }

    /** `fetchData` for the active tab: the list read from the body replaces
        the rows; a failed call (or a body that cannot be read) toasts and
        keeps them. */
    method FetchData(response: Outcome<Js.Value<Item>>)
      modifies this
      ensures !loading
      ensures var path := if activeTab == ResourcesTab then "/resources" else "/bookings";
        var list := if response.Failure? then None
                    else if activeTab == ResourcesTab then ResourcesList(response.body)
                    else BookingsList(response.body);
        && data == (if list.Some? then list.value else old(data))
        && events == old(events) + [Request("GET", path)] +
             (if response.Failure? || (list.None? && (response.body.Undefined? || response.body.Null?))
              then [Toast(Error, "Failed to load data")] else [])
      ensures activeTab == old(activeTab) && searchTerm == old(searchTerm)
      ensures isDeleteModalOpen == old(isDeleteModalOpen) && resourceToDelete == old(resourceToDelete)
      ensures isDeleting == old(isDeleting)
    {
      loading := true;
      if activeTab == ResourcesTab {
        events := events + [Request("GET", "/resources")];
        if response.Failure? || ResourcesList(response.body).None? {
          events := events + [Toast(Error, "Failed to load data")];
        } else {
          data := ResourcesList(response.body).value;
        }
      } else {
        events := events + [Request("GET", "/bookings")];
        if response.Failure? || response.body.Undefined? || response.body.Null? {
          events := events + [Toast(Error, "Failed to load data")];
        } else if BookingsList(response.body).Some? {
          data := BookingsList(response.body).value;
        }
      }
      loading := false;
    }

    /** `openDeleteModal(id)`. */
    method OpenDeleteModal(id: string)
      modifies this
      ensures resourceToDelete == Some(id) && isDeleteModalOpen
      ensures data == old(data) && activeTab == old(activeTab) && searchTerm == old(searchTerm)
      ensures loading == old(loading) && isDeleting == old(isDeleting) && events == old(events)
    {
      resourceToDelete := Some(id);
      isDeleteModalOpen := true;
    }

    /** `confirmDelete`: nothing when no resource is selected; otherwise
        DELETE it, and when the reply has status 200 or reports success
        drop every row with that id and close the modal. Either way the
        selection is cleared afterwards. */
    method ConfirmDelete(response: Outcome<DeleteReply>)
      modifies this
      ensures (old(resourceToDelete).None? || old(resourceToDelete).value == "") ==>
        data == old(data) && resourceToDelete == old(resourceToDelete) &&
        isDeleteModalOpen == old(isDeleteModalOpen) && isDeleting == old(isDeleting) && events == old(events)
      ensures old(resourceToDelete).Some? && old(resourceToDelete).value != "" ==>
        var id := old(resourceToDelete).value;
        && resourceToDelete == None && !isDeleting
        && (response.Reply? && Deleted(response.body) ==>
              data == RemoveId(old(data), id) && !isDeleteModalOpen &&
              events == old(events) + [Request("DELETE", DeletePath(id)), Toast(Success, "Resource deleted successfully")])
        && (!(response.Reply? && Deleted(response.body)) ==>
              data == old(data) && isDeleteModalOpen == old(isDeleteModalOpen))
        && (response.Reply? && !Deleted(response.body) ==>
              events == old(events) + [Request("DELETE", DeletePath(id))])
        && (response.Failure? ==>
              events == old(events) + [Request("DELETE", DeletePath(id)),
                Toast(Error, MessageOr(response.error, "Failed to delete resource"))])
      ensures activeTab == old(activeTab) && searchTerm == old(searchTerm) && loading == old(loading)
    {
      if resourceToDelete.None? || resourceToDelete.value == "" {
        return;
      }
      var id := resourceToDelete.value;
      isDeleting := true;
      events := events + [Request("DELETE", DeletePath(id))];
      match response {
        case Reply(r) =>
          if r.status == 200 || r.success {
            events := events + [Toast(Success, "Resource deleted successfully")];
            data := RemoveId(data, id);
            isDeleteModalOpen := false;
          }
        case Failure(e) =>
          events := events + [Toast(Error, MessageOr(e, "Failed to delete resource"))];
      }
      isDeleting := false;
      resourceToDelete := None;
    }
  }
}
