/**
 The admin bookings screen (`BookingsManagement`): an ordered list of
 consultation requests with a status filter, a search box and a detail view
 of one selected booking, from which its status can be changed. The answer
 of `window.confirm` is a boolean of the delete event.
 */
module Bookings {
  import opened Options
  import Seqs
  import Text

  datatype Status = Confirmed | Pending | Cancelled

  /** One consultation request. */
  datatype Booking = Booking(
    id: int,
    name: string,
    email: string,
    phone: string,
    date: string,
    time: string,
    message: string,
    status: Status)

  /** The filter buttons: 'all' or one of the three statuses. */
  datatype StatusFilter = All | Only(status: Status)

  /** The component's state; `selected` is the booking shown in the detail view. */
  datatype State = State(
    bookings: seq<Booking>,
    filter: StatusFilter,
    searchTerm: string,
    selected: Option<Booking>)

  /** The mock data the component starts from. */
  const InitialBookings := [
    Booking(1, "Emma Wilson", "emma@example.com", "(555) 123-4567", "2023-07-15", "2:00 PM",
      "Looking for styling advice for a wedding.", Confirmed),
    Booking(2, "Michael Brown", "michael@example.com", "(555) 987-6543", "2023-07-16", "11:00 AM",
      "Need help updating my professional wardrobe.", Confirmed),
    Booking(3, "Sophia Lee", "sophia@example.com", "(555) 456-7890", "2023-07-17", "4:00 PM",
      "Interested in learning about sustainable fashion options.", Pending),
    Booking(4, "James Johnson", "james@example.com", "(555) 234-5678", "2023-07-18", "1:00 PM",
      "Looking for a complete wardrobe refresh.", Confirmed),
    Booking(5, "Isabella Garcia", "isabella@example.com", "(555) 876-5432", "2023-07-19", "3:00 PM",
      "Need styling for a photoshoot.", Pending)
  ]

  const Init := State(InitialBookings, All, "", None)

  // ---------------------------------------------------------------------------
  // Status transitions and deletion

  /** Entries with this id get the new status; every other field and entry is kept. */
  function SetStatusById(bookings: seq<Booking>, id: int, status: Status): (r: seq<Booking>)
    ensures |r| == |bookings|
    ensures forall i :: 0 <= i < |bookings| && bookings[i].id == id ==> r[i] == bookings[i].(status := status)
    ensures forall i :: 0 <= i < |bookings| && bookings[i].id != id ==> r[i] == bookings[i]
  {
    Seqs.Map(bookings, (b: Booking) => if b.id == id then b.(status := status) else b)
  }

  /**
   `handleStatusChange`: every booking with this identifier takes the new
   status, and so does the selected booking when it has this identifier.
   */
  function ChangeStatus(s: State, id: int, status: Status): (r: State)
    ensures |r.bookings| == |s.bookings|
    ensures forall i :: 0 <= i < |s.bookings| && s.bookings[i].id == id ==>
      r.bookings[i] == s.bookings[i].(status := status)
    ensures forall i :: 0 <= i < |s.bookings| && s.bookings[i].id != id ==> r.bookings[i] == s.bookings[i]
    ensures s.selected.Some? && s.selected.value.id == id ==> r.selected == Some(s.selected.value.(status := status))
    ensures !(s.selected.Some? && s.selected.value.id == id) ==> r.selected == s.selected
    ensures r.filter == s.filter && r.searchTerm == s.searchTerm
  {
    var selected :=
      if s.selected.Some? && s.selected.value.id == id then Some(s.selected.value.(status := status))
      else s.selected;
    s.(bookings := SetStatusById(s.bookings, id, status), selected := selected)
  }

  /**
   `handleDeleteBooking`, with the answer of the confirmation dialog: removes
   every booking with this identifier and closes the detail view if it showed
   one of them.
   */
  function DeleteBooking(s: State, id: int, confirmed: bool): (r: State)
    ensures !confirmed ==> r == s
    ensures confirmed ==>
      && (forall b :: b in r.bookings <==> b in s.bookings && b.id != id)
      && (forall b :: multiset(r.bookings)[b] == if b.id != id then multiset(s.bookings)[b] else 0)
      && Seqs.IsSubsequence(r.bookings, s.bookings)
    ensures confirmed ==> (r.selected.None? <==> s.selected.None? || s.selected.value.id == id)
    ensures r.selected.Some? ==> r.selected == s.selected
    ensures r.filter == s.filter && r.searchTerm == s.searchTerm
  {
    if confirmed then
      var keep := (b: Booking) => b.id != id;
      Seqs.FilterIsSubsequence(s.bookings, keep);
      var selected := if s.selected.Some? && s.selected.value.id == id then None else s.selected;
      s.(bookings := Seqs.Filter(s.bookings, keep), selected := selected)
    else s
  }

  // ---------------------------------------------------------------------------
  // Filter and search

  predicate MatchesFilter(b: Booking, filter: StatusFilter)
  {
    filter.All? || filter.status == b.status
  }

  /**
   The search box: the lower-cased name or e-mail contains the lower-cased
   term, or the phone number contains the term as typed.
   */
  predicate MatchesSearch(b: Booking, term: string)
  {
    || Text.Includes(Text.Lower(b.name), Text.Lower(term))
    || Text.Includes(Text.Lower(b.email), Text.Lower(term))
    || Text.Includes(b.phone, term)
  }

  /** The `filteredBookings` projection shown in the table. */
  function Filtered(bookings: seq<Booking>, filter: StatusFilter, term: string): (r: seq<Booking>)
    ensures forall b :: b in r <==> b in bookings && MatchesFilter(b, filter) && MatchesSearch(b, term)
    ensures forall b :: multiset(r)[b] == if MatchesFilter(b, filter) && MatchesSearch(b, term) then multiset(bookings)[b] else 0
    ensures Seqs.IsSubsequence(r, bookings)
  {
    var visible := (b: Booking) => MatchesFilter(b, filter) && MatchesSearch(b, term);
    Seqs.FilterIsSubsequence(bookings, visible);
    Seqs.Filter(bookings, visible)
  }

  // ---------------------------------------------------------------------------
  // Selection and criteria

  /** A click on a row opens the detail view of that booking; the list is untouched. */
  function SelectBooking(s: State, b: Booking): (r: State)
    ensures r.selected == Some(b)
    ensures r == s.(selected := Some(b))
  {
    s.(selected := Some(b))
  }

  /** The close button of the detail view clears the selection; the list is untouched. */
  function CloseDetails(s: State): (r: State)
    ensures r.selected.None?
    ensures r == s.(selected := None)
    ensures s.selected.None? ==> r == s
  {
    s.(selected := None)
  }

  /** A filter button: only the status filter changes. */
  function SetFilter(s: State, filter: StatusFilter): (r: State)
    ensures r.filter == filter && r == s.(filter := filter)
  {
    s.(filter := filter)
  }

  /** The search box: only the term changes. */
  function SetSearchTerm(s: State, term: string): (r: State)
    ensures r.searchTerm == term && r == s.(searchTerm := term)
  {
    s.(searchTerm := term)
  }

  // ---------------------------------------------------------------------------
  // The component as a state machine

  datatype Event =
    | SetStatus(id: int, status: Status)    // the three buttons of the detail view
    | Delete(id: int, confirmed: bool)      // the delete button of a row
    | Select(booking: Booking)              // a click on a row
    | Close                                 // the close button of the detail view
    | FilterBy(filter: StatusFilter)
    | Search(term: string)

  /**
   The events `Run` applies: status buttons act on the selected booking, the
   close button needs a selection, and rows can be clicked or deleted only
   when the current filter and search list them. Row clicks, deletions, the
   filter buttons and the search box are allowed even while the detail
   view's overlay covers the table.
   */
  predicate Enabled(s: State, e: Event)
  {
    match e
    case SetStatus(id, _) => s.selected.Some? && s.selected.value.id == id
    case Delete(id, _) => exists b :: b in Filtered(s.bookings, s.filter, s.searchTerm) && b.id == id
    case Select(b) => b in Filtered(s.bookings, s.filter, s.searchTerm)
    case Close => s.selected.Some?
    case FilterBy(_) => true
    case Search(_) => true
  }

  function Step(s: State, e: Event): State
  {
    match e
    case SetStatus(id, status) => ChangeStatus(s, id, status)
    case Delete(id, confirmed) => DeleteBooking(s, id, confirmed)
    case Select(b) => SelectBooking(s, b)
    case Close => CloseDetails(s)
    case FilterBy(filter) => SetFilter(s, filter)
    case Search(term) => SetSearchTerm(s, term)
  }

  /** Replays a sequence of user actions, skipping those `Enabled` excludes. */
  function Run(s: State, events: seq<Event>): State
    decreases |events|
  {
    if |events| == 0 then s
    else Run(if Enabled(s, events[0]) then Step(s, events[0]) else s, events[1..])
  }

  /** The detail view shows a booking exactly as it is stored in the list. */
  predicate SelectionSynced(s: State)
  {
    s.selected.Some? ==> s.selected.value in s.bookings
  }

  // ---------------------------------------------------------------------------
  // Properties

  /** Applying the same status change twice is the same as applying it once. */
  lemma ChangeStatusIdempotent(s: State, id: int, status: Status)
    ensures ChangeStatus(ChangeStatus(s, id, status), id, status) == ChangeStatus(s, id, status)
  {
  }

  /** A status change for an identifier no booking has leaves the list as it was. */
  lemma ChangeStatusUnknownId(s: State, id: int, status: Status)
    requires forall b :: b in s.bookings ==> b.id != id
    ensures ChangeStatus(s, id, status).bookings == s.bookings
  {
  }

  /** With filter 'all' and an empty search term every booking is listed. */
  lemma FilteredShowsAll(bookings: seq<Booking>)
    ensures Filtered(bookings, All, "") == bookings
  {
    var visible := (b: Booking) => MatchesFilter(b, All) && MatchesSearch(b, "");
    forall b | b in bookings
      ensures visible(b)
    {
      Text.EmptyIncluded(Text.Lower(b.name));
    }
    Seqs.FilterKeepsAll(bookings, visible);
  }

  /** The screen mounts with no booking selected, so the two agree from the start. */
  lemma InitSynced()
    ensures SelectionSynced(Init)
    ensures Init.selected.None? && Init.bookings == InitialBookings
  {
  }

  /** A status change keeps the detail view and the list in agreement. */
  lemma ChangeStatusKeepsSync(s: State, id: int, status: Status)
    requires SelectionSynced(s)
    ensures SelectionSynced(ChangeStatus(s, id, status))
  {
  }

  /** Every enabled event keeps the detail view and the list in agreement. */
  lemma StepKeepsSync(s: State, e: Event)
    requires SelectionSynced(s) && Enabled(s, e)
    ensures SelectionSynced(Step(s, e))
  {
  }

  /** Any sequence of user actions keeps the two in agreement. */
  lemma {:induction false} RunKeepsSync(s: State, events: seq<Event>)
    requires SelectionSynced(s)
    ensures SelectionSynced(Run(s, events))
    decreases |events|
  {
    if |events| > 0 {
      if Enabled(s, events[0]) {
        StepKeepsSync(s, events[0]);
      }
      RunKeepsSync(if Enabled(s, events[0]) then Step(s, events[0]) else s, events[1..]);
    }
  }
}
