/**
 The admin catalog editor (`GalleryManagement`): an ordered list of clothing
 items edited through a modal form, with a category filter and a transient
 notification. Every event handler of the component is a pure step from the
 old state to the new one.

 The browser facilities the component calls are parameters here:
 `parse` stands for `parseFloat` (None for NaN), `show` for
 `Number.prototype.toString`, the `Date.now()` identifier of a new item is
 carried by the submit event, and the answer of `window.confirm` is a boolean
 of the delete event. The 3-second auto-hide timer is a counter of pending
 timers plus a `HideTimer` event that fires one of them.
 */
module Catalog {
  import opened Options
  import Seqs

  /** One catalog entry. */
  datatype Item = Item(id: int, name: string, category: string, price: real, image: string)

  /** The four inputs of the editor form. */
  datatype Field = Name | Category | Price | Image

  /** The text the user has typed into the form; the price is still text. */
  datatype Draft = Draft(name: string, category: string, price: string, image: string)
  {
    /** The contents of one input. */
    function Get(f: Field): string
    {
      match f
      case Name => name
      case Category => category
      case Price => price
      case Image => image
    }
  }

  const EmptyDraft := Draft("", "", "", "")

  datatype Severity = Success | Error

  /** The banner shown above the list; a new one replaces the old one. */
  datatype Notification = Notification(message: string, severity: Severity)

  const FillAllFieldsMessage := "Please fill in all fields"
  const PriceMessage := "Price must be a positive number"
  const AddedMessage := "Item added successfully"
  const UpdatedMessage := "Item updated successfully"
  const DeletedMessage := "Item deleted successfully"

  /** The filter value that shows every item. */
  const AllCategories := "all"

  /** The categories offered by the filter bar and the form's select box. */
  const Categories := ["tops", "bottoms", "dresses", "outerwear", "footwear", "pants"]

  /**
   The component's state. `editing` is the item the open form will replace
   (None when creating); `pendingHides` counts auto-hide timers that have
   been started and have not fired yet.
   */
  datatype State = State(
    items: seq<Item>,
    modalOpen: bool,
    editing: Option<Item>,
    draft: Draft,
    notification: Option<Notification>,
    categoryFilter: string,
    pendingHides: nat)

  /** The mock data the component starts from. */
  const InitialItems := [
    Item(1, "Classic Denim Jacket", "outerwear", 129.99,
      "https://images.unsplash.com/photo-1523205771623-e0faa4d2813d?ixlib=rb-4.0.3&ixid=M3wxMjA3fDB8MHxwaG90by1wYWdlfHx8fGVufDB8fHx8fA%3D%3D&auto=format&fit=crop&w=2069&q=80"),
    Item(2, "Floral Summer Dress", "dresses", 89.99,
      "https://images.unsplash.com/photo-1585487000160-6ebcfceb0d03?ixlib=rb-4.0.3&ixid=M3wxMjA3fDB8MHxwaG90by1wYWdlfHx8fGVufDB8fHx8fA%3D%3D&auto=format&fit=crop&w=2574&q=80"),
    Item(3, "Slim Fit Chinos", "pants", 69.99,
      "https://images.unsplash.com/photo-1552374196-1ab2a1c593e8?ixlib=rb-4.0.3&ixid=M3wxMjA3fDB8MHxwaG90by1wYWdlfHx8fGVufDB8fHx8fA%3D%3D&auto=format&fit=crop&w=2187&q=80"),
    Item(4, "Oversized Knit Sweater", "tops", 79.99,
      "https://images.unsplash.com/photo-1596755094514-f87e34085b2c?ixlib=rb-4.0.3&ixid=M3wxMjA3fDB8MHxwaG90by1wYWdlfHx8fGVufDB8fHx8fA%3D%3D&auto=format&fit=crop&w=2188&q=80"),
    Item(5, "Leather Ankle Boots", "footwear", 149.99,
      "https://images.unsplash.com/photo-1621996346565-e3dbc646d9a9?ixlib=rb-4.0.3&ixid=M3wxMjA3fDB8MHxwaG90by1wYWdlfHx8fGVufDB8fHx8fA%3D%3D&auto=format&fit=crop&w=2380&q=80"),
    Item(6, "Silk Blouse", "tops", 99.99,
      "https://images.unsplash.com/photo-1581044777550-4cfa60707c03?ixlib=rb-4.0.3&ixid=M3wxMjA3fDB8MHxwaG90by1wYWdlfHx8fGVufDB8fHx8fA%3D%3D&auto=format&fit=crop&w=986&q=80")
  ]

  const Init := State(InitialItems, false, None, EmptyDraft, None, AllCategories, 0)

  // ---------------------------------------------------------------------------
  // Store invariant

  /** No two entries share an identifier. */
  predicate UniqueIds(items: seq<Item>)
  {
    forall i, j :: 0 <= i < j < |items| ==> items[i].id != items[j].id
  }

  /** What a successful submit guarantees of the item it stores. */
  predicate WellFormedItem(it: Item)
  {
    it.name != "" && it.category in Categories && it.image != "" && it.price > 0.0
  }

  /** The category select box offers the placeholder "" and the fixed categories. */
  predicate CategoryChoice(category: string)
  {
    category == "" || category in Categories
  }

  predicate StoreValid(items: seq<Item>)
  {
    UniqueIds(items) && forall it :: it in items ==> WellFormedItem(it)
  }

  /** A closed editor holds no draft and no target. */
  predicate EditorClean(s: State)
  {
    !s.modalOpen ==> s.editing.None? && s.draft == EmptyDraft
  }

  predicate Inv(s: State)
  {
    StoreValid(s.items) && EditorClean(s) && CategoryChoice(s.draft.category)
  }

  /** `id` is not used by any stored item. */
  predicate FreshId(items: seq<Item>, id: int)
  {
    forall it :: it in items ==> it.id != id
  }

  // ---------------------------------------------------------------------------
  // Record store operations

  /** The edit branch of the submit: entries with the target id are replaced, in place. */
  function ReplaceById(items: seq<Item>, id: int, replacement: Item): (r: seq<Item>)
    ensures |r| == |items|
    ensures forall i :: 0 <= i < |items| && items[i].id == id ==> r[i] == replacement
    ensures forall i :: 0 <= i < |items| && items[i].id != id ==> r[i] == items[i]
  {
    Seqs.Map(items, (it: Item) => if it.id == id then replacement else it)
  }

  /** The confirmed delete: keeps, in order, the items whose id differs. */
  function RemoveById(items: seq<Item>, id: int): (r: seq<Item>)
    ensures forall x :: x in r <==> x in items && x.id != id
    ensures forall x :: multiset(r)[x] == if x.id != id then multiset(items)[x] else 0
    ensures Seqs.IsSubsequence(r, items)
  {
    var keep := (it: Item) => it.id != id;
    Seqs.FilterIsSubsequence(items, keep);
    Seqs.Filter(items, keep)
  }

  /** The `filteredItems` projection shown in the grid. */
  function Visible(items: seq<Item>, filter: string): (r: seq<Item>)
    ensures forall x :: x in r <==> x in items && (filter == AllCategories || x.category == filter)
    ensures forall x :: multiset(r)[x] == if filter == AllCategories || x.category == filter then multiset(items)[x] else 0
    ensures Seqs.IsSubsequence(r, items)
    ensures filter == AllCategories ==> r == items
  {
    if filter == AllCategories then
      Seqs.FilterKeepsAll(items, (it: Item) => true);
      Seqs.FilterIsSubsequence(items, (it: Item) => true);
      items
    else
      var inCategory := (it: Item) => it.category == filter;
      Seqs.FilterIsSubsequence(items, inCategory);
      Seqs.Filter(items, inCategory)
  }

  // ---------------------------------------------------------------------------
  // Editor session

  /** `resetForm`: clears the draft and forgets the target. */
  function ResetForm(s: State): (r: State)
    ensures r.draft == EmptyDraft && r.editing.None?
    ensures r == s.(draft := r.draft, editing := r.editing)
  {
    s.(draft := EmptyDraft, editing := None)
  }

  /** `openModal(item?)`: opens the form, pre-filled from `target` when editing. */
  function OpenModal(s: State, target: Option<Item>, show: real -> string): (r: State)
    ensures r.modalOpen && r.editing == target
    ensures target.None? ==> r.draft == EmptyDraft
    ensures target.Some? ==>
      && r.draft.Get(Name) == target.value.name
      && r.draft.Get(Category) == target.value.category
      && r.draft.Get(Price) == show(target.value.price)
      && r.draft.Get(Image) == target.value.image
    ensures r == s.(modalOpen := true, editing := r.editing, draft := r.draft)
  {
    match target
    case Some(item) =>
      s.(editing := target,
         draft := Draft(item.name, item.category, show(item.price), item.image),
         modalOpen := true)
    case None =>
      ResetForm(s).(modalOpen := true)
  }

  /** `closeModal`: the cancel button and the end of a successful submit. */
  function CloseModal(s: State): (r: State)
    ensures !r.modalOpen && r.draft == EmptyDraft && r.editing.None?
    ensures r == s.(modalOpen := false, draft := r.draft, editing := r.editing)
  {
    ResetForm(s).(modalOpen := false)
  }

  /** `handleChange`: one input of the form receives a new value. */
  function ChangeField(s: State, field: Field, value: string): (r: State)
    ensures r.draft.Get(field) == value
    ensures forall g :: g != field ==> r.draft.Get(g) == s.draft.Get(g)
    ensures r == s.(draft := r.draft)
  {
    var d := s.draft;
    s.(draft := match field
      case Name => d.(name := value)
      case Category => d.(category := value)
      case Price => d.(price := value)
      case Image => d.(image := value))
  }

  /** Every input of the form is non-empty. */
  predicate Filled(d: Draft)
  {
    d.name != "" && d.category != "" && d.price != "" && d.image != ""
  }

  /**
   The checks of `handleSubmit`: first that no input is empty, then that the
   price parses to a number greater than zero. Yields the parsed price.
   */
  function Validate(d: Draft, parse: string -> Option<real>): (r: Result<real>)
    ensures r.Ok? <==> Filled(d) && parse(d.price).Some? && parse(d.price).value > 0.0
    ensures r.Ok? ==> parse(d.price) == Some(r.value)
    ensures !Filled(d) ==> r == Err(FillAllFieldsMessage)
    ensures Filled(d) && r.Err? ==> r == Err(PriceMessage)
  {
    if !Filled(d) then Err(FillAllFieldsMessage)
    else match parse(d.price)
      case None => Err(PriceMessage)
      case Some(p) => if p <= 0.0 then Err(PriceMessage) else Ok(p)
  }

  /** The item a draft describes, once its price has been parsed. */
  function ItemOf(d: Draft, id: int, price: real): Item
  {
    Item(id, d.name, d.category, price, d.image)
  }

  /**
   `handleSubmit`. A rejected draft only replaces the notification with an
   error; an accepted one appends a new item (identifier `freshId`) or
   replaces the target in place, closes the form, shows a success message
   and starts an auto-hide timer.
   */
  function Submit(s: State, parse: string -> Option<real>, freshId: int): (r: State)
    ensures Validate(s.draft, parse).Err? ==>
      r == s.(notification := Some(Notification(Validate(s.draft, parse).message, Error)))
    ensures Validate(s.draft, parse).Ok? ==>
      && !r.modalOpen && r.draft == EmptyDraft && r.editing.None?
      && r.notification == Some(Notification(if s.editing.Some? then UpdatedMessage else AddedMessage, Success))
      && r.pendingHides == s.pendingHides + 1
      && r.categoryFilter == s.categoryFilter
    ensures Validate(s.draft, parse).Ok? && s.editing.None? ==>
      r.items == s.items + [ItemOf(s.draft, freshId, Validate(s.draft, parse).value)]
    ensures Validate(s.draft, parse).Ok? && s.editing.Some? ==>
      var updated := ItemOf(s.draft, s.editing.value.id, Validate(s.draft, parse).value);
      && |r.items| == |s.items|
      && (forall i :: 0 <= i < |s.items| && s.items[i].id == s.editing.value.id ==> r.items[i] == updated)
      && (forall i :: 0 <= i < |s.items| && s.items[i].id != s.editing.value.id ==> r.items[i] == s.items[i])
  {
    match Validate(s.draft, parse)
    case Err(message) =>
      s.(notification := Some(Notification(message, Error)))
    case Ok(price) =>
      match s.editing
      case Some(target) =>
        var updated := ItemOf(s.draft, target.id, price);
        CloseModal(s.(items := ReplaceById(s.items, target.id, updated),
                      notification := Some(Notification(UpdatedMessage, Success)),
                      pendingHides := s.pendingHides + 1))
      case None =>
        CloseModal(s.(items := s.items + [ItemOf(s.draft, freshId, price)],
                      notification := Some(Notification(AddedMessage, Success)),
                      pendingHides := s.pendingHides + 1))
  }

  /** `handleDelete`, with the answer of the confirmation dialog. */
  function Delete(s: State, id: int, confirmed: bool): (r: State)
    ensures !confirmed ==> r == s
    ensures confirmed ==>
      && (forall x :: x in r.items <==> x in s.items && x.id != id)
      && (forall x :: multiset(r.items)[x] == if x.id != id then multiset(s.items)[x] else 0)
      && Seqs.IsSubsequence(r.items, s.items)
      && r.notification == Some(Notification(DeletedMessage, Success))
      && r.pendingHides == s.pendingHides + 1
      && r == s.(items := r.items, notification := r.notification, pendingHides := r.pendingHides)
  {
    if confirmed then
      s.(items := RemoveById(s.items, id),
         notification := Some(Notification(DeletedMessage, Success)),
         pendingHides := s.pendingHides + 1)
    else s
  }

  /** One auto-hide timer fires: it clears whatever notification is showing. */
  function HideTimerFires(s: State): (r: State)
    requires s.pendingHides > 0
    ensures r.notification.None? && r.pendingHides == s.pendingHides - 1
    ensures r == s.(notification := None, pendingHides := r.pendingHides)
  {
    s.(notification := None, pendingHides := s.pendingHides - 1)
  }

  /** The close button of the notification: hides it and leaves its timers running. */
  function DismissNotification(s: State): (r: State)
    ensures r.notification.None?
    ensures r == s.(notification := None)
  {
    s.(notification := None)
  }

  /**
   A button of the filter bar: only the filter changes, so the grid shows
   `Visible(items, category)` of the unchanged list.
   */
  function SetCategoryFilter(s: State, category: string): (r: State)
    ensures r.categoryFilter == category
    ensures r == s.(categoryFilter := category)
    ensures category == AllCategories ==> Visible(r.items, r.categoryFilter) == s.items
  {
    s.(categoryFilter := category)
  }

  // ---------------------------------------------------------------------------
  // The component as a state machine

  datatype Event =
    | Open(target: Option<Item>)       // "Add New Item" (None) or an item's edit button
    | Change(field: Field, value: string)
    | Cancel                           // the close and cancel buttons of the modal
    | SubmitForm(freshId: int)         // `Date.now()` at the time of the submit
    | DeleteItem(id: int, confirmed: bool)
    | FilterBy(category: string)
    | Dismiss                          // the close button of the notification
    | HideTimer

  /**
   The events `Run` applies. The form's controls act only while the modal is
   open and "Add New Item" and the edit buttons only while it is closed; an
   edit button must name a stored item, though not necessarily one the
   current category filter lists. The category select box and filter bar
   offer only the fixed categories, and a timer fires only if one was
   started. A create-submit whose identifier is already stored is also
   excluded, although its button is on screen: the invariant below covers
   only histories whose new identifiers are fresh. Deletion by any
   identifier, the filter bar and the notification's close button are
   allowed even while the modal covers them.
   */
  predicate Enabled(s: State, e: Event)
  {
    match e
    case Open(target) => !s.modalOpen && (target.Some? ==> target.value in s.items)
    case Change(field, value) => s.modalOpen && (field == Category ==> CategoryChoice(value))
    case Cancel => s.modalOpen
    case SubmitForm(freshId) => s.modalOpen && (s.editing.None? ==> FreshId(s.items, freshId))
    case DeleteItem(_, _) => true
    case FilterBy(category) => category == AllCategories || category in Categories
    case Dismiss => true
    case HideTimer => s.pendingHides > 0
  }

  function Step(s: State, e: Event, parse: string -> Option<real>, show: real -> string): State
    requires Enabled(s, e)
  {
    match e
    case Open(target) => OpenModal(s, target, show)
    case Change(field, value) => ChangeField(s, field, value)
    case Cancel => CloseModal(s)
    case SubmitForm(freshId) => Submit(s, parse, freshId)
    case DeleteItem(id, confirmed) => Delete(s, id, confirmed)
    case FilterBy(category) => SetCategoryFilter(s, category)
    case Dismiss => DismissNotification(s)
    case HideTimer => HideTimerFires(s)
  }

  /** Replays a sequence of user actions, skipping those `Enabled` excludes. */
  function Run(s: State, events: seq<Event>, parse: string -> Option<real>, show: real -> string): State
    decreases |events|
  {
    if |events| == 0 then s
    else
      var next := if Enabled(s, events[0]) then Step(s, events[0], parse, show) else s;
      Run(next, events[1..], parse, show)
  }

  // ---------------------------------------------------------------------------
  // Properties

  /** A subsequence of a list with unique identifiers has unique identifiers. */
  lemma {:induction false} SubsequenceKeepsUniqueIds(a: seq<Item>, b: seq<Item>)
    requires Seqs.IsSubsequence(a, b) && UniqueIds(b)
    ensures UniqueIds(a)
    decreases |b|
  {
    if |a| > 0 {
      if a[0] == b[0] && Seqs.IsSubsequence(a[1..], b[1..]) {
        SubsequenceKeepsUniqueIds(a[1..], b[1..]);
        Seqs.SubsequenceElements(a[1..], b[1..]);
        forall i, j | 0 <= i < j < |a|
          ensures a[i].id != a[j].id
        {
          if i == 0 {
            assert a[j] == a[1..][j - 1] && a[j] in a[1..];
            var k :| 0 <= k < |b[1..]| && b[1..][k] == a[j];
            assert b[k + 1] == a[j];
          } else {
            assert a[i] == a[1..][i - 1] && a[j] == a[1..][j - 1];
          }
        }
      } else {
        SubsequenceKeepsUniqueIds(a, b[1..]);
      }
    }
  }

  /** The mock data satisfies the store invariant. */
  lemma InitSatisfiesInv()
    ensures Inv(Init)
  {
  }

  /** A successful submit keeps identifiers unique and stores only well-formed items. */
  lemma SubmitPreservesStore(s: State, parse: string -> Option<real>, freshId: int)
    requires StoreValid(s.items) && CategoryChoice(s.draft.category)
    requires s.editing.None? ==> FreshId(s.items, freshId)
    ensures StoreValid(Submit(s, parse, freshId).items)
  {
  }

  /** Every enabled event preserves the store invariant and the clean closed editor. */
  lemma StepPreservesInv(s: State, e: Event, parse: string -> Option<real>, show: real -> string)
    requires Inv(s) && Enabled(s, e)
    ensures Inv(Step(s, e, parse, show))
  {
    match e
    case SubmitForm(freshId) =>
      SubmitPreservesStore(s, parse, freshId);
    case DeleteItem(id, confirmed) =>
      if confirmed {
        var r := Delete(s, id, confirmed);
        SubsequenceKeepsUniqueIds(r.items, s.items);
      }
    case _ =>
  }

  /** Any sequence of user actions from a state satisfying the invariant keeps it. */
  lemma {:induction false} RunPreservesInv(s: State, events: seq<Event>, parse: string -> Option<real>, show: real -> string)
    requires Inv(s)
    ensures Inv(Run(s, events, parse, show))
    decreases |events|
  {
    if |events| > 0 {
      var next := if Enabled(s, events[0]) then Step(s, events[0], parse, show) else s;
      if Enabled(s, events[0]) {
        StepPreservesInv(s, events[0], parse, show);
      }
      RunPreservesInv(next, events[1..], parse, show);
    }
  }

  /**
   Opening a stored item for editing and submitting the unchanged form is
   accepted as an update and leaves the list as it was, provided the printed
   price is not empty (`toString` of a number never is) and parses back to
   itself.
   */
  lemma EditRoundTrip(s: State, item: Item, parse: string -> Option<real>, show: real -> string, freshId: int)
    requires StoreValid(s.items) && item in s.items
    requires show(item.price) != "" && parse(show(item.price)) == Some(item.price)
    ensures Submit(OpenModal(s, Some(item), show), parse, freshId).items == s.items
    ensures !Submit(OpenModal(s, Some(item), show), parse, freshId).modalOpen
    ensures Submit(OpenModal(s, Some(item), show), parse, freshId).notification == Some(Notification(UpdatedMessage, Success))
  {
  }

  /** Cancelling right after opening discards the session and changes nothing else. */
  lemma OpenThenCancel(s: State, target: Option<Item>, show: real -> string)
    requires EditorClean(s) && !s.modalOpen
    ensures CloseModal(OpenModal(s, target, show)) == s
  {
  }

  /**
   Timers are never cancelled: a timer started by an earlier success clears
   an error shown by a later rejected submit, although errors start no timer.
   */
  lemma StaleTimerClearsError(s: State, parse: string -> Option<real>, freshId: int)
    requires s.pendingHides > 0 && Validate(s.draft, parse).Err?
    ensures Submit(s, parse, freshId).notification == Some(Notification(Validate(s.draft, parse).message, Error))
    ensures !Filled(s.draft) ==> Submit(s, parse, freshId).notification == Some(Notification(FillAllFieldsMessage, Error))
    ensures Filled(s.draft) ==> Submit(s, parse, freshId).notification == Some(Notification(PriceMessage, Error))
    ensures Submit(s, parse, freshId).pendingHides == s.pendingHides
    ensures HideTimerFires(Submit(s, parse, freshId)).notification.None?
  {
  }
}
