# Vogue 360 collection screens, modelled in Dafny

This project models the list-management logic of the Vogue 360 site: three
React components that keep an in-memory list of records and narrow it for
display.

- **Catalog editor** (`GalleryManagement`, module `Catalog`, `catalog.dfy`).
  It holds clothing items `{id, name, category, price, image}`, a modal form
  with a four-field text draft, an optional editing target, an optional
  notification and a category filter. The operations are: open the form for
  create or edit, change one field, cancel, submit, delete behind a
  confirmation, filter by category, dismiss the notification, and let an
  auto-hide timer fire.
- **Bookings manager** (`BookingsManagement`, module `Bookings`,
  `bookings.dfy`). It holds consultation bookings with a three-valued
  status, a status filter, a search term and an optional selected booking.
  The operations are: status change, delete behind a confirmation, select or
  close a booking, and the filter/search projection.
- **Public gallery** (`GalleryPage`, module `Gallery`, `gallery.dfy`). It
  filters a fixed list by category and by a case-insensitive name search.

Every event handler is a pure function from the old state to the new one.
Each screen also has an `Event` datatype with `Step` and `Run`, and an
invariant proved to survive any sequence of user actions. The catalog and
bookings screens add an `Enabled` predicate, and their `Run` skips the events
it excludes; the gallery's `Run` applies every event.

- Catalog: identifiers are unique, stored items are well formed, and a closed
  form holds no draft.
- Bookings: the detail view shows a booking exactly as stored.
- Gallery: the shown list is exactly what the current criteria select.

Shared pieces:

- `seqs.dfy` (module `Seqs`): `Array.prototype.filter` and `map` over
  sequences, plus an order-preserving subsequence relation.
- `text.dfy` (module `Text`): `toLowerCase` and `includes`.
- `options.dfy` (module `Options`): `Option` and `Result`.

Browser facilities are parameters, not definitions:

- `parse: string -> Option<real>` stands for `parseFloat`. `None` means NaN.
- `show: real -> string` stands for `Number.prototype.toString`.
- The `Date.now()` identifier of a new item is a field of the submit event.
- The `window.confirm` answer is a boolean of the delete events.

### Behaviour of the code worth noting

- The phone number is searched case-sensitively. It is not lower-cased like
  the name and the e-mail.
- Identifiers come from `Date.now()`. Nothing in the code prevents reuse, so
  freshness is a condition on the submit event, not a guarantee.
- A notification's auto-hide timer is never cancelled. It clears whatever
  notification is showing when it fires, including a later error, although
  errors start no timer of their own. `Catalog.StaleTimerClearsError` shows
  this.
- Opening the form does not check that it was closed. `Enabled` only allows
  it from the closed state because the modal covers the buttons.

## Model

| member | source | states |
|---|---|---|
| Seqs.Filter | src/pages/GalleryPage.tsx:85-89 | the result holds exactly the input elements that satisfy the predicate, each as often as in the input, and is no longer than the input |
| Seqs.FilterIsSubsequence | src/components/admin/BookingsManagement.tsx:83-91 | a filtered list is an order-preserving subsequence of the list it came from |
| Seqs.FilterKeepsAll | src/components/admin/GalleryManagement.tsx:185-186 | a filter whose predicate holds for every element returns the list unchanged |
| Seqs.Map | src/components/admin/GalleryManagement.tsx:139 | mapping keeps the length, and every position holds the image of the element at that position |
| Text.Lower | src/components/admin/BookingsManagement.tsx:86-87 | lower-casing keeps the length, lower-cases each character in place, and leaves no upper-case ASCII letter |
| Text.IncludesIff | src/components/admin/BookingsManagement.tsx:86-88 | `includes` holds exactly when the term occurs at some position of the string |
| Catalog.ReplaceById | src/components/admin/GalleryManagement.tsx:139 | every entry with the target id becomes the replacement; every other entry, the length and the order are unchanged |
| Catalog.RemoveById | src/components/admin/GalleryManagement.tsx:171 | an item survives exactly when its id differs from the deleted id, every copy of a survivor is kept, and the survivors keep their relative order |
| Catalog.Visible | src/components/admin/GalleryManagement.tsx:185-187 | 'all' shows the whole list; otherwise exactly the items of that category, every copy of each, in their original order |
| Catalog.ResetForm | src/components/admin/GalleryManagement.tsx:74-82 | the draft becomes four empty strings and there is no editing target; nothing else changes |
| Catalog.OpenModal | src/components/admin/GalleryManagement.tsx:84-97 | the modal is open; editing pre-fills each input from the item and records it as the target; creating gives an empty draft and no target |
| Catalog.CloseModal | src/components/admin/GalleryManagement.tsx:99-102 | the modal is closed with an empty draft and no target; the list, notification and filter are unchanged |
| Catalog.ChangeField | src/components/admin/GalleryManagement.tsx:104-110 | the named input takes the new value and the other three keep theirs |
| Catalog.Validate | src/components/admin/GalleryManagement.tsx:115-127 | a draft is accepted exactly when all four inputs are non-empty and the price parses to a positive number; an empty input gives the fill-in message, and any other rejection gives the price message |
| Catalog.Submit | src/components/admin/GalleryManagement.tsx:112-167 | a rejected draft changes only the notification, to an error; an accepted one appends one new item at the end (create) or replaces exactly the entries with the target's id (edit), then closes the form, shows "Item updated successfully" or "Item added successfully" respectively, and starts one timer |
| Catalog.Delete | src/components/admin/GalleryManagement.tsx:169-182 | a declined confirmation changes nothing; a confirmed one removes every item with the id, keeps every copy of the others in order, shows "Item deleted successfully" and starts one timer |
| Catalog.HideTimerFires | src/components/admin/GalleryManagement.tsx:156-158 | a firing timer clears the notification, uses up one pending timer and changes nothing else |
| Catalog.DismissNotification | src/components/admin/GalleryManagement.tsx:210 | the close button hides the notification, leaves pending timers running and changes nothing else |
| Catalog.SetCategoryFilter | src/components/admin/GalleryManagement.tsx:219-236 | a filter button changes only the category filter; choosing 'all' shows the whole list |
| Catalog.SubsequenceKeepsUniqueIds | src/components/admin/GalleryManagement.tsx:171 | removing items from a list with unique ids leaves unique ids |
| Catalog.InitSatisfiesInv | src/components/admin/GalleryManagement.tsx:6-72 | the initial items have unique ids, non-empty fields, listed categories and positive prices, and the form starts closed and empty |
| Catalog.SubmitPreservesStore | src/components/admin/GalleryManagement.tsx:129-146 | given a fresh id for a new item, a submit keeps ids unique and stores only well-formed items |
| Catalog.StepPreservesInv | src/components/admin/GalleryManagement.tsx:74-187 | every action the screen offers preserves the store invariant and the clean closed form |
| Catalog.RunPreservesInv | src/components/admin/GalleryManagement.tsx:61-187 | any sequence of user actions preserves the invariant |
| Catalog.EditRoundTrip | src/components/admin/GalleryManagement.tsx:84-153 | opening a stored item for editing and submitting the unchanged form is accepted: the list stays identical, the form closes and "Item updated successfully" shows, provided the printed price is non-empty and parses back to itself |
| Catalog.OpenThenCancel | src/components/admin/GalleryManagement.tsx:84-102 | cancelling right after opening returns the closed screen to exactly its previous state |
| Catalog.StaleTimerClearsError | src/components/admin/GalleryManagement.tsx:115-165 | a submit rejected for an empty input or for an unusable price shows the matching error without starting a timer, and a timer started earlier then clears that error |
| Bookings.SetStatusById | src/components/admin/BookingsManagement.tsx:65-67 | entries with the id get the new status and keep every other field; the other entries, the length and the order are unchanged |
| Bookings.ChangeStatus | src/components/admin/BookingsManagement.tsx:64-72 | the list is updated by id; the selected booking gets the new status exactly when it has that id, and otherwise stays as it was |
| Bookings.DeleteBooking | src/components/admin/BookingsManagement.tsx:74-81 | a declined confirmation changes nothing; a confirmed one removes every booking with the id, keeps every copy of the rest in order, and clears the selection exactly when it had that id |
| Bookings.Filtered | src/components/admin/BookingsManagement.tsx:83-91 | a booking is listed exactly when the filter is 'all' or its status, and the lower-cased name or e-mail contains the lower-cased term or the phone contains the term; every copy of a listed booking is kept, in the original order |
| Bookings.SelectBooking | src/components/admin/BookingsManagement.tsx:177 | a row click makes that booking the selection and changes nothing else |
| Bookings.CloseDetails | src/components/admin/BookingsManagement.tsx:235 | closing the detail view clears the selection and leaves the list, filter and term unchanged |
| Bookings.SetFilter | src/components/admin/BookingsManagement.tsx:100-130 | a filter button changes only the status filter |
| Bookings.SetSearchTerm | src/components/admin/BookingsManagement.tsx:146 | typing in the search box changes only the search term |
| Bookings.ChangeStatusIdempotent | src/components/admin/BookingsManagement.tsx:64-72 | applying the same status change twice gives the same state as applying it once |
| Bookings.ChangeStatusUnknownId | src/components/admin/BookingsManagement.tsx:65-67 | a status change for an id no booking has leaves the list unchanged |
| Bookings.FilteredShowsAll | src/components/admin/BookingsManagement.tsx:84-88 | with filter 'all' and an empty term the whole list is shown |
| Bookings.InitSynced | src/components/admin/BookingsManagement.tsx:5-62 | the screen mounts with the five initial bookings and no selection, so the detail view and the list agree from the start |
| Bookings.ChangeStatusKeepsSync | src/components/admin/BookingsManagement.tsx:69-71 | after a status change the selected booking still equals its entry in the list |
| Bookings.StepKeepsSync | src/components/admin/BookingsManagement.tsx:59-91 | every action the screen offers (status buttons, delete, row click, close, filter, search) keeps the selection in agreement with the list |
| Bookings.RunKeepsSync | src/components/admin/BookingsManagement.tsx:59-81 | any sequence of user actions keeps the selection in agreement with the list |
| Gallery.Project | src/pages/GalleryPage.tsx:85-89 | an item is shown exactly when the category is 'all' or its own and its lower-cased name contains the lower-cased term; every copy of a shown item is kept, in the original order |
| Gallery.Step | src/pages/GalleryPage.tsx:84-92 | after a criterion changes, the shown list is recomputed from the fixed list for the new criteria, and the other criterion is kept |
| Gallery.ProjectShowsAll | src/pages/GalleryPage.tsx:86-87 | with category 'all' and an empty term every item is shown |
| Gallery.StartConsistent | src/pages/GalleryPage.tsx:76-78 | the state on mount (category 'all', empty term, whole list) agrees with its criteria |
| Gallery.InitConsistent | src/pages/GalleryPage.tsx:6-78 | the page mounts showing the whole fixed list, which is what category 'all' and an empty term select from it |
| Gallery.RunConsistent | src/pages/GalleryPage.tsx:84-92 | every reachable state shows exactly the items its criteria select |
| Gallery.HistoryIndependent | src/pages/GalleryPage.tsx:84-92 | two histories from mount that end with the same criteria show the same items |

## Left out

- Rendering, animations, styling and icons carry no behaviour and are not modelled.
- `parseFloat` and `toString` are parameters. JavaScript prefix parsing, `Infinity`, `toFixed` and floating-point rounding are not modelled, and prices are exact reals.
- Catalog.EditRoundTrip: it assumes that the printed price is non-empty and parses back to itself, because neither `parseFloat` nor `toString` is defined here.
- `Date.now()` is a parameter of the submit event. Catalog.Enabled requires it to differ from every stored id, because the code does not guarantee uniqueness.
- The 3-second delay is not modelled: a started timer is a pending count, and `HideTimer` can fire any time one is pending.
- `window.confirm` is a boolean of the delete events; the dialog itself is not modelled.
- Text.Lower: it lower-cases ASCII letters only, not the full Unicode mapping of `toLowerCase`.
- On the gallery page, React renders once with the stale list between a criterion change and the effect. Gallery.Step applies the effect at once.
- Catalog.RunPreservesInv: `Run` applies only the events `Enabled` allows, and `Enabled` excludes a create-submit whose `Date.now()` identifier is already stored, although its button is on screen. The code would append an item with a duplicate id, so the invariant covers only histories whose new identifiers are fresh.
- Catalog.Enabled admits more than the screen offers. It requires the form's inputs to act only while the modal is open, and "Add New Item" and edit buttons only while it is closed. An edit button must name a stored item, but not necessarily one the category filter lists. Deletion by any identifier, the filter bar and the notification's close button are allowed while the modal covers them. The invariant lemmas therefore cover more histories than the page allows.
- Bookings.Enabled likewise admits more than the screen offers. Status buttons need a selected booking with that identifier, the close button needs a selection, and row clicks and deletions need a booking the current filter and search list. Row clicks, deletions, the filter buttons and the search box are allowed while the detail view's overlay covers the table.
- The booking form, its simulated delay and `generateAvailableDates` (src/pages/BookingPage.tsx) are not part of this model, because they depend on timers, time zone and locale.
- Login, the storage flag, the dashboard shell, routing, navigation bar, footer, home and not-found pages are not part of this model; they hold no list state.
