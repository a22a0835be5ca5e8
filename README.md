# Client list dashboard — verified model of its filtering and CRUD logic

This project models, in Dafny, the logic of a small client-management dashboard.
The dashboard lists the records of a hosted `clients` table and filters them in the
browser by a search term, a status and a service type. It creates and edits records
through a modal, deletes a record after a confirmation, and reloads the whole list after
every successful change. The model has five modules:

- `Sequences` (`sequences.dfy`): `Array.prototype.filter` over sequences. It also
  defines what "a subsequence of the input" means: an order-preserving embedding of
  positions.
- `ClientTypes` (`client_types.dfy`): the `Client` record, the `ClientFormData`
  record and the three-valued `status`. Nullable fields are `Option<string>`.
  `ClientGet`/`FormGet` read a property by its name, as `client[name]` does.
- `ClientFilter` (`client_filter.dfy`): `filterClients`, meaning ASCII lower-casing,
  `String.prototype.includes`, and the three staged filters. `Kept` is an independent
  statement of which records are shown; the staged filters are proved to keep exactly those.
- `ClientForm` (`client_form.dfy`): the default form, the projection of a client onto
  the form (`null` becomes `""`, `last_contact` is cut at its first `'T'`),
  `handleChange`, and the `ClientModal` class with its `loading` flag around a submission.
- `ClientListing` (`client_list.dfy`): the backend table as a class. It holds rows and a
  log of the requests it received, and every request takes a success/failure outcome.
  The `ClientList` class holds the page's state (`clients`, `filteredClients`, `loading`,
  `showModal`, `selectedClient` and the three criteria). Its methods are `loadClients`,
  `handleSave`, `handleDelete`, `handleEdit`, `handleNew`, `handleCloseModal`, the three
  criteria setters, and the modal's submit wired to `handleSave`/`handleCloseModal`.

The class invariant `ClientList.Valid()` says two things: the visible list always equals
`FilterClients` of the loaded list and the current criteria, and the loaded list never
holds two records with the same `id`. Every method keeps it.

Four behaviours of the code that the model keeps:

- Empty form fields are not turned into `null` on create or update. The form is spread
  into the request as it is, so a blank e-mail is stored as `""` (`InsertedRowFields`,
  `UpdatedRowFields`). As a consequence, saving an unchanged edit form turns a `null` optional
  field into `""` (`UnchangedEditRoundTrip`).
- A failed load does not empty the list. It keeps the list from the last successful load,
  which is empty if no load has succeeded yet (`LoadClients`).
- A failed reload after a successful save is swallowed by `loadClients`. The modal still
  closes and the selection is still cleared (`HandleSave`).
- `document_number` and `phone` are compared, without lower-casing, against the
  lower-cased term. The model keeps this asymmetry (`RawFieldMatchHasNoUppercase`,
  `DocumentNumberCaseQuirk`).

## Model

| member | source | states |
|---|---|---|
| `ClientTypes.ParseStatus` | src/types/client.ts:11 | a string parses to a status only if it is that status's name |
| `ClientTypes.StatusNameRoundTrip` | src/types/client.ts:29 | every status is written as exactly one of "Active", "Inactive", "Suspended", and parses back to itself |
| `ClientTypes.ClientShape` | src/types/client.ts:1-18 | a client has exactly the sixteen listed properties; only `email`, `address`, `plan`, `last_contact`, `created_by` can be null (so `notes` never is); `status` is one of the three names |
| `ClientTypes.FormShape` | src/types/client.ts:20-32 | a form has exactly the client's properties minus the server-assigned ones, none of them is ever null, and `status` is one of the three names |
| `ClientTypes.FormFieldsAreClientFieldsMinusServer` | src/types/client.ts:1-32 | form fields = client fields minus `id`, `registration_date`, `created_by`, `created_at`, `updated_at`; the nullable fields are client fields and exclude `notes` |
| `Sequences.Filter` | src/components/ClientList.tsx:49-62 | `.filter` keeps an element iff it is in the input and satisfies the predicate, and never lengthens the list |
| `Sequences.FilterIsSubsequence` | src/components/ClientList.tsx:45-63 | a filtered list embeds into its input at strictly increasing positions: nothing reordered, duplicated or invented |
| `Sequences.FilterMultiplicity` | src/components/ClientList.tsx:45-63 | every occurrence of an accepted element is kept, and no occurrence of a rejected one |
| `Sequences.FilterFusion` | src/components/ClientList.tsx:47-63 | two successive `.filter` calls equal one filter by the conjunction of their predicates |
| `Sequences.FilterIdempotent` | src/components/ClientList.tsx:47-63 | filtering twice by the same predicate equals filtering once |
| `ClientFilter.LowerChar` | src/components/ClientList.tsx:48 | lower-casing a character leaves no upper-case letter, changes every upper-case letter and nothing else |
| `ClientFilter.Lower` | src/components/ClientList.tsx:48 | no ensures; specified by `LowerProperties` |
| `ClientFilter.LowerProperties` | src/components/ClientList.tsx:48 | a lower-cased string holds no upper-case letter, equals its input iff the input has none, and lower-casing is idempotent |
| `ClientFilter.Includes` | src/components/ClientList.tsx:50-53 | no ensures; specified by `IncludesIsSubstring` |
| `ClientFilter.IncludesIsSubstring` | src/components/ClientList.tsx:50-53 | `h.includes(n)` holds iff `n` occurs as a contiguous slice of `h` |
| `ClientFilter.MatchesSearch` | src/components/ClientList.tsx:49-54 | no ensures; specified by `MatchesSearchIsSubstring` |
| `ClientFilter.MatchesSearchIsSubstring` | src/components/ClientList.tsx:49-54 | the search predicate holds iff the term is a slice of the lower-cased name, the raw document number, the raw phone or the lower-cased non-null e-mail (an empty e-mail never matches) |
| `ClientFilter.FilterClients` | src/components/ClientList.tsx:44-66 | no ensures; specified by `FilterClientsSelectsKept`, `FilterClientsMembership`, `FilterClientsHonoursCategories`, `FilterClientsMultiplicity`, `FilterClientsIsSubsequence`, `FilterClientsIdempotent`, `FilterClientsNoCriteria` |
| `ClientFilter.FilterClientsSelectsKept` | src/components/ClientList.tsx:44-66 | the three staged filters equal a single filter by `Kept`: term empty or matching, and each categorical filter "all" or equal |
| `ClientFilter.FilterClientsMembership` | src/components/ClientList.tsx:47-63 | a record is shown iff it is loaded and `Kept` holds of it |
| `ClientFilter.FilterClientsHonoursCategories` | src/components/ClientList.tsx:57-63 | every shown record has the filtered status and service whenever that filter is not "all" |
| `ClientFilter.FilterClientsMultiplicity` | src/components/ClientList.tsx:45-63 | a kept record is shown as many times as it is loaded; a record that is not kept never is |
| `ClientFilter.FilterClientsIsSubsequence` | src/components/ClientList.tsx:45-63 | the visible list is a subsequence of the loaded list |
| `ClientFilter.FilterClientsIdempotent` | src/components/ClientList.tsx:47-63 | filtering the visible list again with the same criteria returns it unchanged |
| `ClientFilter.FilterClientsNoCriteria` | src/components/ClientList.tsx:44-66 | with an empty term and both filters "all" the whole list is shown, in order |
| `ClientFilter.RawFieldMatchHasNoUppercase` | src/components/ClientList.tsx:48-52 | a match in `document_number` or `phone` covers only characters that are not upper-case, so an upper-case letter of the term never meets the same letter in those fields |
| `ClientFilter.DocumentNumberCaseQuirk` | src/components/ClientList.tsx:48-53 | a client whose document number is "AB12" is not found by searching "AB12", while a client named "AB12" is |
| `ClientFilter.ScenarioSearchByName` | src/components/ClientList.tsx:47-55 | of Ana Ruiz and Beto Lopez, searching "ana" shows Ana Ruiz only |
| `ClientFilter.ScenarioStatusFilter` | src/components/ClientList.tsx:57-59 | filtering by "Suspended" shows Beto Lopez only |
| `ClientFilter.ScenarioServiceFilter` | src/components/ClientList.tsx:61-63 | filtering by "Móvil" shows Ana Ruiz only |
| `ClientForm.DefaultForm` | src/components/ClientModal.tsx:13-25 | no ensures; specified by `DefaultFormFields` |
| `ClientForm.DefaultFormFields` | src/components/ClientModal.tsx:13-25 | every default field is "" except `document_type` "DNI" and `status` "Active" |
| `ClientForm.DatePart` | src/components/ClientModal.tsx:39 | `split('T')[0]` is a prefix of its input, holds no 'T', and stops only at a 'T' or at the end |
| `ClientForm.DatePartUnique` | src/components/ClientModal.tsx:39 | those three properties determine the result uniquely |
| `ClientForm.DatePartExamples` | src/components/ClientModal.tsx:39 | "2024-03-15T00:00:00Z" becomes "2024-03-15", and "2024-03-15" stays as it is |
| `ClientForm.OrEmpty` | src/components/ClientModal.tsx:31-37 | no ensures; specified by `FormFromClientFields`, `FormForgetsNullVersusEmpty` |
| `ClientForm.LastContactField` | src/components/ClientModal.tsx:39 | no ensures; specified by `LastContactFieldSpec` |
| `ClientForm.LastContactFieldSpec` | src/components/ClientModal.tsx:39 | the form's date is "" for a null or empty value, otherwise the stored value's prefix before its first 'T' (all of it when there is none) |
| `ClientForm.FormFromClient` | src/components/ClientModal.tsx:29-41 | no ensures; specified by `FormFromClientFields`, `FormForgetsNullVersusEmpty`, `SaveThenEditRoundTrip` |
| `ClientForm.FormFromClientFields` | src/components/ClientModal.tsx:29-41 | the edit form copies name, phone, document type and number, service, status and notes verbatim; null `email`/`address`/`plan` become ""; `last_contact` becomes its date part |
| `ClientForm.FormForgetsNullVersusEmpty` | src/components/ClientModal.tsx:31-39 | the edit form is the same whether an optional field is null or "" |
| `ClientForm.InitialForm` | src/components/ClientModal.tsx:13-43 | no ensures; specified by `DefaultFormFields`, `FormFromClientFields` and the `ClientModal` constructor |
| `ClientForm.FormSet` | src/components/ClientModal.tsx:58-63 | no ensures; specified by `FormSetSpec`, `FormSetCurrentValue`, `FormSetLastWins` |
| `ClientForm.FormSetSpec` | src/components/ClientModal.tsx:58-63 | `handleChange` gives the named field the new value and leaves every other field unchanged |
| `ClientForm.FormSetCurrentValue` | src/components/ClientModal.tsx:58-63 | setting a field to its current value changes nothing |
| `ClientForm.FormSetLastWins` | src/components/ClientModal.tsx:58-63 | of two changes to one field the later wins |
| `ClientForm.ClientModal.constructor` | src/components/ClientModal.tsx:12-43 | the modal opens not busy, with the default form when no client is given and with the client's projection otherwise |
| `ClientForm.ClientModal.HandleChange` | src/components/ClientModal.tsx:58-63 | the form becomes `FormSet` of the old form; the busy flag is untouched |
| `ClientForm.ClientModal.BeginSubmit` | src/components/ClientModal.tsx:45-49 | the busy flag goes up and the current form is handed to `onSave` |
| `ClientForm.ClientModal.EndSubmit` | src/components/ClientModal.tsx:49-55 | the busy flag goes down whatever the outcome, and `onClose` is called iff the save did not throw |
| `ClientListing.UpdateWhere` | src/components/ClientList.tsx:71-77 | an update keeps the number of rows and every row's id |
| `ClientListing.InsertedRow` | src/components/ClientList.tsx:81-86 | no ensures; specified by `InsertedRowFields`, `SaveThenEditRoundTrip`, `AppendFreshKeepsUniqueIds` |
| `ClientListing.InsertedRowFields` | src/components/ClientList.tsx:81-86 | an inserted row has the backend's id, `created_by` equal to the user's id, and every form field stored exactly as the form held it, never null (an empty field stays "") |
| `ClientListing.UpdatedRow` | src/components/ClientList.tsx:71-77 | no ensures; specified by `UpdatedRowFields`, `UpdateWhereSpec`, `UnchangedEditRoundTrip` |
| `ClientListing.UpdatedRowFields` | src/components/ClientList.tsx:71-77 | an updated row stores every form field exactly as the form held it, stamps `updated_at` with the client-side time, and keeps every other property of the old row |
| `ClientListing.UpdateWhereSpec` | src/components/ClientList.tsx:71-77 | an update rewrites only rows with the given id, keeps their creation fields, stamps `updated_at`, and stores the form (its date read back as the date part) |
| `ClientListing.UpdateWhereKeepsIds` | src/components/ClientList.tsx:71-77 | an update keeps the set of ids and their uniqueness |
| `ClientListing.UnchangedEditRoundTrip` | src/components/ClientList.tsx:73-77 | saving an unchanged edit form rewrites the row as it was (but `updated_at`) iff no optional field is null and `last_contact` holds no 'T' |
| `ClientListing.SaveThenEditRoundTrip` | src/components/ClientModal.tsx:29-41 | reopening an inserted or updated row shows exactly the saved form iff its date holds no 'T' |
| `ClientListing.AppendFreshKeepsUniqueIds` | src/components/ClientList.tsx:81-86 | inserting a row with a fresh id keeps ids unique and adds exactly that id |
| `ClientListing.DeleteWhere` | src/components/ClientList.tsx:104-107 | a delete keeps exactly the rows with another id |
| `ClientListing.DeleteWhereSpec` | src/components/ClientList.tsx:104-107 | after a delete no row has that id, the other ids remain, ids stay unique, and the rows keep their order |
| `ClientListing.ClientTable.SelectAll` | src/components/ClientList.tsx:30-35 | a select is logged and returns all rows on success, an error otherwise |
| `ClientListing.ClientTable.Insert` | src/components/ClientList.tsx:81-88 | an insert is logged; on success the row built from the form, the creator and the fresh id is added, on failure nothing changes |
| `ClientListing.ClientTable.Update` | src/components/ClientList.tsx:71-79 | an update is logged with its id, form and time; on success the matching rows are rewritten, on failure nothing changes |
| `ClientListing.ClientTable.Delete` | src/components/ClientList.tsx:104-109 | a delete is logged; on success the matching rows go, on failure nothing changes |
| `ClientListing.ClientList.constructor` | src/components/ClientList.tsx:10-17 | the page starts loading, with empty lists, no modal, no selection, an empty term and both filters "all" |
| `ClientListing.ClientList.LoadClients` | src/components/ClientList.tsx:28-42 | one select request; on success the list becomes the table's rows, on failure it stays; `loading` ends false; the visible list is refiltered |
| `ClientListing.ClientList.SetSearchTerm` | src/components/ClientList.tsx:165-168 | the term changes and the visible list is refiltered |
| `ClientListing.ClientList.SetStatusFilter` | src/components/ClientList.tsx:176-178 | the status filter changes and the visible list is refiltered |
| `ClientListing.ClientList.SetServiceFilter` | src/components/ClientList.tsx:190-192 | the service filter changes and the visible list is refiltered |
| `ClientListing.ClientList.HandleEdit` | src/components/ClientList.tsx:116-119 | the selection becomes the client and the modal opens; nothing else changes |
| `ClientListing.ClientList.HandleNew` | src/components/ClientList.tsx:121-124 | the selection is cleared and the modal opens; nothing else changes |
| `ClientListing.ClientList.HandleCloseModal` | src/components/ClientList.tsx:126-129 | the modal closes and the selection is cleared; nothing else changes and no request is sent |
| `ClientListing.ClientList.HandleSave` | src/components/ClientList.tsx:68-98 | with a selection the selected id is updated, otherwise a row stamped with the user is inserted; on success the list is reloaded and the modal closed and deselected; on failure it rethrows with no reload and no state change |
| `ClientListing.ClientList.HandleDelete` | src/components/ClientList.tsx:100-114 | declined: no request and no change; failed: no reload and the list unchanged; succeeded: reload with `loading` down, and a successful reload holds no record with that id |
| `ClientListing.ClientList.SubmitModal` | src/components/ClientModal.tsx:45-56 | the busy flag is up while the save runs and down after it; the modal closes iff the save succeeded; after a failure the modal, selection, list and table are unchanged; the modal is open on the selected client; the form on screen is what the update or insert request carries and what the table stores; after a success the list is reloaded (kept on a failed reload) and `loading` is down |

## Left out

- The hosted backend is a class with a row sequence and a request log. Network
  transport, authentication and row-level security are not modelled. Each request's
  success or failure is an input.
- Row order: `.order('created_at', { ascending: false })` is the backend's concern.
  The rows come back in the table's own sequence order, standing for whatever order the
  backend returns. An inserted row is appended.
- Server-assigned values (`id`, `registration_date`, `created_at`, `updated_at`) and
  the client-side `new Date().toISOString()` are opaque inputs (`newId`, `now`). The
  backend's guarantee that a new id is fresh is a precondition of `ClientTable.Insert`.
- `user?.id` comes from the authentication context, which is not part of this model.
  It is a constant `Option<string>` of the page.
- `console.error` logging is not modelled. Neither are JSX markup, styling and the
  presentation components (ClientCard.tsx, App.tsx).
- React scheduling: every handler is one atomic step, and the `filterClients` effect
  runs inside every step that changes the list or a criterion. Concurrent requests, two
  open tabs and the time between a mutation and its reload are not modelled.
- The confirmation dialog of `handleDelete` is the boolean input `confirmed`.
- `toLowerCase` lower-cases ASCII letters only; full Unicode case mapping is not modelled.
- HTML `required` attributes and `disabled={loading}` are browser behaviour, not
  modelled. `BeginSubmit` does not require the busy flag to be down.
- `ClientForm.ClientModal.HandleChange`: for `status` it requires one of the three
  status names, the only values the status select offers. Any other value would break
  the record's declared type.
- `ClientListing.ClientList.LoadClients`: a successful response whose `data` is null
  (`data || []`) is not modelled. A successful select always returns the rows.
- `ClientListing.InsertedRow`: `registration_date`, `created_at` and `updated_at` of an
  inserted row all take the single input `now`. The backend fills them from its own
  defaults; the model takes them to be equal.
- `ClientForm.ClientModal.constructor`: the `useEffect` that copies the client into the
  form runs once, when the modal opens. A later change of the `client` prop while the
  modal stays open is not modelled; the page never makes one.
