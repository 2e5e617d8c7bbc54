# Contact editing, monthly birthdays and cell details — a Dafny model

This project models three pieces of a church-management web application. The
model runs no UI, touches no backend and does no I/O.

- **The contact edit dialog** (module `ContactEditing`, class
  `EditContactDialog`). It covers:
  - the `formData` record;
  - seeding the form from the `contact` prop when the dialog is open;
  - the handlers of the text inputs, switches, photo upload and the six
    selects. Each select shows a non-empty placeholder (such as `no-city`) for
    "nothing selected" and stores `''` when that placeholder is chosen;
  - choosing a city, which clears the neighborhood;
  - validation of name, whatsapp and neighborhood after `trim()`, in that
    order, stopping at the first blank one;
  - the payload: every relational field that equals its sentinel or is empty
    becomes `null`. For a user who is not an admin, `cell_id` and `leader_id`
    are put back to the contact's original values;
  - the outcome of a submission. On success, `onUpdate` gets the returned
    record and then `onClose` is called. On failure the dialog stays open
    with the form unchanged.

  A submission changes no state. `HandleSubmit` returns the ordered list of
  its effects (notifications, the update request, the callbacks). The update
  call's answer is an input.
- **The monthly birthday hook** (module `MonthlyBirthdays`). The pipeline is
  a filter, a map and a sort. It keeps the rows whose birth month is the
  current month. It adds `age` (current year minus birth year) and `day` (day
  of the month). It sorts by day with a stable sort, because JavaScript's
  `Array.prototype.sort` is stable. The hook state is the list and the
  `loading` flag.
- **The cell detail page** (module `CellDetails`, class `CellDetailsPage`).
  Each step of `fetchCellDetails` that happens after an `await` is its own
  method:
  - `BeginFetch`, then `CellLookupResolved` for the cell lookup, then
    `MembersResolved` for the members query;
  - the mount effect and its cleanup (`Unmount`) are the other events, and
    unmounting can happen between any two steps;
  - a `phase` field records which answer the fetch is waiting for;
  - every write after an `await` is guarded by the `mounted` flag.

  `handleCellUpdated` replaces the cell without a refetch. The page renders
  one of three views.

Shared values (`Option`, the `Toast` record) are in module `Common`.

JavaScript truthiness is modelled explicitly:
- `value || ''` is `OrEmpty`;
- `Boolean(value)` is `Truthy`;
- `value || null` on the age is `NonZeroOrNull`, so an age of `0` is seeded
  as `null`;
- `!id` is true for a missing id and for `''`.

The property proofs that need real work are:
- the trim lemmas;
- permutation, sortedness and stability of the birthday sort;
- the membership lemma of the birthday pipeline.

## Notes on the code's behaviour

- For a user who is not an admin, `cell_id` and `leader_id` in the payload are
  the contact's raw values. They get no sentinel or empty-string check
  (`BuildPayload`, last ensures).
- With no route id the page keeps its initial `loading = true`. It shows the
  spinner forever and never shows "not found" (`Visit`, first ensures).
- Nothing in the code prevents two fetches of the detail page from
  overlapping. The model has one fetch, because the route id is fixed (see
  "## Left out").
- The birthday hook never sets `loading` back to true, so a refresh leaves it
  false from the start.
- The seeding effect of the edit dialog reruns whenever the parent passes a
  different contact object, even one with equal fields. Any edits in progress
  are then replaced by the contact's values (`EditThenFreshCopy`).

## Model

| member | source | states |
|---|---|---|
| ContactEditing.OrEmpty | src/components/EditContactDialog.tsx:95-100 | `x \|\| ''` is `''` exactly when the value is absent or empty; otherwise it is the value |
| ContactEditing.Truthy | src/components/EditContactDialog.tsx:102-103 | `Boolean(x)` of an optional flag is true exactly when the flag is present and true |
| ContactEditing.NonZeroOrNull | src/components/EditContactDialog.tsx:105 | `age \|\| null` is null exactly when the age is absent or 0; otherwise it is the age |
| ContactEditing.InitialForm | src/components/EditContactDialog.tsx:67-84 | the initial form has status "pending", no age, all flags false, and cannot be submitted (validation fails on the name) |
| ContactEditing.SeedForm | src/components/EditContactDialog.tsx:94-111 | every string field is the contact's value or `''`; status is never empty and defaults to "pending"; the three flags are true only for a present true value; age is the contact's age unless it is absent or 0 |
| ContactEditing.EditContactDialog.constructor | src/components/EditContactDialog.tsx:67-123 | on mount the props are recorded (with the contact object's identity) and the form is seeded from the contact when it is open with a contact, and is the initial form otherwise |
| ContactEditing.SameContactProp | src/components/EditContactDialog.tsx:123 | (no ensures) the `Object.is` test of the `contact` dependency: no contact on both sides, or the same object |
| ContactEditing.EditContactDialog.ReceiveProps | src/components/EditContactDialog.tsx:89-123 | the seeding effect runs only when a different contact object is passed or `isOpen` changed, and then seeds only when open with a contact; otherwise the edited form is kept, also when the same object was changed in place |
| ContactEditing.EditThenFreshCopy | src/components/EditContactDialog.tsx:89-123 | a re-render with a fresh copy of the contact while the name is being edited replaces the typed name by the contact's |
| ContactEditing.EditThenSameObjectChanged | src/components/EditContactDialog.tsx:89-123 | a re-render with the same contact object, changed in place, keeps the typed name |
| ContactEditing.EditContactDialog.HandlePhotoChange | src/components/EditContactDialog.tsx:125-127 | only `photo_url` changes, to the URL or `''` |
| ContactEditing.Placeholder | src/components/EditContactDialog.tsx:247-258 | each select's "nothing selected" option is a non-empty string |
| ContactEditing.Stored | src/components/EditContactDialog.tsx:248-250 | a select handler stores `''` exactly for the placeholder or an empty choice, and otherwise stores the choice; it never stores the placeholder |
| ContactEditing.Displayed | src/components/EditContactDialog.tsx:247 | the displayed option `x \|\| placeholder` is never empty; the handler applied to it gives back `x` whenever `x` is not the placeholder, and `''` when it is |
| ContactEditing.AfterSelect | src/components/EditContactDialog.tsx:246-420 | each select changes only its own field; the city select also sets the neighborhood to `''` |
| ContactEditing.EditContactDialog.HandleSelect | src/components/EditContactDialog.tsx:246-252 | the form after a select is AfterSelect of the old form; after the city select the neighborhood is `''`, and the city is `''` exactly for `no-city` or an empty choice |
| ContactEditing.EditContactDialog.HandleNameInput | src/components/EditContactDialog.tsx:227 | only the name changes, to the typed text |
| ContactEditing.EditContactDialog.HandleWhatsappInput | src/components/EditContactDialog.tsx:239 | only the whatsapp changes, to the typed text |
| ContactEditing.EditContactDialog.HandleBirthDateInput | src/components/EditContactDialog.tsx:298 | only the birth date changes, to the typed text |
| ContactEditing.EditContactDialog.HandleEncounterSwitch | src/components/EditContactDialog.tsx:306 | only `encounter_with_god` changes |
| ContactEditing.EditContactDialog.HandleBaptizedSwitch | src/components/EditContactDialog.tsx:315 | only `baptized` changes |
| ContactEditing.EditContactDialog.HandleFounderSwitch | src/components/EditContactDialog.tsx:324 | only `founder` changes |
| ContactEditing.IsTrimmable | src/components/EditContactDialog.tsx:133 | (no ensures) the code points `String.prototype.trim` removes: the ECMAScript WhiteSpace and LineTerminator characters |
| ContactEditing.TrimStart | src/components/EditContactDialog.tsx:133 | removing the leading white space never lengthens the string; what it removes and keeps is stated by TrimStartRemovesPrefix |
| ContactEditing.TrimEnd | src/components/EditContactDialog.tsx:133 | removing the trailing white space never lengthens the string; what it removes and keeps is stated by TrimEndRemovesSuffix |
| ContactEditing.Trim | src/components/EditContactDialog.tsx:133 | (no ensures) `s.trim()`; its contract is stated by TrimIsInnerSlice |
| ContactEditing.Blank | src/components/EditContactDialog.tsx:133 | (no ensures) `!s.trim()`; its contract is stated by BlankIffNoVisibleChar |
| ContactEditing.TrimStartRemovesPrefix | src/components/EditContactDialog.tsx:133 | trimming the start removes exactly a prefix of white-space/line-terminator characters, stopping at the first other character |
| ContactEditing.TrimEndRemovesSuffix | src/components/EditContactDialog.tsx:133 | trimming the end removes exactly a suffix of such characters, stopping at the last other character |
| ContactEditing.TrimIsInnerSlice | src/components/EditContactDialog.tsx:133 | `trim()` gives a contiguous slice of the input; everything outside it is trimmable, and the slice neither starts nor ends with a trimmable character |
| ContactEditing.BlankIffNoVisibleChar | src/components/EditContactDialog.tsx:133-158 | `!s.trim()` holds exactly when every character of `s` is white space or a line terminator |
| ContactEditing.Validate | src/components/EditContactDialog.tsx:133-158 | (no ensures) the three required-field checks in order; its contract is stated by ValidationOrder |
| ContactEditing.ValidationOrder | src/components/EditContactDialog.tsx:133-158 | validation reports the name if it has no visible character, else the whatsapp, else the neighborhood, and passes exactly when all three have one |
| ContactEditing.RequiredMessage | src/components/EditContactDialog.tsx:133-158 | the validation message of every required field is non-empty |
| ContactEditing.RequiredMessagesDistinct | src/components/EditContactDialog.tsx:133-158 | two required fields have the same message exactly when they are the same field, so the notification names the field that failed |
| ContactEditing.NullSentinel | src/components/EditContactDialog.tsx:166-171 | each relational field has a non-empty "none" sentinel |
| ContactEditing.Nullable | src/components/EditContactDialog.tsx:166-171 | the normalised value is null exactly when the field equals its sentinel or is empty; otherwise it is the field unchanged |
| ContactEditing.Normalized | src/components/EditContactDialog.tsx:164-172 | the spread keeps every non-relational field and maps each of the six relational fields through its sentinel test |
| ContactEditing.BuildPayload | src/components/EditContactDialog.tsx:164-178 | non-relational fields are copied verbatim (no trimming, empty birth date stays `''`); each editable relational field is null exactly for its sentinel or `''` and is otherwise copied, so no sentinel is sent; for a non-admin, cell and leader are the contact's original values |
| ContactEditing.SaveUnchangedKeepsRelations | src/components/EditContactDialog.tsx:164-172 | saving a freshly seeded form sends each editable relation as the contact had it, with `''` sent as null |
| ContactEditing.PlaceholderChoiceSendsNull | src/components/EditContactDialog.tsx:166-171 | choosing a relational select's placeholder and then submitting sends null for that field |
| ContactEditing.CityChangeBlocksSubmit | src/components/EditContactDialog.tsx:248-252 | right after a city is chosen, validation fails, because the neighborhood is empty |
| ContactEditing.NoticeToast | src/components/EditContactDialog.tsx:134-195 | the success notice is the only non-destructive toast of a submission; a missing field's notice is the error toast carrying that field's own message |
| ContactEditing.EditContactDialog.Visible | src/components/EditContactDialog.tsx:199-201 | (no ensures) the dialog renders, and so can be submitted, only when open with a contact |
| ContactEditing.EditContactDialog.HandleSubmit | src/components/EditContactDialog.tsx:129-197 | a validation failure shows its field's notice and makes no update call; otherwise the first effect is the update call with BuildPayload. Success then gives `onUpdate` (if given), the success toast and `onClose`. Failure gives only the error toast. `onClose` happens exactly on success; the form is not changed |
| MonthlyBirthdays.BornInMonth | src/hooks/useMonthlyBirthdays.ts:35-38 | each row occurs in the filtered list as often as in the input if its birth month is the current month, and not at all otherwise |
| MonthlyBirthdays.BornInMonthCons | src/hooks/useMonthlyBirthdays.ts:35-38 | the filter decides the first row and then filters the rest behind it |
| MonthlyBirthdays.BornInMonthSingle | src/hooks/useMonthlyBirthdays.ts:35-38 | a single row is kept exactly when its birth month is the current month |
| MonthlyBirthdays.BornInMonthAppend | src/hooks/useMonthlyBirthdays.ts:35-38 | the filter keeps the input order: filtering a concatenation gives the filtered parts in the same order |
| MonthlyBirthdays.WithAgeAndDay | src/hooks/useMonthlyBirthdays.ts:39-48 | the item carries the row's id, name, birth date and whatsapp unchanged; age is the current year minus the birth year, day is the day of the month |
| MonthlyBirthdays.Annotate | src/hooks/useMonthlyBirthdays.ts:39-49 | the map keeps the length and position of every row |
| MonthlyBirthdays.InsertByDay | src/hooks/useMonthlyBirthdays.ts:50 | inserting into a day-sorted list keeps it sorted and adds exactly the item |
| MonthlyBirthdays.SortByDay | src/hooks/useMonthlyBirthdays.ts:50 | the sort returns a day-sorted permutation of its input |
| MonthlyBirthdays.InsertKeepsDayOrder | src/hooks/useMonthlyBirthdays.ts:50 | insertion places the new item before the items that share its day and keeps their order |
| MonthlyBirthdays.SortIsStable | src/hooks/useMonthlyBirthdays.ts:50 | items with the same day keep their relative input order |
| MonthlyBirthdays.MonthlyBirthdaysOf | src/hooks/useMonthlyBirthdays.ts:34-50 | absent data gives `[]`; otherwise the result is sorted by day, is a permutation of the filtered and mapped rows, and keeps the input order within each day |
| MonthlyBirthdays.MonthlyBirthdaysMembers | src/hooks/useMonthlyBirthdays.ts:20-48 | an item is in the result exactly when it is built, with the derived age and day, from a fetched row whose birth month is the current month |
| MonthlyBirthdays.MonthlyBirthdaysInMonth | src/hooks/useMonthlyBirthdays.ts:35-48 | every result item has the current birth month, age = current year minus birth year, and day = day of the birth date |
| MonthlyBirthdays.BirthdayHook.constructor | src/hooks/useMonthlyBirthdays.ts:15-16 | the list starts empty and `loading` starts true |
| MonthlyBirthdays.BirthdayHook.FetchMonthlyBirthdays | src/hooks/useMonthlyBirthdays.ts:18-58 | on a query error the list is kept; otherwise it is replaced by the pipeline's result; `loading` is false afterwards in both cases |
| CellDetails.HasId | src/components/CellDetails.tsx:48 | (no ensures) the `!id` test: an id counts only when present and non-empty |
| CellDetails.LookupFailureMessage | src/components/CellDetails.tsx:58-64 | a query error gets its message after the prefix "Erro ao buscar detalhes da célula: "; a missing row gets "Célula não encontrada"; a rejected request shows its exception message unchanged |
| CellDetails.QueryErrorIsNotNotFound | src/components/CellDetails.tsx:58-64 | whatever its text, a query error never produces the "not found" message |
| CellDetails.MembersFailureMessage | src/components/CellDetails.tsx:75-77 | a members query error gets its message after the prefix "Erro ao buscar contatos da célula: "; a rejected request shows its exception message unchanged |
| CellDetails.OrNone | src/components/CellDetails.tsx:80 | `contactsData \|\| []` is `[]` for null data and the rows otherwise |
| CellDetails.SelectView | src/components/CellDetails.tsx:121-140 | loading wins; then a missing cell is "not found"; otherwise the loaded view shows the cell and its members |
| CellDetails.DayName | src/components/CellDetails.tsx:177 | a name exists exactly for days 0..6, with 0 = Domingo (Sunday) and 6 = Sábado |
| CellDetails.CellDetailsPage.constructor | src/components/CellDetails.tsx:41-45 | no cell, no members, loading, dialog closed, mounted |
| CellDetails.CellDetailsPage.Render | src/components/CellDetails.tsx:121-140 | (no ensures) the page's render is SelectView of its loading flag, cell and members |
| CellDetails.CellDetailsPage.BeginFetch | src/components/CellDetails.tsx:47-50 | with no id nothing changes; otherwise loading is raised and the cell lookup is pending |
| CellDetails.CellDetailsPage.MountEffect | src/components/CellDetails.tsx:108-114 | with no id the effect does not run; otherwise the page is marked live and the fetch starts |
| CellDetails.CellDetailsPage.Unmount | src/components/CellDetails.tsx:115-118 | the cleanup clears the liveness flag; it was registered only when there is an id |
| CellDetails.CellDetailsPage.CellLookupResolved | src/components/CellDetails.tsx:52-95 | a found row is stored only if the page is live, and the members query follows. An error or missing row leaves the cell unset, notifies if live, lowers loading if live and ends the fetch. Nothing is written when unmounted |
| CellDetails.CellDetailsPage.MembersResolved | src/components/CellDetails.tsx:70-95 | on success the members become `data \|\| []`; on failure they are unchanged and a notification is shown; loading is lowered; each write happens only if live |
| CellDetails.CellDetailsPage.HandleCellUpdated | src/components/CellDetails.tsx:98-102 | the cell is replaced by the argument and the edit dialog closes; nothing else changes |
| CellDetails.CellDetailsPage.OpenEditDialog | src/components/CellDetails.tsx:192 | the edit dialog opens |
| CellDetails.CellDetailsPage.CloseEditDialog | src/components/CellDetails.tsx:243 | the edit dialog closes |
| CellDetails.Visit | src/components/CellDetails.tsx:47-119 | with no id the spinner stays and nothing is shown. After an early unmount nothing is shown or written. On a live page a failed lookup gives "not found" and one notification, and a found cell gives the loaded view with the members (or `[]` plus a notification if the members query fails) |
| CellDetails.EditThenRender | src/components/CellDetails.tsx:98-102 | after an edit the loaded view shows the edited cell with the same members, without a new fetch |
| Common.ErrorToast | src/components/CellDetails.tsx:85-89 | the error notification is destructive and carries the given description |

## Left out

- The backend queries and `updateContact` are outside this model: the
  Supabase query builder, its filters (`id`, `cell_id`, `status = member`,
  `birth_date` not null) and the update call. Their answers are inputs (rows,
  null data, an error, a rejection); the birthday rows are taken to be
  already filtered.
- The reference data (react-query caching of profiles and pipeline stages,
  `useCells`, `useCities`, `useContacts`, `useMinistries`,
  `useNeighborhoodsByCity`, `useUserPermissions`) is not modelled: those hooks'
  code is not part of this model. `isAdmin` is a plain input of `HandleSubmit`.
- The `required` attribute on the name and whatsapp inputs is left out. With
  it, the browser refuses to submit an empty name or whatsapp before
  `handleSubmit` runs. For those two fields, `HandleSubmit`'s notice for an
  empty value is what the handler would show, not what the user sees. A
  value made only of white space does reach the handler.
- JSX rendering, the UI primitives, `PhotoUpload`, `EditCellDialog`,
  `CellQrCode`, `CellLeaderInfo` and navigation are left out. One consequence:
  the cell and leader selects being disabled for non-admins is not modelled,
  and `HandleSelect` accepts every choice. For a non-admin the payload ignores
  those two fields anyway.
- Toast delivery is left out. A toast is an emitted value: part of
  `HandleSubmit`'s effects, or appended to `CellDetailsPage.toasts`.
- Parsing of JavaScript `Date` values is left out, including the distinction
  between UTC and local time. Dates are integer `(year, month, day)` values,
  and "now" is the single input `today`, read once per fetch. In the source,
  `new Date()` is read again for every row, which can only differ around
  midnight.
- `toLocaleTimeString` formatting of the meeting time is left out, since it
  depends on the locale.
- True asynchronous interleaving is left out. The route id is a constant, so
  the fetch a changed id would start again, and a stale fetch from a previous
  id writing after `mountedRef` is set back to true, are both left out.
  `BeginFetch` and `MountEffect` require that no fetch is in progress.
- Contact fields whose JavaScript value could be of another type (a number
  where a string is expected, `NaN` as an age) are modelled only as present
  or absent values of their declared type.
- ReceiveProps: the identity of the `contact` object is a reference number
  the caller supplies. `Object.is(undefined, null)` is false, but an effect
  run with no contact seeds nothing, so treating both as `None` changes no
  outcome.
- `undefined` and `null` are not told apart. Both are `None`, so a non-admin
  payload whose original cell is `undefined` is modelled as sending `null`.
- Exceptions thrown by the `onUpdate` or `onClose` callbacks themselves are
  left out.
- Logging through `console.log` and `console.error` is left out.
