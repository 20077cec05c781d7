# Plann.er screens: trip creation, activities, links

This project models, in Dafny, the event handlers of three screens of the
Plann.er trip-planning client:

- **Trip creation** (`src/app/index.tsx`). A two-step form: destination
  and dates first, then guests. It has a confirmation dialog, the invitee
  e-mail list, and two loading flags. At start-up it either resumes a
  stored trip or shows the form.
- **Activities** (`src/app/trip/activities.tsx`). The new-activity form,
  its two modals and the hour field's sanitiser. It also turns the server's
  per-day activity lists into the sections the list displays.
- **Links** (`src/app/trip/details.tsx`). The new-link form with its two
  guards, and the links and participants lists.

Each screen is a `class`. Its fields are the component's `useState`
variables, and each handler is a `method`. Every handler states the whole
new state as `State() == old(State()).(…)`, so whatever it does not
change is stated as unchanged too.

The pure parts are functions with lemmas about them. These are the guards,
the invitee-list operations, the section mapping and the JavaScript string
operations the handlers use. The string operations are:

- `trim`, with the ECMAScript whitespace set;
- `replace` with a string pattern, which replaces only the first match;
  `Strings.IndexOf` is the search for that match, as `indexOf` does it;
- `toLowerCase`;
- `length`, which counts UTF-16 code units.

The trip-creation form keeps a class invariant, `TripForm.Valid`:

- the invitee list has no entry twice;
- every entry passes the e-mail validator;
- every entry and the e-mail input are lower case;
- the calendar modal is shown only on the details step, and the guests
  modal only on the guests step.

Every handler preserves it. While start-up loading lasts, the screen
draws only the loading indicator, so every event of the form requires
`ShowsForm()`. Beyond that, the events of the trip-creation form require
the states in which their controls are drawn. The guests field and
"Alterar local/data" are drawn only on the guests step. The controls
inside a modal need that modal shown, and the main button needs no modal
shown, since the modals cover it. As a result, the range can change only
on the details step.

Collaborators whose code is outside this model are given as inputs:

- The e-mail and URL validators (`validateInput`), the calendar's range
  rule (`calendarUtils.orderStartsAtAndEndsAt`) and the date library's
  formatting are function values passed to the constructors. Nothing is
  assumed about them, except that the e-mail validator refuses "".
- What a server call, a device-storage call or a dialog returned is an
  argument of the handler that awaits it (`Outcome`, `Answer`).
- Navigation is returned as the path the screen would go to.

Where the code behaves in a way a reader might not expect, the model
follows the code:

- **Adding an invitee.** `handleAddEmail` neither trims nor lower-cases the
  input, and it detects duplicates by exact comparison. The input field
  lower-cases every keystroke (`index.tsx:263`), so in the screen as a whole
  the exact comparison works like a case-insensitive one. That is what
  `Invites.ExactMatchIsCaseInsensitive` and `TripForm.Valid` state.
- **The "" entry.** `find` returns the matching entry, and the test is on
  its truthiness, so an entry "" would be added twice. This is
  `Invites.EmptyEntryIsNotCaught`. The invariant therefore requires the
  validator to refuse "".
- **The guards on the guests step.** Both guards of the main button run
  again on the guests step before the dialog.
- **The length check.** It counts the untrimmed destination in UTF-16 code
  units, so "  ab" passes (`TripCreation.UntrimmedLengthIsCounted`).
- **A missing trip at start-up.** If the stored id resolves to no trip,
  `getTrip` neither navigates nor clears the loading flag, so the screen
  keeps loading.
- **A successful creation.** The busy flag stays raised. The screen
  navigates only after "Continuar" and a successful save of the id.
- **The date field.** Its change handler on the new-activity form writes
  the activity title (`activities.tsx:170`). That is modelled as written.

## Model

| member | source | states |
|---|---|---|
| Strings.IsJsWhitespace | src/app/trip/details.tsx:41 | The characters `trim` removes. Among the ASCII characters they are exactly the space and tab to carriage return, and all of them are a single UTF-16 code unit. |
| Strings.TrimStart | src/app/index.tsx:49 | The result is the suffix of the input left after the leading whitespace, which was all whitespace; it does not start with whitespace. |
| Strings.TrimEnd | src/app/index.tsx:49 | The result is the prefix of the input left before the trailing whitespace, which was all whitespace; it does not end with whitespace. |
| Strings.Trim | src/app/trip/details.tsx:41-54 | `trim` returns a slice `s[i..j]` with only whitespace outside it, and no whitespace at either of its ends. It is empty exactly when the input is all whitespace. |
| Strings.TrimIdempotent | src/app/trip/details.tsx:53-54 | Trimming an already trimmed text changes nothing. |
| Strings.IndexOf | src/app/trip/activities.tsx:89 | The search inside `replace`, as `indexOf` does it: it returns the position of the first occurrence of the pattern, and returns none exactly when the pattern occurs nowhere. |
| Strings.ReplaceFirst | src/app/trip/activities.tsx:89 | `replace` with a string pattern replaces only the first occurrence. Without an occurrence the text is returned unchanged. |
| Strings.NoCharKept | src/app/trip/activities.tsx:182 | Deleting a character that does not occur leaves the text unchanged. |
| Strings.FirstCharDeleted | src/app/trip/activities.tsx:182 | Deleting a character that occurs removes exactly its first occurrence, and keeps everything before it and after it. |
| Strings.DeletedOnce | src/app/trip/activities.tsx:182 | Deleting one character shortens the text by one exactly when the character occurs. The multiset of characters loses exactly that one character. |
| Strings.ToLower | src/app/index.tsx:263 | `toLowerCase` keeps the length, maps each character to its lower-case form at the same place, leaves no upper-case letter, and returns lower-case text unchanged. |
| Strings.Utf16Length | src/app/index.tsx:49-53 | `length` counts UTF-16 code units: between one and two per character, and zero only for "". |
| Strings.Utf16LengthOfBmp | src/app/index.tsx:53 | For text inside the Basic Multilingual Plane, `length` equals the number of characters. |
| Invites.Find | src/app/index.tsx:86 | `find` with an equality test finds an entry exactly when the value is listed, and the entry it returns is that value. |
| Invites.AddEmail | src/app/index.tsx:81-94 | A validator refusal gives `InvalidEmail`, and nothing else does. A listed non-empty input gives `AlreadyAdded`: the test is `Truthy`, the JavaScript truthiness of `find`'s result, under which both no entry and "" are falsy. Otherwise the input is appended at the end and the earlier entries are kept. |
| Invites.AddEmailKeepsWellFormed | src/app/index.tsx:81-94 | An append keeps the list distinct, validated and lower case, given a lower-case input and a validator that refuses "". |
| Invites.EmptyEntryIsNotCaught | src/app/index.tsx:86-88 | With a validator that accepts "", a listed "" is appended again, because `find`'s result "" is falsy; the list then has a duplicate. |
| Invites.ExactMatchIsCaseInsensitive | src/app/index.tsx:86 | For lower-case entries and input, the exact test finds a duplicate exactly when a case-insensitive comparison would. |
| Invites.RemoveAll | src/app/index.tsx:77-79 | `filter` removes every occurrence of the value and keeps every other entry as many times as before. A list without the value is returned unchanged. |
| Invites.RemoveAllConcat | src/app/index.tsx:78 | Filtering a concatenation is concatenating the filtered parts, so the kept entries keep their relative order. |
| Invites.ConsWellFormed | src/app/index.tsx:77-79 | Putting a new validated lower-case entry in front of a well-formed list keeps it well formed. |
| Invites.RemoveAllKeepsWellFormed | src/app/index.tsx:77-79 | Removal keeps the list distinct, validated and lower case. |
| TripCreation.CheckDetails | src/app/index.tsx:48-55 | The first alert is given exactly when the destination is blank or either end of the range is missing. The second is given exactly when those pass and the untrimmed length is below 4. Passing means a non-blank destination of length at least 4. |
| TripCreation.UntrimmedLengthIsCounted | src/app/index.tsx:49-53 | "  ab" passes both guards: the length counts the blanks. |
| TripCreation.CheckParis | src/app/index.tsx:49-53 | "Paris" with both ends of the range passes both guards. |
| TripCreation.LowerCasedAddress | src/app/index.tsx:263 | Typing "A@B.com" stores "a@b.com". |
| TripCreation.TripForm.constructor | src/app/index.tsx:35-46 | The form starts loading, on the details step, with nothing selected, empty fields and no modal; the invariant holds. |
| TripCreation.TripForm.HandleNextStepForm | src/app/index.tsx:48-65 | Pressed with no modal shown. A failing guard gives its alert and changes nothing. On the details step the form moves to the guests step and sends nothing. On the guests step, "Cancelar" changes nothing and "Confirmar" sends the current request. |
| TripCreation.TripForm.CreateTrip | src/app/index.tsx:109-131 | The request is `Request`, built from the current fields: it carries the destination and the invitee list as they are, and the date string of each end of the range. A failure lowers the busy flag. A success leaves it raised and yields the new id. |
| TripCreation.TripForm.SaveTrip | src/app/index.tsx:96-107 | The screen navigates to "/trip/" followed by the id exactly when storing the id succeeded. |
| TripCreation.TripForm.GetTrip | src/app/index.tsx:133-153 | Without a truthy stored id (`StoredIdTruthy`: the read succeeded with an id that is not ""), or when a call fails, loading ends and the form shows (`ShowsForm`: loading is over). A found trip gives navigation to its page. No trip leaves the state as it was, still loading. The invariant is kept. |
| TripCreation.TripForm.ChangeDestination | src/app/index.tsx:172-177 | The destination is editable only on the details step. |
| TripCreation.TripForm.PressDatesField | src/app/index.tsx:187 | The calendar opens only on the details step. |
| TripCreation.TripForm.HandleSelectDate | src/app/index.tsx:67-75 | A tap in the calendar, which is shown only on the details step. The range becomes what the range rule makes of the old ends and the tapped day; nothing else changes. |
| TripCreation.TripForm.CloseModal | src/app/index.tsx:226-245 | "Confirmar datas" and closing either modal hide the modal, and nothing else changes. |
| TripCreation.TripForm.GoBackToDetails | src/app/index.tsx:195 | "Alterar local/data", drawn only on the guests step, returns to the details step and keeps the invitees. |
| TripCreation.TripForm.PressGuestsField | src/app/index.tsx:206-208 | The guests field, drawn only on the guests step, opens the guests modal. |
| TripCreation.TripForm.ChangeEmailInput | src/app/index.tsx:263 | The e-mail field in the guests modal, shown only on the guests step, stores the typed text lower-cased; the invariant holds. |
| TripCreation.TripForm.HandleAddEmail | src/app/index.tsx:81-94 | Runs on the guests step. A rejected input changes nothing. An accepted one is appended and the field is cleared. The invariant is preserved. |
| TripCreation.TripForm.HandleRemoveEmail | src/app/index.tsx:77-79 | Runs on the guests step. The list becomes the filtered list and the invariant is preserved. |
| TripCreation.CreateParisTrip | src/app/index.tsx:48-153 | This is the flow end to end. The second "a@b.com" is refused as already added. "Confirmar" sends "Paris", the range the calendar produced and exactly one invitee. Saving leads to "/trip/t1". |
| TripActivities.ToItems | src/app/trip/activities.tsx:91-96 | Each activity gives one row, `ToItem`, in the server's order. `ToItem` keeps the id and the title, and takes the hour and the past/future flag from the activity's instant. |
| TripActivities.ToSection | src/app/trip/activities.tsx:86-97 | A day's section has as many rows as activities, with the same ids and titles in order. Its weekday name loses its first "-feira". |
| TripActivities.ToSections | src/app/trip/activities.tsx:86-99 | Each server day gives one section, in the server's order. |
| TripActivities.ToSectionsConcat | src/app/trip/activities.tsx:86 | Mapping works day by day: the sections of two runs of days are the sections of each, one after the other. |
| TripActivities.RowCountIsActivityCount | src/app/trip/activities.tsx:86-97 | The list shows exactly as many rows as the server sent activities. |
| TripActivities.FeiraSuffixRemoved | src/app/trip/activities.tsx:89 | "segunda-feira" and the other hyphenated weekdays become "segunda" and so on. |
| TripActivities.NameWithoutHyphenKept | src/app/trip/activities.tsx:89 | "sábado" and "domingo" are kept as they are. |
| TripActivities.SanitizeHour | src/app/trip/activities.tsx:182 | The hour field's text shrinks by at most two characters, and text with neither "." nor "," is kept as it is. |
| TripActivities.SanitizeHourKeepsOrder | src/app/trip/activities.tsx:182 | The first "." is deleted, then the first "," of what is left; everything before and after each deleted character stays in place; an absent character deletes nothing. |
| TripActivities.SanitizeHourDeletes | src/app/trip/activities.tsx:182 | The characters left, plus the "." and the "," deleted when there was one, are exactly the characters typed; exactly one "." goes when there is one. |
| TripActivities.ActivitiesTab.constructor | src/app/trip/activities.tsx:35-47 | The tab starts with no modal, loading, empty fields and an empty list. |
| TripActivities.ActivitiesTab.ResetNewActivity | src/app/trip/activities.tsx:49-54 | The three fields are emptied and the modal is closed; nothing else changes. |
| TripActivities.ActivitiesTab.GetTripActivities | src/app/trip/activities.tsx:82-105 | A successful fetch replaces the list by the answer's sections. A failed one keeps the list. Loading ends either way. |
| TripActivities.ActivitiesTab.HandleCreateTripActivity | src/app/trip/activities.tsx:56-80 | An empty field means nothing is sent and nothing changes. Otherwise the request carries the fields. Only a success reloads the list and then resets the form. The busy flag is down at the end. |
| TripActivities.ActivitiesTab.OpenNewActivity | src/app/trip/activities.tsx:116 | "Nova atividade" opens the form. |
| TripActivities.ActivitiesTab.CloseModal | src/app/trip/activities.tsx:152 | Closing a modal hides it. |
| TripActivities.ActivitiesTab.ChangeTitle | src/app/trip/activities.tsx:160 | The title field stores the text. |
| TripActivities.ActivitiesTab.ChangeDateFieldText | src/app/trip/activities.tsx:170 | Text entered in the date field is stored as the title. |
| TripActivities.ActivitiesTab.PressDateField | src/app/trip/activities.tsx:173 | Pressing the date field opens the calendar. |
| TripActivities.ActivitiesTab.ChangeHour | src/app/trip/activities.tsx:182 | The hour field stores the sanitised text. |
| TripActivities.ActivitiesTab.PickDay | src/app/trip/activities.tsx:202 | A calendar tap stores that day's date string. |
| TripActivities.ActivitiesTab.ConfirmDate | src/app/trip/activities.tsx:208 | The calendar's "Confirmar" returns to the form. |
| TripActivities.ActivitiesTab.MarkedDates | src/app/trip/activities.tsx:203 | The calendar marks the chosen day as selected, and only that day. |
| TripDetails.DraftLink | src/app/trip/details.tsx:41-55 | A blank title is refused first. Then the trimmed URL must pass the validator. A ready request carries both fields trimmed, with a non-empty title. |
| TripDetails.DraftLinkIdempotent | src/app/trip/details.tsx:41-55 | Drafting again from a ready request's own fields gives the same request. |
| TripDetails.DetailsTab.constructor | src/app/trip/details.tsx:19-31 | The tab starts with no modal, not busy, empty lists and empty fields. |
| TripDetails.DetailsTab.ResetNewLinkFields | src/app/trip/details.tsx:33-37 | Both fields are emptied and the modal is closed; nothing else changes. |
| TripDetails.DetailsTab.GetTripLinks | src/app/trip/details.tsx:68-75 | A successful fetch replaces the links and a failed one keeps them. |
| TripDetails.DetailsTab.GetTripParticipants | src/app/trip/details.tsx:77-84 | A successful fetch replaces the participants and a failed one keeps them. |
| TripDetails.DetailsTab.HandleCreateTripLink | src/app/trip/details.tsx:39-66 | A refused draft changes nothing. A failed send changes nothing but the busy flag. A success clears the fields, closes the modal and reloads the links. The busy flag is down at the end. |
| TripDetails.DetailsTab.OpenNewLinkModal | src/app/trip/details.tsx:107 | "Cadastrar novo link" opens the modal. |
| TripDetails.DetailsTab.CloseNewLinkModal | src/app/trip/details.tsx:128 | Closing the modal hides it. |
| TripDetails.DetailsTab.ChangeLinkTitle | src/app/trip/details.tsx:133 | The title field stores the text. |
| TripDetails.DetailsTab.ChangeLinkUrl | src/app/trip/details.tsx:137 | The URL field stores the text. |

## Left out

- The button's `disabled={isLoading}` (src/components/button.tsx:38) is not modelled. Each handler runs to completion as one step, so two submissions cannot overlap in the model.
- Asynchrony is not modelled. The awaits, `useEffect` start-up calls and React's batched state updates run in sequence, and the results of the awaited calls are arguments. The timing of network calls is not represented.
- Date handling is opaque: `dayjs` parsing and formatting (the `starts_at`/`ends_at` strings, `occurs_at` as the date plus `Number(hour)` hours, the day number, the weekday name, the `hh:mm` hour, `isBefore`, the date field's displayed text) are not computed. The creation requests carry the date strings and the hour field that those values are computed from.
- TripCreation.TripForm.constructor: requires the e-mail validator to refuse "". The validator's code is not part of this model, and the distinctness of the invitee list depends on that refusal (see `Invites.EmptyEntryIsNotCaught`).
- The activities tab and the links tab do not tie their handlers to the modal that holds each control: for example, a calendar tap or the hour field is accepted with no modal shown.
- `validateInput.email`, `validateInput.url` and `calendarUtils.orderStartsAtAndEndsAt` are parameters: their code is not part of this model.
- Strings.ToLower: lower-cases ASCII letters only. Full Unicode case mapping, including characters whose lower-case form has a different length, is not modelled.
- Strings.Utf16Length: strings are sequences of Unicode scalar values, so lone surrogates cannot occur.
- Alert titles and texts, `console` logging and the loading indicator are left out. Each alert is represented by the outcome value the handler returns.
- The hour field's `maxLength={2}` and numeric keyboard are properties of the input widget and are not modelled.
- The link inputs are uncontrolled (they have no `value`), so clearing the fields does not clear what the widget displays. That display is not modelled.
- The trip page (`src/app/trip/[id].tsx`) is not part of this model. That includes the trip update form and the attendance confirmation. The presentation components (`Loading`, `Activity`, `TripLink`, `Participant`, `GuestEmail`) are not part of it either.
- Navigation is the returned path, and the router itself is not modelled.
