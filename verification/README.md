# Check-in form and profile editor, modelled in Dafny

This project models the client-side logic of two React components of a
mental-health companion app:

- **`CheckInForm`** (`client/src/Components/checkInForm.jsx`) schedules a
  recurring check-in or, in update mode with a `checkInId` route parameter,
  loads an existing one and patches it. The model is the class
  `CheckIn.CheckInForm`. Its fields are the component's state: `checkInTime`,
  `frequency`, `notify`, `loading` and `snackbar`. The props `userId` and
  `update` and the route's `checkInId` are constants. The mount effect is
  split in two, `BeginLoad` (the read is issued and `loading` set) and
  `CompleteLoad` (the read settles). `Submit` covers validation, the choice
  of POST or PATCH, the payload and the snackbar. `CloseSnackbar` is the
  close handler. The decisions inside them are pure functions:
  `Loaded`, `Slice`, `SubmitRequest`, `ReplySnackbar`, `FailureMessage` and
  `Closed`.
- **`UserProfile`** (`client/src/Components/userProfile.jsx`) fetches a
  profile, normalises it, edits it field by field and through the
  concern checkboxes, and patches it back whole. The `setUser` updaters are
  pure functions: `UserProfile.Normalize`, `UserProfile.Change` and
  `UserProfile.ToggleConcern`. They are built on the concern-list
  functions of module `Concerns`. The notification state (`message`,
  `severity`, `open`) and the working profile live in the class
  `UserProfile.ProfileEditor`. The stressor catalog and
  `getStressorDescription` are `Stressors` and `StressorDescription`.

The network, the clock and the date library are inputs to the model:

- The outcome of an HTTP call is a `Gateway.Response`. It is `Ok(data)`, or
  `Err(error)` where `error` is the `error` field of the error response's
  body, if any.
- A request is the verb, the url and the body that would be sent.
- `new Date(checkInTime)` is a parameter `parse: string -> Option<int>`.
  `None` stands for an invalid date, which compares false with `<=` and so
  is never rejected as past. The current time is an integer parameter.
- `formatISO(parseISO(..), { representation: 'date' })` is a parameter
  `format: string -> Option<string>`. `None` stands for the call throwing,
  which sends the load down its catch branch. Only the `slice(0, 16)` cut is
  stated about its result.
- `${x}` of an absent value prints `undefined`, so a submission in update
  mode without an id goes to `/api/check-in/undefined`. `Js.TemplateText`
  models this.

Behaviours of the code worth knowing, all modelled as written:

- Checking a concern that is already selected appends it again, because the
  append at `client/src/Components/userProfile.jsx:244-245` is
  unconditional; the tag then occurs twice (`Concerns.RecheckDuplicates`).
  The checkbox shows `includes(tag)` and reports the opposite when clicked,
  so clicks alone never produce that event, and any sequence of catalog
  clicks keeps the list free of duplicates (`Concerns.ClickAllPreserves`,
  `UserProfile.CatalogClicksKeepConcernsValid`).
- Normalisation does not restrict concern tags to the catalog: it passes
  through whatever list the server sends
  (`client/src/Components/userProfile.jsx:214-215`).
- A failed check-in load is only logged
  (`client/src/Components/checkInForm.jsx:52-55`); no snackbar is shown and
  the fields keep their defaults.
- The load formats the time with a date-only representation
  (`client/src/Components/checkInForm.jsx:46`), so cutting it to 16
  characters changes nothing and the loaded value has no time of day. The
  model keeps the formatter opaque and states only the cut. Submitting a
  loaded check-in unchanged goes through the past-time check like any other
  submission: `new Date` of a bare date is midnight UTC of that day, so an
  unchanged re-submit of a check-in due later the same day is rejected and
  sends nothing (`CheckIn.LoadThenSubmit`).

## Model

| member | source | states |
|---|---|---|
| `CheckIn.CheckInForm.constructor` | client/src/Components/checkInForm.jsx:23-29 | fields start as `''`, `'daily'`, `false`; not loading; snackbar closed with empty message and severity info |
| `CheckIn.CheckInForm.BeginLoad` | client/src/Components/checkInForm.jsx:33-41 | a read of `/api/check-in/{checkInId}` is issued exactly when `update && checkInId`; `loading` becomes true then, and stays false otherwise |
| `CheckIn.CheckInForm.CompleteLoad` | client/src/Components/checkInForm.jsx:42-55 | loading ends on success and on failure; on success the fields are the loaded ones; on failure (or a throwing formatter) they keep the defaults `''`, `'daily'`, `false` |
| `CheckIn.Loaded` | client/src/Components/checkInForm.jsx:42-49 | a load yields fields exactly when the read succeeds and the formatter does not throw; the time is a prefix of the formatted string of at most 16 characters (exactly 16 when it is that long); frequency and notify are copied verbatim |
| `CheckIn.Slice` | client/src/Components/checkInForm.jsx:47 | `slice(0, n)` is a prefix of at most `n` characters, the whole string when it is shorter, and exactly `n` characters otherwise |
| `CheckIn.CheckInForm.Submit` | client/src/Components/checkInForm.jsx:59-90 | a selected time at or before now shows the past-time error and issues no request; otherwise exactly one request goes out, built from the current state, and the snackbar shows its outcome; the snackbar is open afterwards; the fields are not reset |
| `CheckIn.SubmitRequest` | client/src/Components/checkInForm.jsx:68-81 | the request is never a read; it is a PATCH to `/api/check-in/{checkInId}` exactly in update mode, otherwise a POST to `/api/check-in/schedule`; the body is the payload, the same shape in both modes |
| `CheckIn.ReplySnackbar` | client/src/Components/checkInForm.jsx:81-89 | after a request settles the snackbar is open; severity is success exactly on success, with the server's message; on failure it is error with the failure message |
| `CheckIn.FailureMessage` | client/src/Components/checkInForm.jsx:87 | the server's `error` text when it is present and non-empty, otherwise "An unexpected error occurred"; never empty |
| `CheckIn.Closed` | client/src/Components/checkInForm.jsx:92-97 | a `'clickaway'` close leaves the snackbar unchanged; any other reason closes it; message and severity are kept in both cases |
| `CheckIn.CheckInForm.CloseSnackbar` | client/src/Components/checkInForm.jsx:92-97 | the new snackbar is `Closed` of the old one with the given reason |
| `CheckIn.CheckInForm.SetCheckInTime` | client/src/Components/checkInForm.jsx:108-109 | the time input sets `checkInTime`; the input exists only while the form is rendered |
| `CheckIn.CheckInForm.SetFrequency` | client/src/Components/checkInForm.jsx:122-124 | the frequency select sets `frequency` |
| `CheckIn.CheckInForm.SetNotify` | client/src/Components/checkInForm.jsx:135 | the checkbox sets `notify` |
| `CheckIn.NowIsPast` | client/src/Components/checkInForm.jsx:61-63 | a time equal to now is rejected; any later time is not |
| `CheckIn.UnparseableNeverPast` | client/src/Components/checkInForm.jsx:61-63 | an unparseable time is never rejected as past |
| `CheckIn.LoadThenSubmit` | client/src/Components/checkInForm.jsx:33-90 | mounting in update mode, loading and submitting unchanged: when the loaded time parses at or before now nothing is sent; otherwise the one request is a PATCH to the same id with the formatted time cut to 16 characters and the frequency and notify flag received |
| `Concerns.Without` | client/src/Components/userProfile.jsx:246-248 | the filter removes every occurrence of the tag and keeps every other member, each as many times as before |
| `Concerns.Toggle` | client/src/Components/userProfile.jsx:244-248 | checking appends the tag at the end and leaves every earlier element in place; unchecking removes every occurrence and keeps the other elements with their counts |
| `Concerns.WithoutConcat` | client/src/Components/userProfile.jsx:246-248 | the filter works element by element, so the kept elements stay in their original order |
| `Concerns.WithoutAbsent` | client/src/Components/userProfile.jsx:246-248 | unchecking a tag that is absent leaves the list exactly as it was |
| `Concerns.CheckThenUncheckRestores` | client/src/Components/userProfile.jsx:244-248 | checking an absent tag and then unchecking it restores the original list exactly |
| `Concerns.UncheckThenCheckMovesToEnd` | client/src/Components/userProfile.jsx:244-248 | unchecking a present tag and then checking it gives the same members with the tag moved to the end, and the same counts when there were no duplicates |
| `Concerns.RecheckDuplicates` | client/src/Components/userProfile.jsx:244-245 | checking a tag that is already present adds a second occurrence, because the append is unconditional |
| `Concerns.ClickFlips` | client/src/Components/userProfile.jsx:502-508 | a click on a checkbox, whose checked state is `includes(tag)`, flips that checkbox and leaves every other one as it was |
| `Concerns.ClickPreserves` | client/src/Components/userProfile.jsx:241-250 | one checkbox click keeps the list free of duplicates and within the allowed tags |
| `Concerns.ClickAllPreserves` | client/src/Components/userProfile.jsx:241-250 | any sequence of checkbox clicks keeps the list free of duplicates and within the allowed tags |
| `UserProfile.Normalize` | client/src/Components/userProfile.jsx:205-216 | truthy fetched fields pass through; falsy ones become `""`, or `"Not specified"` for place of residence and field of work, which are therefore never empty; missing concerns become `[]` |
| `UserProfile.NormalizeIdempotent` | client/src/Components/userProfile.jsx:205-216 | normalising an already normalised profile changes nothing |
| `UserProfile.Change` | client/src/Components/userProfile.jsx:253-256 | the named field takes the new value; every other field and the concern list are unchanged |
| `UserProfile.ToggleConcern` | client/src/Components/userProfile.jsx:241-251 | only the concern list changes, as `Toggle` says; every scalar field is unchanged |
| `UserProfile.StressorDescription` | client/src/Components/userProfile.jsx:744-759 | the result is a text other than "No description available." exactly for the five catalog tags |
| `UserProfile.CatalogDescriptions` | client/src/Components/userProfile.jsx:228-234 | every catalog entry's tag is a catalog tag with a description of its own, and no two entries share a description |
| `UserProfile.CatalogClicksKeepConcernsValid` | client/src/Components/userProfile.jsx:241-251 | on the profile, any sequence of clicks on catalog checkboxes (each reporting the negation of `includes`) leaves every scalar field unchanged and keeps a duplicate-free, catalog-only concern list that way |
| `UserProfile.ProfileEditor.constructor` | client/src/Components/userProfile.jsx:174-192 | the profile starts empty, with no concerns; the notification is closed, with empty message and severity info |
| `UserProfile.ProfileEditor.Fetch` | client/src/Components/userProfile.jsx:194-226 | without a user id nothing is read and nothing changes; otherwise `/user/profile/{userId}` is read; success replaces the profile by its normalised form and leaves the notification alone; failure keeps the profile and opens "Failed to fetch user data" with severity error |
| `UserProfile.ProfileEditor.HandleChange` | client/src/Components/userProfile.jsx:253-256 | the working profile becomes `Change` of the old one |
| `UserProfile.ProfileEditor.HandleMentalHealthChange` | client/src/Components/userProfile.jsx:241-251 | the working profile becomes `ToggleConcern` of the old one |
| `UserProfile.ProfileEditor.Submit` | client/src/Components/userProfile.jsx:258-270 | the whole working profile is sent as a PATCH to `/user/profile/{userId}`; the notification is then open, with "Profile updated successfully!" and severity success, or "Failed to update profile" and severity error |
| `UserProfile.ProfileEditor.HandleClose` | client/src/Components/userProfile.jsx:272-274 | the notification is closed |

## Left out

- HTTP transport, request headers and the bearer token read from `localStorage`. A request is modelled by its verb, url and body. Its outcome is an input.
- `console.log` and `console.error` output.
- The JavaScript `Date` object and the clock. Times are integers, and the parser and the formatter are function parameters.
- Rendering, MUI theming, styled components and layout. Of the view, only the `loading` placeholder (`ShowsForm`) and the checkbox state derived from `includes` are modelled.
- The snackbar's auto-hide timer, tab switching (`handleTabChange`) and the password tab. `PasswordUpdateTab` is not part of this model.
- The navigation bar and the server's AI routes. They are outside the two components modelled here.
- Overlapping submissions. The code has no guard against them, and their interleaving is a concurrency matter. Each `Submit` is modelled as running to completion.
- Values of other JavaScript types. Profile fields are strings, so a numeric `age` of `0`, which is falsy, is not distinguished from `""`. A null response body, whose property access throws into the catch branch, is modelled as an `Err` outcome.
- `CheckIn.CheckInForm.BeginLoad`: requires the initial field values. The effect depends only on `update` and `checkInId`, which never change, so it runs once, right after the first render.
- `CheckIn.CheckInForm.Submit`: requires that no load is pending, because the form it submits is not rendered while one is.
- `CheckIn.CheckInForm.CloseSnackbar`: requires that no load is pending, because the snackbar is part of the form, which is not rendered while one is.
- `CheckIn.CheckInForm.SetCheckInTime`: requires that no load is pending, because the time input is not rendered while one is.
- `CheckIn.CheckInForm.SetFrequency`: requires that no load is pending, because the select is not rendered while one is.
- `CheckIn.CheckInForm.SetNotify`: requires that no load is pending, because the checkbox is not rendered while one is.
