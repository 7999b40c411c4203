# callscreen — a Dafny model of the app's event logic

The app has three tabs: Recents, Dialer and Contacts. Recents lists the device call log and Contacts lists the contacts. The Dialer holds a typed number. Tapping a row, or the dialer's call key, places a call through an `ACTION_CALL` intent for `tel:<number>`. The call is gated on the `CALL_PHONE` runtime permission. Most of `MainActivity.kt` is Compose layout. This project models the logic inside it:

- **Call gates** (`CallGate`). Every tap handler and every permission callback is a function from the grant state and the number to one `Effect`: `Dispatch(uri)`, `RequestPermission` or `NoEffect`. All of them go through one shared decision, `Gate`. `Session` joins a tap to the callback that delivers the user's answer. Lemmas over a session count the dials and prompts.
- **Dialer** (`Dialing`). The class `DialerScreen` holds the `phoneNumber` buffer. It has the pad, delete and call handlers and the permission callback. The callback reads the buffer again when the answer arrives.
- **Readers** (`Readers`). `fetchCallLogs` and `fetchContacts` are `while` loops over a given cursor. A cursor is a query that throws, a null cursor, or its rows. The loops are proved against the functions `CallLogsOf` and `ContactsOf`.
- **Load screens** (`LoadScreens`). One generic class, `ScreenModel<T>`, has the fields `isLoading`, `error` and `items`, and the three transitions. `Render` gives the spinner, then the error text, then the list. `ShowRecentCalls` and `ShowContacts` model one mount of each screen, with the real reader plugged in.
- **Display** (`RowDisplay`). This module has, for call-log and contact rows, the call-type label, the shown name (cached name unless null or blank, else the number) and the one-letter avatar initial.
- **Navigation** (`Navigation`). This module has the `selectedTab` index and the screen it composes.

The model follows the code where a reader might expect something else:

- The readers pass along the order of the platform query. The code asks the store for `DATE DESC` and `DISPLAY_NAME ASC` order, but does not sort or check anything itself. So the model claims cursor order, not sortedness.
- `initiateCall` never asks for the permission. Without the grant it does nothing.
- The screens' "Failed to load" branch is never reached from a failed query. The readers catch every exception and return an empty list. `ShowRecentCalls` and `ShowContacts` prove that a granted mount always shows the list.
- Granting a read permission at the prompt does not reload the screen. The callback only writes `hasPermission`, which nothing reads. `ScreenModel.OnPermissionResult` keeps the state as it is, so the denial message stays until the screen is mounted again.
- The entry constructors have non-null `String` parameters. A cursor row with a null call-log number, or a null contact id or name, therefore throws inside the reader's `try`. The whole read then yields the empty list, not a list without that row. This is Kotlin's null check on non-null parameters, which the model reads from the declarations at lines 46-58.

## Model

| member | source | states |
|---|---|---|
| `RowDisplay.KindOf` | app/src/main/java/com/example/phonecallscreen/MainActivity.kt:275-280 | the raw type is Incoming, Outgoing or Missed exactly when it equals that platform constant (1, 2, 3); every other int is Unknown |
| `RowDisplay.TypeLabel` | app/src/main/java/com/example/phonecallscreen/MainActivity.kt:275-280 | the label is total: "Incoming", "Outgoing" and "Missed" each exactly for their constant, and "Unknown" exactly for every other int |
| `RowDisplay.TypeLabelFactorsThroughKind` | app/src/main/java/com/example/phonecallscreen/MainActivity.kt:275-280 | the label depends only on the kind, and two types get the same label iff they have the same kind |
| `RowDisplay.DisplayName` | app/src/main/java/com/example/phonecallscreen/MainActivity.kt:217 | the shown name is the cached name when it is non-null and not blank (by Kotlin's whitespace set), else the number |
| `RowDisplay.DisplayNameBlankOnlyIfNumberBlank` | app/src/main/java/com/example/phonecallscreen/MainActivity.kt:217 | the shown name can be blank only when the number is blank |
| `RowDisplay.TakeOne` | app/src/main/java/com/example/phonecallscreen/MainActivity.kt:218 | take(1) is a prefix of its input, of length 1 unless the input is empty |
| `RowDisplay.CallInitial` | app/src/main/java/com/example/phonecallscreen/MainActivity.kt:217-218 | a call row's initial is a prefix of the shown name of at most one character, and empty only when the shown name is |
| `RowDisplay.ContactInitial` | app/src/main/java/com/example/phonecallscreen/MainActivity.kt:524 | a contact row's initial is a prefix of the contact name of at most one character, and empty only when the name is |
| `CallGate.TelUri` | app/src/main/java/com/example/phonecallscreen/MainActivity.kt:244-246 | the string handed to `Uri.parse` starts with "tel:" and is four characters longer than the number |
| `CallGate.TelNumber` | app/src/main/java/com/example/phonecallscreen/MainActivity.kt:244-246 | a string has text after a "tel:" prefix exactly when it starts with "tel:"; that text is the rest of the string (string slicing, not URI parsing) |
| `CallGate.TelNumberOfTelUri` | app/src/main/java/com/example/phonecallscreen/MainActivity.kt:244-246 | the text after the "tel:" prefix of the string handed to `Uri.parse` is exactly the number it was built from |
| `CallGate.TelUriOfTelNumber` | app/src/main/java/com/example/phonecallscreen/MainActivity.kt:244-246 | every string with the "tel:" prefix is that prefix followed by the text after it |
| `CallGate.Gate` | app/src/main/java/com/example/phonecallscreen/MainActivity.kt:238-252 | the shared decision: dispatch iff granted and a number is present, always to "tel:" + that number; a request iff not granted and the handler asks |
| `CallGate.CallLogTap` | app/src/main/java/com/example/phonecallscreen/MainActivity.kt:237-253 | a call-log row click dials the row's number when granted and otherwise issues a request |
| `CallGate.CallLogGrant` | app/src/main/java/com/example/phonecallscreen/MainActivity.kt:220-232 | the call-log row callback dials the row's number when granted and has no effect when refused |
| `CallGate.ContactTap` | app/src/main/java/com/example/phonecallscreen/MainActivity.kt:545-563 | a contact click dials iff granted and the number is non-null; granted with a null number has no effect; not granted always requests, whatever the number |
| `CallGate.ContactGrant` | app/src/main/java/com/example/phonecallscreen/MainActivity.kt:526-540 | the contact callback dials iff granted and the number is non-null, and never requests |
| `CallGate.InitiateCall` | app/src/main/java/com/example/phonecallscreen/MainActivity.kt:671-686 | initiateCall dials when granted and otherwise has no effect at all, never a request |
| `CallGate.DialerCall` | app/src/main/java/com/example/phonecallscreen/MainActivity.kt:354-372 | the call key has no effect exactly on an empty buffer; on a non-empty one it dials "tel:" + buffer iff granted and requests iff not |
| `CallGate.DialerGrant` | app/src/main/java/com/example/phonecallscreen/MainActivity.kt:311-320 | the dialer callback dials iff the answer is a grant and the buffer is still non-empty, and never requests |
| `CallGate.CallLogSession` | app/src/main/java/com/example/phonecallscreen/MainActivity.kt:220-253 | a row tap plus its callback makes exactly one dial if granted before or at the prompt and none if refused, at most one request, and only to the row's number |
| `CallGate.ContactSession` | app/src/main/java/com/example/phonecallscreen/MainActivity.kt:526-563 | the same for a contact, except that a contact with a null number is never dialled, though the request still opens |
| `CallGate.DialerSession` | app/src/main/java/com/example/phonecallscreen/MainActivity.kt:309-372 | call key plus callback: no dial and no request on an empty buffer; one request when not granted; the dial after a grant uses the buffer at answer time and needs it non-empty |
| `Dialing.PadLabelsAreDistinctCharacters` | app/src/main/java/com/example/phonecallscreen/MainActivity.kt:383-388 | the pad has twelve labels, each one character long and all distinct |
| `Dialing.DropLast` | app/src/main/java/com/example/phonecallscreen/MainActivity.kt:349-353 | delete leaves an empty buffer empty; on a non-empty one the result plus the old last character is the old buffer |
| `Dialing.DropLastUndoesKey` | app/src/main/java/com/example/phonecallscreen/MainActivity.kt:346-353 | a pad key grows the buffer by exactly one character, and delete then gives the old buffer back |
| `Dialing.DropLastIsPrefix` | app/src/main/java/com/example/phonecallscreen/MainActivity.kt:349-353 | delete keeps a prefix and shortens a non-empty buffer by exactly one |
| `Dialing.DialerScreen.constructor` | app/src/main/java/com/example/phonecallscreen/MainActivity.kt:306 | the buffer starts as "" |
| `Dialing.DialerScreen.OnNumberClick` | app/src/main/java/com/example/phonecallscreen/MainActivity.kt:346-348 | the new buffer is the old buffer plus the label; for a pad label the length grows by exactly one |
| `Dialing.DialerScreen.OnDeleteClick` | app/src/main/java/com/example/phonecallscreen/MainActivity.kt:349-353 | the new buffer is DropLast of the old one |
| `Dialing.DialerScreen.OnCallClick` | app/src/main/java/com/example/phonecallscreen/MainActivity.kt:354-372 | the call key's effect is DialerCall of the grant state and the current buffer |
| `Dialing.DialerScreen.OnPermissionResult` | app/src/main/java/com/example/phonecallscreen/MainActivity.kt:311-320 | the callback's effect is DialerGrant of the answer and the buffer at answer time |
| `Readers.CallLogEntryOf` | app/src/main/java/com/example/phonecallscreen/MainActivity.kt:620-626 | each entry field is the matching column of its row |
| `Readers.ContactOf` | app/src/main/java/com/example/phonecallscreen/MainActivity.kt:657-661 | each contact field is the matching column of its row; the number stays nullable |
| `Readers.CallLogsOf` | app/src/main/java/com/example/phonecallscreen/MainActivity.kt:595-634 | one entry per cursor row, in cursor order, when every row converts; [] for a throwing query, a null cursor or a row with a null number |
| `Readers.ContactsOf` | app/src/main/java/com/example/phonecallscreen/MainActivity.kt:636-669 | one contact per cursor row, in cursor order, when every row converts; [] for a throwing query, a null cursor or a row with a null id or name |
| `Readers.FetchCallLogs` | app/src/main/java/com/example/phonecallscreen/MainActivity.kt:595-634 | the moveToNext loop returns exactly CallLogsOf of the cursor |
| `Readers.FetchContacts` | app/src/main/java/com/example/phonecallscreen/MainActivity.kt:636-669 | the moveToNext loop returns exactly ContactsOf of the cursor |
| `Readers.FailureLooksLikeEmptyStore` | app/src/main/java/com/example/phonecallscreen/MainActivity.kt:630-633 | a throwing query, a null cursor and an empty store all give the same empty list |
| `LoadScreens.Initial` | app/src/main/java/com/example/phonecallscreen/MainActivity.kt:131-134 | a screen mounts loading, with no error and an empty list |
| `LoadScreens.Denied` | app/src/main/java/com/example/phonecallscreen/MainActivity.kt:147-153 | a denial ends loading, with the fixed permission message and an empty list |
| `LoadScreens.Completed` | app/src/main/java/com/example/phonecallscreen/MainActivity.kt:155-164 | a fetch ends loading; the error is null iff the fetch returned; then the list is its result; a thrown fetch gives the failure text and an empty list |
| `LoadScreens.Render` | app/src/main/java/com/example/phonecallscreen/MainActivity.kt:167-193 | the spinner iff loading; the error text iff not loading and the error is non-null; the list iff neither |
| `LoadScreens.ViewsOfTheLoadMachine` | app/src/main/java/com/example/phonecallscreen/MainActivity.kt:141-193 | the mount shows the spinner; a denial shows its message; a returned fetch shows its list, even when empty; a thrown fetch shows the failure text |
| `LoadScreens.ScreenModel.constructor` | app/src/main/java/com/example/phonecallscreen/MainActivity.kt:131-134 | the cells start in the Initial state and hasPermission starts false |
| `LoadScreens.ScreenModel.ShowPermissionDenied` | app/src/main/java/com/example/phonecallscreen/MainActivity.kt:147-153 | the denied branch issues a request and leaves the Denied state |
| `LoadScreens.ScreenModel.CompleteFetch` | app/src/main/java/com/example/phonecallscreen/MainActivity.kt:155-164 | the try/catch/finally leaves the Completed state for the fetch's outcome |
| `LoadScreens.ScreenModel.OnPermissionResult` | app/src/main/java/com/example/phonecallscreen/MainActivity.kt:135-139 | the launcher callback records the answer and leaves loading, error and list as they were |
| `LoadScreens.ShowRecentCalls` | app/src/main/java/com/example/phonecallscreen/MainActivity.kt:128-193 | one Recents mount: a request iff not granted; not granted shows the permission message whatever the answer; granted shows the reader's list, never the failure text |
| `LoadScreens.ShowContacts` | app/src/main/java/com/example/phonecallscreen/MainActivity.kt:452-519 | the same for the Contacts screen, with its own message and reader |
| `Navigation.TabOf` | app/src/main/java/com/example/phonecallscreen/MainActivity.kt:96-113 | each navigation item writes an index in {0, 1, 2} |
| `Navigation.ScreenAt` | app/src/main/java/com/example/phonecallscreen/MainActivity.kt:118-122 | a screen is composed exactly for indices 0, 1 and 2 |
| `Navigation.TabRoundTrip` | app/src/main/java/com/example/phonecallscreen/MainActivity.kt:96-122 | clicking an item composes its screen, and each valid index belongs to exactly one item |
| `Navigation.PhoneApp.constructor` | app/src/main/java/com/example/phonecallscreen/MainActivity.kt:73 | the app starts on the Recents tab |
| `Navigation.PhoneApp.OnNavItemClick` | app/src/main/java/com/example/phonecallscreen/MainActivity.kt:96-113 | a click stores the item's index, composes its screen and marks exactly that item selected |
| `Navigation.SelectedItemIsShownScreen` | app/src/main/java/com/example/phonecallscreen/MainActivity.kt:99-122 | in every state an item is drawn selected iff its screen is the one composed; an index outside 0..2 selects nothing and shows nothing |

## Left out

- Compose layout and styling are left out: modifiers, sizes, colours (including the green, blue, red and gray type colours), fonts, avatar clipping, and the lazy list and grid. They decide nothing.
- Platform calls are not modelled: `checkSelfPermission`, `rememberLauncherForActivityResult`, `Intent`, `Uri.parse` and `startActivity`. The grant state and the user's answer are parameters. The intent is the `Dispatch` effect. A failing `startActivity` is caught and dropped by the source, so it has no separate effect here.
- `Dispatch` carries the unparsed string handed to `Uri.parse`, not the parsed URI. `Uri.parse` reads everything from the first `#` as a fragment. The pad offers `#`, so a buffer such as `*#06#` is not dialled as typed: the platform's number part would be `*`. The model does not capture this parsing.
- The content-resolver queries, their projections and their `DATE DESC` and `DISPLAY_NAME ASC` sort clauses are not modelled. The cursor's rows are an input. The model claims cursor order, not sorted order, because the sorting is the store's promise.
- Coroutines are not modelled (`withContext(Dispatchers.IO)`, `LaunchedEffect`). A fetch is one synchronous step, so a view between `isLoading = true` and the fetch's result is not captured.
- The text of `e.message` is a free string parameter of `Threw`. `printStackTrace` is left out.
- The startup permission request in `PhoneApp` is left out. Its callback is empty, so it changes no state.
- `MainActivity.onCreate`, the theme and edge-to-edge setup are left out.
- The date text of a call row is left out. It uses `SimpleDateFormat` and depends on the locale.
- The `uppercase()` in `CircleAvatar` is left out. Unicode case mapping depends on the locale.
- `RowDisplay.TakeOne` takes the first Unicode scalar value. Kotlin's `take(1)` takes the first UTF-16 unit and would split a surrogate pair.
- Cursor columns read with `getLong` and `getInt` are unbounded integers. A null in those columns reads as 0 on the platform and is given as 0 in the row.
- Kotlin's 64-bit and 32-bit widths for duration, type and date are not modelled. The model never computes with them.
- Whether the dialer buffer survives a tab switch is not modelled. Each `DialerScreen` object is one composition of the screen.
