# Instruments app: a Dafny model

This project models the logic core of a small Next.js application that manages
a list of musical instruments. The core has five parts:

- The `/api/instruments` route (`InstrumentsApi`). It lists, creates, renames
  and deletes rows of an `instruments` table through an ORM.
  - A failed ORM call whose error text mentions a "prepared statement" gets
    exactly one retry after a reconnect.
  - A body that is not JSON gets a 400.
  - Any other failure gets a 500 "Failed to … instrument(s)"; after a failed
    retry the message ends in " after retry".
  - Ids travel as decimal text: `toString()` going out and `BigInt(text)`
    coming back. These two are modelled in `JsBigInt`.
- The instruments table screen (`DataTable`). It adds, renames and deletes
  optimistically.
  - An add shows a placeholder under a `Date.now()` id. The placeholder is
    swapped for the server's record on success and dropped on failure.
  - A rename or delete applies at once. On failure the list is restored from
    a snapshot taken just before the change.
- The instrument list on the private page (`InstrumentListView`). It changes
  its list only after the request succeeded. It sends nothing when the name
  is blank after `trim()`.
- The `login` and `signup` server actions (`LoginActions`). They run a cascade
  of form checks, then map the auth provider's answer to a redirect.
- The avatar initials of the page header (`Header`).

The JavaScript string built-ins the core relies on are modelled in
`JsString`:

- `includes`;
- `split` with a one-character separator, and `join`;
- `trim`, with the ECMAScript whitespace set;
- `toUpperCase`, for ASCII letters.

`ItemList` holds the three list transformations the two screens share:
`map` that replaces, `map` that renames, and `filter` by id.

The route is modelled twice:

- Pure functions (`Execute`, `Attempt`, `RunWithRetry`, `GetReply` … `DeleteReply`)
  specify each handler as a function from the table and the request to the
  new table and the response.
- The class `InstrumentService` holds the table as mutable fields. Its methods
  are proved to match those functions.

The connection's behaviour during one request is an input, `Faults`:

- the error the first call throws;
- the error the reconnect throws;
- the error the retried call throws.

Each is absent when that step succeeds.

Worth noting about the route's behaviour:

- A POST with an empty name creates a row.
- A POST whose name is missing, `null` or not text fails in the ORM's
  validation. The handler turns that into a 500, not a 400.
- Only a body that is not JSON gives a 400.
- A PUT whose body has no `name` leaves the stored name as it was, because the
  ORM ignores an `undefined` field.
- The listing of this route is ordered by id ascending.

## Model

| member | source | states |
|---|---|---|
| JsString.MissingCharExcludes | src/app/api/instruments/route.ts:19-22 | a text lacking one character of the marker does not include the marker |
| JsString.IncludesWidens | src/app/api/instruments/route.ts:138-141 | text wrapped around a string that includes the marker still includes it |
| JsString.Split | src/app/private/components/Header.tsx:36-37 | `split` yields at least one piece, no piece holds the separator, and joining the pieces with it gives back the text |
| JsString.SplitWithoutSeparator | src/app/private/components/Header.tsx:36 | a text without the separator splits into itself alone |
| JsString.SplitFirstPiece | src/app/private/components/Header.tsx:36 | the first piece is exactly the text before the first separator |
| JsString.TrimStart | src/app/private/components/InstrumentList.tsx:27 | after trimming the start, the text is empty or begins with a non-whitespace character |
| JsString.TrimEmptyIffBlank | src/app/private/components/InstrumentList.tsx:27 | `trim()` gives the empty string exactly when every character is whitespace |
| JsString.UpperChar | src/app/private/components/Header.tsx:40 | a..z map to A..Z; every other character is unchanged |
| JsString.ToUpper | src/app/private/components/Header.tsx:40 | `toUpperCase` keeps the length and upper-cases each character in place |
| JsBigInt.DigitChar | src/app/api/instruments/route.ts:13 | the character of a digit is a decimal digit with that value |
| JsBigInt.NatDigits | src/app/api/instruments/route.ts:13 | the decimal text of a natural number is non-empty, all digits, and has no leading zero |
| JsBigInt.DigitsValueOfNatDigits | src/app/api/instruments/route.ts:13 | reading the digits of `n` back gives `n` |
| JsBigInt.RoundTrip | src/app/api/instruments/route.ts:125 | `BigInt(n.toString()) == n` for every integer n |
| JsBigInt.ToDecimalInjective | src/app/api/instruments/route.ts:13 | two ids with the same text are the same id |
| JsBigInt.LeadingNonZero | src/app/api/instruments/route.ts:125 | digits starting with a non-zero digit have a positive value |
| JsBigInt.NatDigitsOfDigitsValue | src/app/api/instruments/route.ts:125 | digits without a leading zero are the text of their own value |
| JsBigInt.CanonicalRoundTrip | src/app/api/instruments/route.ts:125 | every canonical integer text parses, and `toString` of the result gives the same text |
| JsBigInt.ToDecimalCanonical | src/app/api/instruments/route.ts:13 | `toString` of a BigInt always gives canonical text |
| InstrumentsApi.ToBigInt | src/app/api/instruments/route.ts:125 | `BigInt(id)` keeps an integer, turns `true`/`false` into 1/0, parses a text exactly when its syntax is valid, and throws on `undefined` and `null` |
| InstrumentsApi.Prepare | src/app/api/instruments/route.ts:124-129 | a create with a text name becomes an insert, and one without a text name fails; an update or delete proceeds exactly when the id converts (and, for an update, the name is text or absent) |
| InstrumentsApi.OrderById | src/app/api/instruments/route.ts:7-9 | `findMany` ordered by id lists as many rows as the table holds, each one stored, with ids strictly ascending |
| InstrumentsApi.MinKey | src/app/api/instruments/route.ts:8 | the least id of a non-empty set of ids |
| InstrumentsApi.OrderByIdCovers | src/app/api/instruments/route.ts:7-9 | every stored row appears in the ordered listing |
| InstrumentsApi.Execute | src/app/api/instruments/route.ts:124-129 | a failing query leaves the table unchanged; every query keeps all ids below the next id |
| InstrumentsApi.Attempt | src/app/api/instruments/route.ts:123-135 | a failed try body leaves the table unchanged and keeps all ids below the next id |
| InstrumentsApi.RunWithRetry | src/app/api/instruments/route.ts:136-164 | a first success is final after one attempt; there is a second attempt exactly when the first error mentions a prepared statement and the reconnect succeeds; the outcome is an "after retry" failure exactly when that error came and the reconnect or the retry failed; any other first error is final after one attempt; success comes exactly from a first success or a successful retry; a failure leaves the table unchanged |
| InstrumentsApi.Serialize | src/app/api/instruments/route.ts:11-14 | each row is sent with its id as decimal text, in the same order |
| InstrumentsApi.Render | src/app/api/instruments/route.ts:37-46 | status 200 exactly on success; 500 "Failed to <action>", plus " after retry" when the retry failed |
| InstrumentsApi.Respond | src/app/api/instruments/route.ts:16-47 | a handler runs its body once or twice |
| InstrumentsApi.GetReply | src/app/api/instruments/route.ts:5-48 | GET never changes the table; when the first query succeeds it answers 200 after one attempt; a 200 lists every row by ascending id with text ids; any other status is 500 |
| InstrumentsApi.PostReply | src/app/api/instruments/route.ts:51-108 | a body that is not JSON gives 400 "Invalid request data" with no attempt and no change; a text name on a connection whose first call succeeds gives a 200 after one attempt; a 200 adds exactly one row, under the next id and with the requested text name, and echoes it with the id as text; any other status leaves the table unchanged |
| InstrumentsApi.PutReply | src/app/api/instruments/route.ts:111-170 | a body that is not JSON gives 400 with no change; a 200 means the id converted and names a stored row; only that row's name changes, to the new name or, when none was sent, the old one; any other status leaves the table unchanged |
| InstrumentsApi.DeleteReply | src/app/api/instruments/route.ts:173-217 | a body that is not JSON gives 400 with no change; a 200 means the id converted and named a stored row, which alone is removed; any other status leaves the table unchanged |
| InstrumentsApi.CreatedIdIsFresh | src/app/api/instruments/route.ts:64-74 | the id a successful POST hands out was unused, every older row is kept, and the id invariant still holds |
| InstrumentsApi.ListingIsComplete | src/app/api/instruments/route.ts:7-15 | every stored row is in a successful listing under the text of its id |
| InstrumentsApi.ListingParsesBack | src/app/api/instruments/route.ts:11-14 | every listed id text parses back to a stored id, and the listed name is that row's name |
| InstrumentsApi.ListingParsesAscending | src/app/api/instruments/route.ts:7-14 | the listed id texts parse back to strictly ascending ids |
| InstrumentsApi.EchoedIdRenamesSameRow | src/app/api/instruments/route.ts:124-135 | a PUT that sends back a listed id text renames exactly that row, in one attempt |
| InstrumentsApi.EchoedIdDeletesSameRow | src/app/api/instruments/route.ts:186-189 | a DELETE that sends back a listed id text removes exactly that row |
| InstrumentsApi.DeleteMissingRowFails | src/app/api/instruments/route.ts:185-216 | deleting an id that is not stored gives 500 and leaves the table unchanged, whatever the connection does |
| InstrumentsApi.UpdateMissingRowNotRetried | src/app/api/instruments/route.ts:136-168 | on a healthy connection, updating a missing row gives "Failed to update instrument" after a single attempt |
| InstrumentsApi.NotFoundIsNotTransient | src/app/api/instruments/route.ts:138-141 | the not-found errors do not match the retry test |
| InstrumentsApi.IdTextCanTriggerRetry | src/app/api/instruments/route.ts:136-163 | an unparsable id text that mentions a prepared statement makes a PUT retry and answer "Failed to update instrument after retry" |
| InstrumentsApi.TransientFaultIsInvisible | src/app/api/instruments/route.ts:136-156 | a first prepared-statement error followed by a clean reconnect and retry gives the same table and result as a clean request |
| InstrumentsApi.PianoScenario | src/app/api/instruments/route.ts:51-217 | create, rename through the returned id text, then delete through it: each step succeeds, the table ends with its original rows, and the listing shows no row under that id |
| InstrumentsApi.InstrumentService.constructor | src/lib/prisma.ts:1-83 | the service starts on a given table that satisfies the id invariant |
| InstrumentsApi.InstrumentService.RunQuery | src/app/api/instruments/route.ts:124-129 | running a query on the mutable table is `Execute`, and keeps the id invariant |
| InstrumentsApi.InstrumentService.Call | src/app/api/instruments/route.ts:123-135 | one try body on the mutable table is `Attempt` |
| InstrumentsApi.InstrumentService.WithRetry | src/app/api/instruments/route.ts:136-164 | the try/catch with its reconnect and retry is `RunWithRetry` |
| InstrumentsApi.InstrumentService.Get | src/app/api/instruments/route.ts:5-48 | the GET handler on the mutable table is `GetReply` |
| InstrumentsApi.InstrumentService.Post | src/app/api/instruments/route.ts:51-108 | the POST handler on the mutable table is `PostReply` |
| InstrumentsApi.InstrumentService.Put | src/app/api/instruments/route.ts:111-170 | the PUT handler on the mutable table is `PutReply` |
| InstrumentsApi.InstrumentService.Delete | src/app/api/instruments/route.ts:173-217 | the DELETE handler on the mutable table is `DeleteReply` |
| ItemList.ReplaceById | src/app/instruments/data-table.tsx:61-63 | same length; every entry with the id becomes the given record and every other entry is kept in place |
| ItemList.RenameById | src/app/instruments/data-table.tsx:78-80 | same length and ids; entries with the id take the new name and every other entry is kept |
| ItemList.RemoveById | src/app/instruments/data-table.tsx:104 | no entry with the id is left, every remaining entry was there, and every entry with another id remains |
| ItemList.RemoveDistributes | src/app/instruments/data-table.tsx:68 | filtering a concatenation filters each part |
| ItemList.RemoveFresh | src/app/instruments/data-table.tsx:68 | filtering out an id the list does not hold changes nothing |
| ItemList.ReplaceFresh | src/app/instruments/data-table.tsx:61-63 | replacing an id the list does not hold changes nothing |
| ItemList.ReplaceDistributes | src/app/instruments/data-table.tsx:61-63 | replacing in a concatenation replaces in each part |
| ItemList.DropPlaceholder | src/app/instruments/data-table.tsx:49-68 | dropping a fresh placeholder that was appended restores the list |
| ItemList.SwapPlaceholder | src/app/instruments/data-table.tsx:49-63 | swapping a fresh appended placeholder gives the list plus the server's record |
| ItemList.RemoveIdempotent | src/app/instruments/data-table.tsx:104 | filtering the same id twice is filtering it once |
| DataTable.PlaceholderSettles | src/app/instruments/data-table.tsx:46-71 | on a list loaded from the API, the placeholder settles into the list plus the created record, or the list unchanged |
| DataTable.InstrumentsTable.constructor | src/app/instruments/data-table.tsx:23-28 | the initial state: an empty list, loading, not editing, not adding |
| DataTable.InstrumentsTable.FetchInstruments | src/app/instruments/data-table.tsx:34-44 | the list becomes the fetched data, or stays when the request threw; loading ends either way |
| DataTable.InstrumentsTable.BeginAdd | src/app/instruments/data-table.tsx:47-49 | the placeholder is appended |
| DataTable.InstrumentsTable.SettleAdd | src/app/instruments/data-table.tsx:58-70 | the placeholder is swapped for the created record, or filtered out |
| DataTable.InstrumentsTable.AddInstrument | src/app/instruments/data-table.tsx:46-71 | with a fresh placeholder id, an add ends with the list plus the created record, or the list unchanged; after a failure no placeholder remains |
| DataTable.InstrumentsTable.BeginUpdate | src/app/instruments/data-table.tsx:73-80 | snapshot taken, then the entries with the id renamed |
| DataTable.InstrumentsTable.BeginDelete | src/app/instruments/data-table.tsx:99-104 | snapshot taken, then the entries with the id filtered out |
| DataTable.InstrumentsTable.Settle | src/app/instruments/data-table.tsx:92-96 | success keeps the optimistic list; failure restores the snapshot |
| DataTable.InstrumentsTable.UpdateInstrument | src/app/instruments/data-table.tsx:73-97 | a rename ends renamed on success and exactly as before on failure |
| DataTable.InstrumentsTable.DeleteInstrument | src/app/instruments/data-table.tsx:99-121 | a delete ends filtered on success and exactly as before on failure |
| DataTable.InstrumentsTable.SaveNew | src/app/instruments/data-table.tsx:140-146 | with an empty name nothing happens; otherwise the placeholder is appended, the input is cleared and the add row closes |
| DataTable.InstrumentsTable.StartEdit | src/app/instruments/data-table.tsx:229-232 | editing starts on that row with its current name |
| DataTable.InstrumentsTable.SaveEdit | src/app/instruments/data-table.tsx:202-209 | with an empty edited name nothing happens; otherwise the row is renamed optimistically, editing ends, and the snapshot is handed back |
| InstrumentListView.InstrumentList.constructor | src/app/private/components/InstrumentList.tsx:18-23 | the list starts as the server-rendered instruments, with empty inputs |
| InstrumentListView.InstrumentList.HandleCreate | src/app/private/components/InstrumentList.tsx:25-47 | a blank name or a failed request changes nothing; otherwise the created record is appended and the form resets |
| InstrumentListView.InstrumentList.HandleUpdate | src/app/private/components/InstrumentList.tsx:49-73 | a blank name or a failed request changes nothing; otherwise the entries with the id become the updated record and editing ends |
| InstrumentListView.InstrumentList.HandleDelete | src/app/private/components/InstrumentList.tsx:75-90 | the entries with the id are filtered out exactly when the user confirmed and the request succeeded |
| InstrumentListView.InstrumentList.StartEditing | src/app/private/components/InstrumentList.tsx:92-95 | editing starts on that instrument with its current name |
| LoginActions.Validate | src/app/login/actions.ts:16-34 | each message is given exactly when its check is the first to fail: a missing field, then an email without "@" or ".", then a password under 6 characters; None exactly when all pass |
| LoginActions.IncludesChar | src/app/login/actions.ts:24 | `includes` of a one-character string is membership of that character |
| LoginActions.Login | src/app/login/actions.ts:8-50 | a failed check redirects with its message; otherwise the provider's error redirects with its message, and a sign-in goes to /private |
| LoginActions.Signup | src/app/login/actions.ts:52-111 | a failed check redirects with its message; otherwise the provider's error redirects with its message, and a returned user is sent where `SignedUpRedirect` says |
| LoginActions.SignedUpRedirect | src/app/login/actions.ts:94-110 | an empty identities list means "already registered"; otherwise a confirmation timestamp means the confirmation page; otherwise /private |
| LoginActions.SameValidation | src/app/login/actions.ts:60-78 | login and signup reject the same inputs with the same message, whatever the provider would say |
| Header.LocalPart | src/app/private/components/Header.tsx:36 | the text before the first "@": a prefix of the email without "@", followed by "@" when shorter, and the whole email when it has no "@" |
| Header.Initials | src/app/private/components/Header.tsx:34-41 | the upper-cased characters that begin a dot-separated piece of the local part, one per non-empty piece |
| Header.PieceStartsAreFirstChars | src/app/private/components/Header.tsx:37-39 | the first characters of the pieces from `split(".")` are exactly the characters that follow a dot or begin the text |
| Header.FirstCharsCount | src/app/private/components/Header.tsx:38-39 | one initial per non-empty piece: an empty piece contributes nothing |
| Header.OnlyLocalPartCounts | src/app/private/components/Header.tsx:36 | the domain never affects the initials |
| Header.JohnDoe | src/app/private/components/Header.tsx:34-41 | "john.doe@" followed by any domain gives "JD" |
| Header.EmptyEmail | src/app/private/components/Header.tsx:34-41 | the empty email gives the empty string |

## Left out

- Connection lifecycle: the ORM client singleton, `$disconnect`/`$connect`, the one-second pause before a retry, shutdown hooks and logging. Each request's connection behaviour is the `Faults` input.
- Error wording: the ORM's own messages (`NameMissing`, `NameNotText`, `UpdateNotFound`, `DeleteNotFound`) stand in for the real ones. The model relies only on their not mentioning a prepared statement.
- A fault is taken to strike before the query changes anything, so a failed attempt never changes the table.
- `BigInt` of a text is modelled for an optional sign followed by decimal digits, and for the empty text. Surrounding whitespace and the `0x`/`0o`/`0b` forms are not modelled.
- `InstrumentsApi.ToBigInt`: `BigInt` of a JSON number that is not an integer (it throws a RangeError) is not modelled, because `Field` numbers are integers. JSON arrays and objects as field values are not modelled either.
- A JSON body that is itself an array, `null` or a scalar is not modelled. The `Body` datatype holds only the two fields the handlers read.
- The identity column is an unbounded integer. The 64-bit limit, and the gaps a real sequence leaves after failed inserts, are not modelled.
- Concurrency: interleaved requests and interleaved React updates are not modelled. A screen's request is taken to settle before the next user action.
- `JSON.stringify` of the response and the HTTP layer are not modelled; a `Response` is a status and a payload value.
- Toasts, `console` output, rendering and the `loading` screen are not modelled.
- The add row's "Add Instrument" and "Cancel" buttons, and the edit row's "Cancel", only toggle `isAdding` and `editingId`. They are not modelled.
- `DataTable.InstrumentsTable.FetchInstruments`: `data` is whatever list the response body parsed to, or None when `fetch` or `json()` threw. An error body that is not a list is not modelled.
- `InstrumentListView`: ids are integers compared by value. The POST answer carries its id as text, while the server-rendered ids are `bigint`. Each handler only compares an entry's own id with itself, so this does not change the outcome.
- The `/api/instruments/[id]` routes that `InstrumentListView` calls enter only as the request's outcome.
- `LoginActions`: percent-encoding of the error message in the redirect URL, `revalidatePath`, and the auth provider itself (its answer is an input) are not modelled.
- `LoginActions.Validate`: a password's `length` counts UTF-16 code units in JavaScript and characters here. They differ only outside the Basic Multilingual Plane.
- `JsString.UpperChar`: letters outside ASCII are left unchanged, whereas JavaScript's `toUpperCase` also maps them, and some of them to more than one character. The Unicode case tables are not modelled.
- `JsString.ToUpper`: because it applies `UpperChar` to each character, it inherits the same ASCII-only gap.
- `Header.Initials`: JavaScript's `n[0]` takes one UTF-16 code unit, so a piece that starts with a character outside the Basic Multilingual Plane yields a lone surrogate there. Here it yields the whole character. Strings are sequences of characters, not of UTF-16 units.
- `ItemList.RemoveById`: its contract gives membership in both directions but not the order. The order is pinned by `RemoveDistributes` and `RemoveFresh`.
- The payment, checkout and auth-confirmation pages are not part of this model.
