# Stellar testnet faucet: the funding request handler

This project models the one piece of logic in the faucet page: `handleSubmit`
(`src/app/page.tsx`). The handler asks a Stellar Friendbot to fund an address
on testnet or Futurenet and records the outcome in the page's state. That state
is `address`, `loading`, `error`, `success`, `network` and `result`.

The handler runs in five steps:

1. An input gate rejects a blank address.
2. The Friendbot URL is chosen from the network.
3. The response body is normalised. A declared-JSON body is parsed. Any other
   body is read as text, a JSON parse of it is tried, and the text is wrapped
   as `{ text }` when that parse fails.
4. The outcome is classified by JavaScript truthiness: `detail`, then `text`,
   then a default for a rejection; `hash`, then `id`, then a placeholder for a
   success.
5. A catch-all turns any exception into a connection failure, and `loading`
   is always cleared.

Modules:

- `Wrappers` (`wrappers.dfy`): `Option`, which stands for `null` and `undefined`.
- `JsBuiltins` (`js_builtins.dfy`): `String.prototype.trim` and
  `String.prototype.includes`, over strings as sequences of code points.
- `Endpoint` (`endpoint.dfy`): the two Friendbot URLs and the choice between them.
- `ResponseBody` (`response_body.dfy`): field values, parsed bodies, responses,
  truthiness, `||`, and body normalisation.
- `Outcome` (`outcome.dfy`): the `FundingResult` record, the classification,
  the settled state of a request, and the lemmas about it.
- `Page` (`page.dfy`): class `Home`. It holds the six state fields and a
  ghost log of requested URLs. It has the handler as methods: `HandleSubmit`
  holds the gate, `Dispatch` everything after it, `BeginRequest` the pending
  state, and `Resolve` the `try`/`catch`. `BlankResubmitAfterSuccess` is a
  small client scenario. It shows that a blank resubmission after a success
  leaves both the success text and the transaction panel on screen.

A few things are parameters or inputs instead of code:
- The transport is a parameter `fetch: string -> Fetched`. Its result is
  either `Unreachable` (the fetch threw) or an HTTP `Response`.
- `encodeURIComponent` is a parameter `encode: string -> string`.
- The JSON parse of the body text is part of the `Response` value
  (`parsed: Option<Body>`).
- A field value is either a string or a `NonString`. A `NonString` carries its
  truthiness and the text a template literal makes of it.

## Model

| member | source | states |
|---|---|---|
| `JsBuiltins.TrimStart` | src/app/page.tsx:73 | the result is the suffix of the input after a run of leading whitespace, and it does not start with whitespace |
| `JsBuiltins.TrimEnd` | src/app/page.tsx:73 | the result is the prefix of the input before a run of trailing whitespace, and it does not end with whitespace |
| `JsBuiltins.StrippedInfix` | src/app/page.tsx:73 | stripping a leading and then a trailing whitespace run leaves the infix between them, empty exactly for an all-whitespace input |
| `JsBuiltins.Trim` | src/app/page.tsx:73 | `trim()` is the infix of the input between a whitespace-only prefix and a whitespace-only suffix; it is empty exactly when the input is all whitespace, and otherwise both of its ends are non-whitespace |
| `JsBuiltins.IsBlank` | src/app/page.tsx:73 | `!address.trim()` holds exactly when the address is all whitespace (ECMAScript WhiteSpace and LineTerminator code points) |
| `JsBuiltins.Includes` | src/app/page.tsx:104 | `includes` holds exactly when the search string occurs at some index of the string |
| `Endpoint.FriendbotUrl` | src/app/page.tsx:87-99 | the URL aims at the testnet Friendbot exactly when the network is "testnet", and at the Futurenet Friendbot for any other value; its `addr` parameter gives back the encoded untrimmed address |
| `ResponseBody.Or` | src/app/page.tsx:133 | JavaScript `a \|\| b` gives the first operand when it is truthy and the second one otherwise, and it is truthy exactly when either operand is |
| `ResponseBody.Prop` | src/app/page.tsx:118-121 | a field read on a non-null body is defined exactly for an object that has the key, and then it gives that field |
| `ResponseBody.Normalize` | src/app/page.tsx:101-113 | normalisation throws only for a declared-JSON body that does not parse; a body that parses gives its parse whatever the content type; an undeclared body that does not parse becomes exactly `{ text: raw }` |
| `Outcome.FailureReason` | src/app/page.tsx:117-122 | the if/else-if choice of the error message equals `detail \|\| text \|\| 'Please try again.'` |
| `Outcome.TransactionId` | src/app/page.tsx:133 | the identifier is always truthy; it is `hash` if truthy, else `id` if truthy, else "Transaction completed" |
| `Outcome.ReadableBody` | src/app/page.tsx:101-121 | the body whose fields are read is, for an HTTP response, exactly the normalised body when that is not JSON `null`, and nothing otherwise |
| `Outcome.Settle` | src/app/page.tsx:83-142 | after a dispatched request, exactly one of `error` and `success` is non-empty; success means a 2xx answer with a readable body, and then `result.message` equals the success text and the panel is shown; a failure's `error` starts with "Failed to fund account on N." and its result has no identifier |
| `Outcome.SettleAsWritten` | src/app/page.tsx:128-142 | the handler as written: the same `result` and `error` as Settle in every case; it differs only in `success` (see Findings) |
| `Outcome.RejectionOutcome` | src/app/page.tsx:115-127 | a non-2xx answer with a readable body: `error` is "Failed to fund account on N. " followed by the reason, `success` is empty, and the result is {false, "Failed to fund account on N."} with no identifier |
| `Outcome.FundedOutcome` | src/app/page.tsx:128-134 | a 2xx answer with a readable body: `error` is empty; `success` and `result.message` are both "Successfully funded account on N!"; the identifier is TransactionId and is truthy |
| `Outcome.ConnectionOutcome` | src/app/page.tsx:136-142 | the catch-all outcome occurs exactly when something throws before the body's fields are read, and `result.message` alone tells it apart from a rejection |
| `Outcome.TransportFailureIsCaught` | src/app/page.tsx:136-142 | a transport failure yields "Failed to fund account on N. Please try again." and {false, "Error connecting to N Friendbot."} |
| `Outcome.DeclaredJsonParseFailureIsCaught` | src/app/page.tsx:104-105 | a declared-JSON body that does not parse ends in the catch-all outcome |
| `Outcome.PanelShownExactlyOnSuccess` | src/app/page.tsx:252 | the transaction panel is shown for a settled result exactly when it is a success |
| `Outcome.NetworkOnlyChangesWording` | src/app/page.tsx:87-142 | the network does not change the polarity, the identifier or which alert is shown |
| `Outcome.HashBecomesTransactionId` | src/app/page.tsx:133 | a 2xx `{"hash": "abc123"}` gives a successful result with identifier "abc123" |
| `Outcome.EmptyBodyGetsPlaceholder` | src/app/page.tsx:133 | a 2xx `{}` gives the identifier "Transaction completed" |
| `Outcome.DetailReachesErrorText` | src/app/page.tsx:118-123 | a rejection `{"detail": "createAccountAlreadyExist"}` ends the error text with that detail |
| `Outcome.PlainTextReachesErrorText` | src/app/page.tsx:106-123 | a rejection with the undeclared plain-text body "Forbidden" ends the error text with "Forbidden" |
| `Outcome.AsWrittenShowsBothAlerts` | src/app/page.tsx:129-142 | as written, a 2xx answer whose body is JSON `null` leaves both `error` and `success` non-empty |
| `Outcome.AsWrittenDiffersOnlyOnNullFunding` | src/app/page.tsx:128-142 | the handler as written and Settle differ exactly for a 2xx answer whose normalised body is JSON `null` |
| `Page.Home.constructor` | src/app/page.tsx:48-53 | the initial state: empty address, not loading, no alerts, network "testnet", no result |
| `Page.Home.BeginRequest` | src/app/page.tsx:78-81 | the pending state: `loading` is set and `error`, `success` and `result` are cleared |
| `Page.Home.HandleSubmit` | src/app/page.tsx:70-146 | a blank address only sets "Please enter a Stellar address" and issues no request; otherwise one request goes to the network's URL and the state settles to Settle of the answer, with `loading` false, a result present and exactly one alert |
| `Page.Home.Dispatch` | src/app/page.tsx:78-145 | a gated submission appends its URL to the request log and settles `error`, `success` and `result` to Settle, with `loading` false |
| `Page.Home.Resolve` | src/app/page.tsx:83-142 | from the cleared state, the `try`/`catch` leaves `error`, `success` and `result` as Settle gives them; it reads the identifier before writing `success`, the correction under Findings |

Some helpers model source lines directly but have no contract of their own; the rows above cover them:
`ResponseBody.DeclaresJson` (line 104) through `ResponseBody.Normalize`;
`Outcome.Rejected` (lines 123-127), `Outcome.Funded` (lines 129-134) and
`Outcome.ConnectionFailure` (lines 138-142) through `Outcome.Settle`,
`Outcome.RejectionOutcome`, `Outcome.FundedOutcome` and
`Outcome.ConnectionOutcome`; `Outcome.PanelVisible` (line 252) through
`Outcome.PanelShownExactlyOnSuccess` and `Outcome.Settle`.

## Behaviour worth knowing

- An unrecognised network value is not an error. The code tests only for
  "testnet" and sends every other value to the Futurenet Friendbot.
- A successful result always has a `transactionId`. Without `hash` or `id` it
  is the placeholder "Transaction completed".
- The funder's `detail` or `text` goes into the `error` alert. The result
  message is always the fixed "Failed to fund account on N.".
- A body that parses to JSON `null` ends in the connection-failure outcome:
  reading a field of it throws inside the `try`.
- A rejection without `detail` or `text` has the same `error` text as a
  connection failure. Only `result.message` differs.
- A blank submission sets the validation error but keeps the previous
  `success` and `result`. After a success, both alerts and the transaction
  panel are then on screen.

## Left out

- The transport behind `fetch` (lines 89-98). It is the parameter `fetch`, and
  a thrown fetch is `Unreachable`.
- The JSON grammar behind `JSON.parse` and `response.json()`. The parse
  result is an input (`Response.parsed`).
- A failure while reading the body stream in `response.text()`. It would be
  caught like any other exception. It is not a separate input.
- `encodeURIComponent`. It is the parameter `encode`. It throws `URIError` on
  a lone UTF-16 surrogate, which Dafny strings (code points) cannot hold.
- How template literals render values that are not strings. The text is an
  input of `NonString`. A value whose conversion throws is not represented.
- UTF-16 code units. Strings are sequences of code points, which gives the
  same `trim` and `includes` results for the ASCII needle used here.
- `console.error` logging (lines 116 and 137) and `e.preventDefault()` (line 71).
- Overlapping submissions and the last-write-wins race. They need concurrency.
  The only guard is the UI's `disabled={loading}` (lines 192, 213, 220).
- React's batching of state updates. The model writes fields in program order.
  The final state is the same.
- JSX rendering, the theme, the `mounted` hydration guard (lines 54-67) and
  the JSON-LD object (lines 27-47).
- `src/app/layout.tsx`, `src/app/sitemap.ts`, `src/components/header.tsx` and
  `src/components/status-alert.tsx`. They are presentation and static data.

## Findings

| source | as written | input that shows it | evidently intended | confidence | as-written member | corrected member |
|---|---|---|---|---|---|---|
| src/app/page.tsx:129-142 | `setSuccess` runs before `responseData.hash` is read, and the `catch` sets `error` and `result` but never clears `success` | a 2xx response whose body is JSON `null` (for example, declared `application/json` with the text `null`) | a failed submission shows only the error: exactly one of `error` and `success` is non-empty | not executed; high (follows from JavaScript evaluation order) | `Outcome.SettleAsWritten`, with `Outcome.AsWrittenShowsBothAlerts` | `Outcome.Settle` (exactly one alert, proved in its contract), used by `Page.Home.Resolve` |
