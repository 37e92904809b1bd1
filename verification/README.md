# WhatsApp failover relay — Dafny model

The relay is a stateless webhook handler that sits in front of an origin
server. Each inbound request goes to one of four branches:

- `GET /webhook` answers the platform's subscription-verification challenge.
- `POST /webhook` handles an event delivery. It extracts the sender phones,
  probes the origin's health, and then either forwards the event to the
  origin or sends each sender a canned "we are offline" message through the
  WhatsApp Graph API.
- `/_debug/testgraph` sends one test message to a fixed number.
- Any other request gets `200 "ok"`.

The model has four modules:

- `Wrappers` (wrappers.dfy): the `Option` type.
- `Json` (json.dfy): parsed JSON values, plus the JavaScript semantics the
  handler relies on. These are assumed, not taken from the relay's code:
  - `Member`: reading a property of `undefined` or `null` throws, an object
    yields its field or `undefined`, and any other value yields `undefined`.
  - `ForOf`: `for (x of v ?? [])` visits nothing for `undefined` or `null`,
    an array's elements, or a string's code points, and it throws on
    numbers, booleans and objects.
  - `Truthy`: JavaScript truthiness.
  - `ToStringThrows` and `JoinThrows`: `ToString` throws on a parsed object
    with its own `toString` key, and on an array holding such a value at
    any depth.
- `Extract` (extract.dfy): `extractPhones`.
  - `Senders` gives the truthy `from` values the traversal reaches, in
    order, and whether it finished or was stopped by a TypeError.
  - `FirstOccurrences` is what a JavaScript `Set` keeps of that list, in
    insertion order. Primitive values are merged. Arrays and objects are
    distinct references and are never merged.
  - `ExtractPhones` is the traversal itself: three nested loops plus an
    `aborted` flag that stands for the surrounding `try`/`catch`. It is
    proved to return `Phones(payload)`.
  - Lemmas about `Phones` give where each phone comes from, that nothing
    reached is lost, that there are no duplicates, and that a fault keeps
    what was collected before it.
- `Relay` (relay.dfy): the `fetch` handler.
  - Network outcomes are inputs (`World`): the health probe, the forward,
    and the n-th Graph send.
  - The handler returns the response and the ordered list of outbound HTTP
    calls it made, each with its method, URL, headers and JSON body.
  - The `GRAPH_URL` format and the `sendWhatsApp` envelope are data, each
    with an inverse and a round-trip lemma.

The model follows the code on these points:
- The verify token is the literal `"iptv_webhook_2024"` in the handler, not a
  configured value.
- The healthy delivery path returns `200 "OK"` when the forward does not
  throw, whatever status the forward gets back. Only a forward that throws
  falls through to `202 "Accepted"`.
- Extraction keeps first-occurrence order rather than being an unordered set.
- A fault in the middle of the walk keeps the phones collected before it,
  rather than yielding an empty result.
- Extraction collects any truthy `from` value, not only strings.
- The delivery log line `phones.join(", ")` (main.ts:29) runs outside any
  `try`. A collected `from` such as `{"toString": 1}` therefore makes the
  handler throw before the health probe, even though the walk itself
  tolerates malformed payloads. The model returns `Rejected` with no
  outbound call, and the runtime answers in the handler's place.

## Model

| member | source | states |
|---|---|---|
| `Extract.ExtractPhones` | main.ts:66-75 | the three nested loops under one `try` return exactly `Phones(payload)`: the `Set`-insertion-order first occurrences of the truthy `from`s reached before the first fault |
| `Extract.FirstOccurrencesMembers` | main.ts:67-74 | a value is in the `Set`'s output iff it was added at least once |
| `Extract.FirstOccurrencesDistinct` | main.ts:67-74 | the `Set`'s output never holds a primitive value twice |
| `Extract.MessagesKeepSeen` | main.ts:71-73 | the messages loop only appends: what was collected before it remains a prefix |
| `Extract.ChangesKeepSeen` | main.ts:70-73 | the changes loop only appends to what was collected |
| `Extract.EntriesKeepSeen` | main.ts:69-73 | the entries loop only appends to what was collected |
| `Extract.WalkMessagesAppend` | main.ts:71-73 | walking `a + b` is walking `a`, then `b` only if `a` met no fault |
| `Extract.WalkChangesAppend` | main.ts:70-73 | the same for changes: after a fault, later changes are never visited |
| `Extract.WalkEntriesAppend` | main.ts:69-73 | the same for entries: after a fault, later entries are never visited |
| `Extract.FaultyMessageStops` | main.ts:71-73 | a message whose `from` cannot be read (a `null` message) stops the walk, keeping exactly what the earlier messages gave |
| `Extract.FaultyChangeStops` | main.ts:71-73 | a change whose `value.messages` cannot be reached or iterated stops the walk, keeping what the earlier changes gave |
| `Extract.FaultyEntryStops` | main.ts:70-73 | an entry whose `changes` cannot be reached or iterated (e.g. a `null` entry) stops the walk, keeping what the earlier entries gave |
| `Extract.MessagesProvenance` | main.ts:71-72 | every value the messages loop adds is the truthy `from` of one of its messages |
| `Extract.ChangesProvenance` | main.ts:70-72 | every value the changes loop adds comes from a message of one of its changes |
| `Extract.EntriesProvenance` | main.ts:69-72 | every value the entries loop adds comes from a message of a change of one of its entries |
| `Extract.MessagesComplete` | main.ts:71-72 | a messages loop that meets no fault adds every truthy `from` |
| `Extract.ChangesComplete` | main.ts:70-72 | a changes loop that meets no fault adds every truthy `from` below it |
| `Extract.EntriesComplete` | main.ts:69-72 | an entries loop that meets no fault adds every truthy `from` below it |
| `Extract.PhonesAreSenders` | main.ts:66-75 | every returned phone is the truthy (so never empty) `from` of some `entry[i].changes[j].value.messages[k]` |
| `Extract.PhonesIncludeEverySender` | main.ts:66-75 | when no fault occurs, every such `from` is returned |
| `Extract.PhonesDistinct` | main.ts:67-74 | the result has no repeated primitive value, and no repeats at all when every phone is a string |
| `Extract.MissingEntryYieldsNothing` | main.ts:69 | an absent or `null` `entry` (including the `{}` that replaces an unparsable body) yields `[]` without a fault |
| `Extract.MissingChangesSkipped` | main.ts:70 | an entry with absent or `null` `changes` contributes nothing, and the walk continues |
| `Extract.MissingMessagesSkipped` | main.ts:71 | a change whose `value` has absent or `null` `messages` contributes nothing, and the walk continues |
| `Extract.NullMessageExample` | main.ts:66-75 | for messages `A, B, A, "", null, C` the result is `[A, B]` and the walk was stopped |
| `Extract.ExampleMessagesBeforeNull` | main.ts:71-72 | the messages before the `null` in that example collect `A, B, A` |
| `Extract.ExampleFirstOccurrences` | main.ts:67-74 | the `Set` keeps `[A, B]` of `A, B, A` |
| `Relay.RouteOf` | main.ts:10-62 | `/_debug/testgraph` is diagnostic for every method; every other path, and `/webhook` with neither GET nor POST, falls to the default |
| `Relay.VerifyChallenge` | main.ts:10-21 | 200 with the `hub.challenge` value exactly when `hub.mode` is `subscribe` and `hub.verify_token` is `iptv_webhook_2024`; otherwise 403 `Forbidden` |
| `Relay.SendAutoReplies` | main.ts:46-50 | exactly one send per phone, in list order, each carrying the offline message; the calls made do not depend on any send's outcome, so a failed send does not stop the loop |
| `Relay.Deliver` | main.ts:25-53 | the `POST /webhook` branch. It rejects with no call when the log line cannot join the phones. Otherwise it probes first and answers 200 `OK` iff the origin is healthy and the forward did not throw, else 202 `Accepted`. It forwards the same payload once when healthy, and auto-replies to each phone only when the origin is unhealthy and `SEND_AUTOREPLY` is `"1"` |
| `Relay.HandleRequest` | main.ts:5-63 | the full routing table. GET /webhook is the verification and makes no call. POST /webhook behaves as `Deliver` states. The debug route sends once to the fixed number and answers 200/500. Everything else gets 200 `ok`. The probe runs only on a POST /webhook that does not reject, and only POST /webhook can reject |
| `Relay.ToStringSenderRejects` | main.ts:28-29 | a payload whose only `from` is `{"toString": 1}` yields that object as a phone, and the log line then throws |
| `Relay.RepeatVerification` | main.ts:10-21 | two identical verification requests get the same response, whatever the environment and origin state |
| `Relay.QueryGetFirst` | main.ts:11-13 | `searchParams.get` yields the first parameter with that name, and nothing exactly when there is none |
| `Relay.QueryGetAppend` | main.ts:11-13 | earlier query parameters take precedence over later ones |
| `Relay.VerificationIgnoresOtherParameters` | main.ts:10-21 | parameters other than the three `hub.*` ones never change the verification answer |
| `Relay.GraphUrlRoundTrip` | main.ts:2 | the phone-number id can be read back from `GRAPH_URL(id)` |
| `Relay.GraphUrlOnlyFromId` | main.ts:2 | a URL read as a Graph messages URL for `id` is `GRAPH_URL(id)` |
| `Relay.EnvelopeRoundTrip` | main.ts:94-99 | the send envelope carries the recipient and text unchanged, with `messaging_product` `whatsapp` and `type` `text` |

## Left out

- Network I/O: the health probe, the forward and the Graph sends are never
  performed. Their requests are returned as data, and their outcomes
  (status or thrown error) are inputs in `World`. The n-th Graph send of a
  request reads `World.send(n)`.
- Async/await and the Deno runtime: each request is handled on its own, so
  no interleaving is modelled.
- Logging output (`console.log` / `console.error`), including the response
  body that `sendWhatsApp` logs on failure. The one log expression that can
  throw, `phones.join` at main.ts:29, is modelled.
- URL parsing: the method, the `url.pathname` string and the decoded query
  parameters are inputs.
- `req.json()`: the body is an input `Option<Json>`, and `None` stands for a
  parse failure.
- `JSON.stringify`: the forward carries the payload value itself, and the
  send carries the envelope as a JSON value.
- Numbers are exact rationals (`real`), not IEEE doubles. Rounding by
  `JSON.parse` is part of the parser, which is not modelled.
- A property read on a non-object yields `undefined` here. That holds for the
  keys the walk reads, which are not inherited properties of arrays,
  strings, numbers or booleans. Other keys are not modelled.
- Response details other than status and body text. A missing
  `hub.challenge` (a `null` body) is the empty body.
