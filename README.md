# tab-channel, modelled in Dafny

A model of `TabChannel<T>`, the single class of the tab-channel library: a
named broadcast channel between the tabs of one browser origin. A channel
keeps two ordered lists of listeners (persistent and one-shot), knows the
identifier of the tab it lives in (created lazily and cached in the tab's
sessionStorage under `tab-channel-id`), wraps every posted payload in an
envelope `{tabId, self, data}`, and, on receipt, ignores envelopes that come
from its own tab unless their `self` flag is set.

Files:

- `wrappers.dfy` — module `Wrappers`: `Option`, standing for an `undefined`
  option or property.
- `tab_channel.dfy` — module `TabChannels`: the identifier generation and the
  `tabId` getter as functions over the storage map, the listener store, the
  envelope, the dispatch specification and its lemmas, and the class
  `TabChannel<T>` whose methods update the listener store, the invocation log,
  the outbox and the shared `SessionStorage` in place.
- `scenarios.dfy` — module `Scenarios`: the scenarios of `src/index.test.ts`
  replayed against the class, with a hand-played transport.

How the browser is represented:

- sessionStorage is a `SessionStorage` object holding a `map<string, string>`;
  every channel of one tab holds the same object, so they share one identifier.
- `crypto.getRandomValues(new Uint8Array(8))` is a parameter `rnd: Entropy`, a
  sequence of exactly eight values in 0..255, passed to every operation that
  may read the `tabId` getter.
- A listener is an opaque `ListenerId`; calling it appends
  `Invocation(listener, data)` to the channel's `log`.
- `BroadcastChannel.postMessage` appends the envelope to the channel's
  `outbox`; the 'message' handler the constructor registers is the method
  `Receive`, which the transport (in the scenarios, `Scenarios.Deliver`)
  calls once per delivered envelope.
- The tests' mocked `tabId` getter (a channel pretending to live in a tab
  whose identifier is `"x"`) is a channel whose own storage already holds
  `"x"`.

A BroadcastChannel delivers to every other channel object with the same
name, including other channels of the sender's own tab; the check at
src/index.ts:85 keeps such a channel from hearing its own tab's posts without
`self` (src/index.test.ts:76-102, `Scenarios.SendOnlyToOtherTab`).

## Model

| member | source | states |
|---|---|---|
| `TabChannels.Join` | src/index.ts:48-50 | joining numbers below ten gives a string with one character per number: character i is the decimal digit of number i |
| `TabChannels.GenerateId` | src/index.ts:48-50 | a generated identifier has exactly 8 characters, character i is the digit `rnd[i] % 10`, and every character is in '0'..'9' |
| `TabChannels.ResolveTabId` | src/index.ts:45-53 | a read of the getter returns a non-empty identifier that the storage afterwards holds under `tab-channel-id`, other keys untouched; a non-empty cached value is returned with the storage unchanged; an absent or empty one is replaced by the generated identifier |
| `TabChannels.TabIdIdempotent` | src/index.ts:45-53 | a second read returns the first read's identifier and leaves the storage exactly as the first read left it |
| `TabChannels.TabIdStable` | src/index.ts:45-53 | over any number of reads in one tab, every read returns the identifier of the first read |
| `TabChannels.TabChannel.TabId` | src/index.ts:45-53 | the getter, updating the shared storage in place, returns and stores what `ResolveTabId` gives for the old storage |
| `TabChannels.Calls` | src/index.ts:60-61 | one `forEach` pass makes one call per listener in the list |
| `TabChannels.CallsAt` | src/index.ts:60-61 | the i-th call of a pass goes to the i-th registered listener with the payload |
| `TabChannels.CallsConcat` | src/index.ts:60-61 | a pass over two lists in turn makes the first list's calls followed by the second's |
| `TabChannels.CallCountOfCalls` | src/index.ts:60-61 | a pass calls each listener exactly as many times as it occurs in the list |
| `TabChannels.Dispatch` | src/index.ts:59-63 | one `emit` makes one call per persistent and per one-shot registration (contents and order in `DispatchOrder`) |
| `TabChannels.DeliverAll` | src/index.ts:59-63 | N successive `emit`s make N calls per persistent registration plus, when N > 0, one per one-shot registration (per listener in `RepeatedDelivery`) |
| `TabChannels.DispatchOrder` | src/index.ts:59-63 | one `emit` calls every persistent listener in registration order, then every one-shot listener in registration order, with the payload, and nothing else |
| `TabChannels.TabChannel.ForEach` | src/index.ts:60-61 | the loop appends to the log exactly the calls of one pass over the given list |
| `TabChannels.TabChannel.Emit` | src/index.ts:59-63 | the log grows by exactly the dispatch calls for the old store; afterwards the one-shot list is empty and the persistent list unchanged |
| `TabChannels.DeliverAllSnoc` | src/index.ts:59-63 | a further delivery appends one `emit`'s calls over the store left by the earlier deliveries (one-shot list gone after the first) |
| `TabChannels.RepeatedDelivery` | src/index.ts:59-63 | over N deliveries a listener is called N times per persistent registration plus, when N > 0, once per one-shot registration |
| `TabChannels.CallsToOfCalls` | src/index.ts:60-61 | one pass hands a listener the payload once per registration of it in the list |
| `TabChannels.DeliverAllInOrder` | src/index.ts:59-63 | a listener registered once as persistent and not as one-shot receives the payloads of N successive deliveries in order, each exactly once, whatever other listeners the channel has |
| `TabChannels.TabChannel.OnData` | src/index.ts:97-99 | with `once: true` the listener is appended to the one-shot list and the persistent list is unchanged; with `once` false or absent it is appended to the persistent list and the one-shot list is unchanged |
| `TabChannels.TabChannel.PostData` | src/index.ts:106-114 | exactly one envelope is appended to the outbox, carrying the tab identifier read from storage, `self` true exactly when the option is true (absent means false), and the payload; a local `emit` follows exactly when `self` is set, otherwise listeners and store are untouched |
| `TabChannels.TabChannel.Receive` | src/index.ts:80-89 | the handler reads the tab identifier; an envelope from this tab without `self` changes neither log nor store; any other envelope has exactly the effect of `emit(data)` |
| `TabChannels.SameTabFilter` | src/index.ts:83-87 | a channel sharing the sender's storage ignores the sender's envelope if and only if its `self` flag is off |
| `TabChannels.TabChannel.constructor` | src/index.ts:77-90 | a new channel has empty listener lists, has made no calls and posted nothing, and does not touch the storage |
| `Scenarios.Deliver` | src/index.ts:80-89 | handing envelopes in order to a channel of a tab with an identifier: if none is ignored the listeners see one delivery per envelope, if all are ignored nothing changes; the storage and the outbox are untouched |
| `Scenarios.PostFourTimes` | src/index.test.ts:93-96 | four posts from an empty tab send four equal envelopes carrying the identifier generated by the first post |
| `Scenarios.StoredIdIsReturned` | src/index.test.ts:33-37 | with a non-empty identifier stored, the getter returns it |
| `Scenarios.GeneratedIdIsStored` | src/index.test.ts:39-42 | from empty storage, the getter returns an eight-digit identifier and the storage holds exactly that value |
| `Scenarios.OnceAndDefaultCounts` | src/index.test.ts:46-72 | after four posts from another tab, a persistent listener was called four times and a one-shot listener once |
| `Scenarios.SendOnlyToOtherTab` | src/index.test.ts:76-102 | four posts without options reach another tab's listener four times and a same-tab channel's listener never |
| `Scenarios.SendToBothTabs` | src/index.test.ts:104-130 | four posts with `self` reach both the other tab's listener and the same-tab channel's listener four times |

## Left out

- BroadcastChannel itself (src/index.ts:78, :107): delivery to other contexts, exclusion of the sending object, asynchrony and isolation between channel names are platform behaviour. The model keeps an outbox per channel and a transport that the scenarios play by hand; the channel `name` is stored but nothing is proved about it.
- Real randomness and real storage (src/index.ts:46-51): `crypto.getRandomValues` is the `Entropy` parameter and sessionStorage is the `SessionStorage` object; clearing the storage between tests is modelled by starting each scenario with a fresh, empty one.
- Listener bodies and exceptions: listeners are opaque ids that always return, so the model says nothing about a throwing listener ending a `forEach` pass early.
- Re-entrant registration during `emit`: a listener cannot call `onData` in the model, so one-shot listeners added mid-dispatch (which src/index.ts:62 discards) are outside it.
- Timing of the self delivery: `postData` emits synchronously after the send; the model's `PostData` does the same, and remote deliveries happen whenever the transport calls `Receive`.
- Malformed envelopes: the handler destructures whatever arrives; the model's `Receive` takes a well-formed `Envelope`.
- Random bytes on demand: the getter draws bytes only when it generates; the model's getter, `PostData` and `Receive` take them on every call and ignore them when an identifier is cached.
