/**
 * The `TabChannel<T>` class of src/index.ts: a named broadcast channel between
 * browser tabs with a per-tab identifier, two ordered listener lists and the
 * same-tab filter applied to incoming envelopes.
 *
 * The browser collaborators are replaced by explicit state:
 *  - sessionStorage is a `SessionStorage` object holding a string map, shared by
 *    every channel of one tab;
 *  - crypto.getRandomValues is an `Entropy` parameter (eight random bytes);
 *  - BroadcastChannel.postMessage appends to the channel's `outbox`, and the
 *    'message' handler is the method `Receive`, which a harness calls once per
 *    envelope the transport delivers;
 *  - listeners are opaque ids, and each invocation is appended to `log`.
 */
module TabChannels {
  import opened Wrappers

  // ---------------------------------------------------------------------------
  // Tab identity
  // ---------------------------------------------------------------------------

  /** An unsigned 8-bit value, one element of a Uint8Array. */
  newtype byte = x: int | 0 <= x < 256

  /** The random bytes a fresh identifier is made from: a filled Uint8Array(8). */
  type Entropy = s: seq<byte> | |s| == 8 witness [0, 0, 0, 0, 0, 0, 0, 0]

  /** The sessionStorage key under which the tab identifier is cached. */
  const TabIdKey: string := "tab-channel-id"

  /** JavaScript's `String(n)` for a number below ten: one decimal digit. */
  function DigitText(n: nat): (c: char)
    requires n < 10
    ensures '0' <= c <= '9' && c as int - '0' as int == n
  {
    ('0' as int + n) as char
  }

  /** `bytes.map((x) => x % 10)`. */
  function ReduceMod10(bytes: seq<byte>): seq<nat>
  {
    seq(|bytes|, i requires 0 <= i < |bytes| => bytes[i] as int % 10)
  }

  /** `digits.join('')` for numbers below ten: the concatenation of their decimal texts. */
  function Join(digits: seq<nat>): (s: string)
    requires forall i :: 0 <= i < |digits| ==> digits[i] < 10
    ensures |s| == |digits|
    ensures forall i :: 0 <= i < |s| ==> s[i] == DigitText(digits[i])
  {
    if digits == [] then "" else [DigitText(digits[0])] + Join(digits[1..])
  }

  /** The identifier the getter creates from eight random bytes. */
  function GenerateId(rnd: Entropy): (id: string)
    ensures |id| == 8
    ensures forall i :: 0 <= i < |id| ==> id[i] == DigitText(rnd[i] as int % 10)
    ensures forall i :: 0 <= i < |id| ==> '0' <= id[i] <= '9'
  {
    Join(ReduceMod10(rnd))
  }

  /** The per-tab key/value store (sessionStorage); several channels of one tab share it. */
  class SessionStorage {
    var entries: map<string, string>

    constructor (entries: map<string, string>)
      ensures this.entries == entries
    {
      this.entries := entries;
    }
  }

  /**
   * Whether `getItem(TabIdKey)` yields a truthy value: the key is present and
   * its value is not the empty string.
   */
  predicate HasStoredId(entries: map<string, string>)
  {
    TabIdKey in entries && entries[TabIdKey] != ""
  }

  /** What one read of the `tabId` getter returns, and the storage it leaves. */
  datatype Resolved = Resolved(id: string, entries: map<string, string>)

  /**
   * One read of the `tabId` getter: the cached identifier when there is one,
   * otherwise a generated identifier that is written under `TabIdKey`.
   */
  function ResolveTabId(entries: map<string, string>, rnd: Entropy): (r: Resolved)
    ensures r.id != "" && TabIdKey in r.entries && r.entries[TabIdKey] == r.id
    ensures r.entries.Keys == entries.Keys + {TabIdKey}
    ensures forall k :: k in entries && k != TabIdKey ==> r.entries[k] == entries[k]
    ensures HasStoredId(entries) ==> r.id == entries[TabIdKey] && r.entries == entries
    ensures !HasStoredId(entries) ==> r.id == GenerateId(rnd)
  {
    if HasStoredId(entries) then
      Resolved(entries[TabIdKey], entries)
    else
      var id := GenerateId(rnd);
      Resolved(id, entries[TabIdKey := id])
  }

  /** A second read returns what the first returned and leaves the storage as the first left it. */
  lemma TabIdIdempotent(entries: map<string, string>, first: Entropy, second: Entropy)
    ensures ResolveTabId(ResolveTabId(entries, first).entries, second) == ResolveTabId(entries, first)
  {
  }

  /** The identifiers returned by successive reads of the getter, each offered its own random bytes. */
  function ReadIds(entries: map<string, string>, rnds: seq<Entropy>): (ids: seq<string>)
    ensures |ids| == |rnds|
    decreases |rnds|
  {
    if rnds == [] then []
    else
      var r := ResolveTabId(entries, rnds[0]);
      [r.id] + ReadIds(r.entries, rnds[1..])
  }

  /** Within one tab the identifier never changes: every read returns what the first read returned. */
  lemma {:induction false} TabIdStable(entries: map<string, string>, rnds: seq<Entropy>)
    requires rnds != []
    ensures forall i :: 0 <= i < |rnds| ==> ReadIds(entries, rnds)[i] == ResolveTabId(entries, rnds[0]).id
    decreases |rnds|
  {
    var r := ResolveTabId(entries, rnds[0]);
    if |rnds| > 1 {
      TabIdIdempotent(entries, rnds[0], rnds[1]);
      TabIdStable(r.entries, rnds[1..]);
      forall i | 1 <= i < |rnds|
        ensures ReadIds(entries, rnds)[i] == r.id
      {
        assert ReadIds(entries, rnds)[i] == ReadIds(r.entries, rnds[1..])[i - 1];
      }
    }
  }

  // ---------------------------------------------------------------------------
  // Listeners, options and envelopes
  // ---------------------------------------------------------------------------

  /** A listener callback, identified opaquely. */
  type ListenerId = nat

  /** `ListenerOptions`: `once` may be left undefined. */
  datatype ListenerOptions = ListenerOptions(once: Option<bool>)

  /** `EmitterOptions`: `self` may be left undefined. */
  datatype EmitterOptions = EmitterOptions(self: Option<bool>)

  /** `options?.once` is truthy. */
  predicate WantsOnce(options: Option<ListenerOptions>)
  {
    options.Some? && options.value.once == Some(true)
  }

  /** `!!options?.self`: the self flag, with an absent option read as false. */
  predicate WantsSelf(options: Option<EmitterOptions>)
  {
    options.Some? && options.value.self == Some(true)
  }

  /** `Store<T>`: the one-shot and the persistent listeners, each in registration order. */
  datatype Store = Store(once: seq<ListenerId>, default: seq<ListenerId>)

  /** One call of a listener with a payload. */
  datatype Invocation<T> = Invocation(listener: ListenerId, data: T)

  /** `ChannelData<T>`: the envelope posted on the broadcast channel. */
  datatype Envelope<T> = Envelope(tabId: string, self: bool, data: T)

  /** The calls one `forEach((x) => x(data))` pass over `listeners` makes. */
  function Calls<T>(listeners: seq<ListenerId>, data: T): (calls: seq<Invocation<T>>)
    ensures |calls| == |listeners|
  {
    if listeners == [] then [] else [Invocation(listeners[0], data)] + Calls(listeners[1..], data)
  }

  /** The i-th call of a pass goes to the i-th listener of the list, with the payload. */
  lemma {:induction false} CallsAt<T>(listeners: seq<ListenerId>, data: T, i: nat)
    requires i < |listeners|
    ensures Calls(listeners, data)[i] == Invocation(listeners[i], data)
  {
    if i > 0 {
      CallsAt(listeners[1..], data, i - 1);
    }
  }

  /** A pass over two lists in turn makes the calls of the first, then those of the second. */
  lemma {:induction false} CallsConcat<T>(a: seq<ListenerId>, b: seq<ListenerId>, data: T)
    ensures Calls(a + b, data) == Calls(a, data) + Calls(b, data)
  {
    if a != [] {
      assert (a + b)[1..] == a[1..] + b;
      CallsConcat(a[1..], b, data);
    } else {
      assert a + b == b;
    }
  }

  /** Extending a pass by one listener extends its calls by one call, at the end. */
  lemma CallsSnoc<T>(listeners: seq<ListenerId>, i: nat, data: T)
    requires i < |listeners|
    ensures Calls(listeners[..i + 1], data) == Calls(listeners[..i], data) + [Invocation(listeners[i], data)]
  {
    assert listeners[..i + 1] == listeners[..i] + [listeners[i]];
    CallsConcat(listeners[..i], [listeners[i]], data);
  }

  /**
   * The calls one `emit(data)` makes: every persistent listener in
   * registration order, then every one-shot listener in registration order.
   */
  function Dispatch<T>(store: Store, data: T): (calls: seq<Invocation<T>>)
    ensures |calls| == |store.default| + |store.once|
  {
    Calls(store.default, data) + Calls(store.once, data)
  }

  /** `emit` keeps registration order within each list and calls persistent listeners first. */
  lemma DispatchOrder<T>(store: Store, data: T)
    ensures |Dispatch(store, data)| == |store.default| + |store.once|
    ensures forall i :: 0 <= i < |store.default| ==> Dispatch(store, data)[i] == Invocation(store.default[i], data)
    ensures forall j :: 0 <= j < |store.once| ==>
      Dispatch(store, data)[|store.default| + j] == Invocation(store.once[j], data)
  {
    forall i | 0 <= i < |store.default| {
      CallsAt(store.default, data, i);
    }
    forall j | 0 <= j < |store.once| {
      CallsAt(store.once, data, j);
    }
  }

  /** The listener store `emit` leaves: the one-shot list emptied, the persistent list kept. */
  function Drained(store: Store): Store
  {
    store.(once := [])
  }

  /** The calls successive `emit`s make, one per payload in order, starting from `store`. */
  function DeliverAll<T>(store: Store, payloads: seq<T>): (calls: seq<Invocation<T>>)
    ensures |calls| == |payloads| * |store.default| + (if payloads == [] then 0 else |store.once|)
    decreases |payloads|
  {
    if payloads == [] then [] else Dispatch(store, payloads[0]) + DeliverAll(Drained(store), payloads[1..])
  }

  /** The listener store after `n` deliveries from `store`: the one-shot list is gone after the first. */
  function After(store: Store, n: nat): Store
  {
    if n == 0 then store else Drained(store)
  }

  /** One more delivery appends the calls of one `emit` over the store the earlier deliveries left. */
  lemma {:induction false} DeliverAllSnoc<T>(store: Store, payloads: seq<T>, data: T)
    ensures DeliverAll(store, payloads + [data]) == DeliverAll(store, payloads) + Dispatch(After(store, |payloads|), data)
    decreases |payloads|
  {
    if payloads == [] {
      assert ([] + [data])[1..] == [];
    } else {
      assert (payloads + [data])[1..] == payloads[1..] + [data];
      DeliverAllSnoc(Drained(store), payloads[1..], data);
    }
  }

  /** How many times `l` appears in a listener list. */
  function Occurrences(listeners: seq<ListenerId>, l: ListenerId): nat
  {
    if listeners == [] then 0 else (if listeners[0] == l then 1 else 0) + Occurrences(listeners[1..], l)
  }

  /** How many of `calls` invoke listener `l`. */
  function CallCount<T>(calls: seq<Invocation<T>>, l: ListenerId): nat
  {
    if calls == [] then 0 else (if calls[0].listener == l then 1 else 0) + CallCount(calls[1..], l)
  }

  lemma {:induction false} CallCountConcat<T>(a: seq<Invocation<T>>, b: seq<Invocation<T>>, l: ListenerId)
    ensures CallCount(a + b, l) == CallCount(a, l) + CallCount(b, l)
  {
    if a != [] {
      assert (a + b)[1..] == a[1..] + b;
      CallCountConcat(a[1..], b, l);
    } else {
      assert a + b == b;
    }
  }

  /** One pass over a list calls each listener as often as it was registered in that list. */
  lemma {:induction false} CallCountOfCalls<T>(listeners: seq<ListenerId>, data: T, l: ListenerId)
    ensures CallCount(Calls(listeners, data), l) == Occurrences(listeners, l)
  {
    if listeners != [] {
      CallCountOfCalls(listeners[1..], data, l);
    }
  }

  lemma MulSucc(n: nat, k: nat)
    ensures (n + 1) * k == n * k + k
  {
  }

  /**
   * Over N deliveries a listener is called N times for each persistent
   * registration, and once (in the first delivery) for each one-shot
   * registration.
   */
  lemma {:induction false} RepeatedDelivery<T>(store: Store, payloads: seq<T>, l: ListenerId)
    ensures CallCount(DeliverAll(store, payloads), l) ==
      |payloads| * Occurrences(store.default, l) + (if payloads == [] then 0 else Occurrences(store.once, l))
    decreases |payloads|
  {
    if payloads != [] {
      var first, rest := payloads[0], payloads[1..];
      var now, later := Dispatch(store, first), DeliverAll(Drained(store), rest);
      var k, m := Occurrences(store.default, l), Occurrences(store.once, l);
      CallCountOfCalls(store.default, first, l);
      CallCountOfCalls(store.once, first, l);
      CallCountConcat(Calls(store.default, first), Calls(store.once, first), l);
      assert CallCount(now, l) == k + m;
      CallCountConcat(now, later, l);
      RepeatedDelivery(Drained(store), rest, l);
      assert DeliverAll(store, payloads) == now + later;
      var total := |rest| * k;
      assert CallCount(later, l) == total;
      assert |payloads| == |rest| + 1;
      MulSucc(|rest|, k);
    }
  }

  /** The payloads of the calls to listener `l`, in the order the calls were made. */
  function CallsTo<T>(calls: seq<Invocation<T>>, l: ListenerId): seq<T>
  {
    if calls == [] then []
    else (if calls[0].listener == l then [calls[0].data] else []) + CallsTo(calls[1..], l)
  }

  /** `n` copies of `data`. */
  function Repeat<T>(data: T, n: nat): (r: seq<T>)
    ensures |r| == n
  {
    seq(n, _ => data)
  }

  lemma {:induction false} CallsToConcat<T>(a: seq<Invocation<T>>, b: seq<Invocation<T>>, l: ListenerId)
    ensures CallsTo(a + b, l) == CallsTo(a, l) + CallsTo(b, l)
  {
    if a != [] {
      assert (a + b)[1..] == a[1..] + b;
      CallsToConcat(a[1..], b, l);
    } else {
      assert a + b == b;
    }
  }

  /** One pass hands `l` the payload once per registration of `l` in the list. */
  lemma {:induction false} CallsToOfCalls<T>(listeners: seq<ListenerId>, data: T, l: ListenerId)
    ensures CallsTo(Calls(listeners, data), l) == Repeat(data, Occurrences(listeners, l))
  {
    if listeners != [] {
      CallsToOfCalls(listeners[1..], data, l);
      var n := Occurrences(listeners[1..], l);
      assert Repeat(data, n + 1) == [data] + Repeat(data, n);
      assert Repeat(data, 0) == [];
    }
  }

  /**
   * A listener registered once as persistent (and not as one-shot) receives
   * the payloads of successive deliveries in order, each exactly once,
   * whatever other listeners the channel has.
   */
  lemma {:induction false} DeliverAllInOrder<T>(store: Store, payloads: seq<T>, l: ListenerId)
    requires Occurrences(store.default, l) == 1 && Occurrences(store.once, l) == 0
    ensures CallsTo(DeliverAll(store, payloads), l) == payloads
    decreases |payloads|
  {
    if payloads != [] {
      var first, rest := payloads[0], payloads[1..];
      CallsToOfCalls(store.default, first, l);
      CallsToOfCalls(store.once, first, l);
      assert Repeat(first, 1) == [first] && Repeat(first, 0) == [];
      CallsToConcat(Calls(store.default, first), Calls(store.once, first), l);
      CallsToConcat(Dispatch(store, first), DeliverAll(Drained(store), rest), l);
      assert Occurrences(Drained(store).once, l) == 0;
      DeliverAllInOrder(Drained(store), rest, l);
      assert payloads == [first] + rest;
    }
  }

  /**
   * Whether the 'message' handler of a channel whose tab identifier is
   * `receiverId` ignores `env`: same tab and no self flag.
   */
  predicate Dropped<T>(receiverId: string, env: Envelope<T>)
  {
    receiverId == env.tabId && !env.self
  }

  /**
   * A channel that shares the sender's sessionStorage ignores the sender's
   * envelope exactly when its self flag is off.
   */
  lemma SameTabFilter<T>(entries: map<string, string>, senderRnd: Entropy, receiverRnd: Entropy, self: bool, data: T)
    ensures var sent := ResolveTabId(entries, senderRnd);
      Dropped(ResolveTabId(sent.entries, receiverRnd).id, Envelope(sent.id, self, data)) <==> !self
  {
    TabIdIdempotent(entries, senderRnd, receiverRnd);
  }

  // ---------------------------------------------------------------------------
  // The channel
  // ---------------------------------------------------------------------------

  class TabChannel<T> {
    /** The BroadcastChannel name; every channel with this name is a peer. */
    const name: string
    /** The sessionStorage of the tab this channel lives in. */
    const session: SessionStorage
    /** The listener store. */
    var store: Store
    /** Every listener invocation made by this channel, in order. */
    var log: seq<Invocation<T>>
    /** Every envelope handed to BroadcastChannel.postMessage, in order. */
    var outbox: seq<Envelope<T>>

    /** Opens the channel; the tab identifier is not read until first needed. */
    constructor (name: string, session: SessionStorage)
      ensures this.name == name && this.session == session
      ensures store == Store([], []) && log == [] && outbox == []
    {
      this.name := name;
      this.session := session;
      store := Store([], []);
      log := [];
      outbox := [];
    }

    /** The `tabId` getter: read the cached identifier, or create and cache one. */
    method TabId(rnd: Entropy) returns (id: string)
      modifies session
      ensures Resolved(id, session.entries) == ResolveTabId(old(session.entries), rnd)
    {
      if TabIdKey in session.entries && session.entries[TabIdKey] != "" {
        id := session.entries[TabIdKey];
        return;
      }
      id := Join(ReduceMod10(rnd));
      session.entries := session.entries[TabIdKey := id];
    }

    /**
     * `emit(data)`: call every persistent listener, then every one-shot
     * listener, then empty the one-shot list.
     */
    method Emit(data: T)
      modifies this`store, this`log
      ensures store == Drained(old(store))
      ensures log == old(log) + Dispatch(old(store), data)
    {
      var persistent, oneShot := store.default, store.once;
      ForEach(persistent, data);
      ForEach(oneShot, data);
      assert Dispatch(old(store), data) == Calls(persistent, data) + Calls(oneShot, data);
      store := Store([], persistent);
    }

    /** `listeners.forEach((x) => x(data))`: call each listener in turn. */
    method ForEach(listeners: seq<ListenerId>, data: T)
      modifies this`log
      ensures log == old(log) + Calls(listeners, data)
    {
      for i := 0 to |listeners|
        invariant log == old(log) + Calls(listeners[..i], data)
      {
        CallsSnoc(listeners, i, data);
        log := log + [Invocation(listeners[i], data)];
      }
      assert listeners[..|listeners|] == listeners;
    }

    /** `onData(listener, options)`: append the listener to the one-shot or the persistent list. */
    method OnData(listener: ListenerId, options: Option<ListenerOptions>)
      modifies this`store
      ensures WantsOnce(options) ==> store == Store(old(store.once) + [listener], old(store.default))
      ensures !WantsOnce(options) ==> store == Store(old(store.once), old(store.default) + [listener])
    {
      if options.Some? && options.value.once == Some(true) {
        store := store.(once := store.once + [listener]);
      } else {
        store := store.(default := store.default + [listener]);
      }
    }

    /**
     * `postData(data, options)`: post one envelope carrying this tab's
     * identifier, then, when the self option is set, emit locally.
     */
    method PostData(data: T, options: Option<EmitterOptions>, rnd: Entropy)
      modifies this`store, this`log, this`outbox, session
      ensures var r := ResolveTabId(old(session.entries), rnd);
        session.entries == r.entries && outbox == old(outbox) + [Envelope(r.id, WantsSelf(options), data)]
      ensures WantsSelf(options) ==> store == Drained(old(store)) && log == old(log) + Dispatch(old(store), data)
      ensures !WantsSelf(options) ==> store == old(store) && log == old(log)
    {
      var id := TabId(rnd);
      outbox := outbox + [Envelope(id, options.Some? && options.value.self == Some(true), data)];
      if options.Some? && options.value.self == Some(true) {
        Emit(data);
      }
    }

    /**
     * The 'message' handler the constructor registers, applied to one envelope:
     * ignore it when it comes from this tab without the self flag, otherwise emit.
     */
    method Receive(env: Envelope<T>, rnd: Entropy)
      modifies this`store, this`log, session
      ensures session.entries == ResolveTabId(old(session.entries), rnd).entries
      ensures Dropped(ResolveTabId(old(session.entries), rnd).id, env) ==> store == old(store) && log == old(log)
      ensures !Dropped(ResolveTabId(old(session.entries), rnd).id, env) ==>
        store == Drained(old(store)) && log == old(log) + Dispatch(old(store), env.data)
    {
      var id := TabId(rnd);
      if id == env.tabId && !env.self {
        return;
      }
      Emit(env.data);
    }
  }
}
