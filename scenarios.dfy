/**
 * The scenarios of src/index.test.ts, replayed against the model. A tab is a
 * `SessionStorage`; the test's mocked `tabId` getter (a channel pretending to
 * live in another tab with identifier "x") is a channel whose storage already
 * holds "x". The transport is played by hand: every envelope a channel posts
 * is handed to `Receive` of every other channel with the same name, after the
 * posts, as the awaited timeout in the tests lets the real transport do.
 */
module Scenarios {
  import opened Wrappers
  import opened TabChannels

  const First: ListenerId := 0
  const Second: ListenerId := 1

  /** Four payloads, as the tests post `null` four times. */
  const Four: seq<()> := [(), (), (), ()]

  /** The payloads a sequence of envelopes carries. */
  function Payloads<T>(envs: seq<Envelope<T>>): seq<T>
  {
    seq(|envs|, i requires 0 <= i < |envs| => envs[i].data)
  }

  /**
   * The transport handing `envs`, in order, to the 'message' handler of
   * `receiver`, a channel whose tab already has an identifier. When none of
   * them is ignored, the listeners see one delivery per envelope; when all of
   * them are, nothing happens.
   */
  method Deliver<T>(receiver: TabChannel<T>, envs: seq<Envelope<T>>, rnd: Entropy)
    requires HasStoredId(receiver.session.entries)
    modifies receiver, receiver.session
    ensures receiver.session.entries == old(receiver.session.entries)
    ensures receiver.outbox == old(receiver.outbox)
    ensures (forall i :: 0 <= i < |envs| ==> !Dropped(old(receiver.session.entries[TabIdKey]), envs[i])) ==>
      receiver.log == old(receiver.log) + DeliverAll(old(receiver.store), Payloads(envs)) &&
      receiver.store == After(old(receiver.store), |envs|)
    ensures (forall i :: 0 <= i < |envs| ==> Dropped(old(receiver.session.entries[TabIdKey]), envs[i])) ==>
      receiver.log == old(receiver.log) && receiver.store == old(receiver.store)
  {
    ghost var id := receiver.session.entries[TabIdKey];
    ghost var store0, log0 := receiver.store, receiver.log;
    ghost var accepted := forall i :: 0 <= i < |envs| ==> !Dropped(id, envs[i]);
    ghost var ignored := forall i :: 0 <= i < |envs| ==> Dropped(id, envs[i]);
    for k := 0 to |envs|
      invariant receiver.session.entries == old(receiver.session.entries)
      invariant receiver.outbox == old(receiver.outbox)
      invariant accepted ==> receiver.log == log0 + DeliverAll(store0, Payloads(envs[..k])) && receiver.store == After(store0, k)
      invariant ignored ==> receiver.log == log0 && receiver.store == store0
    {
      receiver.Receive(envs[k], rnd);
      if accepted {
        assert Payloads(envs[..k + 1]) == Payloads(envs[..k]) + [envs[k].data];
        DeliverAllSnoc(store0, Payloads(envs[..k]), envs[k].data);
      }
    }
    assert envs[..|envs|] == envs;
  }

  /**
   * A channel without listeners, in a tab with empty storage, posts `null`
   * four times with the given options: four equal envelopes go out, carrying
   * the identifier generated by the first post.
   */
  method PostFourTimes(sender: TabChannel<()>, options: Option<EmitterOptions>, rnd: Entropy)
    requires sender.session.entries == map[] && sender.outbox == [] && sender.store == Store([], [])
    modifies sender, sender.session
    ensures sender.session.entries == map[TabIdKey := GenerateId(rnd)]
    ensures var e := Envelope(GenerateId(rnd), WantsSelf(options), ());
      sender.outbox == [e, e, e, e] && Payloads(sender.outbox) == Four
    ensures sender.store == old(sender.store) && sender.log == old(sender.log)
  {
    ghost var e := Envelope(GenerateId(rnd), WantsSelf(options), ());
    ghost var entries := map[TabIdKey := e.tabId];
    sender.PostData((), options, rnd);
    assert sender.outbox == [e] && sender.session.entries == entries;
    sender.PostData((), options, rnd);
    assert sender.outbox == [e, e];
    sender.PostData((), options, rnd);
    assert sender.outbox == [e, e, e];
    sender.PostData((), options, rnd);
    assert sender.outbox == [e, e, e, e];
    assert Payloads(sender.outbox) == Four;
  }

  /** With an identifier already stored, the getter returns it. */
  method StoredIdIsReturned(existing: string, rnd: Entropy) returns (id: string)
    requires existing != ""
    ensures id == existing
  {
    var session := new SessionStorage(map[TabIdKey := existing]);
    var channel := new TabChannel<()>("", session);
    id := channel.TabId(rnd);
  }

  /** With empty storage, the getter returns an eight-digit identifier and stores exactly that. */
  method GeneratedIdIsStored(rnd: Entropy) returns (id: string, stored: Option<string>)
    ensures stored == Some(id)
    ensures |id| == 8 && forall i :: 0 <= i < |id| ==> '0' <= id[i] <= '9'
  {
    var session := new SessionStorage(map[]);
    var channel := new TabChannel<()>("", session);
    id := channel.TabId(rnd);
    stored := if TabIdKey in session.entries then Some(session.entries[TabIdKey]) else None;
  }

  /**
   * A persistent and a one-shot listener on a channel of another tab, four
   * posts without options: the persistent listener is called four times,
   * the one-shot listener once.
   */
  method OnceAndDefaultCounts(name: string, rnd: Entropy) returns (defaultCalls: nat, onceCalls: nat)
    ensures defaultCalls == 4 && onceCalls == 1
  {
    var session := new SessionStorage(map[]);
    var otherTab := new SessionStorage(map[TabIdKey := "x"]);
    var tcOn := new TabChannel<()>(name, otherTab);
    var tcPost := new TabChannel<()>(name, session);
    tcOn.OnData(First, None);
    tcOn.OnData(Second, Some(ListenerOptions(Some(true))));
    ghost var start := tcOn.store;
    assert start == Store([Second], [First]);

    PostFourTimes(tcPost, None, rnd);
    ghost var e := Envelope(GenerateId(rnd), false, ());
    assert !Dropped("x", e);
    Deliver(tcOn, tcPost.outbox, rnd);
    assert tcOn.log == DeliverAll(start, Four);

    RepeatedDelivery(start, Four, First);
    RepeatedDelivery(start, Four, Second);
    defaultCalls := CallCount(tcOn.log, First);
    onceCalls := CallCount(tcOn.log, Second);
  }

  /**
   * Four posts without options reach the listener of a channel in another
   * tab four times and the listener of a second channel in the sender's own
   * tab never.
   */
  method SendOnlyToOtherTab(name: string, rnd: Entropy) returns (sameTabCalls: nat, otherTabCalls: nat)
    ensures sameTabCalls == 0 && otherTabCalls == 4
  {
    var session := new SessionStorage(map[]);
    var otherTab := new SessionStorage(map[TabIdKey := "x"]);
    var tcPost := new TabChannel<()>(name, session);
    var tcSameTab := new TabChannel<()>(name, session);
    var tcOtherTab := new TabChannel<()>(name, otherTab);
    tcSameTab.OnData(First, None);
    tcOtherTab.OnData(First, None);
    ghost var start := tcOtherTab.store;

    PostFourTimes(tcPost, None, rnd);
    ghost var e := Envelope(GenerateId(rnd), false, ());
    assert !Dropped("x", e) && Dropped(GenerateId(rnd), e);

    Deliver(tcSameTab, tcPost.outbox, rnd);
    Deliver(tcOtherTab, tcPost.outbox, rnd);
    assert tcSameTab.log == [];
    assert tcOtherTab.log == DeliverAll(start, Four);

    RepeatedDelivery(start, Four, First);
    sameTabCalls := CallCount(tcSameTab.log, First);
    otherTabCalls := CallCount(tcOtherTab.log, First);
  }

  /**
   * Four posts with the self option reach the listener of a channel in
   * another tab four times and the listener of a second channel in the
   * sender's own tab four times as well.
   */
  method SendToBothTabs(name: string, rnd: Entropy) returns (sameTabCalls: nat, otherTabCalls: nat)
    ensures sameTabCalls == 4 && otherTabCalls == 4
  {
    var session := new SessionStorage(map[]);
    var otherTab := new SessionStorage(map[TabIdKey := "x"]);
    var tcPost := new TabChannel<()>(name, session);
    var tcSameTab := new TabChannel<()>(name, session);
    var tcOtherTab := new TabChannel<()>(name, otherTab);
    tcSameTab.OnData(First, None);
    tcOtherTab.OnData(First, None);
    ghost var start := tcOtherTab.store;
    assert tcSameTab.store == start;

    PostFourTimes(tcPost, Some(EmitterOptions(Some(true))), rnd);
    ghost var e := Envelope(GenerateId(rnd), true, ());
    assert !Dropped("x", e) && !Dropped(GenerateId(rnd), e);

    Deliver(tcSameTab, tcPost.outbox, rnd);
    Deliver(tcOtherTab, tcPost.outbox, rnd);
    assert tcSameTab.log == DeliverAll(start, Four);
    assert tcOtherTab.log == DeliverAll(start, Four);

    RepeatedDelivery(start, Four, First);
    sameTabCalls := CallCount(tcSameTab.log, First);
    otherTabCalls := CallCount(tcOtherTab.log, First);
  }
}
