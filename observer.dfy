/**
 * The error boundary and its subscriber list: subscribers are appended, removed
 * by a search-then-splice, and notified one by one in list order.
 */
module Observer {
  import opened Wrappers

  /** The concrete subscriber classes. Neither has properties. */
  datatype SubscriberClass = LoggerSubscriber | RemoteNotifySubscriber

  class Subscriber {
    const cls: SubscriberClass

    constructor (cls: SubscriberClass)
      ensures this.cls == cls
    {
      this.cls := cls;
    }
  }

  /**
   * PHP loose `==` on objects: same class and equal properties. The subscriber
   * classes have no properties, so any two instances of one class are equal.
   */
  predicate LooselyEqual(a: Subscriber, b: Subscriber)
  {
    a.cls == b.cls
  }

  /** `array_search` with loose comparison: the first matching index, or `false` (`None`). */
  function ArraySearch(needle: Subscriber, haystack: seq<Subscriber>): (r: Option<nat>)
    ensures r.Some? ==>
      && r.value < |haystack|
      && LooselyEqual(haystack[r.value], needle)
      && forall j :: 0 <= j < r.value ==> !LooselyEqual(haystack[j], needle)
    ensures r.None? ==> forall j :: 0 <= j < |haystack| ==> !LooselyEqual(haystack[j], needle)
  {
    if haystack == [] then None
    else if LooselyEqual(haystack[0], needle) then Some(0)
    else match ArraySearch(needle, haystack[1..])
      case None => None
      case Some(i) => Some(i + 1)
  }

  /** `array_splice($list, $offset, 1)`: removes the element at `offset`, if there is one. */
  function SpliceOne(list: seq<Subscriber>, offset: nat): (r: seq<Subscriber>)
    ensures offset < |list| ==> |r| == |list| - 1
    ensures offset < |list| ==> forall j :: 0 <= j < |r| ==> r[j] == if j < offset then list[j] else list[j + 1]
    ensures offset >= |list| ==> r == list
  {
    if offset < |list| then list[..offset] + list[offset + 1..] else list
  }

  /**
   * The list after `unsubscribe` as written: the index found by `array_search`,
   * where `false` is taken by `array_splice` as offset 0. A non-empty list
   * always loses exactly one entry, whether or not the subscriber is in it.
   */
  function Unsubscribed(list: seq<Subscriber>, subscriber: Subscriber): (r: seq<Subscriber>)
    ensures list == [] ==> r == []
    ensures list != [] ==> |r| == |list| - 1
    ensures list != [] ==> exists i :: 0 <= i < |list| && r == list[..i] + list[i + 1..]
  {
    var index := match ArraySearch(subscriber, list) case Some(i) => i case None => 0;
    SpliceOne(list, index)
  }

  /** The list after an `unsubscribe` that leaves the list alone when the subscriber is absent. */
  function UnsubscribedIfPresent(list: seq<Subscriber>, subscriber: Subscriber): seq<Subscriber>
  {
    match ArraySearch(subscriber, list)
    case Some(i) => SpliceOne(list, i)
    case None => list
  }

  /** `true` when some entry of the list is loosely equal to `subscriber`. */
  predicate Present(list: seq<Subscriber>, subscriber: Subscriber)
  {
    exists j :: 0 <= j < |list| && LooselyEqual(list[j], subscriber)
  }

  /**
   * Unsubscribing a present subscriber removes exactly the first loosely equal
   * entry and keeps the others in their order.
   */
  lemma UnsubscribePresentRemovesFirstMatch(list: seq<Subscriber>, subscriber: Subscriber)
    requires Present(list, subscriber)
    ensures exists i ::
              && 0 <= i < |list|
              && LooselyEqual(list[i], subscriber)
              && (forall j :: 0 <= j < i ==> !LooselyEqual(list[j], subscriber))
              && Unsubscribed(list, subscriber) == list[..i] + list[i + 1..]
  {
    var i := ArraySearch(subscriber, list).value;
    assert Unsubscribed(list, subscriber) == list[..i] + list[i + 1..];
  }

  /**
   * The defect: unsubscribing a subscriber that is not in the list removes the
   * first subscriber instead (and nothing when the list is empty).
   */
  lemma UnsubscribeAbsentRemovesFirst(list: seq<Subscriber>, subscriber: Subscriber)
    requires !Present(list, subscriber)
    ensures list != [] ==> Unsubscribed(list, subscriber) == list[1..]
    ensures list == [] ==> Unsubscribed(list, subscriber) == []
  {
  }

  /**
   * The intended behaviour: absent subscribers leave the list as it is, present
   * ones are removed exactly as the code as written removes them.
   */
  lemma UnsubscribeIfPresentKeepsAbsent(list: seq<Subscriber>, subscriber: Subscriber)
    ensures !Present(list, subscriber) ==> UnsubscribedIfPresent(list, subscriber) == list
    ensures Present(list, subscriber) ==>
      UnsubscribedIfPresent(list, subscriber) == Unsubscribed(list, subscriber)
      && |UnsubscribedIfPresent(list, subscriber)| == |list| - 1
  {
  }

  /** Matching is by class, not identity: any two instances of one class find the same entry. */
  lemma {:induction false} SearchIgnoresIdentity(list: seq<Subscriber>, a: Subscriber, b: Subscriber)
    requires LooselyEqual(a, b)
    ensures ArraySearch(a, list) == ArraySearch(b, list)
    ensures Unsubscribed(list, a) == Unsubscribed(list, b)
  {
    if list != [] {
      SearchIgnoresIdentity(list[1..], a, b);
    }
  }

  /** The publisher. */
  class ErrorBoundary {
    var subscribers: seq<Subscriber>

    constructor ()
      ensures subscribers == []
    {
      subscribers := [];
    }

    /** `subscribe`: appends at the end, even when the subscriber is already there. */
    method Subscribe(subscriber: Subscriber)
      modifies this
      ensures subscribers == old(subscribers) + [subscriber]
    {
      subscribers := subscribers + [subscriber];
    }

    /** `unsubscribe` as written. */
    method Unsubscribe(subscriber: Subscriber)
      modifies this
      ensures subscribers == Unsubscribed(old(subscribers), subscriber)
    {
      var found := ArraySearch(subscriber, subscribers);
      var index := if found.Some? then found.value else 0;
      subscribers := SpliceOne(subscribers, index);
    }

    /** `unsubscribe` with the absent case handled: nothing is removed. */
    method UnsubscribeIfPresent(subscriber: Subscriber)
      modifies this
      ensures subscribers == UnsubscribedIfPresent(old(subscribers), subscriber)
      ensures !Present(old(subscribers), subscriber) ==> subscribers == old(subscribers)
    {
      var found := ArraySearch(subscriber, subscribers);
      if found.Some? {
        subscribers := SpliceOne(subscribers, found.value);
      }
    }

    /**
     * `notify`: calls `update` once on every entry, in list order. The result is
     * the sequence of subscribers whose `update` was called.
     */
    method Notify() returns (updated: seq<Subscriber>)
      ensures updated == subscribers
    {
      updated := [];
      var i := 0;
      while i < |subscribers|
        invariant 0 <= i <= |subscribers|
        invariant updated == subscribers[..i]
      {
        var subscriber := subscribers[i];
        updated := updated + [subscriber];
        i := i + 1;
      }
    }
  }

  /**
   * The demonstration, continued by two more steps: a logger then a remote
   * notifier are subscribed and both are notified in that order; subscribing the
   * logger again then stores it twice, and unsubscribing a fresh logger removes
   * the first stored one.
   */
  method Demo() returns (notified: seq<Subscriber>, twice: seq<Subscriber>, afterUnsubscribe: seq<Subscriber>)
    ensures |notified| == 2
    ensures notified[0].cls == LoggerSubscriber && notified[1].cls == RemoteNotifySubscriber
    ensures |twice| == 3 && twice[0] == twice[2]
    ensures afterUnsubscribe == twice[1..]
  {
    var errorBoundary := new ErrorBoundary();
    var logger := new Subscriber(LoggerSubscriber);
    var remoteNotifier := new Subscriber(RemoteNotifySubscriber);
    errorBoundary.Subscribe(logger);
    errorBoundary.Subscribe(remoteNotifier);
    notified := errorBoundary.Notify();
    errorBoundary.Subscribe(logger);
    twice := errorBoundary.subscribers;
    var otherLogger := new Subscriber(LoggerSubscriber);
    errorBoundary.Unsubscribe(otherLogger);
    afterUnsubscribe := errorBoundary.subscribers;
  }
}
