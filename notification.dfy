/**
 * The notification helper of frontend/src/components/Notification.jsx: the
 * style lookup of the `Notification` component and the queue built by
 * `createNotificationSystem`.
 *
 * Subscriber callbacks are opaque: a callback is identified by a number (the
 * source compares callbacks by reference), and calling one is recorded as a
 * `Delivery` appended to the `delivered` log, so what every subscriber was
 * told, and in which order, is part of the state.
 */
module Notification {
  import opened JsBuiltins

  /** The four entries of `notificationTypes`. */
  datatype Style = Success | Error | Info | Warning

  /**
   * The outcome of `notificationTypes[type] || notificationTypes.info`:
   * one of the four styles, or, for a name that every object inherits
   * (`toString`, `constructor`, ...), a truthy value without an icon.
   */
  datatype StyleLookup = Styled(style: Style) | Inherited

  const DefaultKind := "info"
  const DefaultDuration := 5000

  function StyleOf(kind: string): (r: StyleLookup)
    ensures kind == "success" ==> r == Styled(Success)
    ensures kind == "error" ==> r == Styled(Error)
    ensures kind == "info" ==> r == Styled(Info)
    ensures kind == "warning" ==> r == Styled(Warning)
    ensures r == Inherited <==> kind in ObjectPrototypeMembers
  {
    if kind == "success" then Styled(Success)
    else if kind == "error" then Styled(Error)
    else if kind == "info" then Styled(Info)
    else if kind == "warning" then Styled(Warning)
    else if kind in ObjectPrototypeMembers then Inherited
    else Styled(Info)
  }

  /** A type name that is not one of the four, nor an inherited member, is shown in the info style. */
  lemma UnknownKindFallsBackToInfo(kind: string)
    requires kind !in {"success", "error", "info", "warning"}
    requires kind !in ObjectPrototypeMembers
    ensures StyleOf(kind) == Styled(Info)
  {
  }

  /** An entry of `notificationQueue`. */
  datatype Note = Note(id: string, message: string, kind: string, duration: int)

  /** A subscriber callback, by identity. */
  type Callback = nat

  /** One call `callback(notificationQueue[0] || null)`. */
  datatype Delivery = Delivery(to: Callback, head: Option<Note>)

  /** The calls one `notifySubscribers()` makes: every subscriber, in order, with the same head. */
  function Broadcast(subs: seq<Callback>, head: Option<Note>): seq<Delivery>
  {
    if subs == [] then [] else [Delivery(subs[0], head)] + Broadcast(subs[1..], head)
  }

  /** A broadcast reaches exactly the subscribers, in order, and tells each of them the same head. */
  lemma {:induction false} BroadcastReachesEverySubscriber(subs: seq<Callback>, head: Option<Note>)
    ensures |Broadcast(subs, head)| == |subs|
    ensures forall i :: 0 <= i < |subs| ==> Broadcast(subs, head)[i] == Delivery(subs[i], head)
  {
    if subs != [] {
      BroadcastReachesEverySubscriber(subs[1..], head);
    }
  }

  /** The queue that `notificationQueue.filter(n => n.id !== id)` leaves. */
  function WithoutId(q: seq<Note>, id: string): (r: seq<Note>)
    ensures forall i :: 0 <= i < |r| ==> r[i].id != id
    ensures forall i :: 0 <= i < |q| && q[i].id != id ==> q[i] in r
    ensures forall i :: 0 <= i < |r| ==> r[i] in q
    ensures Subsequence(r, q)
    ensures (forall i :: 0 <= i < |q| ==> q[i].id != id) ==> r == q
    ensures forall n :: Count(r, n) == if n.id != id then Count(q, n) else 0
  {
    var keep := (n: Note) => n.id != id;
    FilterIsSubsequence(q, keep);
    FilterCount(q, keep);
    FilterKeepsAll(q, keep);
    Filter(q, keep)
  }

  /** The closure state of one `createNotificationSystem()` call. */
  class NotificationSystem {
    var queue: seq<Note>
    var subscribers: seq<Callback>
    /** Every callback invocation made so far, oldest first. */
    var delivered: seq<Delivery>

    constructor ()
      ensures queue == [] && subscribers == [] && delivered == []
    {
      queue, subscribers, delivered := [], [], [];
    }

    /** `notificationQueue[0] || null`. */
    function Head(): (r: Option<Note>)
      reads this
      ensures r.Some? <==> queue != []
      ensures r.Some? ==> r.value == queue[0]
    {
      if queue == [] then None else Some(queue[0])
    }

    /** `notifySubscribers`: call every subscriber with the current head. */
    method NotifySubscribers()
      modifies this`delivered
      ensures delivered == old(delivered) + Broadcast(subscribers, Head())
    {
      var i := 0;
      while i < |subscribers|
        invariant 0 <= i <= |subscribers|
        invariant delivered == old(delivered) + Broadcast(subscribers[..i], Head())
      {
        BroadcastAppend(subscribers[..i], subscribers[i], Head());
        assert subscribers[..i + 1] == subscribers[..i] + [subscribers[i]];
        delivered := delivered + [Delivery(subscribers[i], Head())];
        i := i + 1;
      }
      assert subscribers[..i] == subscribers;
    }

    /**
     * `show(message, type, duration)` with the id `Date.now().toString()`
     * given as `id`; an absent type or duration takes its default.
     */
    method Show(id: string, message: string, kind: Option<string>, duration: Option<int>) returns (r: string)
      modifies this`queue, this`delivered
      ensures r == id
      ensures queue == old(queue) + [Note(id, message, kind.GetOr(DefaultKind), duration.GetOr(DefaultDuration))]
      ensures delivered == old(delivered) + (if old(queue) == [] then Broadcast(subscribers, Some(queue[0])) else [])
    {
      var note := Note(id, message, kind.GetOr(DefaultKind), duration.GetOr(DefaultDuration));
      queue := queue + [note];
      if |queue| == 1 {
        NotifySubscribers();
      }
      r := id;
    }

    /** `remove(id)`. */
    method Remove(id: string)
      modifies this`queue, this`delivered
      ensures old(queue) != [] && old(queue)[0].id == id ==>
                queue == old(queue)[1..] && delivered == old(delivered) + Broadcast(subscribers, Head())
      ensures !(old(queue) != [] && old(queue)[0].id == id) ==>
                queue == WithoutId(old(queue), id) && delivered == old(delivered)
    {
      if |queue| > 0 && queue[0].id == id {
        queue := queue[1..];
        NotifySubscribers();
      } else {
        queue := WithoutId(queue, id);
      }
    }

    /** `subscribe(callback)`; the unsubscribe function it returns is `Unsubscribe(callback)`. */
    method Subscribe(cb: Callback)
      modifies this`subscribers
      ensures subscribers == old(subscribers) + [cb]
    {
      subscribers := subscribers + [cb];
    }

    /** The function returned by `subscribe(callback)`: `subscribers.filter(cb => cb !== callback)`. */
    method Unsubscribe(cb: Callback)
      modifies this`subscribers
      ensures subscribers == RemoveAll(old(subscribers), cb)
    {
      subscribers := RemoveAll(subscribers, cb);
    }
  }

  lemma BroadcastAppend(subs: seq<Callback>, cb: Callback, head: Option<Note>)
    ensures Broadcast(subs + [cb], head) == Broadcast(subs, head) + [Delivery(cb, head)]
  {
    if subs != [] {
      assert (subs + [cb])[1..] == subs[1..] + [cb];
      BroadcastAppend(subs[1..], cb, head);
    } else {
      assert Broadcast([cb], head) == [Delivery(cb, head)] + Broadcast([], head);
    }
  }

  /** Every delivery in a broadcast carries the head it was made with: one entry or null, never a later one. */
  lemma {:induction false} BroadcastOnlyCarriesHead(subs: seq<Callback>, q: seq<Note>)
    ensures forall d :: d in Broadcast(subs, if q == [] then None else Some(q[0])) ==>
              (q == [] ==> d.head == None) && (q != [] ==> d.head == Some(q[0]))
  {
    var h := if q == [] then None else Some(q[0]);
    BroadcastReachesEverySubscriber(subs, h);
  }

  /** Removing a notification that is not queued (or from an empty queue) leaves the queue as it is. */
  lemma RemoveAbsentKeepsQueue(q: seq<Note>, id: string)
    requires forall i :: 0 <= i < |q| ==> q[i].id != id
    ensures !(q != [] && q[0].id == id) && WithoutId(q, id) == q
  {
  }

  /**
   * Removing the head by its id drops that single entry, so a later entry
   * that shares the id stays queued; removing by a non-head id drops every
   * entry with that id.
   */
  lemma HeadRemovalKeepsLaterDuplicates(q: seq<Note>, k: nat)
    requires 0 < k < |q| && q[k].id == q[0].id
    ensures q[k] in q[1..]
    ensures q[k] !in WithoutId(q, q[0].id)
  {
    assert q[1..][k - 1] == q[k];
    var r := WithoutId(q, q[0].id);
  }
}
