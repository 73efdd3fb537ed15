/**
 * The listener lists of `LocationService` and `LocationProvider`
 * (`CopyOnWriteArrayList`s): removal of the first equal element, and the
 * for-each fan-out every `notify*` method performs.
 */
module Listeners {
  import opened Events

  /** No listener appears twice. */
  ghost predicate NoDuplicates<T>(s: seq<T>)
  {
    forall i, j :: 0 <= i < j < |s| ==> s[i] != s[j]
  }

  /** Position of the first occurrence of `x` (what `List.indexOf` finds). */
  function IndexOf<T(==)>(s: seq<T>, x: T): (i: nat)
    requires x in s
    ensures i < |s| && s[i] == x && x !in s[..i]
  {
    if s[0] == x then 0 else 1 + IndexOf(s[1..], x)
  }

  /**
   * `List.remove(Object)`: finds the first element equal to `x` and removes
   * it at that index; the list is left alone when `x` is absent.
   */
  function Removed<T(==)>(s: seq<T>, x: T): (r: seq<T>)
  {
    if x in s then s[..IndexOf(s, x)] + s[IndexOf(s, x) + 1..] else s
  }

  /** After the removal, the elements past the removed index move down by one. */
  lemma RemovedShift<T>(s: seq<T>, x: T)
    requires x in s
    ensures |Removed(s, x)| == |s| - 1
    ensures forall k :: 0 <= k < |Removed(s, x)| ==>
              Removed(s, x)[k] == s[if k < IndexOf(s, x) then k else k + 1]
  {
  }

  /** Removing from a list without duplicates removes the element for good and keeps the rest. */
  lemma RemovedFromNoDuplicates<T>(s: seq<T>, x: T)
    requires NoDuplicates(s)
    ensures NoDuplicates(Removed(s, x))
    ensures x !in Removed(s, x)
    ensures forall y :: y != x ==> (y in Removed(s, x) <==> y in s)
  {
    if x in s {
      var i := IndexOf(s, x);
      var r := Removed(s, x);
      RemovedShift(s, x);
      forall k | 0 <= k < |r|
        ensures r[k] != x
      {
        var k' := if k < i then k else k + 1;
        assert r[k] == s[k'] && k' != i;
      }
      forall a, b | 0 <= a < b < |r|
        ensures r[a] != r[b]
      {
        var a', b' := if a < i then a else a + 1, if b < i then b else b + 1;
        assert r[a] == s[a'] && r[b] == s[b'] && a' < b';
      }
      forall y | y != x
        ensures y in r <==> y in s
      {
        if y in s {
          var j :| 0 <= j < |s| && s[j] == y;
          assert j != i;
          assert r[if j < i then j else j - 1] == y;
        }
      }
    }
  }

  /** Appending a listener that is not yet present keeps the list free of duplicates. */
  lemma AppendKeepsNoDuplicates<T>(s: seq<T>, x: T)
    requires NoDuplicates(s) && x !in s
    ensures NoDuplicates(s + [x])
  {
  }

  /** One callback invocation: `listener` is called with `event`. */
  datatype Delivery = Delivery(listener: object, event: Notification)

  /** The calls one `notify*` makes: each listener of the list, in list order. */
  function Broadcast(listeners: seq<object>, event: Notification): (calls: seq<Delivery>)
    ensures |calls| == |listeners|
  {
    if |listeners| == 0 then []
    else [Delivery(listeners[0], event)] + Broadcast(listeners[1..], event)
  }

  /** The k-th call goes to the k-th listener, and there is one call per entry. */
  lemma {:induction false} BroadcastAt(listeners: seq<object>, event: Notification, k: nat)
    requires k < |listeners|
    ensures |Broadcast(listeners, event)| == |listeners|
    ensures Broadcast(listeners, event)[k] == Delivery(listeners[k], event)
  {
    if k > 0 {
      BroadcastAt(listeners[1..], event, k - 1);
    } else if |listeners| > 1 {
      BroadcastAt(listeners[1..], event, 0);
    }
  }

  lemma {:induction false} BroadcastAppend(listeners: seq<object>, x: object, event: Notification)
    ensures Broadcast(listeners + [x], event) == Broadcast(listeners, event) + [Delivery(x, event)]
  {
    if |listeners| > 0 {
      assert (listeners + [x])[1..] == listeners[1..] + [x];
      BroadcastAppend(listeners[1..], x, event);
    }
  }

  /** How many calls in `calls` reach `l`. */
  function CallsTo(calls: seq<Delivery>, l: object): (n: nat)
  {
    if |calls| == 0 then 0
    else (if calls[0].listener == l then 1 else 0) + CallsTo(calls[1..], l)
  }

  /** With no duplicates, a notification reaches each registered listener exactly once and no one else. */
  lemma {:induction false} BroadcastOncePerListener(listeners: seq<object>, event: Notification, l: object)
    requires NoDuplicates(listeners)
    ensures CallsTo(Broadcast(listeners, event), l) == if l in listeners then 1 else 0
  {
    if |listeners| > 0 {
      assert NoDuplicates(listeners[1..]);
      BroadcastOncePerListener(listeners[1..], event, l);
      assert listeners[0] == l ==> l !in listeners[1..];
      assert l in listeners <==> listeners[0] == l || l in listeners[1..];
    }
  }

  /** The for-each loop of a `notify*` method, returning the calls it makes in order. */
  method FanOut(listeners: seq<object>, event: Notification) returns (calls: seq<Delivery>)
    ensures calls == Broadcast(listeners, event)
  {
    calls := [];
    for i := 0 to |listeners|
      invariant calls == Broadcast(listeners[..i], event)
    {
      assert listeners[..i + 1] == listeners[..i] + [listeners[i]];
      BroadcastAppend(listeners[..i], listeners[i], event);
      calls := calls + [Delivery(listeners[i], event)];
    }
    assert listeners[..|listeners|] == listeners;
  }
}
