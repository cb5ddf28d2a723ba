/** A queue that takes each event once: an event whose key is already there is not added again. */
module EventQueue {
  import opened Selections

  /** What becomes of an event that is sent to the queue. */
  datatype Entry = Queued | AlreadyQueued | Lost

  type Key = seq<string>

  predicate HasKey<E>(key: E -> Key, queue: seq<E>, k: Key) {
    exists i :: 0 <= i < |queue| && key(queue[i]) == k
  }

  /** `ok`: the event is well formed, and the queue can be read and, for a new event, written. */
  function Enqueue<E>(key: E -> Key, queue: seq<E>, e: E, ok: bool): (seq<E>, Entry) {
    if !ok then (queue, Lost)
    else if HasKey(key, queue, key(e)) then (queue, AlreadyQueued)
    else (queue + [e], Queued)
  }

  /** The events one after the other. */
  function EnqueueAll<E>(key: E -> Key, queue: seq<E>, events: seq<E>, ok: seq<bool>): (seq<E>, seq<Entry>)
    requires |ok| == |events|
  {
    if events == [] then (queue, [])
    else
      var n := |events| - 1;
      var (before, entries) := EnqueueAll(key, queue, events[..n], ok[..n]);
      var (after, entry) := Enqueue(key, before, events[n], ok[n]);
      (after, entries + [entry])
  }

  /** The queue without the events that were delivered. */
  function Undelivered<E>(key: E -> Key, queue: seq<E>, delivered: set<Key>): seq<E> {
    if queue == [] then []
    else
      var init, last := Undelivered(key, queue[..|queue| - 1], delivered), queue[|queue| - 1];
      if key(last) in delivered then init else init + [last]
  }

  ghost predicate DistinctKeys<E>(key: E -> Key, queue: seq<E>) {
    forall i, j :: 0 <= i < j < |queue| ==> key(queue[i]) != key(queue[j])
  }

  /** Exactly one event of the queue has the key. */
  ghost predicate QueuedOnce<E>(key: E -> Key, queue: seq<E>, k: Key) {
    exists i :: 0 <= i < |queue| && key(queue[i]) == k &&
      forall j :: 0 <= j < |queue| && key(queue[j]) == k ==> j == i
  }

  lemma DistinctMeansOnce<E>(key: E -> Key, queue: seq<E>, k: Key)
    requires DistinctKeys(key, queue) && HasKey(key, queue, k)
    ensures QueuedOnce(key, queue, k)
  {
    var i :| 0 <= i < |queue| && key(queue[i]) == k;
    assert forall j :: 0 <= j < |queue| && key(queue[j]) == k ==> j == i;
  }

  lemma KeyStays<E>(key: E -> Key, queue: seq<E>, longer: seq<E>, k: Key)
    requires queue <= longer && HasKey(key, queue, k)
    ensures HasKey(key, longer, k)
  {
    var i :| 0 <= i < |queue| && key(queue[i]) == k;
    assert key(longer[i]) == k;
  }

  // An event that is not lost is in the queue exactly once, whether it was new or not.
  lemma EnqueuedOnce<E>(key: E -> Key, queue: seq<E>, e: E, ok: bool)
    requires DistinctKeys(key, queue)
    ensures var (after, entry) := Enqueue(key, queue, e, ok);
            && DistinctKeys(key, after)
            && (entry == Lost <==> !ok)
            && (entry != Lost ==> HasKey(key, after, key(e)) && QueuedOnce(key, after, key(e)))
            && after == queue + (if entry == Queued then [e] else [])
  {
    var (after, entry) := Enqueue(key, queue, e, ok);
    if entry == Queued {
      assert after[|queue|] == e;
      assert forall i :: 0 <= i < |queue| ==> key(queue[i]) != key(e);
    }
    if entry != Lost {
      DistinctMeansOnce(key, after, key(e));
    }
  }

  /** The events that were newly queued, in order. */
  function Added<E>(events: seq<E>, entries: seq<Entry>): seq<E>
    requires |events| == |entries|
  {
    if events == [] then []
    else
      var n := |events| - 1;
      Added(events[..n], entries[..n]) + if entries[n] == Queued then [events[n]] else []
  }

  // What is added keeps the order in which it came.
  lemma {:induction false} AddedAt<E>(events: seq<E>, entries: seq<Entry>) returns (at: seq<nat>)
    requires |events| == |entries|
    ensures PartAt(events, Added(events, entries), at)
    ensures forall k :: 0 <= k < |events| ==> (k in at <==> entries[k] == Queued)
  {
    if events == [] {
      at := [];
    } else {
      var n := |events| - 1;
      at := AddedAt(events[..n], entries[..n]);
      PartGrows(events[..n], Added(events[..n], entries[..n]), at, events[n]);
      assert events == events[..n] + [events[n]];
      if entries[n] == Queued {
        at := at + [n];
      }
    }
  }

  // Events are queued one by one in order: what is new goes to the end in the order it came,
  // and each event that is not lost is there exactly once, a repeated one too.
  lemma {:induction false} EnqueuedInOrder<E>(key: E -> Key, queue: seq<E>, events: seq<E>, ok: seq<bool>)
    requires |ok| == |events| && DistinctKeys(key, queue)
    ensures var (after, entries) := EnqueueAll(key, queue, events, ok);
            && |entries| == |events|
            && after == queue + Added(events, entries)
            && DistinctKeys(key, after)
            && (forall i :: 0 <= i < |events| ==> (entries[i] == Lost <==> !ok[i]))
            && (forall i :: 0 <= i < |events| && ok[i] ==> HasKey(key, after, key(events[i])))
  {
    if events != [] {
      var n := |events| - 1;
      EnqueuedInOrder(key, queue, events[..n], ok[..n]);
      var (before, entries) := EnqueueAll(key, queue, events[..n], ok[..n]);
      EnqueuedOnce(key, before, events[n], ok[n]);
      var (after, entry) := Enqueue(key, before, events[n], ok[n]);
      assert (entries + [entry])[..n] == entries;
      KeysStay(key, before, after, events, ok, n);
      forall i | 0 <= i < n
        ensures (entries + [entry])[i] == Lost <==> !ok[i]
      {
        assert ok[..n][i] == ok[i];
      }
    }
  }

  lemma KeysStay<E>(key: E -> Key, queue: seq<E>, longer: seq<E>, events: seq<E>, ok: seq<bool>, n: nat)
    requires queue <= longer && n <= |events| == |ok|
    requires forall i :: 0 <= i < n && ok[..n][i] ==> HasKey(key, queue, key(events[..n][i]))
    ensures forall i :: 0 <= i < n && ok[i] ==> HasKey(key, longer, key(events[i]))
  {
    forall i | 0 <= i < n && ok[i]
      ensures HasKey(key, longer, key(events[i]))
    {
      assert events[..n][i] == events[i] && ok[..n][i] == ok[i];
      KeyStays(key, queue, longer, key(events[i]));
    }
  }

  // One event more at the end of those that are sent.
  lemma EnqueueOneMore<E>(key: E -> Key, queue: seq<E>, events: seq<E>, ok: seq<bool>, i: nat)
    requires |ok| == |events| && i < |events|
    ensures var (before, entries) := EnqueueAll(key, queue, events[..i], ok[..i]);
            var (after, entry) := Enqueue(key, before, events[i], ok[i]);
            EnqueueAll(key, queue, events[..i + 1], ok[..i + 1]) == (after, entries + [entry])
  {
    assert events[..i + 1][..i] == events[..i] && ok[..i + 1][..i] == ok[..i];
  }

  lemma LastKey<E>(key: E -> Key, queue: seq<E>, e: E, k: Key)
    ensures HasKey(key, queue + [e], k) <==> HasKey(key, queue, k) || k == key(e)
  {
    if HasKey(key, queue, k) {
      KeyStays(key, queue, queue + [e], k);
    }
    assert (queue + [e])[|queue|] == e;
    assert forall i :: 0 <= i < |queue| ==> (queue + [e])[i] == queue[i];
  }

  // Delivery removes exactly the delivered events.
  lemma {:induction false} DeliveryRemovesOnly<E>(key: E -> Key, queue: seq<E>, delivered: set<Key>, k: Key)
    ensures HasKey(key, Undelivered(key, queue, delivered), k) <==> HasKey(key, queue, k) && k !in delivered
  {
    if queue != [] {
      var n := |queue| - 1;
      DeliveryRemovesOnly(key, queue[..n], delivered, k);
      assert queue == queue[..n] + [queue[n]];
      LastKey(key, queue[..n], queue[n], k);
      LastKey(key, Undelivered(key, queue[..n], delivered), queue[n], k);
    }
  }

  // What is left keeps its order.
  lemma {:induction false} DeliveryKeepsOrder<E>(key: E -> Key, queue: seq<E>, delivered: set<Key>) returns (at: seq<nat>)
    ensures PartAt(queue, Undelivered(key, queue, delivered), at)
    ensures forall k :: 0 <= k < |queue| ==> (k in at <==> key(queue[k]) !in delivered)
  {
    if queue == [] {
      at := [];
    } else {
      var n := |queue| - 1;
      at := DeliveryKeepsOrder(key, queue[..n], delivered);
      PartGrows(queue[..n], Undelivered(key, queue[..n], delivered), at, queue[n]);
      assert queue == queue[..n] + [queue[n]];
      if key(queue[n]) !in delivered {
        at := at + [n];
      }
    }
  }

  lemma {:induction false} DeliveryKeepsDistinct<E>(key: E -> Key, queue: seq<E>, delivered: set<Key>)
    requires DistinctKeys(key, queue)
    ensures DistinctKeys(key, Undelivered(key, queue, delivered))
  {
    if queue != [] {
      var n := |queue| - 1;
      var init := Undelivered(key, queue[..n], delivered);
      DeliveryKeepsDistinct(key, queue[..n], delivered);
      DeliveryRemovesOnly(key, queue[..n], delivered, key(queue[n]));
      assert forall i :: 0 <= i < n ==> queue[..n][i] == queue[i];
      assert forall i :: 0 <= i < |init| ==> key(init[i]) != key(queue[n]);
    }
  }
}
