/**
 * `OfflineService`: dreams written while offline wait in a queue under the
 * storage key `offline_queue` and are posted to the interpret endpoint when
 * the device is back online; the dream history is also mirrored under
 * `cached_dreams`. The clock, the connectivity test and every POST outcome
 * are parameters.
 */
module OfflineService {
  import opened Text
  import opened JsValue
  import opened Sequences
  import opened DeviceStorage

  datatype QueuedDream = QueuedDream(id: string, dreamText: string, timestamp: int, retries: int)

  const MaxRetries := 3

  /** How one POST of a queued dream ended: `response.ok`, a non-ok response, or a thrown `fetch`. */
  datatype Delivery = Ok | NotOk | Thrown

  /** The sync loop removes an item on an ok response, or on a failure that reaches `MaxRetries`. */
  predicate Drops(d: QueuedDream, delivery: Delivery) {
    delivery == Ok || (delivery == NotOk && d.retries + 1 >= MaxRetries)
  }

  /** `x` survives the removals the first `n` deliveries of the snapshot `q` caused. */
  predicate Kept(q: seq<QueuedDream>, respond: nat -> Delivery, n: nat, x: QueuedDream) {
    n == 0 || (Kept(q, respond, n - 1, x) && (n - 1 < |q| && Drops(q[n - 1], respond(n - 1)) ==> x.id != q[n - 1].id))
  }

  /** The queue after the first `n` deliveries of the snapshot `q`. */
  function SyncedPrefix(q: seq<QueuedDream>, respond: nat -> Delivery, n: nat): seq<QueuedDream> {
    Filter(q, (x: QueuedDream) => Kept(q, respond, n, x))
  }

  /** The queue a whole sync leaves behind. */
  function Synced(q: seq<QueuedDream>, respond: nat -> Delivery): seq<QueuedDream> {
    SyncedPrefix(q, respond, |q|)
  }

  /** How many of the first `n` deliveries were ok. */
  function CountOk(respond: nat -> Delivery, n: nat): (r: nat)
    ensures r <= n
  {
    if n == 0 then 0 else CountOk(respond, n - 1) + (if respond(n - 1) == Ok then 1 else 0)
  }

  class OfflineQueue {
    /** The key `offline_queue`. */
    var queue: Slot<seq<QueuedDream>>
    /** The key `cached_dreams`. */
    var cachedDreams: Slot<seq<Value>>

    /** Every stored item was queued with `retries` 0, and nothing writes a higher count back. */
    predicate Valid()
      reads this
    {
      queue.Stored? ==> forall i :: 0 <= i < |queue.doc| ==> queue.doc[i].retries == 0
    }

    constructor()
      ensures Valid()
      ensures queue == Absent && cachedDreams == Absent
    {
      queue := Absent;
      cachedDreams := Absent;
    }

    /** `getQueue`: the stored list, or `[]` when the key is empty or unreadable. */
    function GetQueue(): (r: seq<QueuedDream>)
      reads this
      ensures queue.Stored? ==> r == queue.doc
      ensures !queue.Stored? ==> r == []
    {
      ListOr(queue)
    }

    /** `getQueueCount`. */
    function GetQueueCount(): (n: nat)
      reads this
      ensures n == 0 <==> GetQueue() == []
      ensures !queue.Stored? ==> n == 0
    {
      |GetQueue()|
    }

    /**
     * `queueDream`: append one item with `retries` 0 and return its id, the
     * first clock reading; the timestamp is a second reading.
     */
    method QueueDream(dreamText: string, idClock: int, stampClock: int) returns (dreamId: string)
      requires Valid()
      modifies this
      ensures Valid()
      ensures dreamId == IntToText(idClock)
      ensures queue == Stored(old(GetQueue()) + [QueuedDream(dreamId, dreamText, stampClock, 0)])
      ensures GetQueueCount() == old(GetQueueCount()) + 1
      ensures cachedDreams == old(cachedDreams)
    {
      var q := GetQueue();
      dreamId := IntToText(idClock);
      var queued := QueuedDream(dreamId, dreamText, stampClock, 0);
      q := q + [queued];
      queue := Stored(q);
    }

    /** `removeFromQueue`: rewrite the queue without the items carrying `dreamId`. */
    method RemoveFromQueue(dreamId: string)
      requires Valid()
      modifies this
      ensures Valid()
      ensures queue == Stored(Filter(old(GetQueue()), (d: QueuedDream) => d.id != dreamId))
      ensures cachedDreams == old(cachedDreams)
    {
      var q := GetQueue();
      var filtered := Filter(q, (d: QueuedDream) => d.id != dreamId);
      queue := Stored(filtered);
    }

    /**
     * `syncQueue`: offline, nothing happens. Online, every item of the
     * snapshot is posted once, in order; an ok response removes the items
     * with its id, and a failure bumps `retries` on the snapshot's copy only.
     */
    method SyncQueue(online: bool, respond: nat -> Delivery) returns (success: nat, failed: nat)
      requires Valid()
      modifies this
      ensures Valid()
      ensures cachedDreams == old(cachedDreams)
      ensures !online ==> success == 0 && failed == 0 && queue == old(queue)
      ensures online ==> success + failed == |old(GetQueue())| && success == CountOk(respond, |old(GetQueue())|)
      ensures online && old(queue).Stored? ==> queue == Stored(Synced(old(GetQueue()), respond))
      ensures !old(queue).Stored? ==> queue == old(queue)
    {
      success, failed := 0, 0;
      if !online {
        return;
      }
      var snapshot := GetQueue();
      if !queue.Stored? {
        return;
      }
      success, failed := SyncAll(snapshot, respond);
    }

    /** The `for` loop of `syncQueue` over the snapshot, which is what the queue holds when it starts. */
    method SyncAll(snapshot: seq<QueuedDream>, respond: nat -> Delivery) returns (success: nat, failed: nat)
      requires Valid() && queue == Stored(snapshot)
      modifies this
      ensures Valid()
      ensures cachedDreams == old(cachedDreams)
      ensures success + failed == |snapshot| && success == CountOk(respond, |snapshot|)
      ensures queue == Stored(Synced(snapshot, respond))
    {
      success, failed := 0, 0;
      KeptAllAtStart(snapshot, respond);
      var i := 0;
      while i < |snapshot|
        invariant 0 <= i <= |snapshot|
        invariant Valid()
        invariant cachedDreams == old(cachedDreams)
        invariant success + failed == i && success == CountOk(respond, i)
        invariant queue == Stored(SyncedPrefix(snapshot, respond, i))
      {
        var delivered := SyncItem(snapshot, respond, i);
        assert CountOk(respond, i + 1) == CountOk(respond, i) + (if delivered then 1 else 0);
        if delivered {
          success := success + 1;
        } else {
          failed := failed + 1;
        }
        i := i + 1;
      }
      assert SyncedPrefix(snapshot, respond, |snapshot|) == Synced(snapshot, respond);
    }

    /** Post the `i`-th snapshot item: the queue moves from `i` deliveries to `i + 1`. */
    method SyncItem(snapshot: seq<QueuedDream>, respond: nat -> Delivery, i: nat) returns (delivered: bool)
      requires Valid() && i < |snapshot|
      requires queue == Stored(SyncedPrefix(snapshot, respond, i))
      modifies this
      ensures Valid()
      ensures delivered <==> respond(i) == Ok
      ensures cachedDreams == old(cachedDreams)
      ensures queue == Stored(SyncedPrefix(snapshot, respond, i + 1))
    {
      delivered := Deliver(snapshot[i], respond(i));
      KeptFilterStep(snapshot, respond, i);
    }

    /** The loop body of `syncQueue` after the POST of one snapshot item: count it, and drop it if due. */
    method Deliver(dream: QueuedDream, delivery: Delivery) returns (delivered: bool)
      requires Valid()
      modifies this
      ensures Valid()
      ensures delivered <==> delivery == Ok
      ensures cachedDreams == old(cachedDreams)
      ensures Drops(dream, delivery) ==> queue == Stored(Filter(old(GetQueue()), (d: QueuedDream) => d.id != dream.id))
      ensures !Drops(dream, delivery) ==> queue == old(queue)
    {
      delivered := false;
      if delivery == Ok {
        RemoveFromQueue(dream.id);
        delivered := true;
      } else if delivery == NotOk {
        var retries := dream.retries + 1;
        if retries >= MaxRetries {
          RemoveFromQueue(dream.id);
        }
      }
    }

    /** `cacheDreams`: the list is stored under `cached_dreams`, and reading it back gives it. */
    method CacheDreams(dreams: seq<Value>)
      modifies this
      ensures cachedDreams == Stored(dreams) && queue == old(queue)
      ensures GetCachedDreams() == dreams
    {
      cachedDreams := Stored(dreams);
    }

    /** `getCachedDreams`: the cached list, or `[]` when nothing is cached or it cannot be read. */
    function GetCachedDreams(): (r: seq<Value>)
      reads this
      ensures cachedDreams.Stored? ==> r == cachedDreams.doc
      ensures !cachedDreams.Stored? ==> r == []
    {
      ListOr(cachedDreams)
    }
  }

  /** Before any delivery every item survives. */
  lemma KeptAllAtStart(q: seq<QueuedDream>, respond: nat -> Delivery)
    ensures SyncedPrefix(q, respond, 0) == q
  {
    FilterAll(q, (x: QueuedDream) => Kept(q, respond, 0, x));
  }

  /** One more delivery filters the survivors so far by its id when it drops, and changes nothing otherwise. */
  lemma KeptFilterStep(q: seq<QueuedDream>, respond: nat -> Delivery, i: nat)
    ensures i < |q| && Drops(q[i], respond(i)) ==>
      Filter(Filter(q, (x: QueuedDream) => Kept(q, respond, i, x)), (d: QueuedDream) => d.id != q[i].id) ==
      Filter(q, (x: QueuedDream) => Kept(q, respond, i + 1, x))
    ensures !(i < |q| && Drops(q[i], respond(i))) ==>
      Filter(q, (x: QueuedDream) => Kept(q, respond, i, x)) == Filter(q, (x: QueuedDream) => Kept(q, respond, i + 1, x))
  {
    var before := (x: QueuedDream) => Kept(q, respond, i, x);
    var after := (x: QueuedDream) => Kept(q, respond, i + 1, x);
    if i < |q| && Drops(q[i], respond(i)) {
      var other := (d: QueuedDream) => d.id != q[i].id;
      assert forall k :: 0 <= k < |q| ==> after(q[k]) == (before(q[k]) && other(q[k]));
      FilterTwice(q, before, other, after);
    } else {
      assert forall k :: 0 <= k < |q| ==> after(q[k]) == before(q[k]);
      FilterAgree(q, before, after);
    }
  }

  /** The sync leaves a subsequence of the snapshot: exactly the items of ids no drop shared. */
  lemma SyncedSelects(q: seq<QueuedDream>, respond: nat -> Delivery)
    ensures Subsequence(Synced(q, respond), q)
    ensures forall x :: x in Synced(q, respond) <==>
      x in q && forall j :: 0 <= j < |q| && Drops(q[j], respond(j)) ==> x.id != q[j].id
  {
    FilterSubsequence(q, (x: QueuedDream) => Kept(q, respond, |q|, x));
    forall x
      ensures x in Synced(q, respond) <==>
        x in q && forall j :: 0 <= j < |q| && Drops(q[j], respond(j)) ==> x.id != q[j].id
    {
      KeptIff(q, respond, |q|, x);
    }
  }

  /** An item survives the first `n` deliveries exactly when none of them dropped an item with its id. */
  lemma {:induction false} KeptIff(q: seq<QueuedDream>, respond: nat -> Delivery, n: nat, x: QueuedDream)
    ensures Kept(q, respond, n, x) <==>
      forall j :: 0 <= j < n && j < |q| && Drops(q[j], respond(j)) ==> x.id != q[j].id
  {
    if n > 0 {
      KeptIff(q, respond, n - 1, x);
    }
  }

  /**
   * A failed delivery never removes an item: stored items carry `retries` 0,
   * so one sync reaches a count of 1, below `MaxRetries`. Such an item stays
   * queued unless an ok delivery removed another item with the same id.
   */
  lemma FailedStaysQueued(q: seq<QueuedDream>, respond: nat -> Delivery, i: nat)
    requires forall k :: 0 <= k < |q| ==> q[k].retries == 0
    requires i < |q| && respond(i) != Ok
    requires forall j :: 0 <= j < |q| && respond(j) == Ok ==> q[j].id != q[i].id
    ensures q[i] in Synced(q, respond)
  {
    SyncedSelects(q, respond);
  }

  /** An item whose delivery was ok is gone after the sync, with every other item of its id. */
  lemma DeliveredLeaves(q: seq<QueuedDream>, respond: nat -> Delivery, i: nat, x: QueuedDream)
    requires i < |q| && respond(i) == Ok && x.id == q[i].id
    ensures x !in Synced(q, respond)
  {
    SyncedSelects(q, respond);
  }
}
