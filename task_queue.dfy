/*
 * Task queues: one sorted set per (warehouse, zone, task type), keyed
 * "task:queue:<warehouse>:<zone>:<TYPE>", holding task ids scored by the
 * task's priority score; the lowest score is served first. The store is a
 * map from queue key to the queue's (task id -> score) entries; a queue
 * left empty disappears, as a sorted set does.
 */
module TaskQueues {
  import opened Wrappers
  import opened JavaText
  import opened TaskTypes
  import TaskLifecycle

  const QueuePrefix := "task:queue:"

  /** Java string concatenation writes a null zone as "null". */
  function ZoneText(zone: Option<string>): string {
    if zone.Some? then zone.value else "null"
  }

  /** buildQueueKey. */
  function QueueKey(warehouseId: string, zone: Option<string>, t: TaskType): (r: string)
    ensures |r| > |QueuePrefix + warehouseId + ":"| && r[..|QueuePrefix + warehouseId + ":"|] == QueuePrefix + warehouseId + ":"
  {
    var head := QueuePrefix + warehouseId + ":";
    var r := head + ZoneText(zone) + ":" + Name(t);
    assert r[..|head|] == head;
    r
  }

  /** The queue a key names, as parseQueueStatus reads it. */
  datatype QueueRef = QueueRef(warehouseId: string, zone: string, taskType: TaskType)

  /** parseQueueStatus's reading of a key: the third, fourth and fifth
    * ':'-separated parts; nothing for fewer than five parts or an unknown
    * type name. */
  function ParseQueueKey(key: string): (r: Option<QueueRef>)
    ensures r.Some? ==> ':' !in r.value.warehouseId && ':' !in r.value.zone
  {
    var parts := Split(key, ':');
    if |parts| < 5 then None
    else match ValueOf(parts[4])
      case None => None
      case Some(t) => Some(QueueRef(parts[2], parts[3], t))
  }

  /** A queue key is its five parts joined with ':'. */
  lemma QueueKeyIsJoin(warehouseId: string, zone: Option<string>, t: TaskType)
    ensures QueueKey(warehouseId, zone, t) == Join(["task", "queue", warehouseId, ZoneText(zone), Name(t)], ':')
  {
    var z, n := ZoneText(zone), Name(t);
    var parts := ["task", "queue", warehouseId, z, n];
    assert parts[1..] == ["queue", warehouseId, z, n];
    assert parts[1..][1..] == [warehouseId, z, n];
    assert parts[1..][1..][1..] == [z, n];
    assert parts[1..][1..][1..][1..] == [n];
    assert Join([n], ':') == n;
    assert Join([z, n], ':') == z + ":" + n;
    assert Join([warehouseId, z, n], ':') == warehouseId + ":" + (z + ":" + n);
    assert Join(["queue", warehouseId, z, n], ':') == "queue" + ":" + (warehouseId + ":" + (z + ":" + n));
    assert Join(parts, ':') == "task" + ":" + ("queue" + ":" + (warehouseId + ":" + (z + ":" + n)));
  }

  /** No task type name contains ':' or is empty. */
  lemma NameIsPlain(t: TaskType)
    ensures ':' !in Name(t) && Name(t) != ""
  {
  }

  /** A key built from a warehouse id and zone without ':' parses back to
    * them (a null zone reads back as "null"). */
  lemma ParseQueueKeyOfQueueKey(warehouseId: string, zone: Option<string>, t: TaskType)
    requires ':' !in warehouseId && ':' !in ZoneText(zone)
    ensures ParseQueueKey(QueueKey(warehouseId, zone, t)) == Some(QueueRef(warehouseId, ZoneText(zone), t))
  {
    var parts := ["task", "queue", warehouseId, ZoneText(zone), Name(t)];
    NameIsPlain(t);
    QueueKeyIsJoin(warehouseId, zone, t);
    SplitJoin(parts, ':');
    NameRoundTrip(t);
  }

  /** Queues of different warehouses, zones or types never share a key. */
  lemma QueueKeysDistinct(w1: string, z1: Option<string>, t1: TaskType, w2: string, z2: Option<string>, t2: TaskType)
    requires ':' !in w1 && ':' !in ZoneText(z1) && ':' !in w2 && ':' !in ZoneText(z2)
    requires (w1, ZoneText(z1), t1) != (w2, ZoneText(z2), t2)
    ensures QueueKey(w1, z1, t1) != QueueKey(w2, z2, t2)
  {
    ParseQueueKeyOfQueueKey(w1, z1, t1);
    ParseQueueKeyOfQueueKey(w2, z2, t2);
  }

  /** The queue keys of a worker's capabilities, in capability order. */
  function EligibleKeys(warehouseId: string, zone: Option<string>, capabilities: seq<TaskType>): (r: seq<string>)
    ensures |r| == |capabilities|
    ensures forall i | 0 <= i < |r| :: r[i] == QueueKey(warehouseId, zone, capabilities[i])
  {
    seq(|capabilities|, i requires 0 <= i < |capabilities| => QueueKey(warehouseId, zone, capabilities[i]))
  }

  // ----------------------------------------------------------------- store

  type Queue = map<string, real>
  type Store = map<string, Queue>

  /** A queue's entries; an absent queue has none. */
  function Entries(store: Store, key: string): Queue {
    if key in store then store[key] else map[]
  }

  /** ZCARD: the number of entries, 0 for an absent queue. */
  function Depth(store: Store, key: string): nat {
    |Entries(store, key)|
  }

  /** No queue in the store is empty. */
  predicate NoEmptyQueue(store: Store) {
    forall k | k in store :: |store[k]| > 0
  }

  /** ZADD: inserts the id with its score, or re-scores it. */
  function Upsert(store: Store, key: string, id: string, score: real): (r: Store)
    ensures NoEmptyQueue(store) ==> NoEmptyQueue(r)
    ensures Entries(r, key) == Entries(store, key)[id := score]
    ensures forall k | k != key :: Entries(r, k) == Entries(store, k)
  {
    store[key := Entries(store, key)[id := score]]
  }

  /** ZREM: deletes the id; a queue left empty disappears. */
  function Without(store: Store, key: string, id: string): (r: Store)
    ensures NoEmptyQueue(store) ==> NoEmptyQueue(r)
    ensures Entries(r, key) == Entries(store, key) - {id}
    ensures forall k | k != key :: Entries(r, k) == Entries(store, k)
  {
    var rest := Entries(store, key) - {id};
    if |rest| == 0 then store - {key} else store[key := rest]
  }

  /** An upsert adds one entry for a new id and none for a queued one. */
  lemma UpsertDepth(store: Store, key: string, id: string, score: real)
    ensures Depth(Upsert(store, key, id, score), key) == Depth(store, key) + (if id in Entries(store, key) then 0 else 1)
  {
    var q := Entries(store, key);
    if id in q {
      assert q[id := score].Keys == q.Keys;
    } else {
      assert q[id := score].Keys == q.Keys + {id};
    }
  }

  /** Removing a queued id takes one entry away; any other id, none. */
  lemma WithoutDepth(store: Store, key: string, id: string)
    ensures Depth(Without(store, key, id), key) == Depth(store, key) - (if id in Entries(store, key) then 1 else 0)
  {
    var q := Entries(store, key);
    if id in q {
      assert q.Keys == (q - {id}).Keys + {id};
    } else {
      assert (q - {id}).Keys == q.Keys;
    }
  }

  /** Enqueueing the same task twice leaves one entry, with the later score. */
  lemma UpsertTwice(store: Store, key: string, id: string, s1: real, s2: real)
    ensures Upsert(Upsert(store, key, id, s1), key, id, s2) == Upsert(store, key, id, s2)
    ensures Depth(Upsert(Upsert(store, key, id, s1), key, id, s2), key) == Depth(store, key) + (if id in Entries(store, key) then 0 else 1)
  {
    assert Entries(store, key)[id := s1][id := s2] == Entries(store, key)[id := s2];
    UpsertDepth(store, key, id, s2);
  }

  /** ZRANGE 0 0: an entry with the lowest score. Ties between equal scores
    * are left open. */
  predicate IsLowest(q: Queue, id: string) {
    id in q && forall other | other in q :: q[id] <= q[other]
  }

  /** Every non-empty queue has a lowest entry. */
  lemma {:induction false} LowestExists(q: Queue)
    requires |q| > 0
    ensures exists id :: IsLowest(q, id)
  {
    var k :| k in q;
    var rest := q - {k};
    if |rest| == 0 {
      EmptyIffNoEntries(rest);
      assert IsLowest(q, k);
    } else {
      assert |rest| < |q| by {
        assert q.Keys == rest.Keys + {k};
      }
      LowestExists(rest);
      var m :| IsLowest(rest, m);
      if q[k] <= q[m] {
        assert IsLowest(q, k);
      } else {
        assert IsLowest(q, m);
      }
    }
  }

  /** Removing an entry other than the lowest keeps the lowest in front. */
  lemma RemoveKeepsLowest(store: Store, key: string, low: string, id: string)
    requires IsLowest(Entries(store, key), low) && id != low
    ensures IsLowest(Entries(Without(store, key, id), key), low)
  {
  }

  /** The position of the first non-empty queue among `keys`. */
  function FirstNonEmpty(store: Store, keys: seq<string>): (r: Option<nat>)
    ensures r.None? <==> forall j | 0 <= j < |keys| :: Depth(store, keys[j]) == 0
    ensures (r.Some? ==> r.value < |keys| && Depth(store, keys[r.value]) > 0
                         && forall j | 0 <= j < r.value :: Depth(store, keys[j]) == 0)
  {
    if |keys| == 0 then None
    else if Depth(store, keys[0]) > 0 then Some(0)
    else match FirstNonEmpty(store, keys[1..])
      case None => None
      case Some(i) => Some(i + 1)
  }

  /** The first non-empty queue is the one all earlier queues are empty before. */
  lemma FirstNonEmptyAt(store: Store, keys: seq<string>, i: nat)
    requires i < |keys| && Depth(store, keys[i]) > 0
    requires forall j | 0 <= j < i :: Depth(store, keys[j]) == 0
    ensures FirstNonEmpty(store, keys) == Some(i)
  {
    assert FirstNonEmpty(store, keys).Some?;
  }

  // ------------------------------------------------------------ statuses

  /** QueueStatus: a queue's depth and its next task. */
  datatype QueueStatus = QueueStatus(
    queueKey: string, warehouseId: string, zone: Option<string>, taskType: TaskType,
    depth: int, oldestTaskId: Option<string>)
  {
    predicate IsEmpty() {
      depth == 0
    }

    /** More than ten waiting tasks. */
    predicate HasBacklog() {
      depth > 10
    }
  }

  /** A backlogged queue is not empty, and an empty one has no next task. */
  lemma BacklogIsNotEmpty(st: QueueStatus, store: Store)
    requires Reports(st, store)
    ensures st.HasBacklog() ==> !st.IsEmpty()
    ensures st.IsEmpty() <==> st.oldestTaskId.None?
    ensures st.IsEmpty() <==> Entries(store, st.queueKey) == map[]
  {
    EmptyIffNoEntries(Entries(store, st.queueKey));
  }

  lemma EmptyIffNoEntries(q: Queue)
    ensures |q| == 0 <==> q == map[]
  {
    if q != map[] {
      var k :| k in q;
    }
  }

  /** A status reports its queue as the store holds it: depth and lowest entry. */
  predicate Reports(st: QueueStatus, store: Store) {
    st.depth == Depth(store, st.queueKey)
    && (st.oldestTaskId.None? <==> st.depth == 0)
    && (st.oldestTaskId.Some? ==> IsLowest(Entries(store, st.queueKey), st.oldestTaskId.value))
  }

  // ----------------------------------------------------------------- manager

  class TaskQueueManager {
    var store: Store

    constructor ()
      ensures store == map[]
    {
      store := map[];
    }

    /** getQueueDepth. */
    function GetQueueDepth(warehouseId: string, zone: Option<string>, t: TaskType): (r: nat)
      reads this
      ensures r == 0 <==> Entries(store, QueueKey(warehouseId, zone, t)) == map[]
    {
      EmptyIffNoEntries(Entries(store, QueueKey(warehouseId, zone, t)));
      |Entries(store, QueueKey(warehouseId, zone, t))|
    }

    /** enqueue: (re)inserts the task's id in its queue, scored by its
      * priority score at time `now`. */
    method Enqueue(task: TaskLifecycle.TaskData, now: int)
      modifies this
      ensures (store == Upsert(old(store), QueueKey(task.warehouseId, task.zone, task.taskType), task.taskId,
                               TaskLifecycle.PriorityScore(task, now)))
    {
      var key := QueueKey(task.warehouseId, task.zone, task.taskType);
      store := Upsert(store, key, task.taskId, TaskLifecycle.PriorityScore(task, now));
    }

    /** getEligibleQueues: one key per capability, in capability order. */
    static method GetEligibleQueues(warehouseId: string, zone: Option<string>, capabilities: seq<TaskType>)
      returns (queues: seq<string>)
      ensures queues == EligibleKeys(warehouseId, zone, capabilities)
    {
      queues := [];
      for i := 0 to |capabilities|
        invariant queues == EligibleKeys(warehouseId, zone, capabilities[..i])
      {
        queues := queues + [QueueKey(warehouseId, zone, capabilities[i])];
        assert capabilities[..i + 1] == capabilities[..i] + [capabilities[i]];
      }
      assert capabilities[..|capabilities|] == capabilities;
    }

    /** dequeue: scans the eligible queues in capability order and takes the
      * lowest-scored id of the first non-empty one; nothing changes when
      * every eligible queue is empty. */
    method Dequeue(workerId: string, warehouseId: string, zone: Option<string>, capabilities: seq<TaskType>)
      returns (r: Option<string>)
      modifies this
      ensures r.None? <==> FirstNonEmpty(old(store), EligibleKeys(warehouseId, zone, capabilities)).None?
      ensures r.None? ==> store == old(store)
      ensures (r.Some? ==>
        var key := EligibleKeys(warehouseId, zone, capabilities)[
          FirstNonEmpty(old(store), EligibleKeys(warehouseId, zone, capabilities)).value];
        IsLowest(Entries(old(store), key), r.value) && store == Without(old(store), key, r.value))
    {
      var queues := GetEligibleQueues(warehouseId, zone, capabilities);
      var found := FindNonEmpty(queues);
      if found.None? {
        return None;
      }
      var id := TakeLowest(queues[found.value]);
      return Some(id);
    }

    /** The scan of dequeue: the position of the first non-empty queue. */
    method FindNonEmpty(queues: seq<string>) returns (r: Option<nat>)
      ensures r == FirstNonEmpty(store, queues)
    {
      var i := 0;
      while i < |queues|
        invariant 0 <= i <= |queues|
        invariant forall j | 0 <= j < i :: Depth(store, queues[j]) == 0
      {
        if Depth(store, queues[i]) > 0 {
          FirstNonEmptyAt(store, queues, i);
          return Some(i);
        }
        i := i + 1;
      }
      return None;
    }

    /** ZRANGE 0 0 then ZREM: removes and returns a lowest-scored id. */
    method TakeLowest(key: string) returns (id: string)
      requires Depth(store, key) > 0
      modifies this
      ensures IsLowest(Entries(old(store), key), id) && store == Without(old(store), key, id)
    {
      LowestExists(Entries(store, key));
      id :| IsLowest(Entries(store, key), id);
      store := Without(store, key, id);
    }

    /** remove: deletes the task's entry from its queue, if there. */
    method Remove(task: TaskLifecycle.TaskData)
      modifies this
      ensures store == Without(old(store), QueueKey(task.warehouseId, task.zone, task.taskType), task.taskId)
    {
      store := Without(store, QueueKey(task.warehouseId, task.zone, task.taskType), task.taskId);
    }

    /** The status of one queue, with the given identification. */
    method StatusOf(key: string, warehouseId: string, zone: Option<string>, t: TaskType) returns (st: QueueStatus)
      ensures st.queueKey == key && st.warehouseId == warehouseId && st.zone == zone && st.taskType == t
      ensures Reports(st, store)
    {
      var q := Entries(store, key);
      var oldest := None;
      if |q| > 0 {
        LowestExists(q);
        var id :| IsLowest(q, id);
        oldest := Some(id);
      }
      st := QueueStatus(key, warehouseId, zone, t, |q|, oldest);
    }

    /** getQueueStatus: the queue's key, depth (0 when absent) and next task. */
    method GetQueueStatus(warehouseId: string, zone: Option<string>, t: TaskType) returns (st: QueueStatus)
      ensures st.queueKey == QueueKey(warehouseId, zone, t)
      ensures st.warehouseId == warehouseId && st.zone == zone && st.taskType == t
      ensures st.depth == GetQueueDepth(warehouseId, zone, t) && Reports(st, store)
    {
      st := StatusOf(QueueKey(warehouseId, zone, t), warehouseId, zone, t);
    }

    /** peek: the lowest-scored id of the queue, without removing it. */
    method Peek(warehouseId: string, zone: Option<string>, t: TaskType) returns (r: Option<string>)
      ensures r.None? <==> GetQueueDepth(warehouseId, zone, t) == 0
      ensures r.Some? ==> IsLowest(Entries(store, QueueKey(warehouseId, zone, t)), r.value)
    {
      var q := Entries(store, QueueKey(warehouseId, zone, t));
      r := None;
      if |q| > 0 {
        LowestExists(q);
        var id :| IsLowest(q, id);
        r := Some(id);
      }
    }

    /** clearQueue: deletes the queue. */
    method ClearQueue(warehouseId: string, zone: Option<string>, t: TaskType)
      modifies this
      ensures store == old(store) - {QueueKey(warehouseId, zone, t)}
      ensures GetQueueDepth(warehouseId, zone, t) == 0
    {
      store := store - {QueueKey(warehouseId, zone, t)};
    }

    /** parseQueueStatus: the status of a stored queue, identified by its
      * key; nothing for a key that does not parse. */
    method ParseQueueStatus(key: string) returns (r: Option<QueueStatus>)
      ensures r.None? <==> ParseQueueKey(key).None?
      ensures (r.Some? ==>
        var p := ParseQueueKey(key).value;
        r.value.queueKey == key && r.value.warehouseId == p.warehouseId && r.value.zone == Some(p.zone)
        && r.value.taskType == p.taskType && Reports(r.value, store))
    {
      match ParseQueueKey(key)
      case None =>
        r := None;
      case Some(p) =>
        var st := StatusOf(key, p.warehouseId, Some(p.zone), p.taskType);
        r := Some(st);
    }

    /** getAllQueueStatus: one status per stored queue of the warehouse
      * whose key parses. */
    method GetAllQueueStatus(warehouseId: string) returns (r: seq<QueueStatus>)
      ensures (forall st | st in r ::
        st.queueKey in store && StartsWith(st.queueKey, QueuePrefix + warehouseId + ":")
        && ParseQueueKey(st.queueKey).Some? && Reports(st, store)
        && st.warehouseId == ParseQueueKey(st.queueKey).value.warehouseId
        && st.zone == Some(ParseQueueKey(st.queueKey).value.zone)
        && st.taskType == ParseQueueKey(st.queueKey).value.taskType)
      ensures (forall k | k in store && StartsWith(k, QueuePrefix + warehouseId + ":") && ParseQueueKey(k).Some? ::
        exists st | st in r :: st.queueKey == k)
      ensures forall i, j | 0 <= i < j < |r| :: r[i].queueKey != r[j].queueKey
    {
      var pattern := QueuePrefix + warehouseId + ":";
      var keys := set k | k in store && StartsWith(k, pattern);
      r := [];
      while keys != {}
        invariant keys <= store.Keys
        invariant forall k | k in keys :: StartsWith(k, pattern)
        invariant (forall st | st in r ::
          st.queueKey in store && st.queueKey !in keys && StartsWith(st.queueKey, pattern)
          && ParseQueueKey(st.queueKey).Some? && Reports(st, store)
          && st.warehouseId == ParseQueueKey(st.queueKey).value.warehouseId
          && st.zone == Some(ParseQueueKey(st.queueKey).value.zone)
          && st.taskType == ParseQueueKey(st.queueKey).value.taskType)
        invariant (forall k | k in store && StartsWith(k, pattern) && ParseQueueKey(k).Some? ::
          k in keys || exists st | st in r :: st.queueKey == k)
        invariant forall i, j | 0 <= i < j < |r| :: r[i].queueKey != r[j].queueKey
        decreases |keys|
      {
        var k :| k in keys;
        var parsed := ParseQueueStatus(k);
        if parsed.Some? {
          r := r + [parsed.value];
        }
        keys := keys - {k};
      }
    }
  }
}
