/** The persistent event queue of `events.py`: bounded, deduplicating, and
    with a save/load path. Times are UTC microseconds. */
module Events {
  import opened Basics

  const MAX_PROCESSED_EVENT_IDS: nat := 512
  const MAX_PENDING_EVENTS: nat := 100
  const MAX_COMPLETED_RECORDINGS: nat := 256
  const AUTOMATIC_RECORDING_EVENT_MAX_AGE: int := 10 * 60 * 1_000_000

  // Unnamed is the empty string, which the storage codec reads back as MessageCenter.
  datatype Source = AndroidNotification | MessageCenter | Unnamed

  datatype Detail =
    Detail(uid: string, alarmType: string, aiTypes: seq<string>, deviceName: string, title: string, text: string)

  datatype CloudEvent = CloudEvent(
    eventId: string,
    source: Source,
    alarmTime: int,
    notificationPostTime: Option<int>,
    detail: Detail)

  datatype CompletedRecording = CompletedRecording(fingerprint: string, startTime: int, endTime: int, size: int)

  datatype DeferredEvent = DeferredEvent(eventId: string, reason: string, deferredAt: int)

  function EventTime(e: CloudEvent): int {
    if e.notificationPostTime.Some? then e.notificationPostTime.value else e.alarmTime
  }

  /** `is_automatic_event_fresh` */
  predicate IsFresh(e: CloudEvent, now: int) {
    now - EventTime(e) <= AUTOMATIC_RECORDING_EVENT_MAX_AGE
  }

  /** The fields of one queue. `deferred` is the list of the values of the
      insertion-ordered dictionary `_deferred`. */
  datatype Queue = Queue(
    processed: seq<string>,
    known: set<string>,
    pending: seq<CloudEvent>,
    completed: seq<CompletedRecording>,
    deferred: seq<DeferredEvent>)

  const EMPTY_QUEUE: Queue := Queue([], {}, [], [], [])

  function PendingIds(pending: seq<CloudEvent>): set<string> {
    set e | e in pending :: e.eventId
  }

  function DeferredIds(deferred: seq<DeferredEvent>): set<string> {
    set d | d in deferred :: d.eventId
  }

  function Fingerprints(completed: seq<CompletedRecording>): set<string> {
    set r | r in completed :: r.fingerprint
  }

  predicate IsDeferred(q: Queue, id: string) {
    id in DeferredIds(q.deferred)
  }

  function KeepEvents(pending: seq<CloudEvent>, drop: set<string>): seq<CloudEvent> {
    if pending == [] then []
    else (if pending[0].eventId in drop then [] else [pending[0]]) + KeepEvents(pending[1..], drop)
  }

  /** `dict.pop(key, None)` for each key to drop */
  function KeepDeferred(deferred: seq<DeferredEvent>, drop: set<string>): seq<DeferredEvent> {
    if deferred == [] then []
    else (if deferred[0].eventId in drop then [] else [deferred[0]]) + KeepDeferred(deferred[1..], drop)
  }

  /** `dict[key] = value`: an existing key keeps its place. */
  function PutDeferred(deferred: seq<DeferredEvent>, d: DeferredEvent): seq<DeferredEvent> {
    if deferred == [] then [d]
    else if deferred[0].eventId == d.eventId then [d] + deferred[1..]
    else [deferred[0]] + PutDeferred(deferred[1..], d)
  }

  function Enqueue(q: Queue, e: CloudEvent): (Queue, bool) {
    if e.eventId in q.known then (q, false)
    else
      var processed := q.processed + [e.eventId];
      var known := q.known + {e.eventId};
      var pending := q.pending + [e];
      var forget := |processed| > MAX_PROCESSED_EVENT_IDS;
      var evict := |pending| > MAX_PENDING_EVENTS;
      (Queue(
         if forget then processed[1..] else processed,
         if forget && processed[0] !in PendingIds(pending) then known - {processed[0]} else known,
         if evict then pending[1..] else pending,
         q.completed,
         if evict then KeepDeferred(q.deferred, {pending[0].eventId}) else q.deferred),
       true)
  }

  function Remove(q: Queue, id: string): (Queue, bool) {
    var pending := KeepEvents(q.pending, {id});
    (q.(pending := pending, deferred := KeepDeferred(q.deferred, {id})),
     |pending| != |q.pending| || IsDeferred(q, id))
  }

  function Defer(q: Queue, id: string, reason: string, at: int): (Queue, bool) {
    var d := DeferredEvent(id, reason, at);
    if id !in PendingIds(q.pending) || d in q.deferred then (q, false)
    else (q.(deferred := PutDeferred(q.deferred, d)), true)
  }

  function Rearm(q: Queue, id: string): (Queue, bool) {
    (q.(deferred := KeepDeferred(q.deferred, {id})), IsDeferred(q, id))
  }

  /** The ids that `discard_deferred` removes: requested, pending and deferred. */
  function Discarded(q: Queue, requested: set<string>): set<string> {
    set e | e in q.pending && e.eventId in requested && IsDeferred(q, e.eventId) :: e.eventId
  }

  function DiscardDeferred(q: Queue, requested: set<string>): Queue {
    var removed := Discarded(q, requested);
    q.(pending := KeepEvents(q.pending, removed), deferred := KeepDeferred(q.deferred, removed))
  }

  function Last<T>(s: seq<T>, n: nat): (r: seq<T>)
    ensures |r| <= n && |r| <= |s|
  {
    if |s| > n then s[|s| - n..] else s
  }

  function Remember(q: Queue, r: CompletedRecording): (Queue, bool) {
    if r.fingerprint in Fingerprints(q.completed) then (q, false)
    else (q.(completed := Last(q.completed + [r], MAX_COMPLETED_RECORDINGS)), true)
  }

  // ---- the storage codec ----

  // One entry of a stored list; an entry that cannot be decoded is skipped.
  datatype Item<T> = Malformed | Item(value: T)

  // None is a value that is not a list.
  datatype Storage = Storage(
    processed: Option<seq<string>>,
    pending: Option<seq<Item<CloudEvent>>>,
    completed: Option<seq<Item<CompletedRecording>>>,
    deferred: Option<seq<Item<DeferredEvent>>>)

  function ReadEvent(e: CloudEvent): CloudEvent {
    if e.source == Unnamed then e.(source := MessageCenter) else e
  }

  function ReadDeferred(d: DeferredEvent): DeferredEvent {
    if d.reason == "" then d.(reason := "unspecified") else d
  }

  function Written<T>(s: seq<T>): (r: seq<Item<T>>)
    ensures |r| == |s| && forall i :: 0 <= i < |s| ==> r[i] == Item(s[i])
  {
    if s == [] then [] else [Item(s[0])] + Written(s[1..])
  }

  function AsStorage(q: Queue): Storage {
    Storage(
      Some(Last(q.processed, MAX_PROCESSED_EVENT_IDS)),
      Some(Written(q.pending)),
      Some(Written(Last(q.completed, MAX_COMPLETED_RECORDINGS))),
      Some(Written(q.deferred)))
  }

  function ReadEvents(items: seq<Item<CloudEvent>>): seq<CloudEvent> {
    if items == [] then []
    else ReadEvents(items[..|items| - 1])
         + (match items[|items| - 1] case Malformed => [] case Item(e) => [ReadEvent(e)])
  }

  function ReadRecordings(items: seq<Item<CompletedRecording>>): seq<CompletedRecording> {
    if items == [] then []
    else ReadRecordings(items[..|items| - 1])
         + (match items[|items| - 1] case Malformed => [] case Item(r) => [r])
  }

  function ReadDeferrals(items: seq<Item<DeferredEvent>>, pendingIds: set<string>): seq<DeferredEvent> {
    if items == [] then []
    else
      var before := ReadDeferrals(items[..|items| - 1], pendingIds);
      match items[|items| - 1]
      case Malformed => before
      case Item(d) => if d.eventId in pendingIds then PutDeferred(before, ReadDeferred(d)) else before
  }

  /** Pending ids that the dedupe list does not hold are appended to it. */
  function AppendUnknown(processed: seq<string>, known: set<string>, events: seq<CloudEvent>)
    : (seq<string>, set<string>)
  {
    if events == [] then (processed, known)
    else
      var (p, k) := AppendUnknown(processed, known, events[..|events| - 1]);
      var id := events[|events| - 1].eventId;
      if id in k then (p, k) else (p + [id], k + {id})
  }

  function SetOf(s: seq<string>): set<string> {
    set x | x in s
  }

  function Load(q: Queue, data: Option<Storage>): Queue {
    if data.None? then q
    else
      var d := data.value;
      var q0 := q.(deferred := []);
      var q1 := if d.processed.None? then q0
                else var p := Last(d.processed.value, MAX_PROCESSED_EVENT_IDS);
                  q0.(processed := p, known := SetOf(p));
      var q2 := if d.pending.None? then q1 else LoadPending(q1, Last(d.pending.value, MAX_PENDING_EVENTS));
      var q3 := if d.completed.None? then q2
                else q2.(completed := ReadRecordings(Last(d.completed.value, MAX_COMPLETED_RECORDINGS)));
      if d.deferred.None? then q3
      else q3.(deferred := ReadDeferrals(Last(d.deferred.value, MAX_PENDING_EVENTS), PendingIds(q3.pending)))
  }

  function LoadPending(q: Queue, items: seq<Item<CloudEvent>>): Queue {
    var events := ReadEvents(items);
    var (p, k) := AppendUnknown(q.processed, q.known, events);
    q.(processed := p, known := k, pending := events)
  }

  /** `EventQueue`, updated in place. */
  class EventQueue {
    var processed: seq<string>
    var known: set<string>
    var pending: seq<CloudEvent>
    var completed: seq<CompletedRecording>
    var deferred: seq<DeferredEvent>

    function State(): Queue
      reads this
    {
      Queue(processed, known, pending, completed, deferred)
    }

    constructor ()
      ensures State() == EMPTY_QUEUE
    {
      processed, known, pending, completed, deferred := [], {}, [], [], [];
    }

    method EnqueueEvent(e: CloudEvent) returns (accepted: bool)
      modifies this
      ensures (State(), accepted) == Enqueue(old(State()), e)
    {
      if e.eventId in known {
        return false;
      }
      processed := processed + [e.eventId];
      known := known + {e.eventId};
      pending := pending + [e];
      if |processed| > MAX_PROCESSED_EVENT_IDS {
        var expired := processed[0];
        processed := processed[1..];
        if expired !in PendingIds(pending) {
          known := known - {expired};
        }
      }
      if |pending| > MAX_PENDING_EVENTS {
        var expiredPending := pending[0];
        pending := pending[1..];
        deferred := KeepDeferred(deferred, {expiredPending.eventId});
      }
      accepted := true;
    }

    method RemoveEvent(id: string) returns (changed: bool)
      modifies this
      ensures (State(), changed) == Remove(old(State()), id)
    {
      var before := |pending|;
      pending := KeepEvents(pending, {id});
      var deferredRemoved := id in DeferredIds(deferred);
      deferred := KeepDeferred(deferred, {id});
      changed := |pending| != before || deferredRemoved;
    }

    method DeferEvent(id: string, reason: string, at: int) returns (changed: bool)
      modifies this
      ensures (State(), changed) == Defer(old(State()), id, reason, at)
    {
      if id !in PendingIds(pending) {
        return false;
      }
      var d := DeferredEvent(id, reason, at);
      if d in deferred {
        return false;
      }
      deferred := PutDeferred(deferred, d);
      changed := true;
    }

    method RearmEvent(id: string) returns (changed: bool)
      modifies this
      ensures (State(), changed) == Rearm(old(State()), id)
    {
      changed := id in DeferredIds(deferred);
      deferred := KeepDeferred(deferred, {id});
    }

    method DiscardDeferredEvents(requested: set<string>) returns (removed: set<string>)
      modifies this
      ensures removed == Discarded(old(State()), requested)
      ensures State() == DiscardDeferred(old(State()), requested)
    {
      removed := Discarded(State(), requested);
      if removed == {} {
        KeepAll(pending, deferred);
        return;
      }
      pending := KeepEvents(pending, removed);
      deferred := KeepDeferred(deferred, removed);
    }

    method RememberCompleted(r: CompletedRecording) returns (added: bool)
      modifies this
      ensures (State(), added) == Remember(old(State()), r)
    {
      if r.fingerprint in Fingerprints(completed) {
        return false;
      }
      completed := completed + [r];
      if |completed| > MAX_COMPLETED_RECORDINGS {
        completed := completed[|completed| - MAX_COMPLETED_RECORDINGS..];
      }
      added := true;
    }

    method LoadStorage(data: Option<Storage>)
      modifies this
      ensures State() == Load(old(State()), data)
    {
      if data.None? {
        return;
      }
      deferred := [];
      if data.value.processed.Some? {
        processed := Last(data.value.processed.value, MAX_PROCESSED_EVENT_IDS);
        known := SetOf(processed);
      }
      if data.value.pending.Some? {
        RestorePending(Last(data.value.pending.value, MAX_PENDING_EVENTS));
      }
      if data.value.completed.Some? {
        RestoreCompleted(Last(data.value.completed.value, MAX_COMPLETED_RECORDINGS));
      }
      if data.value.deferred.Some? {
        RestoreDeferred(Last(data.value.deferred.value, MAX_PENDING_EVENTS));
      }
    }

    method RestorePending(items: seq<Item<CloudEvent>>)
      modifies this
      ensures State() == LoadPending(old(State()), items)
    {
      var restored: seq<CloudEvent> := [];
      for i := 0 to |items|
        invariant restored == ReadEvents(items[..i])
        invariant State() == old(State())
      {
        assert items[..i + 1][..i] == items[..i];
        if items[i].Item? {
          restored := restored + [ReadEvent(items[i].value)];
        }
      }
      assert items[..|items|] == items;
      pending := restored;
      for i := 0 to |restored|
        invariant (processed, known) == AppendUnknown(old(processed), old(known), restored[..i])
        invariant pending == restored && completed == old(completed) && deferred == old(deferred)
      {
        assert restored[..i + 1][..i] == restored[..i];
        var id := restored[i].eventId;
        if id !in known {
          processed := processed + [id];
          known := known + {id};
        }
      }
      assert restored[..|restored|] == restored;
    }

    method RestoreCompleted(items: seq<Item<CompletedRecording>>)
      modifies this
      ensures State() == old(State()).(completed := ReadRecordings(items))
    {
      var restored: seq<CompletedRecording> := [];
      for i := 0 to |items|
        invariant restored == ReadRecordings(items[..i])
        invariant State() == old(State())
      {
        assert items[..i + 1][..i] == items[..i];
        if items[i].Item? {
          restored := restored + [items[i].value];
        }
      }
      assert items[..|items|] == items;
      completed := restored;
    }

    method RestoreDeferred(items: seq<Item<DeferredEvent>>)
      modifies this
      ensures State() == old(State()).(deferred := ReadDeferrals(items, PendingIds(old(pending))))
    {
      var pendingIds := PendingIds(pending);
      var restored: seq<DeferredEvent> := [];
      for i := 0 to |items|
        invariant restored == ReadDeferrals(items[..i], pendingIds)
        invariant State() == old(State())
      {
        assert items[..i + 1][..i] == items[..i];
        if items[i].Item? && items[i].value.eventId in pendingIds {
          restored := PutDeferred(restored, ReadDeferred(items[i].value));
        }
      }
      assert items[..|items|] == items;
      deferred := restored;
    }
  }

  lemma {:induction false} KeepAll(pending: seq<CloudEvent>, deferred: seq<DeferredEvent>)
    ensures KeepEvents(pending, {}) == pending && KeepDeferred(deferred, {}) == deferred
    decreases |pending| + |deferred|
  {
    if pending != [] {
      KeepAll(pending[1..], deferred);
    } else if deferred != [] {
      KeepAll(pending, deferred[1..]);
    }
  }
}
