/** Loading a stored queue of any content: lists with malformed, repeated or too
    many entries, and absent lists. */
module QueueLoad {
  import opened Basics
  import opened Events
  import opened QueueTheorems

  function ValueOf<T>(item: Item<T>): (r: seq<T>)
    ensures |r| <= 1
  {
    match item
    case Malformed => []
    case Item(value) => [value]
  }

  /** The well-formed entries of a stored list, in order. */
  function WellFormed<T>(items: seq<Item<T>>): (r: seq<T>)
    ensures |r| <= |items|
  {
    if items == [] then [] else ValueOf(items[0]) + WellFormed(items[1..])
  }

  lemma FirstItem<T>(item: Item<T>, rest: seq<Item<T>>)
    ensures WellFormed([item] + rest) == ValueOf(item) + WellFormed(rest)
  {
    assert ([item] + rest)[0] == item && ([item] + rest)[1..] == rest;
  }

  lemma {:induction false} OneMoreItem<T>(items: seq<Item<T>>, item: Item<T>)
    ensures WellFormed(items + [item]) == WellFormed(items) + ValueOf(item)
    decreases |items|
  {
    hide ValueOf;
    if items == [] {
      FirstItem(item, []);
      assert [] + [item] == [item] + [];
    } else {
      var head, rest := items[0], items[1..];
      FirstItem(head, rest);
      FirstItem(head, rest + [item]);
      OneMoreItem(rest, item);
      hide WellFormed;
      assert items == [head] + rest;
      assert items + [item] == [head] + (rest + [item]);
    }
  }

  lemma {:induction false} EventsRead(items: seq<Item<CloudEvent>>)
    ensures ReadEvents(items) == ReadAll(WellFormed(items))
    decreases |items|
  {
    hide ReadEvent;
    if items != [] {
      var n := |items| - 1;
      EventsRead(items[..n]);
      OneMoreItem(items[..n], items[n]);
      assert items == items[..n] + [items[n]];
      var before := WellFormed(items[..n]);
      assert before + [] == before;
      if items[n].Item? {
        assert (before + [items[n].value])[..|before|] == before;
      }
    }
  }

  lemma {:induction false} RecordingsRead(items: seq<Item<CompletedRecording>>)
    ensures ReadRecordings(items) == WellFormed(items)
    decreases |items|
  {
    if items != [] {
      var n := |items| - 1;
      RecordingsRead(items[..n]);
      OneMoreItem(items[..n], items[n]);
      assert items == items[..n] + [items[n]];
    }
  }

  /** The last well-formed deferral stored for an event that is pending. */
  ghost predicate LastStored(items: seq<Item<DeferredEvent>>, ids: set<string>, i: nat) {
    && i < |items| && items[i].Item? && items[i].value.eventId in ids
    && forall j :: i < j < |items| && items[j].Item? ==> items[j].value.eventId != items[i].value.eventId
  }

  ghost predicate Restored(items: seq<Item<DeferredEvent>>, ids: set<string>, d: DeferredEvent) {
    exists i: nat :: LastStored(items, ids, i) && d == ReadDeferred(items[i].value)
  }

  lemma {:induction false} PutMembers(p: seq<DeferredEvent>, d: DeferredEvent, x: DeferredEvent)
    requires DistinctDeferred(p)
    ensures x in PutDeferred(p, d) <==> x == d || (x in p && x.eventId != d.eventId)
    decreases |p|
  {
    if p != [] {
      assert p == [p[0]] + p[1..];
      PutMembers(p[1..], d, x);
    }
  }

  lemma StoredOneMore(items: seq<Item<DeferredEvent>>, ids: set<string>, item: Item<DeferredEvent>, x: DeferredEvent)
    ensures Restored(items + [item], ids, x)
            <==> if item.Item? && item.value.eventId in ids
                 then x == ReadDeferred(item.value) || (Restored(items, ids, x) && x.eventId != item.value.eventId)
                 else Restored(items, ids, x)
  {
    var all := items + [item];
    assert forall n :: 0 <= n < |items| ==> all[n] == items[n];
    if i: nat :| LastStored(all, ids, i) && x == ReadDeferred(all[i].value) {
      if i < |items| {
        assert LastStored(items, ids, i);
      }
    }
    if i: nat :| LastStored(items, ids, i) && x == ReadDeferred(items[i].value) {
      if item.Malformed? || item.value.eventId != x.eventId {
        assert LastStored(all, ids, i);
      }
    }
    if item.Item? && item.value.eventId in ids {
      assert LastStored(all, ids, |items|);
    }
  }

  lemma {:induction false} DeferralsRead(items: seq<Item<DeferredEvent>>, ids: set<string>, x: DeferredEvent)
    ensures DistinctDeferred(ReadDeferrals(items, ids))
    ensures x in ReadDeferrals(items, ids) <==> Restored(items, ids, x)
    decreases |items|
  {
    hide ReadDeferred, PutDeferred, DistinctDeferred;
    if items == [] {
      NoneStored(ids, x);
    } else {
      var n := |items| - 1;
      var before := ReadDeferrals(items[..n], ids);
      assert items == items[..n] + [items[n]];
      DeferralsRead(items[..n], ids, x);
      StoredOneMore(items[..n], ids, items[n], x);
      if items[n].Item? && items[n].value.eventId in ids {
        var d := ReadDeferred(items[n].value);
        SameId(items[n].value);
        PutDeferredDistinct(before, d);
        PutMembers(before, d, x);
      }
    }
  }

  lemma NoneStored(ids: set<string>, x: DeferredEvent)
    ensures DistinctDeferred([]) && !Restored([], ids, x)
  {
  }

  lemma SameId(d: DeferredEvent)
    ensures ReadDeferred(d).eventId == d.eventId
  {
  }

  // ---- the whole load ----

  /** The pending list becomes the well-formed ones among the newest 100 stored, and
      the completed recordings those among the newest 256. */
  lemma LoadedLists(q: Queue, d: Storage)
    ensures var r := Load(q, Some(d));
      && (d.pending.Some? ==> r.pending == ReadAll(WellFormed(Last(d.pending.value, MAX_PENDING_EVENTS))))
      && (d.completed.Some? ==> r.completed == WellFormed(Last(d.completed.value, MAX_COMPLETED_RECORDINGS)))
  {
    if d.pending.Some? {
      EventsRead(Last(d.pending.value, MAX_PENDING_EVENTS));
    }
    if d.completed.Some? {
      RecordingsRead(Last(d.completed.value, MAX_COMPLETED_RECORDINGS));
    }
    hide ReadEvents, ReadRecordings, ReadDeferrals, AppendUnknown, ReadAll, WellFormed, PendingIds, SetOf;
  }

  /** A deferral survives if and only if it is the last well-formed one for its event
      among the newest 100 stored, and that event is pending. Nothing of what was
      deferred before the load does. */
  lemma LoadedDeferred(q: Queue, d: Storage, x: DeferredEvent)
    ensures var r := Load(q, Some(d));
      && DistinctDeferred(r.deferred)
      && (x in r.deferred
          <==> d.deferred.Some? && Restored(Last(d.deferred.value, MAX_PENDING_EVENTS), PendingIds(r.pending), x))
  {
    hide ReadEvents, ReadRecordings, ReadDeferrals, AppendUnknown, PendingIds, Restored;
    var r := Load(q, Some(d));
    if d.deferred.Some? {
      DeferralsRead(Last(d.deferred.value, MAX_PENDING_EVENTS), PendingIds(r.pending), x);
    }
  }

  lemma {:induction false} Appended(p: seq<string>, known: set<string>, events: seq<CloudEvent>)
    ensures var (p', k') := AppendUnknown(p, known, events);
      && k' == known + PendingIds(events) && p <= p' && |p'| <= |p| + |events|
      && (SetOf(p) == known ==> SetOf(p') == k')
    decreases |events|
  {
    if events != [] {
      var n := |events| - 1;
      Appended(p, known, events[..n]);
      var (p1, k1) := AppendUnknown(p, known, events[..n]);
      var id := events[n].eventId;
      assert events == events[..n] + [events[n]];
      assert PendingIds(events) == PendingIds(events[..n]) + {id};
      hide PendingIds;
      assert SetOf(p1 + [id]) == SetOf(p1) + {id};
    }
  }

  /** Whatever was stored, what the load leaves is within the queue's bounds, its
      dedupe set is its list, and that knows every pending event; only the ids of the
      pending events may be repeated, when the stored ones are. */
  lemma LoadedIsBounded(q: Queue, d: Storage)
    requires d.processed.Some? && d.pending.Some?
    ensures var r := Load(q, Some(d));
      && |r.pending| <= MAX_PENDING_EVENTS && |r.processed| <= MAX_PROCESSED_EVENT_IDS + MAX_PENDING_EVENTS
      && Last(d.processed.value, MAX_PROCESSED_EVENT_IDS) <= r.processed
      && r.known == SetOf(r.processed) && PendingIds(r.pending) <= r.known
  {
    LoadedLists(q, d);
    var p := Last(d.processed.value, MAX_PROCESSED_EVENT_IDS);
    Appended(p, SetOf(p), Load(q, Some(d)).pending);
    hide ReadEvents, ReadRecordings, ReadDeferrals, AppendUnknown, PendingIds, SetOf, WellFormed;
  }

  /** A part that was not stored as a list stays as it is; the deferrals go. */
  lemma AbsentPartsStay(q: Queue, d: Storage)
    ensures var r := Load(q, Some(d));
      && (d.pending.None? ==> r.pending == q.pending)
      && (d.completed.None? ==> r.completed == q.completed)
      && (d.processed.None? && d.pending.None? ==> r.processed == q.processed && r.known == q.known)
      && (d.deferred.None? ==> r.deferred == [])
      && Load(q, None) == q
  {
    hide ReadEvents, ReadRecordings, ReadDeferrals, AppendUnknown, PendingIds, SetOf;
  }
}
