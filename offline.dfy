/**
 * The offline cache service (src/services/offlineService.ts).
 *
 * AsyncStorage is the map `storage` from keys to stored values; JSON
 * serialisation is the identity, and a stored value that does not parse as
 * the expected list reads as `Unparsable`. The health probe is an oracle:
 * its outcome and the platform are parameters, as is the clock (`now`).
 */
module Offline {
  import opened Wrappers
  import opened Lists
  import opened Itineraries

  const ItinerariesKey: string := "@guia_aventureiro:offline_itineraries"
  const PendingSyncKey: string := "@guia_aventureiro:pending_sync"

  /** The connectivity verdict is trusted for 10 000 ms. */
  const CheckInterval: int := 10000

  datatype ActionKind = Create | Update | Delete

  datatype PendingAction = PendingAction(id: string, kind: ActionKind, data: Option<string>, timestamp: int)

  /** An action as callers pass it, before it is stamped (`Omit<PendingSyncAction, 'timestamp'>`). */
  datatype NewAction = NewAction(id: string, kind: ActionKind, data: Option<string>)

  datatype Stored = ItineraryList(items: seq<Itinerary>) | ActionList(actions: seq<PendingAction>) | Unparsable

  /** The dynamically typed argument of `saveItinerariesOffline`: an array or anything else. */
  datatype ItineraryPayload = ArrayValue(items: seq<Itinerary>) | NonArray

  /** `Platform.OS === 'web' && typeof navigator !== 'undefined'`, with `navigator.onLine`; or any other platform. */
  datatype Platform = WebWithNavigator(navigatorOnLine: bool) | OtherPlatform

  /** The health request either answers (with `response.ok`) or fails: network error or the abort timeout. */
  datatype ProbeOutcome = Responded(ok: bool) | NetworkError

  datatype CacheInfo = CacheInfo(itinerariesCount: nat, pendingSyncCount: nat, isOnline: bool)

  /** `getOfflineItineraries` on a storage state: the stored list, or [] when absent or unparsable. */
  function SnapshotIn(storage: map<string, Stored>): seq<Itinerary> {
    if ItinerariesKey in storage && storage[ItinerariesKey].ItineraryList? then storage[ItinerariesKey].items else []
  }

  /** `getPendingSync` on a storage state: the stored queue, or [] when absent or unparsable. */
  function QueueIn(storage: map<string, Stored>): seq<PendingAction> {
    if PendingSyncKey in storage && storage[PendingSyncKey].ActionList? then storage[PendingSyncKey].actions else []
  }

  /** Whether a probe that is not answered from the cache sends the health request. */
  predicate SendsProbe(platform: Platform) {
    platform != WebWithNavigator(false)
  }

  /** The verdict of a probe that is not answered from the cache. */
  function ProbeVerdict(platform: Platform, probe: ProbeOutcome): (online: bool)
    ensures online ==> probe == Responded(true)
    ensures !SendsProbe(platform) ==> !online
    ensures SendsProbe(platform) ==> (online <==> probe == Responded(true))
  {
    match platform
    case WebWithNavigator(onLine) => onLine && probe == Responded(true)
    case OtherPlatform => probe == Responded(true)
  }

  /**
   * One `checkConnection` step: within the window the cached verdict and
   * check time stay; otherwise the check time becomes `now` and the verdict
   * is that of a fresh probe.
   */
  predicate Checked(wasOnline: bool, wasLastCheck: int, now: int, platform: Platform, probe: ProbeOutcome,
                    online: bool, lastCheck: int)
  {
    if now - wasLastCheck < CheckInterval then online == wasOnline && lastCheck == wasLastCheck
    else online == ProbeVerdict(platform, probe) && lastCheck == now
  }

  /** The record with that id, dropped wherever it occurs: `itineraries.filter(i => i._id !== id)`. */
  function WithoutItinerary(items: seq<Itinerary>, id: string): seq<Itinerary> {
    Filter(items, (r: Itinerary) => r.id != id)
  }

  /** The actions with that id, dropped wherever they occur: `pending.filter(a => a.id !== actionId)`. */
  function WithoutAction(actions: seq<PendingAction>, id: string): seq<PendingAction> {
    Filter(actions, (a: PendingAction) => a.id != id)
  }

  /** `itineraries.findIndex(i => i._id === id)`: the first position holding that id, or -1. */
  function FindIndex(items: seq<Itinerary>, id: string): (k: int)
    ensures -1 <= k < |items|
    ensures k >= 0 ==> items[k].id == id && forall j :: 0 <= j < k ==> items[j].id != id
    ensures k == -1 ==> forall j :: 0 <= j < |items| ==> items[j].id != id
  {
    if items == [] then -1
    else if items[0].id == id then 0
    else
      var k := FindIndex(items[1..], id);
      if k == -1 then -1 else k + 1
  }

  /** The ids of a list of actions. */
  function IdsOf(actions: seq<PendingAction>): set<string> {
    set a | a in actions :: a.id
  }

  /** The queue left after removing, one `removePendingSync` at a time, the ids of the first `i` actions read. */
  function RemainingAfter(pending: seq<PendingAction>, i: nat): seq<PendingAction>
    requires i <= |pending|
  {
    Filter(pending, (a: PendingAction) => a.id !in IdsOf(pending[..i]))
  }

  /** Removing the next action's id advances the drain by one. */
  lemma RemainingStep(pending: seq<PendingAction>, i: nat)
    requires i < |pending|
    ensures WithoutAction(RemainingAfter(pending, i), pending[i].id) == RemainingAfter(pending, i + 1)
  {
    assert pending[..i + 1] == pending[..i] + [pending[i]];
    assert IdsOf(pending[..i + 1]) == IdsOf(pending[..i]) + {pending[i].id};
    FilterTwice(pending, (a: PendingAction) => a.id !in IdsOf(pending[..i]),
                (a: PendingAction) => a.id != pending[i].id,
                (a: PendingAction) => a.id !in IdsOf(pending[..i + 1]));
  }

  /** Before any removal the whole queue remains; after removing every id read, nothing does. */
  lemma RemainingEnds(pending: seq<PendingAction>)
    ensures RemainingAfter(pending, 0) == pending
    ensures RemainingAfter(pending, |pending|) == []
  {
    FilterKeepsAll(pending, (a: PendingAction) => a.id !in IdsOf(pending[..0]));
    assert pending[..|pending|] == pending;
    FilterDropsAll(pending, (a: PendingAction) => a.id !in IdsOf(pending[..|pending|]));
  }

  class OfflineService {
    var isOnline: bool
    var lastCheck: int
    var storage: map<string, Stored>

    /** A fresh service assumes it is online and has never checked; the storage survives restarts. */
    constructor (storage: map<string, Stored>)
      ensures isOnline && lastCheck == 0 && this.storage == storage
    {
      isOnline := true;
      lastCheck := 0;
      this.storage := storage;
    }

    /** What `getOfflineItineraries` would return now. */
    function Snapshot(): seq<Itinerary>
      reads this`storage
    {
      SnapshotIn(storage)
    }

    /** What `getPendingSync` would return now. */
    function Queue(): seq<PendingAction>
      reads this`storage
    {
      QueueIn(storage)
    }

    /**
     * `checkConnection`: answered from the cached verdict inside the 10 s
     * window, otherwise stamps `lastCheck` and probes. A failed, timed-out or
     * non-ok probe gives false, and on the web `navigator.onLine == false`
     * gives false without any request. `probed` tells whether the health
     * request was sent.
     */
    method CheckConnection(now: int, platform: Platform, probe: ProbeOutcome) returns (online: bool, probed: bool)
      modifies this`isOnline, this`lastCheck
      ensures online == isOnline
      ensures Checked(old(isOnline), old(lastCheck), now, platform, probe, isOnline, lastCheck)
      ensures probed <==> now - old(lastCheck) >= CheckInterval && SendsProbe(platform)
    {
      if now - lastCheck < CheckInterval {
        return isOnline, false;
      }
      lastCheck := now;
      match platform {
        case WebWithNavigator(onLine) =>
          isOnline := onLine;
          probed := false;
          if isOnline {
            probed := true;
            isOnline := probe == Responded(true);
          }
          online := isOnline;
        case OtherPlatform =>
          probed := true;
          isOnline := probe == Responded(true);
          online := isOnline;
      }
    }

    /** `getConnectionStatus`: the cached verdict, with no probe and no change. */
    method GetConnectionStatus() returns (online: bool)
      ensures online == isOnline
    {
      online := isOnline;
    }

    /**
     * `saveItinerariesOffline`: a non-array is refused and storage is left
     * alone; an array overwrites the snapshot whole, so that the next read
     * returns exactly it. The pending queue is never touched.
     */
    method SaveItinerariesOffline(payload: ItineraryPayload)
      modifies this`storage
      ensures payload.NonArray? ==> storage == old(storage)
      ensures payload.ArrayValue? ==> storage == old(storage)[ItinerariesKey := ItineraryList(payload.items)]
      ensures payload.ArrayValue? ==> Snapshot() == payload.items
      ensures Queue() == old(Queue())
    {
      if payload.NonArray? {
        return;
      }
      storage := storage[ItinerariesKey := ItineraryList(payload.items)];
    }

    /** `getOfflineItineraries`: the snapshot, [] when absent or corrupt. */
    method GetOfflineItineraries() returns (items: seq<Itinerary>)
      ensures items == Snapshot()
      ensures (ItinerariesKey !in storage || storage[ItinerariesKey] == Unparsable) ==> items == []
    {
      if ItinerariesKey in storage && storage[ItinerariesKey].ItineraryList? {
        items := storage[ItinerariesKey].items;
      } else {
        items := [];
      }
    }

    /**
     * `saveItineraryOffline`: replaces the first record with the same id
     * (same length), or appends the record (one longer); only the snapshot
     * key is written.
     */
    method SaveItineraryOffline(itinerary: Itinerary)
      modifies this`storage
      ensures var before := old(Snapshot()); var k := FindIndex(before, itinerary.id);
        storage == old(storage)[ItinerariesKey := ItineraryList(if k >= 0 then before[k := itinerary] else before + [itinerary])]
      ensures var before := old(Snapshot()); var k := FindIndex(before, itinerary.id);
        Snapshot() == (if k >= 0 then before[k := itinerary] else before + [itinerary])
      ensures itinerary in Snapshot()
      ensures |Snapshot()| == |old(Snapshot())| + (if FindIndex(old(Snapshot()), itinerary.id) >= 0 then 0 else 1)
      ensures Queue() == old(Queue())
    {
      var items := GetOfflineItineraries();
      var index := FindIndex(items, itinerary.id);
      if index >= 0 {
        items := items[index := itinerary];
      } else {
        items := items + [itinerary];
      }
      SaveItinerariesOffline(ArrayValue(items));
      assert items[if index >= 0 then index else |items| - 1] == itinerary;
    }

    /** `removeItineraryOffline`: every record with that id dropped, the others kept in order. */
    method RemoveItineraryOffline(id: string)
      modifies this`storage
      ensures storage == old(storage)[ItinerariesKey := ItineraryList(WithoutItinerary(old(Snapshot()), id))]
      ensures forall i :: 0 <= i < |Snapshot()| ==> Snapshot()[i].id != id
      ensures Queue() == old(Queue())
    {
      var items := GetOfflineItineraries();
      var filtered := WithoutItinerary(items, id);
      SaveItinerariesOffline(ArrayValue(filtered));
    }

    /** `addPendingSync`: exactly one action, stamped with `now`, after all existing ones. */
    method AddPendingSync(action: NewAction, now: int)
      modifies this`storage
      ensures storage == old(storage)[PendingSyncKey := ActionList(old(Queue()) + [PendingAction(action.id, action.kind, action.data, now)])]
      ensures Queue() == old(Queue()) + [PendingAction(action.id, action.kind, action.data, now)]
      ensures Snapshot() == old(Snapshot())
    {
      var pending := GetPendingSync();
      var newAction := PendingAction(action.id, action.kind, action.data, now);
      pending := pending + [newAction];
      storage := storage[PendingSyncKey := ActionList(pending)];
    }

    /** `getPendingSync`: the queue, oldest first, [] when absent or corrupt. */
    method GetPendingSync() returns (pending: seq<PendingAction>)
      ensures pending == Queue()
      ensures (PendingSyncKey !in storage || storage[PendingSyncKey] == Unparsable) ==> pending == []
    {
      if PendingSyncKey in storage && storage[PendingSyncKey].ActionList? {
        pending := storage[PendingSyncKey].actions;
      } else {
        pending := [];
      }
    }

    /** `removePendingSync`: every action with that id removed, the others kept in order. */
    method RemovePendingSync(actionId: string)
      modifies this`storage
      ensures storage == old(storage)[PendingSyncKey := ActionList(WithoutAction(old(Queue()), actionId))]
      ensures forall i :: 0 <= i < |Queue()| ==> Queue()[i].id != actionId
      ensures Snapshot() == old(Snapshot())
    {
      var pending := GetPendingSync();
      var filtered := WithoutAction(pending, actionId);
      storage := storage[PendingSyncKey := ActionList(filtered)];
    }

    /**
     * `syncPendingActions`: offline, nothing changes; online, every action
     * read is removed one `removePendingSync` at a time, so the queue ends
     * empty. No endpoint is called for any action.
     */
    method SyncPendingActions(now: int, platform: Platform, probe: ProbeOutcome) returns (online: bool)
      modifies this`isOnline, this`lastCheck, this`storage
      ensures online == isOnline
      ensures Checked(old(isOnline), old(lastCheck), now, platform, probe, isOnline, lastCheck)
      ensures !online ==> storage == old(storage)
      ensures online ==> storage == if old(Queue()) == [] then old(storage) else old(storage)[PendingSyncKey := ActionList([])]
      ensures online ==> Queue() == [] && Snapshot() == old(Snapshot())
    {
      var probed;
      online, probed := CheckConnection(now, platform, probe);
      if !online {
        return;
      }
      var pending := GetPendingSync();
      if |pending| == 0 {
        return;
      }
      DrainQueue(pending);
    }

    /** The loop of `syncPendingActions`: each action read is removed by its id, in order. */
    method DrainQueue(pending: seq<PendingAction>)
      requires pending == Queue() && pending != []
      modifies this`storage
      ensures storage == old(storage)[PendingSyncKey := ActionList([])]
    {
      RemainingEnds(pending);
      ghost var rest := RemainingAfter(pending, 0);
      assert storage == old(storage)[PendingSyncKey := ActionList(rest)];
      for i := 0 to |pending|
        invariant rest == RemainingAfter(pending, i)
        invariant storage == old(storage)[PendingSyncKey := ActionList(rest)]
      {
        RemainingStep(pending, i);
        RemovePendingSync(pending[i].id);
        rest := RemainingAfter(pending, i + 1);
      }
    }

    /** `clearOfflineCache`: both keys removed, so both lists read as empty. */
    method ClearOfflineCache()
      modifies this`storage
      ensures storage == old(storage) - {ItinerariesKey, PendingSyncKey}
      ensures Snapshot() == [] && Queue() == []
    {
      storage := storage - {ItinerariesKey, PendingSyncKey};
    }

    /** `getCacheInfo`: the two list lengths and the (possibly re-probed) verdict. */
    method GetCacheInfo(now: int, platform: Platform, probe: ProbeOutcome) returns (info: CacheInfo)
      modifies this`isOnline, this`lastCheck
      ensures info == CacheInfo(|Snapshot()|, |Queue()|, isOnline)
      ensures Checked(old(isOnline), old(lastCheck), now, platform, probe, isOnline, lastCheck)
    {
      var itineraries := GetOfflineItineraries();
      var pending := GetPendingSync();
      var online, probed := CheckConnection(now, platform, probe);
      info := CacheInfo(|itineraries|, |pending|, online);
    }
  }
}
