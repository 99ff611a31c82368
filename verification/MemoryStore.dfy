/** The in-memory idempotency store: a bounded map with expiry and eviction. */
module MemoryStore {

  import opened Common

  /** Store keys are prefixed, so the empty string can mean "no key yet". */
  type Key = k: string | k != "" witness "idempotency"
  type Value = string

  const DEFAULT_CAPACITY: nat := 4096
  const EVICTION_INTERVAL: nat := 60

  datatype Entry = Entry(value: Value, expires: Instant)

  type Entries = map<Key, Entry>

  function EffectiveCapacity(capacity: int): nat {
    if 0 < capacity then capacity else 4096
  }

  predicate Live(entries: Entries, key: Key, now: Instant) {
    key in entries && now < entries[key].expires
  }

  /** What a reader is told about a key. */
  function Visible(entries: Entries, key: Key, now: Instant): Option<Value> {
    if Live(entries, key, now) then Some(entries[key].value) else None
  }

  function LiveKeys(entries: Entries, now: Instant): set<Key> {
    set key | key in entries && now < entries[key].expires
  }

  function WithoutExpired(entries: Entries, now: Instant): Entries {
    map key | key in entries && now < entries[key].expires :: entries[key]
  }

  predicate Submap(kept: Entries, entries: Entries) {
    forall key :: key in kept ==> key in entries && kept[key] == entries[key]
  }

  /** Every entry that went expires no later than every entry that stayed. */
  predicate OldestWent(kept: Entries, entries: Entries) {
    forall gone, stays :: gone in entries && gone !in kept && stays in kept ==>
      entries[gone].expires <= kept[stays].expires
  }

  /** The bound the eviction loop reaches before a new entry is written. */
  function RoomBound(capacity: int): nat {
    if EffectiveCapacity(capacity) == 1 then 1 else EffectiveCapacity(capacity) - 1
  }

  /** Eviction runs when the store is full, and otherwise once a minute. */
  predicate EvictionDue(entries: Entries, lastEviction: Instant, now: Instant, capacity: int) {
    entries != map[] && (EffectiveCapacity(capacity) <= |entries| || lastEviction + 60 <= now)
  }

  /** Eviction spares every live entry: there is room, or the only entry is below the target. */
  predicate NoPressure(entries: Entries, now: Instant, capacity: int) {
    |LiveKeys(entries, now)| < EffectiveCapacity(capacity) || |entries| <= 1
  }

  lemma SubmapSize(kept: Entries, entries: Entries)
    requires Submap(kept, entries)
    ensures |kept| <= |entries|
  {
    assert kept.Keys <= entries.Keys;
    SubsetSize(kept.Keys, entries.Keys);
  }

  lemma {:induction false} SubsetSize<T>(small: set<T>, large: set<T>)
    requires small <= large
    ensures |small| <= |large|
    decreases small
  {
    if small != {} {
      var x :| x in small;
      SubsetSize(small - {x}, large - {x});
    }
  }

  class MemoryIdempotencyStore {
    var entries: Entries
    var capacity: int
    var lastEviction: Instant

    constructor (capacity: int)
      ensures entries == map[] && this.capacity == EffectiveCapacity(capacity) && lastEviction == 0
    {
      entries := map[];
      this.capacity := if capacity <= 0 then DEFAULT_CAPACITY else capacity;
      lastEviction := 0;
    }

    method DeleteExpired(now: Instant)
      modifies `entries
      ensures entries == WithoutExpired(old(entries), now)
    {
      var pending := entries.Keys;
      while pending != {}
        invariant pending <= entries.Keys <= old(entries).Keys
        invariant Submap(entries, old(entries))
        invariant forall key :: key in old(entries) && key !in pending ==>
          (key in entries <==> now < old(entries)[key].expires)
        decreases pending
      {
        var key :| key in pending;
        pending := pending - {key};
        if !(now < entries[key].expires) {
          entries := entries - {key};
        }
      }
    }

    /** Scans the whole map for the entry that expires first. */
    method FindOldest() returns (oldestKey: string)
      ensures entries == map[] <==> oldestKey == ""
      ensures oldestKey != "" ==> oldestKey in entries
      ensures oldestKey != "" ==> forall key :: key in entries ==> entries[oldestKey].expires <= entries[key].expires
    {
      oldestKey := "";
      var oldestExpires: Instant := 0;
      var pending := entries.Keys;
      while pending != {}
        invariant pending <= entries.Keys
        invariant oldestKey == "" <==> pending == entries.Keys
        invariant oldestKey != "" ==> oldestKey in entries && oldestExpires == entries[oldestKey].expires
        invariant oldestKey != "" ==> forall key :: key in entries.Keys - pending ==> oldestExpires <= entries[key].expires
        decreases pending
      {
        var key :| key in pending;
        pending := pending - {key};
        if oldestKey == "" || entries[key].expires < oldestExpires {
          oldestKey := key;
          oldestExpires := entries[key].expires;
        }
      }
    }

    /** Drops the oldest entries until there is room, but never below the target; there is room
        before the target of nine tenths is reached, so exactly one slot is freed. */
    method EvictOldest(limit: nat)
      requires 0 < limit
      modifies `entries
      ensures Submap(entries, old(entries)) && OldestWent(entries, old(entries))
      ensures limit <= |old(entries)| ==> |entries| == (if limit == 1 then 1 else limit - 1)
      ensures |old(entries)| < limit || |old(entries)| <= 1 ==> entries == old(entries)
    {
      var target := (limit * 9) / 10;
      if target < 1 {
        target := 1;
      }
      while limit <= |entries| && target < |entries|
        invariant Submap(entries, old(entries)) && OldestWent(entries, old(entries))
        invariant |old(entries)| < limit || |old(entries)| <= 1 ==> entries == old(entries)
        invariant limit <= |old(entries)| && 1 < limit ==> limit - 1 <= |entries|
        invariant limit <= |old(entries)| && limit == 1 ==> 1 <= |entries|
        decreases |entries|
      {
        var oldestKey := FindOldest();
        if oldestKey == "" {
          break;
        }
        assert entries.Keys == (entries - {oldestKey}).Keys + {oldestKey};
        entries := entries - {oldestKey};
      }
    }

    /** Expired entries go first; live ones go only under capacity pressure, oldest first. */
    method Evict(now: Instant)
      modifies this
      ensures capacity == old(capacity)
      ensures Submap(entries, old(entries))
      ensures |entries| <= RoomBound(capacity)
      ensures NoPressure(old(entries), now, capacity) ==>
        LiveKeys(entries, now) == LiveKeys(old(entries), now)
      ensures if EvictionDue(old(entries), old(lastEviction), now, capacity)
              then lastEviction == now && Submap(entries, WithoutExpired(old(entries), now))
                   && OldestWent(entries, WithoutExpired(old(entries), now))
              else lastEviction == old(lastEviction) && entries == old(entries)
    {
      if |entries| == 0 {
        return;
      }
      var limit := EffectiveCapacity(capacity);
      if limit <= |entries| || EVICTION_INTERVAL <= now - lastEviction {
        lastEviction := now;
        DeleteExpired(now);
        assert entries.Keys == LiveKeys(old(entries), now);
        assert LiveKeys(entries, now) == LiveKeys(old(entries), now);
        SubmapSize(entries, old(entries));
      }
      if limit <= |entries| {
        EvictOldest(limit);
      }
    }

    method Get(key: Key, now: Instant) returns (value: Option<Value>)
      modifies `entries
      ensures value == Visible(old(entries), key, now)
      ensures value.Some? <==> key in old(entries) && now < old(entries)[key].expires
      ensures forall other, later: Instant :: now <= later ==> Visible(entries, other, later) == Visible(old(entries), other, later)
    {
      if key !in entries || !(now < entries[key].expires) {
        entries := entries - {key};
        return None;
      }
      value := Some(entries[key].value);
    }

    /** The written key is readable until it expires; any other key is as before or gone. */
    method Set(key: Key, value: Value, now: Instant, expiration: nat)
      modifies this
      ensures capacity == old(capacity)
      ensures key in entries && entries[key] == Entry(value, now + expiration)
      ensures forall later: Instant :: Visible(entries, key, later) == if later < now + expiration then Some(value) else None
      ensures forall other :: other != key && other in entries ==> other in old(entries) && entries[other] == old(entries)[other]
      ensures NoPressure(old(entries), now, capacity) ==>
        forall other :: other != key && Live(old(entries), other, now) ==> other in entries
      ensures |entries| <= RoomBound(capacity) + 1
      ensures EffectiveCapacity(capacity) != 1 ==> |entries| <= EffectiveCapacity(capacity)
    {
      Evict(now);
      assert (LiveKeys(entries, now) == LiveKeys(old(entries), now)) ==>
        forall other :: Live(old(entries), other, now) ==> other in LiveKeys(entries, now);
      entries := entries[key := Entry(value, now + expiration)];
      CapacityBound(capacity);
    }

    /** Without capacity pressure the key is taken exactly when nobody can see it. */
    method SetNX(key: Key, value: Value, now: Instant, expiration: nat) returns (acquired: bool)
      modifies this
      ensures capacity == old(capacity)
      ensures acquired ==> key in entries && entries[key] == Entry(value, now + expiration)
      ensures acquired ==> forall later: Instant :: Visible(entries, key, later) == if later < now + expiration then Some(value) else None
      ensures !acquired ==> Live(old(entries), key, now) && key in entries && entries[key] == old(entries)[key]
      ensures forall other :: other != key && other in entries ==> other in old(entries) && entries[other] == old(entries)[other]
      ensures NoPressure(old(entries), now, capacity) ==>
        (acquired <==> !Live(old(entries), key, now))
      ensures |entries| <= RoomBound(capacity) + 1
      ensures EffectiveCapacity(capacity) != 1 ==> |entries| <= EffectiveCapacity(capacity)
    {
      Evict(now);
      assert key in LiveKeys(entries, now) <==> Live(entries, key, now);
      assert key in LiveKeys(old(entries), now) <==> Live(old(entries), key, now);
      if key in entries && now < entries[key].expires {
        return false;
      }
      entries := entries[key := Entry(value, now + expiration)];
      CapacityBound(capacity);
      acquired := true;
    }

    method DeleteIfValue(key: Key, value: Value)
      modifies `entries
      ensures entries == if key in old(entries) && old(entries)[key].value == value then old(entries) - {key} else old(entries)
    {
      if key in entries && entries[key].value == value {
        entries := entries - {key};
      }
    }
  }

  /** The room that eviction leaves is enough for one more entry unless the capacity is one. */
  lemma CapacityBound(capacity: int)
    ensures RoomBound(capacity) + 1 <= EffectiveCapacity(capacity) <==> EffectiveCapacity(capacity) != 1
  {
  }

  /** Two writes to different keys leave two entries in a store of capacity one. */
  method OverfillCapacityOne(first: Key, second: Key, now: Instant) returns (store: MemoryIdempotencyStore)
    requires first != second
    ensures fresh(store) && store.capacity == 1 && |store.entries| == 2
  {
    store := new MemoryIdempotencyStore(1);
    store.Set(first, "", now, 60);
    assert store.entries.Keys == {first};
    assert |store.entries| == 1 && Live(store.entries, first, now);
    store.Set(second, "", now, 60);
    assert store.entries.Keys == {first, second};
  }
}
