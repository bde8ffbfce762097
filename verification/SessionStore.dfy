/** The router's per-session slots: a bounded map in least-recently-used order. */
module SessionStore {
  import opened Prelude

  datatype RoutingState = RoutingState(
    tier: Option<string>,
    provider: Option<string>,
    model: Option<string>,
    orchestrating: bool,
    continuations: Option<nat>,
    qualityFailures: Option<nat>,
    updatedAt: int)

  datatype Slot = Slot(state: RoutingState, expiresAt: int)

  datatype Key = Key(text: string)

  function MakeKey(sessionId: string, isSubagent: bool): Key {
    Key(if isSubagent then sessionId + ":sub" else sessionId)
  }

  /** The main and the subagent slots of different sessions share a key exactly when
      one session is named like the other's subagent slot. */
  lemma {:induction false} KeysCollide(a: string, subA: bool, b: string, subB: bool)
    ensures MakeKey(a, subA) == MakeKey(b, subB) <==>
            || (a == b && subA == subB)
            || (subA && !subB && b == a + ":sub")
            || (subB && !subA && a == b + ":sub")
  {
    if subA && subB && a + ":sub" == b + ":sub" {
      assert a == (a + ":sub")[..|a|] == (b + ":sub")[..|b|] == b;
    }
    if subA && !subB && a == b {
      assert |a + ":sub"| > |b|;
    }
    if subB && !subA && a == b {
      assert |b + ":sub"| > |a|;
    }
  }

  // Keys in order of use ------------------------------------------------------------

  function KeySet(keys: seq<Key>): set<Key> {
    if keys == [] then {} else KeySet(Init(keys)) + {Last(keys)}
  }

  /** No key is listed twice. */
  predicate Distinct(keys: seq<Key>) {
    keys == [] || (Distinct(Init(keys)) && Last(keys) !in KeySet(Init(keys)))
  }

  function Without(keys: seq<Key>, key: Key): seq<Key> {
    if keys == [] then []
    else if Last(keys) == key then Without(Init(keys), key)
    else Without(Init(keys), key) + [Last(keys)]
  }

  lemma {:induction false} Appended(keys: seq<Key>, key: Key)
    ensures KeySet(keys + [key]) == KeySet(keys) + {key}
    ensures Distinct(keys + [key]) <==> Distinct(keys) && key !in KeySet(keys)
  {
    assert Init(keys + [key]) == keys;
  }

  lemma {:induction false} KeysWithout(keys: seq<Key>, key: Key)
    ensures KeySet(Without(keys, key)) == KeySet(keys) - {key}
  {
    hide Distinct;
    if keys != [] {
      var before, last := Init(keys), Last(keys);
      KeysWithout(before, key);
      if last != key {
        Appended(Without(before, key), last);
      }
    }
  }

  lemma {:induction false} WithoutKeeps(keys: seq<Key>, key: Key)
    requires Distinct(keys)
    ensures Distinct(Without(keys, key))
    ensures KeySet(Without(keys, key)) == KeySet(keys) - {key}
    ensures |Without(keys, key)| == |keys| - (if key in KeySet(keys) then 1 else 0)
    ensures key !in KeySet(keys) ==> Without(keys, key) == keys
  {
    KeysWithout(keys, key);
    if keys != [] {
      var before, last := Init(keys), Last(keys);
      WithoutKeeps(before, key);
      Appended(before, last);
      assert keys == before + [last];
      if last != key {
        Appended(Without(before, key), last);
      }
    }
  }

  lemma {:induction false} OldestDropped(keys: seq<Key>)
    requires Distinct(keys) && keys != []
    ensures Distinct(keys[1..])
    ensures KeySet(keys[1..]) == KeySet(keys) - {keys[0]}
    ensures keys[0] in KeySet(keys)
  {
    if |keys| == 1 {
      assert keys[1..] == [] && Init(keys) == [];
    } else {
      OldestDropped(Init(keys));
      assert keys[1..] == Init(keys)[1..] + [Last(keys)];
      Appended(Init(keys)[1..], Last(keys));
    }
  }

  predicate Expired(slot: Slot, now: int) {
    slot.expiresAt < now
  }

  /** The state a reader sees: none for a missing or an expired slot. */
  function Visible(slots: map<Key, Slot>, key: Key, now: int): Option<RoutingState> {
    if key in slots && !Expired(slots[key], now) then Some(slots[key].state) else None
  }

  class SessionRouterStore {
    const capacity: nat
    const ttlMs: nat
    var slots: map<Key, Slot>
    var order: seq<Key>  // oldest first

    ghost predicate Valid()
      reads this
    {
      && capacity >= 1
      && ttlMs >= 1
      && Distinct(order)
      && KeySet(order) == slots.Keys
      && |order| <= capacity
    }

    constructor (capacity: int, ttlMs: int)
      ensures Valid()
      ensures slots == map[] && this.capacity == Max(1, capacity) && this.ttlMs == Max(1, ttlMs)
    {
      this.capacity := Max(1, capacity);
      this.ttlMs := Max(1, ttlMs);
      slots := map[];
      order := [];
    }

    /** Reading drops an expired slot and makes a live one the newest. */
    method Get(key: Key, now: int) returns (state: Option<RoutingState>)
      requires Valid()
      modifies this
      ensures Valid()
      ensures state == Visible(old(slots), key, now)
      ensures state.None? ==> slots == old(slots) - {key} && order == Without(old(order), key)
      ensures state.Some? ==> slots == old(slots) && order == Without(old(order), key) + [key]
    {
      WithoutKeeps(order, key);
      if key !in slots {
        return None;
      }
      order := Without(order, key);
      if Expired(slots[key], now) {
        slots := slots - {key};
        return None;
      }
      Appended(order, key);
      order := order + [key];
      return Some(slots[key].state);
    }

    /** Writing replaces the slot, or makes room by dropping the oldest one. */
    method Set(key: Key, state: RoutingState, now: int)
      requires Valid()
      modifies this
      ensures Valid()
      ensures
        var full := key !in old(slots) && |old(order)| == capacity;
        && slots == (if full then old(slots) - {old(order)[0]} else old(slots))[key := Slot(state, now + ttlMs)]
        && order == (if full then old(order)[1..] else Without(old(order), key)) + [key]
    {
      hide Without, MakeKey;
      WithoutKeeps(order, key);
      if key in slots {
        order := Without(order, key);
      } else {
        while |order| >= capacity
          invariant (order == old(order) && slots == old(slots))
            || (|old(order)| == capacity && order == old(order)[1..] && slots == old(slots) - {old(order)[0]})
        {
          slots := slots - {order[0]};
          order := order[1..];
        }
        if |order| < |old(order)| {
          OldestDropped(old(order));
        }
      }
      Appended(order, key);
      slots := slots[key := Slot(state, now + ttlMs)];
      order := order + [key];
    }

    /** A sticky hit keeps the slot alive without changing its place or its count. */
    method Touch(key: Key, now: int)
      requires Valid()
      modifies `slots
      ensures Valid()
      ensures slots == if key !in old(slots) then old(slots)
                       else old(slots)[key := Slot(old(slots)[key].state.(updatedAt := now), now + ttlMs)]
    {
      if key in slots {
        slots := slots[key := Slot(slots[key].state.(updatedAt := now), now + ttlMs)];
      }
    }

    method RecordQualityFailure(key: Key) returns (count: nat)
      requires Valid()
      modifies `slots
      ensures Valid()
      ensures key !in old(slots) ==> count == 0 && slots == old(slots)
      ensures key in old(slots) ==>
        && count == old(slots)[key].state.qualityFailures.GetOr(0) + 1
        && slots == old(slots)[key := old(slots)[key].(state := old(slots)[key].state.(qualityFailures := Some(count)))]
    {
      if key !in slots {
        return 0;
      }
      count := slots[key].state.qualityFailures.GetOr(0) + 1;
      slots := slots[key := slots[key].(state := slots[key].state.(qualityFailures := Some(count)))];
    }

    method ResetQualityFailures(key: Key)
      requires Valid()
      modifies `slots
      ensures Valid()
      ensures slots ==
        if key !in old(slots) || old(slots)[key].state.qualityFailures.GetOr(0) == 0 then old(slots)
        else old(slots)[key := old(slots)[key].(state := old(slots)[key].state.(qualityFailures := Some(0)))]
    {
      if key !in slots || slots[key].state.qualityFailures.GetOr(0) == 0 {
        return;
      }
      slots := slots[key := slots[key].(state := slots[key].state.(qualityFailures := Some(0)))];
    }
  }

  /** A slot that is written at `now` is seen up to the end of its lifetime, and not after. */
  lemma {:induction false} SeenForItsLifetime(slots: map<Key, Slot>, key: Key, state: RoutingState,
        now: int, ttlMs: nat, later: int)
    ensures Visible(slots[key := Slot(state, now + ttlMs)], key, later)
         == if later <= now + ttlMs then Some(state) else None
  {
  }
}
