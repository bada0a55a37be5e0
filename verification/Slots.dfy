/**
 The slot registry of the relay's backplane, in its in-memory form: one live
 connection per (pair, role), the newest claimer winning.
 */
module Slots {
  import opened Roles

  datatype SlotKey = SlotKey(pair: string, role: Role)
  {
    function Peer(): SlotKey {
      SlotKey(pair, role.Opposite())
    }
  }

  type ConnId = string
  type InstId = string

  datatype Entry = Entry(conn: ConnId, inst: InstId, expiresAt: int)

  type Registry = map<SlotKey, Entry>

  /** A claim always wins; it reports the live holder it displaced, or "". */
  datatype Claimed = Claimed(evicted: ConnId, onThisInstance: bool)

  predicate Live(slots: Registry, key: SlotKey, now: int) {
    key in slots && slots[key].expiresAt > now
  }

  predicate Displaces(slots: Registry, key: SlotKey, conn: ConnId, now: int) {
    Live(slots, key, now) && slots[key].conn != conn
  }

  function ClaimSlot(slots: Registry, key: SlotKey, conn: ConnId, inst: InstId, now: int, ttl: int)
    : (Registry, Claimed)
  {
    (slots[key := Entry(conn, inst, now + ttl)],
     if Displaces(slots, key, conn, now) then Claimed(slots[key].conn, slots[key].inst == inst)
     else Claimed("", false))
  }

  /** The instances an eviction notice goes to: the displaced holder's, if it is another one. */
  function EvictionNotice(slots: Registry, key: SlotKey, conn: ConnId, inst: InstId, now: int): seq<InstId> {
    if Displaces(slots, key, conn, now) && slots[key].inst != inst then [slots[key].inst] else []
  }

  predicate Owns(slots: Registry, key: SlotKey, conn: ConnId) {
    key in slots && slots[key].conn == conn
  }

  /** Extends the owner's entry, lapsed or not; the flag is false for `ErrNotSlotOwner`. */
  function RenewSlot(slots: Registry, key: SlotKey, conn: ConnId, now: int, ttl: int): (Registry, bool) {
    if Owns(slots, key, conn) then (slots[key := slots[key].(expiresAt := now + ttl)], true)
    else (slots, false)
  }

  function ReleaseSlot(slots: Registry, key: SlotKey, conn: ConnId): Registry {
    if Owns(slots, key, conn) then slots - {key} else slots
  }

  /** The instance that holds a live entry, or "". */
  function LookupInstance(slots: Registry, key: SlotKey, now: int): InstId {
    if Live(slots, key, now) then slots[key].inst else ""
  }

  /**
   The newest claimer always gets the slot, for a full lifetime. It is told of a holder exactly
   when another connection's entry has not expired; that holder's instance is notified exactly
   when it is a different one.
   */
  lemma NewestClaimWins(slots: Registry, key: SlotKey, conn: ConnId, inst: InstId, now: int, ttl: int)
    ensures var (after, r) := ClaimSlot(slots, key, conn, inst, now, ttl);
            var displaced := key in slots && now < slots[key].expiresAt && slots[key].conn != conn;
            && after == slots[key := Entry(conn, inst, now + ttl)]
            && (displaced ==> r == Claimed(slots[key].conn, slots[key].inst == inst))
            && (!displaced ==> r == Claimed("", false))
            && EvictionNotice(slots, key, conn, inst, now) ==
               if displaced && slots[key].inst != inst then [slots[key].inst] else []
  {
  }

  /**
   The in-memory backplane. Each subscribed instance has a bounded eviction channel;
   a notice for an instance that is not subscribed, or whose channel is full, is lost.
   */
  class MemoryBackplane {
    const ttl: int
    const qsize: nat
    var slots: Registry
    var evictions: map<InstId, seq<SlotKey>>

    ghost predicate Valid()
      reads this
    {
      forall i | i in evictions :: |evictions[i]| <= qsize
    }

    constructor (ttl: int, qsize: int)
      ensures Valid() && slots == map[] && evictions == map[]
      ensures this.ttl == ttl && this.qsize == if qsize <= 0 then 256 else qsize
    {
      this.ttl := ttl;
      this.qsize := if qsize <= 0 then 256 else qsize;
      slots, evictions := map[], map[];
    }

    method Claim(key: SlotKey, conn: ConnId, inst: InstId, now: int) returns (r: Claimed)
      requires Valid()
      modifies this
      ensures Valid() && (slots, r) == ClaimSlot(old(slots), key, conn, inst, now, ttl)
      ensures evictions.Keys == old(evictions).Keys
      ensures forall i | i in evictions ::
                evictions[i] == old(evictions)[i]
                || (evictions[i] == old(evictions)[i] + [key] && i in EvictionNotice(old(slots), key, conn, inst, now))
      ensures forall i | i in EvictionNotice(old(slots), key, conn, inst, now) && i in evictions ::
                |old(evictions)[i]| < qsize ==> evictions[i] == old(evictions)[i] + [key]
    {
      r := Claimed("", false);
      if key in slots && slots[key].expiresAt > now && slots[key].conn != conn {
        var cur := slots[key];
        r := Claimed(cur.conn, cur.inst == inst);
        if cur.inst != inst {
          NotifyEviction(cur.inst, key);
        }
      }
      slots := slots[key := Entry(conn, inst, now + ttl)];
    }

    method NotifyEviction(inst: InstId, key: SlotKey)
      requires Valid()
      modifies this`evictions
      ensures Valid()
      ensures evictions == if inst in old(evictions) && |old(evictions)[inst]| < qsize
                           then old(evictions)[inst := old(evictions)[inst] + [key]] else old(evictions)
    {
      if inst in evictions && |evictions[inst]| < qsize {
        evictions := evictions[inst := evictions[inst] + [key]];
      }
    }

    method Renew(key: SlotKey, conn: ConnId, now: int) returns (owner: bool)
      modifies this`slots
      ensures (slots, owner) == RenewSlot(old(slots), key, conn, now, ttl)
    {
      if key !in slots || slots[key].conn != conn {
        return false;
      }
      slots := slots[key := slots[key].(expiresAt := now + ttl)];
      return true;
    }

    method Release(key: SlotKey, conn: ConnId)
      modifies this`slots
      ensures slots == ReleaseSlot(old(slots), key, conn)
    {
      if key in slots && slots[key].conn == conn {
        slots := slots - {key};
      }
    }

    method Lookup(key: SlotKey, now: int) returns (inst: InstId)
      ensures inst == LookupInstance(slots, key, now)
    {
      inst := if key in slots && slots[key].expiresAt > now then slots[key].inst else "";
    }
  }
}
