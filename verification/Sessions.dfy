/**
 One relay connection as the object the pumps and the monitor share: a bounded queue, a
 close that happens once, and the monitor's loop over heartbeats, refreshes and expiry.
 */
module Sessions {
  import opened Bytes

  const CLOSE_NORMAL := 1000
  const CLOSE_GOING_AWAY := 1001
  const CLOSE_SUPERSEDED := 4001
  const CLOSE_TOKEN_EXPIRED := 4003
  const CLOSE_PROTOCOL := 4005

  /** What a heartbeat renewal of the slot answers. */
  datatype Renewal = Renewed | LostSlot | Transient

  /** What wakes the monitor: a ping that was answered or not, a new token expiry, or the expiry timer. */
  datatype Wake = Pong(renewal: Renewal) | Missed | Refreshed(expiry: int) | TimerFired(now: int)

  // ---------------------------------------------------------------------------
  // When a connection is to be closed
  // ---------------------------------------------------------------------------

  /** The token expiry in force after the first `i` wakes. */
  function ExpiryAt(initial: int, wakes: seq<Wake>, i: nat): int
    requires i <= |wakes|
  {
    if i == 0 then initial
    else if wakes[i - 1].Refreshed? then wakes[i - 1].expiry
    else ExpiryAt(initial, wakes, i - 1)
  }

  /** A ping was missed before wake `i`, and none was answered since. */
  ghost predicate MissedBefore(wakes: seq<Wake>, i: nat)
    requires i <= |wakes|
  {
    exists j | 0 <= j < i :: wakes[j].Missed? && forall k | j < k < i :: !wakes[k].Pong?
  }

  /** Wake `i` is a reason to close: a second miss in a row, a lost slot, or an expired token. */
  ghost predicate IsReason(initial: int, wakes: seq<Wake>, i: nat)
    requires i < |wakes|
  {
    match wakes[i]
    case Pong(renewal) => renewal == LostSlot
    case Missed => MissedBefore(wakes, i)
    case Refreshed(_) => false
    case TimerFired(now) => 0 < ExpiryAt(initial, wakes, i) <= now
  }

  function CodeFor(wake: Wake): int {
    match wake
    case Pong(_) => 4001
    case Missed => 1001
    case Refreshed(_) => 1000
    case TimerFired(_) => 4003
  }

  function Least(a: nat, b: nat): nat {
    if a < b then a else b
  }

  class Session {
    const capacity: nat
    var out: seq<ByteString>
    var open: bool
    var closeCode: int
    var expiry: int

    constructor (outQueueSize: int, expiry: int)
      ensures out == [] && open && closeCode == CLOSE_NORMAL && this.expiry == expiry
      ensures capacity == if outQueueSize <= 0 then 64 else outQueueSize
    {
      capacity := if outQueueSize <= 0 then 64 else outQueueSize;
      out, open, closeCode, this.expiry := [], true, CLOSE_NORMAL, expiry;
    }

    /** Never waits. On a closed session with room either case of the select may be taken. */
    method Enqueue(frame: ByteString, seesClose: bool) returns (queued: bool)
      modifies this`out
      ensures queued == (|old(out)| < capacity && (open || !seesClose))
      ensures out == if queued then old(out) + [frame] else old(out)
    {
      if !open && seesClose {
        return false;
      }
      if |out| < capacity {
        out := out + [frame];
        return true;
      }
      return false;
    }

    /** Only the first close counts. */
    method CloseWith(code: int)
      modifies this`open, this`closeCode
      ensures !open && closeCode == if old(open) then code else old(closeCode)
    {
      if open {
        open, closeCode := false, code;
      }
    }

    /**
     The write pump over a run of writes, of which the one numbered `failing` fails: the
     frames leave in queue order, and a failed write closes the session. On a closed session
     the select may still take `lingers` frames before it sees the close.
     */
    method WritePump(failing: nat, lingers: nat) returns (written: seq<ByteString>)
      modifies this`out, this`open, this`closeCode
      ensures var taken := if old(open) then |old(out)| else Least(lingers, |old(out)|);
              if failing < taken then
                && written == old(out)[..failing] && out == old(out)[failing + 1..]
                && !open && closeCode == if old(open) then 4005 else old(closeCode)
              else
                && written == old(out)[..taken] && out == old(out)[taken..]
                && open == old(open) && closeCode == old(closeCode)
    {
      written := [];
      while out != [] && (open || |written| < lingers)
        invariant open == old(open) && closeCode == old(closeCode)
        invariant |written| <= failing && (!open ==> |written| <= lingers)
        invariant written + out == old(out)
        decreases |out|
      {
        var frame := out[0];
        out := out[1..];
        if |written| == failing {
          assert old(out) == written + [frame] + out;
          CloseWith(CLOSE_PROTOCOL);
          return;
        }
        written := written + [frame];
      }
    }

    /**
     The monitor counts misses and resets the count on a pong; it closes the session at the
     first reason there is, with that reason's code, and never without one.
     */
    method Monitor(wakes: seq<Wake>) returns (at: nat)
      requires open
      modifies this`open, this`closeCode, this`expiry
      ensures at <= |wakes| && (open <==> at == |wakes|)
      ensures forall i | 0 <= i < at :: !IsReason(old(expiry), wakes, i)
      ensures at < |wakes| ==> IsReason(old(expiry), wakes, at) && closeCode == CodeFor(wakes[at])
      ensures open ==> closeCode == old(closeCode) && expiry == ExpiryAt(old(expiry), wakes, |wakes|)
    {
      var missed := 0;
      at := 0;
      while at < |wakes|
        invariant at <= |wakes| && open && closeCode == old(closeCode)
        invariant 0 <= missed < 2
        invariant missed == 1 <==> MissedBefore(wakes, at)
        invariant expiry == ExpiryAt(old(expiry), wakes, at)
        invariant forall i | 0 <= i < at :: !IsReason(old(expiry), wakes, i)
      {
        MissesSoFar(wakes, at);
        match wakes[at] {
        case Pong(renewal) =>
          missed := 0;
          if renewal == LostSlot {
            CloseWith(CLOSE_SUPERSEDED);
            return;
          }
        case Missed =>
          missed := missed + 1;
          if missed >= 2 {
            CloseWith(CLOSE_GOING_AWAY);
            return;
          }
        case Refreshed(until) =>
          expiry := until;
        case TimerFired(now) =>
          if now >= expiry && expiry > 0 {
            CloseWith(CLOSE_TOKEN_EXPIRED);
            return;
          }
        }
        at := at + 1;
      }
    }
  }

  /** One wake later there is an unanswered miss if this was one, or there was one and this is no pong. */
  lemma MissesSoFar(wakes: seq<Wake>, i: nat)
    requires i < |wakes|
    ensures MissedBefore(wakes, i + 1) <==> wakes[i].Missed? || (MissedBefore(wakes, i) && !wakes[i].Pong?)
  {
  }
}
