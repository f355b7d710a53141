/** The integer part of the tilt filter: mapping a tilt in degrees to the
    LED blink half-period, and telling the LED thread about a new period
    through a one-slot message queue. */
module ComplementaryFilter {

  /** Values of the `blink_half_period_ms_t` enumeration, in milliseconds. */
  const VERY_FAST_BLINK: int := 100
  const FAST_BLINK: int := 200
  const REGULAR_BLINK: int := 500
  const SLOW_BLINK: int := 1000
  const VERY_SLOW_BLINK: int := 33000

  /** `MSGQ_BUFFER_SIZE`: the queue holds one period. */
  const MSGQ_BUFFER_SIZE: nat := 1

  /** `get_blink_half_period_from_measure`: the steeper the board, the
      faster the blink. */
  function HalfPeriodFromTilt(tilt: int): (period: int)
    ensures period == VERY_SLOW_BLINK <==> tilt < 5
    ensures period == SLOW_BLINK <==> 5 <= tilt < 30
    ensures period == REGULAR_BLINK <==> 30 <= tilt < 55
    ensures period == FAST_BLINK <==> 55 <= tilt < 80
    ensures period == VERY_FAST_BLINK <==> 80 <= tilt
  {
    if tilt < 5 then VERY_SLOW_BLINK
    else if tilt < 30 then SLOW_BLINK
    else if tilt < 55 then REGULAR_BLINK
    else if tilt < 80 then FAST_BLINK
    else VERY_FAST_BLINK
  }

  /** Tilting further never slows the blink down. */
  lemma HalfPeriodMonotone(t1: int, t2: int)
    requires t1 <= t2
    ensures HalfPeriodFromTilt(t2) <= HalfPeriodFromTilt(t1)
  {
  }

  /** A Zephyr `k_msgq` of fixed capacity; messages are taken from the
      front and put at the back. */
  class MessageQueue {
    const capacity: nat
    var items: seq<int>

    ghost predicate Valid()
      reads this
    {
      0 < capacity && |items| <= capacity
    }

    /** `k_msgq_init`. */
    constructor (capacity: nat)
      requires 0 < capacity
      ensures Valid() && this.capacity == capacity && items == []
    {
      this.capacity := capacity;
      items := [];
    }

    /** `k_msgq_num_free_get`. */
    function NumFree(): (n: nat)
      reads this
      requires Valid()
      ensures n == capacity - |items|
      ensures n == 0 <==> |items| == capacity
    {
      capacity - |items|
    }

    /** `k_msgq_purge`: drops every queued message. */
    method Purge()
      requires Valid()
      modifies this`items
      ensures Valid() && items == []
    {
      items := [];
    }

    /** `k_msgq_put` with `K_NO_WAIT`: appends the message when there is
        room and otherwise fails, leaving the queue as it was. */
    method Put(x: int) returns (stored: bool)
      requires Valid()
      modifies this`items
      ensures Valid()
      ensures stored <==> |old(items)| < capacity
      ensures items == if stored then old(items) + [x] else old(items)
    {
      if |items| < capacity {
        items := items + [x];
        stored := true;
      } else {
        stored := false;
      }
    }
  }

  /** The queue after `send_message` puts `x`: a full queue is emptied
      first, so the put always succeeds. */
  function AfterSend(items: seq<int>, capacity: nat, x: int): (q: seq<int>)
    ensures |q| == (if |items| == capacity then 1 else |items| + 1)
    ensures q[|q| - 1] == x
  {
    (if |items| == capacity then [] else items) + [x]
  }

  /** With the one-slot queue of this program, a send leaves exactly the
      newest period queued; in general the newest period is always last and
      the queue stays within its capacity. */
  lemma SendKeepsNewest(items: seq<int>, capacity: nat, x: int)
    requires 0 < capacity && |items| <= capacity
    ensures var q := AfterSend(items, capacity, x);
      |q| <= capacity && q[|q| - 1] == x
      && (capacity == MSGQ_BUFFER_SIZE ==> q == [x])
  {
  }

  /** The state of `update_msgq_if_necessary` (its two `static` variables)
      and the queue it writes to. */
  class PeriodNotifier {
    var prevBlinkPeriod: int
    var currBlinkPeriod: int
    const queue: MessageQueue

    ghost predicate Valid()
      reads this, queue
    {
      queue.Valid() && queue.capacity == MSGQ_BUFFER_SIZE
    }

    /** Static initialisation: the previous period starts at
        `VERY_SLOW_BLINK`, the current one at 0, and the queue empty. */
    constructor ()
      ensures Valid() && fresh(queue)
      ensures prevBlinkPeriod == VERY_SLOW_BLINK && currBlinkPeriod == 0
      ensures queue.items == []
    {
      prevBlinkPeriod := VERY_SLOW_BLINK;
      currBlinkPeriod := 0;
      queue := new MessageQueue(MSGQ_BUFFER_SIZE);
    }

    /** `send_message`: purge a full queue, then put the current period. */
    method SendMessage()
      requires Valid()
      modifies queue`items
      ensures Valid()
      ensures queue.items == AfterSend(old(queue.items), queue.capacity, currBlinkPeriod)
      ensures queue.items == [currBlinkPeriod]
    {
      if queue.NumFree() == 0 {
        queue.Purge();
      }
      var _ := queue.Put(currBlinkPeriod);
      SendKeepsNewest(old(queue.items), queue.capacity, currBlinkPeriod);
    }

    /** `update_msgq_if_necessary`: the LED thread hears about a period only
        when it differs from the last one seen, which is then remembered. */
    method UpdateMsgqIfNecessary(newBlinkPeriod: int)
      requires Valid()
      modifies this`prevBlinkPeriod, this`currBlinkPeriod, queue`items
      ensures Valid()
      ensures prevBlinkPeriod == newBlinkPeriod && currBlinkPeriod == newBlinkPeriod
      ensures newBlinkPeriod != old(prevBlinkPeriod) ==> queue.items == [newBlinkPeriod]
      ensures newBlinkPeriod == old(prevBlinkPeriod) ==> queue.items == old(queue.items)
    {
      currBlinkPeriod := newBlinkPeriod;
      if prevBlinkPeriod != currBlinkPeriod {
        SendMessage();
      }
      prevBlinkPeriod := currBlinkPeriod;
    }

    /** The end of `compute_board_attitude_with_filter`: the tilt, already
        converted to whole degrees, picks a period, which is then sent if it
        changed. */
    method OnTilt(tilt: int)
      requires Valid()
      modifies this`prevBlinkPeriod, this`currBlinkPeriod, queue`items
      ensures Valid()
      ensures prevBlinkPeriod == HalfPeriodFromTilt(tilt) && currBlinkPeriod == HalfPeriodFromTilt(tilt)
      ensures HalfPeriodFromTilt(tilt) != old(prevBlinkPeriod) ==> queue.items == [HalfPeriodFromTilt(tilt)]
      ensures HalfPeriodFromTilt(tilt) == old(prevBlinkPeriod) ==> queue.items == old(queue.items)
    {
      var period := HalfPeriodFromTilt(tilt);
      UpdateMsgqIfNecessary(period);
    }
  }
}
