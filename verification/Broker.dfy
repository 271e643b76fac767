/**
 The Redis consumer group as the workers use it: messages not yet delivered, and
 the pending list with each entry's owner, idle time and delivery count. Every
 command replaces the pending list by one of the functions below.
 */
module Broker {
  /** A pending entry: the consumer that owns it, ticks since it was last claimed, deliveries so far. */
  datatype Entry = Entry(owner: nat, idle: nat, count: nat)

  /** One line of an XPENDING reply. */
  datatype Scanned = Scanned(msg: nat, count: nat)

  type Pending = map<nat, Entry>

  /** XREADGROUP ">": the first delivery of a message. */
  function Assign(pending: Pending, w: nat, m: nat): Pending {
    pending[m := Entry(w, 0, 1)]
  }

  /** XCLAIM: new owner, idle time reset, delivery counter raised. */
  function Claim(pending: Pending, w: nat, m: nat): Pending
    requires m in pending
  {
    pending[m := Entry(w, 0, pending[m].count + 1)]
  }

  /** XCLAIM JUSTID with no idle threshold: the counter stays; an acked message stays gone. */
  function Refresh(pending: Pending, w: nat, m: nat): Pending {
    if m in pending then pending[m := Entry(w, 0, pending[m].count)] else pending
  }

  /** XACK. */
  function Remove(pending: Pending, m: nat): Pending {
    pending - {m}
  }

  /** A tick of the clock. */
  function Age(pending: Pending): Pending {
    map m | m in pending :: pending[m].(idle := pending[m].idle + 1)
  }

  /** Idle for at least the reclaim threshold. */
  predicate IdleFor(pending: Pending, minIdle: nat, m: nat) {
    m in pending && minIdle <= pending[m].idle
  }

  /** The group as the object the workers send commands to. */
  class ConsumerGroup {
    var undelivered: set<nat>
    var pending: Pending

    constructor ()
      ensures undelivered == {} && pending == map[]
    {
      undelivered, pending := {}, map[];
    }

    method XAdd(m: nat)
      modifies this`undelivered
      ensures undelivered == old(undelivered) + {m}
    {
      undelivered := undelivered + {m};
    }

    /** Hands out some undelivered message, if there is one. */
    method XReadGroup(w: nat) returns (found: bool, m: nat)
      modifies this
      ensures found <==> old(undelivered) != {}
      ensures found ==>
        m in old(undelivered) && undelivered == old(undelivered) - {m} && pending == old(pending)[m := Entry(w, 0, 1)]
      ensures !found ==> undelivered == old(undelivered) && pending == old(pending)
    {
      if undelivered == {} {
        return false, 0;
      }
      m :| m in undelivered;
      undelivered := undelivered - {m};
      pending := pending[m := Entry(w, 0, 1)];
      return true, m;
    }

    method XClaim(w: nat, m: nat, minIdle: nat) returns (claimed: bool)
      modifies this`pending
      ensures claimed <==> m in old(pending) && minIdle <= old(pending)[m].idle
      ensures pending == if claimed then old(pending)[m := Entry(w, 0, old(pending)[m].count + 1)] else old(pending)
    {
      claimed := m in pending && minIdle <= pending[m].idle;
      if claimed {
        pending := pending[m := Entry(w, 0, pending[m].count + 1)];
      }
    }

    method XClaimJustID(w: nat, m: nat)
      modifies this`pending
      ensures m in old(pending) ==> pending == old(pending)[m := Entry(w, 0, old(pending)[m].count)]
      ensures m !in old(pending) ==> pending == old(pending)
    {
      if m in pending {
        pending := pending[m := Entry(w, 0, pending[m].count)];
      }
    }

    method XAck(m: nat)
      modifies this`pending
      ensures pending == old(pending) - {m}
    {
      pending := pending - {m};
    }
  }
}
