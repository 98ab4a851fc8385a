/** WebSocket tickets: the in-memory store, one caller at a time. */
module TicketStore {
  import opened Wrappers

  type Uuid = nat

  datatype Ticket = Ticket(user: Uuid, role: string, expiresAt: int)

  /** The stored entry; `used` is the flag Consume swaps. */
  class TicketEntry {
    const ticket: Ticket
    var used: bool

    constructor (ticket: Ticket)
      ensures this.ticket == ticket && !used
    {
      this.ticket := ticket;
      used := false;
    }
  }

  class MemTicketStore {
    const ttl: nat
    var entries: map<string, TicketEntry>

    /** A used entry never stays in the map between calls, and no two keys share an entry. */
    ghost predicate Valid()
      reads this, entries.Values
    {
      && (forall k :: k in entries ==> !entries[k].used)
      && (forall j, k :: j in entries && k in entries && entries[j] == entries[k] ==> j == k)
    }

    ghost function Tickets(): map<string, Ticket>
      reads this
    {
      map k | k in entries :: entries[k].ticket
    }

    /** A TTL that is not positive means 60 s. */
    constructor (ttl: int)
      ensures Valid() && Tickets() == map[] && this.ttl == if ttl <= 0 then 60_000 else ttl
    {
      this.ttl := if ttl <= 0 then 60_000 else ttl;
      entries := map[];
    }

    /** `raw` is 24 fresh random bytes, so no live ticket has it. */
    method Issue(raw: string, user: Uuid, role: string, now: int) returns (t: Ticket)
      requires Valid() && raw !in entries
      modifies this
      ensures Valid()
      ensures t == Ticket(user, role, now + ttl) && Tickets() == old(Tickets())[raw := t]
      ensures fresh(entries.Values - old(entries.Values))
    {
      t := Ticket(user, role, now + ttl);
      var entry := new TicketEntry(t);
      entries := entries[raw := entry];
    }

    /** The first caller before expiry gets the ticket; either way the ticket is gone. */
    method Consume(raw: string, now: int) returns (r: Option<Ticket>)
      requires Valid()
      modifies this, entries.Values
      ensures Valid()
      ensures r == if raw in old(Tickets()) && now <= old(Tickets())[raw].expiresAt
                   then Some(old(Tickets())[raw]) else None
      ensures Tickets() == old(Tickets()) - {raw}
      ensures entries.Values <= old(entries.Values)
    {
      if raw !in entries {
        return None;
      }
      var entry := entries[raw];
      if now > entry.ticket.expiresAt {
        entries := entries - {raw};
        return None;
      }
      if entry.used {
        return None;
      }
      entry.used := true;
      entries := entries - {raw};
      r := Some(entry.ticket);
    }

    /** Prunes exactly the expired entries. */
    method Cleanup(now: int)
      requires Valid()
      modifies this
      ensures Valid()
      ensures Tickets() == map k | k in old(Tickets()) && now <= old(Tickets())[k].expiresAt :: old(Tickets())[k]
      ensures entries.Values <= old(entries.Values)
    {
      var todo := entries.Keys;
      while todo != {}
        invariant todo <= entries.Keys <= old(entries.Keys)
        invariant forall k :: k in entries ==> entries[k] == old(entries[k])
        invariant forall k :: k in old(entries) && k !in todo ==>
                    (k in entries <==> now <= old(entries[k]).ticket.expiresAt)
        invariant forall k :: k in entries ==> !entries[k].used
        decreases |todo|
      {
        var k :| k in todo;
        if now > entries[k].ticket.expiresAt {
          entries := entries - {k};
        }
        todo := todo - {k};
      }
    }
  }
}
