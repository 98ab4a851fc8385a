/**
 The audit service's loops as they run when nobody else touches the channel: Record, the
 drain of the batching goroutine, and FlushSync. Module AuditPipeline interleaves them.
 */
module AuditService {
  import opened Wrappers
  import opened AuditEntry
  import opened Batches
  import opened AuditPipeline

  class Service {
    var buffer: seq<Entry>
    var done: bool
    var inserts: seq<seq<Entry>>      // every attempted Insert

    constructor ()
      ensures buffer == [] && !done && inserts == []
    {
      buffer, done, inserts := [], false, [];
    }

    method Record(e: Entry)
      modifies this`buffer
      ensures buffer == if done || |old(buffer)| >= 1024 then old(buffer) else old(buffer) + [e]
    {
      if done {
        return;
      }
      if |buffer| < CAPACITY {
        buffer := buffer + [e];
      }
    }

    method Insert(batch: seq<Entry>)
      modifies this`inserts
      ensures inserts == old(inserts) + [batch]
      ensures Flat(inserts) == Flat(old(inserts)) + batch
    {
      FlatAppend(inserts, batch);
      inserts := inserts + [batch];
    }

    /** The goroutine's drain after `done`: full batches as they fill, then the rest. */
    method DrainAndExit(collected: seq<Entry>)
      requires |collected| < BATCH
      modifies this`buffer, this`inserts
      ensures buffer == []
      ensures Flat(inserts) == Flat(old(inserts)) + collected + old(buffer)
      ensures old(inserts) <= inserts
      ensures forall k :: |old(inserts)| <= k < |inserts| ==> 1 <= |inserts[k]| <= 64
      ensures forall k :: |old(inserts)| <= k < |inserts| - 1 ==> |inserts[k]| == 64
    {
      var buf := collected;
      while buffer != []
        invariant |buf| < BATCH
        invariant old(inserts) <= inserts
        invariant Flat(inserts) + buf + buffer == Flat(old(inserts)) + collected + old(buffer)
        invariant forall k :: |old(inserts)| <= k < |inserts| ==> |inserts[k]| == BATCH
        decreases |buffer|
      {
        var e := buffer[0];
        assert Flat(inserts) + (buf + [e]) + buffer[1..] == Flat(inserts) + buf + buffer;
        buf := buf + [e];
        buffer := buffer[1..];
        if |buf| >= BATCH {
          Insert(buf);
          buf := [];
          assert Flat(inserts) + buf + buffer == Flat(inserts) + buffer;
        }
      }
      assert Flat(inserts) + buf + [] == Flat(inserts) + buf;
      if buf != [] {
        Insert(buf);
      }
    }

    /**
     FlushSync once the goroutine has exited: after `patience` receives, if ever, the select
     picks the cancelled context. One Insert takes what was received, if anything.
     */
    method FlushSync(patience: Option<nat>) returns (cancelled: bool)
      modifies this
      ensures done
      ensures cancelled <==> patience.Some? && patience.value <= |old(buffer)|
      ensures buffer == if cancelled then old(buffer)[patience.value..] else []
      ensures Flat(inserts) + buffer == Flat(old(inserts)) + old(buffer)
      ensures |inserts| <= |old(inserts)| + 1
    {
      done := true;
      var buf := [];
      while buffer != [] && patience != Some(|buf|)
        invariant done && inserts == old(inserts)
        invariant |buf| <= |old(buffer)| && buffer == old(buffer)[|buf|..] && buf == old(buffer)[..|buf|]
        invariant patience.Some? ==> |buf| <= patience.value
        decreases |buffer|
      {
        buf := buf + [buffer[0]];
        buffer := buffer[1..];
      }
      cancelled := patience == Some(|buf|);
      assert old(buffer) == buf + buffer;
      if buf != [] {
        Insert(buf);
      }
      assert Flat(inserts) == Flat(old(inserts)) + buf;
    }
  }
}
