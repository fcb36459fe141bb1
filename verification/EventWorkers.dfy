/** The relay and the persister as they run (events/relay.py, events/consumers.py). */
module EventWorkers {
  import opened Common
  import opened EventPlane
  import opened EventDelivery

  /** The database and the stream server that relays and persisters work on. */
  class Services {
    var plane: Plane

    constructor ()
      ensures plane == EMPTY
    {
      plane := EMPTY;
    }

    // ---------------------------------------------------------------- the relay

    /** One row to the firehose and then to its run's stream, unless the process ends before either. */
    method RelayRow(w: nat, life: nat) returns (left: nat, alive: bool, half: bool)
      requires w in plane.relays && InRange(plane, plane.relays[w].claim)
      requires plane.relays[w].done < |plane.relays[w].claim| && !plane.relays[w].half
      modifies this
      ensures var e := old(plane).outbox[old(plane).relays[w].claim[old(plane).relays[w].done]].envelope;
              if alive then plane == PublishedOne(old(plane), w, e)
              else plane == if half then old(plane).(firehose := old(plane).firehose + [e]) else old(plane)
    {
      var envelope, relay := plane.outbox[plane.relays[w].claim[plane.relays[w].done]].envelope, plane.relays[w];
      if life == 0 { return 0, false, false; }
      plane := plane.(firehose := plane.firehose + [envelope]);
      left := life - 1;
      if envelope.run.Some? {
        if left == 0 { return 0, false, true; }
        plane := plane.(runs := Onto(plane.runs, envelope.run.value, envelope));
        left := left - 1;
      }
      plane := plane.(relays := plane.relays[w := relay.(done := relay.done + 1)]);
      alive, half := true, false;
    }

    /** Row after row of a claim, until the process ends; `half` says that it ended between two streams. */
    method PublishClaim(w: nat, claim: seq<nat>, life: nat) returns (relayed: nat, left: nat, alive: bool, half: bool)
      requires w !in plane.relays && claim == ClaimOf(plane)
      modifies this
      ensures relayed <= |claim| && (alive ==> relayed == |claim|) && (half ==> !alive && relayed < |claim|)
      ensures var p := Published(old(plane), w, relayed);
              plane == if half then p.(firehose := p.firehose + [old(plane).outbox[claim[relayed]].envelope]) else p
    {
      ghost var start := plane;
      plane := plane.(relays := plane.relays[w := Relay(claim, 0, false)]);
      relayed, left, alive, half := 0, life, true, false;
      while relayed < |claim|
        invariant relayed <= |claim| && alive && !half && plane == Published(start, w, relayed)
      {
        left, alive, half := RelayRow(w, left);
        if !alive { return; }
        relayed, half := relayed + 1, false;
      }
    }

    /**
     * One drain by relay `w`, whose process survives `life` effects. Marks commit together after the
     * last row, so a relay that dies leaves every row of its claim unrelayed, whatever it published.
     */
    method Drain(w: nat, life: nat) returns (relayed: nat, alive: bool)
      requires w !in plane.relays
      modifies this
      ensures Leads(old(plane), plane)
      ensures alive ==> relayed == |ClaimOf(old(plane))| && plane == Drained(old(plane), w)
      ensures !alive ==> relayed <= |ClaimOf(old(plane))|
                         && (plane == DrainCut(old(plane), w, relayed, false)
                             || (relayed < |ClaimOf(old(plane))| && plane == DrainCut(old(plane), w, relayed, true)))
    {
      ghost var start := plane;
      var claim := ClaimOf(plane);
      var left, half;
      relayed, left, alive, half := PublishClaim(w, claim, life);
      alive := alive && left > 0;
      if !alive {
        DrainCutIs(start, w, relayed, half, plane);
        plane := plane.(relays := plane.relays - {w});
        return;
      }
      DrainedLeads(start, w);
      plane := plane.(outbox := Marked(plane.outbox, claim), relays := plane.relays - {w});
    }

    // ---------------------------------------------------------------- the persister

    /** The inserts of one transaction, each skipping an identifier already logged, until the process ends. */
    method InsertAll(batch: seq<Envelope>, life: nat) returns (rows: map<string, Envelope>, alive: bool)
      ensures alive ==> rows == Inserted(plane.log, batch)
      ensures alive <==> |batch| <= life
    {
      rows := plane.log;
      for i := 0 to |batch|
        invariant rows == Inserted(plane.log, batch[..i]) && i <= life
      {
        if i == life { return rows, false; }
        assert batch[..i + 1][..i] == batch[..i];
        if batch[i].eventId !in rows { rows := rows[batch[i].eventId := batch[i]]; }
      }
      assert batch[..|batch|] == batch;
      alive := true;
    }

    /**
     * One pump of the persister, whose process survives `inserts` inserts and `acks` acknowledgements: it
     * reads what was never delivered, inserts it in one transaction, commits, then acknowledges.
     */
    method Pump(w: nat, inserts: nat, acks: nat) returns (read: nat, alive: bool)
      requires w !in plane.pumps && plane.delivered <= |plane.firehose|
      modifies this
      ensures Leads(old(plane), plane)
      ensures read == Min(128, |old(plane).firehose| - old(plane).delivered)
      ensures plane == PumpLeft(old(plane), w, read <= inserts, if read <= inserts then Min(read, acks) else 0)
      ensures alive <==> read <= inserts && read <= acks
    {
      ghost var start := plane;
      var first, last := plane.delivered, Min(plane.delivered + PUMP_BATCH, |plane.firehose|);
      var batch := plane.firehose[first..last];
      read := last - first;
      plane := plane.(delivered := last, pending := plane.pending + Upto(first, last));
      var rows;
      rows, alive := InsertAll(batch, inserts);
      if !alive {
        PumpLeftFirst(start, w, false, plane.log);
        PumpLeftLeads(start, w, false, 0);
        return;
      }
      PumpLeftFirst(start, w, true, rows);
      plane := plane.(log := rows);
      var acked := AckUpTo(first, Min(read, acks), start, w);
      alive := acked == read;
      PumpLeftLeads(start, w, true, acked);
    }

    /** Acknowledge entry after entry. */
    method AckUpTo(first: nat, count: nat, ghost start: Plane, ghost w: nat) returns (acked: nat)
      requires start.delivered == first <= |start.firehose| && plane == PumpLeft(start, w, true, 0)
      modifies this
      ensures acked == count && plane == PumpLeft(start, w, true, count)
    {
      acked := 0;
      while acked < count
        invariant acked <= count && plane == PumpLeft(start, w, true, acked)
      {
        PumpLeftAcks(start, w, acked);
        plane := plane.(pending := plane.pending - {first + acked});
        acked := acked + 1;
      }
    }
  }
}
