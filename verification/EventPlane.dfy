/**
 * The event plane (platform/events): producers commit outbox rows, relays publish them to streams,
 * a consumer group projects the firehose into the durable log. Any number of relays and pumps run
 * at once and each may crash between any two of its effects.
 */
module EventPlane {
  import opened Common

  datatype Envelope = Envelope(eventId: string, run: Option<nat>, body: string)

  datatype Row = Row(createdAt: nat, envelope: Envelope, relayed: bool)

  /**
   * A relay between its claim and its commit: `done` rows are fully published, `half` of the next on the firehose
   * only.
   */
  datatype Relay = Relay(claim: seq<nat>, done: nat, half: bool)

  /** A pump holding the firehose entries first..last: `acked` of them are acknowledged. */
  datatype Pump = Pump(first: nat, last: nat, committed: bool, acked: nat)

  datatype Plane = Plane(
    outbox: seq<Row>, firehose: seq<Envelope>, runs: map<nat, seq<Envelope>>,
    delivered: nat, pending: set<nat>, log: map<string, Envelope>,
    relays: map<nat, Relay>, pumps: map<nat, Pump>)

  const RELAY_BATCH: nat := 128
  const PUMP_BATCH: nat := 128

  const EMPTY: Plane := Plane([], [], map[], 0, {}, map[], map[], map[])

  // ---------------------------------------------------------------- steps

  datatype Step =
    | Commit(rows: seq<(nat, Envelope)>)
    | Claim(relay: nat, claim: seq<nat>)
    | PublishFirehose(relay: nat)
    | PublishRun(relay: nat)
    | RelayCommit(relay: nat)
    | RelayCrash(relay: nat)
    | Read(pump: nat)
    | Persist(pump: nat)
    | Ack(pump: nat)
    | PumpEnd(pump: nat)

  predicate UniqueIds(outbox: seq<Row>) {
    forall i, j :: 0 <= i < j < |outbox| ==> outbox[i].envelope.eventId != outbox[j].envelope.eventId
  }

  function Unrelayed(rows: seq<(nat, Envelope)>): seq<Row> {
    seq(|rows|, i requires 0 <= i < |rows| => Row(rows[i].0, rows[i].1, false))
  }

  predicate Locked(s: Plane, i: nat) {
    exists w :: w in s.relays && i in s.relays[w].claim
  }

  /** A row a claim may take: not relayed, and not locked by another relay. */
  predicate Claimable(s: Plane, i: nat) {
    i < |s.outbox| && !s.outbox[i].relayed && !Locked(s, i)
  }

  predicate Increasing(outbox: seq<Row>, claim: seq<nat>) {
    && (forall k :: 0 <= k < |claim| ==> claim[k] < |outbox|)
    && (forall j, k :: 0 <= j < k < |claim| ==>
        claim[j] != claim[k] && outbox[claim[j]].createdAt <= outbox[claim[k]].createdAt)
  }

  /** Oldest first, at most one batch, and nothing older or claimable left behind without need. */
  predicate IsClaim(s: Plane, claim: seq<nat>) {
    && Increasing(s.outbox, claim)
    && |claim| <= RELAY_BATCH
    && (forall k :: 0 <= k < |claim| ==> Claimable(s, claim[k]))
    && (forall i :: 0 <= i < |s.outbox| && Claimable(s, i) && i !in claim ==>
                           |claim| == RELAY_BATCH && forall k :: 0 <= k < |claim| ==>
                               s.outbox[claim[k]].createdAt <= s.outbox[i].createdAt)
  }

  predicate Enabled(s: Plane, step: Step) {
    match step
    case Commit(rows) => true
    case Claim(w, claim) => w !in s.relays && IsClaim(s, claim)
    case PublishFirehose(w) => w in s.relays && s.relays[w].done < |s.relays[w].claim| && !s.relays[w].half
    case PublishRun(w) => w in s.relays && s.relays[w].half
    case RelayCommit(w) => w in s.relays && s.relays[w].done == |s.relays[w].claim|
    case RelayCrash(w) => w in s.relays
    case Read(w) => w !in s.pumps
    case Persist(w) => w in s.pumps && !s.pumps[w].committed
    case Ack(w) => w in s.pumps && s.pumps[w].committed && s.pumps[w].first + s.pumps[w].acked < s.pumps[w].last
    case PumpEnd(w) => w in s.pumps
  }

  /** The row a relay is publishing. */
  function Current(s: Plane, w: nat): Option<Envelope> {
    if w in s.relays && s.relays[w].done < |s.relays[w].claim| && s.relays[w].claim[s.relays[w].done] < |s.outbox| then
      Some(s.outbox[s.relays[w].claim[s.relays[w].done]].envelope)
    else None
  }

  function Onto(runs: map<nat, seq<Envelope>>, run: nat, e: Envelope): map<nat, seq<Envelope>> {
    runs[run := (if run in runs then runs[run] else []) + [e]]
  }

  function Marked(outbox: seq<Row>, claim: seq<nat>): (r: seq<Row>)
    ensures |r| == |outbox|
  {
    seq(|outbox|, i requires 0 <= i < |outbox| => if i in claim then outbox[i].(relayed := true) else outbox[i])
  }

  /** Inserting with "on conflict do nothing": the first envelope under an identifier stays. */
  function Inserted(log: map<string, Envelope>, envelopes: seq<Envelope>): map<string, Envelope> {
    if envelopes == [] then log
    else
      var before, last := Inserted(log, envelopes[..|envelopes| - 1]), envelopes[|envelopes| - 1];
      if last.eventId in before then before else before[last.eventId := last]
  }

  function Batch(firehose: seq<Envelope>, p: Pump): seq<Envelope> {
    if p.first <= p.last <= |firehose| then firehose[p.first..p.last] else []
  }

  function Upto(a: nat, b: nat): (r: set<nat>)
    ensures forall i :: i in r <==> a <= i < b
  {
    if a < b then Upto(a, b - 1) + {b - 1} else {}
  }

  function Next(s: Plane, step: Step): Plane
    requires Enabled(s, step)
  {
    match step
    case Commit(rows) =>
      // the identifier is unique in the outbox: a clash rolls the whole transaction back
      if UniqueIds(s.outbox + Unrelayed(rows)) then s.(outbox := s.outbox + Unrelayed(rows)) else s
    case Claim(w, claim) => s.(relays := s.relays[w := Relay(claim, 0, false)])
    case PublishFirehose(w) =>
      var e, r := Current(s, w), s.relays[w];
      if e.None? then s
      else s.(firehose := s.firehose + [e.value],
              relays := s.relays[w := if e.value.run.Some? then r.(half := true) else r.(done := r.done + 1)])
    case PublishRun(w) =>
      var e, r := Current(s, w), s.relays[w];
      if e.None? || e.value.run.None? then s
      else s.(runs := Onto(s.runs, e.value.run.value, e.value),
              relays := s.relays[w := r.(half := false, done := r.done + 1)])
    case RelayCommit(w) => s.(outbox := Marked(s.outbox, s.relays[w].claim), relays := s.relays - {w})
    case RelayCrash(w) => s.(relays := s.relays - {w})
    case Read(w) =>
      // only entries never delivered to the group are read
      var last := if |s.firehose| < s.delivered + PUMP_BATCH then Max(s.delivered, |s.firehose|)
          else s.delivered + PUMP_BATCH;
      s.(delivered := last, pending := s.pending + Upto(s.delivered, last),
         pumps := s.pumps[w := Pump(s.delivered, last, false, 0)])
    case Persist(w) =>
      s.(log := Inserted(s.log, Batch(s.firehose, s.pumps[w])), pumps := s.pumps[w := s.pumps[w].(committed := true)])
    case Ack(w) =>
      var p := s.pumps[w];
      s.(pending := s.pending - {p.first + p.acked}, pumps := s.pumps[w := p.(acked := p.acked + 1)])
    case PumpEnd(w) => s.(pumps := s.pumps - {w})
  }

  /** A step that is not enabled does not happen. */
  function Apply(s: Plane, step: Step): Plane { if Enabled(s, step) then Next(s, step) else s }

  function After(s: Plane, steps: seq<Step>): Plane { Fold(Apply, s, steps) }

  // ---------------------------------------------------------------- the invariant

  predicate Committed(outbox: seq<Row>, e: Envelope) {
    exists i :: 0 <= i < |outbox| && outbox[i].envelope == e
  }

  predicate OnStreams(s: Plane, e: Envelope) {
    e in s.firehose && (e.run.Some? ==> e.run.value in s.runs && e in s.runs[e.run.value])
  }

  predicate RelayOk(s: Plane, r: Relay) {
    && r.done <= |r.claim|
    && Increasing(s.outbox, r.claim)
    && (forall k :: 0 <= k < |r.claim| ==> !s.outbox[r.claim[k]].relayed)
    && (forall k :: 0 <= k < r.done ==> OnStreams(s, s.outbox[r.claim[k]].envelope))
    && (r.half ==>
          && r.done < |r.claim| && s.outbox[r.claim[r.done]].envelope in s.firehose
          && s.outbox[r.claim[r.done]].envelope.run.Some?)
  }

  predicate Disjoint(a: seq<nat>, b: seq<nat>) {
    forall x :: x in a ==> x !in b
  }

  predicate PumpOk(s: Plane, p: Pump) {
    && p.first + p.acked <= p.last <= s.delivered <= |s.firehose|
    && (!p.committed ==> p.acked == 0)
    && (p.committed ==> forall i :: p.first <= i < p.last ==> s.firehose[i].eventId in s.log)
  }

  predicate OutboxOk(s: Plane) {
    && UniqueIds(s.outbox)
    && (forall i :: 0 <= i < |s.outbox| && s.outbox[i].relayed ==> OnStreams(s, s.outbox[i].envelope))
  }

  predicate StreamsOk(s: Plane) {
    && (forall e :: e in s.firehose ==> Committed(s.outbox, e))
    && (forall r, e :: r in s.runs && e in s.runs[r] ==> Committed(s.outbox, e) && e.run == Some(r))
  }

  predicate RelaysOk(s: Plane) {
    && (forall w :: w in s.relays ==> RelayOk(s, s.relays[w]))
    && (forall v, w :: v in s.relays && w in s.relays && v != w ==> Disjoint(s.relays[v].claim, s.relays[w].claim))
  }

  predicate GroupOk(s: Plane) {
    && s.delivered <= |s.firehose|
    && (forall i :: i in s.pending ==> i < s.delivered)
    && (forall i :: 0 <= i < s.delivered && i !in s.pending ==> s.firehose[i].eventId in s.log)
    && (forall w :: w in s.pumps ==> PumpOk(s, s.pumps[w]))
  }

  predicate LogOk(s: Plane) {
    forall id :: id in s.log ==> s.log[id].eventId == id && Committed(s.outbox, s.log[id])
  }

  /**
   * Relayed implies published on every stream the event belongs to, published implies committed,
   * acknowledged implies persisted, and a log row is the committed envelope of its identifier.
   */
  predicate PlaneOk(s: Plane) {
    OutboxOk(s) && StreamsOk(s) && RelaysOk(s) && GroupOk(s) && LogOk(s)
  }

  // ---------------------------------------------------------------- each step keeps it

  /** Nothing committed or published is taken back. */
  ghost predicate Grows(s: Plane, t: Plane) {
    && s.firehose <= t.firehose
    && (forall e :: OnStreams(s, e) ==> OnStreams(t, e))
    && (forall e :: Committed(s.outbox, e) ==> Committed(t.outbox, e))
  }

  lemma OutboxGrows(s: Plane, t: Plane)
    requires t.firehose == s.firehose && t.runs == s.runs
    requires |s.outbox| <= |t.outbox| && forall i :: 0 <= i < |s.outbox| ==>
             s.outbox[i].envelope == t.outbox[i].envelope
    ensures Grows(s, t)
  {
    forall e | Committed(s.outbox, e)
      ensures Committed(t.outbox, e)
    {
      var i :| 0 <= i < |s.outbox| && s.outbox[i].envelope == e;
      assert t.outbox[i].envelope == e;
    }
  }

  lemma StreamsGrow(s: Plane, t: Plane)
    requires t.outbox == s.outbox && s.firehose <= t.firehose
    requires forall run :: run in s.runs ==> run in t.runs && s.runs[run] <= t.runs[run]
    ensures Grows(s, t)
  {
  }

  lemma RelayStays(s: Plane, t: Plane, r: Relay)
    requires RelayOk(s, r) && Grows(s, t) && |s.outbox| <= |t.outbox|
    requires forall i :: 0 <= i < |s.outbox| ==>
                           s.outbox[i].envelope == t.outbox[i].envelope
                           && s.outbox[i].createdAt == t.outbox[i].createdAt
    requires forall k :: 0 <= k < |r.claim| ==> !t.outbox[r.claim[k]].relayed
    ensures RelayOk(t, r)
  {
  }

  lemma RelaysStay(s: Plane, t: Plane)
    requires RelaysOk(s) && Grows(s, t) && t.relays == s.relays
    requires s.outbox <= t.outbox
    ensures RelaysOk(t)
  {
    forall v | v in t.relays
      ensures RelayOk(t, t.relays[v])
    {
      assert RelayOk(s, s.relays[v]);
      RelayStays(s, t, s.relays[v]);
    }
  }

  /** One relay moves on with the same claim. */
  lemma RelayMoves(s: Plane, t: Plane, w: nat, r: Relay)
    requires RelaysOk(s) && Grows(s, t) && t.outbox == s.outbox
    requires w in s.relays && t.relays == s.relays[w := r] && r.claim == s.relays[w].claim && RelayOk(t, r)
    ensures RelaysOk(t)
  {
    forall v | v in t.relays
      ensures RelayOk(t, t.relays[v])
    {
      if v != w {
        assert RelayOk(s, s.relays[v]);
        RelayStays(s, t, s.relays[v]);
      }
    }
  }

  lemma GroupStays(s: Plane, t: Plane)
    requires GroupOk(s) && s.firehose <= t.firehose
    requires t.delivered == s.delivered && t.pending == s.pending && t.log == s.log && t.pumps == s.pumps
    ensures GroupOk(t)
  {
    forall v | v in t.pumps
      ensures PumpOk(t, t.pumps[v])
    {
      assert PumpOk(s, s.pumps[v]);
    }
  }

  lemma LogStays(s: Plane, t: Plane)
    requires LogOk(s) && Grows(s, t) && t.log == s.log
    ensures LogOk(t)
  {
  }

  /** A change to the outbox and the relays alone. */
  lemma OutboxChangeKeeps(s: Plane, t: Plane)
    requires PlaneOk(s) && OutboxOk(t) && RelaysOk(t) && Grows(s, t)
    requires t.firehose == s.firehose && t.runs == s.runs
    requires t.delivered == s.delivered && t.pending == s.pending && t.log == s.log && t.pumps == s.pumps
    ensures PlaneOk(t)
  {
    GroupStays(s, t);
    LogStays(s, t);
  }

  lemma CommitKeepsOutbox(s: Plane, t: Plane, rows: seq<Row>)
    requires OutboxOk(s) && t.outbox == s.outbox + rows && UniqueIds(t.outbox) && Grows(s, t)
    requires forall i :: 0 <= i < |rows| ==> !rows[i].relayed
    ensures OutboxOk(t)
  {
  }

  lemma CommitKeeps(s: Plane, rows: seq<(nat, Envelope)>)
    requires PlaneOk(s)
    ensures PlaneOk(Next(s, Commit(rows)))
  {
    if UniqueIds(s.outbox + Unrelayed(rows)) {
      var t := Next(s, Commit(rows));
      OutboxGrows(s, t);
      CommitKeepsOutbox(s, t, Unrelayed(rows));
      RelaysStay(s, t);
      OutboxChangeKeeps(s, t);
    }
  }

  /** A claim takes only rows that no relay has. */
  lemma ClaimIsApart(s: Plane, w: nat, claim: seq<nat>)
    requires Enabled(s, Claim(w, claim))
    ensures forall v :: v in s.relays ==> Disjoint(s.relays[v].claim, claim) && Disjoint(claim, s.relays[v].claim)
  {
    forall v, x | v in s.relays && x in claim
      ensures x !in s.relays[v].claim
    {
      assert Claimable(s, x);
    }
  }

  lemma ClaimKeepsRelays(s: Plane, w: nat, claim: seq<nat>)
    requires PlaneOk(s) && Enabled(s, Claim(w, claim))
    ensures RelaysOk(Next(s, Claim(w, claim)))
  {
    var t := Next(s, Claim(w, claim));
    ClaimIsApart(s, w, claim);
    forall v | v in t.relays
      ensures RelayOk(t, t.relays[v])
    {
      if v != w {
        assert RelayOk(s, s.relays[v]);
        RelayStays(s, t, s.relays[v]);
      }
    }
  }

  lemma ClaimKeeps(s: Plane, w: nat, claim: seq<nat>)
    requires PlaneOk(s) && Enabled(s, Claim(w, claim))
    ensures PlaneOk(Next(s, Claim(w, claim)))
  {
    ClaimKeepsRelays(s, w, claim);
    GroupStays(s, Next(s, Claim(w, claim)));
  }

  lemma CurrentRow(s: Plane, w: nat)
    requires PlaneOk(s) && w in s.relays && s.relays[w].done < |s.relays[w].claim|
    ensures RelayOk(s, s.relays[w]) && Current(s, w) == Some(s.outbox[s.relays[w].claim[s.relays[w].done]].envelope)
    ensures Committed(s.outbox, Current(s, w).value)
  {
    assert RelayOk(s, s.relays[w]);
  }

  /** The relay's own record after its current row reaches the firehose. */
  lemma FirehoseAdvances(s: Plane, t: Plane, r: Relay, e: Envelope)
    requires RelayOk(s, r) && r.done < |r.claim| && !r.half && s.outbox[r.claim[r.done]].envelope == e
    requires Grows(s, t) && t.outbox == s.outbox && e in t.firehose
    ensures RelayOk(t, if e.run.Some? then r.(half := true) else r.(done := r.done + 1))
  {
  }

  /** The relay's own record after its current row, already on the firehose, reaches its run's stream. */
  lemma RunAdvances(s: Plane, t: Plane, r: Relay, e: Envelope)
    requires RelayOk(s, r) && r.half && s.outbox[r.claim[r.done]].envelope == e
    requires Grows(s, t) && t.outbox == s.outbox && e.run.value in t.runs && e in t.runs[e.run.value]
    ensures RelayOk(t, r.(half := false, done := r.done + 1))
  {
  }

  lemma OntoFirehose(s: Plane, t: Plane, e: Envelope)
    requires StreamsOk(s) && Committed(s.outbox, e)
    requires t.outbox == s.outbox && t.firehose == s.firehose + [e] && t.runs == s.runs
    ensures StreamsOk(t) && Grows(s, t) && e in t.firehose
  {
    assert t.firehose[|s.firehose|] == e;
    StreamsGrow(s, t);
  }

  /** A publication keeps what it does not touch. */
  lemma PublicationKeeps(s: Plane, t: Plane, w: nat, r: Relay)
    requires PlaneOk(s) && StreamsOk(t) && Grows(s, t) && t.outbox == s.outbox
    requires w in s.relays && t.relays == s.relays[w := r] && r.claim == s.relays[w].claim && RelayOk(t, r)
    requires t.delivered == s.delivered && t.pending == s.pending && t.log == s.log && t.pumps == s.pumps
    ensures PlaneOk(t)
  {
    RelayMoves(s, t, w, r);
    GroupStays(s, t);
    LogStays(s, t);
  }

  lemma PublishFirehoseKeeps(s: Plane, w: nat)
    requires PlaneOk(s) && Enabled(s, PublishFirehose(w))
    ensures PlaneOk(Next(s, PublishFirehose(w)))
  {
    var t, e := Next(s, PublishFirehose(w)), Current(s, w).value;
    CurrentRow(s, w);
    OntoFirehose(s, t, e);
    FirehoseAdvances(s, t, s.relays[w], e);
    PublicationKeeps(s, t, w, t.relays[w]);
  }

  lemma OntoStreams(s: Plane, t: Plane, e: Envelope)
    requires StreamsOk(s) && Committed(s.outbox, e) && e.run.Some?
    requires t.outbox == s.outbox && t.firehose == s.firehose && t.runs == Onto(s.runs, e.run.value, e)
    ensures StreamsOk(t) && Grows(s, t) && e in t.runs[e.run.value]
  {
    var run := e.run.value;
    assert t.runs[run][|t.runs[run]| - 1] == e;
    StreamsGrow(s, t);
    forall r, x | r in t.runs && x in t.runs[r]
      ensures Committed(t.outbox, x) && x.run == Some(r)
    {
      if r in s.runs && x in s.runs[r] {} else { assert x == e && r == run; }
    }
  }

  lemma PublishRunKeeps(s: Plane, w: nat)
    requires PlaneOk(s) && Enabled(s, PublishRun(w))
    ensures PlaneOk(Next(s, PublishRun(w)))
  {
    assert RelayOk(s, s.relays[w]);
    CurrentRow(s, w);
    var t, e := Next(s, PublishRun(w)), Current(s, w).value;
    OntoStreams(s, t, e);
    RunAdvances(s, t, s.relays[w], e);
    PublicationKeeps(s, t, w, t.relays[w]);
  }

  lemma MarkKeepsOutbox(s: Plane, t: Plane, r: Relay)
    requires OutboxOk(s) && RelayOk(s, r) && r.done == |r.claim|
    requires t.outbox == Marked(s.outbox, r.claim) && Grows(s, t)
    ensures OutboxOk(t)
  {
    forall i | 0 <= i < |t.outbox| && t.outbox[i].relayed
      ensures OnStreams(t, t.outbox[i].envelope)
    {
      if !s.outbox[i].relayed {
        var k :| 0 <= k < |r.claim| && r.claim[k] == i;
        assert OnStreams(s, s.outbox[r.claim[k]].envelope);
      }
    }
  }

  lemma MarkKeepsRelays(s: Plane, t: Plane, w: nat)
    requires RelaysOk(s) && w in s.relays && t.relays == s.relays - {w}
    requires t.outbox == Marked(s.outbox, s.relays[w].claim) && Grows(s, t)
    ensures RelaysOk(t)
  {
    forall v | v in t.relays
      ensures RelayOk(t, t.relays[v])
    {
      assert RelayOk(s, s.relays[v]) && Disjoint(s.relays[v].claim, s.relays[w].claim);
      RelayStays(s, t, s.relays[v]);
    }
  }

  lemma RelayCommitKeeps(s: Plane, w: nat)
    requires PlaneOk(s) && Enabled(s, RelayCommit(w))
    ensures PlaneOk(Next(s, RelayCommit(w)))
  {
    var t := Next(s, RelayCommit(w));
    OutboxGrows(s, t);
    MarkKeepsOutbox(s, t, s.relays[w]);
    MarkKeepsRelays(s, t, w);
    OutboxChangeKeeps(s, t);
  }

  lemma {:induction false} InsertedLaws(log: map<string, Envelope>, envelopes: seq<Envelope>)
    ensures forall id :: id in log ==> id in Inserted(log, envelopes) && Inserted(log, envelopes)[id] == log[id]
    ensures forall e :: e in envelopes ==> e.eventId in Inserted(log, envelopes)
    ensures forall id :: id in Inserted(log, envelopes) && id !in log ==>
                           Inserted(log, envelopes)[id] in envelopes && Inserted(log, envelopes)[id].eventId == id
  {
    if envelopes != [] { InsertedLaws(log, envelopes[..|envelopes| - 1]); }
  }

  /** Only the group's own record and the log change. */
  predicate GroupStep(s: Plane, t: Plane) {
    t.outbox == s.outbox && t.firehose == s.firehose && t.runs == s.runs && t.relays == s.relays
  }

  lemma GroupStepKeeps(s: Plane, t: Plane)
    requires PlaneOk(s) && GroupStep(s, t) && GroupOk(t) && LogOk(t)
    ensures PlaneOk(t)
  {
    RelaysStay(s, t);
  }

  /** A transaction that inserts a delivered batch: the log still holds committed envelopes only, and now these. */
  lemma InsertBatch(s: Plane, p: Pump, log: map<string, Envelope>)
    requires LogOk(s) && StreamsOk(s) && PumpOk(s, p) && log == Inserted(s.log, Batch(s.firehose, p))
    ensures LogOk(s.(log := log)) && s.log.Keys <= log.Keys
    ensures forall i :: p.first <= i < p.last ==> s.firehose[i].eventId in log
  {
    var batch := Batch(s.firehose, p);
    InsertedLaws(s.log, batch);
    forall i | p.first <= i < p.last
      ensures s.firehose[i].eventId in log
    {
      assert batch[i - p.first] in batch;
    }
  }

  lemma PersistKeeps(s: Plane, w: nat)
    requires PlaneOk(s) && Enabled(s, Persist(w))
    ensures PlaneOk(Next(s, Persist(w)))
  {
    var t := Next(s, Persist(w));
    assert PumpOk(s, s.pumps[w]);
    InsertBatch(s, s.pumps[w], t.log);
    forall v | v in t.pumps
      ensures PumpOk(t, t.pumps[v])
    {
      assert PumpOk(s, s.pumps[v]);
    }
    GroupStepKeeps(s, t);
  }

  lemma PumpKeeps(s: Plane, step: Step)
    requires PlaneOk(s) && Enabled(s, step) && (step.Read? || step.Ack? || step.PumpEnd?)
    ensures PlaneOk(Next(s, step))
  {
    var t := Next(s, step);
    if step.Ack? { assert PumpOk(s, s.pumps[step.pump]); }
    forall v | v in t.pumps
      ensures PumpOk(t, t.pumps[v])
    {
      assert v in s.pumps ==> PumpOk(s, s.pumps[v]);
    }
    GroupStepKeeps(s, t);
  }

  lemma RelayCrashKeeps(s: Plane, w: nat)
    requires PlaneOk(s) && Enabled(s, RelayCrash(w))
    ensures PlaneOk(Next(s, RelayCrash(w)))
  {
    var t := Next(s, RelayCrash(w));
    forall v | v in t.relays
      ensures RelayOk(t, t.relays[v])
    {
      assert RelayOk(s, s.relays[v]);
      RelayStays(s, t, s.relays[v]);
    }
    GroupStays(s, t);
  }

  lemma StepKeepsOk(s: Plane, step: Step)
    requires PlaneOk(s) && Enabled(s, step)
    ensures PlaneOk(Next(s, step))
  {
    match step
    case Commit(rows) => CommitKeeps(s, rows);
    case Claim(w, claim) => ClaimKeeps(s, w, claim);
    case PublishFirehose(w) => PublishFirehoseKeeps(s, w);
    case PublishRun(w) => PublishRunKeeps(s, w);
    case RelayCommit(w) => RelayCommitKeeps(s, w);
    case RelayCrash(w) => RelayCrashKeeps(s, w);
    case Persist(w) => PersistKeeps(s, w);
    case Read(w) => PumpKeeps(s, step);
    case Ack(w) => PumpKeeps(s, step);
    case PumpEnd(w) => PumpKeeps(s, step);
  }

  /** Under any interleaving of producers, relays, pumps and crashes, the invariant holds throughout. */
  lemma {:induction false} RunsKeepOk(s: Plane, steps: seq<Step>)
    requires PlaneOk(s)
    ensures PlaneOk(After(s, steps))
  {
    if steps != [] {
      var before, step := After(s, steps[..|steps| - 1]), steps[|steps| - 1];
      RunsKeepOk(s, steps[..|steps| - 1]);
      if Enabled(before, step) { StepKeepsOk(before, step); }
    }
  }

  // ---------------------------------------------------------------- quiescence

  predicate Quiescent(s: Plane) {
    && (forall i :: 0 <= i < |s.outbox| ==> s.outbox[i].relayed)
    && s.delivered == |s.firehose| && s.pending == {}
  }

  /** Committed envelopes with one identifier are one envelope. */
  lemma OneEnvelopePerId(outbox: seq<Row>, a: Envelope, b: Envelope)
    requires UniqueIds(outbox) && Committed(outbox, a) && Committed(outbox, b) && a.eventId == b.eventId
    ensures a == b
  {
    var i :| 0 <= i < |outbox| && outbox[i].envelope == a;
    var j :| 0 <= j < |outbox| && outbox[j].envelope == b;
    if i < j {} else if j < i {}
  }

  /**
   * From an empty plane, after any run: when nothing is unrelayed, undelivered or pending, the log holds
   * exactly the committed events, one row each.
   */
  lemma QuiescentLogIsTheCommittedEvents(steps: seq<Step>)
    requires Quiescent(After(EMPTY, steps))
    ensures var s := After(EMPTY, steps);
            forall e :: Committed(s.outbox, e) <==> e.eventId in s.log && s.log[e.eventId] == e
  {
    RunsKeepOk(EMPTY, steps);
    var s := After(EMPTY, steps);
    forall e | Committed(s.outbox, e)
      ensures e.eventId in s.log && s.log[e.eventId] == e
    {
      var i :| 0 <= i < |s.outbox| && s.outbox[i].envelope == e;
      assert s.outbox[i].relayed && OnStreams(s, e);
      var k :| 0 <= k < |s.firehose| && s.firehose[k] == e;
      assert e.eventId in s.log;
      OneEnvelopePerId(s.outbox, e, s.log[e.eventId]);
    }
  }
}
