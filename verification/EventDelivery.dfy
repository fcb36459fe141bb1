/**
 * Which committed events can still reach the log. Pumps read only entries never delivered to their
 * group, so an entry whose pump ended before its commit is never read again.
 */
module EventDelivery {
  import opened Common
  import opened EventPlane

  /** Some pump holds the entry and has not committed yet. */
  predicate Held(s: Plane, p: nat) {
    exists w :: w in s.pumps && !s.pumps[w].committed && s.pumps[w].first <= p < s.pumps[w].last
  }

  predicate Relayed(outbox: seq<Row>, e: Envelope) {
    exists i :: 0 <= i < |outbox| && outbox[i].relayed && outbox[i].envelope == e
  }

  /** Relayed, not in the log, and every one of its entries was delivered to a pump that is gone. */
  predicate Stuck(s: Plane, e: Envelope) {
    && Relayed(s.outbox, e) && e.eventId !in s.log
    && forall p :: 0 <= p < |s.firehose| && s.firehose[p] == e ==> p < s.delivered && !Held(s, p)
  }

  // ---------------------------------------------------------------- stuck for good

  lemma RelayedStays(s: Plane, step: Step, e: Envelope)
    requires Enabled(s, step) && Relayed(s.outbox, e)
    ensures Relayed(Next(s, step).outbox, e)
  {
    var i :| 0 <= i < |s.outbox| && s.outbox[i].relayed && s.outbox[i].envelope == e;
    assert Next(s, step).outbox[i].relayed && Next(s, step).outbox[i].envelope == e;
  }

  /** A relay publishes only rows that are not relayed, so never a relayed event again. */
  lemma PublishesOthers(s: Plane, w: nat, e: Envelope)
    requires PlaneOk(s) && Enabled(s, PublishFirehose(w)) && Relayed(s.outbox, e)
    ensures Next(s, PublishFirehose(w)).firehose == s.firehose + [Current(s, w).value] && Current(s, w).value != e
  {
    CurrentRow(s, w);
    var i :| 0 <= i < |s.outbox| && s.outbox[i].relayed && s.outbox[i].envelope == e;
    var j := s.relays[w].claim[s.relays[w].done];
    assert !s.outbox[j].relayed;
    if i < j {} else if j < i {}
  }

  lemma HeldEntry(s: Plane, w: nat, e: Envelope) returns (q: nat)
    requires w in s.pumps && !s.pumps[w].committed && e in Batch(s.firehose, s.pumps[w])
    ensures q < |s.firehose| && s.firehose[q] == e && Held(s, q)
  {
    var batch := Batch(s.firehose, s.pumps[w]);
    var k :| 0 <= k < |batch| && batch[k] == e;
    q := s.pumps[w].first + k;
  }

  lemma PersistLogsOthers(s: Plane, w: nat, e: Envelope)
    requires PlaneOk(s) && Enabled(s, Persist(w)) && Stuck(s, e)
    ensures e.eventId !in Next(s, Persist(w)).log
  {
    var p := s.pumps[w];
    assert PumpOk(s, p);
    var batch := Batch(s.firehose, p);
    InsertedLaws(s.log, batch);
    if e.eventId in Inserted(s.log, batch) {
      var x := Inserted(s.log, batch)[e.eventId];
      assert x in batch && x in s.firehose;
      var i :| 0 <= i < |s.outbox| && s.outbox[i].relayed && s.outbox[i].envelope == e;
      OneEnvelopePerId(s.outbox, x, e);
      var q := HeldEntry(s, w, e);
      assert false;
    }
  }

  lemma StuckUnlogged(s: Plane, step: Step, e: Envelope)
    requires PlaneOk(s) && Enabled(s, step) && Stuck(s, e)
    ensures e.eventId !in Next(s, step).log
  {
    if step.Persist? { PersistLogsOthers(s, step.pump, e); }
  }

  /** No entry of a stuck event is new, and none that ended comes back to a pump. */
  lemma StuckUnread(s: Plane, step: Step, e: Envelope)
    requires PlaneOk(s) && Enabled(s, step) && Stuck(s, e)
    ensures var t := Next(s, step);
            forall p :: 0 <= p < |t.firehose| && t.firehose[p] == e ==> p < |s.firehose| && s.firehose[p] == e
  {
    if step.PublishFirehose? { PublishesOthers(s, step.relay, e); }
  }

  /** A delivered entry that no pump holds is never held again. */
  lemma EndedStays(s: Plane, step: Step, p: nat)
    requires PlaneOk(s) && Enabled(s, step) && p < s.delivered && !Held(s, p)
    ensures p < Next(s, step).delivered && !Held(Next(s, step), p)
  {
  }

  lemma StuckStep(s: Plane, step: Step, e: Envelope)
    requires PlaneOk(s) && Enabled(s, step) && Stuck(s, e)
    ensures Stuck(Next(s, step), e)
  {
    var t := Next(s, step);
    RelayedStays(s, step, e);
    StuckUnlogged(s, step, e);
    StuckUnread(s, step, e);
    forall p | 0 <= p < |t.firehose| && t.firehose[p] == e
      ensures p < t.delivered && !Held(t, p)
    {
      EndedStays(s, step, p);
    }
  }

  lemma {:induction false} StuckForever(s: Plane, steps: seq<Step>, e: Envelope)
    requires PlaneOk(s) && Stuck(s, e)
    ensures Stuck(After(s, steps), e)
  {
    if steps != [] {
      var before, step := After(s, steps[..|steps| - 1]), steps[|steps| - 1];
      StuckForever(s, steps[..|steps| - 1], e);
      RunsKeepOk(s, steps[..|steps| - 1]);
      if Enabled(before, step) { StuckStep(before, step, e); }
    }
  }

  // ---------------------------------------------------------------- runs, joined

  /** `t` can follow `s`. */
  ghost predicate Leads(s: Plane, t: Plane) {
    exists steps :: After(s, steps) == t
  }

  lemma LeadsStep(s: Plane, step: Step)
    requires Enabled(s, step)
    ensures Leads(s, Next(s, step))
  {
    FoldOne(Apply, s, step);
    assert After(s, [step]) == Next(s, step);
  }

  lemma LeadsTrans(s: Plane, t: Plane, u: Plane)
    requires Leads(s, t) && Leads(t, u)
    ensures Leads(s, u)
  {
    var a :| After(s, a) == t;
    var b :| After(t, b) == u;
    FoldConcat(Apply, s, a, b);
    assert After(s, a + b) == u;
  }

  lemma LeadsKeepsOk(s: Plane, t: Plane)
    requires PlaneOk(s) && Leads(s, t)
    ensures PlaneOk(t)
  {
    var a :| After(s, a) == t;
    RunsKeepOk(s, a);
  }

  lemma LeadsSelf(s: Plane)
    ensures Leads(s, s)
  {
    assert After(s, []) == s;
  }

  // ---------------------------------------------------------------- delivery is still possible

  lemma {:induction false} FreshId(keys: set<nat>) returns (w: nat)
    ensures forall k :: k in keys ==> k < w
    decreases |keys|
  {
    if keys == {} {
      w := 0;
    } else {
      var k :| k in keys;
      var above := FreshId(keys - {k});
      w := Max(above, k + 1);
      forall j | j in keys
        ensures j < w
      {
        assert j == k || j in keys - {k};
      }
    }
  }

  lemma HeldReaches(s: Plane, e: Envelope, p: nat) returns (t: Plane)
    requires PlaneOk(s) && p < |s.firehose| && s.firehose[p] == e && Held(s, p)
    ensures Leads(s, t) && e.eventId in t.log
  {
    var w :| w in s.pumps && !s.pumps[w].committed && s.pumps[w].first <= p < s.pumps[w].last;
    t := Next(s, Persist(w));
    LeadsStep(s, Persist(w));
    assert PumpOk(s, s.pumps[w]);
    InsertBatch(s, s.pumps[w], t.log);
  }

  lemma {:induction false} UnreadReaches(s: Plane, e: Envelope, p: nat) returns (t: Plane)
    requires PlaneOk(s) && s.delivered <= p < |s.firehose| && s.firehose[p] == e
    ensures Leads(s, t) && e.eventId in t.log
    decreases p - s.delivered
  {
    var w := FreshId(s.pumps.Keys);
    assert w !in s.pumps;
    var u := Next(s, Read(w));
    LeadsStep(s, Read(w));
    LeadsKeepsOk(s, u);
    if p < u.delivered {
      assert u.pumps[w].first <= p < u.pumps[w].last;
      assert Held(u, p);
      t := HeldReaches(u, e, p);
    } else {
      t := UnreadReaches(u, e, p);
    }
    LeadsTrans(s, u, t);
  }

  // ---------------------------------------------------------------- a full drain

  function InsertByAge(outbox: seq<Row>, claim: seq<nat>, i: nat): seq<nat>
    requires i < |outbox| && forall k :: 0 <= k < |claim| ==> claim[k] < |outbox|
  {
    if claim == [] || outbox[claim[|claim| - 1]].createdAt <= outbox[i].createdAt then claim + [i]
    else InsertByAge(outbox, claim[..|claim| - 1], i) + [claim[|claim| - 1]]
  }

  lemma OlderThanLast(outbox: seq<Row>, claim: seq<nat>, x: nat)
    requires claim != [] && Increasing(outbox, claim) && x in claim[..|claim| - 1]
    ensures var last := claim[|claim| - 1];
            x != last && x < |outbox| && outbox[x].createdAt <= outbox[last].createdAt
  {
    var j :| 0 <= j < |claim| - 1 && claim[j] == x;
  }

  lemma {:induction false} InsertByAgeLaws(outbox: seq<Row>, claim: seq<nat>, i: nat)
    requires i < |outbox| && Increasing(outbox, claim) && i !in claim
    ensures var r := InsertByAge(outbox, claim, i);
            Increasing(outbox, r) && |r| == |claim| + 1 && forall k :: k in r <==> k in claim || k == i
    decreases |claim|
  {
    if claim != [] && outbox[i].createdAt < outbox[claim[|claim| - 1]].createdAt {
      var init, last := claim[..|claim| - 1], claim[|claim| - 1];
      InsertByAgeLaws(outbox, init, i);
      var inner := InsertByAge(outbox, init, i);
      assert claim == init + [last];
      LastStaysLast(outbox, claim, i, inner);
    }
  }

  lemma LastStaysLast(outbox: seq<Row>, claim: seq<nat>, i: nat, inner: seq<nat>)
    requires i < |outbox| && claim != [] && Increasing(outbox, claim) && i !in claim && Increasing(outbox, inner)
    requires outbox[i].createdAt < outbox[claim[|claim| - 1]].createdAt
    requires forall k :: k in inner <==> k in claim[..|claim| - 1] || k == i
    ensures Increasing(outbox, inner + [claim[|claim| - 1]])
  {
    var last := claim[|claim| - 1];
    forall k | 0 <= k < |inner|
      ensures inner[k] != last && outbox[inner[k]].createdAt <= outbox[last].createdAt
    {
      assert inner[k] in inner;
      if inner[k] != i { OlderThanLast(outbox, claim, inner[k]); }
    }
  }

  /** The claimable rows among the first `n`, oldest first. */
  function Oldest(s: Plane, n: nat): (r: seq<nat>)
    requires n <= |s.outbox|
    ensures Increasing(s.outbox, r)
    ensures forall i :: i in r <==> 0 <= i < n && Claimable(s, i)
  {
    if n == 0 then []
    else
      var before := Oldest(s, n - 1);
      if Claimable(s, n - 1) then InsertByAgeLaws(s.outbox, before, n - 1); InsertByAge(s.outbox, before, n - 1)
      else before
  }

  /** What "oldest first, limit one batch, skip locked" selects. */
  function ClaimOf(s: Plane): (claim: seq<nat>)
    ensures IsClaim(s, claim)
  {
    var all := Oldest(s, |s.outbox|);
    ClaimOfLaws(s, all);
    Take(all, RELAY_BATCH)
  }

  lemma ClaimOfLaws(s: Plane, all: seq<nat>)
    requires Increasing(s.outbox, all) && forall i :: i in all <==> 0 <= i < |s.outbox| && Claimable(s, i)
    ensures IsClaim(s, Take(all, RELAY_BATCH))
  {
    var claim := Take(all, RELAY_BATCH);
    forall k | 0 <= k < |claim|
      ensures Claimable(s, claim[k])
    {
      assert all[k] in all;
    }
    forall i | 0 <= i < |s.outbox| && Claimable(s, i) && i !in claim
      ensures |claim| == RELAY_BATCH && forall k :: 0 <= k < |claim| ==>
              s.outbox[claim[k]].createdAt <= s.outbox[i].createdAt
    {
      var j :| 0 <= j < |all| && all[j] == i;
      if j < |claim| { assert false; }
    }
  }

  /** A claim takes 128 rows, or all there are to take. */
  lemma ClaimIsFull(s: Plane)
    ensures |ClaimOf(s)| == 128 || (|ClaimOf(s)| < 128 && forall i :: Claimable(s, i) ==> i in ClaimOf(s))
  {
    assert IsClaim(s, ClaimOf(s));
  }

  function Envelopes(outbox: seq<Row>, claim: seq<nat>): (r: seq<Envelope>)
    requires forall k :: 0 <= k < |claim| ==> claim[k] < |outbox|
    ensures |r| == |claim| && forall k :: 0 <= k < |claim| ==> r[k] == outbox[claim[k]].envelope
  {
    seq(|claim|, k requires 0 <= k < |claim| => outbox[claim[k]].envelope)
  }

  lemma EnvelopesUpto(outbox: seq<Row>, claim: seq<nat>, n: nat)
    requires 0 < n <= |claim| && forall j :: 0 <= j < |claim| ==> claim[j] < |outbox|
    ensures Envelopes(outbox, claim)[..n] == Envelopes(outbox, claim)[..n - 1] + [outbox[claim[n - 1]].envelope]
  {
  }

  /** What a claim leaves alone. */
  predicate SameGroup(s: Plane, t: Plane) {
    t.delivered == s.delivered && t.pending == s.pending && t.log == s.log && t.pumps == s.pumps
  }

  predicate InRange(s: Plane, claim: seq<nat>) {
    forall k :: 0 <= k < |claim| ==> claim[k] < |s.outbox|
  }

  /** The plane after a relay published its next row, on the firehose and on its run's stream. */
  function PublishedOne(s: Plane, w: nat, e: Envelope): Plane
    requires w in s.relays
  {
    s.(firehose := s.firehose + [e],
       runs := if e.run.Some? then Onto(s.runs, e.run.value, e) else s.runs,
       relays := s.relays[w := s.relays[w].(done := s.relays[w].done + 1)])
  }

  lemma PublishOne(s: Plane, w: nat)
    requires w in s.relays && InRange(s, s.relays[w].claim) && s.relays[w].done < |s.relays[w].claim|
             && !s.relays[w].half
    ensures Leads(s, PublishedOne(s, w, s.outbox[s.relays[w].claim[s.relays[w].done]].envelope))
  {
    var e, r := s.outbox[s.relays[w].claim[s.relays[w].done]].envelope, s.relays[w];
    var u := Next(s, PublishFirehose(w));
    LeadsStep(s, PublishFirehose(w));
    if e.run.Some? {
      LeadsStep(u, PublishRun(w));
      LeadsTrans(s, u, Next(u, PublishRun(w)));
      assert u.relays[w := u.relays[w].(half := false, done := r.done + 1)] == s.relays[w := r.(done := r.done + 1)];
    }
  }

  /** The plane after relay `w` claimed what it could and published the first `n` rows of its claim. */
  function Published(s: Plane, w: nat, n: nat): (t: Plane)
    requires n <= |ClaimOf(s)|
    ensures t.outbox == s.outbox && SameGroup(s, t)
    ensures t.relays == s.relays[w := Relay(ClaimOf(s), n, false)]
    ensures t.firehose == s.firehose + Envelopes(s.outbox, ClaimOf(s))[..n]
  {
    if n == 0 then s.(relays := s.relays[w := Relay(ClaimOf(s), 0, false)])
    else
      EnvelopesUpto(s.outbox, ClaimOf(s), n);
      PublishedOne(Published(s, w, n - 1), w, s.outbox[ClaimOf(s)[n - 1]].envelope)
  }

  lemma {:induction false} PublishedLeads(s: Plane, w: nat, n: nat)
    requires w !in s.relays && n <= |ClaimOf(s)|
    ensures Leads(s, Published(s, w, n))
    decreases n
  {
    if n == 0 {
      LeadsStep(s, Claim(w, ClaimOf(s)));
    } else {
      var before := Published(s, w, n - 1);
      PublishedLeads(s, w, n - 1);
      PublishOne(before, w);
      LeadsTrans(s, before, Published(s, w, n));
    }
  }

  /** A whole drain by relay `w`. */
  function Drained(s: Plane, w: nat): (t: Plane)
    ensures SameGroup(s, t) && t.relays == s.relays - {w}
    ensures t.outbox == Marked(s.outbox, ClaimOf(s)) && t.firehose == s.firehose + Envelopes(s.outbox, ClaimOf(s))
  {
    var all := Published(s, w, |ClaimOf(s)|);
    all.(outbox := Marked(all.outbox, ClaimOf(s)), relays := all.relays - {w})
  }

  lemma DrainedLeads(s: Plane, w: nat)
    requires w !in s.relays
    ensures Leads(s, Drained(s, w)) && Drained(s, w).relays == s.relays
  {
    var all := Published(s, w, |ClaimOf(s)|);
    PublishedLeads(s, w, |ClaimOf(s)|);
    LeadsStep(all, RelayCommit(w));
    LeadsTrans(s, all, Drained(s, w));
  }

  /** A drain cut off by the end of its process after `n` rows and, with `half`, the firehose entry of the next. */
  function DrainCut(s: Plane, w: nat, n: nat, half: bool): (t: Plane)
    requires w !in s.relays && n <= |ClaimOf(s)| && (half ==> n < |ClaimOf(s)|)
    ensures t.outbox == s.outbox && SameGroup(s, t) && t.relays == s.relays
  {
    var p := Published(s, w, n);
    if half then p.(firehose := p.firehose + [s.outbox[ClaimOf(s)[n]].envelope], relays := s.relays)
    else p.(relays := s.relays)
  }

  lemma DrainCutPublishes(s: Plane, w: nat, n: nat, half: bool)
    requires w !in s.relays && n <= |ClaimOf(s)| && (half ==> n < |ClaimOf(s)|)
    ensures DrainCut(s, w, n, half).firehose ==
            s.firehose + Envelopes(s.outbox, ClaimOf(s))[..if half then n + 1 else n]
  {
    if half { EnvelopesUpto(s.outbox, ClaimOf(s), n + 1); }
  }

  lemma DrainHalf(s: Plane, w: nat, n: nat)
    requires w !in s.relays && n < |ClaimOf(s)|
    ensures Leads(Published(s, w, n), DrainCut(s, w, n, true))
  {
    var p := Published(s, w, n);
    var h := Next(p, PublishFirehose(w));
    LeadsStep(p, PublishFirehose(w));
    assert h.relays - {w} == s.relays;
    LeadsStep(h, RelayCrash(w));
    LeadsTrans(p, h, Next(h, RelayCrash(w)));
  }

  lemma DrainCutLeads(s: Plane, w: nat, n: nat, half: bool)
    requires w !in s.relays && n <= |ClaimOf(s)| && (half ==> n < |ClaimOf(s)|)
    ensures Leads(s, DrainCut(s, w, n, half)) && DrainCut(s, w, n, half).outbox == s.outbox
    ensures DrainCut(s, w, n, half).firehose ==
            s.firehose + Envelopes(s.outbox, ClaimOf(s))[..if half then n + 1 else n]
  {
    var p := Published(s, w, n);
    DrainCutPublishes(s, w, n, half);
    PublishedLeads(s, w, n);
    if half {
      DrainHalf(s, w, n);
    } else {
      assert p.relays - {w} == s.relays;
      LeadsStep(p, RelayCrash(w));
    }
    LeadsTrans(s, p, DrainCut(s, w, n, half));
  }

  /** A run's stream. */
  function StreamOf(s: Plane, run: nat): seq<Envelope> { if run in s.runs then s.runs[run] else [] }

  /** The events of one run among others, in order. */
  function OfRun(envelopes: seq<Envelope>, run: nat): seq<Envelope> {
    if envelopes == [] then []
    else
      var last := envelopes[|envelopes| - 1];
      OfRun(envelopes[..|envelopes| - 1], run) + if last.run == Some(run) then [last] else []
  }

  lemma OfRunSnoc(envelopes: seq<Envelope>, last: Envelope, run: nat)
    ensures OfRun(envelopes + [last], run) == OfRun(envelopes, run) + if last.run == Some(run) then [last] else []
  {
    assert (envelopes + [last])[..|envelopes|] == envelopes;
  }

  lemma StreamOfOne(s: Plane, w: nat, e: Envelope, run: nat)
    requires w in s.relays
    ensures StreamOf(PublishedOne(s, w, e), run) == StreamOf(s, run) + if e.run == Some(run) then [e] else []
  {
  }

  /** One more row published: its event joins the stream of its run. */
  lemma PublishedStreamNext(s: Plane, w: nat, n: nat, run: nat)
    requires 0 < n <= |ClaimOf(s)|
    ensures var e := s.outbox[ClaimOf(s)[n - 1]].envelope;
            StreamOf(Published(s, w, n), run) ==
            StreamOf(Published(s, w, n - 1), run) + if e.run == Some(run) then [e] else []
  {
    StreamOfOne(Published(s, w, n - 1), w, s.outbox[ClaimOf(s)[n - 1]].envelope, run);
  }

  lemma OfRunNext(outbox: seq<Row>, claim: seq<nat>, n: nat, run: nat)
    requires 0 < n <= |claim| && forall j :: 0 <= j < |claim| ==> claim[j] < |outbox|
    ensures var all, e := Envelopes(outbox, claim), outbox[claim[n - 1]].envelope;
            OfRun(all[..n], run) == OfRun(all[..n - 1], run) + if e.run == Some(run) then [e] else []
  {
    EnvelopesUpto(outbox, claim, n);
    OfRunSnoc(Envelopes(outbox, claim)[..n - 1], outbox[claim[n - 1]].envelope, run);
  }

  /** The stream holds, beyond what it held, the run's events among the first `n` of the claim. */
  predicate StreamHas(s: Plane, t: Plane, n: nat, run: nat)
    requires n <= |ClaimOf(s)|
  {
    StreamOf(t, run) == StreamOf(s, run) + OfRun(Envelopes(s.outbox, ClaimOf(s))[..n], run)
  }

  lemma StreamHasNext(s: Plane, w: nat, n: nat, run: nat)
    requires 0 < n <= |ClaimOf(s)| && StreamHas(s, Published(s, w, n - 1), n - 1, run)
    ensures StreamHas(s, Published(s, w, n), n, run)
  {
    var e := s.outbox[ClaimOf(s)[n - 1]].envelope;
    PublishedStreamNext(s, w, n, run);
    OfRunNext(s.outbox, ClaimOf(s), n, run);
    Associates(StreamOf(s, run), OfRun(Envelopes(s.outbox, ClaimOf(s))[..n - 1], run),
               if e.run == Some(run) then [e] else []);
  }

  lemma {:induction false} PublishedStream(s: Plane, w: nat, n: nat, run: nat)
    requires n <= |ClaimOf(s)|
    ensures StreamHas(s, Published(s, w, n), n, run)
    decreases n
  {
    if n > 0 {
      PublishedStream(s, w, n - 1, run);
      StreamHasNext(s, w, n, run);
    }
  }

  /**
   * A drain appends its claimed events, in order and each once, to the firehose, and to every run's stream those of
   * that run; one cut off appends a prefix, of which at most the last event misses its run's stream.
   */
  lemma StreamsGetTheirEvents(s: Plane, w: nat, run: nat, n: nat, half: bool)
    requires w !in s.relays && n <= |ClaimOf(s)| && (half ==> n < |ClaimOf(s)|)
    ensures var all := Envelopes(s.outbox, ClaimOf(s));
            && Drained(s, w).firehose == s.firehose + all
            && StreamOf(Drained(s, w), run) == StreamOf(s, run) + OfRun(all, run)
            && DrainCut(s, w, n, half).firehose == s.firehose + all[..if half then n + 1 else n]
            && StreamOf(DrainCut(s, w, n, half), run) == StreamOf(s, run) + OfRun(all[..n], run)
  {
    DrainedStream(s, w, run);
    CutStream(s, w, n, half, run);
    DrainCutPublishes(s, w, n, half);
  }

  lemma DrainedStream(s: Plane, w: nat, run: nat)
    requires w !in s.relays
    ensures StreamOf(Drained(s, w), run) == StreamOf(s, run) + OfRun(Envelopes(s.outbox, ClaimOf(s)), run)
  {
    var all := Envelopes(s.outbox, ClaimOf(s));
    PublishedStream(s, w, |all|, run);
    assert all[..|all|] == all;
  }

  lemma CutStream(s: Plane, w: nat, n: nat, half: bool, run: nat)
    requires w !in s.relays && n <= |ClaimOf(s)| && (half ==> n < |ClaimOf(s)|)
    ensures StreamOf(DrainCut(s, w, n, half), run) ==
            StreamOf(s, run) + OfRun(Envelopes(s.outbox, ClaimOf(s))[..n], run)
  {
    PublishedStream(s, w, n, run);
  }

  /** What a relay that dies leaves: its claim is released, its publications stay. */
  lemma DrainCutIs(s: Plane, w: nat, n: nat, half: bool, t: Plane)
    requires w !in s.relays && n <= |ClaimOf(s)| && (half ==> n < |ClaimOf(s)|)
    requires t == var p := Published(s, w, n);
                  if half then p.(firehose := p.firehose + [s.outbox[ClaimOf(s)[n]].envelope]) else p
    ensures t.(relays := t.relays - {w}) == DrainCut(s, w, n, half)
    ensures Leads(s, t.(relays := t.relays - {w}))
  {
    assert t.relays - {w} == s.relays;
    DrainCutLeads(s, w, n, half);
  }

  // ---------------------------------------------------------------- a pump

  /** A batch read, committed when `inserted`, and then acknowledged up to `acked` entries. */
  function Pumped(s: Plane, w: nat, inserted: bool, acked: nat): (t: Plane)
    requires s.delivered <= |s.firehose|
    ensures t.delivered == Min(s.delivered + PUMP_BATCH, |s.firehose|)
    ensures t.outbox == s.outbox && t.firehose == s.firehose && t.runs == s.runs && t.relays == s.relays
    ensures s.delivered <= t.delivered
            && t.log == (if inserted then Inserted(s.log, s.firehose[s.delivered..t.delivered]) else s.log)
  {
    var last := Min(s.delivered + PUMP_BATCH, |s.firehose|);
    s.(delivered := last, pending := s.pending + Upto(s.delivered, last) - Upto(s.delivered, s.delivered + acked),
       log := if inserted then Inserted(s.log, s.firehose[s.delivered..last]) else s.log,
       pumps := s.pumps[w := EventPlane.Pump(s.delivered, last, inserted, acked)])
  }

  lemma PumpReads(s: Plane, w: nat)
    requires s.delivered <= |s.firehose| && w !in s.pumps
    ensures Leads(s, Pumped(s, w, false, 0))
  {
    LeadsStep(s, Read(w));
    assert s.pending + Upto(s.delivered, Pumped(s, w, false, 0).delivered) - Upto(s.delivered, s.delivered)
        == s.pending + Upto(s.delivered, Pumped(s, w, false, 0).delivered);
  }

  lemma PumpCommits(s: Plane, w: nat)
    requires s.delivered <= |s.firehose| && w !in s.pumps
    ensures Leads(Pumped(s, w, false, 0), Pumped(s, w, true, 0))
  {
    LeadsStep(Pumped(s, w, false, 0), Persist(w));
  }

  lemma PumpAcks(s: Plane, w: nat, acked: nat)
    requires s.delivered <= |s.firehose| && w !in s.pumps
    requires s.delivered + acked < Min(s.delivered + PUMP_BATCH, |s.firehose|)
    ensures Leads(Pumped(s, w, true, acked), Pumped(s, w, true, acked + 1))
  {
    var before, after := Pumped(s, w, true, acked), Pumped(s, w, true, acked + 1);
    LeadsStep(before, Ack(w));
    assert after.pending == before.pending - {s.delivered + acked};
  }

  lemma {:induction false} PumpedLeads(s: Plane, w: nat, inserted: bool, acked: nat)
    requires s.delivered <= |s.firehose| && w !in s.pumps && (acked == 0 || inserted)
    requires s.delivered + acked <= Min(s.delivered + PUMP_BATCH, |s.firehose|)
    ensures Leads(s, Pumped(s, w, inserted, acked))
    decreases acked
  {
    if acked > 0 {
      PumpedLeads(s, w, true, acked - 1);
      PumpAcks(s, w, acked - 1);
      LeadsTrans(s, Pumped(s, w, true, acked - 1), Pumped(s, w, true, acked));
    } else {
      PumpReads(s, w);
      if inserted {
        PumpCommits(s, w);
        LeadsTrans(s, Pumped(s, w, false, 0), Pumped(s, w, true, 0));
      }
    }
  }

  /** What a pump leaves behind when it ends. */
  function PumpLeft(s: Plane, w: nat, inserted: bool, acked: nat): Plane
    requires s.delivered <= |s.firehose|
  {
    Pumped(s, w, inserted, acked).(pumps := s.pumps)
  }

  lemma PumpLeftLeads(s: Plane, w: nat, inserted: bool, acked: nat)
    requires s.delivered <= |s.firehose| && w !in s.pumps && (acked == 0 || inserted)
    requires s.delivered + acked <= Min(s.delivered + PUMP_BATCH, |s.firehose|)
    ensures Leads(s, PumpLeft(s, w, inserted, acked))
  {
    var t := Pumped(s, w, inserted, acked);
    PumpedLeads(s, w, inserted, acked);
    assert t.pumps - {w} == s.pumps;
    LeadsStep(t, PumpEnd(w));
    LeadsTrans(s, t, Next(t, PumpEnd(w)));
  }

  lemma PumpLeftAcks(s: Plane, w: nat, acked: nat)
    requires s.delivered <= |s.firehose|
    ensures var p := PumpLeft(s, w, true, acked);
            p.(pending := p.pending - {s.delivered + acked}) == PumpLeft(s, w, true, acked + 1)
  {
    assert Upto(s.delivered, s.delivered + acked) + {s.delivered + acked} == Upto(s.delivered, s.delivered + acked + 1);
  }

  lemma PumpLeftFirst(s: Plane, w: nat, inserted: bool, log: map<string, Envelope>)
    requires s.delivered <= |s.firehose|
    requires var last := Min(s.delivered + PUMP_BATCH, |s.firehose|);
             log == if inserted then Inserted(s.log, s.firehose[s.delivered..last]) else s.log
    ensures var last := Min(s.delivered + PUMP_BATCH, |s.firehose|);
            s.(delivered := last, pending := s.pending + Upto(s.delivered, last), log := log) ==
                PumpLeft(s, w, inserted, 0)
  {
    assert Upto(s.delivered, s.delivered + 0) == {};
  }

  // ---------------------------------------------------------------- draining to a given row

  function Waiting(outbox: seq<Row>): set<nat> { set i | 0 <= i < |outbox| && !outbox[i].relayed }

  /** Draining on, any row that is not relayed gets published behind everything on the firehose. */
  lemma {:induction false} DrainUntil(s: Plane, i: nat) returns (t: Plane, p: nat)
    requires s.relays == map[] && i < |s.outbox| && !s.outbox[i].relayed
    ensures Leads(s, t) && t.delivered == s.delivered && |s.firehose| <= p < |t.firehose|
            && t.firehose[p] == s.outbox[i].envelope
    decreases |Waiting(s.outbox)|
  {
    var claim := ClaimOf(s);
    assert Claimable(s, i);
    var u := Drained(s, 0);
    DrainedLeads(s, 0);
    if i in claim {
      var k :| 0 <= k < |claim| && claim[k] == i;
      t, p := u, |s.firehose| + k;
    } else {
      DrainShrinks(s, i);
      t, p := DrainUntil(u, i);
      LeadsTrans(s, u, t);
    }
  }

  /** A drain that does not take a waiting row takes an older one. */
  lemma DrainShrinks(s: Plane, i: nat)
    requires s.relays == map[] && i < |s.outbox| && !s.outbox[i].relayed && i !in ClaimOf(s)
    ensures |Waiting(Drained(s, 0).outbox)| < |Waiting(s.outbox)|
  {
    assert Claimable(s, i);
    var claim, u := ClaimOf(s), Drained(s, 0);
    var first := claim[0];
    assert first in Waiting(s.outbox) && first in claim && first !in Waiting(u.outbox);
    assert Waiting(u.outbox) <= Waiting(s.outbox) - {first};
    Smaller(Waiting(u.outbox), Waiting(s.outbox), first);
  }

  lemma Smaller(a: set<nat>, b: set<nat>, x: nat)
    requires a <= b - {x} && x in b
    ensures |a| < |b|
  {
    assert b == (b - {x}) + {x};
    SubsetSize(a, b - {x});
  }

  lemma {:induction false} SubsetSize(a: set<nat>, b: set<nat>)
    requires a <= b
    ensures |a| <= |b|
  {
    if a != {} {
      var x :| x in a;
      SubsetSize(a - {x}, b - {x});
    }
  }

  lemma {:induction false} CrashAllRelays(s: Plane)
    ensures Leads(s, s.(relays := map[]))
    decreases |s.relays|
  {
    if s.relays == map[] {
      LeadsSelf(s);
    } else {
      var w :| w in s.relays;
      var u := Next(s, RelayCrash(w));
      LeadsStep(s, RelayCrash(w));
      CrashAllRelays(u);
      LeadsTrans(s, u, s.(relays := map[]));
    }
  }

  lemma UnstuckReaches(s: Plane, e: Envelope) returns (t: Plane)
    requires PlaneOk(s) && Committed(s.outbox, e) && !Stuck(s, e)
    ensures Leads(s, t) && e.eventId in t.log
  {
    if e.eventId in s.log {
      t := s;
      LeadsSelf(s);
    } else if Relayed(s.outbox, e) {
      var p :| 0 <= p < |s.firehose| && s.firehose[p] == e && !(p < s.delivered && !Held(s, p));
      if Held(s, p) { t := HeldReaches(s, e, p); } else { t := UnreadReaches(s, e, p); }
    } else {
      var i :| 0 <= i < |s.outbox| && s.outbox[i].envelope == e;
      var a := s.(relays := map[]);
      CrashAllRelays(s);
      var b, p := DrainUntil(a, i);
      LeadsTrans(s, a, b);
      LeadsKeepsOk(s, b);
      t := UnreadReaches(b, e, p);
      LeadsTrans(s, b, t);
    }
  }

  ghost predicate MayBeLogged(s: Plane, e: Envelope) {
    exists t :: Leads(s, t) && e.eventId in t.log
  }

  /**
   * A committed event may still be logged in some continuation exactly when it is not stuck: it is stuck
   * once it is relayed and every pump its entries were delivered to ended before committing.
   */
  lemma LoggableUnlessStuck(s: Plane, e: Envelope)
    requires PlaneOk(s) && Committed(s.outbox, e)
    ensures MayBeLogged(s, e) <==> !Stuck(s, e)
  {
    if Stuck(s, e) {
      forall t | Leads(s, t)
        ensures e.eventId !in t.log
      {
        var steps :| After(s, steps) == t;
        StuckForever(s, steps, e);
      }
    } else {
      var t := UnstuckReaches(s, e);
    }
  }

  /** A plane with one relayed entry, already delivered to nobody who holds it. */
  lemma AbandonedIsStuck(s: Plane, e: Envelope)
    requires |s.outbox| == 1 && s.outbox[0].relayed && s.outbox[0].envelope == e
    requires s.delivered >= |s.firehose| && s.pumps == map[] && s.log == map[]
    ensures Stuck(s, e) && Committed(s.outbox, e)
  {
    assert s.outbox[0].envelope == e;
  }

  lemma SingleClaim(s: Plane)
    requires |s.outbox| == 1 && !s.outbox[0].relayed && s.relays == map[]
    ensures ClaimOf(s) == [0]
  {
    var claim := ClaimOf(s);
    assert Claimable(s, 0);
    if |claim| > 1 { assert false; }
  }

  /** One pump ending between its read and its commit is enough: the event is committed, relayed, and never logged. */
  lemma AnInterruptedPumpLosesAnEvent(e: Envelope) returns (s: Plane)
    ensures Leads(EMPTY, s) && s.relays == map[] && s.pumps == map[]
    ensures Committed(s.outbox, e) && Relayed(s.outbox, e) && s.delivered == |s.firehose| && !MayBeLogged(s, e)
  {
    var a := Next(EMPTY, Commit([(0, e)]));
    LeadsStep(EMPTY, Commit([(0, e)]));
    assert a == EMPTY.(outbox := [Row(0, e, false)]);
    SingleClaim(a);
    var b := Drained(a, 0);
    DrainedLeads(a, 0);
    LeadsTrans(EMPTY, a, b);
    s := PumpLeft(b, 0, false, 0);
    PumpLeftLeads(b, 0, false, 0);
    LeadsTrans(EMPTY, b, s);
    AbandonedIsStuck(s, e);
    LeadsKeepsOk(EMPTY, s);
    LoggableUnlessStuck(s, e);
  }
}
