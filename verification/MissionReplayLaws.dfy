/** What an accepted event history proves about the mission, whoever wrote it. */
module MissionReplayLaws {
  import opened Wrappers
  import opened MissionState
  import opened MissionHistory
  import Laws = MissionHistoryLaws
  import Moves = MissionMoves

  ghost predicate Genuine(e: Event) {
    e.to != e.from && e.to in AllowedTransitions(e.from)
  }

  /** Allowed, state-changing transitions leading from `planned` to `end`, each leaving where the last arrived. */
  ghost predicate GenuinePath(end: State, history: seq<Event>)
    decreases |history|
  {
    if |history| == 0 then end == Planned
    else
      var e := history[|history| - 1];
      e.to == end && Genuine(e) && GenuinePath(e.from, history[..|history| - 1])
  }

  lemma StepFacts(s: Schemas, d: Document, earlier: seq<Event>, e: Event)
    requires ReplayStep(s, d, earlier, e).Some?
    ensures var c := ReplayStep(s, d, earlier, e).value;
            && e.from == d.state && c.state == e.to
            && c.revision == (if e.to == e.from then d.revision else d.revision + 1)
            && (e.to == e.from || Genuine(e))
  {}

  lemma {:induction false} ReplayCountsTransitions(s: Schemas, initial: Document, history: seq<Event>)
    requires initial.state == Planned && initial.revision == 0
    requires Replay(s, initial, history).Some?
    ensures var d := Replay(s, initial, history).value;
            d.revision <= |history| && (d.revision == |history| ==> GenuinePath(d.state, history))
  {
    if |history| > 0 {
      var earlier, e := history[..|history| - 1], history[|history| - 1];
      ReplayCountsTransitions(s, initial, earlier);
      StepFacts(s, Replay(s, initial, earlier).value, earlier, e);
    }
  }

  lemma ExpandKeepsStart(candidates: seq<Document>, f: Field)
    requires forall c :: c in candidates ==> c.state == Planned && c.revision == 0
    ensures forall c :: c in Expand(candidates, f) ==> c.state == Planned && c.revision == 0
  {
    if |candidates| > 0 { ExpandKeepsStart(candidates[1..], f); }
  }

  lemma CandidatesStartPlanned(d: Document, history: seq<Event>, c: Document)
    requires c in Candidates(d, history)
    ensures c.state == Planned && c.revision == 0
  {
    var base := [BaseCandidate(d, history)];
    ExpandKeepsStart(base, NativeGoalId);
    ExpandKeepsStart(ExpandIfInPlay(base, d, history, NativeGoalId), TerminalReason);
  }

  /**
    Every accepted history is a path of genuine allowed transitions: a self-loop event, which
    replay itself lets through, would leave the revision short of the number of events.
  */
  lemma AcceptedHistoryIsGenuine(s: Schemas, d: Document, history: seq<Event>)
    requires |history| == d.revision
    requires HistoryAccepted(s, d, history)
    ensures GenuinePath(d.state, history)
  {
    var c :| c in Candidates(d, history) && Replay(s, c, history) == Some(d);
    CandidatesStartPlanned(d, history, c);
    ReplayCountsTransitions(s, c, history);
  }

  ghost predicate PassesThrough(history: seq<Event>, i: nat, source: State, target: State) {
    i < |history| && history[i].from == source && history[i].to == target
  }

  /** Any genuine path into `verified` or beyond it has made the transition into `verified`. */
  lemma {:induction false} VerifiedWasEarned(end: State, history: seq<Event>)
    requires GenuinePath(end, history)
    requires end in {Verified, Committed, Published, AwaitingReview, Merged}
    ensures exists i :: PassesThrough(history, i, Verifying, Verified)
    decreases |history|
  {
    var n := |history| - 1;
    if history[n].to == Verified {
      assert PassesThrough(history, n, Verifying, Verified);
    } else {
      VerifiedWasEarned(history[n].from, history[..n]);
      var i :| PassesThrough(history[..n], i, Verifying, Verified);
      assert PassesThrough(history, i, Verifying, Verified);
    }
  }

  /**
    A mission whose accepted history ends in awaiting-review or merged was verified and then
    committed, in that order.
  */
  lemma {:induction false} ReviewImpliesVerifiedCommit(end: State, history: seq<Event>)
    requires GenuinePath(end, history)
    requires end in {Committed, Published, AwaitingReview, Merged}
    ensures exists i, j :: i < j && PassesThrough(history, i, Verifying, Verified) && PassesThrough(history, j, Verified, Committed)
    decreases |history|
  {
    var n := |history| - 1;
    if history[n].to == Committed {
      VerifiedWasEarned(history[n].from, history[..n]);
      var i :| PassesThrough(history[..n], i, Verifying, Verified);
      assert PassesThrough(history, i, Verifying, Verified) && PassesThrough(history, n, Verified, Committed);
    } else {
      ReviewImpliesVerifiedCommit(history[n].from, history[..n]);
      var i, j :| i < j && PassesThrough(history[..n], i, Verifying, Verified) && PassesThrough(history[..n], j, Verified, Committed);
      assert PassesThrough(history, i, Verifying, Verified) && PassesThrough(history, j, Verified, Committed);
    }
  }

  // ---------------------------------------------------------------- the hash chain

  ghost predicate AllV2(history: seq<Event>) {
    forall i :: 0 <= i < |history| ==> history[i].links.Some?
  }

  lemma {:induction false} LastEventFixesHistory(s: Schemas, c1: Document, h1: seq<Event>, c2: Document, h2: seq<Event>)
    requires Replay(s, c1, h1).Some? && Replay(s, c2, h2).Some?
    requires AllV2(h1) && AllV2(h2)
    requires |h1| == |h2| > 0 && h1[|h1| - 1] == h2[|h2| - 1]
    ensures h1 == h2 && c1 == c2
  {
    var n := |h1| - 1;
    var e1, e2 := h1[..n], h2[..n];
    assert h1 == e1 + [h1[n]] && h2 == e2 + [h2[n]];
    if n > 0 {
      assert Previous(e1) == h1[n].links.value.previous == Previous(e2);
      LastEventFixesHistory(s, c1, e1, c2, e2);
    }
  }

  /**
    Two accepted version 2 histories of one mission that end in the same event are the same
    history: the same events and the same document at every revision.
  */
  lemma SameLastEventSameHistory(s: Schemas, d1: Document, h1: seq<Event>, d2: Document, h2: seq<Event>)
    requires |h1| == d1.revision > 0 && |h2| == d2.revision > 0
    requires forall i :: 0 <= i < |h1| ==> EventOk(s, h1[i], d1.identity.missionId, i + 1)
    requires forall i :: 0 <= i < |h2| ==> EventOk(s, h2[i], d2.identity.missionId, i + 1)
    requires HistoryAccepted(s, d1, h1) && HistoryAccepted(s, d2, h2)
    requires AllV2(h1) && AllV2(h2)
    requires h1[|h1| - 1] == h2[|h2| - 1]
    ensures h1 == h2 && d1 == d2
    ensures forall c1, c2 :: Replay(s, c1, h1).Some? && Replay(s, c2, h2).Some? ==> c1 == c2
  {
    var c1 :| c1 in Candidates(d1, h1) && Replay(s, c1, h1) == Some(d1);
    var c2 :| c2 in Candidates(d2, h2) && Replay(s, c2, h2) == Some(d2);
    assert h1[|h1| - 1].sequence == |h1| && h2[|h2| - 1].sequence == |h2|;
    LastEventFixesHistory(s, c1, h1, c2, h2);
    forall c1, c2 | Replay(s, c1, h1).Some? && Replay(s, c2, h2).Some?
      ensures c1 == c2
    {
      LastEventFixesHistory(s, c1, h1, c2, h2);
    }
  }

  // ---------------------------------------------------------------- what replay accepts

  /** The keys an event may carry: those of its transition, or for an event that stays, those of the state it stays in. */
  ghost predicate MayCarry(e: Event) {
    if e.to == e.from then e.changes.Keys == {} || (e.to == Blocked && e.changes.Keys <= {TerminalReason})
    else Moves.Permitted(e.from, e.to, e.changes.Keys)
  }

  /** The event takes the mission from document `d` to `c`. */
  ghost predicate Steps(d: Document, c: Document, e: Event) {
    && e.from == d.state && MayCarry(e)
    && c.identity == d.identity && c.createdAt == d.createdAt && c.state == e.to && c.fields == d.fields + e.changes
    && (e.to == e.from ==> c.revision == d.revision && c.updatedAt == d.updatedAt)
    && (e.to != e.from ==> c.revision == d.revision + 1 && c.updatedAt == e.recordedAt)
  }

  /** The links of an event, if it carries any, name both documents, the event before it, and the attempt. */
  ghost predicate Linked(d: Document, c: Document, previous: Option<Event>, e: Event) {
    e.links.Some? ==>
      && e.links.value.before == OfState(d) && e.links.value.after == OfState(c)
      && e.links.value.previous == (if previous.Some? then Some(OfEvent(previous.value)) else None)
      && e.attempt == Get(c.fields, AttemptId)
  }

  /** The next step of a history; once one event carries links, every later one has to. */
  ghost predicate Takes(d: Document, c: Document, earlier: seq<Event>, e: Event) {
    && Steps(d, c, e) && Linked(d, c, if earlier == [] then None else Some(earlier[|earlier| - 1]), e)
    && (e.links.None? ==> forall i :: 0 <= i < |earlier| ==> earlier[i].links.None?)
  }

  lemma CarriesExactly(d: Document, e: Event)
    requires e.from == d.state
    ensures MayCarry(e) <==> ChangesAllowed(d.state, e.to, e.changes) && Transition(d, e.to, e.recordedAt).Some?
  {
    if e.to != d.state {
      Moves.PermittedExactly(d, e.to, e.recordedAt, e.changes);
    } else {
      assert e.changes.Keys <= {} <==> e.changes.Keys == {};
    }
  }

  lemma StepExactly(s: Schemas, d: Document, earlier: seq<Event>, e: Event, c: Document)
    ensures ReplayStep(s, d, earlier, e) == Some(c) <==> Takes(d, c, earlier, e) && s.state(c)
  {
    if e.from == d.state { CarriesExactly(d, e); }
    hide MayCarry, ChangesAllowed, AllowedTransitions;
  }

  /** Documents that the events lead through one after the other, each accepted by the schema. */
  ghost predicate Path(s: Schemas, documents: seq<Document>, events: seq<Event>) {
    && |documents| == |events| + 1 && (forall i :: 0 <= i < |documents| ==> s.state(documents[i]))
    && forall i :: 0 <= i < |events| ==> Takes(documents[i], documents[i + 1], events[..i], events[i])
  }

  ghost predicate PathBetween(s: Schemas, initial: Document, events: seq<Event>, d: Document, documents: seq<Document>) {
    Path(s, documents, events) && documents[0] == initial && documents[|events|] == d
  }

  /** Replay leads to a document exactly when the events do, step by step, through accepted documents. */
  lemma {:induction false} ReplayExactly(s: Schemas, initial: Document, events: seq<Event>, d: Document)
    ensures Replay(s, initial, events) == Some(d) <==> exists documents :: PathBetween(s, initial, events, d, documents)
    decreases |events|
  {
    hide Takes, ReplayStep;
    if |events| == 0 {
      assert s.state(initial) ==> PathBetween(s, initial, events, initial, [initial]);
    } else {
      var n := |events| - 1;
      var earlier, e := events[..n], events[n];
      if Replay(s, initial, events) == Some(d) {
        var b := Replay(s, initial, earlier).value;
        ReplayExactly(s, initial, earlier, b);
        var documents :| PathBetween(s, initial, earlier, b, documents);
        StepExactly(s, b, earlier, e, d);
        PathGrows(s, initial, events, b, d, documents);
      }
      if documents :| PathBetween(s, initial, events, d, documents) {
        PathShrinks(s, initial, events, d, documents);
        ReplayExactly(s, initial, earlier, documents[n]);
        StepExactly(s, documents[n], earlier, e, d);
      }
    }
  }

  lemma PathGrows(s: Schemas, initial: Document, events: seq<Event>, b: Document, d: Document, documents: seq<Document>)
    requires |events| > 0 && PathBetween(s, initial, events[..|events| - 1], b, documents)
    requires s.state(d) && Takes(b, d, events[..|events| - 1], events[|events| - 1])
    ensures PathBetween(s, initial, events, d, documents + [d])
  {
    hide Takes;
    var n, longer := |events| - 1, documents + [d];
    forall i | 0 <= i < |events| ensures Takes(longer[i], longer[i + 1], events[..i], events[i]) {
      if i < n {
        assert Takes(documents[i], documents[i + 1], events[..n][..i], events[..n][i]);
        assert events[..n][..i] == events[..i];
      }
    }
  }

  lemma PathShrinks(s: Schemas, initial: Document, events: seq<Event>, d: Document, documents: seq<Document>)
    requires |events| > 0 && PathBetween(s, initial, events, d, documents)
    ensures var n := |events| - 1;
            && PathBetween(s, initial, events[..n], documents[n], documents[..n + 1])
            && s.state(d) && Takes(documents[n], d, events[..n], events[n])
  {
    hide Takes;
    var n := |events| - 1;
    forall i | 0 <= i < n ensures Takes(documents[..n + 1][i], documents[..n + 1][i + 1], events[..n][..i], events[..n][i]) {
      assert events[..n][..i] == events[..i];
      assert Takes(documents[i], documents[i + 1], events[..i], events[i]);
    }
    assert Takes(documents[n], documents[n + 1], events[..n], events[n]);
  }

  // ---------------------------------------------------------------- where a history may start

  ghost predicate Carried(events: seq<Event>, f: Field) { exists i :: 0 <= i < |events| && f in events[i].changes }

  /** The value of key `f` in a document a mission now at `d` may have started from. */
  ghost predicate MayStartWith(d: Document, events: seq<Event>, fields: Changes, f: Field) {
    if f in {AuthorizationId, WorktreeId, WorktreePath, BranchId, BranchName, PrId, PrUrl} then f in fields && fields[f] == Null
    else if f == CommitIds then f in fields && fields[f] == List([])
    else if f == AttemptId then f in fields && fields[f] == (if Carried(events, AttemptId) then Null else Get(d.fields, AttemptId))
    else if f in {NativeGoalId, TerminalReason} then f in fields ==> fields[f] == Null && (f in d.fields || Carried(events, f))
    else (f in fields <==> f in d.fields) && (f in fields ==> fields[f] == d.fields[f])
  }

  /** A document that a mission now at `d` may have started from, as far as `d` and the keys of its events tell. */
  ghost predicate MayStart(d: Document, events: seq<Event>, c: Document) {
    && c.identity == d.identity && c.createdAt == d.createdAt && c.updatedAt == d.createdAt && c.state == Planned && c.revision == 0
    && forall f: Field :: MayStartWith(d, events, c.fields, f)
  }

  /** Every key of a candidate is as it may be. */
  lemma CandidateKey(d: Document, events: seq<Event>, native: bool, terminal: bool, f: Field)
    requires native ==> NativeGoalId in d.fields || Carried(events, NativeGoalId)
    requires terminal ==> TerminalReason in d.fields || Carried(events, TerminalReason)
    ensures MayStartWith(d, events, Laws.WithOptional(BaseCandidate(d, events), native, terminal).fields, f)
  {
    hide Carried, Changes?;
    CarriedIs(events, AttemptId);
  }

  lemma CarriedIs(events: seq<Event>, f: Field)
    ensures Carried(events, f) <==> Changes?(events, f)
  {}

  lemma CandidateMayStart(d: Document, events: seq<Event>, c: Document)
    requires c in Candidates(d, events)
    ensures MayStart(d, events, c)
  {
    var base := BaseCandidate(d, events);
    var first := ExpandIfInPlay([base], d, events, NativeGoalId);
    var b := c;
    if c !in first {
      Laws.ExpandOnlyAddsNull(first, TerminalReason, c);
      b :| b in first && c == b.(fields := b.fields[TerminalReason := Null]);
    }
    if b != base { Laws.ExpandOnlyAddsNull([base], NativeGoalId, b); }
    CarriedIs(events, NativeGoalId);
    CarriedIs(events, TerminalReason);
    assert c == Laws.WithOptional(base, b != base, b != c);
    hide BaseCandidate, Candidates, ExpandIfInPlay, MayStartWith, Carried, Laws.WithOptional;
    forall f: Field ensures MayStartWith(d, events, c.fields, f) { CandidateKey(d, events, b != base, b != c, f); }
    CandidateHead(d, events, b != base, b != c);
  }

  lemma CandidateHead(d: Document, events: seq<Event>, native: bool, terminal: bool)
    ensures var c := Laws.WithOptional(BaseCandidate(d, events), native, terminal);
            c.identity == d.identity && c.createdAt == d.createdAt && c.updatedAt == d.createdAt && c.state == Planned && c.revision == 0
  {}

  lemma SameKey(d: Document, events: seq<Event>, a: Changes, b: Changes, f: Field)
    requires MayStartWith(d, events, a, f) && MayStartWith(d, events, b, f)
    requires f in {NativeGoalId, TerminalReason} ==> (f in a <==> f in b)
    ensures (f in a <==> f in b) && (f in a ==> a[f] == b[f])
  {}

  lemma StartIsCandidate(d: Document, events: seq<Event>, c: Document)
    requires MayStart(d, events, c)
    ensures c in Candidates(d, events)
  {
    var native, terminal := NativeGoalId in c.fields, TerminalReason in c.fields;
    assert MayStartWith(d, events, c.fields, NativeGoalId) && MayStartWith(d, events, c.fields, TerminalReason);
    CarriedIs(events, NativeGoalId);
    CarriedIs(events, TerminalReason);
    Laws.CandidatesContain(d, events, native, terminal);
    var x := Laws.WithOptional(BaseCandidate(d, events), native, terminal);
    assert (NativeGoalId in x.fields <==> native) && (TerminalReason in x.fields <==> terminal);
    CandidateHead(d, events, native, terminal);
    hide BaseCandidate, Candidates, MayStartWith, Carried, Changes?, Laws.WithOptional;
    forall f: Field ensures (f in c.fields <==> f in x.fields) && (f in c.fields ==> c.fields[f] == x.fields[f]) {
      CandidateKey(d, events, native, terminal, f);
      SameKey(d, events, c.fields, x.fields, f);
    }
    assert c.fields == x.fields;
  }

  /** The candidates the loops build are exactly the documents the mission may have started from. */
  lemma CandidatesExactly(d: Document, events: seq<Event>, c: Document)
    ensures c in Candidates(d, events) <==> MayStart(d, events, c)
  {
    hide Candidates, MayStart;
    if c in Candidates(d, events) { CandidateMayStart(d, events, c); }
    if MayStart(d, events, c) { StartIsCandidate(d, events, c); }
  }

  /** The event file of revision `n` is a genuine transition event of this mission. */
  ghost predicate FiledAt(s: Schemas, d: Document, events: map<nat, Event>, n: nat) {
    && n in events && events[n].sequence == n && events[n].missionId == d.identity.missionId
    && events[n].eventType == TransitionEvent && events[n].payload == OfChanges(events[n].changes) && s.event(events[n])
  }

  /** Some document leads to `d` through the events of every revision up to its own. */
  ghost predicate Grounded(s: Schemas, d: Document, events: map<nat, Event>) {
    && (forall n: nat :: 1 <= n <= d.revision ==> n in events && FiledAt(s, d, events, n))
    && exists initial, documents :: PathBetween(s, initial, HistoryUpTo(events, d.revision), d, documents) && MayStart(d, HistoryUpTo(events, d.revision), initial)
  }

  /** A store is readable exactly when its document fits the schema and is grounded in its event files. */
  lemma ReadableMeansGrounded(s: Schemas, disk: Disk)
    ensures Readable(s, disk) <==> disk.state.Some? && s.state(disk.state.value) && Grounded(s, disk.state.value, disk.events)
  {
    if disk.state.Some? {
      var d := disk.state.value;
      PresentExactly(s, d, disk.events);
      hide FiledAt, EventOk, Candidates, Replay, PathBetween, MayStart;
      if HistoryPresent(s, d, disk.events) {
        var h := HistoryUpTo(disk.events, d.revision);
        forall c
          ensures Replay(s, c, h) == Some(d) <==> exists documents :: PathBetween(s, c, h, d, documents)
          ensures c in Candidates(d, h) <==> MayStart(d, h, c)
        {
          ReplayExactly(s, c, h, d);
          CandidatesExactly(d, h, c);
        }
      }
    }
  }

  lemma PresentExactly(s: Schemas, d: Document, events: map<nat, Event>)
    ensures HistoryPresent(s, d, events) <==> forall n: nat :: 1 <= n <= d.revision ==> n in events && FiledAt(s, d, events, n)
  {
    forall n: nat | 1 <= n <= d.revision
      ensures n in events && EventOk(s, events[n], d.identity.missionId, n) <==> n in events && FiledAt(s, d, events, n)
    {}
  }

  /**
    Repair answers with `c` exactly when the store is readable, and `c` is its document or, if an event
    lies beyond it, the document that this event, properly filed and linked, leads to.
  */
  lemma RepairedExactly(s: Schemas, disk: Disk, c: Document)
    ensures Repaired(s, disk) == Ok(c) <==>
              && Readable(s, disk)
              && var d, events := disk.state.value, disk.events;
                 if d.revision + 1 !in events then c == d
                 else
                   && FiledAt(s, d, events, d.revision + 1) && Steps(d, c, events[d.revision + 1]) && s.state(c)
                   && Linked(d, c, if d.revision > 0 && d.revision in events then Some(events[d.revision]) else None, events[d.revision + 1])
  {
    hide Readable, CandidateFromEvent, FiledAt, Steps, Linked;
    if disk.state.Some? && disk.state.value.revision + 1 in disk.events { PendingExactly(s, disk.state.value, disk.events, c); }
    ReadableHasState(s, disk);
  }

  lemma ReadableHasState(s: Schemas, disk: Disk)
    ensures Readable(s, disk) ==> disk.state.Some?
  {}

  lemma PendingExactly(s: Schemas, d: Document, events: map<nat, Event>, c: Document)
    requires d.revision + 1 in events
    ensures CandidateFromEvent(s, d, events, events[d.revision + 1]) == Some(c) <==>
              && FiledAt(s, d, events, d.revision + 1) && Steps(d, c, events[d.revision + 1]) && s.state(c)
              && Linked(d, c, if d.revision > 0 && d.revision in events then Some(events[d.revision]) else None, events[d.revision + 1])
  {
    var e := events[d.revision + 1];
    if e.from == d.state { CarriesExactly(d, e); }
    hide MayCarry, ChangesAllowed, AllowedTransitions;
  }
}
