/** What a crashed `record` leaves can always be completed, and what is complete is never redone. */
module HostMissionRecovery {
  import opened Wrappers
  import opened MissionState
  import opened MissionHistory
  import MissionHistoryLaws
  import opened HostDocuments
  import opened HostMission
  import opened HostMissionLaws
  import opened HostMissionRuns

  /** Two calls that answer the same and leave the same mission. */
  ghost predicate SameEnd(e: Effect, f: Effect)
    requires |e.trace| > 0 && |f.trace| > 0
  {
    e.reply == f.reply && Final(e) == Final(f)
  }

  /** What `record` does depends only on what the mission settles to. */
  lemma RecordOfSettled(h: HostSchemas, x: Mission, y: Mission, r: Receipt, at: int)
    requires Invariant(h, x) && Invariant(h, y) && x.store.state.Some? && y.store.state.Some?
    requires Settled(h, x) == Settled(h, y) && Record(h, y, r, at).reply.Ok?
    ensures SameEnd(Record(h, x, r, at), Record(h, y, r, at))
  {
    SettledIsReady(h, x);
    SettledIsReady(h, y);
    ReadyAgrees(h, Settled(h, x), x.contracts.value, Repaired(h.store, x.store).value);
    ReadyAgrees(h, Settled(h, y), y.contracts.value, Repaired(h.store, y.store).value);
    hide Invariant, Agree, Receive, Then, JournalLoads;
  }

  // ---------------------------------------------------------------- finishing twice

  /** Writing the receipt or the operation result again changes nothing. */
  lemma WritesAreIdempotent(m: Mission, r: Receipt, result: OperationResult)
    ensures WithReceipt(WithReceipt(m, r), r) == WithReceipt(m, r)
    ensures WithResult(WithResult(m, result), result) == WithResult(m, result)
  {}

  lemma FinishAfterResult(h: HostSchemas, c: Contracts, m: Mission, d: Document, intent: Intent, r: Receipt, at: int)
    requires intent.key == r.key && Finish(h, c, m, d, intent, r, at).reply.Ok?
    ensures SameEnd(Finish(h, c, WithResult(m, ResultFor(intent, r)), d, intent, r, at), Finish(h, c, m, d, intent, r, at))
  {
    hide ReceiptValid, PlanFits, PlanReceipt, ApplyMove;
    var result := ResultFor(intent, r);
    WritesAreIdempotent(m, r, result);
  }

  /** A receipt stays valid for the state it leads to. */
  lemma ValidAfterMove(h: HostSchemas, c: Contracts, d: Document, intent: Intent, r: Receipt, d': Document)
    requires ReceiptValid(h, c, d, intent, r) && PlanReceipt(d, r).Apply? && MovedBy(d, PlanReceipt(d, r).request, d')
    ensures ReceiptValid(h, c, d', intent, r)
  {
    hide ReceiptBound;
  }

  /** The state `_finish_receipt` answers with: the state as it was, or moved as the receipt asks. */
  ghost predicate FinishedState(d: Document, r: Receipt, d': Document) {
    || (PlanReceipt(d, r) == Keep && d' == d)
    || (PlanReceipt(d, r).Apply? && MovedBy(d, PlanReceipt(d, r).request, d'))
  }

  /** A successful finish, unfolded. */
  lemma FinishShape(h: HostSchemas, c: Contracts, m: Mission, d: Document, intent: Intent, r: Receipt, at: int)
    requires Finish(h, c, m, d, intent, r, at).reply.Ok?
    ensures var e, reported := Finish(h, c, m, d, intent, r, at), WithResult(m, ResultFor(intent, r));
            && ReceiptValid(h, c, d, intent, r) && PlanFits(h, d, r, at) && h.result(ResultFor(intent, r))
            && Writable(m.journal.results, r.key, ResultFor(intent, r)) && !PlanReceipt(d, r).Refuse?
            && e == if PlanReceipt(d, r).Apply? then Then(m, ReceiptMove(h, reported, d, r, at))
                    else Effect([m, reported], Ok(Finished(r.outcome, r.key, d)))
  {
    hide ReceiptValid, PlanReceipt, ApplyMove, Then, WithResult, ResultFor;
  }

  lemma ReceiptMoveEnds(h: HostSchemas, c: Contracts, m: Mission, d: Document, r: Receipt, at: int)
    requires Ready(h, m, c, d) && r.key in m.journal.intents
    requires r.key in m.journal.receipts && m.journal.receipts[r.key] == r && r.key in m.journal.results
    requires r.action == m.journal.intents[r.key].action && PlanReceipt(d, r).Apply?
    requires ReceiptMove(h, m, d, r, at).reply.Ok?
    ensures var e := ReceiptMove(h, m, d, r, at);
            && e.reply.value.Finished? && e.reply == Ok(Finished(r.outcome, r.key, e.reply.value.state))
            && MovedBy(d, PlanReceipt(d, r).request, e.reply.value.state) && PlanReceipt(e.reply.value.state, r) == Keep
            && Final(e) == m.(store := Final(e).store) && Final(e).store.state == Some(e.reply.value.state)
            && Settled(h, Final(e)) == Final(e)
  {
    hide PlanReceipt, Agree, Ready, Moved, MoveTrace, EveryInvariant, MovedBy, Settled, SettledDisk;
    PlannedRequest(d, r);
    ReceiptMoveEndsAgreed(h, c, m, d, r, at);
    FinishMoveKeeps(h, c, m, d, r, at);
    MovedIsMovedBy(h, c, m, d, PlanReceipt(d, r).request, at);
  }

  /** The mission as it stands once the operation result is written. */
  lemma ReportedStage(h: HostSchemas, c: Contracts, m: Mission, d: Document, intent: Intent, r: Receipt)
    requires Ready(h, m, c, d) && r.key in m.journal.intents && m.journal.intents[r.key] == intent
    requires r.key in m.journal.receipts && m.journal.receipts[r.key] == r && h.result(ResultFor(intent, r))
    ensures var reported := WithResult(m, ResultFor(intent, r));
            && Ready(h, reported, c, d) && r.key in reported.journal.intents && reported.journal.intents[r.key].action == r.action
            && r.key in reported.journal.receipts && reported.journal.receipts[r.key] == r && r.key in reported.journal.results
            && Settled(h, m) == m && Settled(h, reported) == reported && m.store.state.Some? && reported.store.state.Some?
  {
    hide Invariant, Settled;
    ReportedIsReady(h, c, m, d, r);
  }

  lemma LastIsInvariant(h: HostSchemas, e: Effect)
    requires |e.trace| > 0 && EveryInvariant(h, e.trace)
    ensures Invariant(h, Final(e))
  {
  }

  lemma FinishEnds(h: HostSchemas, c: Contracts, m: Mission, d: Document, r: Receipt, at: int)
    requires Ready(h, m, c, d) && r.key in m.journal.intents
    requires r.key in m.journal.receipts && m.journal.receipts[r.key] == r
    requires Finish(h, c, m, d, m.journal.intents[r.key], r, at).reply.Ok?
    ensures var intent := m.journal.intents[r.key];
            var e := Finish(h, c, m, d, intent, r, at);
            && e.reply.value.Finished? && e.reply == Ok(Finished(r.outcome, r.key, e.reply.value.state))
            && FinishedState(d, r, e.reply.value.state) && PlanReceipt(e.reply.value.state, r) == Keep
            && Final(e) == WithResult(m, ResultFor(intent, r)).(store := Final(e).store)
            && Ready(h, Final(e), c, e.reply.value.state)
  {
    hide Invariant, EveryInvariant, Finish, ReceiptValid, PlanReceipt, Settled, PlanFits, ReceiptMove, ResultFor, Writable, WithResult, MovedBy;
    var intent := m.journal.intents[r.key];
    FinishShape(h, c, m, d, intent, r, at);
    FinishKeeps(h, c, m, d, r, at);
    LastIsInvariant(h, Finish(h, c, m, d, intent, r, at));
    ReportedStage(h, c, m, d, intent, r);
    if PlanReceipt(d, r).Apply? { ReceiptMoveEnds(h, c, WithResult(m, ResultFor(intent, r)), d, r, at); }
  }

  /** With the result on disk and the state already moved, finishing only answers. */
  lemma FinishKept(h: HostSchemas, c: Contracts, m: Mission, d: Document, intent: Intent, r: Receipt, at: int)
    requires intent.key == r.key && ReceiptValid(h, c, d, intent, r) && PlanReceipt(d, r) == Keep
    requires h.result(ResultFor(intent, r)) && r.key in m.journal.results && m.journal.results[r.key] == ResultFor(intent, r)
    ensures Finish(h, c, m, d, intent, r, at) == Effect([m, m], Ok(Finished(r.outcome, r.key, d)))
  {
    hide ReceiptValid, PlanReceipt, ApplyMove;
    assert WithResult(m, ResultFor(intent, r)) == m;
  }

  // ---------------------------------------------------------------- recording twice

  lemma ReceiveShape(h: HostSchemas, c: Contracts, m: Mission, d: Document, r: Receipt, at: int)
    requires Ready(h, m, c, d) && r.key in m.journal.intents && Receive(h, m, d, r, at).reply.Ok?
    ensures && Writable(m.journal.receipts, r.key, r) && Ready(h, WithReceipt(m, r), c, d)
            && Receive(h, m, d, r, at) == Then(m, Finish(h, c, WithReceipt(m, r), d, m.journal.intents[r.key], r, at))
  {
    hide Finish, ReceiptValid, PlanFits, Then, Invariant;
    ReceiptedIsReady(h, c, m, d, r);
  }

  /** A successful record: settle, persist the receipt, finish it. */
  lemma RecordShape(h: HostSchemas, m: Mission, r: Receipt, at: int)
    requires Invariant(h, m) && Record(h, m, r, at).reply.Ok?
    ensures m.store.state.Some? && r.key in m.journal.intents && m.contracts.Some? && Repaired(h.store, m.store).Ok?
    ensures var settled, d := Settled(h, m), Repaired(h.store, m.store).value;
            && JournalLoads(h, m.journal, r.key) && Ready(h, settled, m.contracts.value, d)
            && Receive(h, settled, d, r, at).reply.Ok? && Record(h, m, r, at) == Then(m, Receive(h, settled, d, r, at))
  {
    hide JournalLoads, Receive;
    if m.store.state.Some? { SettledIsReady(h, m); }
    hide Invariant;
  }

  lemma RecordOnReady(h: HostSchemas, c: Contracts, m: Mission, d: Document, r: Receipt, at: int)
    requires Ready(h, m, c, d) && JournalLoads(h, m.journal, r.key)
    ensures Record(h, m, r, at) == Then(m, Receive(h, m, d, r, at))
  {
    ReadyAgrees(h, m, c, d);
    hide Invariant, Receive, JournalLoads, Agree;
  }

  /** The settled missions a successful record passes through. */
  ghost function Persisted(m: Mission, r: Receipt): Mission { WithReceipt(m, r) }

  ghost function Reported(m: Mission, r: Receipt): Mission
    requires r.key in m.journal.intents
  {
    WithResult(WithReceipt(m, r), ResultFor(m.journal.intents[r.key], r))
  }

  lemma ReceiveFromReceipt(h: HostSchemas, c: Contracts, m: Mission, d: Document, r: Receipt, at: int)
    requires Ready(h, m, c, d) && r.key in m.journal.intents && Receive(h, m, d, r, at).reply.Ok?
    ensures SameEnd(Receive(h, Persisted(m, r), d, r, at), Receive(h, m, d, r, at))
  {
    hide Finish, ReceiptValid, PlanFits, Invariant, Settled;
    WritesAreIdempotent(m, r, ResultFor(m.journal.intents[r.key], r));
  }

  lemma ReportedHasReceipt(m: Mission, r: Receipt)
    requires r.key in m.journal.intents
    ensures WithReceipt(Reported(m, r), r) == Reported(m, r)
  {
    assert Reported(m, r).journal.receipts == m.journal.receipts[r.key := r];
  }

  lemma ReportedFacts(h: HostSchemas, c: Contracts, m: Mission, d: Document, r: Receipt, at: int)
    requires Ready(h, m, c, d) && r.key in m.journal.intents && Receive(h, m, d, r, at).reply.Ok?
    ensures m.journal.intents[r.key].key == r.key
    ensures Ready(h, Persisted(m, r), c, d) && Ready(h, Reported(m, r), c, d)
  {
    ReceiveShape(h, c, m, d, r, at);
    var persisted, intent := WithReceipt(m, r), m.journal.intents[r.key];
    assert intent == persisted.journal.intents[r.key] && persisted.journal.receipts[r.key] == r && r.key in persisted.journal.receipts;
    hide WithReceipt, Ready, Finish, Receive, WithResult;
    FinishShape(h, c, persisted, d, intent, r, at);
    hide ReceiptValid, PlanFits, ResultFor;
    ReportedIsReady(h, c, persisted, d, r);
  }

  lemma ReceiveFromResult(h: HostSchemas, c: Contracts, m: Mission, d: Document, r: Receipt, at: int)
    requires Ready(h, m, c, d) && r.key in m.journal.intents && Receive(h, m, d, r, at).reply.Ok?
    ensures SameEnd(Receive(h, Reported(m, r), d, r, at), Receive(h, m, d, r, at))
  {
    ReportedFacts(h, c, m, d, r, at);
    ReportedHasReceipt(m, r);
    FinishAfterResult(h, c, Persisted(m, r), d, m.journal.intents[r.key], r, at);
    hide Finish, ReceiptValid, PlanFits, Ready, ResultFor;
    assert Reported(m, r).journal.receipts == m.journal.receipts[r.key := r] && Reported(m, r).journal.intents == m.journal.intents;
    assert Reported(m, r).contracts == m.contracts;
  }

  // ---------------------------------------------------------------- where a crash can leave a record

  /** Every directory the move of a finish can leave settles to where it started or where it ends. */
  lemma MoveTraceSettles(h: HostSchemas, c: Contracts, m: Mission, d: Document, r: Receipt, at: int, i: nat)
    requires Ready(h, m, c, d) && r.key in m.journal.intents
    requires r.key in m.journal.receipts && m.journal.receipts[r.key] == r && r.key in m.journal.results
    requires r.action == m.journal.intents[r.key].action && PlanReceipt(d, r).Apply?
    requires ReceiptMove(h, m, d, r, at).reply.Ok? && i < |ReceiptMove(h, m, d, r, at).trace|
    ensures var e := ReceiptMove(h, m, d, r, at);
            Settled(h, e.trace[i]) in {m, Final(e)} && e.trace[i].store.state.Some?
  {
    PlannedRequest(d, r);
    ReceiptMoveEndsAgreed(h, c, m, d, r, at);
    hide PlanReceipt, Agree, Moved, EveryInvariant, ApplyMove;
    assert Invariant(h, m) && m.store.state.Some? && Settled(h, m) == m;
    hide Invariant;
    ApplyMoveKeeps(h, m, PlanReceipt(d, r).request, at, (state: Document) => Finished(r.outcome, r.key, state), i);
  }

  lemma ThenTrace(m: Mission, e: Effect, i: nat)
    requires i < |Then(m, e).trace|
    ensures Then(m, e).trace[i] == (if i == 0 then m else e.trace[i - 1]) && |Then(m, e).trace| == |e.trace| + 1
  {}

  lemma AppliedTraceSettles(h: HostSchemas, c: Contracts, m: Mission, reported: Mission, d: Document, r: Receipt, at: int, i: nat)
    requires Ready(h, m, c, d) && Ready(h, reported, c, d) && r.key in reported.journal.intents
    requires r.key in reported.journal.receipts && reported.journal.receipts[r.key] == r && r.key in reported.journal.results
    requires r.action == reported.journal.intents[r.key].action && PlanReceipt(d, r).Apply?
    requires var e := Then(m, ReceiptMove(h, reported, d, r, at)); e.reply.Ok? && i < |e.trace|
    ensures var e := Then(m, ReceiptMove(h, reported, d, r, at));
            Settled(h, e.trace[i]) in {m, reported, Final(e)} && e.trace[i].store.state.Some?
  {
    hide PlanReceipt, Invariant, Settled, ReceiptMove;
    if i > 0 { MoveTraceSettles(h, c, reported, d, r, at, i - 1); }
  }

  lemma FinishTraceSettles(h: HostSchemas, c: Contracts, m: Mission, d: Document, intent: Intent, r: Receipt, at: int, e: Effect, i: nat)
    requires Ready(h, m, c, d) && r.key in m.journal.intents && m.journal.intents[r.key] == intent
    requires r.key in m.journal.receipts && m.journal.receipts[r.key] == r
    requires e == Finish(h, c, m, d, intent, r, at) && e.reply.Ok? && i < |e.trace|
    ensures Settled(h, e.trace[i]) in {m, WithResult(m, ResultFor(intent, r)), Final(e)} && e.trace[i].store.state.Some?
  {
    hide Ready, Finish, ReceiptValid, PlanReceipt, Settled, PlanFits, ReceiptMove, ResultFor, Writable, WithResult, Then;
    FinishShape(h, c, m, d, intent, r, at);
    ReportedStage(h, c, m, d, intent, r);
    if PlanReceipt(d, r).Apply? { AppliedTraceSettles(h, c, m, WithResult(m, ResultFor(intent, r)), d, r, at, i); }
  }

  /** The settled missions from which recording the receipt again ends as the first attempt would. */
  lemma ReceiveTraceSettles(h: HostSchemas, c: Contracts, m: Mission, d: Document, r: Receipt, at: int, i: nat)
    requires Ready(h, m, c, d) && r.key in m.journal.intents && Receive(h, m, d, r, at).reply.Ok?
    requires i < |Receive(h, m, d, r, at).trace|
    ensures var e := Receive(h, m, d, r, at);
            Settled(h, e.trace[i]) in {m, Persisted(m, r), Reported(m, r), Final(e)} && e.trace[i].store.state.Some?
  {
    ReceiveShape(h, c, m, d, r, at);
    var persisted := WithReceipt(m, r);
    assert persisted.journal.intents == m.journal.intents && r.key in persisted.journal.receipts && persisted.journal.receipts[r.key] == r;
    hide Receive, Invariant, Settled, Finish, WithReceipt, WithResult, ResultFor;
    if i > 0 { FinishTraceSettles(h, c, persisted, d, m.journal.intents[r.key], r, at, Finish(h, c, persisted, d, m.journal.intents[r.key], r, at), i - 1); }
  }

  /** The mission a successful receive leaves: everything on disk, the receipt valid and applied. */
  lemma ReceiveEnds(h: HostSchemas, c: Contracts, m: Mission, d: Document, r: Receipt, at: int)
    requires Ready(h, m, c, d) && r.key in m.journal.intents && Receive(h, m, d, r, at).reply.Ok?
    ensures var e, intent := Receive(h, m, d, r, at), m.journal.intents[r.key];
            && e.reply.value.Finished? && e.reply == Ok(Finished(r.outcome, r.key, e.reply.value.state))
            && FinishedState(d, r, e.reply.value.state) && Ready(h, Final(e), c, e.reply.value.state)
            && Final(e) == Reported(m, r).(store := Final(e).store) && intent.key == r.key
            && PlanReceipt(e.reply.value.state, r) == Keep && ReceiptValid(h, c, e.reply.value.state, intent, r)
            && h.result(ResultFor(intent, r))
  {
    var persisted, intent := WithReceipt(m, r), m.journal.intents[r.key];
    ReceiveShape(h, c, m, d, r, at);
    ReportedFacts(h, c, m, d, r, at);
    assert persisted.journal.intents == m.journal.intents && r.key in persisted.journal.receipts && persisted.journal.receipts[r.key] == r;
    hide Receive, Ready, Finish, WithReceipt, WithResult, ResultFor;
    FinishShape(h, c, persisted, d, intent, r, at);
    FinishEnds(h, c, persisted, d, r, at);
    hide ReceiptValid, PlanFits, MovedBy, PlanReceipt;
    var d' := Finish(h, c, persisted, d, intent, r, at).reply.value.state;
    if PlanReceipt(d, r).Apply? { ValidAfterMove(h, c, d, intent, r, d'); }
  }

  /** A mission on which the receipt is recorded and applied. */
  ghost predicate FullyRecorded(h: HostSchemas, c: Contracts, m: Mission, d: Document, r: Receipt) {
    && r.key in m.journal.intents && m.journal.intents[r.key].key == r.key
    && r.key in m.journal.receipts && m.journal.receipts[r.key] == r
    && r.key in m.journal.results && m.journal.results[r.key] == ResultFor(m.journal.intents[r.key], r)
    && h.result(ResultFor(m.journal.intents[r.key], r))
    && ReceiptValid(h, c, d, m.journal.intents[r.key], r) && PlanReceipt(d, r) == Keep
  }

  /** Recording an applied receipt, at any time, only answers. */
  lemma RecordApplied(h: HostSchemas, c: Contracts, m: Mission, d: Document, r: Receipt, at: int)
    requires Ready(h, m, c, d) && JournalLoads(h, m.journal, r.key) && FullyRecorded(h, c, m, d, r)
    ensures Record(h, m, r, at).reply == Ok(Finished(r.outcome, r.key, d)) && Final(Record(h, m, r, at)) == m
  {
    RecordOnReady(h, c, m, d, r, at);
    var intent := m.journal.intents[r.key];
    FinishKept(h, c, m, d, intent, r, at);
    assert WithReceipt(m, r) == m;
    hide Record, ReceiptValid, PlanReceipt, ResultFor, Finish, Ready;
  }

  lemma ReceiveEndsRecorded(h: HostSchemas, c: Contracts, m: Mission, d: Document, r: Receipt, at: int)
    requires Ready(h, m, c, d) && JournalLoads(h, m.journal, r.key) && Receive(h, m, d, r, at).reply.Ok?
    ensures var e := Receive(h, m, d, r, at);
            && e.reply.value.Finished? && FullyRecorded(h, c, Final(e), e.reply.value.state, r)
            && Ready(h, Final(e), c, e.reply.value.state) && JournalLoads(h, Final(e).journal, r.key)
  {
    ReceiveEnds(h, c, m, d, r, at);
    var result := ResultFor(m.journal.intents[r.key], r);
    assert Reported(m, r).journal.intents == m.journal.intents && Reported(m, r).journal.receipts == m.journal.receipts[r.key := r]
           && Reported(m, r).journal.results == m.journal.results[r.key := result] && result.bound == m.journal.intents[r.key];
    hide Receive, Ready, ReceiptValid, PlanReceipt, ResultFor, Reported, FinishedState;
  }

  /** From every settled mission a successful receive passes through, recording ends the same way. */
  lemma RecordFromStage(h: HostSchemas, c: Contracts, m: Mission, d: Document, r: Receipt, at: int, stage: Mission)
    requires Ready(h, m, c, d) && JournalLoads(h, m.journal, r.key) && Receive(h, m, d, r, at).reply.Ok?
    requires stage in {m, Persisted(m, r), Reported(m, r)}
    ensures SameEnd(Record(h, stage, r, at), Receive(h, m, d, r, at))
  {
    ReportedFacts(h, c, m, d, r, at);
    ReceiveFromReceipt(h, c, m, d, r, at);
    ReceiveFromResult(h, c, m, d, r, at);
    StageLoads(h, c, m, d, r, at);
    hide Receive, Ready, JournalLoads, Record, Persisted, Reported;
    RecordOnReady(h, c, stage, d, r, at);
  }

  lemma StageLoads(h: HostSchemas, c: Contracts, m: Mission, d: Document, r: Receipt, at: int)
    requires Ready(h, m, c, d) && JournalLoads(h, m.journal, r.key) && Receive(h, m, d, r, at).reply.Ok?
    ensures JournalLoads(h, Persisted(m, r).journal, r.key) && JournalLoads(h, Reported(m, r).journal, r.key)
  {
    ReceiveEndsRecorded(h, c, m, d, r, at);
    ReceiveEnds(h, c, m, d, r, at);
    hide Receive, Ready, FullyRecorded, FinishedState, ReceiptValid;
    assert Persisted(m, r).journal.intents == m.journal.intents && Persisted(m, r).journal.results == m.journal.results;
  }

  // ---------------------------------------------------------------- the recovery theorems

  /** Every directory a successful record can leave settles to one of its four stages. */
  lemma RecordTraceSettles(h: HostSchemas, m: Mission, r: Receipt, at: int, i: nat)
    requires Invariant(h, m) && Record(h, m, r, at).reply.Ok? && i < |Record(h, m, r, at).trace|
    ensures r.key in m.journal.intents
    ensures var e, t := Record(h, m, r, at), Settled(h, m);
            && Invariant(h, e.trace[i]) && e.trace[i].store.state.Some?
            && Settled(h, e.trace[i]) in {t, Persisted(t, r), Reported(t, r), Final(e)}
  {
    RecordKeeps(h, m, r, at);
    RecordShape(h, m, r, at);
    SettledIsReady(h, m);
    var d := Repaired(h.store, m.store).value;
    var rest := Receive(h, Settled(h, m), d, r, at);
    hide Record, Receive, Invariant, Settled, JournalLoads, Persisted, Reported, Repaired, Then;
    ThenTrace(m, rest, i);
    if i > 0 { ReceiveTraceSettles(h, m.contracts.value, Settled(h, m), d, r, at, i - 1); }
  }

  /**
    A `record` that would succeed can be cut off after any of its durable writes (repair, receipt,
    operation result, event, state), and the same receipt recorded again at any later time.  Once the
    transition is durable the second attempt answers what the first would have and leaves the mission
    it would have left; before that it ends exactly as an uninterrupted record at the later time.
  */
  lemma RecordSurvivesCrash(h: HostSchemas, m: Mission, r: Receipt, at: int, i: nat, later: int)
    requires Invariant(h, m) && Record(h, m, r, at).reply.Ok? && i < |Record(h, m, r, at).trace|
    ensures var e := Record(h, m, r, at);
            && (Settled(h, e.trace[i]) == Final(e) ==> SameEnd(Record(h, e.trace[i], r, later), e))
            && (Settled(h, e.trace[i]) != Final(e) && Record(h, m, r, later).reply.Ok? ==>
                  SameEnd(Record(h, e.trace[i], r, later), Record(h, m, r, later)))
  {
    hide Record, Receive, Invariant, JournalLoads, Persisted, Reported, Repaired, Settled, SameEnd;
    RecordTraceSettles(h, m, r, at, i);
    if Settled(h, Record(h, m, r, at).trace[i]) == Final(Record(h, m, r, at)) {
      RecordDoneStays(h, m, r, at, i, later);
    } else if Record(h, m, r, later).reply.Ok? {
      RecordStartsOver(h, m, r, at, i, later);
    }
  }

  /** Crash points after the transition is durable. */
  lemma RecordDoneStays(h: HostSchemas, m: Mission, r: Receipt, at: int, i: nat, later: int)
    requires Invariant(h, m) && Record(h, m, r, at).reply.Ok? && i < |Record(h, m, r, at).trace|
    requires Settled(h, Record(h, m, r, at).trace[i]) == Final(Record(h, m, r, at))
    ensures SameEnd(Record(h, Record(h, m, r, at).trace[i], r, later), Record(h, m, r, at))
  {
    var e, t, x := Record(h, m, r, at), Settled(h, m), Record(h, m, r, at).trace[i];
    RecordTraceSettles(h, m, r, at, i);
    RecordShape(h, m, r, at);
    var c, d := m.contracts.value, Repaired(h.store, m.store).value;
    ReceiveEndsRecorded(h, c, t, d, r, at);
    RecordReplies(h, c, t, d, r, at);
    RecordApplied(h, c, Final(e), e.reply.value.state, r, later);
    hide Record, Receive, Invariant, JournalLoads, Repaired, FullyRecorded;
    RecordOfSettled(h, x, Final(e), r, later);
  }

  /** Crash points before it: whatever was written already, the retry ends as a first attempt at its own time. */
  lemma RecordStartsOver(h: HostSchemas, m: Mission, r: Receipt, at: int, i: nat, later: int)
    requires Invariant(h, m) && Record(h, m, r, at).reply.Ok? && i < |Record(h, m, r, at).trace|
    requires Settled(h, Record(h, m, r, at).trace[i]) != Final(Record(h, m, r, at)) && Record(h, m, r, later).reply.Ok?
    ensures SameEnd(Record(h, Record(h, m, r, at).trace[i], r, later), Record(h, m, r, later))
  {
    var t, x := Settled(h, m), Record(h, m, r, at).trace[i];
    RecordTraceSettles(h, m, r, at, i);
    RecordShape(h, m, r, later);
    var c, d := m.contracts.value, Repaired(h.store, m.store).value;
    ReportedFacts(h, c, t, d, r, later);
    hide Record, Receive, Invariant, JournalLoads, Persisted, Reported, Repaired;
    RecordFromStage(h, c, t, d, r, later, Settled(h, x));
    RecordOfSettled(h, x, Settled(h, x), r, later);
  }

  lemma RecordReplies(h: HostSchemas, c: Contracts, m: Mission, d: Document, r: Receipt, at: int)
    requires Ready(h, m, c, d) && r.key in m.journal.intents && Receive(h, m, d, r, at).reply.Ok?
    ensures var e := Receive(h, m, d, r, at);
            e.reply.value.Finished? && e.reply == Ok(Finished(r.outcome, r.key, e.reply.value.state))
  {
    ReceiveEnds(h, c, m, d, r, at);
  }

  /** The state whose operation the receipt is for: its `next` is a resume. */
  lemma NextOnReady(h: HostSchemas, c: Contracts, m: Mission, d: Document, now: int, at: int)
    requires Ready(h, m, c, d)
    ensures Next(h, m, now, at) == Then(m, Drive(h, m, d, now, at))
  {
    ReadyAgrees(h, m, c, d);
    hide Invariant, Agree, Drive;
  }

  lemma SourceHasAction(state: State, a: Action)
    ensures state == Source(a) <==> ActionOf(state) == Some(a)
    ensures state == Source(a) ==> !Terminal(state)
  {}

  lemma NextResumes(h: HostSchemas, c: Contracts, m: Mission, d: Document, r: Receipt, now: int, at: int)
    requires Ready(h, m, c, d) && r.key in m.journal.intents && JournalLoads(h, m.journal, r.key)
    requires r.key in m.journal.receipts && m.journal.receipts[r.key] == r && d.state == Source(r.action)
    ensures Next(h, m, now, at) == Then(m, Finish(h, c, m, d, m.journal.intents[r.key], r, at))
  {
    NextOnReady(h, c, m, d, now, at);
    ReadyAgrees(h, m, c, d);
    assert IdentityHolds(h, c, d) && ContractsValid(h, c);
    CurrentReceipt(h, c, d, m.journal, r);
    hide Next, Ready, Agree, Finish, JournalLoads, IdentityHolds, ContractsValid, KeyOf, Issue, ActionOf, Source, Then;
    SourceHasAction(d.state, r.action);
  }

  lemma CurrentReceipt(h: HostSchemas, c: Contracts, d: Document, j: Journal, r: Receipt)
    requires Agree(h, c, d, j) && r.key in j.intents && r.key in j.receipts && j.receipts[r.key] == r && d.state == Source(r.action)
    ensures r.key == KeyOf(d, r.action)
  {
    ReceiptNamesAction(h, c, d, j, r.key);
    ReceiptOfCurrentState(h, c, d, j, r);
  }

  lemma NextOfSettled(h: HostSchemas, x: Mission, now: int, at: int)
    requires Invariant(h, x) && x.store.state.Some? && Next(h, Settled(h, x), now, at).reply.Ok?
    ensures SameEnd(Next(h, x, now, at), Next(h, Settled(h, x), now, at))
  {
    SettledFacts(h, x);
    hide Invariant, Drive, Then;
  }

  lemma StageJournals(m: Mission, r: Receipt)
    requires r.key in m.journal.intents
    ensures Persisted(m, r).journal.receipts == m.journal.receipts[r.key := r] && Persisted(m, r).journal.intents == m.journal.intents
    ensures Reported(m, r).journal.receipts == m.journal.receipts[r.key := r] && Reported(m, r).journal.intents == m.journal.intents
    ensures r.key in m.journal.receipts && Writable(m.journal.receipts, r.key, r) ==> Persisted(m, r) == m
    ensures Persisted(m, r).store == m.store && Reported(m, r).store == m.store
  {
    if r.key in m.journal.receipts && Writable(m.journal.receipts, r.key, r) { assert m.journal.receipts[r.key := r] == m.journal.receipts; }
  }

  /** Finishing the persisted receipt, with or without its result, ends as the whole receive does. */
  lemma StageFinish(h: HostSchemas, c: Contracts, m: Mission, d: Document, r: Receipt, at: int, stage: Mission)
    requires Ready(h, m, c, d) && r.key in m.journal.intents && Receive(h, m, d, r, at).reply.Ok?
    requires stage in {m, Persisted(m, r), Reported(m, r)} && r.key in stage.journal.receipts
    ensures SameEnd(Finish(h, c, stage, d, m.journal.intents[r.key], r, at), Receive(h, m, d, r, at))
  {
    ReceiveShape(h, c, m, d, r, at);
    ReportedFacts(h, c, m, d, r, at);
    StageJournals(m, r);
    hide Receive, Ready, Finish, ResultFor;
    FinishAfterResult(h, c, Persisted(m, r), d, m.journal.intents[r.key], r, at);
    hide WithReceipt, WithResult;
  }

  lemma StageNext(h: HostSchemas, c: Contracts, m: Mission, d: Document, r: Receipt, at: int, stage: Mission, now: int)
    requires Ready(h, m, c, d) && JournalLoads(h, m.journal, r.key) && Receive(h, m, d, r, at).reply.Ok?
    requires stage in {m, Persisted(m, r), Reported(m, r)} && r.key in stage.journal.receipts && d.state == Source(r.action)
    ensures SameEnd(Next(h, stage, now, at), Receive(h, m, d, r, at))
  {
    StageFinish(h, c, m, d, r, at, stage);
    ReportedFacts(h, c, m, d, r, at);
    StageLoads(h, c, m, d, r, at);
    ReceiveShape(h, c, m, d, r, at);
    StageJournals(m, r);
    hide Receive, Ready, JournalLoads, Next, Finish, Persisted, Reported;
    NextResumes(h, c, stage, d, r, now, at);
  }

  lemma ApplyMeansSource(d: Document, r: Receipt)
    ensures PlanReceipt(d, r).Apply? ==> d.state == Source(r.action)
  {}

  lemma StageCompletes(h: HostSchemas, c: Contracts, m: Mission, d: Document, r: Receipt, at: int, stage: Mission, now: int, later: int)
    requires Ready(h, m, c, d) && JournalLoads(h, m.journal, r.key)
    requires Receive(h, m, d, r, at).reply.Ok? && Receive(h, m, d, r, later).reply.Ok?
    requires stage in {m, Persisted(m, r), Reported(m, r), Final(Receive(h, m, d, r, at))} && r.key in stage.journal.receipts
    ensures var e := Receive(h, m, d, r, at);
            && e.reply.value.Finished?
            && (stage.store.state == Some(e.reply.value.state) || SameEnd(Next(h, stage, now, later), Receive(h, m, d, r, later)))
  {
    ReceiveEnds(h, c, m, d, r, at);
    StageJournals(m, r);
    ApplyMeansSource(d, r);
    var e := Receive(h, m, d, r, at);
    assert m.store.state == Some(d) && Final(e).store.state == Some(e.reply.value.state);
    hide Receive, Ready, JournalLoads, Next, Persisted, Reported, ReceiptValid, MovedBy, SameEnd, PlanReceipt;
    if PlanReceipt(d, r).Apply? && stage != Final(e) { StageNext(h, c, m, d, r, later, stage, now); }
  }

  /**
    Once the receipt of an interrupted `record` is durable, `next` completes it: either the
    transition has been applied already, or `next`, at any time of its own, answers and leaves the
    mission exactly as an uninterrupted record at that time would have.
  */
  lemma NextCompletesRecord(h: HostSchemas, m: Mission, r: Receipt, at: int, i: nat, now: int, later: int)
    requires Invariant(h, m) && Record(h, m, r, at).reply.Ok? && i < |Record(h, m, r, at).trace|
    requires Record(h, m, r, later).reply.Ok?
    requires r.key in Record(h, m, r, at).trace[i].journal.receipts
    ensures var e := Record(h, m, r, at);
            && e.reply.value.Finished?
            && (Current(h, e.trace[i]) == Some(e.reply.value.state) || SameEnd(Next(h, e.trace[i], now, later), Record(h, m, r, later)))
  {
    var x := Record(h, m, r, at).trace[i];
    RecordTraceSettles(h, m, r, at, i);
    RecordShape(h, m, r, at);
    RecordShape(h, m, r, later);
    assert Settled(h, x).journal == x.journal && Current(h, x) == Settled(h, x).store.state;
    var c, d := m.contracts.value, Repaired(h.store, m.store).value;
    hide Record, Receive, Ready, Invariant, JournalLoads, Persisted, Reported, Repaired, Next, Settled, Current;
    StageCompletes(h, c, Settled(h, m), d, r, at, Settled(h, x), now, later);
    if SameEnd(Next(h, Settled(h, x), now, later), Record(h, m, r, later)) { NextOfSettled(h, x, now, later); }
  }
}
