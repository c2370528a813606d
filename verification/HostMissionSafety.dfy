/** What a host mission promises its driver, over every run. */
module HostMissionSafety {
  import opened Wrappers
  import opened MissionState
  import opened MissionHistory
  import opened HostDocuments
  import opened HostMission
  import opened HostMissionLaws
  import opened HostMissionRuns
  import opened HostMissionRecovery

  // ---------------------------------------------------------------- an applied receipt is inert

  lemma FinishStoreStays(h: HostSchemas, c: Contracts, m: Mission, d: Document, intent: Intent, r: Receipt, at: int, i: nat)
    requires !PlanReceipt(d, r).Apply? && i < |Finish(h, c, m, d, intent, r, at).trace|
    ensures Finish(h, c, m, d, intent, r, at).trace[i].store == m.store
  {
    hide ReceiptValid, PlanReceipt, PlanFits, ResultFor;
  }

  lemma ReceiveStoreStays(h: HostSchemas, m: Mission, d: Document, r: Receipt, at: int, i: nat)
    requires r.key in m.journal.intents
    requires PlanReceipt(d, r).Apply? ==> r.action != m.journal.intents[r.key].action
    requires i < |Receive(h, m, d, r, at).trace|
    ensures Receive(h, m, d, r, at).trace[i].store == m.store
  {
    hide PlanReceipt, PlanFits, Finish, Then;
    if m.contracts.Some? {
      var finish := Finish(h, m.contracts.value, WithReceipt(m, r), d, m.journal.intents[r.key], r, at);
      if Receive(h, m, d, r, at) == Then(m, finish) {
        ThenTrace(m, finish, i);
        if i > 0 && !PlanReceipt(d, r).Apply? { FinishStoreStays(h, m.contracts.value, WithReceipt(m, r), d, m.journal.intents[r.key], r, at, i - 1); }
      }
    }
  }

  lemma PastReceiptMovesNothing(h: HostSchemas, c: Contracts, d: Document, j: Journal, r: Receipt)
    requires Agree(h, c, d, j) && r.key in j.intents && d.revision > r.key.revision
    ensures PlanReceipt(d, r).Apply? ==> r.action != j.intents[r.key].action
  {
    ApplyMeansSource(d, r);
    if r.action == j.intents[r.key].action { ReceiptOfCurrentState(h, c, d, j, r); }
  }

  /**
    Recording any receipt for an operation of a state the mission has left behind never changes
    the mission's state, whether the receipt is the recorded one or a different one, and wherever
    the call is cut off.
  */
  lemma PastReceiptsAreInert(h: HostSchemas, m: Mission, r: Receipt, at: int, i: nat)
    requires Invariant(h, m) && m.store.state.Some? && r.key in m.journal.intents
    requires Current(h, m).value.revision > r.key.revision
    requires i < |Record(h, m, r, at).trace|
    ensures Current(h, Record(h, m, r, at).trace[i]) == Current(h, m)
  {
    hide Invariant, Agree, Receive, Then, PlanReceipt, JournalLoads;
    SettledIsReady(h, m);
    SettledFacts(h, m);
    var d, settled := Repaired(h.store, m.store).value, Settled(h, m);
    assert settled.journal == m.journal;
    ReadyAgrees(h, settled, m.contracts.value, d);
    PastReceiptMovesNothing(h, m.contracts.value, d, m.journal, r);
    var rest := Receive(h, settled, d, r, at);
    if Record(h, m, r, at) == Then(m, rest) {
      ThenTrace(m, rest, i);
      if i > 0 { ReceiveStoreStays(h, settled, d, r, at, i - 1); }
    }
  }

  lemma PassedIsRecorded(h: HostSchemas, c: Contracts, d: Document, j: Journal, k: OperationKey)
    requires Agree(h, c, d, j) && k in j.intents && k.revision <= Done(d)
    ensures k in j.receipts && k in j.results && j.receipts[k].key == k && j.receipts[k].action == k.action
    ensures j.receipts[k].outcome == Succeeded && Applied(d, j.receipts[k]) && k == KeyAt(h, c, k.revision)
    ensures JournalLoads(h, j, k) && j.intents[k].key == k && j.results[k] == ResultFor(j.intents[k], j.receipts[k])
    ensures h.result(j.results[k]) && ReceiptValid(h, c, d, j.intents[k], j.receipts[k])
  {
    assert Passed(d, j, KeyAt(h, c, k.revision));
    ReceiptNamesAction(h, c, d, j, k);
    hide Applied, PathRecorded, ReceiptBound;
  }

  /** The states in which the receipt of an applied success is still answered rather than refused. */
  predicate AnswersAgain(state: State, a: Action) {
    state == Target(a) || Terminal(state) || state == Committed
  }

  lemma AppliedPlan(d: Document, r: Receipt)
    requires r.outcome == Succeeded && Applied(d, r) && d.state != Source(r.action) && d.state != Published
    ensures PlanReceipt(d, r) == if AnswersAgain(d.state, r.action) then Keep else Refuse
  {}

  /**
    Recording the receipt of an applied transition again: it changes nothing at any time, and is
    answered with the current state if and only if that state is the transition's target, committed
    or terminal.  In the states between, the code refuses a receipt it has already applied.
  */
  lemma RerecordAnswersExactly(h: HostSchemas, m: Mission, c: Contracts, d: Document, k: OperationKey, at: int)
    requires Ready(h, m, c, d) && k in m.journal.intents && k.revision <= Done(d)
    ensures k in m.journal.receipts && m.journal.receipts[k].key == k
    ensures var e := Record(h, m, m.journal.receipts[k], at);
            && Final(e) == m
            && (e.reply.Ok? <==> AnswersAgain(d.state, k.action))
            && (e.reply.Ok? ==> e.reply == Ok(Finished(Succeeded, k, d)))
  {
    ReadyAgrees(h, m, c, d);
    PassedIsRecorded(h, c, d, m.journal, k);
    var r := m.journal.receipts[k];
    PastState(h, c, d, m.journal, r);
    AppliedPlan(d, r);
    hide Agree, Ready, ReceiptValid, PlanReceipt, Applied, AnswersAgain, JournalLoads;
    RecordOnReady(h, c, m, d, r, at);
    if AnswersAgain(d.state, k.action) { RecordApplied(h, c, m, d, r, at); } else { RefusedReceive(h, m, d, r, at); }
  }

  lemma RefusedReceive(h: HostSchemas, m: Mission, d: Document, r: Receipt, at: int)
    requires r.key in m.journal.intents && PlanReceipt(d, r) == Refuse
    ensures Receive(h, m, d, r, at).reply.Err? && Receive(h, m, d, r, at).trace == [m]
  {}

  lemma PastState(h: HostSchemas, c: Contracts, d: Document, j: Journal, r: Receipt)
    requires Agree(h, c, d, j) && r.key in j.intents && r.action == r.key.action && r.key.revision <= Done(d)
    ensures d.state != Source(r.action) && d.state != Published
  {
    assert IntentOk(h, c, d.createdAt, r.key, j.intents[r.key]);
    ReceiptOfCurrentState(h, c, d, j, r);
    hide ReceiptsOk, ResultsOk, PathRecorded;
  }

  // ---------------------------------------------------------------- the journal only grows

  ghost predicate Extends(j: Journal, j': Journal) {
    && (forall k :: k in j.intents ==> k in j'.intents && j'.intents[k] == j.intents[k])
    && (forall k :: k in j.receipts ==> k in j'.receipts && j'.receipts[k] == j.receipts[k])
    && (forall k :: k in j.results ==> k in j'.results && j'.results[k] == j.results[k])
  }

  ghost predicate EveryExtends(m: Mission, trace: seq<Mission>) {
    forall i :: 0 <= i < |trace| ==> Extends(m.journal, trace[i].journal)
  }

  lemma ThenExtends(m: Mission, next: Mission, e: Effect)
    requires EveryExtends(next, e.trace) && Extends(m.journal, next.journal)
    ensures EveryExtends(m, Then(m, e).trace)
  {}

  lemma ApplyMoveExtends(h: HostSchemas, m: Mission, request: Request, at: int, reply: Document -> Reply)
    ensures EveryExtends(m, ApplyMove(h, m, request, at, reply).trace)
  {}

  lemma FinishExtends(h: HostSchemas, c: Contracts, m: Mission, d: Document, intent: Intent, r: Receipt, at: int)
    requires intent.key == r.key
    ensures EveryExtends(m, Finish(h, c, m, d, intent, r, at).trace)
  {
    hide ReceiptValid, PlanReceipt, PlanFits, ApplyMove, Then;
    var reported := WithResult(m, ResultFor(intent, r));
    if Writable(m.journal.results, r.key, ResultFor(intent, r)) && PlanReceipt(d, r).Apply? {
      var reply := (state: Document) => Finished(r.outcome, r.key, state);
      ApplyMoveExtends(h, reported, PlanReceipt(d, r).request, at, reply);
      ThenExtends(m, reported, ApplyMove(h, reported, PlanReceipt(d, r).request, at, reply));
    }
  }

  lemma RecordExtends(h: HostSchemas, m: Mission, r: Receipt, at: int)
    requires Invariant(h, m)
    ensures EveryExtends(m, Record(h, m, r, at).trace)
  {
    hide ReceiptValid, PlanFits, Finish, Then, JournalLoads, Repaired, RepairTrace;
    if r.key in m.journal.intents && m.contracts.Some? && Repaired(h.store, m.store).Ok? {
      var settled, intent, d := Settled(h, m), m.journal.intents[r.key], Repaired(h.store, m.store).value;
      IntentNamesKey(h, m, r.key);
      var persisted := WithReceipt(settled, r);
      FinishExtends(h, m.contracts.value, persisted, d, intent, r, at);
      if Writable(m.journal.receipts, r.key, r) {
        ThenExtends(settled, persisted, Finish(h, m.contracts.value, persisted, d, intent, r, at));
      }
      ThenExtends(m, settled, Receive(h, settled, d, r, at));
    }
  }

  lemma IntentNamesKey(h: HostSchemas, m: Mission, k: OperationKey)
    requires Invariant(h, m) && k in m.journal.intents
    ensures m.journal.intents[k].key == k && (k in m.journal.receipts ==> m.journal.receipts[k].key == k)
  {
    SettledIsReady(h, m);
    ReadyAgrees(h, Settled(h, m), m.contracts.value, Repaired(h.store, m.store).value);
    hide Invariant, PathRecorded, ResultsOk, OnPath;
  }

  lemma ResumeExtends(h: HostSchemas, c: Contracts, m: Mission, d: Document, k: OperationKey, at: int)
    requires k in m.journal.intents && m.journal.intents[k].key == k && (k in m.journal.receipts ==> m.journal.receipts[k].key == k)
    ensures EveryExtends(m, Resume(h, c, m, d, k, at).trace)
  {
    hide Finish, JournalLoads;
    if k in m.journal.receipts { FinishExtends(h, c, m, d, m.journal.intents[k], m.journal.receipts[k], at); }
  }

  lemma IssueExtends(h: HostSchemas, c: Contracts, m: Mission, d: Document, a: Action, now: int, at: int)
    requires KeyOf(d, a) !in m.journal.intents
    ensures EveryExtends(m, Issue(h, c, m, d, a, now, at).trace)
  {
    hide ApplyMove, RequestFor;
    ApplyMoveExtends(h, m, Request(Blocked, Some(Get(d.fields, MissionState.AttemptId)), BudgetLimited), at, (state: Document) => TerminalReply(state));
  }

  lemma NextExtends(h: HostSchemas, m: Mission, now: int, at: int)
    requires Invariant(h, m)
    ensures EveryExtends(m, Next(h, m, now, at).trace)
  {
    hide Resume, Issue, Repaired, RepairTrace, Then, IdentityHolds, ContractsValid, KeyOf, Invariant;
    if Repaired(h.store, m.store).Ok? {
      var settled, d := Settled(h, m), Repaired(h.store, m.store).value;
      if m.contracts.Some? && ActionOf(d.state).Some? {
        var c, a := m.contracts.value, ActionOf(d.state).value;
        if KeyOf(d, a) in m.journal.intents {
          IntentNamesKey(h, m, KeyOf(d, a));
          ResumeExtends(h, c, settled, d, KeyOf(d, a), at);
        } else {
          IssueExtends(h, c, settled, d, a, now, at);
        }
      }
      ThenExtends(m, settled, Drive(h, settled, d, now, at));
    }
  }

  lemma StartExtends(h: HostSchemas, m: Mission, c: Contracts, now: int, at: int)
    ensures EveryExtends(m, Start(h, m, c, now, at).trace)
  {
    hide StartBound, ContractsValid, ContractTrace, Papers;
    if PapersOf(m) <= Papers(c) {
      forall i | 0 <= i < |ContractTrace(m, c)| ensures Extends(m.journal, ContractTrace(m, c)[i].journal) { ContractTraceIs(m, c, i); }
      StartBoundExtends(h, BoundTo(m, c), c, now, at);
    }
    hide Extends;
  }

  lemma StartBoundExtends(h: HostSchemas, m: Mission, c: Contracts, now: int, at: int)
    ensures EveryExtends(m, StartBound(h, m, c, now, at).trace)
  {
    hide ApplyMove, Repaired, RepairTrace, IdentityHolds, ContractsValid, AttemptOf;
    var created := m.(store := m.store.(state := Some(InitialState(h, c, now))));
    var request := Request(Authorized, Some(AttemptOf(h, c)), map[AuthorizationId := Str(c.authorization.authorizationId)]);
    ApplyMoveExtends(h, created, request, at, (state: Document) => Started(state));
    ApplyMoveExtends(h, Settled(h, m), request, at, (state: Document) => Started(state));
    assert forall d :: EveryExtends(m, Authorize(h, c, created, d, at).trace);
    assert forall d :: EveryExtends(m, Authorize(h, c, Settled(h, m), d, at).trace);
    hide Authorize;
  }

  lemma AbandonExtends(h: HostSchemas, m: Mission, at: int)
    ensures EveryExtends(m, Abandon(h, m, at).trace)
  {
    hide ApplyMove, Repaired, RepairTrace;
    if Repaired(h.store, m.store).Ok? {
      var d := Repaired(h.store, m.store).value;
      ApplyMoveExtends(h, Settled(h, m), Request(Abandoned, Some(Get(d.fields, MissionState.AttemptId)), map[]), at, (state: Document) => TerminalReply(state));
    }
  }

  lemma CallExtends(h: HostSchemas, m: Mission, call: Call)
    requires Invariant(h, m)
    ensures EveryExtends(m, EffectOf(h, m, call).trace) && Extends(m.journal, After(h, m, call).journal)
  {
    hide Invariant, Start, Next, Record, Abandon, Extends;
    match call
    case CallStart(c, now, at, _) => StartExtends(h, m, c, now, at);
    case CallNext(now, at, _) => NextExtends(h, m, now, at);
    case CallRecord(r, at, _) => RecordExtends(h, m, r, at);
    case CallAbandon(at, _) => AbandonExtends(h, m, at);
  }

  // ---------------------------------------------------------------- one operation, one action

  predicate Issues(r: Result<Reply, HostError>) { r.Ok? && r.value.ActionRequired? }

  lemma ResumeIssuesNothing(h: HostSchemas, c: Contracts, m: Mission, d: Document, k: OperationKey, at: int)
    requires k in m.journal.intents
    ensures !Issues(Resume(h, c, m, d, k, at).reply)
  {
    hide ReceiptValid, PlanReceipt, PlanFits, JournalLoads, Moved, MoveTrace;
  }

  lemma DriveIssues(h: HostSchemas, m: Mission, d: Document, now: int, at: int)
    requires Issues(Drive(h, m, d, now, at).reply)
    ensures m.contracts.Some? && ActionOf(d.state).Some?
    ensures var c, a := m.contracts.value, ActionOf(d.state).value;
            && KeyOf(d, a) !in m.journal.intents && now < Deadline(c, d.createdAt)
            && Drive(h, m, d, now, at) == Effect([m, WithIntent(m, IntentFor(c, d, a, now))], Ok(ActionRequired(RequestFor(c, d, a, now))))
  {
    hide Resume, IdentityHolds, ContractsValid, RequestFor, Moved, MoveTrace, KeyOf, WithIntent, IntentFor;
    if m.contracts.Some? && ActionOf(d.state).Some? {
      var k := KeyOf(d, ActionOf(d.state).value);
      if k in m.journal.intents { ResumeIssuesNothing(h, m.contracts.value, m, d, k, at); }
    }
  }

  /** What `next` hands out is new, was recorded first, and was requested before the deadline. */
  lemma HandedOutOnce(h: HostSchemas, m: Mission, now: int, at: int)
    requires Invariant(h, m) && Issues(Next(h, m, now, at).reply)
    ensures var e := Next(h, m, now, at);
            var k := e.reply.value.request.key;
            && k !in m.journal.intents && k in Final(e).journal.intents && m.contracts.Some? && Current(h, m).Some?
            && Final(e).journal.intents[k].request == OfRequest(e.reply.value.request)
            && e.reply.value.request.requestedAt == now < Deadline(m.contracts.value, Current(h, m).value.createdAt)
            && ActionOf(Current(h, m).value.state) == Some(k.action)
  {
    if m.store.state.Some? {
      SettledFacts(h, m);
      var settled, d := Settled(h, m), Repaired(h.store, m.store).value;
      assert settled.journal == m.journal && settled.contracts == m.contracts;
      hide Invariant, Drive, Settled, Repaired, ActionOf;
      DriveIssues(h, settled, d, now, at);
    }
  }

  /** The action a call hands to the host; the reply of a call that was cut off never arrives. */
  ghost function IssuedBy(h: HostSchemas, m: Mission, call: Call): seq<OperationKey> {
    if call.CallNext? && call.crashAfter + 1 >= |EffectOf(h, m, call).trace| && Issues(EffectOf(h, m, call).reply)
    then [EffectOf(h, m, call).reply.value.request.key] else []
  }

  /** Everything a single driver was ever asked to do, in order. */
  ghost function Issued(h: HostSchemas, calls: seq<Call>): seq<OperationKey> {
    if |calls| == 0 then []
    else Issued(h, calls[..|calls| - 1]) + IssuedBy(h, Run(h, calls[..|calls| - 1]), calls[|calls| - 1])
  }

  lemma IssuedIsNew(h: HostSchemas, m: Mission, call: Call)
    requires Invariant(h, m)
    ensures |IssuedBy(h, m, call)| <= 1
    ensures IssuedBy(h, m, call) != [] ==>
              var k := IssuedBy(h, m, call)[0]; k !in m.journal.intents && k in After(h, m, call).journal.intents
  {
    hide Invariant, Next, Record, Start, Abandon;
    if IssuedBy(h, m, call) != [] { HandedOutOnce(h, m, call.now, call.at); }
  }

  ghost predicate DistinctIn(keys: seq<OperationKey>, intents: map<OperationKey, Intent>) {
    && (forall i, j :: 0 <= i < j < |keys| ==> keys[i] != keys[j])
    && (forall i :: 0 <= i < |keys| ==> keys[i] in intents)
  }

  lemma DistinctGrows(keys: seq<OperationKey>, added: seq<OperationKey>, before: Journal, after: Journal)
    requires DistinctIn(keys, before.intents) && Extends(before, after) && |added| <= 1
    requires added != [] ==> added[0] !in before.intents && added[0] in after.intents
    ensures DistinctIn(keys + added, after.intents)
  {}

  lemma {:induction false} IssuedOnce(h: HostSchemas, calls: seq<Call>)
    ensures DistinctIn(Issued(h, calls), Run(h, calls).journal.intents)
  {
    if |calls| > 0 {
      var earlier, call := calls[..|calls| - 1], calls[|calls| - 1];
      IssuedOnce(h, earlier);
      EveryRunAgrees(h, earlier);
      hide Invariant, After, IssuedBy, DistinctIn, Extends, EveryExtends;
      IssuedIsNew(h, Run(h, earlier), call);
      CallExtends(h, Run(h, earlier), call);
      DistinctGrows(Issued(h, earlier), IssuedBy(h, Run(h, earlier), call), Run(h, earlier).journal, Run(h, calls).journal);
    }
  }

  lemma IntentsAreSix(h: HostSchemas, c: Contracts, d: Document, j: Journal, keys: seq<OperationKey>)
    requires IntentsOk(h, c, d, j)
    requires forall i, k :: 0 <= i < k < |keys| ==> keys[i] != keys[k]
    requires forall i :: 0 <= i < |keys| ==> keys[i] in j.intents
    ensures |keys| <= 6
  {
    var six := set r | 1 <= r <= 6 :: KeyAt(h, c, r);
    assert six == {KeyAt(h, c, 1), KeyAt(h, c, 2), KeyAt(h, c, 3), KeyAt(h, c, 4), KeyAt(h, c, 5), KeyAt(h, c, 6)};
    DistinctWithin(keys, six);
  }

  lemma {:induction false} DistinctWithin<T>(s: seq<T>, within: set<T>)
    requires forall i, k :: 0 <= i < k < |s| ==> s[i] != s[k]
    requires forall i :: 0 <= i < |s| ==> s[i] in within
    ensures |s| <= |within|
    decreases |s|
  {
    if |s| > 0 {
      DistinctWithin(s[1..], within - {s[0]});
    }
  }

  /** A mission asks for at most six actions, each at most once, however often it is driven. */
  lemma AtMostSixActions(h: HostSchemas, calls: seq<Call>)
    ensures forall i, j :: 0 <= i < j < |Issued(h, calls)| ==> Issued(h, calls)[i] != Issued(h, calls)[j]
    ensures |Issued(h, calls)| <= 6
  {
    IssuedOnce(h, calls);
    EveryRunAgrees(h, calls);
    hide Issued, Run, Invariant;
    if |Issued(h, calls)| > 0 {
      assert Issued(h, calls)[0] in Run(h, calls).journal.intents;
      SixIntents(h, Run(h, calls), Issued(h, calls));
    }
  }

  lemma SixIntents(h: HostSchemas, m: Mission, keys: seq<OperationKey>)
    requires Invariant(h, m) && |keys| > 0
    requires forall i, k :: 0 <= i < k < |keys| ==> keys[i] != keys[k]
    requires forall i :: 0 <= i < |keys| ==> keys[i] in m.journal.intents
    ensures |keys| <= 6
  {
    assert keys[0] in m.journal.intents;
    SettledIsReady(h, m);
    ReadyAgrees(h, Settled(h, m), m.contracts.value, Repaired(h.store, m.store).value);
    hide Invariant, ReceiptsOk, ResultsOk, PathRecorded, IntentsOk, Settled;
    IntentsAreSix(h, m.contracts.value, Repaired(h.store, m.store).value, m.journal, keys);
  }

  // ---------------------------------------------------------------- deadlines

  /**
    An action that was handed out and has no receipt yet is never pre-empted: however late it is,
    `next` only asks for its receipt and changes nothing.
  */
  lemma PendingIsNeverPreempted(h: HostSchemas, m: Mission, c: Contracts, d: Document, a: Action, now: int, at: int)
    requires Ready(h, m, c, d) && ActionOf(d.state) == Some(a)
    requires KeyOf(d, a) in m.journal.intents && KeyOf(d, a) !in m.journal.receipts
    ensures Next(h, m, now, at).reply == Ok(AwaitReceipt(KeyOf(d, a))) && Final(Next(h, m, now, at)) == m
  {
    NextOnReady(h, c, m, d, now, at);
    ReadyAgrees(h, m, c, d);
    assert IdentityHolds(h, c, d) && ContractsValid(h, c);
    SourceHasAction(d.state, a);
    PendingLoads(h, c, d, m.journal, KeyOf(d, a));
    hide Ready, Next, Agree, Finish, JournalLoads, IdentityHolds, ContractsValid, KeyOf, Issue, ActionOf, Terminal;
  }

  lemma PendingLoads(h: HostSchemas, c: Contracts, d: Document, j: Journal, k: OperationKey)
    requires Agree(h, c, d, j) && k in j.intents
    ensures JournalLoads(h, j, k) && (k !in j.receipts ==> k !in j.results)
  {
    hide ReceiptsOk, PathRecorded, OnPath;
  }

  const Refusals: set<HostError> := {RequestRejected, ReceiptRejected, ResultRejected, StoreFailed}

  lemma ResumeRefusals(h: HostSchemas, c: Contracts, m: Mission, d: Document, k: OperationKey, at: int)
    requires k in m.journal.intents && JournalLoads(h, m.journal, k) && (k !in m.journal.receipts ==> k !in m.journal.results)
    ensures Resume(h, c, m, d, k, at).reply.Err? ==> Resume(h, c, m, d, k, at).reply.error in Refusals
  {
    hide ReceiptValid, PlanReceipt, PlanFits, Moved, MoveTrace, JournalLoads;
  }

  lemma IssueRefusals(h: HostSchemas, c: Contracts, m: Mission, d: Document, a: Action, now: int, at: int)
    ensures Issue(h, c, m, d, a, now, at).reply.Err? ==> Issue(h, c, m, d, a, now, at).reply.error in Refusals
  {
    hide Moved, MoveTrace, RequestFor;
  }

  lemma ReadyFacts(h: HostSchemas, m: Mission, c: Contracts, d: Document)
    requires Ready(h, m, c, d)
    ensures m.contracts == Some(c) && IdentityHolds(h, c, d) && ContractsValid(h, c) && Agree(h, c, d, m.journal)
    ensures ActionOf(d.state).None? && !Terminal(d.state) <==> d.state == Planned
  {
    ReadyAgrees(h, m, c, d);
    hide Ready;
  }

  /**
    No drift: of a mission reached by any run, `next` can only be refused because it has not been
    authorized, because a schema refuses a document, or because a receipt on disk does not fit.
  */
  lemma NextNeverDrifts(h: HostSchemas, m: Mission, c: Contracts, d: Document, now: int, at: int)
    requires Ready(h, m, c, d)
    ensures Next(h, m, now, at).reply.Err? ==> Next(h, m, now, at).reply.error in Refusals + {NoHostAction}
    ensures Next(h, m, now, at).reply == Err(NoHostAction) <==> d.state == Planned
  {
    hide Ready, Next, IdentityHolds, ContractsValid, JournalLoads, Agree, Resume, Issue, KeyOf, ActionOf;
    NextOnReady(h, c, m, d, now, at);
    ReadyFacts(h, m, c, d);
    if ActionOf(d.state).Some? {
      var k := KeyOf(d, ActionOf(d.state).value);
      if k in m.journal.intents {
        PendingLoads(h, c, d, m.journal, k);
        ResumeRefusals(h, c, m, d, k, at);
      } else {
        IssueRefusals(h, c, m, d, ActionOf(d.state).value, now, at);
      }
    }
  }

  /** The same for a mission that still has to be repaired. */
  lemma NextNeverDriftsUnsettled(h: HostSchemas, m: Mission, now: int, at: int)
    requires Invariant(h, m) && m.store.state.Some?
    ensures Next(h, m, now, at).reply.Err? ==> Next(h, m, now, at).reply.error in Refusals + {NoHostAction}
  {
    SettledIsReady(h, m);
    var settled, d := Settled(h, m), Repaired(h.store, m.store).value;
    hide Invariant, Drive, Repaired, Settled, Ready;
    NextNeverDrifts(h, settled, m.contracts.value, d, now, at);
    NextOnReady(h, m.contracts.value, settled, d, now, at);
    assert Next(h, m, now, at) == Then(m, Drive(h, settled, d, now, at));
  }

  /** Every action ever issued was requested before the deadline, every passed state completed by it. */
  lemma DeadlinesHold(h: HostSchemas, calls: seq<Call>)
    requires Run(h, calls).store.state.Some?
    ensures var m := Run(h, calls);
            && m.contracts.Some? && Current(h, m).Some?
            && var d := Current(h, m).value;
               var deadline := Deadline(m.contracts.value, d.createdAt);
               && (forall k :: k in m.journal.intents ==> m.journal.intents[k].startedAt < deadline)
               && (forall k :: k in m.journal.receipts && m.journal.receipts[k].outcome == Succeeded ==> m.journal.receipts[k].completedAt <= deadline)
               && (forall r :: 1 <= r <= Done(d) ==>
                     var k := KeyAt(h, m.contracts.value, r);
                     k in m.journal.receipts && m.journal.receipts[k].outcome == Succeeded)
  {
    EveryRunAgrees(h, calls);
    hide Run, ReceiptBound, StoreSound;
    SettledFacts(h, Run(h, calls));
  }
}
