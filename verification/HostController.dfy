/**
  The controller object (pathfinder_core/mission_host.py): its contract files and journal are
  fields, its mission store is an object of its own, and its methods are proved to do what
  `HostMission` says.  Interruptions are the traces of `HostMission`; here every call completes.
*/
module HostController {
  import opened Wrappers
  import opened MissionState
  import opened MissionHistory
  import Store = MissionStore
  import opened HostDocuments
  import opened HostMission

  /** Later than any interruption: a move makes at most three durable writes. */
  const Uninterrupted := Store.Fault(4, false)

  lemma RepairIsShort(s: Schemas, disk: Disk)
    ensures |RepairTrace(s, disk)| <= 2 && !Store.Interrupted(RepairTrace(s, disk), Uninterrupted.after)
    ensures Store.Reached(RepairTrace(s, disk), Uninterrupted.after) == SettledDisk(s, disk)
  {}

  lemma MoveIsShort(s: Schemas, disk: Disk, request: Request, at: int)
    ensures var trace := MoveTrace(s, disk, request, at);
            |trace| <= 4 && !Store.Interrupted(trace, Uninterrupted.after)
            && Store.Reached(trace, Uninterrupted.after) == trace[|trace| - 1]
  {
    RepairIsShort(s, disk);
  }

  class HostMissionController {
    const schemas: HostSchemas
    const store: Store.MissionStore
    var draft: seq<Paper>
    var contracts: Option<Contracts>
    var journal: Journal

    ghost function Contents(): Mission
      reads this, store
    {
      Mission(draft, contracts, store.Contents(), journal)
    }

    /** Files are named by the operation they are about. */
    ghost predicate Valid()
      reads this
    {
      && store.schemas == schemas.store
      && (forall k :: k in journal.intents ==> journal.intents[k].key == k)
      && (forall k :: k in journal.receipts ==> journal.receipts[k].key == k)
    }

    constructor (schemas: HostSchemas)
      ensures Valid() && fresh(store) && this.schemas == schemas && Contents() == NoMission && store.lock == None
    {
      this.schemas := schemas;
      store := new Store.MissionStore(schemas.store);
      draft, contracts, journal := [], None, NoMission.journal;
    }

    method RepairStore() returns (r: Result<Document, StoreError>)
      requires Valid()
      modifies store
      ensures store.lock == old(store.lock)
      ensures old(store.lock).Some? ==> r.Err? && store.Contents() == old(store.Contents())
      ensures old(store.lock).None? ==>
                r == Repaired(schemas.store, old(store.Contents())) && store.Contents() == SettledDisk(schemas.store, old(store.Contents()))
    {
      RepairIsShort(schemas.store, store.Contents());
      r := store.Repair(0, Uninterrupted);
    }

    method MoveStore(request: Request, at: int) returns (r: Result<Document, StoreError>)
      requires Valid() && store.lock == None
      modifies store
      ensures store.lock == None && r == Moved(schemas.store, old(store.Contents()), request, at)
      ensures var trace := MoveTrace(schemas.store, old(store.Contents()), request, at);
              store.Contents() == trace[|trace| - 1]
    {
      MoveIsShort(schemas.store, store.Contents(), request, at);
      r := store.Move(0, request, at, Uninterrupted);
    }

    method FinishReceipt(c: Contracts, d: Document, intent: Intent, receipt: Receipt, at: int) returns (r: Result<Reply, HostError>)
      requires Valid() && store.lock == None && receipt.key == intent.key
      modifies this`journal, store
      ensures Valid() && store.lock == None && contracts == old(contracts)
      ensures var e := Finish(schemas, c, old(Contents()), d, intent, receipt, at);
              Contents() == Final(e) && r == e.reply
    {
      if !ReceiptValid(schemas, c, d, intent, receipt) || !PlanFits(schemas, d, receipt, at) { return Err(ReceiptRejected); }
      var result := ResultFor(intent, receipt);
      if !schemas.result(result) || !Writable(journal.results, receipt.key, result) { return Err(ResultRejected); }
      journal := journal.(results := journal.results[receipt.key := result]);
      match PlanReceipt(d, receipt) {
        case Apply(request) =>
          var moved := MoveStore(request, at);
          r := if moved.Ok? then Ok(Finished(receipt.outcome, receipt.key, moved.value)) else Err(StoreFailed);
        case _ =>
          r := Ok(Finished(receipt.outcome, receipt.key, d));
      }
    }

    method Record(receipt: Receipt, at: int) returns (r: Result<Reply, HostError>)
      requires Valid()
      modifies this`journal, store
      ensures Valid() && store.lock == old(store.lock) && contracts == old(contracts)
      ensures old(store.lock).Some? ==> r.Err? && Contents() == old(Contents())
      ensures old(store.lock).None? ==>
                var e := HostMission.Record(schemas, old(Contents()), receipt, at); Contents() == Final(e) && r == e.reply
    {
      if receipt.key !in journal.intents { return Err(OperationNotFound); }
      if !JournalLoads(schemas, journal, receipt.key) { return Err(JournalInvalid); }
      var intent := journal.intents[receipt.key];
      var repaired := RepairStore();
      if repaired.Err? { return Err(StoreFailed); }
      var d := repaired.value;
      if contracts.None? { return Err(NoContracts); }
      if !ReceiptValid(schemas, contracts.value, d, intent, receipt) || !PlanFits(schemas, d, receipt, at) { return Err(ReceiptRejected); }
      if !Writable(journal.receipts, receipt.key, receipt) { return Err(DifferentReceipt); }
      journal := journal.(receipts := journal.receipts[receipt.key := receipt]);
      r := FinishReceipt(contracts.value, d, intent, receipt, at);
    }

    method ResumeOperation(c: Contracts, d: Document, key: OperationKey, at: int) returns (r: Result<Reply, HostError>)
      requires Valid() && store.lock == None && key in journal.intents
      modifies this`journal, store
      ensures Valid() && store.lock == None && contracts == old(contracts)
      ensures var e := Resume(schemas, c, old(Contents()), d, key, at); Contents() == Final(e) && r == e.reply
    {
      if !JournalLoads(schemas, journal, key) { return Err(JournalInvalid); }
      if key in journal.receipts {
        r := FinishReceipt(c, d, journal.intents[key], journal.receipts[key], at);
      } else {
        r := if key !in journal.results then Ok(AwaitReceipt(key)) else Err(ResultWithoutReceipt);
      }
    }

    method IssueOperation(c: Contracts, d: Document, a: Action, now: int, at: int) returns (r: Result<Reply, HostError>)
      requires Valid() && store.lock == None
      modifies this`journal, store
      ensures Valid() && store.lock == None && contracts == old(contracts)
      ensures var e := Issue(schemas, c, old(Contents()), d, a, now, at); Contents() == Final(e) && r == e.reply
    {
      if now >= Deadline(c, d.createdAt) {
        var moved := MoveStore(Request(Blocked, Some(Get(d.fields, MissionState.AttemptId)), BudgetLimited), at);
        return if moved.Ok? then Ok(TerminalReply(moved.value)) else Err(StoreFailed);
      }
      var request, intent := RequestFor(c, d, a, now), IntentFor(c, d, a, now);
      if (a == CompleteGoal && !Truthy(Get(d.fields, NativeGoalId))) || !schemas.request(request) || !schemas.intent(intent) {
        return Err(RequestRejected);
      }
      journal := journal.(intents := journal.intents[intent.key := intent]);
      r := Ok(ActionRequired(request));
    }

    method Next(now: int, at: int) returns (r: Result<Reply, HostError>)
      requires Valid()
      modifies this`journal, store
      ensures Valid() && store.lock == old(store.lock) && contracts == old(contracts)
      ensures old(store.lock).Some? ==> r.Err? && Contents() == old(Contents())
      ensures old(store.lock).None? ==>
                var e := HostMission.Next(schemas, old(Contents()), now, at); Contents() == Final(e) && r == e.reply
    {
      var repaired := RepairStore();
      if repaired.Err? { return Err(StoreFailed); }
      var d := repaired.value;
      if Terminal(d.state) { return Ok(TerminalReply(d)); }
      if ActionOf(d.state).None? { return Err(NoHostAction); }
      var a := ActionOf(d.state).value;
      if contracts.None? || !ContractsValid(schemas, contracts.value) { return Err(NoContracts); }
      if !IdentityHolds(schemas, contracts.value, d) { return Err(IdentityDrift); }
      if KeyOf(d, a) in journal.intents {
        r := ResumeOperation(contracts.value, d, KeyOf(d, a), at);
      } else {
        r := IssueOperation(contracts.value, d, a, now, at);
      }
    }

    /** `_write_contract` for each of the four files in turn: the first one that differs stops it. */
    method WriteContracts(c: Contracts) returns (ok: bool)
      requires Valid()
      modifies this`draft, this`contracts
      ensures Valid()
      ensures ok <==> PapersOf(old(Contents())) <= Papers(c)
      ensures Contents() == if ok then BoundTo(old(Contents()), c) else old(Contents())
    {
      var papers, found := Papers(c), if contracts.Some? then Papers(contracts.value) else draft;
      if contracts.Some? {
        ok := found == papers;
        if ok {
          PapersAre(contracts.value, c);
          draft := [];
        }
        return;
      }
      if |found| > |papers| { return false; }
      for i := 0 to |papers|
        invariant contracts == None && found == old(draft)
        invariant found[..if i <= |found| then i else |found|] == papers[..if i <= |found| then i else |found|]
        invariant draft == if i <= |found| then found else papers[..i]
      {
        if i < |found| {
          if found[i] != papers[i] { return false; }
        } else {
          draft := papers[..i] + [papers[i]];
        }
      }
      draft, contracts := [], Some(c);
      ok := true;
    }

    method Start(c: Contracts, now: int, at: int) returns (r: Result<Reply, HostError>)
      requires Valid() && store.lock == None
      modifies this`draft, this`contracts, store
      ensures Valid() && store.lock == None && journal == old(journal)
      ensures var e := HostMission.Start(schemas, old(Contents()), c, now, at); Contents() == Final(e) && r == e.reply
    {
      if !ContractsValid(schemas, c) { return Err(NoContracts); }
      hide ContractTrace, Papers;
      var bound := WriteContracts(c);
      if !bound { return Err(ContractDrift); }
      var d := InitialState(schemas, c, now);
      if store.state.Some? {
        var repaired := RepairStore();
        if repaired.Err? { return Err(StoreFailed); }
        d := repaired.value;
      } else {
        var created := store.Initialize(d);
        if created.Err? { return Err(StoreFailed); }
      }
      r := AuthorizeStore(c, d, at);
    }

    method AuthorizeStore(c: Contracts, d: Document, at: int) returns (r: Result<Reply, HostError>)
      requires Valid() && store.lock == None
      modifies store
      ensures Valid() && store.lock == None
      ensures var e := Authorize(schemas, c, old(Contents()), d, at); Contents() == Final(e) && r == e.reply
    {
      if !IdentityHolds(schemas, c, d) { return Err(IdentityDrift); }
      if d.state == Planned {
        var moved := MoveStore(Request(Authorized, Some(AttemptOf(schemas, c)), map[AuthorizationId := Str(c.authorization.authorizationId)]), at);
        return if moved.Ok? then Ok(Started(moved.value)) else Err(StoreFailed);
      }
      r := if Get(d.fields, AuthorizationId) != Str(c.authorization.authorizationId) then Err(AuthorizationDrift) else Ok(Started(d));
    }
  }
}
