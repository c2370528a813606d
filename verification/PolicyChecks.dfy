/**
  Required check evaluation (pathfinder_core/merge_policy_proofs.py): every required context and
  app must have its latest run on the required commit completed and successful.
*/
module PolicyChecks {
  import opened Wrappers
  import opened PolicyTypes

  datatype Source = CheckRun | CommitStatus

  /** A completion time: the instant it parses to, and which of that instant's spellings it is. */
  datatype Stamp = Stamp(at: int, spelling: nat)

  datatype Check = Check(source: Source, id: int, context: string, appId: Option<int>, sha: string, completed: bool,
                         conclusion: Option<string>, completedAt: Option<Stamp>, required: bool, creator: int)

  datatype CheckInputs = CheckInputs(checks: seq<Check>, requiredSha: string, completedAt: int)

  // ---------------------------------------------------------------- the latest of several runs

  predicate KeyLess(a: Check, b: Check)
    requires a.completedAt.Some? && b.completedAt.Some?
  {
    a.completedAt.value.at < b.completedAt.value.at || (a.completedAt.value.at == b.completedAt.value.at && a.id < b.id)
  }

  /** The comparison made for ambiguity: the times as they are written, not as they parse. */
  predicate Indistinct(a: Check, b: Check) { a.completedAt == b.completedAt && a.id == b.id }

  predicate AllTimed(items: seq<Check>) { forall k :: 0 <= k < |items| ==> items[k].completedAt.Some? }

  /** The position a stable sort by time and id would leave last. */
  function LatestIndex(items: seq<Check>): (m: nat)
    requires |items| > 0 && AllTimed(items)
    ensures m < |items|
  {
    if |items| == 1 then 0
    else
      var m := LatestIndex(items[..|items| - 1]);
      if KeyLess(items[|items| - 1], items[m]) then m else |items| - 1
  }

  lemma {:induction false} LatestIsMaximal(items: seq<Check>)
    requires |items| > 0 && AllTimed(items)
    ensures forall k :: 0 <= k < |items| ==> !KeyLess(items[LatestIndex(items)], items[k])
    decreases |items|
  {
    if |items| > 1 {
      var earlier := items[..|items| - 1];
      LatestIsMaximal(earlier);
      assert forall k :: 0 <= k < |items| - 1 ==> earlier[k] == items[k];
    }
  }

  function Without(items: seq<Check>, m: nat): (rest: seq<Check>)
    requires m < |items|
    ensures |rest| == |items| - 1 && forall k :: 0 <= k < |rest| ==> rest[k] == items[if k < m then k else k + 1]
  {
    items[..m] + items[m + 1..]
  }

  /** The last two of the sort are written alike. */
  predicate Ambiguous(items: seq<Check>)
    requires |items| > 0 && AllTimed(items)
  {
    |items| > 1 &&
      var rest := Without(items, LatestIndex(items));
      Indistinct(items[LatestIndex(items)], rest[LatestIndex(rest)])
  }

  predicate EndedWhilePending(items: seq<Check>) {
    exists k :: 0 <= k < |items| && !items[k].completed && (items[k].conclusion.Some? || items[k].completedAt.Some?)
  }

  predicate Untimed(items: seq<Check>) { exists k :: 0 <= k < |items| && items[k].completed && items[k].completedAt.None? }

  predicate Pending(items: seq<Check>) { exists k :: 0 <= k < |items| && !items[k].completed }

  predicate Unconcluded(items: seq<Check>) { exists k :: 0 <= k < |items| && items[k].conclusion.None? }

  function LatestBlocks(items: seq<Check>, context: string): set<Block>
    requires |items| > 0
  {
    if EndedWhilePending(items) then
      {Block(CheckEvidenceIncomplete, Named(context), "pending check has terminal fields")}
    else if Untimed(items) then
      {Block(CheckEvidenceIncomplete, Named(context), "completed check has no timestamp")}
    else if Pending(items) then
      {Block(RequiredCheckPending, Named(context), "required check is pending")}
    else if Unconcluded(items) then
      {Block(CheckEvidenceIncomplete, Named(context), "completed check has no conclusion")}
    else if Ambiguous(items) then
      {Block(CheckEvidenceIncomplete, Named(context), "latest check is ambiguous")}
    else When(items[LatestIndex(items)].conclusion != Some("success"), RequiredCheckFailed, Named(context), "required check did not succeed")
  }

  /** `_latest_check`: the latest by completion time and id. */
  method LatestCheck(items: seq<Check>, context: string, blocks: Blocks)
    requires |items| > 0 && blocks.Valid()
    modifies blocks
    ensures blocks.Valid() && blocks.seen == old(blocks.seen) + LatestBlocks(items, context)
  {
    if EndedWhilePending(items) {
      blocks.Add(CheckEvidenceIncomplete, Named(context), "pending check has terminal fields");
      return;
    }
    if Untimed(items) {
      blocks.Add(CheckEvidenceIncomplete, Named(context), "completed check has no timestamp");
      return;
    }
    if Pending(items) {
      blocks.Add(RequiredCheckPending, Named(context), "required check is pending");
      return;
    }
    if Unconcluded(items) {
      blocks.Add(CheckEvidenceIncomplete, Named(context), "completed check has no conclusion");
      return;
    }
    var latest := FindLatest(items);
    if |items| > 1 {
      var rest := Without(items, latest);
      var second := FindLatest(rest);
      if Indistinct(items[latest], rest[second]) {
        blocks.Add(CheckEvidenceIncomplete, Named(context), "latest check is ambiguous");
        return;
      }
    }
    blocks.AddWhen(items[latest].conclusion != Some("success"), RequiredCheckFailed, Named(context), "required check did not succeed");
  }

  /** One pass that keeps the position a stable sort would leave last. */
  method FindLatest(items: seq<Check>) returns (latest: nat)
    requires |items| > 0 && AllTimed(items)
    ensures latest == LatestIndex(items)
  {
    latest := 0;
    assert items[..1] == [items[0]];
    for i := 1 to |items|
      invariant latest < i && latest == LatestIndex(items[..i])
    {
      assert items[..i + 1][..i] == items[..i];
      if !KeyLess(items[i], items[latest]) { latest := i; }
    }
    assert items[..|items|] == items;
  }

  /** Nothing in `items` is sorted after position `m`. */
  ghost predicate Last(items: seq<Check>, m: nat)
    requires AllTimed(items)
  {
    m < |items| && forall k :: 0 <= k < |items| && k != m ==>
      KeyLess(items[k], items[m]) || (!KeyLess(items[m], items[k]) && k < m)
  }

  lemma {:induction false} LatestIsLast(items: seq<Check>)
    requires |items| > 0 && AllTimed(items)
    ensures forall m: nat :: Last(items, m) <==> m == LatestIndex(items)
    decreases |items|
  {
    if |items| > 1 {
      var earlier := items[..|items| - 1];
      LatestIsLast(earlier);
      assert Last(earlier, LatestIndex(earlier));
      assert forall k :: 0 <= k < |items| - 1 ==> earlier[k] == items[k];
      assert Last(items, LatestIndex(items));
    }
  }

  ghost predicate AllConcluded(items: seq<Check>) {
    forall k :: 0 <= k < |items| ==> items[k].completed && items[k].completedAt.Some? && items[k].conclusion.Some?
  }

  lemma LatestBlocksClear(items: seq<Check>, context: string)
    requires |items| > 0
    ensures LatestBlocks(items, context) == {} <==>
              AllConcluded(items) && items[LatestIndex(items)].conclusion == Some("success") && !Ambiguous(items)
  {
    ConcludedIs(items);
    hide Ambiguous, LatestIndex, EndedWhilePending, Untimed, Pending, Unconcluded;
  }

  lemma ConcludedIs(items: seq<Check>)
    ensures AllConcluded(items) <==> !EndedWhilePending(items) && !Untimed(items) && !Pending(items) && !Unconcluded(items)
  {}

  /**
    Nothing blocks exactly when all runs are completed and concluded, the one sorted last succeeded, and
    the one sorted before it does not have its id and its time in the very same spelling.
  */
  lemma LatestSucceedsExactly(items: seq<Check>, context: string)
    requires |items| > 0
    ensures LatestBlocks(items, context) == {} <==>
              && AllConcluded(items)
              && exists m: nat :: && Last(items, m) && items[m].conclusion == Some("success")
                                  && forall n: nat :: Last(Without(items, m), n) ==> !Indistinct(items[m], Without(items, m)[n])
  {
    hide LatestBlocks, Last, KeyLess, Without;
    LatestBlocksClear(items, context);
    if AllConcluded(items) {
      var m := LatestIndex(items);
      LatestIsLast(items);
      RestIsTimed(items, m);
      if |items| > 1 { LatestIsLast(Without(items, m)); } else { NothingLast(Without(items, m)); }
      assert Last(items, m);
    }
  }

  lemma RestIsTimed(items: seq<Check>, m: nat)
    requires m < |items| && AllTimed(items)
    ensures AllTimed(Without(items, m)) && |Without(items, m)| == |items| - 1
  {}

  lemma NothingLast(items: seq<Check>)
    requires items == []
    ensures AllTimed(items) && forall n: nat :: !Last(items, n)
  {}

  ghost predicate DistinctIds(items: seq<Check>) { forall i, j :: 0 <= i < j < |items| ==> items[i].id != items[j].id }

  /** Among runs with different ids that is the usual meaning: the strictly latest run succeeded. */
  lemma LatestOfDistinctSucceedsExactly(items: seq<Check>, context: string)
    requires |items| > 0 && DistinctIds(items)
    ensures LatestBlocks(items, context) == {} <==>
              && AllConcluded(items)
              && exists m :: && 0 <= m < |items| && items[m].conclusion == Some("success")
                             && forall k :: 0 <= k < |items| && k != m ==> KeyLess(items[k], items[m])
  {
    hide LatestBlocks;
    LatestBlocksClear(items, context);
    if AllConcluded(items) {
      var m := LatestIndex(items);
      DistinctIsUnambiguous(items);
      LatestIsMaximal(items);
      hide LatestIndex;
      assert forall k :: 0 <= k < |items| && k != m ==> KeyLess(items[k], items[m]);
    }
  }

  lemma DistinctIsUnambiguous(items: seq<Check>)
    requires |items| > 0 && AllTimed(items) && DistinctIds(items)
    ensures !Ambiguous(items)
  {}

  // ---------------------------------------------------------------- one requirement

  function Filter(items: seq<Check>, keep: Check -> bool): (kept: seq<Check>)
    ensures forall x :: x in kept <==> x in items && keep(x)
  {
    if |items| == 0 then []
    else Filter(items[..|items| - 1], keep) + (if keep(items[|items| - 1]) then [items[|items| - 1]] else [])
  }

  function OfRun(context: string): Check -> bool { (c: Check) => c.source == CheckRun && c.context == context }

  function OfApp(r: CheckRequirement): Check -> bool { (c: Check) => c.appId == Some(r.appId) }

  function AtSha(sha: string): Check -> bool { (c: Check) => c.sha == sha }

  function RunsOf(checks: seq<Check>, context: string): seq<Check> {
    Filter(checks, OfRun(context))
  }

  function AppRuns(checks: seq<Check>, r: CheckRequirement): seq<Check> {
    Filter(RunsOf(checks, r.context), OfApp(r))
  }

  function CurrentRuns(i: CheckInputs, r: CheckRequirement): seq<Check> {
    Filter(AppRuns(i.checks, r), AtSha(i.requiredSha))
  }

  function StatusesOf(checks: seq<Check>, context: string): seq<Check> {
    Filter(checks, (c: Check) => c.source == CommitStatus && c.context == context)
  }

  function CurrentStatuses(i: CheckInputs, context: string): seq<Check> {
    Filter(StatusesOf(i.checks, context), AtSha(i.requiredSha))
  }

  function StatusBlocks(i: CheckInputs, context: string): set<Block> {
    if |StatusesOf(i.checks, context)| == 0 then {}
    else if |CurrentStatuses(i, context)| == 0 then {Block(CheckShaDrift, Named(context), "same-name status is on another SHA")}
    else LatestBlocks(CurrentStatuses(i, context), context)
  }

  function RequirementBlocks(i: CheckInputs, r: CheckRequirement, enforced: set<CheckRequirement>): set<Block> {
    if |AppRuns(i.checks, r)| == 0 then
      {Block(if |RunsOf(i.checks, r.context)| > 0 then UnexpectedCheckApp else RequiredCheckUnproven, Named(r.context),
             "required check run is missing or has the wrong app")}
    else if |CurrentRuns(i, r)| == 0 then {Block(CheckShaDrift, Named(r.context), "required check is on another SHA")}
    else
      var current := CurrentRuns(i, r);
      When(r in enforced && !(exists k :: 0 <= k < |current| && current[k].required), RequiredCheckUnproven, Named(r.context),
           "GitHub did not mark the check as required")
      + LatestBlocks(current, r.context) + StatusBlocks(i, r.context)
  }

  method EvaluateRequirement(i: CheckInputs, r: CheckRequirement, enforced: set<CheckRequirement>, blocks: Blocks)
    requires blocks.Valid()
    modifies blocks
    ensures blocks.Valid() && blocks.seen == old(blocks.seen) + RequirementBlocks(i, r, enforced)
  {
    hide LatestBlocks, Filter;
    if |AppRuns(i.checks, r)| == 0 {
      blocks.Add(if |RunsOf(i.checks, r.context)| > 0 then UnexpectedCheckApp else RequiredCheckUnproven, Named(r.context),
                 "required check run is missing or has the wrong app");
      return;
    }
    var current := CurrentRuns(i, r);
    if |current| == 0 {
      blocks.Add(CheckShaDrift, Named(r.context), "required check is on another SHA");
      return;
    }
    blocks.AddWhen(r in enforced && !(exists k :: 0 <= k < |current| && current[k].required), RequiredCheckUnproven, Named(r.context),
                   "GitHub did not mark the check as required");
    LatestCheck(current, r.context, blocks);
    if |StatusesOf(i.checks, r.context)| > 0 {
      var statuses := CurrentStatuses(i, r.context);
      if |statuses| == 0 {
        blocks.Add(CheckShaDrift, Named(r.context), "same-name status is on another SHA");
      } else {
        LatestCheck(statuses, r.context, blocks);
      }
    }
  }

  // ---------------------------------------------------------------- all of them

  function ItemName(s: Source): string { if s == CheckRun then "check-run" else "commit-status" }

  function IdsOf(checks: seq<Check>): set<(Source, int)> {
    if |checks| == 0 then {} else IdsOf(checks[..|checks| - 1]) + {(checks[|checks| - 1].source, checks[|checks| - 1].id)}
  }

  function AuditOne(c: Check, ids: set<(Source, int)>, completedAt: int): set<Block> {
    When((c.source, c.id) in ids, CheckEvidenceIncomplete, Item(ItemName(c.source), c.id), "check id is duplicated")
    + When(c.completedAt.Some? && c.completedAt.value.at > completedAt, CheckEvidenceIncomplete, Item(ItemName(c.source), c.id),
           "check completion postdates observation")
  }

  /** Repeated ids and completions after the observation. */
  function AuditBlocks(checks: seq<Check>, completedAt: int): set<Block> {
    if |checks| == 0 then {}
    else AuditBlocks(checks[..|checks| - 1], completedAt) + AuditOne(checks[|checks| - 1], IdsOf(checks[..|checks| - 1]), completedAt)
  }

  predicate EvidenceEnforced(checks: seq<Check>, enforced: set<CheckRequirement>) {
    forall k :: 0 <= k < |checks| && checks[k].required ==>
      (match checks[k].source
       case CheckRun => checks[k].appId.Some? ==> CheckRequirement(checks[k].context, checks[k].appId.value) in enforced
       case CommitStatus => exists r :: r in enforced && r.context == checks[k].context)
  }

  function AllRequirementBlocks(i: CheckInputs, required: set<CheckRequirement>, enforced: set<CheckRequirement>): set<Block> {
    set r, b | r in required && b in RequirementBlocks(i, r, enforced) :: b
  }

  function CheckBlocks(i: CheckInputs, required: set<CheckRequirement>, enforced: set<CheckRequirement>): set<Block> {
    AuditBlocks(i.checks, i.completedAt)
    + When(!EvidenceEnforced(i.checks, enforced), RulesetDrift, Part("checks.required"), "required evidence is absent from policy rules")
    + AllRequirementBlocks(i, required, enforced)
  }

  method AuditChecks(checks: seq<Check>, completedAt: int, blocks: Blocks)
    requires blocks.Valid()
    modifies blocks
    ensures blocks.Valid() && blocks.seen == old(blocks.seen) + AuditBlocks(checks, completedAt)
  {
    var ids: set<(Source, int)> := {};
    for k := 0 to |checks|
      invariant blocks.Valid() && blocks.seen == old(blocks.seen) + AuditBlocks(checks[..k], completedAt)
      invariant ids == IdsOf(checks[..k])
    {
      var c := checks[k];
      assert checks[..k + 1][..k] == checks[..k];
      AddAudit(c, ids, completedAt, blocks);
      hide AuditOne;
      ids := ids + {(c.source, c.id)};
    }
    assert checks[..|checks|] == checks;
  }

  method AddAudit(c: Check, ids: set<(Source, int)>, completedAt: int, blocks: Blocks)
    requires blocks.Valid()
    modifies blocks
    ensures blocks.Valid() && blocks.seen == old(blocks.seen) + AuditOne(c, ids, completedAt)
  {
    blocks.AddWhen((c.source, c.id) in ids, CheckEvidenceIncomplete, Item(ItemName(c.source), c.id), "check id is duplicated");
    blocks.AddWhen(c.completedAt.Some? && c.completedAt.value.at > completedAt, CheckEvidenceIncomplete, Item(ItemName(c.source), c.id),
                   "check completion postdates observation");
  }

  lemma OneMoreRequirement(i: CheckInputs, done: set<CheckRequirement>, r: CheckRequirement, enforced: set<CheckRequirement>)
    ensures AllRequirementBlocks(i, done + {r}, enforced) == AllRequirementBlocks(i, done, enforced) + RequirementBlocks(i, r, enforced)
  {
    hide RequirementBlocks;
  }

  /** One requirement of the loop, on top of those judged before. */
  method JudgeRequirement(i: CheckInputs, ghost done: set<CheckRequirement>, r: CheckRequirement, enforced: set<CheckRequirement>,
                          ghost start: set<Block>, blocks: Blocks)
    requires blocks.Valid() && blocks.seen == start + AllRequirementBlocks(i, done, enforced)
    modifies blocks
    ensures blocks.Valid() && blocks.seen == start + AllRequirementBlocks(i, done + {r}, enforced)
  {
    hide RequirementBlocks, AllRequirementBlocks;
    OneMoreRequirement(i, done, r, enforced);
    EvaluateRequirement(i, r, enforced, blocks);
  }

  method EvaluateRequired(i: CheckInputs, required: set<CheckRequirement>, enforced: set<CheckRequirement>, blocks: Blocks)
    requires blocks.Valid()
    modifies blocks
    ensures blocks.Valid() && blocks.seen == old(blocks.seen) + AllRequirementBlocks(i, required, enforced)
  {
    var remaining := required;
    ghost var done: set<CheckRequirement> := {};
    assert AllRequirementBlocks(i, done, enforced) == {};
    hide RequirementBlocks, AllRequirementBlocks;
    while remaining != {}
      invariant blocks.Valid() && remaining <= required && done == required - remaining
      invariant blocks.seen == old(blocks.seen) + AllRequirementBlocks(i, done, enforced)
      decreases |remaining|
    {
      var r :| r in remaining;
      JudgeRequirement(i, done, r, enforced, old(blocks.seen), blocks);
      done, remaining := done + {r}, remaining - {r};
    }
    assert done == required;
  }

  /** `evaluate_checks`. */
  method EvaluateChecks(i: CheckInputs, required: set<CheckRequirement>, enforced: set<CheckRequirement>, blocks: Blocks)
    requires blocks.Valid()
    modifies blocks
    ensures blocks.Valid() && blocks.seen == old(blocks.seen) + CheckBlocks(i, required, enforced)
  {
    hide AuditBlocks, AllRequirementBlocks, EvidenceEnforced, When;
    AuditChecks(i.checks, i.completedAt, blocks);
    blocks.AddWhen(!EvidenceEnforced(i.checks, enforced), RulesetDrift, Part("checks.required"), "required evidence is absent from policy rules");
    EvaluateRequired(i, required, enforced, blocks);
  }

  // ---------------------------------------------------------------- what no block means

  /** A run of the required context and app on the required commit, strictly later than any other, succeeded. */
  ghost predicate Proven(i: CheckInputs, r: CheckRequirement) {
    exists m: Check ::
      && m in i.checks && m.source == CheckRun && m.context == r.context && m.appId == Some(r.appId) && m.sha == i.requiredSha
      && m.completed && m.conclusion == Some("success") && m.completedAt.Some?
      && forall c :: c in i.checks && c.source == CheckRun && c.context == r.context && c.appId == Some(r.appId) && c.sha == i.requiredSha && c != m ==>
           c.completed && c.completedAt.Some? && KeyLess(c, m)
  }

  lemma RequirementProven(i: CheckInputs, r: CheckRequirement, enforced: set<CheckRequirement>)
    requires RequirementBlocks(i, r, enforced) == {} && DistinctChecks(i.checks)
    ensures Proven(i, r)
  {
    hide LatestBlocks, RequirementBlocks, CurrentRuns, DistinctIds, DistinctChecks;
    var current := CurrentRuns(i, r);
    RequirementClear(i, r, enforced);
    CurrentRunsAre(i, r);
    CurrentRunsDiffer(i, r);
    LatestOfDistinctSucceedsExactly(current, r.context);
    var m :| 0 <= m < |current| && current[m].conclusion == Some("success") && forall k :: 0 <= k < |current| && k != m ==> KeyLess(current[k], current[m]);
    assert current[m] in current;
  }

  lemma RequirementClear(i: CheckInputs, r: CheckRequirement, enforced: set<CheckRequirement>)
    requires RequirementBlocks(i, r, enforced) == {}
    ensures |CurrentRuns(i, r)| > 0 && LatestBlocks(CurrentRuns(i, r), r.context) == {}
  {
    hide LatestBlocks, CurrentRuns, AppRuns, RunsOf, StatusBlocks, When;
  }

  /** No check run or status is given twice. */
  ghost predicate DistinctChecks(checks: seq<Check>) {
    forall i, j :: 0 <= i < j < |checks| ==> (checks[i].source, checks[i].id) != (checks[j].source, checks[j].id)
  }

  lemma {:induction false} IdsAre(checks: seq<Check>)
    ensures forall k :: 0 <= k < |checks| ==> (checks[k].source, checks[k].id) in IdsOf(checks)
    decreases |checks|
  {
    if |checks| > 0 {
      var earlier := checks[..|checks| - 1];
      IdsAre(earlier);
      assert forall k :: 0 <= k < |checks| - 1 ==> earlier[k] == checks[k];
    }
  }

  lemma {:induction false} AuditedAreDistinct(checks: seq<Check>, completedAt: int)
    requires AuditBlocks(checks, completedAt) == {}
    ensures DistinctChecks(checks)
    decreases |checks|
  {
    if |checks| > 0 {
      var earlier, last := checks[..|checks| - 1], checks[|checks| - 1];
      AuditedAreDistinct(earlier, completedAt);
      IdsAre(earlier);
      assert AuditOne(last, IdsOf(earlier), completedAt) == {};
      assert (last.source, last.id) !in IdsOf(earlier);
      assert forall k :: 0 <= k < |checks| - 1 ==> earlier[k] == checks[k];
      hide AuditBlocks, AuditOne, IdsOf;
    }
  }

  lemma {:induction false} FilterKeepsDistinct(items: seq<Check>, keep: Check -> bool)
    requires DistinctChecks(items)
    ensures DistinctChecks(Filter(items, keep))
    decreases |items|
  {
    if |items| > 0 {
      var earlier, last := items[..|items| - 1], items[|items| - 1];
      FilterKeepsDistinct(earlier, keep);
      assert forall x :: x in Filter(earlier, keep) ==> (x.source, x.id) != (last.source, last.id);
    }
  }

  lemma CurrentRunsDiffer(i: CheckInputs, r: CheckRequirement)
    requires DistinctChecks(i.checks)
    ensures DistinctIds(CurrentRuns(i, r))
  {
    CurrentRunsAre(i, r);
    CurrentRunsAreDistinct(i, r);
    hide CurrentRuns;
    var current := CurrentRuns(i, r);
    forall p, q | 0 <= p < q < |current| ensures current[p].id != current[q].id {
      assert current[p] in current && current[q] in current;
    }
  }

  lemma CurrentRunsAreDistinct(i: CheckInputs, r: CheckRequirement)
    requires DistinctChecks(i.checks)
    ensures DistinctChecks(CurrentRuns(i, r))
  {
    hide DistinctChecks;
    FilterKeepsDistinct(i.checks, OfRun(r.context));
    FilterKeepsDistinct(RunsOf(i.checks, r.context), OfApp(r));
    FilterKeepsDistinct(AppRuns(i.checks, r), AtSha(i.requiredSha));
  }

  lemma CurrentRunsAre(i: CheckInputs, r: CheckRequirement)
    ensures forall c :: c in CurrentRuns(i, r) <==>
              c in i.checks && c.source == CheckRun && c.context == r.context && c.appId == Some(r.appId) && c.sha == i.requiredSha
  {}

  lemma NoneOfAll(i: CheckInputs, required: set<CheckRequirement>, r: CheckRequirement, enforced: set<CheckRequirement>)
    requires r in required
    ensures RequirementBlocks(i, r, enforced) <= AllRequirementBlocks(i, required, enforced)
  {
    hide RequirementBlocks;
  }

  /** If the evaluation adds no block, every required check is proven. */
  lemma NoCheckBlockMeans(i: CheckInputs, required: set<CheckRequirement>, enforced: set<CheckRequirement>)
    requires CheckBlocks(i, required, enforced) == {}
    ensures forall r :: r in required ==> Proven(i, r)
  {
    hide Proven, AuditBlocks, RequirementBlocks, AllRequirementBlocks, DistinctChecks;
    assert AllRequirementBlocks(i, required, enforced) == {};
    AuditedAreDistinct(i.checks, i.completedAt);
    forall r | r in required
      ensures Proven(i, r)
    {
      NoneOfAll(i, required, r, enforced);
      RequirementProven(i, r, enforced);
    }
  }
}
