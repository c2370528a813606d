/** Safety of the publication protocol in every reachable state of every run. */
module PublicationLaws {
  import opened Wrappers
  import opened PublicationProtocol

  // ---------------------------------------------------------------- the invariant

  predicate Holds(ph: Phase) { ph.Claiming? || ph.Dispatching? || ph.Storing? }

  ghost predicate By(writers: map<RequestId, CallId>, c: CallId, id: RequestId) { id in writers && writers[id] == c }

  ghost predicate Persisted(d: Directory, r: Request) { r.id in d.requests && d.requests[r.id] == r }

  ghost predicate NeverSent(sends: seq<Send>, id: RequestId) { forall i :: 0 <= i < |sends| ==> sends[i].request.id != id }

  /** What the world owes a call in the given phase. */
  ghost predicate PhaseOk(v: Validity, w: World, c: CallId, ph: Phase) {
    match ph
    case Enveloped(r, at) => c in w.publishers && RequestValid(v, r) && InWindow(r, at) && at <= w.clock
    case Claiming(r, at) => c in w.publishers && RequestValid(v, r) && InWindow(r, at) && at <= w.clock && Unclaimed(v, w.dir, r) && r.id !in w.dir.requests
    case Claimed(r, at) => c in w.publishers && Persisted(w.dir, r) && By(w.creators, c, r.id) && at <= w.clock && r.id !in w.dir.dispatches
    case Dispatching(r, at) =>
      c in w.publishers && Persisted(w.dir, r) && By(w.creators, c, r.id) && InWindow(r, at) && at <= w.clock && r.id !in w.dir.dispatches
    case Marked(r) => c in w.publishers && Persisted(w.dir, r) && By(w.dispatchers, c, r.id) && NeverSent(w.sends, r.id)
    case Sent(r) => c in w.publishers && Persisted(w.dir, r)
    case Observing(r, at) => c in w.reconcilers && at <= w.clock
    case Recording(receipt) => receipt.observedAt <= w.clock
    case Storing(receipt) => RecordAllowed(v, w.dir, receipt) && receipt.observedAt <= w.clock
    case Done => true
    case Dead => true
  }

  ghost predicate CallOk(v: Validity, s: System, c: CallId, ph: Phase) {
    && (Holds(ph) ==> s.lock == Some(c)) && PhaseOk(v, s.world, c, ph)
  }

  ghost predicate RequestsOk(v: Validity, d: Directory, creators: map<RequestId, CallId>) {
    && (forall id :: id in d.requests ==> d.requests[id].id == id && RequestValid(v, d.requests[id]) && id in creators)
    && creators.Keys <= d.requests.Keys
    && (forall a, b :: a in d.requests && b in d.requests && a != b ==> !SharesAuthority(d.requests[a], d.requests[b]))
  }

  ghost predicate DispatchesOk(d: Directory, clock: int, creators: map<RequestId, CallId>, dispatchers: map<RequestId, CallId>) {
    && dispatchers.Keys <= d.dispatches.Keys
    && forall id :: id in d.dispatches ==>
         && id in d.requests && DispatchBound(d.requests[id], d.dispatches[id]) && d.dispatches[id].startedAt <= clock
         && id in dispatchers && By(creators, dispatchers[id], id)
  }

  ghost predicate ReceiptsOk(v: Validity, d: Directory, clock: int) {
    forall id :: id in d.receipts ==>
      && id in d.requests && id in d.dispatches
      && ReceiptValid(v, d.requests[id], d.dispatches[id], d.receipts[id]) && d.receipts[id].observedAt <= clock
  }

  ghost predicate SendsOk(w: World) {
    && (forall i :: 0 <= i < |w.sends| ==>
          && w.sends[i].request.id in w.dir.dispatches && Persisted(w.dir, w.sends[i].request)
          && By(w.dispatchers, w.sends[i].call, w.sends[i].request.id) && w.sends[i].call in w.publishers)
    && (forall i, j :: 0 <= i < j < |w.sends| ==> w.sends[i].request.id != w.sends[j].request.id)
  }

  ghost predicate WorldOk(v: Validity, w: World) {
    && RequestsOk(v, w.dir, w.creators) && DispatchesOk(w.dir, w.clock, w.creators, w.dispatchers)
    && ReceiptsOk(v, w.dir, w.clock) && SendsOk(w)
  }

  ghost predicate Invariant(v: Validity, s: System) {
    && WorldOk(v, s.world) && s.world.publishers !! s.world.reconcilers
    && s.calls.Keys == s.world.publishers + s.world.reconcilers
    && forall c :: c in s.calls ==> CallOk(v, s, c, s.calls[c])
  }

  // ---------------------------------------------------------------- what one call's step leaves alone

  ghost predicate Evolves(w: World, w': World, c: CallId) {
    && w.clock <= w'.clock
    && (forall id :: id in w.dir.requests ==> id in w'.dir.requests && w'.dir.requests[id] == w.dir.requests[id])
    && (forall id :: id in w.dir.dispatches ==> id in w'.dir.dispatches && w'.dir.dispatches[id] == w.dir.dispatches[id])
    && (forall id :: id in w'.dir.dispatches && id !in w.dir.dispatches ==> By(w.creators, c, id))
    && (forall id :: id in w.creators ==> id in w'.creators && w'.creators[id] == w.creators[id])
    && (forall id :: id in w.dispatchers ==> id in w'.dispatchers && w'.dispatchers[id] == w.dispatchers[id])
    && (forall i :: |w.sends| <= i < |w'.sends| ==> By(w.dispatchers, c, w'.sends[i].request.id))
    && w.sends <= w'.sends
    && w'.publishers == w.publishers && w'.reconcilers == w.reconcilers
  }

  lemma UnlockedPhaseStaysOk(v: Validity, w: World, w': World, c: CallId, other: CallId, ph: Phase)
    requires Evolves(w, w', c) && other != c && !Holds(ph) && PhaseOk(v, w, other, ph)
    ensures PhaseOk(v, w', other, ph)
  {
    hide RequestValid, ReceiptValid;
  }

  lemma WritingStep(v: Validity, s: System, s': System, c: CallId)
    requires Invariant(v, s) && Evolves(s.world, s'.world, c)
    requires forall other :: other in s.calls && other != c ==> !Holds(s.calls[other])
    requires c in s.calls && c in s'.calls && s'.calls == s.calls[c := s'.calls[c]]
    requires WorldOk(v, s'.world) && CallOk(v, s', c, s'.calls[c])
    ensures Invariant(v, s')
  {
    hide WorldOk, PhaseOk;
    forall other | other in s'.calls
      ensures CallOk(v, s', other, s'.calls[other])
    {
      if other != c {
        assert CallOk(v, s, other, s.calls[other]);
        UnlockedPhaseStaysOk(v, s.world, s'.world, c, other, s.calls[other]);
      }
    }
  }

  lemma LockExcludes(v: Validity, s: System, c: CallId)
    requires Invariant(v, s) && (s.lock.None? || s.lock == Some(c))
    ensures forall other :: other in s.calls && other != c ==> !Holds(s.calls[other])
  {
    hide WorldOk, PhaseOk;
    forall other | other in s.calls && other != c
      ensures !Holds(s.calls[other])
    {
      assert CallOk(v, s, other, s.calls[other]);
    }
  }

  /** A step that changes only `c`'s phase and possibly the lock. */
  lemma QuietStep(v: Validity, s: System, s': System, c: CallId)
    requires Invariant(v, s) && s'.world == s.world
    requires c in s.calls && c in s'.calls && s'.calls == s.calls[c := s'.calls[c]]
    requires s.lock.Some? && s.lock != Some(c) ==> s'.lock == s.lock
    requires CallOk(v, s', c, s'.calls[c])
    ensures Invariant(v, s')
  {
    hide WorldOk, PhaseOk;
    forall other | other in s'.calls
      ensures CallOk(v, s', other, s'.calls[other])
    {
      if other != c { assert CallOk(v, s, other, s.calls[other]); }
    }
  }

  lemma FinishKeeps(v: Validity, s: System, c: CallId)
    requires Invariant(v, s) && c in s.calls
    ensures Invariant(v, Finish(s, c))
  {
    hide WorldOk, PhaseOk;
    assert PhaseOk(v, s.world, c, Done) by { DoneIsOk(v, s.world, c); }
    QuietStep(v, s, Finish(s, c), c);
  }

  lemma DoneIsOk(v: Validity, w: World, c: CallId)
    ensures PhaseOk(v, w, c, Done) && PhaseOk(v, w, c, Dead)
  {}

  // ---------------------------------------------------------------- the durable writes

  lemma WithRequestEvolves(w: World, c: CallId, r: Request)
    requires r.id !in w.dir.requests && w.creators.Keys <= w.dir.requests.Keys
    ensures Evolves(w, WithRequest(w, c, r), c)
  {}

  /** Adding an unclaimed request keeps every pair of requests free of shared authority. */
  lemma UnclaimedAdds(v: Validity, d: Directory, r: Request)
    requires Unclaimed(v, d, r) && r.id !in d.requests
    requires forall a, b :: a in d.requests && b in d.requests && a != b ==> !SharesAuthority(d.requests[a], d.requests[b])
    ensures var more := d.requests[r.id := r];
            forall a, b :: a in more && b in more && a != b ==> !SharesAuthority(more[a], more[b])
  {
    hide RequestValid;
    var more := d.requests[r.id := r];
    forall a, b | a in more && b in more && a != b
      ensures !SharesAuthority(more[a], more[b])
    {
      assert a != r.id ==> !SharesAuthority(d.requests[a], r);
      assert b != r.id ==> !SharesAuthority(d.requests[b], r);
    }
  }

  lemma WithRequestOk(v: Validity, w: World, c: CallId, r: Request)
    requires RequestsOk(v, w.dir, w.creators) && RequestValid(v, r) && Unclaimed(v, w.dir, r) && r.id !in w.dir.requests
    ensures RequestsOk(v, WithRequest(w, c, r).dir, WithRequest(w, c, r).creators)
  {
    UnclaimedAdds(v, w.dir, r);
    hide RequestValid, SharesAuthority;
  }

  lemma WithRequestKeepsRest(v: Validity, w: World, c: CallId, r: Request)
    requires DispatchesOk(w.dir, w.clock, w.creators, w.dispatchers) && ReceiptsOk(v, w.dir, w.clock) && r.id !in w.dir.requests
    ensures var w' := WithRequest(w, c, r);
            DispatchesOk(w'.dir, w'.clock, w'.creators, w'.dispatchers) && ReceiptsOk(v, w'.dir, w'.clock)
  {
    hide ReceiptValid, DispatchBound;
  }

  lemma WithRequestKeepsSends(w: World, c: CallId, r: Request)
    requires SendsOk(w) && r.id !in w.dir.requests
    ensures SendsOk(WithRequest(w, c, r))
  {}

  lemma WriteRequestWorld(v: Validity, w: World, c: CallId, r: Request)
    requires WorldOk(v, w) && RequestValid(v, r) && Unclaimed(v, w.dir, r) && r.id !in w.dir.requests
    ensures Evolves(w, WithRequest(w, c, r), c) && WorldOk(v, WithRequest(w, c, r)) && r.id !in w.dir.dispatches
  {
    WithRequestOk(v, w, c, r);
    WithRequestKeepsRest(v, w, c, r);
    WithRequestKeepsSends(w, c, r);
    WithRequestEvolves(w, c, r);
    assert r.id !in w.dir.dispatches;
    hide RequestsOk, ReceiptsOk, SendsOk, DispatchesOk, Evolves;
  }

  lemma WithDispatchEvolves(w: World, c: CallId, r: Request, at: int)
    requires By(w.creators, c, r.id) && r.id !in w.dir.dispatches && w.dispatchers.Keys <= w.dir.dispatches.Keys
    ensures Evolves(w, WithDispatch(w, c, r, at), c)
  {}

  lemma WithDispatchOk(v: Validity, w: World, c: CallId, r: Request, at: int)
    requires DispatchesOk(w.dir, w.clock, w.creators, w.dispatchers)
    requires Persisted(w.dir, r) && By(w.creators, c, r.id) && InWindow(r, at) && at <= w.clock
    ensures var w' := WithDispatch(w, c, r, at); DispatchesOk(w'.dir, w'.clock, w'.creators, w'.dispatchers)
  {}

  lemma WithDispatchKeepsReceipts(v: Validity, w: World, c: CallId, r: Request, at: int)
    requires ReceiptsOk(v, w.dir, w.clock) && r.id !in w.dir.dispatches
    ensures ReceiptsOk(v, WithDispatch(w, c, r, at).dir, w.clock)
  {
    hide ReceiptValid;
  }

  lemma WithDispatchKeepsSends(w: World, c: CallId, r: Request, at: int)
    requires SendsOk(w) && r.id !in w.dir.dispatches
    ensures SendsOk(WithDispatch(w, c, r, at)) && NeverSent(w.sends, r.id)
  {}

  lemma MarkDispatchWorld(v: Validity, w: World, c: CallId, r: Request, at: int)
    requires WorldOk(v, w) && Persisted(w.dir, r) && By(w.creators, c, r.id) && InWindow(r, at) && at <= w.clock && r.id !in w.dir.dispatches
    ensures Evolves(w, WithDispatch(w, c, r, at), c) && WorldOk(v, WithDispatch(w, c, r, at)) && NeverSent(w.sends, r.id)
  {
    WithDispatchEvolves(w, c, r, at);
    WithDispatchOk(v, w, c, r, at);
    WithDispatchKeepsReceipts(v, w, c, r, at);
    WithDispatchKeepsSends(w, c, r, at);
    hide RequestsOk, ReceiptsOk, SendsOk, DispatchesOk, Evolves;
  }

  lemma WithSendOk(v: Validity, w: World, c: CallId, r: Request)
    requires WorldOk(v, w) && Persisted(w.dir, r) && By(w.dispatchers, c, r.id) && NeverSent(w.sends, r.id) && c in w.publishers
    ensures Evolves(w, WithSend(w, c, r), c) && WorldOk(v, WithSend(w, c, r))
  {
    hide RequestsOk, ReceiptsOk;
  }

  lemma WithReceiptReceiptsOk(v: Validity, w: World, receipt: Receipt)
    requires ReceiptsOk(v, w.dir, w.clock) && RecordAllowed(v, w.dir, receipt) && receipt.observedAt <= w.clock
    ensures ReceiptsOk(v, WithReceipt(w, receipt).dir, w.clock)
  {
    hide ReceiptValid;
  }

  lemma WithReceiptEvolves(v: Validity, w: World, receipt: Receipt, c: CallId)
    requires RequestsOk(v, w.dir, w.creators) && DispatchesOk(w.dir, w.clock, w.creators, w.dispatchers) && SendsOk(w)
    ensures Evolves(w, WithReceipt(w, receipt), c) && SendsOk(WithReceipt(w, receipt))
    ensures RequestsOk(v, WithReceipt(w, receipt).dir, w.creators) && DispatchesOk(WithReceipt(w, receipt).dir, w.clock, w.creators, w.dispatchers)
  {
    hide RequestValid, SharesAuthority, DispatchBound;
  }

  lemma WithReceiptOk(v: Validity, w: World, receipt: Receipt, c: CallId)
    requires WorldOk(v, w) && RecordAllowed(v, w.dir, receipt) && receipt.observedAt <= w.clock
    ensures Evolves(w, WithReceipt(w, receipt), c) && WorldOk(v, WithReceipt(w, receipt))
  {
    WithReceiptReceiptsOk(v, w, receipt);
    WithReceiptEvolves(v, w, receipt, c);
    hide RequestsOk, ReceiptsOk, RecordAllowed, DispatchBound, Evolves, SendsOk;
  }

  // ---------------------------------------------------------------- every step, every run

  /** The steps that write, by a call that holds the lock or does not need it. */
  lemma WriteRequestKeeps(v: Validity, s: System, c: CallId)
    requires Invariant(v, s)
    ensures Invariant(v, WriteRequestStep(s, c))
  {
    hide RequestsOk, DispatchesOk, ReceiptsOk, SendsOk, Evolves, Unclaimed, RequestValid, InWindow;
    if c in s.calls && s.calls[c].Claiming? {
      var ph := s.calls[c];
      assert CallOk(v, s, c, ph);
      LockExcludes(v, s, c);
      WriteRequestWorld(v, s.world, c, ph.request);
      WritingStep(v, s, WriteRequestStep(s, c), c);
    }
  }

  lemma MarkDispatchKeeps(v: Validity, s: System, c: CallId)
    requires Invariant(v, s)
    ensures Invariant(v, MarkDispatchStep(s, c))
  {
    hide RequestsOk, ReceiptsOk, DispatchesOk, SendsOk, Evolves, NeverSent, InWindow;
    if c in s.calls && s.calls[c].Dispatching? {
      var ph := s.calls[c];
      assert CallOk(v, s, c, ph);
      LockExcludes(v, s, c);
      MarkDispatchWorld(v, s.world, c, ph.request, ph.startedAt);
      WritingStep(v, s, MarkDispatchStep(s, c), c);
    }
  }

  lemma StoreReceiptKeeps(v: Validity, s: System, c: CallId)
    requires Invariant(v, s)
    ensures Invariant(v, StoreReceiptStep(s, c))
  {
    if c in s.calls && s.calls[c].Storing? {
      var ph := s.calls[c];
      assert CallOk(v, s, c, ph);
      LockExcludes(v, s, c);
      WithReceiptOk(v, s.world, ph.receipt, c);
      DoneIsOk(v, StoreReceiptStep(s, c).world, c);
      hide WorldOk, Evolves, PhaseOk;
      WritingStep(v, s, StoreReceiptStep(s, c), c);
    }
  }

  /** A send is not made under the lock, so every other phase has to survive it. */
  lemma SendPhaseStays(v: Validity, w: World, c: CallId, r: Request, other: CallId, ph: Phase)
    requires PhaseOk(v, w, other, ph) && other != c && By(w.dispatchers, c, r.id)
    ensures PhaseOk(v, WithSend(w, c, r), other, ph)
  {
    hide RequestValid, Unclaimed, RecordAllowed;
  }

  lemma MarkedFacts(v: Validity, s: System, c: CallId)
    requires Invariant(v, s) && c in s.calls && s.calls[c].Marked?
    ensures var w, r := s.world, s.calls[c].request;
            && WorldOk(v, w) && Persisted(w.dir, r) && By(w.dispatchers, c, r.id) && NeverSent(w.sends, r.id) && c in w.publishers
  {
    hide WorldOk;
    assert CallOk(v, s, c, s.calls[c]);
  }

  lemma SentIsOk(v: Validity, s: System, c: CallId)
    requires c in s.calls && s.calls[c].Marked? && Persisted(s.world.dir, s.calls[c].request) && c in s.world.publishers
    ensures CallOk(v, SendStep(s, c), c, SendStep(s, c).calls[c])
  {}

  lemma SendKeeps(v: Validity, s: System, c: CallId)
    requires Invariant(v, s)
    ensures Invariant(v, SendStep(s, c))
  {
    if c in s.calls && s.calls[c].Marked? {
      var r, s' := s.calls[c].request, SendStep(s, c);
      MarkedFacts(v, s, c);
      hide WorldOk, NeverSent, PhaseOk, Persisted;
      WithSendOk(v, s.world, c, r);
      SentIsOk(v, s, c);
      forall other | other in s'.calls
        ensures CallOk(v, s', other, s'.calls[other])
      {
        if other != c {
          assert CallOk(v, s, other, s.calls[other]);
          SendPhaseStays(v, s.world, c, r, other, s.calls[other]);
        }
      }
    }
  }

  lemma KnownWorldStays(v: Validity, w: World, w': World)
    requires WorldOk(v, w) && w' == w.(publishers := w'.publishers, reconcilers := w'.reconcilers) && w.publishers <= w'.publishers
    ensures WorldOk(v, w')
  {
    hide RequestsOk, ReceiptsOk, DispatchesOk;
  }

  /** A new call, and nothing else. */
  lemma NewCall(v: Validity, s: System, s': System, c: CallId)
    requires Invariant(v, s) && c !in s.calls && s'.lock == s.lock
    requires c in s'.calls && s'.calls == s.calls[c := s'.calls[c]] && !Holds(s'.calls[c])
    requires s'.world in {s.world.(publishers := s.world.publishers + {c}), s.world.(reconcilers := s.world.reconcilers + {c})}
    requires PhaseOk(v, s'.world, c, s'.calls[c])
    ensures Invariant(v, s')
  {
    KnownWorldStays(v, s.world, s'.world);
    hide WorldOk, PhaseOk;
    forall other | other in s'.calls
      ensures CallOk(v, s', other, s'.calls[other])
    {
      if other != c {
        assert CallOk(v, s, other, s.calls[other]);
        KnownCallStays(v, s.world, s'.world, other, s.calls[other]);
      }
    }
  }

  lemma KnownCallStays(v: Validity, w: World, w': World, c: CallId, ph: Phase)
    requires PhaseOk(v, w, c, ph)
    requires w' == w.(publishers := w'.publishers, reconcilers := w'.reconcilers)
    requires w.publishers <= w'.publishers && w.reconcilers <= w'.reconcilers
    ensures PhaseOk(v, w', c, ph)
  {
    hide RequestValid, Unclaimed, RecordAllowed, NeverSent;
  }

  lemma StartPublishKeeps(v: Validity, s: System, c: CallId, id: RequestId, r: Request)
    requires Invariant(v, s)
    ensures Invariant(v, StartPublishStep(v, s, c, id, r))
  {
    if c !in s.calls {
      var s' := StartPublishStep(v, s, c, id, r);
      hide WorldOk, RequestValid;
      assert PhaseOk(v, s'.world, c, s'.calls[c]);
      NewCall(v, s, s', c);
    }
  }

  lemma ReconcilePhase(v: Validity, s: System, c: CallId, id: RequestId)
    requires c !in s.calls
    ensures var s' := StartReconcileStep(v, s, c, id); c in s'.calls && PhaseOk(v, s'.world, c, s'.calls[c])
  {
    hide Loadable;
  }

  lemma StartReconcileKeeps(v: Validity, s: System, c: CallId, id: RequestId)
    requires Invariant(v, s)
    ensures Invariant(v, StartReconcileStep(v, s, c, id))
  {
    if c !in s.calls {
      var s' := StartReconcileStep(v, s, c, id);
      ReconcilePhase(v, s, c, id);
      hide Invariant, Loadable, PhaseOk;
      NewCall(v, s, s', c);
    }
  }

  lemma AcquireClaimKeeps(v: Validity, s: System, c: CallId)
    requires Invariant(v, s)
    ensures Invariant(v, AcquireClaimStep(v, s, c))
  {
    if c in s.calls && s.calls[c].Enveloped? {
      assert CallOk(v, s, c, s.calls[c]);
      FinishKeeps(v, s, c);
      hide WorldOk, RequestValid, Unclaimed;
      if s.lock.None? { QuietStep(v, s, AcquireClaimStep(v, s, c), c); }
    }
  }

  lemma AcquireDispatchKeeps(v: Validity, s: System, c: CallId)
    requires Invariant(v, s)
    ensures Invariant(v, AcquireDispatchStep(v, s, c))
  {
    if c in s.calls && s.calls[c].Claimed? {
      assert CallOk(v, s, c, s.calls[c]);
      FinishKeeps(v, s, c);
      hide WorldOk, RequestValid;
      if s.lock.None? { QuietStep(v, s, AcquireDispatchStep(v, s, c), c); }
    }
  }

  lemma AnswerKeeps(v: Validity, s: System, c: CallId, content: string)
    requires Invariant(v, s)
    ensures Invariant(v, AnswerStep(s, c, content)) && Invariant(v, ObserveStep(s, c, content))
  {
    hide WorldOk;
    if c in s.calls && s.calls[c].Sent? { QuietStep(v, s, AnswerStep(s, c, content), c); }
    if c in s.calls && s.calls[c].Observing? {
      assert CallOk(v, s, c, s.calls[c]);
      QuietStep(v, s, ObserveStep(s, c, content), c);
    }
  }

  lemma AcquireRecordKeeps(v: Validity, s: System, c: CallId)
    requires Invariant(v, s)
    ensures Invariant(v, AcquireRecordStep(v, s, c))
  {
    hide RequestsOk, ReceiptsOk, DispatchesOk, SendsOk, RecordAllowed;
    if c in s.calls && s.calls[c].Recording? {
      assert CallOk(v, s, c, s.calls[c]);
      FinishKeeps(v, s, c);
      if s.lock.None? { QuietStep(v, s, AcquireRecordStep(v, s, c), c); }
    }
  }

  lemma TickPhase(v: Validity, w: World, c: CallId, ph: Phase, elapsed: nat)
    requires PhaseOk(v, w, c, ph)
    ensures PhaseOk(v, w.(clock := w.clock + elapsed), c, ph)
  {
    hide RequestValid, Unclaimed, RecordAllowed, NeverSent;
  }

  lemma TickKeeps(v: Validity, s: System, elapsed: nat)
    requires Invariant(v, s)
    ensures Invariant(v, s.(world := s.world.(clock := s.world.clock + elapsed)))
  {
    var s' := s.(world := s.world.(clock := s.world.clock + elapsed));
    assert WorldOk(v, s'.world) by { hide RequestsOk, ReceiptValid, DispatchBound, NeverSent; }
    hide WorldOk, PhaseOk;
    forall c | c in s'.calls
      ensures CallOk(v, s', c, s'.calls[c])
    {
      assert CallOk(v, s, c, s.calls[c]);
      TickPhase(v, s.world, c, s.calls[c], elapsed);
    }
  }

  lemma EnvironmentKeeps(v: Validity, s: System, a: Action)
    requires Invariant(v, s) && (a.Fail? || a.Kill? || a.ClearDeadLock? || a.Tick?)
    ensures Invariant(v, Step(v, s, a))
  {
    hide WorldOk;
    match a
    case Fail(c) => if c in s.calls { FinishKeeps(v, s, c); }
    case Kill(c) => if c in s.calls && !s.calls[c].Done? { QuietStep(v, s, Goto(s, c, Dead), c); }
    case ClearDeadLock =>
      if s.lock.Some? && s.lock.value in s.calls && s.calls[s.lock.value].Dead? {
        QuietStep(v, s, Step(v, s, a), s.lock.value);
      }
    case Tick(elapsed) => TickKeeps(v, s, elapsed);
  }

  lemma StepKeepsInvariant(v: Validity, s: System, a: Action)
    requires Invariant(v, s)
    ensures Invariant(v, Step(v, s, a))
  {
    hide Invariant;
    match a
    case StartPublish(c, id, r) => StartPublishKeeps(v, s, c, id, r);
    case AcquireClaim(c) => AcquireClaimKeeps(v, s, c);
    case WriteRequest(c) => WriteRequestKeeps(v, s, c);
    case AcquireDispatch(c) => AcquireDispatchKeeps(v, s, c);
    case MarkDispatch(c) => MarkDispatchKeeps(v, s, c);
    case SendOnce(c) => SendKeeps(v, s, c);
    case Answer(c, content) => AnswerKeeps(v, s, c, content);
    case StartReconcile(c, id) => StartReconcileKeeps(v, s, c, id);
    case Observe(c, content) => AnswerKeeps(v, s, c, content);
    case AcquireRecord(c) => AcquireRecordKeeps(v, s, c);
    case StoreReceipt(c) => StoreReceiptKeeps(v, s, c);
    case _ => EnvironmentKeeps(v, s, a);
  }

  lemma {:induction false} RunKeepsInvariant(v: Validity, actions: seq<Action>)
    ensures Invariant(v, Run(v, Start, actions))
  {
    if |actions| > 0 {
      RunKeepsInvariant(v, actions[..|actions| - 1]);
      StepKeepsInvariant(v, Run(v, Start, actions[..|actions| - 1]), actions[|actions| - 1]);
      hide Invariant, Step;
    }
  }

  // ---------------------------------------------------------------- what it means

  /**
    Over every interleaving and every crash, each publication request is sent at most once, no two
    sends share a mission authorization, a mission state hash or a head commit, and every send was
    made by the publish call that wrote the request's dispatch record, never by a reconciliation.
  */
  lemma AtMostOneSend(v: Validity, actions: seq<Action>)
    ensures var w := Run(v, Start, actions).world;
            && (forall i, j :: 0 <= i < j < |w.sends| ==>
                  var q, r := w.sends[i].request, w.sends[j].request;
                  q.id != r.id && q.missionAuthorization != r.missionAuthorization && q.missionState != r.missionState && q.headSha != r.headSha)
            && (forall i :: 0 <= i < |w.sends| ==>
                  && w.sends[i].request.id in w.dir.dispatches && By(w.dispatchers, w.sends[i].call, w.sends[i].request.id)
                  && w.sends[i].call in w.publishers && w.sends[i].call !in w.reconcilers)
  {
    RunKeepsInvariant(v, actions);
    hide Run, RequestValid, ReceiptsOk, DispatchBound;
  }

  /** No two persisted requests share a mission authorization, a mission state hash or a head commit. */
  lemma RequestsShareNothing(v: Validity, actions: seq<Action>, a: RequestId, b: RequestId)
    requires var d := Run(v, Start, actions).world.dir; a in d.requests && b in d.requests && a != b
    ensures var d := Run(v, Start, actions).world.dir;
            && d.requests[a].missionAuthorization != d.requests[b].missionAuthorization
            && d.requests[a].missionState != d.requests[b].missionState && d.requests[a].headSha != d.requests[b].headSha
  {
    RunKeepsInvariant(v, actions);
    hide Run, RequestValid, ReceiptsOk, DispatchesOk, SendsOk;
  }

  /**
    Every dispatch record was written inside its request's window, which is at most fifteen minutes
    long and within the authorization; every receipt has an earlier dispatch record.
  */
  lemma ReceiptsFollowDispatches(v: Validity, actions: seq<Action>)
    ensures var d := Run(v, Start, actions).world.dir;
            && (forall id :: id in d.dispatches ==>
                  && id in d.requests
                  && var r := d.requests[id];
                     && r.issuedAt <= d.dispatches[id].startedAt < r.expiresAt <= r.issuedAt + 900_000_000
                     && r.authorizedAt <= r.issuedAt && r.expiresAt <= r.authorizedAt + r.wallSeconds * 1_000_000)
            && (forall id :: id in d.receipts ==>
                  && id in d.dispatches && d.dispatches[id].startedAt <= d.receipts[id].observedAt
                  && id in d.requests && d.receipts[id].requestSha == OfRequest(d.requests[id]))
  {
    RunKeepsInvariant(v, actions);
    hide Run, SharesAuthority, SendsOk;
  }

  /** A request of at most fifteen minutes within its authorization, for the commit at its head. */
  ghost predicate SoundRequest(v: Validity, id: RequestId, r: Request) {
    && r.id == id && r.commitSha == r.headSha && v.request(r)
    && r.issuedAt < r.expiresAt && r.expiresAt <= r.issuedAt + 900_000_000
    && r.authorizedAt <= r.issuedAt && r.expiresAt <= r.authorizedAt + r.wallSeconds * 1_000_000
  }

  /** What is on disk for a request: the request, then its dispatch in its window, then a receipt for both. */
  ghost predicate SoundRecord(v: Validity, d: Directory, id: RequestId) {
    && id in d.requests && SoundRequest(v, id, d.requests[id])
    && var r := d.requests[id];
       && (id in d.dispatches ==>
             && d.dispatches[id].id == id && d.dispatches[id].requestSha == OfRequest(r)
             && r.issuedAt <= d.dispatches[id].startedAt && d.dispatches[id].startedAt < r.expiresAt)
       && (id in d.receipts ==>
             && id in d.dispatches && d.receipts[id].id == id && d.receipts[id].requestSha == OfRequest(r)
             && v.receipt(r, d.receipts[id]) && d.dispatches[id].startedAt <= d.receipts[id].observedAt)
  }

  /** `load` succeeds exactly on a sound record. */
  lemma LoadsExactly(v: Validity, d: Directory, id: RequestId)
    ensures Loadable(v, d, id) <==> SoundRecord(v, d, id)
  {}

  /** What a dispatch and a receipt are checked for on any directory. */
  lemma ChecksExactly(v: Validity, d: Directory, r: Request, startedAt: int, receipt: Receipt)
    ensures DispatchAllowed(v, d, r, startedAt) <==>
              && r.id in d.requests && d.requests[r.id] == r && SoundRequest(v, r.id, r)
              && r.id !in d.dispatches && r.id !in d.receipts && r.issuedAt <= startedAt && startedAt < r.expiresAt
    ensures RecordAllowed(v, d, receipt) <==>
              && receipt.id in d.requests && receipt.id in d.dispatches && (receipt.id in d.receipts ==> d.receipts[receipt.id] == receipt)
              && var q, x := d.requests[receipt.id], d.dispatches[receipt.id];
                 && SoundRequest(v, receipt.id, q) && x.id == receipt.id && x.requestSha == OfRequest(q) && q.issuedAt <= x.startedAt && x.startedAt < q.expiresAt
                 && receipt.requestSha == OfRequest(q) && v.receipt(q, receipt) && x.startedAt <= receipt.observedAt
  {}

  /** In every reachable state, whatever is on disk for a request is sound and loads: the journal never contradicts itself. */
  lemma EveryRecordLoads(v: Validity, actions: seq<Action>, id: RequestId)
    requires id in Run(v, Start, actions).world.dir.requests
    ensures Loadable(v, Run(v, Start, actions).world.dir, id) && SoundRecord(v, Run(v, Start, actions).world.dir, id)
  {
    RunKeepsInvariant(v, actions);
    LoadsExactly(v, Run(v, Start, actions).world.dir, id);
    hide Run, SharesAuthority, SendsOk, SoundRecord;
  }
}
