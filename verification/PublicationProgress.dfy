/** What lets a publication go on, step by step, and a publication that goes through. */
module PublicationProgress {
  import opened Wrappers
  import opened PublicationProtocol
  import opened PublicationLaws

  // ---------------------------------------------------------------- what each step asks for

  /** Two requests that no journal may hold together. */
  ghost predicate Clash(a: Request, b: Request) {
    a.missionAuthorization == b.missionAuthorization || a.missionState == b.missionState || a.headSha == b.headSha
  }

  /** A new `publish` goes on exactly with a sound request, current now, that was not seen before. */
  lemma EntersExactly(v: Validity, s: System, c: CallId, id: RequestId, r: Request)
    requires c !in s.calls
    ensures var t := Step(v, s, StartPublish(c, id, r));
            && c in t.calls
            && (t.calls[c] == Enveloped(r, s.world.clock) <==>
                  id !in s.world.dir.requests && SoundRequest(v, id, r) && r.issuedAt <= s.world.clock < r.expiresAt)
            && (t.calls[c] != Enveloped(r, s.world.clock) ==> t.calls[c] == Done)
  {}

  /** It claims its request exactly if the lock is free and no request on disk is the same or clashes with it. */
  lemma ClaimsExactly(v: Validity, s: System, c: CallId)
    requires Invariant(v, s) && c in s.calls && s.calls[c].Enveloped?
    ensures var t, r := Step(v, s, AcquireClaim(c)), s.calls[c].request;
            && (t.calls[c] == Claiming(r, s.calls[c].startedAt) <==>
                  && s.lock == None && r.id !in s.world.dir.requests
                  && forall id :: id in s.world.dir.requests ==> !Clash(s.world.dir.requests[id], r))
            && (t.calls[c] != Claiming(r, s.calls[c].startedAt) ==> t.calls[c] == Done)
  {
    hide RequestValid, ReceiptsOk, DispatchesOk, SendsOk, PhaseOk;
  }

  /** It dispatches exactly if the lock is free and the request's window has been kept. */
  lemma DispatchesExactly(v: Validity, s: System, c: CallId)
    requires Invariant(v, s) && c in s.calls && s.calls[c].Claimed?
    ensures var t, r, at := Step(v, s, AcquireDispatch(c)), s.calls[c].request, s.calls[c].startedAt;
            && (t.calls[c] == Dispatching(r, at) <==> s.lock == None && r.issuedAt <= at < r.expiresAt)
            && (t.calls[c] != Dispatching(r, at) ==> t.calls[c] == Done)
  {
    assert CallOk(v, s, c, s.calls[c]);
    hide RequestValid, SendsOk, ReceiptValid, SharesAuthority;
  }

  /** A new `reconcile` looks at the remote exactly if there is a dispatch to account for and no receipt for it. */
  lemma LooksExactly(v: Validity, s: System, c: CallId, id: RequestId)
    requires Invariant(v, s) && c !in s.calls
    ensures var t := Step(v, s, StartReconcile(c, id));
            && c in t.calls
            && (t.calls[c].Observing? <==> id in s.world.dir.dispatches && id !in s.world.dir.receipts)
            && (t.calls[c].Observing? ==> t.calls[c] == Observing(s.world.dir.requests[id], s.world.clock))
            && (!t.calls[c].Observing? ==> t.calls[c] == Done)
  {
    hide SendsOk, ReceiptValid, SharesAuthority, PhaseOk;
  }

  /** A receipt is recorded exactly if the lock is free, it answers a dispatch on disk, later, and no other receipt does. */
  lemma RecordsExactly(v: Validity, s: System, c: CallId)
    requires Invariant(v, s) && c in s.calls && s.calls[c].Recording?
    ensures var t, d, receipt := Step(v, s, AcquireRecord(c)), s.world.dir, s.calls[c].receipt;
            && (t.calls[c] == Storing(receipt) <==>
                  && s.lock == None && receipt.id in d.dispatches && receipt.id in d.requests
                  && receipt.requestSha == OfRequest(d.requests[receipt.id]) && v.receipt(d.requests[receipt.id], receipt)
                  && d.dispatches[receipt.id].startedAt <= receipt.observedAt
                  && (receipt.id in d.receipts ==> d.receipts[receipt.id] == receipt))
            && (t.calls[c] != Storing(receipt) ==> t.calls[c] == Done)
  {
    hide SendsOk, SharesAuthority, PhaseOk;
  }

  /** What it looked at becomes a receipt for the request, as of when it began. */
  lemma ObservesAlways(v: Validity, s: System, c: CallId, content: string)
    requires c in s.calls && s.calls[c].Observing?
    ensures var t, ph := Step(v, s, Observe(c, content)), s.calls[c];
            && t.calls == s.calls[c := Recording(Receipt(ph.request.id, OfRequest(ph.request), content, ph.current))]
            && t.world == s.world && t.lock == s.lock
  {}

  /** A call that has ended stays so, and one that was never made cannot fail. */
  lemma EndedStaysEnded(v: Validity, s: System, c: CallId)
    requires c !in s.calls || s.calls[c] == Done || s.calls[c] == Dead
    ensures Step(v, s, Kill(c)).calls == s.calls && Step(v, s, Kill(c)).world == s.world
    ensures c !in s.calls || s.calls[c] == Dead ==> Step(v, s, Fail(c)) == s && Step(v, s, Kill(c)).lock == s.lock
  {}

  /** A call can fail anywhere, which releases its lock, or be killed, which leaves it behind until an operator removes it. */
  lemma StopsAnywhere(v: Validity, s: System, c: CallId)
    requires c in s.calls && s.calls[c] != Done && s.calls[c] != Dead
    ensures var t := Step(v, s, Fail(c)); t.calls == s.calls[c := Done] && t.world == s.world && t.lock == (if s.lock == Some(c) then None else s.lock)
    ensures var t := Step(v, s, Kill(c)); t.calls == s.calls[c := Dead] && t.world == s.world && t.lock == s.lock
    ensures s.lock == Some(c) ==> var t := Step(v, s, Kill(c)); Step(v, t, ClearDeadLock) == t.(lock := None) && Step(v, s, ClearDeadLock) == s
  {}

  // ---------------------------------------------------------------- a publication that goes through

  /** Some actions lead from `s` to `t`. */
  ghost predicate Leads(v: Validity, s: System, t: System) { exists actions :: Run(v, s, actions) == t }

  lemma LeadsOn(v: Validity, s: System, t: System, a: Action)
    requires Leads(v, s, t)
    ensures Leads(v, s, Step(v, t, a))
  {
    var actions :| Run(v, s, actions) == t;
    assert (actions + [a])[..|actions|] == actions;
    assert Run(v, s, actions + [a]) == Step(v, t, a);
  }

  ghost predicate At(s: System, c: CallId, ph: Phase, w: World) { s.world == w && s.lock == None && c in s.calls && s.calls[c] == ph }

  lemma Enters(v: Validity, s: System, c: CallId, r: Request)
    requires c !in s.calls && s.lock == None
    requires SoundRequest(v, r.id, r) && r.issuedAt <= s.world.clock < r.expiresAt && r.id !in s.world.dir.requests
    ensures At(Step(v, s, StartPublish(c, r.id, r)), c, Enveloped(r, s.world.clock), s.world.(publishers := s.world.publishers + {c}))
  {
    EntersExactly(v, s, c, r.id, r);
  }

  lemma Claims(v: Validity, s: System, c: CallId, r: Request, at: int, w: World)
    requires At(s, c, Enveloped(r, at), w) && Unclaimed(v, w.dir, r) && r.id !in w.dir.requests
    ensures At(Step(v, Step(v, s, AcquireClaim(c)), WriteRequest(c)), c, Claimed(r, at), WithRequest(w, c, r))
  {
    hide Unclaimed;
  }

  lemma Dispatches(v: Validity, s: System, c: CallId, r: Request, at: int, w: World)
    requires At(s, c, Claimed(r, at), w) && DispatchAllowed(v, w.dir, r, at)
    ensures At(Step(v, Step(v, s, AcquireDispatch(c)), MarkDispatch(c)), c, Marked(r), WithDispatch(w, c, r, at))
  {
    hide DispatchAllowed;
  }

  lemma Sends(v: Validity, s: System, c: CallId, r: Request, content: string, w: World)
    requires At(s, c, Marked(r), w)
    ensures At(Step(v, Step(v, s, SendOnce(c)), Answer(c, content)), c, Recording(Receipt(r.id, OfRequest(r), content, w.clock)), WithSend(w, c, r))
  {}

  lemma Records(v: Validity, s: System, c: CallId, receipt: Receipt, w: World)
    requires At(s, c, Recording(receipt), w) && RecordAllowed(v, w.dir, receipt)
    ensures At(Step(v, Step(v, s, AcquireRecord(c)), StoreReceipt(c)), c, Done, WithReceipt(w, receipt))
  {
    hide RecordAllowed;
  }

  /** The world after a whole publication. */
  function Published(w: World, c: CallId, r: Request, content: string): World {
    WithReceipt(WithSend(WithDispatch(WithRequest(w.(publishers := w.publishers + {c}), c, r), c, r, w.clock), c, r),
                Receipt(r.id, OfRequest(r), content, w.clock))
  }

  /**
    From any reachable state with the lock free, a new `publish` of a sound, current request that
    clashes with none on disk can go through: it sends once, and its receipt is recorded.
  */
  lemma PublishesFromAnywhere(v: Validity, before: seq<Action>, c: CallId, r: Request, content: string)
    requires var s := Run(v, Start, before);
             && c !in s.calls && s.lock == None
             && SoundRequest(v, r.id, r) && r.issuedAt <= s.world.clock < r.expiresAt && r.id !in s.world.dir.requests
             && forall id :: id in s.world.dir.requests ==> !Clash(s.world.dir.requests[id], r)
    requires v.receipt(r, Receipt(r.id, OfRequest(r), content, Run(v, Start, before).world.clock))
    ensures var s := Run(v, Start, before);
            exists t :: Leads(v, s, t) && t.world == Published(s.world, c, r, content) && t.lock == None
  {
    hide Run, Step, Unclaimed, RequestValid;
    RunKeepsInvariant(v, before);
    var s := Run(v, Start, before);
    var w0 := s.world.(publishers := s.world.publishers + {c});
    var w1 := WithRequest(w0, c, r);
    var w2 := WithDispatch(w1, c, r, s.world.clock);
    var w3 := WithSend(w2, c, r);
    var receipt := Receipt(r.id, OfRequest(r), content, s.world.clock);
    Allowed(v, s, c, r, content);
    var s1 := Step(v, s, StartPublish(c, r.id, r));
    Enters(v, s, c, r);
    var s2 := Step(v, Step(v, s1, AcquireClaim(c)), WriteRequest(c));
    Claims(v, s1, c, r, s.world.clock, w0);
    var s3 := Step(v, Step(v, s2, AcquireDispatch(c)), MarkDispatch(c));
    Dispatches(v, s2, c, r, s.world.clock, w1);
    var s4 := Step(v, Step(v, s3, SendOnce(c)), Answer(c, content));
    Sends(v, s3, c, r, content, w2);
    var s5 := Step(v, Step(v, s4, AcquireRecord(c)), StoreReceipt(c));
    Records(v, s4, c, receipt, w3);
    hide At, WithRequest, WithDispatch, WithSend, WithReceipt, Invariant;
    NineSteps(v, s, c, r, content);
    AtMeans(s5, c, Done, WithReceipt(w3, receipt));
  }

  lemma AtMeans(s: System, c: CallId, ph: Phase, w: World)
    requires At(s, c, ph, w)
    ensures s.world == w && s.lock == None
  {}

  lemma NineSteps(v: Validity, s: System, c: CallId, r: Request, content: string)
    ensures var s1 := Step(v, s, StartPublish(c, r.id, r));
            var s3 := Step(v, Step(v, Step(v, Step(v, s1, AcquireClaim(c)), WriteRequest(c)), AcquireDispatch(c)), MarkDispatch(c));
            Leads(v, s, Step(v, Step(v, Step(v, Step(v, s3, SendOnce(c)), Answer(c, content)), AcquireRecord(c)), StoreReceipt(c)))
  {
    hide Run, Step, Leads;
    var actions := [StartPublish(c, r.id, r), AcquireClaim(c), WriteRequest(c), AcquireDispatch(c), MarkDispatch(c), SendOnce(c), Answer(c, content),
                    AcquireRecord(c), StoreReceipt(c)];
    LeadsNowhere(v, s);
    LeadsOn(v, s, s, actions[0]);
    var s1 := Step(v, s, actions[0]);
    LeadsOn(v, s, s1, actions[1]);
    var s2 := Step(v, s1, actions[1]);
    LeadsOn(v, s, s2, actions[2]);
    var s3 := Step(v, s2, actions[2]);
    LeadsOn(v, s, s3, actions[3]);
    var s4 := Step(v, s3, actions[3]);
    LeadsOn(v, s, s4, actions[4]);
    var s5 := Step(v, s4, actions[4]);
    LeadsOn(v, s, s5, actions[5]);
    var s6 := Step(v, s5, actions[5]);
    LeadsOn(v, s, s6, actions[6]);
    var s7 := Step(v, s6, actions[6]);
    LeadsOn(v, s, s7, actions[7]);
    LeadsOn(v, s, Step(v, s7, actions[7]), actions[8]);
  }

  lemma LeadsNowhere(v: Validity, s: System)
    ensures Leads(v, s, s)
  {
    assert Run(v, s, []) == s;
  }

  /** Nothing on the way is refused. */
  lemma Allowed(v: Validity, s: System, c: CallId, r: Request, content: string)
    requires Invariant(v, s) && SoundRequest(v, r.id, r) && r.issuedAt <= s.world.clock < r.expiresAt && r.id !in s.world.dir.requests
    requires forall id :: id in s.world.dir.requests ==> !Clash(s.world.dir.requests[id], r)
    requires v.receipt(r, Receipt(r.id, OfRequest(r), content, s.world.clock))
    ensures var at := s.world.clock;
            var w0 := s.world.(publishers := s.world.publishers + {c});
            var w1 := WithRequest(w0, c, r);
            var w3 := WithSend(WithDispatch(w1, c, r, at), c, r);
            && Unclaimed(v, w0.dir, r) && DispatchAllowed(v, w1.dir, r, at) && RecordAllowed(v, w3.dir, Receipt(r.id, OfRequest(r), content, at))
  {
    hide SendsOk, PhaseOk;
  }
}
