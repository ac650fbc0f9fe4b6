/** The operations of the claim protocol, each carried through by a thread that nobody disturbs, and what a thread does
that was disturbed. */
module HandoffUndisturbed {
  import opened Common
  import opened HandoffClaims
  import opened HandoffProtocol
  import opened HandoffSafety

  /** n store operations of thread t in a row. */
  function Proceeds(fp: string -> string, s: State, t: nat, id: string, n: nat): State
    decreases n
  {
    if n == 0 then s else Proceeds(fp, Step(fp, s, t, Proceed(id)), t, id, n - 1)
  }

  lemma ProceedsOne(fp: string -> string, s: State, t: nat, id: string, n: nat)
    requires n > 0
    ensures Proceeds(fp, s, t, id, n) == Proceeds(fp, Step(fp, s, t, Proceed(id)), t, id, n - 1)
  {
    hide Step;
  }

  lemma TransitionProceeds(fp: string -> string, s: State, t: nat, id: string)
    requires t in s.threads && InTransition(s.threads[t].pc)
    ensures Step(fp, s, t, Proceed(id)) == ProceedTransition(fp, s, t)
  {
    hide ProceedCreate, ProceedGenerate, ProceedTransition, ProceedArchive, Begin, Raised;
  }

  lemma {:induction false} RestingStays(fp: string -> string, s: State, t: nat, id: string, n: nat)
    requires t in s.threads && s.threads[t].pc.Resting?
    ensures Proceeds(fp, s, t, id, n) == s
    decreases n
  {
    if n > 0 {
      assert Step(fp, s, t, Proceed(id)) == s;
      hide Step;
      RestingStays(fp, s, t, id, n - 1);
    }
  }

  // ---------------------------------------------------------------- a transition

  function Unbound(b: Option<Binding>, clears: Option<string>): Option<Binding> {
    if b.Some? && clears == Some(b.value.claimId) then None else b
  }

  /** The rows behind a finished transition: the claim complete in the slot, and its record following it. */
  function Followed(fp: string -> string, store: Store, u: Claim): Store {
    var f := fp(u.candidate.key);
    Store(Some(u.(fingerprint := Some(f))), store.last, store.ledger[f := Record(u.candidate.key, Follows(u.state), Some(u.claimId))])
  }

  lemma SyncAlone(fp: string -> string, s: State, t: nat, th: Thread, store: Store, u: Claim, record: Record, clears: Option<string>,
                  id: string, n: nat)
    requires t in s.threads && th.pc == SyncLedger(u, record, clears) && n > 0
    requires record.key == u.candidate.key
    ensures Proceeds(fp, With(s, t, th, store, s.owners), t, id, n) ==
              With(s, t, Thread(Resting, Unbound(th.binding, clears)),
                   store.(ledger := store.ledger[fp(u.candidate.key) := Record(u.candidate.key, Follows(u.state), Some(u.claimId))]),
                   s.owners)
  {
    var s0 := With(s, t, th, store, s.owners);
    TransitionProceeds(fp, s0, t, id);
    ProceedsOne(fp, s0, t, id, n);
    RestingStays(fp, ProceedTransition(fp, s0, t), t, id, n - 1);
    hide Step, Proceeds;
  }

  /** The two store operations that enrich a claim. */
  lemma SwapStep(fp: string -> string, s: State, t: nat, b: Option<Binding>, store: Store, u: Claim, record: Record,
                 clears: Option<string>, id: string)
    requires t in s.threads && store.active == Some(u)
    ensures var e := u.(fingerprint := Some(fp(u.candidate.key)));
            var s1 := With(s, t, Thread(EnsureSwap(u, record, clears), b), store, s.owners);
            var s2 := With(s, t, Thread(EnsureSwapped(e, record, clears), b), store.(active := Some(e)), s.owners);
            && Step(fp, s1, t, Proceed(id)) == s2
            && Step(fp, s2, t, Proceed(id)) == With(s, t, Thread(SyncLedger(e, record, clears), b), store.(active := Some(e)), s.owners)
  {
    var e := u.(fingerprint := Some(fp(u.candidate.key)));
    TransitionProceeds(fp, With(s, t, Thread(EnsureSwap(u, record, clears), b), store, s.owners), t, id);
    TransitionProceeds(fp, With(s, t, Thread(EnsureSwapped(e, record, clears), b), store.(active := Some(e)), s.owners), t, id);
    hide Step;
  }

  /** The record of the claim has been read: the claim is enriched unless it is complete. */
  lemma ReloadStep(fp: string -> string, s: State, t: nat, pc: Pc, b: Option<Binding>, store: Store, u: Claim, record: Record,
                   clears: Option<string>)
    requires t in s.threads && record.key == u.candidate.key
    ensures Reloaded(fp, With(s, t, Thread(pc, b), store, s.owners), t, u, record, clears) ==
              With(s, t, Thread(if u.fingerprint == Some(fp(u.candidate.key)) then SyncLedger(u, record, clears)
                                else EnsureSwap(u, record, clears), b), store, s.owners)
  {
  }

  /** From there on: enrich the claim, then let the record follow it. */
  lemma ReloadedAlone(fp: string -> string, s: State, t: nat, b: Option<Binding>, store: Store, u: Claim, record: Record,
                      clears: Option<string>, id: string, n: nat)
    requires t in s.threads && n >= 3 && store.active == Some(u) && record.key == u.candidate.key
    ensures var pc := if u.fingerprint == Some(fp(u.candidate.key)) then SyncLedger(u, record, clears) else EnsureSwap(u, record, clears);
            Proceeds(fp, With(s, t, Thread(pc, b), store, s.owners), t, id, n)
              == With(s, t, Thread(Resting, Unbound(b, clears)), Followed(fp, store, u), s.owners)
  {
    hide Step, Proceeds, With, Unbound;
    var e := u.(fingerprint := Some(fp(u.candidate.key)));
    if e == u {
      SyncAlone(fp, s, t, Thread(SyncLedger(u, record, clears), b), store, u, record, clears, id, n);
    } else {
      var enriched := store.(active := Some(e));
      SwapStep(fp, s, t, b, store, u, record, clears, id);
      ProceedsOne(fp, With(s, t, Thread(EnsureSwap(u, record, clears), b), store, s.owners), t, id, n);
      ProceedsOne(fp, With(s, t, Thread(EnsureSwapped(e, record, clears), b), enriched, s.owners), t, id, n - 1);
      SyncAlone(fp, s, t, Thread(SyncLedger(e, record, clears), b), enriched, e, record, clears, id, n - 2);
    }
  }

  lemma EnsureStep(fp: string -> string, s: State, t: nat, b: Option<Binding>, store: Store, u: Claim, clears: Option<string>, id: string)
    requires t in s.threads && store.active == Some(u)
    ensures var f := fp(u.candidate.key);
            var s0 := With(s, t, Thread(EnsureActive(u, clears), b), store, s.owners);
            var s1 := With(s, t, Thread(EnsureLedger(u, clears), b), store, s.owners);
            && Step(fp, s0, t, Proceed(id)) == s1
            && Step(fp, s1, t, Proceed(id)) ==
                 if f in store.ledger then Reloaded(fp, s1, t, u, store.ledger[f], clears)
                 else With(s, t, Thread(EnsureBootstrap(u, clears), b), store, s.owners)
  {
    TransitionProceeds(fp, With(s, t, Thread(EnsureActive(u, clears), b), store, s.owners), t, id);
    TransitionProceeds(fp, With(s, t, Thread(EnsureLedger(u, clears), b), store, s.owners), t, id);
    hide Step, Reloaded;
  }

  lemma BootstrapStep(fp: string -> string, s: State, t: nat, b: Option<Binding>, store: Store, u: Claim, clears: Option<string>, id: string)
    requires t in s.threads && fp(u.candidate.key) !in store.ledger
    ensures var record := Record(u.candidate.key, RecoveredActiveClaim, Some(u.claimId));
            var recorded := store.(ledger := store.ledger[fp(u.candidate.key) := record]);
            var s2 := With(s, t, Thread(EnsureBootstrap(u, clears), b), store, s.owners);
            var s3 := With(s, t, Thread(EnsureReload(u, clears), b), recorded, s.owners);
            && Step(fp, s2, t, Proceed(id)) == s3
            && Step(fp, s3, t, Proceed(id)) == Reloaded(fp, s3, t, u, record, clears)
  {
    var record := Record(u.candidate.key, RecoveredActiveClaim, Some(u.claimId));
    var recorded := store.(ledger := store.ledger[fp(u.candidate.key) := record]);
    TransitionProceeds(fp, With(s, t, Thread(EnsureBootstrap(u, clears), b), store, s.owners), t, id);
    TransitionProceeds(fp, With(s, t, Thread(EnsureReload(u, clears), b), recorded, s.owners), t, id);
    hide Step, Reloaded;
  }

  lemma FollowedAgain(fp: string -> string, store: Store, u: Claim, record: Record)
    ensures Followed(fp, store.(ledger := store.ledger[fp(u.candidate.key) := record]), u) == Followed(fp, store, u)
  {
    var f := fp(u.candidate.key);
    var last := Record(u.candidate.key, Follows(u.state), Some(u.claimId));
    assert store.ledger[f := record][f := last] == store.ledger[f := last];
  }

  /** The claim in the slot is completed, and its record, new or old, follows it. */
  lemma EnsureAlone(fp: string -> string, s: State, t: nat, b: Option<Binding>, store: Store, u: Claim, clears: Option<string>,
                    id: string, n: nat)
    requires t in s.threads && n >= 7 && store.active == Some(u)
    requires fp(u.candidate.key) in store.ledger ==> store.ledger[fp(u.candidate.key)].key == u.candidate.key
    ensures Proceeds(fp, With(s, t, Thread(EnsureActive(u, clears), b), store, s.owners), t, id, n)
              == With(s, t, Thread(Resting, Unbound(b, clears)), Followed(fp, store, u), s.owners)
  {
    hide Step, Proceeds, Reloaded, With, Unbound, Followed;
    var f := fp(u.candidate.key);
    EnsureStep(fp, s, t, b, store, u, clears, id);
    ProceedsOne(fp, With(s, t, Thread(EnsureActive(u, clears), b), store, s.owners), t, id, n);
    ProceedsOne(fp, With(s, t, Thread(EnsureLedger(u, clears), b), store, s.owners), t, id, n - 1);
    if f in store.ledger {
      ReloadStep(fp, s, t, EnsureLedger(u, clears), b, store, u, store.ledger[f], clears);
      ReloadedAlone(fp, s, t, b, store, u, store.ledger[f], clears, id, n - 2);
    } else {
      var record := Record(u.candidate.key, RecoveredActiveClaim, Some(u.claimId));
      var recorded := store.(ledger := store.ledger[f := record]);
      BootstrapStep(fp, s, t, b, store, u, clears, id);
      ProceedsOne(fp, With(s, t, Thread(EnsureBootstrap(u, clears), b), store, s.owners), t, id, n - 2);
      ProceedsOne(fp, With(s, t, Thread(EnsureReload(u, clears), b), recorded, s.owners), t, id, n - 3);
      ReloadStep(fp, s, t, EnsureReload(u, clears), b, recorded, u, record, clears);
      ReloadedAlone(fp, s, t, b, recorded, u, record, clears, id, n - 4);
      FollowedAgain(fp, store, u, record);
    }
  }

  lemma PutSteps(fp: string -> string, s: State, t: nat, b: Option<Binding>, v: Claim, clears: Option<string>, id: string)
    requires t in s.threads
    ensures var put := s.store.(active := Some(v));
            var s0 := With(s, t, Thread(PutTransition(v, clears), b), s.store, s.owners);
            var s1 := With(s, t, Thread(ReloadTransition(v, clears), b), put, s.owners);
            && Step(fp, s0, t, Proceed(id)) == s1
            && Step(fp, s1, t, Proceed(id)) == With(s, t, Thread(EnsureActive(v, clears), b), put, s.owners)
  {
    TransitionProceeds(fp, With(s, t, Thread(PutTransition(v, clears), b), s.store, s.owners), t, id);
    TransitionProceeds(fp, With(s, t, Thread(ReloadTransition(v, clears), b), s.store.(active := Some(v)), s.owners), t, id);
    hide Step;
  }

  /** Left alone, a transition ends with the claim complete in its new state, its ledger record following it, and, unless
  the new state is CLAIMED, its binding spent. */
  lemma UndisturbedTransition(fp: string -> string, s: State, t: nat, u: Claim, target: ClaimState, id: string)
    requires t in s.threads && s.threads[t].pc.Resting? && Owned(s.owners, u)
    requires fp(u.candidate.key) in s.store.ledger ==> s.store.ledger[fp(u.candidate.key)].key == u.candidate.key
    ensures var f, b := fp(u.candidate.key), s.threads[t].binding;
            Proceeds(fp, Step(fp, s, t, BeginTransition(u, target)), t, id, 9)
              == State(Store(Some(u.(state := target, fingerprint := Some(f))), s.store.last,
                             s.store.ledger[f := Record(u.candidate.key, Follows(target), Some(u.claimId))]),
                       s.threads[t := Thread(Resting, if b.Some? && b.value.claimId == u.claimId && target != Claimed then None else b)],
                       s.emitted, s.owners)
  {
    var v, clears, b := u.(state := target), if target == Claimed then None else Some(u.claimId), s.threads[t].binding;
    var put := s.store.(active := Some(v));
    assert Step(fp, s, t, BeginTransition(u, target)) == With(s, t, Thread(PutTransition(v, clears), b), s.store, s.owners);
    hide Step, Proceeds;
    PutSteps(fp, s, t, b, v, clears, id);
    ProceedsOne(fp, With(s, t, Thread(PutTransition(v, clears), b), s.store, s.owners), t, id, 9);
    ProceedsOne(fp, With(s, t, Thread(ReloadTransition(v, clears), b), put, s.owners), t, id, 8);
    EnsureAlone(fp, s, t, b, put, v, clears, id, 7);
  }

  /** Left alone, the bootstrap completes the claim that it found and lets the ledger follow it. */
  lemma UndisturbedBootstrap(fp: string -> string, s: State, t: nat, u: Claim, id: string)
    requires t in s.threads && s.threads[t].pc.Resting? && s.store.active == Some(u)
    requires fp(u.candidate.key) in s.store.ledger ==> s.store.ledger[fp(u.candidate.key)].key == u.candidate.key
    ensures var f := fp(u.candidate.key);
            Proceeds(fp, Step(fp, s, t, BeginBootstrap), t, id, 7)
              == s.(store := Store(Some(u.(fingerprint := Some(f))), s.store.last,
                                   s.store.ledger[f := Record(u.candidate.key, Follows(u.state), Some(u.claimId))]))
  {
    var b := s.threads[t].binding;
    assert Step(fp, s, t, BeginBootstrap) == With(s, t, Thread(EnsureActive(u, None), b), s.store, s.owners);
    hide Step, Proceeds;
    EnsureAlone(fp, s, t, b, s.store, u, None, id, 7);
    assert s.threads[t := Thread(Resting, b)] == s.threads;
  }

  // ---------------------------------------------------------------- archiving

  lemma ArchiveProceeds(fp: string -> string, s: State, t: nat, id: string)
    requires t in s.threads && InArchive(s.threads[t].pc)
    ensures Step(fp, s, t, Proceed(id)) == ProceedArchive(s, t)
  {
    hide ProceedCreate, ProceedGenerate, ProceedTransition, ProceedArchive, Begin, Raised;
  }

  lemma ArchivePuts(s: State, t: nat, b: Option<Binding>, c: Claim)
    requires t in s.threads
    ensures ProceedArchive(With(s, t, Thread(PutLast(c), b), s.store, s.owners), t)
            == With(s, t, Thread(ReloadLast(c), b), s.store.(last := Some(c)), s.owners)
  {
  }

  lemma ArchiveReloads(s: State, t: nat, b: Option<Binding>, c: Claim, store: Store)
    requires t in s.threads && store.last == Some(c)
    ensures ProceedArchive(With(s, t, Thread(ReloadLast(c), b), store, s.owners), t)
            == With(s, t, Thread(DeleteActive, b), store, s.owners)
  {
  }

  lemma ArchiveDeletes(s: State, t: nat, b: Option<Binding>, store: Store)
    requires t in s.threads
    ensures ProceedArchive(With(s, t, Thread(DeleteActive, b), store, s.owners), t)
            == With(s, t, Thread(Resting, b), store.(active := None), s.owners)
  {
  }

  lemma ArchiveSteps(fp: string -> string, s: State, t: nat, b: Option<Binding>, c: Claim, id: string)
    requires t in s.threads
    ensures var last := s.store.(last := Some(c));
            var s0 := With(s, t, Thread(PutLast(c), b), s.store, s.owners);
            var s1 := With(s, t, Thread(ReloadLast(c), b), last, s.owners);
            var s2 := With(s, t, Thread(DeleteActive, b), last, s.owners);
            && Step(fp, s0, t, Proceed(id)) == s1 && Step(fp, s1, t, Proceed(id)) == s2
            && Step(fp, s2, t, Proceed(id)) == With(s, t, Thread(Resting, b), last.(active := None), s.owners)
  {
    var last := s.store.(last := Some(c));
    ArchiveProceeds(fp, With(s, t, Thread(PutLast(c), b), s.store, s.owners), t, id);
    ArchiveProceeds(fp, With(s, t, Thread(ReloadLast(c), b), last, s.owners), t, id);
    ArchiveProceeds(fp, With(s, t, Thread(DeleteActive, b), last, s.owners), t, id);
    hide Step, With, ProceedArchive;
    ArchivePuts(s, t, b, c);
    ArchiveReloads(s, t, b, c, last);
    ArchiveDeletes(s, t, b, last);
  }

  /** Left alone, archiving keeps the claim as the last one and frees the slot. */
  lemma UndisturbedArchive(fp: string -> string, s: State, t: nat, c: Claim, id: string)
    requires t in s.threads && s.threads[t].pc.Resting?
    ensures Proceeds(fp, Step(fp, s, t, BeginArchive(c)), t, id, 3) == s.(store := Store(None, Some(c), s.store.ledger))
  {
    var b, last := s.threads[t].binding, s.store.(last := Some(c));
    assert Step(fp, s, t, BeginArchive(c)) == With(s, t, Thread(PutLast(c), b), s.store, s.owners);
    assert s.threads[t := Thread(Resting, b)] == s.threads;
    assert With(s, t, Thread(Resting, b), last.(active := None), s.owners) == s.(store := Store(None, Some(c), s.store.ledger));
    hide Step, With, Proceeds;
    ArchiveSteps(fp, s, t, b, c, id);
    ProceedsOne(fp, With(s, t, Thread(PutLast(c), b), s.store, s.owners), t, id, 3);
    ProceedsOne(fp, With(s, t, Thread(ReloadLast(c), b), last, s.owners), t, id, 2);
    ProceedsOne(fp, With(s, t, Thread(DeleteActive, b), last, s.owners), t, id, 1);
    NoneLeft(fp, With(s, t, Thread(Resting, b), last.(active := None), s.owners), t, id);
  }

  lemma NoneLeft(fp: string -> string, s: State, t: nat, id: string)
    ensures Proceeds(fp, s, t, id, 0) == s
  {
  }

  // ---------------------------------------------------------------- a claim that does not come about

  /** A key that the ledger knows, whoever it is recorded for, is not claimed. */
  lemma KnownKeyIsRefused(fp: string -> string, s: State, t: nat, c: Candidate, id: string)
    requires t in s.threads && s.threads[t].pc.Resting? && fp(c.key) in s.store.ledger
    ensures Proceeds(fp, Step(fp, s, t, BeginCreate(c)), t, id, 1) == s.(threads := s.threads[t := Thread(Resting, None)])
  {
    var s0 := With(s, t, Thread(Reserve(c), None), s.store, s.owners);
    assert Step(fp, s, t, BeginCreate(c)) == s0;
    CreateProceeds(fp, s0, t, id);
    hide Step;
    ProceedsOne(fp, s0, t, id, 1);
    assert s0.threads[t := Thread(Resting, None)] == s.threads[t := Thread(Resting, None)];
  }

  /** With the slot taken, the reservation becomes a conflict and the slot stays. */
  lemma TakenSlotConflicts(fp: string -> string, s: State, t: nat, c: Candidate, id: string)
    requires t in s.threads && s.threads[t].pc.Resting?
    requires s.store.active.Some? && fp(c.key) !in s.store.ledger && id !in s.owners
    ensures Proceeds(fp, Step(fp, s, t, BeginCreate(c)), t, id, 4)
              == State(s.store.(ledger := s.store.ledger[fp(c.key) := Record(c.key, ActiveClaimConflict, None)]),
                       s.threads[t := Thread(Resting, None)], s.emitted, s.owners[id := c.key])
  {
    var f, r := fp(c.key), Record(c.key, Reserved, None);
    var reserved := s.store.(ledger := s.store.ledger[f := r]);
    var s0 := With(s, t, Thread(Reserve(c), None), s.store, s.owners);
    var s1 := With(s, t, Thread(VerifyReservation(c), None), reserved, s.owners);
    var s2 := With(s, t, Thread(TakeSlot(c, r), None), reserved, s.owners);
    var s3 := With(s, t, Thread(RecordFailure(r, ActiveClaimConflict), None), reserved, s.owners[id := c.key]);
    assert Step(fp, s, t, BeginCreate(c)) == s0;
    ReserveStep(fp, s, t, c, id);
    CreateProceeds(fp, s2, t, id);
    CreateProceeds(fp, s3, t, id);
    assert ProceedCreate(fp, s2, t, id) == s3;
    hide Step;
    ProceedsOne(fp, s0, t, id, 4);
    ProceedsOne(fp, s1, t, id, 3);
    ProceedsOne(fp, s2, t, id, 2);
    ProceedsOne(fp, s3, t, id, 1);
    assert s.store.ledger[f := r][f := Record(c.key, ActiveClaimConflict, None)] == s.store.ledger[f := Record(c.key, ActiveClaimConflict, None)];
  }

  /** An exception while the slot is taken or read back is recorded as a failed claim. */
  lemma RaisedClaimIsRecorded(fp: string -> string, s: State, t: nat, saved: Record, id: string)
    requires t in s.threads && (s.threads[t].pc.TakeSlot? || s.threads[t].pc.LoadTaken?) && s.threads[t].pc.saved == saved
    ensures Step(fp, Step(fp, s, t, Raise), t, Proceed(id))
              == State(s.store.(ledger := s.store.ledger[fp(saved.key) := Record(saved.key, ClaimCreationError, saved.claimId)]),
                       s.threads[t := Thread(Resting, s.threads[t].binding)], s.emitted, s.owners)
  {
    var s1 := Step(fp, s, t, Raise);
    assert s1 == Goto(s, t, RecordFailure(saved, ClaimCreationError));
    CreateProceeds(fp, s1, t, id);
    hide Step;
  }

  /** A thread that dies or raises anywhere on the way to an order id has lost its claim for good. */
  lemma CutReleaseIsSpent(fp: string -> string, s: State, t: nat)
    requires t in s.threads
    ensures Step(fp, s, t, Die) == s.(threads := s.threads[t := Thread(Resting, None)])
    ensures InGenerate(s.threads[t].pc) ==> Step(fp, s, t, Raise) == s.(threads := s.threads[t := Thread(Resting, None)])
  {
  }

  // ---------------------------------------------------------------- a disturbed thread

  predicate SlotHolds(store: Store, c: Claim) {
    store.active.Some? && store.active.value.claimId == c.claimId && store.active.value.state == c.state
  }

  /** The thread is about to read back rows that are not, or no more, its own. */
  predicate ReadsOther(fp: string -> string, s: State, t: nat)
    requires t in s.threads
  {
    match s.threads[t].pc
    case VerifyReservation(c) => fp(c.key) !in s.store.ledger || s.store.ledger[fp(c.key)].key != c.key
    case LoadTaken(own, saved) =>
      s.store.active.None? || s.store.active.value.claimId != own || s.store.active.value.state != Claimed
    case ReloadEnriched(c, saved) => !SlotHolds(s.store, c)
    case VerifyClaimed(c, saved) =>
      fp(saved.key) !in s.store.ledger || s.store.ledger[fp(saved.key)].key != saved.key
      || s.store.ledger[fp(saved.key)].state != Follows(Claimed) || c.fingerprint != Some(fp(c.candidate.key))
    case ReloadTransition(c, clears) => !SlotHolds(s.store, c)
    case EnsureActive(c, clears) => !SlotHolds(s.store, c)
    case EnsureLedger(c, clears) =>
      fp(c.candidate.key) in s.store.ledger && s.store.ledger[fp(c.candidate.key)].key != c.candidate.key
    case EnsureReload(c, clears) =>
      fp(c.candidate.key) !in s.store.ledger || s.store.ledger[fp(c.candidate.key)].key != c.candidate.key
    case EnsureSwap(c, record, clears) => s.store.active != Some(c)
    case EnsureSwapped(c, record, clears) => !SlotHolds(s.store, c)
    case ReloadLast(c) => s.store.last.None? || s.store.last.value.claimId != c.claimId
    case CheckActive => s.threads[t].binding.Some? && !OwnsActive(fp, s.store, s.threads[t].binding.value)
    case CheckLedger => s.threads[t].binding.Some? && !OwnsLedger(s.store, s.threads[t].binding.value)
    case RecheckActive => s.threads[t].binding.Some? && !OwnsActive(fp, s.store, s.threads[t].binding.value)
    case _ => false
  }

  /** Then it changes no row and releases nothing: it rests, with the binding that an exception there would leave, but
  for a claim that it lost in the slot, which it goes on to record as failed. */
  lemma DisturbedStops(fp: string -> string, s: State, t: nat, id: string)
    requires t in s.threads && ReadsOther(fp, s, t)
    ensures var s', pc := Step(fp, s, t, Proceed(id)), s.threads[t].pc;
            && s'.store == s.store && s'.emitted == s.emitted && s'.owners == s.owners
            && s' == Step(fp, s, t, Raise)
            && s'.threads[t].pc == (if pc.LoadTaken? then RecordFailure(pc.saved, ClaimCreationError) else Resting)
            && (InGenerate(pc) ==> s'.threads[t].binding == None)
  {
    hide OwnsActive, OwnsLedger;
    var pc := s.threads[t].pc;
    if InTransition(pc) {
      TransitionProceeds(fp, s, t, id);
    } else if InArchive(pc) {
      ArchiveProceeds(fp, s, t, id);
    } else if InGenerate(pc) {
      GenerateProceeds(fp, s, t, id);
    } else {
      CreateProceeds(fp, s, t, id);
    }
  }
}
