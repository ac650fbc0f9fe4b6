/** At most one submission per candidate, across every interleaving, exception and crash. */
module HandoffSafety {
  import opened Common
  import opened HandoffClaims
  import opened HandoffProtocol

  // ---------------------------------------------------------------- the right to submit

  predicate InCreate(pc: Pc) {
    || pc.Reserve? || pc.VerifyReservation? || pc.TakeSlot? || pc.LoadTaken? || pc.RecordFailure?
    || pc.PersistEnriched? || pc.ReloadEnriched? || pc.RecordClaimed? || pc.VerifyClaimed?
  }

  /** The right to submit under a fingerprint: born when the ledger reservation is inserted, carried by
  create_claim and then by the binding, spent by generate_order_link_id. */
  function Token(fp: string -> string, th: Thread): Option<string> {
    match th.pc
    case VerifyReservation(c) => Some(fp(c.key))
    case TakeSlot(_, saved) => Some(fp(saved.key))
    case LoadTaken(_, saved) => Some(fp(saved.key))
    case PersistEnriched(_, saved) => Some(fp(saved.key))
    case ReloadEnriched(_, saved) => Some(fp(saved.key))
    case RecordClaimed(_, saved) => Some(fp(saved.key))
    case VerifyClaimed(_, saved) => Some(fp(saved.key))
    case _ => if th.binding.Some? then Some(th.binding.value.fingerprint) else None
  }

  /** The claim a thread has in hand carries the key its id was drawn for. */
  predicate HandOk(owners: map<string, string>, pc: Pc) {
    match pc
    case TakeSlot(c, saved) => saved.key == c.key
    case LoadTaken(claimId, saved) => claimId in owners && owners[claimId] == saved.key
    case PersistEnriched(c, saved) => Owned(owners, c) && c.candidate.key == saved.key
    case ReloadEnriched(c, saved) => Owned(owners, c) && c.candidate.key == saved.key
    case RecordClaimed(c, saved) => Owned(owners, c) && c.candidate.key == saved.key
    case VerifyClaimed(c, saved) => Owned(owners, c) && c.candidate.key == saved.key
    case PutTransition(c, _) => Owned(owners, c)
    case ReloadTransition(c, _) => Owned(owners, c)
    case EnsureActive(c, _) => Owned(owners, c)
    case EnsureLedger(c, _) => Owned(owners, c)
    case EnsureBootstrap(c, _) => Owned(owners, c)
    case EnsureReload(c, _) => Owned(owners, c)
    case EnsureSwap(c, _, _) => Owned(owners, c)
    case EnsureSwapped(c, _, _) => Owned(owners, c)
    case SyncLedger(c, _, _) => Owned(owners, c)
    case _ => true
  }

  predicate ThreadOk(fp: string -> string, owners: map<string, string>, th: Thread) {
    && HandOk(owners, th.pc)
    && (InCreate(th.pc) ==> th.binding == None)
    && (th.binding.Some? ==>
          var b := th.binding.value;
          b.claimId in owners && owners[b.claimId] == b.key && b.fingerprint == fp(b.key))
  }

  predicate ActiveOk(s: State) {
    s.store.active.Some? ==> Owned(s.owners, s.store.active.value)
  }

  predicate WasEmitted(fp: string -> string, emitted: seq<Emission>, f: string) {
    exists i | 0 <= i < |emitted| :: fp(emitted[i].key) == f
  }

  /** No two emissions for keys with one fingerprint, and each behind a ledger record. */
  predicate EmittedOnce(fp: string -> string, s: State) {
    && (forall i, j | 0 <= i < j < |s.emitted| :: fp(s.emitted[i].key) != fp(s.emitted[j].key))
    && (forall i | 0 <= i < |s.emitted| :: fp(s.emitted[i].key) in s.store.ledger)
  }

  predicate TokenOk(fp: string -> string, s: State, th: Thread) {
    var f := Token(fp, th);
    f.Some? ==> f.value in s.store.ledger && !WasEmitted(fp, s.emitted, f.value)
  }

  predicate Apart(fp: string -> string, a: Thread, b: Thread) {
    Token(fp, a).None? || Token(fp, a) != Token(fp, b)
  }

  predicate Inv(fp: string -> string, s: State) {
    && ActiveOk(s)
    && EmittedOnce(fp, s)
    && (forall t <- s.threads :: ThreadOk(fp, s.owners, s.threads[t]) && TokenOk(fp, s, s.threads[t]))
    && (forall t, u | t in s.threads && u in s.threads && t != u :: Apart(fp, s.threads[t], s.threads[u]))
  }

  // ---------------------------------------------------------------- steps that gain no right

  predicate Extends(owners: map<string, string>, owners': map<string, string>) {
    forall id <- owners :: id in owners' && owners'[id] == owners[id]
  }

  /** Only thread t has moved; nothing was emitted, no ledger record or owner was lost. */
  predicate Moves(s: State, s': State, t: nat)
    requires t in s.threads
  {
    && t in s'.threads && s'.threads == s.threads[t := s'.threads[t]]
    && s.store.ledger.Keys <= s'.store.ledger.Keys
    && Extends(s.owners, s'.owners)
  }

  predicate Quiet(fp: string -> string, s: State, s': State, t: nat)
    requires t in s.threads
  {
    && Moves(s, s', t) && ActiveOk(s') && s'.emitted == s.emitted
    && ThreadOk(fp, s'.owners, s'.threads[t])
    && Token(fp, s'.threads[t]) in {None, Token(fp, s.threads[t])}
  }

  lemma OthersStayOk(fp: string -> string, s: State, s': State, t: nat, u: nat)
    requires Inv(fp, s) && t in s.threads && Moves(s, s', t) && u in s.threads && u != t
    ensures u in s'.threads && s'.threads[u] == s.threads[u] && ThreadOk(fp, s'.owners, s'.threads[u])
  {
    hide Token, Apart, EmittedOnce, TokenOk;
    var th := s.threads[u];
    assert ThreadOk(fp, s.owners, th);
  }

  lemma QuietKeeps(fp: string -> string, s: State, s': State, t: nat)
    requires Inv(fp, s) && t in s.threads && Quiet(fp, s, s', t)
    ensures Inv(fp, s')
  {
    hide ThreadOk, Token, Owned, Extends;
    forall u | u in s'.threads ensures ThreadOk(fp, s'.owners, s'.threads[u]) && TokenOk(fp, s', s'.threads[u]) {
      if u != t { OthersStayOk(fp, s, s', t, u); }
      assert TokenOk(fp, s, s.threads[u]);
    }
    forall u, v | u in s'.threads && v in s'.threads && u != v ensures Apart(fp, s'.threads[u], s'.threads[v]) {
      assert Apart(fp, s.threads[u], s.threads[v]);
    }
  }

  lemma ActiveIsOk(fp: string -> string, s: State)
    requires Inv(fp, s)
    ensures ActiveOk(s)
  {
  }

  lemma ThreadIsOk(fp: string -> string, s: State, t: nat)
    requires Inv(fp, s) && t in s.threads
    ensures ThreadOk(fp, s.owners, s.threads[t]) && TokenOk(fp, s, s.threads[t])
  {
  }

  lemma ClaimingQuiet(fp: string -> string, s: State, t: nat, claimId: string)
    requires t in s.threads && ActiveOk(s) && ThreadOk(fp, s.owners, s.threads[t])
    requires var pc := s.threads[t].pc; pc.VerifyReservation? || pc.TakeSlot? || pc.LoadTaken? || pc.RecordFailure?
    ensures Quiet(fp, s, ProceedCreate(fp, s, t, claimId), t)
  {
  }

  lemma EnrichingQuiet(fp: string -> string, s: State, t: nat, claimId: string)
    requires t in s.threads && ActiveOk(s) && ThreadOk(fp, s.owners, s.threads[t])
    requires var pc := s.threads[t].pc; pc.PersistEnriched? || pc.ReloadEnriched? || pc.RecordClaimed? || pc.VerifyClaimed?
    ensures Quiet(fp, s, ProceedCreate(fp, s, t, claimId), t)
  {
  }

  lemma CreateQuiet(fp: string -> string, s: State, t: nat, claimId: string)
    requires t in s.threads && ActiveOk(s) && ThreadOk(fp, s.owners, s.threads[t])
    requires InCreate(s.threads[t].pc) && !s.threads[t].pc.Reserve?
    ensures Quiet(fp, s, ProceedCreate(fp, s, t, claimId), t)
  {
    hide Quiet, ActiveOk, ThreadOk, ProceedCreate;
    var pc := s.threads[t].pc;
    if pc.VerifyReservation? || pc.TakeSlot? || pc.LoadTaken? || pc.RecordFailure? {
      ClaimingQuiet(fp, s, t, claimId);
    } else {
      EnrichingQuiet(fp, s, t, claimId);
    }
  }

  /** The rows after a store operation of a transition: only the active claim and the ledger may differ. */
  predicate RowsMove(s: State, s1: State) {
    && s1.threads == s.threads && s1.emitted == s.emitted && s1.owners == s.owners
    && s.store.ledger.Keys <= s1.store.ledger.Keys && ActiveOk(s1)
  }

  lemma GotoQuiet(fp: string -> string, s: State, s1: State, t: nat, pc: Pc)
    requires t in s.threads && ThreadOk(fp, s.owners, s.threads[t]) && !InCreate(s.threads[t].pc)
    requires RowsMove(s, s1) && HandOk(s.owners, pc) && !InCreate(pc)
    ensures Quiet(fp, s, Goto(s1, t, pc), t)
  {
  }

  lemma EndQuiet(fp: string -> string, s: State, s1: State, t: nat, clears: Option<string>)
    requires t in s.threads && ThreadOk(fp, s.owners, s.threads[t]) && !InCreate(s.threads[t].pc) && RowsMove(s, s1)
    ensures Quiet(fp, s, EndTransition(s1, t, clears), t)
  {
  }

  lemma ReloadedQuiet(fp: string -> string, s: State, t: nat, current: Claim, record: Record, clears: Option<string>)
    requires t in s.threads && ActiveOk(s) && ThreadOk(fp, s.owners, s.threads[t]) && !InCreate(s.threads[t].pc)
    requires Owned(s.owners, current)
    ensures Quiet(fp, s, Reloaded(fp, s, t, current, record, clears), t)
  {
    GotoQuiet(fp, s, s, t, SyncLedger(current, record, clears));
    GotoQuiet(fp, s, s, t, EnsureSwap(current, record, clears));
    EndQuiet(fp, s, s, t, clears);
    hide Quiet, ThreadOk, ActiveOk, Goto, EndTransition;
  }

  lemma EnsureQuiet(fp: string -> string, s: State, t: nat)
    requires t in s.threads && ActiveOk(s) && ThreadOk(fp, s.owners, s.threads[t])
    requires s.threads[t].pc.EnsureLedger? || s.threads[t].pc.EnsureBootstrap? || s.threads[t].pc.EnsureReload?
    ensures Quiet(fp, s, ProceedTransition(fp, s, t), t)
  {
    var pc := s.threads[t].pc;
    assert Owned(s.owners, pc.claim) && RowsMove(s, s);
    hide Quiet, ThreadOk, ActiveOk, Goto, EndTransition, Reloaded, RowsMove, Owned;
    var f := fp(pc.claim.candidate.key);
    if pc.EnsureBootstrap? {
      var bootstrap := Record(pc.claim.candidate.key, RecoveredActiveClaim, Some(pc.claim.claimId));
      PutRecordMoves(fp, s, bootstrap);
      GotoQuiet(fp, s, if f in s.store.ledger then s else PutRecord(fp, s, bootstrap), t, EnsureReload(pc.claim, pc.clears));
    } else if f in s.store.ledger {
      ReloadedQuiet(fp, s, t, pc.claim, s.store.ledger[f], pc.clears);
    } else if pc.EnsureLedger? {
      GotoQuiet(fp, s, s, t, EnsureBootstrap(pc.claim, pc.clears));
    } else {
      EndQuiet(fp, s, s, t, pc.clears);
    }
  }

  lemma PutRecordMoves(fp: string -> string, s: State, r: Record)
    requires ActiveOk(s)
    ensures RowsMove(s, PutRecord(fp, s, r))
  {
  }

  lemma PutActiveMoves(s: State, c: Claim)
    requires Owned(s.owners, c)
    ensures RowsMove(s, PutActive(s, c))
  {
  }

  lemma TransitionPutQuiet(fp: string -> string, s: State, t: nat)
    requires t in s.threads && ActiveOk(s) && ThreadOk(fp, s.owners, s.threads[t])
    requires s.threads[t].pc.PutTransition? || s.threads[t].pc.ReloadTransition? || s.threads[t].pc.EnsureActive?
    ensures Quiet(fp, s, ProceedTransition(fp, s, t), t)
  {
    var pc := s.threads[t].pc;
    assert HandOk(s.owners, pc) && RowsMove(s, s);
    var active := s.store.active;
    assert active.Some? ==> Owned(s.owners, active.value);
    hide Quiet, ThreadOk, ActiveOk, Goto, EndTransition, RowsMove, Owned;
    if pc.PutTransition? {
      PutActiveMoves(s, pc.updated);
      GotoQuiet(fp, s, PutActive(s, pc.updated), t, ReloadTransition(pc.updated, pc.clears));
    } else if active.Some? {
      GotoQuiet(fp, s, s, t, if pc.EnsureActive? then EnsureLedger(active.value, pc.clears) else EnsureActive(active.value, pc.clears));
      EndQuiet(fp, s, s, t, pc.clears);
    } else {
      EndQuiet(fp, s, s, t, pc.clears);
    }
  }

  lemma SyncQuiet(fp: string -> string, s: State, t: nat)
    requires t in s.threads && ActiveOk(s) && ThreadOk(fp, s.owners, s.threads[t])
    requires s.threads[t].pc.EnsureSwap? || s.threads[t].pc.EnsureSwapped? || s.threads[t].pc.SyncLedger?
    ensures Quiet(fp, s, ProceedTransition(fp, s, t), t)
  {
    var pc := s.threads[t].pc;
    assert HandOk(s.owners, pc) && RowsMove(s, s);
    var active := s.store.active;
    assert active.Some? ==> Owned(s.owners, active.value);
    hide Quiet, ThreadOk, ActiveOk, Goto, EndTransition, RowsMove;
    EndQuiet(fp, s, s, t, pc.clears);
    if pc.EnsureSwap? {
      var enriched := pc.claim.(fingerprint := Some(fp(pc.claim.candidate.key)));
      PutActiveMoves(s, enriched);
      GotoQuiet(fp, s, PutActive(s, enriched), t, EnsureSwapped(enriched, pc.record, pc.clears));
    } else if pc.SyncLedger? {
      var r := pc.record.(state := Follows(pc.claim.state), claimId := Some(pc.claim.claimId));
      PutRecordMoves(fp, s, r);
      EndQuiet(fp, s, PutRecord(fp, s, r), t, pc.clears);
    } else if active.Some? {
      GotoQuiet(fp, s, s, t, SyncLedger(active.value, pc.record, pc.clears));
    }
  }

  lemma TransitionQuiet(fp: string -> string, s: State, t: nat)
    requires t in s.threads && ActiveOk(s) && ThreadOk(fp, s.owners, s.threads[t]) && InTransition(s.threads[t].pc)
    ensures Quiet(fp, s, ProceedTransition(fp, s, t), t)
  {
    hide Quiet, ThreadOk, ActiveOk, ProceedTransition;
    var pc := s.threads[t].pc;
    if pc.PutTransition? || pc.ReloadTransition? || pc.EnsureActive? {
      TransitionPutQuiet(fp, s, t);
    } else if pc.EnsureLedger? || pc.EnsureBootstrap? || pc.EnsureReload? {
      EnsureQuiet(fp, s, t);
    } else {
      SyncQuiet(fp, s, t);
    }
  }

  lemma ArchiveQuiet(fp: string -> string, s: State, t: nat)
    requires t in s.threads && ActiveOk(s) && ThreadOk(fp, s.owners, s.threads[t]) && InArchive(s.threads[t].pc)
    ensures Quiet(fp, s, ProceedArchive(s, t), t)
  {
    var pc := s.threads[t].pc;
    if pc.PutLast? {
      var s1 := s.(store := s.store.(last := Some(pc.claim)));
      GotoQuiet(fp, s, s1, t, ReloadLast(pc.claim));
    } else if pc.ReloadLast? {
      GotoQuiet(fp, s, s, t, DeleteActive);
      GotoQuiet(fp, s, s, t, Resting);
    } else {
      var s1 := s.(store := s.store.(active := None));
      GotoQuiet(fp, s, s1, t, Resting);
    }
    hide Quiet, ThreadOk, ActiveOk, Goto;
  }

  lemma BeginQuiet(fp: string -> string, s: State, t: nat, a: Action)
    requires t in s.threads && ActiveOk(s) && ThreadOk(fp, s.owners, s.threads[t]) && s.threads[t].pc.Resting?
    ensures Quiet(fp, s, Begin(s, t, a), t)
  {
  }

  lemma StopQuiet(fp: string -> string, s: State, t: nat)
    requires t in s.threads && ActiveOk(s) && ThreadOk(fp, s.owners, s.threads[t])
    ensures Quiet(fp, s, Bind(s, t, None), t)
    ensures Quiet(fp, s, Raised(s, t), t)
  {
  }

  // ---------------------------------------------------------------- gaining and spending the right

  /** The reservation: whoever inserts the ledger record is the only one to hold the right to it. */
  lemma ReserveKeeps(fp: string -> string, s: State, t: nat, claimId: string)
    requires Inv(fp, s) && t in s.threads && s.threads[t].pc.Reserve?
    ensures Inv(fp, ProceedCreate(fp, s, t, claimId))
  {
    var c := s.threads[t].pc.candidate;
    var f, s' := fp(c.key), ProceedCreate(fp, s, t, claimId);
    ThreadIsOk(fp, s, t);
    ActiveIsOk(fp, s);
    if f in s.store.ledger {
      assert Quiet(fp, s, s', t);
      QuietKeeps(fp, s, s', t);
    } else {
      assert Moves(s, s', t) && Token(fp, s'.threads[t]) == Some(f) && ThreadOk(fp, s'.owners, s'.threads[t]);
      assert !WasEmitted(fp, s.emitted, f);
      hide ThreadOk, Token, ProceedCreate;
      forall u | u in s'.threads && u != t
        ensures ThreadOk(fp, s'.owners, s'.threads[u]) && TokenOk(fp, s', s'.threads[u])
        ensures Apart(fp, s'.threads[u], s'.threads[t]) && Apart(fp, s'.threads[t], s'.threads[u])
      {
        OthersStayOk(fp, s, s', t, u);
        ThreadIsOk(fp, s, u);
      }
      forall u, v | u in s'.threads && v in s'.threads && u != v ensures Apart(fp, s'.threads[u], s'.threads[v]) {
        if u != t && v != t { assert Apart(fp, s.threads[u], s.threads[v]); }
      }
    }
  }

  lemma EmitKeeps(fp: string -> string, s: State, t: nat, e: Emission)
    requires Inv(fp, s) && t in s.threads && s.threads[t].binding.Some? && InGenerate(s.threads[t].pc)
    requires e.key == s.threads[t].binding.value.key
    ensures Inv(fp, Bind(s.(emitted := s.emitted + [e]), t, None))
  {
    var s' := Bind(s.(emitted := s.emitted + [e]), t, None);
    ThreadIsOk(fp, s, t);
    ActiveIsOk(fp, s);
    assert Token(fp, s.threads[t]) == Some(fp(e.key)) && Token(fp, s'.threads[t]) == None;
    assert ThreadOk(fp, s'.owners, s'.threads[t]);
    hide ThreadOk, Token;
    forall u | u in s'.threads && u != t ensures ThreadOk(fp, s'.owners, s'.threads[u]) && TokenOk(fp, s', s'.threads[u]) {
      OthersStayOk(fp, s, s', t, u);
      ThreadIsOk(fp, s, u);
      assert Apart(fp, s.threads[u], s.threads[t]);
    }
    forall u, v | u in s'.threads && v in s'.threads && u != v ensures Apart(fp, s'.threads[u], s'.threads[v]) {
      if u != t && v != t { assert Apart(fp, s.threads[u], s.threads[v]); }
    }
    forall i | 0 <= i < |s.emitted| ensures fp(s.emitted[i].key) != fp(e.key) {
      assert !WasEmitted(fp, s.emitted, fp(e.key));
    }
  }

  lemma GenerateQuiet(fp: string -> string, s: State, t: nat)
    requires t in s.threads && ActiveOk(s) && ThreadOk(fp, s.owners, s.threads[t]) && InGenerate(s.threads[t].pc)
    requires ProceedGenerate(fp, s, t).emitted == s.emitted
    ensures Quiet(fp, s, ProceedGenerate(fp, s, t), t)
  {
    StopQuiet(fp, s, t);
    assert RowsMove(s, s);
    GotoQuiet(fp, s, s, t, CheckLedger);
    GotoQuiet(fp, s, s, t, RecheckActive);
    hide Quiet, ThreadOk, ActiveOk, OwnsActive, OwnsLedger, RowsMove, Goto;
  }

  lemma GenerateKeeps(fp: string -> string, s: State, t: nat)
    requires Inv(fp, s) && t in s.threads && InGenerate(s.threads[t].pc)
    ensures Inv(fp, ProceedGenerate(fp, s, t))
  {
    ThreadIsOk(fp, s, t);
    ActiveIsOk(fp, s);
    hide Inv, Quiet, ThreadOk, ActiveOk, OwnsActive, OwnsLedger, TokenOk;
    var s' := ProceedGenerate(fp, s, t);
    var b := s.threads[t].binding;
    if s'.emitted != s.emitted {
      EmitKeeps(fp, s, t, Emission(b.value.claimId, b.value.key, OrderLinkId(b.value.fingerprint)));
    } else {
      GenerateQuiet(fp, s, t);
      QuietKeeps(fp, s, s', t);
    }
  }

  lemma StepKeeps(fp: string -> string, s: State, t: nat, a: Action)
    requires Inv(fp, s)
    ensures Inv(fp, Step(fp, s, t, a))
  {
    hide Inv, Quiet, ThreadOk, ActiveOk, TokenOk, ProceedCreate, ProceedTransition, ProceedArchive, ProceedGenerate, Begin, Bind, EndTransition, Raised;
    if t in s.threads {
      ThreadIsOk(fp, s, t);
      ActiveIsOk(fp, s);
      var pc := s.threads[t].pc;
      if a.Proceed? && InGenerate(pc) {
        GenerateKeeps(fp, s, t);
      } else if a.Proceed? && pc.Reserve? {
        ReserveKeeps(fp, s, t, a.drawnId);
      } else {
        StepQuiet(fp, s, t, a);
        QuietKeeps(fp, s, Step(fp, s, t, a), t);
      }
    }
  }

  lemma StepQuiet(fp: string -> string, s: State, t: nat, a: Action)
    requires t in s.threads && ActiveOk(s) && ThreadOk(fp, s.owners, s.threads[t])
    requires !(a.Proceed? && (InGenerate(s.threads[t].pc) || s.threads[t].pc.Reserve?))
    ensures Quiet(fp, s, Step(fp, s, t, a), t)
  {
    var pc := s.threads[t].pc;
    NothingQuiet(fp, s, t);
    hide Quiet, ThreadOk, ActiveOk, ProceedCreate, ProceedTransition, ProceedArchive, ProceedGenerate, Begin, Bind, EndTransition, Raised;
    if a.Die? || a.Raise? {
      StopQuiet(fp, s, t);
    } else if a.Proceed? {
      if InArchive(pc) {
        ArchiveQuiet(fp, s, t);
      } else if InTransition(pc) {
        TransitionQuiet(fp, s, t);
      } else if InCreate(pc) {
        CreateQuiet(fp, s, t, a.drawnId);
      } else {
        RestingStays(fp, s, t, a.drawnId);
      }
    } else if pc.Resting? {
      BeginQuiet(fp, s, t, a);
    }
  }

  lemma NothingQuiet(fp: string -> string, s: State, t: nat)
    requires t in s.threads && ActiveOk(s) && ThreadOk(fp, s.owners, s.threads[t])
    ensures Quiet(fp, s, s, t)
  {
    assert s.threads == s.threads[t := s.threads[t]];
  }

  lemma RestingStays(fp: string -> string, s: State, t: nat, claimId: string)
    requires t in s.threads && s.threads[t].pc.Resting?
    ensures ProceedCreate(fp, s, t, claimId) == s
  {
  }

  lemma {:induction false} RunKeeps(fp: string -> string, init: State, events: seq<Event>)
    requires Start(init)
    ensures Inv(fp, Run(fp, init, events))
  {
    if events != [] {
      var n := |events| - 1;
      RunKeeps(fp, init, events[..n]);
      hide Inv, Step;
      StepKeeps(fp, Run(fp, init, events[..n]), events[n].thread, events[n].action);
    }
  }

  // ---------------------------------------------------------------- main results

  /** In every run, no candidate key has its order id released twice; not even two keys with one fingerprint. */
  lemma AtMostOnce(fp: string -> string, init: State, events: seq<Event>, i: nat, j: nat)
    requires Start(init)
    requires i < |Run(fp, init, events).emitted| && j < |Run(fp, init, events).emitted|
    requires Run(fp, init, events).emitted[i].key == Run(fp, init, events).emitted[j].key
    ensures i == j
  {
    RunKeeps(fp, init, events);
    hide Run, Start;
  }

  /** Distinct order ids are the one thing that rests on the hash: two releases share their order id if and only if
  the first 27 characters of their fingerprints coincide. */
  lemma OrderIdsCollideWithHash(fp: string -> string, init: State, events: seq<Event>, i: nat, j: nat)
    requires IsFingerprint(fp) && Start(init)
    requires i < |Run(fp, init, events).emitted| && j < |Run(fp, init, events).emitted|
    ensures var e := Run(fp, init, events).emitted;
            e[i].orderLinkId == e[j].orderLinkId <==> fp(e[i].key)[..27] == fp(e[j].key)[..27]
  {
    var s := Run(fp, init, events);
    EmittedIds(fp, init, events, i);
    EmittedIds(fp, init, events, j);
    hide Run, Start;
    var a, b := s.emitted[i], s.emitted[j];
    assert OrderLinkId(fp(a.key))[9..] == fp(a.key)[..27] && OrderLinkId(fp(b.key))[9..] == fp(b.key)[..27];
  }

  /** The order id is that of the key it was released for. */
  lemma {:induction false} EmittedIds(fp: string -> string, init: State, events: seq<Event>, i: nat)
    requires IsFingerprint(fp) && Start(init) && i < |Run(fp, init, events).emitted|
    ensures var e := Run(fp, init, events).emitted[i]; |fp(e.key)| >= 27 && e.orderLinkId == "cdx-idem-" + fp(e.key)[..27]
  {
    var n := |events| - 1;
    assert events != [];
    var s, s' := Run(fp, init, events[..n]), Run(fp, init, events);
    RunKeeps(fp, init, events[..n]);
    EmitsAtMostOne(fp, s, events[n].thread, events[n].action);
    hide Step, Inv, OrderLinkId;
    if i < |s.emitted| {
      EmittedIds(fp, init, events[..n], i);
    }
  }

  predicate Released(fp: string -> string, s: State, t: nat, a: Action) {
    && t in s.threads && a.Proceed? && s.threads[t].pc.RecheckActive? && s.threads[t].binding.Some?
    && OwnsActive(fp, s.store, s.threads[t].binding.value) && |s.threads[t].binding.value.fingerprint| >= 27
  }

  /** A step releases at most one order id, that of the binding of the thread that took it, which has just
  read the active claim as its own and CLAIMED. */
  lemma EmitsAtMostOne(fp: string -> string, s: State, t: nat, a: Action)
    requires Inv(fp, s)
    ensures var s' := Step(fp, s, t, a);
            if Released(fp, s, t, a) then
              var b := s.threads[t].binding.value;
              && b.fingerprint == fp(b.key)
              && s'.emitted == s.emitted + [Emission(b.claimId, b.key, OrderLinkId(fp(b.key)))]
            else s'.emitted == s.emitted
  {
    if t in s.threads {
      ThreadIsOk(fp, s, t);
      ActiveIsOk(fp, s);
      hide Inv, Quiet, ThreadOk, ActiveOk, TokenOk, ProceedCreate, ProceedTransition, ProceedArchive, ProceedGenerate, Begin, EndTransition, Raised;
      var pc := s.threads[t].pc;
      if a.Proceed? && InGenerate(pc) {
        GenerateEmits(fp, s, t);
      } else if !(a.Proceed? && pc.Reserve?) {
        StepQuiet(fp, s, t, a);
        hide Step;
        QuietEmits(fp, s, Step(fp, s, t, a), t);
      } else {
        ReserveEmits(fp, s, t, a.drawnId);
      }
    }
  }

  lemma QuietEmits(fp: string -> string, s: State, s': State, t: nat)
    requires t in s.threads && Quiet(fp, s, s', t)
    ensures s'.emitted == s.emitted
  {
  }

  lemma ReserveEmits(fp: string -> string, s: State, t: nat, claimId: string)
    requires t in s.threads && s.threads[t].pc.Reserve?
    ensures ProceedCreate(fp, s, t, claimId).emitted == s.emitted
  {
  }

  lemma GenerateEmits(fp: string -> string, s: State, t: nat)
    requires t in s.threads && InGenerate(s.threads[t].pc) && ThreadOk(fp, s.owners, s.threads[t])
    ensures var s' := ProceedGenerate(fp, s, t);
            var b := s.threads[t].binding;
            if s.threads[t].pc.RecheckActive? && b.Some? && OwnsActive(fp, s.store, b.value) && |b.value.fingerprint| >= 27 then
              && b.value.fingerprint == fp(b.value.key)
              && s'.emitted == s.emitted + [Emission(b.value.claimId, b.value.key, OrderLinkId(fp(b.value.key)))]
            else s'.emitted == s.emitted
  {
  }

  // ---------------------------------------------------------------- what was read before a release

  /** The rows as the events before the n-th left them. */
  function At(fp: string -> string, init: State, events: seq<Event>, n: nat): State
    requires n <= |events|
  {
    Run(fp, init, events[..n])
  }

  lemma AtNext(fp: string -> string, init: State, events: seq<Event>, n: nat)
    requires n < |events|
    ensures At(fp, init, events, n + 1) == Step(fp, At(fp, init, events, n), events[n].thread, events[n].action)
  {
    assert events[..n + 1][..n] == events[..n];
  }

  /** A thread past its first check did that check, with the binding it still has, at some earlier step. */
  lemma {:induction false} ActiveWasRead(fp: string -> string, init: State, events: seq<Event>, n: nat, t: nat) returns (i: nat)
    requires Start(init) && n <= |events| && t in At(fp, init, events, n).threads
    requires At(fp, init, events, n).threads[t].pc.CheckLedger?
    ensures At(fp, init, events, n).threads[t].binding.Some?
    ensures i < n && OwnsActive(fp, At(fp, init, events, i).store, At(fp, init, events, n).threads[t].binding.value)
  {
    hide At, Step, OwnsActive;
    if n == 0 {
      StartsResting(fp, init, events, t);
    } else {
      AtNext(fp, init, events, n - 1);
      var s, e := At(fp, init, events, n - 1), events[n - 1];
      Entered(fp, init, events, n - 1, t);
      if s.threads[t].pc.CheckLedger? {
        i := ActiveWasRead(fp, init, events, n - 1, t);
      } else {
        i := n - 1;
      }
    }
  }

  /** A thread past its second check read the active claim and then the ledger as its own. */
  lemma {:induction false} BothWereRead(fp: string -> string, init: State, events: seq<Event>, n: nat, t: nat) returns (i: nat, j: nat)
    requires Start(init) && n <= |events| && t in At(fp, init, events, n).threads
    requires At(fp, init, events, n).threads[t].pc.RecheckActive?
    ensures At(fp, init, events, n).threads[t].binding.Some?
    ensures var b := At(fp, init, events, n).threads[t].binding.value;
            i < j < n && OwnsActive(fp, At(fp, init, events, i).store, b) && OwnsLedger(At(fp, init, events, j).store, b)
  {
    hide At, Step, OwnsActive, OwnsLedger;
    if n == 0 {
      StartsResting(fp, init, events, t);
    } else {
      AtNext(fp, init, events, n - 1);
      var s, e := At(fp, init, events, n - 1), events[n - 1];
      Entered(fp, init, events, n - 1, t);
      if s.threads[t].pc.RecheckActive? {
        i, j := BothWereRead(fp, init, events, n - 1, t);
      } else {
        i := ActiveWasRead(fp, init, events, n - 1, t);
        j := n - 1;
      }
    }
  }

  lemma Entered(fp: string -> string, init: State, events: seq<Event>, n: nat, t: nat)
    requires Start(init) && n < |events| && t in At(fp, init, events, n + 1).threads
    ensures t in At(fp, init, events, n).threads
    ensures var s, th, th' := At(fp, init, events, n), At(fp, init, events, n).threads[t], At(fp, init, events, n + 1).threads[t];
            && (th'.pc.CheckLedger? ==>
                  && th'.binding == th.binding
                  && (th.pc.CheckLedger? || (th.binding.Some? && OwnsActive(fp, s.store, th.binding.value))))
            && (th'.pc.RecheckActive? ==>
                  && th'.binding == th.binding
                  && (th.pc.RecheckActive?
                      || (th.pc.CheckLedger? && th.binding.Some? && OwnsLedger(s.store, th.binding.value))))
  {
    RunKeeps(fp, init, events[..n]);
    AtNext(fp, init, events, n);
    var s, e := At(fp, init, events, n), events[n];
    hide Inv, Start, Step, OwnsActive, OwnsLedger;
    if e.thread != t {
      OtherThreadsStay(fp, s, e.thread, e.action, t);
    } else {
      ThreadsStay(fp, s, t, e.action);
      CheckEntered(fp, s, t, e.action);
    }
  }

  lemma ThreadsStay(fp: string -> string, s: State, t: nat, a: Action)
    requires t in Step(fp, s, t, a).threads
    ensures t in s.threads
  {
  }

  lemma StartsResting(fp: string -> string, init: State, events: seq<Event>, t: nat)
    requires Start(init) && t in At(fp, init, events, 0).threads
    ensures At(fp, init, events, 0).threads[t].pc.Resting?
  {
  }

  /** A step moves the thread that takes it and no other. */
  lemma OtherThreadsStay(fp: string -> string, s: State, t: nat, a: Action, u: nat)
    requires Inv(fp, s) && u != t && u in Step(fp, s, t, a).threads
    ensures u in s.threads && s.threads[u] == Step(fp, s, t, a).threads[u]
  {
    if t in s.threads {
      ThreadIsOk(fp, s, t);
      ActiveIsOk(fp, s);
      hide Inv, Quiet, ThreadOk, ActiveOk, TokenOk, ProceedCreate, ProceedTransition, ProceedArchive, ProceedGenerate, Begin, EndTransition, Raised;
      var pc := s.threads[t].pc;
      if a.Proceed? && InGenerate(pc) {
        GenerateStays(fp, s, t, u);
      } else if a.Proceed? && pc.Reserve? {
        ReserveStays(fp, s, t, a.drawnId, u);
      } else {
        StepQuiet(fp, s, t, a);
        hide Step;
        QuietStays(fp, s, Step(fp, s, t, a), t, u);
      }
    }
  }

  lemma QuietStays(fp: string -> string, s: State, s': State, t: nat, u: nat)
    requires t in s.threads && Quiet(fp, s, s', t) && u != t && u in s'.threads
    ensures u in s.threads && s.threads[u] == s'.threads[u]
  {
    hide ThreadOk, Token, ActiveOk;
  }

  lemma ReserveStays(fp: string -> string, s: State, t: nat, claimId: string, u: nat)
    requires t in s.threads && s.threads[t].pc.Reserve? && u != t && u in ProceedCreate(fp, s, t, claimId).threads
    ensures u in s.threads && s.threads[u] == ProceedCreate(fp, s, t, claimId).threads[u]
  {
  }

  lemma GenerateStays(fp: string -> string, s: State, t: nat, u: nat)
    requires t in s.threads && InGenerate(s.threads[t].pc) && u != t && u in ProceedGenerate(fp, s, t).threads
    ensures u in s.threads && s.threads[u] == ProceedGenerate(fp, s, t).threads[u]
  {
    hide OwnsActive, OwnsLedger;
  }

  /** How a thread comes to stand at a check: it stood there before, or has just passed the check before it. */
  lemma CheckEntered(fp: string -> string, s: State, t: nat, a: Action)
    requires t in s.threads && t in Step(fp, s, t, a).threads
    ensures var th, th' := s.threads[t], Step(fp, s, t, a).threads[t];
            && (th'.pc.CheckLedger? ==>
                  && th'.binding == th.binding
                  && (th.pc.CheckLedger? || (th.binding.Some? && OwnsActive(fp, s.store, th.binding.value))))
            && (th'.pc.RecheckActive? ==>
                  && th'.binding == th.binding
                  && (th.pc.RecheckActive?
                      || (th.pc.CheckLedger? && th.binding.Some? && OwnsLedger(s.store, th.binding.value))))
  {
    hide OwnsActive, OwnsLedger, ProceedCreate, ProceedTransition, ProceedArchive, Begin, Raised;
    RaisedNoCheck(s, t);
    var pc := s.threads[t].pc;
    if pc.Resting? {
      BeginNoCheck(s, t, a);
    }
    if a.Proceed? {
      if InArchive(pc) {
        ArchiveNoCheck(s, t);
      } else if InTransition(pc) {
        TransitionNoCheck(fp, s, t);
      } else if !InGenerate(pc) {
        CreateNoCheck(fp, s, t, a.drawnId);
      }
    }
  }

  lemma RaisedNoCheck(s: State, t: nat)
    requires t in s.threads
    ensures t in Raised(s, t).threads && !InGenerate(Raised(s, t).threads[t].pc)
  {
  }

  lemma BeginNoCheck(s: State, t: nat, a: Action)
    requires t in s.threads && s.threads[t].pc.Resting?
    ensures var s' := Begin(s, t, a); t in s'.threads && !s'.threads[t].pc.CheckLedger? && !s'.threads[t].pc.RecheckActive?
  {
  }

  lemma CreateNoCheck(fp: string -> string, s: State, t: nat, claimId: string)
    requires t in s.threads && !InGenerate(s.threads[t].pc)
    ensures var s' := ProceedCreate(fp, s, t, claimId); t in s'.threads && !InGenerate(s'.threads[t].pc)
  {
    hide SameOwner;
  }

  lemma TransitionNoCheck(fp: string -> string, s: State, t: nat)
    requires t in s.threads && InTransition(s.threads[t].pc)
    ensures var s' := ProceedTransition(fp, s, t); t in s'.threads && !InGenerate(s'.threads[t].pc)
  {
    hide SameOwner;
  }

  lemma ArchiveNoCheck(s: State, t: nat)
    requires t in s.threads && InArchive(s.threads[t].pc)
    ensures var s' := ProceedArchive(s, t); t in s'.threads && !InGenerate(s'.threads[t].pc)
  {
  }

  /** The claim in the slot has this id, key and fingerprint, and is CLAIMED. */
  predicate ClaimedBy(active: Option<Claim>, claimId: string, key: string, fingerprint: string) {
    && active.Some? && active.value.claimId == claimId && active.value.candidate.key == key
    && active.value.fingerprint == Some(fingerprint) && active.value.state == Claimed
  }

  lemma OwnedIs(fp: string -> string)
    ensures forall store: Store, b: Binding {:trigger OwnsActive(fp, store, b)} ::
              OwnsActive(fp, store, b) ==> ClaimedBy(store.active, b.claimId, b.key, b.fingerprint)
    ensures forall store: Store, b: Binding {:trigger OwnsLedger(store, b)} ::
              OwnsLedger(store, b) ==>
                b.fingerprint in store.ledger && store.ledger[b.fingerprint] == Record(b.key, Follows(Claimed), Some(b.claimId))
  {
  }

  /** Whenever a step releases an order id, the active claim, then the ledger, then the active claim again were
  read as CLAIMED under the same claim id and candidate key. */
  lemma ReleasedAfterThreeReads(fp: string -> string, init: State, events: seq<Event>, n: nat) returns (i: nat, j: nat)
    requires Start(init) && n < |events|
    requires At(fp, init, events, n + 1).emitted != At(fp, init, events, n).emitted
    ensures i < j < n && |At(fp, init, events, n + 1).emitted| == |At(fp, init, events, n).emitted| + 1
    ensures var e := At(fp, init, events, n + 1).emitted[|At(fp, init, events, n).emitted|..];
            && |e| == 1
            && var key, f := e[0].key, fp(e[0].key);
               && ClaimedBy(At(fp, init, events, i).store.active, e[0].claimId, key, f)
               && f in At(fp, init, events, j).store.ledger
               && At(fp, init, events, j).store.ledger[f] == Record(key, Follows(Claimed), Some(e[0].claimId))
               && ClaimedBy(At(fp, init, events, n).store.active, e[0].claimId, key, f)
  {
    var t, s := events[n].thread, At(fp, init, events, n);
    AtNext(fp, init, events, n);
    RunKeeps(fp, init, events[..n]);
    hide Step, OwnsActive, OwnsLedger, Inv;
    EmitsAtMostOne(fp, s, t, events[n].action);
    hide Run;
    i, j := BothWereRead(fp, init, events, n, t);
    OwnedIs(fp);
  }

  // ---------------------------------------------------------------- an undisturbed thread does submit

  function Steps(fp: string -> string, s: State, t: nat, actions: seq<Action>): State
    decreases |actions|
  {
    if actions == [] then s else Steps(fp, Step(fp, s, t, actions[0]), t, actions[1..])
  }

  /** The state s with thread t and the rows replaced. */
  function With(s: State, t: nat, th: Thread, store: Store, owners: map<string, string>): State {
    State(store, s.threads[t := th], s.emitted, owners)
  }

  lemma CreateProceeds(fp: string -> string, s: State, t: nat, id: string)
    requires t in s.threads && InCreate(s.threads[t].pc)
    ensures Step(fp, s, t, Proceed(id)) == ProceedCreate(fp, s, t, id)
  {
    hide ProceedCreate, ProceedGenerate, ProceedTransition, ProceedArchive, Begin, Raised;
  }

  lemma GenerateProceeds(fp: string -> string, s: State, t: nat, id: string)
    requires t in s.threads && InGenerate(s.threads[t].pc)
    ensures Step(fp, s, t, Proceed(id)) == ProceedGenerate(fp, s, t)
  {
    hide ProceedCreate, ProceedGenerate, ProceedTransition, ProceedArchive, Begin, Raised;
  }

  lemma BeginsGenerate(fp: string -> string, s: State, t: nat)
    requires t in s.threads && s.threads[t].pc.Resting?
    ensures Step(fp, s, t, BeginGenerate) == Goto(s, t, CheckActive)
  {
  }

  /** The eight store operations of create_claim when nobody interferes. */
  lemma ReserveStep(fp: string -> string, s: State, t: nat, c: Candidate, id: string)
    requires t in s.threads && fp(c.key) !in s.store.ledger
    ensures var reserved := s.store.(ledger := s.store.ledger[fp(c.key) := Record(c.key, Reserved, None)]);
            var s1 := With(s, t, Thread(Reserve(c), None), s.store, s.owners);
            var s2 := With(s, t, Thread(VerifyReservation(c), None), reserved, s.owners);
            && Step(fp, s1, t, Proceed(id)) == s2
            && Step(fp, s2, t, Proceed(id)) == With(s, t, Thread(TakeSlot(c, Record(c.key, Reserved, None)), None), reserved, s.owners)
  {
    var r := Record(c.key, Reserved, None);
    var reserved := s.store.(ledger := s.store.ledger[fp(c.key) := r]);
    CreateProceeds(fp, With(s, t, Thread(Reserve(c), None), s.store, s.owners), t, id);
    CreateProceeds(fp, With(s, t, Thread(VerifyReservation(c), None), reserved, s.owners), t, id);
    hide Step;
  }

  lemma TakeStep(fp: string -> string, s: State, t: nat, c: Candidate, id: string, store: Store, r: Record)
    requires t in s.threads && store.active.None? && id !in s.owners && r.key == c.key
    ensures var owners := s.owners[id := c.key];
            var taken := store.(active := Some(Claim(id, c, Claimed, None, None, None)));
            var s1 := With(s, t, Thread(TakeSlot(c, r), None), store, s.owners);
            var s2 := With(s, t, Thread(LoadTaken(id, r), None), taken, owners);
            && Step(fp, s1, t, Proceed(id)) == s2
            && Step(fp, s2, t, Proceed(id))
               == With(s, t, Thread(PersistEnriched(Claim(id, c, Claimed, Some(fp(c.key)), None, None), r), None), taken, owners)
  {
    var taken := store.(active := Some(Claim(id, c, Claimed, None, None, None)));
    CreateProceeds(fp, With(s, t, Thread(TakeSlot(c, r), None), store, s.owners), t, id);
    CreateProceeds(fp, With(s, t, Thread(LoadTaken(id, r), None), taken, s.owners[id := c.key]), t, id);
    hide Step;
  }

  lemma PersistStep(fp: string -> string, s: State, t: nat, c: Claim, id: string, store: Store, owners: map<string, string>, r: Record)
    requires t in s.threads
    ensures var stored := store.(active := Some(c));
            var s1 := With(s, t, Thread(PersistEnriched(c, r), None), store, owners);
            var s2 := With(s, t, Thread(ReloadEnriched(c, r), None), stored, owners);
            && Step(fp, s1, t, Proceed(id)) == s2
            && Step(fp, s2, t, Proceed(id)) == With(s, t, Thread(RecordClaimed(c, r), None), stored, owners)
  {
    CreateProceeds(fp, With(s, t, Thread(PersistEnriched(c, r), None), store, owners), t, id);
    CreateProceeds(fp, With(s, t, Thread(ReloadEnriched(c, r), None), store.(active := Some(c)), owners), t, id);
    hide Step;
  }

  lemma RecordStep(fp: string -> string, s: State, t: nat, c: Claim, id: string, store: Store, owners: map<string, string>, r: Record)
    requires t in s.threads && r.key == c.candidate.key && c.fingerprint == Some(fp(c.candidate.key))
    ensures var recorded := store.(ledger := store.ledger[fp(r.key) := Record(r.key, Follows(Claimed), Some(c.claimId))]);
            var s1 := With(s, t, Thread(RecordClaimed(c, r), None), store, owners);
            var s2 := With(s, t, Thread(VerifyClaimed(c, r), None), recorded, owners);
            && Step(fp, s1, t, Proceed(id)) == s2
            && Step(fp, s2, t, Proceed(id))
               == With(s, t, Thread(Resting, Some(Binding(c.claimId, r.key, fp(r.key)))), recorded, owners)
  {
    var recorded := store.(ledger := store.ledger[fp(r.key) := Record(r.key, Follows(Claimed), Some(c.claimId))]);
    CreateProceeds(fp, With(s, t, Thread(RecordClaimed(c, r), None), store, owners), t, id);
    CreateProceeds(fp, With(s, t, Thread(VerifyClaimed(c, r), None), recorded, owners), t, id);
    hide Step;
  }

  lemma CheckStep(fp: string -> string, s: State, t: nat, b: Binding, id: string, store: Store, owners: map<string, string>)
    requires t in s.threads && OwnsActive(fp, store, b) && OwnsLedger(store, b) && |b.fingerprint| >= 27
    ensures var s0 := With(s, t, Thread(Resting, Some(b)), store, owners);
            var s1 := With(s, t, Thread(CheckActive, Some(b)), store, owners);
            var s2 := With(s, t, Thread(CheckLedger, Some(b)), store, owners);
            var s3 := With(s, t, Thread(RecheckActive, Some(b)), store, owners);
            && Step(fp, s0, t, BeginGenerate) == s1 && Step(fp, s1, t, Proceed(id)) == s2 && Step(fp, s2, t, Proceed(id)) == s3
            && Step(fp, s3, t, Proceed(id))
               == With(s, t, Thread(Resting, None), store, owners).(
                    emitted := s.emitted + [Emission(b.claimId, b.key, OrderLinkId(b.fingerprint))])
  {
    GenerateProceeds(fp, With(s, t, Thread(CheckActive, Some(b)), store, owners), t, id);
    GenerateProceeds(fp, With(s, t, Thread(CheckLedger, Some(b)), store, owners), t, id);
    GenerateProceeds(fp, With(s, t, Thread(RecheckActive, Some(b)), store, owners), t, id);
    var s0 := With(s, t, Thread(Resting, Some(b)), store, owners);
    assert Step(fp, s0, t, BeginGenerate) == With(s, t, Thread(CheckActive, Some(b)), store, owners) by { BeginsGenerate(fp, s0, t); }
    hide Step, OwnsActive, OwnsLedger;
  }

  /** A free slot and an unknown candidate: left alone, the thread claims it and releases its order id. */
  lemma UndisturbedSubmits(fp: string -> string, s: State, t: nat, c: Candidate, id: string)
    requires IsFingerprint(fp) && t in s.threads && s.threads[t] == Thread(Resting, None)
    requires s.store.active.None? && fp(c.key) !in s.store.ledger && id !in s.owners
    ensures var go := Proceed(id);
            Steps(fp, s, t, [BeginCreate(c), go, go, go, go, go, go, go, go, BeginGenerate, go, go, go]).emitted
            == s.emitted + [Emission(id, c.key, OrderLinkId(fp(c.key)))]
  {
    var go, f := Proceed(id), fp(c.key);
    var create, generate := [BeginCreate(c), go, go, go, go], [BeginGenerate, go, go, go];
    assert [BeginCreate(c), go, go, go, go, go, go, go, go, BeginGenerate, go, go, go] == create + ([go, go, go, go] + generate);
    var claim := Claim(id, c, Claimed, Some(f), None, None);
    UndisturbedClaims(fp, s, t, c, id);
    var claimed := Steps(fp, s, t, create + [go, go, go, go]);
    var b := Binding(id, c.key, f);
    hide Step, With;
    StepsConcat(fp, s, t, create + [go, go, go, go], generate);
    assert create + [go, go, go, go] + generate == create + ([go, go, go, go] + generate);
    UndisturbedReleases(fp, s, t, b, id, claimed.store, claimed.owners);
  }

  lemma UndisturbedReleases(fp: string -> string, s: State, t: nat, b: Binding, id: string, store: Store, owners: map<string, string>)
    requires t in s.threads && OwnsActive(fp, store, b) && OwnsLedger(store, b) && |b.fingerprint| >= 27
    ensures var go := Proceed(id);
            Steps(fp, With(s, t, Thread(Resting, Some(b)), store, owners), t, [BeginGenerate, go, go, go]).emitted
            == s.emitted + [Emission(b.claimId, b.key, OrderLinkId(b.fingerprint))]
  {
    CheckStep(fp, s, t, b, id, store, owners);
    StepsFour(fp, With(s, t, Thread(Resting, Some(b)), store, owners), t, BeginGenerate, Proceed(id));
    hide Step, OwnsActive, OwnsLedger;
  }

  /** Left alone, create_claim ends with the claim in the slot, in the ledger, and bound to the thread. */
  lemma UndisturbedClaims(fp: string -> string, s: State, t: nat, c: Candidate, id: string)
    requires t in s.threads && s.threads[t] == Thread(Resting, None)
    requires s.store.active.None? && fp(c.key) !in s.store.ledger && id !in s.owners
    ensures var go, b := Proceed(id), Binding(id, c.key, fp(c.key));
            var s' := Steps(fp, s, t, [BeginCreate(c), go, go, go, go] + [go, go, go, go]);
            && s' == With(s, t, Thread(Resting, Some(b)), s'.store, s'.owners)
            && OwnsActive(fp, s'.store, b) && OwnsLedger(s'.store, b)
  {
    var go, r, f := Proceed(id), Record(c.key, Reserved, None), fp(c.key);
    var claim := Claim(id, c, Claimed, Some(f), None, None);
    var b := Binding(id, c.key, f);
    var owners := s.owners[id := c.key];
    var reserved := s.store.(ledger := s.store.ledger[f := r]);
    var taken := reserved.(active := Some(Claim(id, c, Claimed, None, None, None)));
    var stored := taken.(active := Some(claim));
    var recorded := stored.(ledger := stored.ledger[f := Record(c.key, Follows(Claimed), Some(id))]);
    assert Step(fp, s, t, BeginCreate(c)) == With(s, t, Thread(Reserve(c), None), s.store, s.owners);
    ReserveStep(fp, s, t, c, id);
    TakeStep(fp, s, t, c, id, reserved, r);
    PersistStep(fp, s, t, claim, id, taken, owners, r);
    RecordStep(fp, s, t, claim, id, stored, owners, r);
    assert OwnsActive(fp, recorded, b) && OwnsLedger(recorded, b);
    hide Step, With, OwnsActive, OwnsLedger;
    StepsConcat(fp, s, t, [BeginCreate(c), go, go, go, go], [go, go, go, go]);
    StepsFive(fp, s, t, BeginCreate(c), go);
    var s5 := With(s, t, Thread(PersistEnriched(claim, r), None), taken, owners);
    StepsFour(fp, s5, t, go, go);
    assert Steps(fp, s, t, [BeginCreate(c), go, go, go, go] + [go, go, go, go]) == With(s, t, Thread(Resting, Some(b)), recorded, owners);
    WithStore(s, t, Thread(Resting, Some(b)), recorded, owners);
  }

  lemma WithStore(s: State, t: nat, th: Thread, store: Store, owners: map<string, string>)
    ensures With(s, t, th, store, owners).store == store && With(s, t, th, store, owners).owners == owners
  {
  }

  lemma {:induction false} StepsConcat(fp: string -> string, s: State, t: nat, a: seq<Action>, b: seq<Action>)
    ensures Steps(fp, s, t, a + b) == Steps(fp, Steps(fp, s, t, a), t, b)
    decreases |a|
  {
    hide Step;
    if a == [] {
      assert a + b == b;
    } else {
      StepsConcat(fp, Step(fp, s, t, a[0]), t, a[1..], b);
      assert (a + b)[1..] == a[1..] + b;
    }
  }

  lemma StepsOne(fp: string -> string, s: State, t: nat, first: Action, rest: seq<Action>)
    ensures Steps(fp, s, t, [first] + rest) == Steps(fp, Step(fp, s, t, first), t, rest)
  {
    hide Step;
    assert ([first] + rest)[1..] == rest;
  }

  lemma StepsFour(fp: string -> string, s: State, t: nat, first: Action, go: Action)
    ensures Steps(fp, s, t, [first, go, go, go])
            == Step(fp, Step(fp, Step(fp, Step(fp, s, t, first), t, go), t, go), t, go)
  {
    var s1 := Step(fp, s, t, first);
    var s2 := Step(fp, s1, t, go);
    hide Step;
    assert [first, go, go, go] == [first] + [go, go, go] && [go, go, go] == [go] + [go, go] && [go, go] == [go] + [go];
    StepsOne(fp, s, t, first, [go, go, go]);
    StepsOne(fp, s1, t, go, [go, go]);
    StepsOne(fp, s2, t, go, [go]);
  }

  lemma StepsFive(fp: string -> string, s: State, t: nat, first: Action, go: Action)
    ensures Steps(fp, s, t, [first, go, go, go, go])
            == Step(fp, Step(fp, Step(fp, Step(fp, Step(fp, s, t, first), t, go), t, go), t, go), t, go)
  {
    hide Step;
    assert [first, go, go, go, go] == [first] + [go, go, go, go];
    StepsOne(fp, s, t, first, [go, go, go, go]);
    StepsFour(fp, Step(fp, s, t, first), t, go, go);
  }
}
