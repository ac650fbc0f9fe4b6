/** The claim-before-submit protocol as interleaved store operations of any number of threads.

Every action is one store operation of one thread, with the reads that only confirm a failed put left out;
a thread may raise, or die with its process, between any two of them. */
module HandoffProtocol {
  import opened Common
  import opened HandoffClaims

  // ---------------------------------------------------------------- threads

  /** The claim bound to a thread by create_claim. */
  datatype Binding = Binding(claimId: string, key: string, fingerprint: string)

  /** Where a thread stands; the arguments are its local variables.  `clears` names the claim whose binding the
  enclosing transition drops when it ends, in whatever way. */
  datatype Pc =
    | Resting
    // create_claim
    | Reserve(candidate: Candidate)
    | VerifyReservation(candidate: Candidate)
    | TakeSlot(candidate: Candidate, saved: Record)
    | LoadTaken(claimId: string, saved: Record)
    | RecordFailure(saved: Record, failure: LedgerState)
    | PersistEnriched(claim: Claim, saved: Record)
    | ReloadEnriched(claim: Claim, saved: Record)
    | RecordClaimed(claim: Claim, saved: Record)
    | VerifyClaimed(claim: Claim, saved: Record)
    // generate_order_link_id
    | CheckActive
    | CheckLedger
    | RecheckActive
    // transition_claim and the startup bootstrap
    | PutTransition(updated: Claim, clears: Option<string>)
    | ReloadTransition(updated: Claim, clears: Option<string>)
    | EnsureActive(claim: Claim, clears: Option<string>)
    | EnsureLedger(claim: Claim, clears: Option<string>)
    | EnsureBootstrap(claim: Claim, clears: Option<string>)
    | EnsureReload(claim: Claim, clears: Option<string>)
    | EnsureSwap(claim: Claim, record: Record, clears: Option<string>)
    | EnsureSwapped(claim: Claim, record: Record, clears: Option<string>)
    | SyncLedger(claim: Claim, record: Record, clears: Option<string>)
    // archiving
    | PutLast(claim: Claim)
    | ReloadLast(claim: Claim)
    | DeleteActive

  datatype Thread = Thread(pc: Pc, binding: Option<Binding>)

  datatype Emission = Emission(claimId: string, key: string, orderLinkId: string)

  /** `owners` records which candidate key each claim id was drawn for. */
  datatype State = State(store: Store, threads: map<nat, Thread>, emitted: seq<Emission>, owners: map<string, string>)

  datatype Action =
    | BeginCreate(candidate: Candidate)
    | BeginGenerate
    | BeginTransition(updated: Claim, target: ClaimState)
    | BeginBootstrap
    | BeginArchive(claim: Claim)
    | Proceed(drawnId: string)
    | Raise
    | Die

  // ---------------------------------------------------------------- store operations

  function PutActive(s: State, c: Claim): State {
    s.(store := s.store.(active := Some(c)))
  }

  function PutRecord(fp: string -> string, s: State, r: Record): State {
    s.(store := s.store.(ledger := s.store.ledger[fp(r.key) := r]))
  }

  function Goto(s: State, t: nat, pc: Pc): State
    requires t in s.threads
  {
    s.(threads := s.threads[t := s.threads[t].(pc := pc)])
  }

  function Bind(s: State, t: nat, b: Option<Binding>): State
    requires t in s.threads
  {
    s.(threads := s.threads[t := Thread(Resting, b)])
  }

  /** A transition ends: its claim is no longer bound, unless it went to CLAIMED. */
  function EndTransition(s: State, t: nat, clears: Option<string>): State
    requires t in s.threads
  {
    var b := s.threads[t].binding;
    Bind(s, t, if b.Some? && clears == Some(b.value.claimId) then None else b)
  }

  predicate SameOwner(current: Option<Claim>, expected: Claim) {
    current.Some? && current.value.claimId == expected.claimId && current.value.state == expected.state
  }

  /** The stored active claim is the bound one, complete and in the pre-submission state. */
  predicate OwnsActive(fp: string -> string, store: Store, b: Binding) {
    && store.active.Some?
    && store.active.value.fingerprint == Some(fp(store.active.value.candidate.key))
    && Binding(store.active.value.claimId, store.active.value.candidate.key, fp(store.active.value.candidate.key)) == b
    && store.active.value.state == Claimed
  }

  predicate OwnsLedger(store: Store, b: Binding) {
    && b.fingerprint in store.ledger
    && store.ledger[b.fingerprint] == Record(b.key, Follows(Claimed), Some(b.claimId))
  }

  // ---------------------------------------------------------------- steps

  function ProceedCreate(fp: string -> string, s: State, t: nat, claimId: string): State
    requires t in s.threads
  {
    match s.threads[t].pc
    case Reserve(c) =>
      if fp(c.key) in s.store.ledger then Goto(s, t, Resting)
      else Goto(PutRecord(fp, s, Record(c.key, Reserved, None)), t, VerifyReservation(c))
    case VerifyReservation(c) =>
      if fp(c.key) !in s.store.ledger || s.store.ledger[fp(c.key)].key != c.key then Goto(s, t, Resting)
      else Goto(s, t, TakeSlot(c, s.store.ledger[fp(c.key)]))
    case TakeSlot(c, saved) =>
      if claimId in s.owners then s
      else
        var drawn := s.(owners := s.owners[claimId := c.key]);
        if s.store.active.Some? then Goto(drawn, t, RecordFailure(saved, ActiveClaimConflict))
        else Goto(PutActive(drawn, Claim(claimId, c, Claimed, None, None, None)), t, LoadTaken(claimId, saved))
    case LoadTaken(own, saved) =>
      var a := s.store.active;
      if a.Some? && a.value.claimId == own && a.value.state == Claimed then
        Goto(s, t, PersistEnriched(a.value.(fingerprint := Some(fp(saved.key))), saved))
      else Goto(s, t, RecordFailure(saved, ClaimCreationError))
    case RecordFailure(saved, failure) => Goto(PutRecord(fp, s, saved.(state := failure)), t, Resting)
    case PersistEnriched(claim, saved) => Goto(PutActive(s, claim), t, ReloadEnriched(claim, saved))
    case ReloadEnriched(claim, saved) =>
      Goto(s, t, if SameOwner(s.store.active, claim) then RecordClaimed(s.store.active.value, saved) else Resting)
    case RecordClaimed(claim, saved) =>
      Goto(PutRecord(fp, s, saved.(state := Follows(Claimed), claimId := Some(claim.claimId))), t, VerifyClaimed(claim, saved))
    case VerifyClaimed(claim, saved) =>
      var f := fp(saved.key);
      if f in s.store.ledger && s.store.ledger[f].key == saved.key && s.store.ledger[f].state == Follows(Claimed)
         && claim.fingerprint == Some(fp(claim.candidate.key))
      then Bind(s, t, Some(Binding(claim.claimId, claim.candidate.key, fp(claim.candidate.key))))
      else Goto(s, t, Resting)
    case _ => s
  }

  /** The order id leaves the program only after active claim, ledger and active claim again were read as the
  bound claim in state CLAIMED; the binding is spent in any case. */
  function ProceedGenerate(fp: string -> string, s: State, t: nat): State
    requires t in s.threads
  {
    var b := s.threads[t].binding;
    if b.None? then Bind(s, t, None)
    else
      match s.threads[t].pc
      case CheckActive => if OwnsActive(fp, s.store, b.value) then Goto(s, t, CheckLedger) else Bind(s, t, None)
      case CheckLedger => if OwnsLedger(s.store, b.value) then Goto(s, t, RecheckActive) else Bind(s, t, None)
      case RecheckActive =>
        if OwnsActive(fp, s.store, b.value) && |b.value.fingerprint| >= 27 then
          Bind(s.(emitted := s.emitted + [Emission(b.value.claimId, b.value.key, OrderLinkId(b.value.fingerprint))]), t, None)
        else Bind(s, t, None)
      case _ => s
  }

  function ProceedTransition(fp: string -> string, s: State, t: nat): State
    requires t in s.threads
  {
    match s.threads[t].pc
    case PutTransition(updated, clears) => Goto(PutActive(s, updated), t, ReloadTransition(updated, clears))
    case ReloadTransition(updated, clears) =>
      if SameOwner(s.store.active, updated) then Goto(s, t, EnsureActive(s.store.active.value, clears))
      else EndTransition(s, t, clears)
    case EnsureActive(claim, clears) =>
      if SameOwner(s.store.active, claim) then Goto(s, t, EnsureLedger(s.store.active.value, clears))
      else EndTransition(s, t, clears)
    case EnsureLedger(current, clears) =>
      var f := fp(current.candidate.key);
      if f in s.store.ledger then Reloaded(fp, s, t, current, s.store.ledger[f], clears)
      else Goto(s, t, EnsureBootstrap(current, clears))
    case EnsureBootstrap(current, clears) =>
      var bootstrap := Record(current.candidate.key, RecoveredActiveClaim, Some(current.claimId));
      Goto(if fp(bootstrap.key) in s.store.ledger then s else PutRecord(fp, s, bootstrap), t, EnsureReload(current, clears))
    case EnsureReload(current, clears) =>
      var f := fp(current.candidate.key);
      if f in s.store.ledger then Reloaded(fp, s, t, current, s.store.ledger[f], clears) else EndTransition(s, t, clears)
    case EnsureSwap(current, record, clears) =>
      if s.store.active == Some(current) then
        var enriched := current.(fingerprint := Some(fp(current.candidate.key)));
        Goto(PutActive(s, enriched), t, EnsureSwapped(enriched, record, clears))
      else EndTransition(s, t, clears)
    case EnsureSwapped(enriched, record, clears) =>
      if SameOwner(s.store.active, enriched) then Goto(s, t, SyncLedger(s.store.active.value, record, clears))
      else EndTransition(s, t, clears)
    case SyncLedger(claim, record, clears) =>
      EndTransition(PutRecord(fp, s, record.(state := Follows(claim.state), claimId := Some(claim.claimId))), t, clears)
    case _ => s
  }

  /** The ledger record of the active claim has been read: check its identity, then enrich the claim by
  compare-and-swap unless it is complete already. */
  function Reloaded(fp: string -> string, s: State, t: nat, current: Claim, record: Record, clears: Option<string>): State
    requires t in s.threads
  {
    if record.key != current.candidate.key then EndTransition(s, t, clears)
    else if current.fingerprint == Some(fp(current.candidate.key)) then Goto(s, t, SyncLedger(current, record, clears))
    else Goto(s, t, EnsureSwap(current, record, clears))
  }

  function ProceedArchive(s: State, t: nat): State
    requires t in s.threads
  {
    match s.threads[t].pc
    case PutLast(claim) => Goto(s.(store := s.store.(last := Some(claim))), t, ReloadLast(claim))
    case ReloadLast(claim) =>
      Goto(s, t, if s.store.last.Some? && s.store.last.value.claimId == claim.claimId then DeleteActive else Resting)
    case DeleteActive => Goto(s.(store := s.store.(active := None)), t, Resting)
    case _ => s
  }

  predicate InGenerate(pc: Pc) {
    pc.CheckActive? || pc.CheckLedger? || pc.RecheckActive?
  }

  /** An exception: the order id path drops its binding, the slot path records the failure in the ledger, and a
  transition drops the binding of its claim. */
  function Raised(s: State, t: nat): State
    requires t in s.threads
  {
    var pc := s.threads[t].pc;
    if InGenerate(pc) then Bind(s, t, None)
    else if pc.TakeSlot? || pc.LoadTaken? then Goto(s, t, RecordFailure(pc.saved, ClaimCreationError))
    else EndTransition(s, t, Clears(pc))
  }

  predicate InArchive(pc: Pc) {
    pc.PutLast? || pc.ReloadLast? || pc.DeleteActive?
  }

  predicate InTransition(pc: Pc) {
    || pc.PutTransition? || pc.ReloadTransition? || pc.EnsureActive? || pc.EnsureLedger? || pc.EnsureBootstrap?
    || pc.EnsureReload? || pc.EnsureSwap? || pc.EnsureSwapped? || pc.SyncLedger?
  }

  function Clears(pc: Pc): Option<string> {
    if InTransition(pc) then pc.clears else None
  }

  function Begin(s: State, t: nat, a: Action): State
    requires t in s.threads
  {
    match a
    case BeginCreate(c) => s.(threads := s.threads[t := Thread(Reserve(c), None)])
    case BeginGenerate => Goto(s, t, CheckActive)
    case BeginTransition(u, target) =>
      if Owned(s.owners, u) then
        Goto(s, t, PutTransition(u.(state := target), if target == Claimed then None else Some(u.claimId)))
      else s
    case BeginBootstrap => if s.store.active.Some? then Goto(s, t, EnsureActive(s.store.active.value, None)) else s
    case BeginArchive(c) => Goto(s, t, PutLast(c))
    case _ => s
  }

  /** One action of thread t; what is not possible where the thread stands does nothing.  A transition may be
  asked for any claim that carries the candidate its id was drawn for. */
  function Step(fp: string -> string, s: State, t: nat, a: Action): State {
    if t !in s.threads then s
    else
      var th := s.threads[t];
      match a
      case Die => Bind(s, t, None)
      case Raise => Raised(s, t)
      case Proceed(drawn) =>
        if InGenerate(th.pc) then ProceedGenerate(fp, s, t)
        else if InArchive(th.pc) then ProceedArchive(s, t)
        else if InTransition(th.pc) then ProceedTransition(fp, s, t)
        else ProceedCreate(fp, s, t, drawn)
      case _ => if th.pc.Resting? then Begin(s, t, a) else s
  }

  predicate Owned(owners: map<string, string>, c: Claim) {
    c.claimId in owners && owners[c.claimId] == c.candidate.key
  }

  datatype Event = Event(thread: nat, action: Action)

  function Run(fp: string -> string, init: State, events: seq<Event>): State {
    if events == [] then init
    else
      var last := events[|events| - 1];
      Step(fp, Run(fp, init, events[..|events| - 1]), last.thread, last.action)
  }

  /** A start: any rows an earlier version of the program may have left, no thread at work. */
  ghost predicate Start(s: State) {
    && s.emitted == []
    && (forall t <- s.threads :: s.threads[t] == Thread(Resting, None))
    && (s.store.active.Some? ==> Owned(s.owners, s.store.active.value))
  }
}
