/** The handoff as one runner executes it, with a raised exception or the death of the process possible at every
store operation: unresolved claims fail closed, and a resolved claim is always finished in the same way. */
module HandoffRunner {
  import opened Common
  import opened HandoffClaims

  // ---------------------------------------------------------------- the world of one runner

  /** An `auto_order` entry of the journal. */
  datatype Entry = Entry(claimId: string, recovery: bool)

  /** Everything that outlives a run; `submitted` lists the keys handed to the exchange. */
  datatype World = World(store: Store, queue: seq<Candidate>, journal: seq<Entry>, submitted: seq<string>, enabled: bool)

  /** What befalls the next store operation. */
  datatype Fault = Fine | RaiseBefore | RaiseAfter | DieBefore | DieAfter

  datatype Stop = Raised | Died

  /** The checks that run before a claim is made, each answered by code outside this model. */
  datatype Gates = Gates(stale: bool, riskBlocked: bool, guardBlocked: bool, planBlocked: bool, sizingBlocked: bool)

  datatype Outcome =
    | NoCandidate | BotStopped | CandidateDropped | CandidateKept | QueueRemoveFailed
    | ClaimUnresolved | RecoveryCompleted | RecoveryAccountingFailed | QueueResolutionFailed
    | ClaimConflict | Executed | NotFilled(code: Code) | SubmissionOutcomeUnknown | HandoffException
    | ProcessDied

  // ---------------------------------------------------------------- legal moves of the durable rows

  /** How the state of a stored claim may change.  COMPLETED is reached from a resolved state only, and
  SUBMISSION_UNKNOWN from anywhere. */
  predicate NextState(a: ClaimState, b: ClaimState) {
    || a == b
    || b == SubmissionUnknown
    || (a == Claimed && b == Submitted)
    || (a == Submitted && b in {ResolvedFilled, ResolvedNoFill, Unresolved})
    || (a in {ResolvedFilled, ResolvedNoFill} && b == Completed)
  }

  /** One store operation: ledger records stay, a claim keeps its id and candidate, and the slot is emptied only
  of a COMPLETED claim. */
  predicate Legal(s: Store, s': Store) {
    && s.ledger.Keys <= s'.ledger.Keys
    && match (s.active, s'.active)
       case (None, None) => true
       case (None, Some(d)) => d.state in {Claimed, SubmissionUnknown}
       case (Some(c), None) => c.state == Completed
       case (Some(c), Some(d)) => c.claimId == d.claimId && c.candidate == d.candidate && NextState(c.state, d.state)
  }

  predicate LegalTrail(trail: seq<Store>) {
    forall i | 0 <= i < |trail| - 1 :: Legal(trail[i], trail[i + 1])
  }

  predicate Blocking(state: ClaimState) {
    state !in {ResolvedFilled, ResolvedNoFill, Completed}
  }

  // ---------------------------------------------------------------- queue and journal

  function KeyCount(queue: seq<Candidate>, key: string): nat {
    if queue == [] then 0 else (if queue[0].key == key then 1 else 0) + KeyCount(queue[1..], key)
  }

  predicate QueuedOnce(queue: seq<Candidate>) {
    forall c <- queue :: KeyCount(queue, c.key) <= 1
  }

  /** The queue without the first candidate of that key. */
  function RemoveFirst(queue: seq<Candidate>, key: string): seq<Candidate> {
    if queue == [] then []
    else if queue[0].key == key then queue[1..]
    else [queue[0]] + RemoveFirst(queue[1..], key)
  }

  function JournalCount(journal: seq<Entry>, claimId: string): nat {
    if journal == [] then 0
    else JournalCount(journal[..|journal| - 1], claimId) + if journal[|journal| - 1].claimId == claimId then 1 else 0
  }

  lemma CutAfterHead(queue: seq<Candidate>, i: nat)
    requires 0 < i < |queue|
    ensures queue[..i] + queue[i + 1..] == [queue[0]] + (queue[1..][..i - 1] + queue[1..][i..])
  {
  }

  /** Removal takes out the first candidate of the key and leaves the others in their order. */
  lemma {:induction false} RemoveFirstIs(queue: seq<Candidate>, key: string, i: nat)
    requires i <= |queue| && (forall j | 0 <= j < i :: queue[j].key != key) && (i < |queue| ==> queue[i].key == key)
    ensures RemoveFirst(queue, key) == if i < |queue| then queue[..i] + queue[i + 1..] else queue
    decreases i
  {
    if queue == [] {
    } else if i > 0 {
      assert queue[0].key != key;
      assert forall j | 0 <= j < i - 1 :: queue[1..][j] == queue[j + 1];
      RemoveFirstIs(queue[1..], key, i - 1);
      assert RemoveFirst(queue, key) == [queue[0]] + RemoveFirst(queue[1..], key);
      hide RemoveFirst;
      if i < |queue| {
        CutAfterHead(queue, i);
      }
    }
  }

  /** Removal takes out exactly one candidate of the key, so the key is gone afterwards if and only if it was not
  queued twice. */
  lemma {:induction false} RemoveFirstCounts(queue: seq<Candidate>, key: string, other: string)
    ensures KeyCount(RemoveFirst(queue, key), other) ==
            if other == key && KeyCount(queue, key) > 0 then KeyCount(queue, key) - 1 else KeyCount(queue, other)
  {
    if queue != [] {
      RemoveFirstCounts(queue[1..], key, other);
      if queue[0].key != key {
        assert ([queue[0]] + RemoveFirst(queue[1..], key))[1..] == RemoveFirst(queue[1..], key);
      }
    }
  }

  lemma JournalCountAppend(journal: seq<Entry>, e: Entry, claimId: string)
    ensures JournalCount(journal + [e], claimId) == JournalCount(journal, claimId) + if e.claimId == claimId then 1 else 0
  {
    assert (journal + [e])[..|journal|] == journal;
  }

  // ---------------------------------------------------------------- pending and done

  predicate Filled(c: Claim) {
    c.fill.Some? && c.fill.value.accepted
  }

  /** What the recovery of a filled claim demands before it restores the accounting. */
  predicate Accountable(c: Claim) {
    && c.claimId != "" && c.order.Some? && c.order.value.Order? && c.order.value.retCode == Some(0)
    && Filled(c) && Tradable(c.candidate)
  }

  lemma TradableKey(c: Candidate)
    ensures Tradable(c) ==> c.key != ""
  {
  }

  predicate LedgerHas(fp: string -> string, ledger: map<string, Record>, key: string) {
    fp(key) in ledger && ledger[fp(key)].key == key
  }

  /** A resolved claim that still occupies the slot. */
  predicate Pending(fp: string -> string, w: World) {
    && w.store.active.Some?
    && var c := w.store.active.value;
       && c.state in {ResolvedFilled, ResolvedNoFill, Completed} && c.candidate.key != ""
       && (c.state == ResolvedFilled ==> Accountable(c)) && (c.state == ResolvedNoFill ==> !Filled(c))
       && LedgerHas(fp, w.store.ledger, c.candidate.key)
       && KeyCount(w.queue, c.candidate.key) <= 1
       && (Filled(c) ==> JournalCount(w.journal, c.claimId) <= 1)
       && (Filled(c) && c.state == Completed ==> JournalCount(w.journal, c.claimId) == 1)
  }

  /** The one outcome: slot empty, claim archived and recorded as COMPLETED, candidate gone, and a filled order
  journalled exactly once. */
  predicate Done(fp: string -> string, w: World, c: Claim) {
    && w.store.active.None?
    && w.store.last.Some? && w.store.last.value.claimId == c.claimId && w.store.last.value.state == Completed
    && fp(c.candidate.key) in w.store.ledger
    && w.store.ledger[fp(c.candidate.key)] == Record(c.candidate.key, Follows(Completed), Some(c.claimId))
    && KeyCount(w.queue, c.candidate.key) == 0
    && (Filled(c) ==> JournalCount(w.journal, c.claimId) == 1)
  }

  predicate SameClaim(c: Claim, d: Claim) {
    c.claimId == d.claimId && c.candidate == d.candidate && c.order == d.order && c.fill == d.fill
  }

  predicate Resolved(state: ClaimState) {
    state in {ResolvedFilled, ResolvedNoFill}
  }

  /** A response that is not a mapping is stored as a refusal, but judged as it came. */
  function StoredOrder(o: Order): Order {
    if o.NotAMapping? then Order(Some(-1), false, false, false, false, NoVerification) else o
  }

  /** One run against a slot that holds a claim of unknown outcome: nothing moves. */
  predicate FailsClosed(w: World, w': World) {
    && (w.store.active.Some? ==> w'.submitted == w.submitted)
    && (w.store.active.Some? && Blocking(w.store.active.value.state) ==>
          w'.store == w.store && w'.queue == w.queue && w'.journal == w.journal)
  }

  /** One run submits at most one candidate: the head of the queue, with the bot enabled and the slot free, under
  a fingerprint the ledger did not know before and knows from then on. */
  predicate SubmitsFresh(fp: string -> string, w: World, w': World) {
    && w.store.ledger.Keys <= w'.store.ledger.Keys
    && (w'.submitted == w.submitted
        || (&& w.enabled && w.store.active.None? && w.queue != [] && Tradable(w.queue[0])
            && w'.submitted == w.submitted + [w.queue[0].key]
            && fp(w.queue[0].key) !in w.store.ledger && fp(w.queue[0].key) in w'.store.ledger))
  }

  /** One run against a resolved claim either leaves it pending, or done. */
  predicate Finishes(fp: string -> string, w: World, w': World) {
    Pending(fp, w) ==>
      || Done(fp, w', w.store.active.value)
      || (Pending(fp, w') && SameClaim(w'.store.active.value, w.store.active.value))
  }

  /** What a run that submits may leave behind, wherever it was cut off: a claim of unknown outcome, a pending
  one, or a finished one. */
  predicate LeavesBehind(fp: string -> string, w: World, w': World) {
    w'.submitted != w.submitted ==> Settled(fp, w')
  }

  predicate Settled(fp: string -> string, w: World) {
    if w.store.active.None? then w.store.last.Some? && Done(fp, w, w.store.last.value)
    else !Blocking(w.store.active.value.state) ==> Pending(fp, w)
  }

  /** The claim is done, or still pending. */
  predicate Concluded(fp: string -> string, w: World, c: Claim) {
    if w.store.active.None? then Done(fp, w, c) else Pending(fp, w) && SameClaim(w.store.active.value, c)
  }

  /** A fingerprint that the ledger knows but no claim in the slot stands for: what a cut between the reservation and
  the claim leaves, or a finished claim. */
  predicate Stranded(fp: string -> string, w: World, f: string) {
    f in w.store.ledger && (w.store.active.Some? ==> fp(w.store.active.value.candidate.key) != f)
  }

  /** One run leaves every stranded record as it is, and no claim comes to stand for it. */
  predicate KeepsStranded(fp: string -> string, w: World, w': World) {
    forall f <- w.store.ledger :: Stranded(fp, w, f) ==> Stranded(fp, w', f) && w'.store.ledger[f] == w.store.ledger[f]
  }

  /** One run with a stranded head and a free slot: no row changes, nothing is submitted, and the head goes, if at all,
  unclaimed. */
  predicate StrandedHead(fp: string -> string, w: World, w': World) {
    w.store.active.None? && w.queue != [] && fp(w.queue[0].key) in w.store.ledger ==>
      && w'.store == w.store && w'.journal == w.journal && w'.submitted == w.submitted
      && w'.queue in {w.queue, w.queue[1..]}
  }

  predicate RunRelation(fp: string -> string, w: World, w': World) {
    && FailsClosed(w, w') && SubmitsFresh(fp, w, w') && Finishes(fp, w, w') && LeavesBehind(fp, w, w')
    && KeepsStranded(fp, w, w') && StrandedHead(fp, w, w')
  }

  /** The checks before a claim let the candidate through to it. */
  predicate Admits(gates: Gates, c: Candidate) {
    !gates.stale && Tradable(c) && !gates.riskBlocked && !gates.guardBlocked && !gates.planBlocked && !gates.sizingBlocked
  }

  /** They drop the candidate from the queue. */
  predicate Drops(gates: Gates, c: Candidate) {
    && c.key != ""
    && (gates.stale || !Tradable(c) || (!gates.riskBlocked && !gates.guardBlocked && (gates.planBlocked || gates.sizingBlocked)))
  }

  /** Of the ledger, only the record of this key may have changed, and it is still a record of this key. */
  predicate OnlyRecordOf(fp: string -> string, before: map<string, Record>, after: map<string, Record>, key: string) {
    && before.Keys <= after.Keys <= before.Keys + {fp(key)}
    && (forall f <- before :: f != fp(key) ==> after[f] == before[f])
    && (LedgerHas(fp, before, key) ==> LedgerHas(fp, after, key))
    && (fp(key) in after && fp(key) !in before ==> after[fp(key)].key == key)
  }

  /** Work on the claim of this candidate: no other record changes, and no other claim enters the slot. */
  predicate KeepsTo(fp: string -> string, before: Store, after: Store, c: Candidate) {
    OnlyRecordOf(fp, before.ledger, after.ledger, c.key) && (after.active.Some? ==> after.active.value.candidate == c)
  }

  lemma OnlyRecordTwice(fp: string -> string, a: map<string, Record>, b: map<string, Record>, c: map<string, Record>, key: string)
    requires OnlyRecordOf(fp, a, b, key) && OnlyRecordOf(fp, b, c, key)
    ensures OnlyRecordOf(fp, a, c, key)
  {
  }

  lemma OnlyRecordFacts(fp: string -> string, a: map<string, Record>, b: map<string, Record>, key: string)
    ensures OnlyRecordOf(fp, a, a, key)
    ensures OnlyRecordOf(fp, a, b, key) ==> a.Keys <= b.Keys && (LedgerHas(fp, a, key) ==> LedgerHas(fp, b, key))
  {
  }

  /** Any records of the key, written in one or two steps. */
  lemma OnlyRecordWritten(fp: string -> string, a: map<string, Record>, key: string)
    ensures forall r: Record {:trigger a[fp(key) := r]} :: r.key == key ==> OnlyRecordOf(fp, a, a[fp(key) := r], key)
    ensures forall r: Record, q: Record {:trigger a[fp(key) := r][fp(key) := q]} ::
              q.key == key ==> a[fp(key) := r][fp(key) := q] == a[fp(key) := q]
  {
  }

  lemma KeepsTwice(fp: string -> string, a: Store, b: Store, c: Store, x: Candidate)
    requires KeepsTo(fp, a, b, x) && KeepsTo(fp, b, c, x)
    ensures KeepsTo(fp, a, c, x)
  {
    hide OnlyRecordOf;
    OnlyRecordTwice(fp, a.ledger, b.ledger, c.ledger, x.key);
  }

  lemma KeepsFacts(fp: string -> string, a: Store, b: Store, x: Candidate)
    requires KeepsTo(fp, a, b, x)
    ensures a.ledger.Keys <= b.ledger.Keys && (LedgerHas(fp, a.ledger, x.key) ==> LedgerHas(fp, b.ledger, x.key))
  {
    hide OnlyRecordOf;
    OnlyRecordFacts(fp, a.ledger, b.ledger, x.key);
  }

  lemma KeepsSame(fp: string -> string, a: Store, x: Candidate)
    requires a.active.Some? ==> a.active.value.candidate == x
    ensures KeepsTo(fp, a, a, x)
  {
    hide OnlyRecordOf;
    OnlyRecordFacts(fp, a.ledger, a.ledger, x.key);
  }

  /** Work on one claim strands nothing anew and touches nothing stranded. */
  lemma KeepsToStranded(fp: string -> string, w: World, w': World, c: Candidate)
    requires KeepsTo(fp, w.store, w'.store, c)
    requires fp(c.key) in w.store.ledger ==> w.store.active.Some? && w.store.active.value.candidate == c
    ensures KeepsStranded(fp, w, w')
  {
  }

  lemma SameStoreStranded(fp: string -> string, w: World, w': World)
    requires w'.store == w.store
    ensures KeepsStranded(fp, w, w')
  {
  }

  /** What the startup bootstrap leaves, cut off anywhere: the claim keeps everything but its identity fields, and
  of the ledger only its own record changes, to follow the claim. */
  predicate Bootstrapped(fp: string -> string, w: World, w': World) {
    && w'.store.last == w.store.last && w'.journal == w.journal && w'.submitted == w.submitted
    && match w.store.active
       case None => w'.store == w.store
       case Some(c) =>
         var key := c.candidate.key;
         && w'.store.active in {Some(c), Some(Enriched(fp, c))}
         && OnlyRecordOf(fp, w.store.ledger, w'.store.ledger, key)
         && (w'.store.ledger == w.store.ledger
             || (fp(key) in w'.store.ledger
                 && w'.store.ledger[fp(key)].state in {RecoveredActiveClaim, Follows(c.state)}
                 && w'.store.ledger[fp(key)].claimId == Some(c.claimId)))
  }

  lemma BetweenIsRestart(fp: string -> string, w: World, w': World)
    requires w'.store == w.store && w'.journal == w.journal && w'.submitted == w.submitted
    ensures Bootstrapped(fp, w, w')
  {
  }

  lemma BootstrapLeaves(fp: string -> string, w: World, w': World, c: Claim)
    requires w'.store.last == w.store.last && w'.journal == w.journal && w'.submitted == w.submitted
    requires w.store.active == Some(c) && w'.store.active in {Some(c), Some(Enriched(fp, c))}
    requires var key := c.candidate.key;
             w'.store.ledger in {w.store.ledger, w.store.ledger[fp(key) := Record(key, RecoveredActiveClaim, Some(c.claimId))],
                                 w.store.ledger[fp(key) := Record(key, Follows(c.state), Some(c.claimId))]}
    ensures Bootstrapped(fp, w, w')
  {
    OnlyRecordFacts(fp, w.store.ledger, w.store.ledger, c.candidate.key);
    OnlyRecordWritten(fp, w.store.ledger, c.candidate.key);
    hide OnlyRecordOf;
  }

  /** What completing the claim c leaves, cut off anywhere. */
  predicate Completion(fp: string -> string, w: World, w': World, c: Claim) {
    && OnlyRecordOf(fp, w.store.ledger, w'.store.ledger, c.candidate.key)
    && w'.journal == w.journal && w'.submitted == w.submitted
    && w'.queue in {w.queue, RemoveFirst(w.queue, c.candidate.key)}
    && if w'.store.active.None? then
         && c.candidate.key != "" && w'.queue == RemoveFirst(w.queue, c.candidate.key)
         && w'.store.last == Some(Enriched(fp, c).(state := Completed))
         && w'.store.ledger == w.store.ledger[fp(c.candidate.key) := Record(c.candidate.key, Follows(Completed), Some(c.claimId))]
       else w'.store.active.value in {c, Enriched(fp, c), c.(state := Completed), Enriched(fp, c).(state := Completed)}
  }

  /** Up to the COMPLETED claim. */
  lemma CompletionBegun(fp: string -> string, w: World, w': World, c: Claim)
    requires OnlyRecordOf(fp, w.store.ledger, w'.store.ledger, c.candidate.key)
    requires w'.journal == w.journal && w'.submitted == w.submitted && w'.queue in {w.queue, RemoveFirst(w.queue, c.candidate.key)}
    requires w'.store.active.Some?
    requires w'.store.active.value in {c, Enriched(fp, c), c.(state := Completed), Enriched(fp, c).(state := Completed)}
    ensures Completion(fp, w, w', c) && Completion(fp, w, w'.(enabled := false), c)
  {
    hide OnlyRecordOf, RemoveFirst;
  }

  /** And from it to the free slot. */
  lemma CompletionEnded(fp: string -> string, w: World, w1: World, w': World, c: Claim)
    requires Completion(fp, w, w1, c) && w1.store.active == Some(Enriched(fp, c).(state := Completed)) && c.candidate.key != ""
    requires w1.queue == RemoveFirst(w.queue, c.candidate.key)
    requires w1.store.ledger == w.store.ledger[fp(c.candidate.key) := Record(c.candidate.key, Follows(Completed), Some(c.claimId))]
    requires w'.journal == w1.journal && w'.submitted == w1.submitted && w'.queue == w1.queue && w'.store.ledger == w1.store.ledger
    requires w'.store.active == w1.store.active || (w'.store.active.None? && w'.store.last == w1.store.active)
    ensures Completion(fp, w, w', c)
  {
    hide OnlyRecordOf, RemoveFirst;
  }

  /** What restoring the accounting of the claim c leaves, cut off anywhere. */
  predicate Accounting(fp: string -> string, w: World, w': World, c: Claim) {
    && OnlyRecordOf(fp, w.store.ledger, w'.store.ledger, c.candidate.key)
    && w'.queue == w.queue && w'.submitted == w.submitted
    && (w'.journal == w.journal || (JournalCount(w.journal, c.claimId) == 0 && w'.journal == w.journal + [Entry(c.claimId, true)]))
    && w'.store.active in {Some(c), Some(Enriched(fp, c))}
  }

  lemma AccountingKeeps(fp: string -> string, w: World, w': World, c: Claim)
    requires Pending(fp, w) && w.store.active == Some(c) && c.state == ResolvedFilled && Accounting(fp, w, w', c)
    ensures Pending(fp, w') && SameClaim(w'.store.active.value, c)
  {
    JournalCountAppend(w.journal, Entry(c.claimId, true), c.claimId);
    hide JournalCount, KeyCount;
  }

  /** Completion of a pending claim that is journalled as it should be. */
  lemma CompletionKeeps(fp: string -> string, w: World, w': World, c: Claim)
    requires Pending(fp, w) && w.store.active == Some(c) && Completion(fp, w, w', c)
    requires Filled(c) ==> JournalCount(w.journal, c.claimId) == 1
    ensures if w'.store.active.None? then Done(fp, w', c) else Pending(fp, w') && SameClaim(w'.store.active.value, c)
  {
    RemoveFirstCounts(w.queue, c.candidate.key, c.candidate.key);
    hide JournalCount, KeyCount, RemoveFirst;
  }

  lemma PendingFacts(fp: string -> string, w: World)
    ensures Pending(fp, w) ==>
              && w.store.active.Some?
              && var c := w.store.active.value;
                 && c.candidate.key != "" && LedgerHas(fp, w.store.ledger, c.candidate.key)
                 && (c.state == ResolvedFilled ==> Accountable(c)) && (c.state == ResolvedNoFill ==> !Filled(c))
                 && (Filled(c) ==> JournalCount(w.journal, c.claimId) <= 1)
                 && (Filled(c) && c.state == Completed ==> JournalCount(w.journal, c.claimId) == 1)
  {
    hide Accountable, JournalCount, KeyCount;
  }

  lemma AccountingFacts(fp: string -> string, w: World, w': World, c: Claim)
    requires Accounting(fp, w, w', c)
    ensures KeepsTo(fp, w.store, w'.store, c.candidate) && w'.submitted == w.submitted
  {
    hide JournalCount, OnlyRecordOf;
  }

  lemma CompletionFreed(fp: string -> string, w: World, w': World, c: Claim)
    requires Completion(fp, w, w', c)
    ensures w'.store.active.None? ==>
              && w'.queue == RemoveFirst(w.queue, c.candidate.key)
              && w'.store == Store(None, Some(Enriched(fp, c).(state := Completed)),
                                   w.store.ledger[fp(c.candidate.key) := Record(c.candidate.key, Follows(Completed), Some(c.claimId))])
  {
    hide RemoveFirst, OnlyRecordOf;
  }

  lemma CompletionFacts(fp: string -> string, w: World, w': World, c: Claim)
    requires Completion(fp, w, w', c)
    ensures KeepsTo(fp, w.store, w'.store, c.candidate) && w'.submitted == w.submitted && w'.journal == w.journal
  {
    hide RemoveFirst, OnlyRecordOf;
  }

  lemma DisabledStays(fp: string -> string, w: World, w': World)
    requires w.(enabled := w'.enabled) == w'
    ensures Pending(fp, w) ==> Pending(fp, w')
  {
  }

  /** A write of the slot that leaves the claim as it is, or makes its outcome unknown. */
  lemma SettledStays(fp: string -> string, w: World, w': World)
    requires Settled(fp, w) && w'.queue == w.queue && w'.journal == w.journal
    requires w'.store == w.store || (w'.store.active.Some? && Blocking(w'.store.active.value.state))
    ensures Settled(fp, w')
  {
    hide JournalCount, KeyCount, Accountable;
  }

  lemma EnabledIrrelevant(fp: string -> string, w: World, enabled: bool)
    ensures Settled(fp, w.(enabled := enabled)) <==> Settled(fp, w)
  {
    hide JournalCount, KeyCount, Accountable;
  }

  lemma ConcludedIsKnown(fp: string -> string, w: World, c: Claim)
    ensures Concluded(fp, w, c) && w.store.active.Some? ==> w.store.active.value.state != SubmissionUnknown
  {
    hide JournalCount, KeyCount, Accountable;
  }

  lemma ConcludedStays(fp: string -> string, w: World, w': World, c: Claim)
    requires Concluded(fp, w, c) && w'.store == w.store && w'.queue == w.queue && w'.journal == w.journal
    ensures Concluded(fp, w', c)
  {
    hide JournalCount, KeyCount, Accountable;
  }

  lemma CompletionLeaves(fp: string -> string, w: World, w': World, c: Claim)
    requires Completion(fp, w, w', c)
    ensures w'.store.active.Some? ==> w'.store.active.value.claimId == c.claimId && w'.store.active.value.candidate == c.candidate
    ensures if w'.store.active.None? then Done(fp, w', c) ==> Concluded(fp, w', c)
            else Pending(fp, w') && SameClaim(w'.store.active.value, c) ==> Concluded(fp, w', c)
  {
    hide OnlyRecordOf, RemoveFirst, Pending, Done;
  }

  lemma CompletionSettles(fp: string -> string, w: World, w': World, c: Claim)
    requires Completion(fp, w, w', c)
    requires if w'.store.active.None? then Done(fp, w', c) else Pending(fp, w')
    ensures Settled(fp, w')
  {
    hide JournalCount, KeyCount, RemoveFirst, Pending;
  }

  /** A response that is not a mapping never settles the claim, so a settled claim stores the very response it was
  judged by. */
  lemma StoredOrderSettles(o: Order)
    ensures Resolved(Resolution(Decide(o))) ==> StoredOrder(o) == o
  {
    hide Normalized, StateCode, FullEvidence;
  }

  /** A freshly resolved claim, before or after its journal entry. */
  lemma ResolvedPending(fp: string -> string, w: World)
    requires w.store.active.Some?
    requires var c := w.store.active.value;
             && Resolved(c.state) && Tradable(c.candidate) && c.claimId != ""
             && c.order.Some? && c.fill == Some(Decide(c.order.value)) && c.state == Resolution(c.fill.value)
             && LedgerHas(fp, w.store.ledger, c.candidate.key) && KeyCount(w.queue, c.candidate.key) <= 1
             && JournalCount(w.journal, c.claimId) <= 1
    ensures Pending(fp, w)
  {
    FilledOnlyOnFullEvidence(w.store.active.value.order.value);
    hide JournalCount, KeyCount, FullEvidence, StateCode, Normalized;
  }

  lemma SameClaimPending(fp: string -> string, w: World, c: Claim, d: Claim)
    requires SameClaim(c, d)
    ensures Done(fp, w, c) ==> Done(fp, w, d)
  {
    hide JournalCount, KeyCount;
  }

  predicate AllFine(faults: seq<Fault>) {
    forall i | 0 <= i < |faults| :: faults[i] == Fine
  }

  // ---------------------------------------------------------------- where a run is cut off

  /** What k store operations in a row come to: all go through, or one of them is the first that does not. */
  datatype Spent = Through(rest: seq<Fault>) | Cut(fault: Fault, rest: seq<Fault>)

  function Spend(faults: seq<Fault>, k: nat): Spent {
    if k == 0 || faults == [] then Through(faults)
    else if faults[0] != Fine then Cut(faults[0], faults[1..])
    else Spend(faults[1..], k - 1)
  }

  lemma {:induction false} SpendAdd(faults: seq<Fault>, j: nat, k: nat)
    ensures var first := Spend(faults, j);
            Spend(faults, j + k) == if first.Through? then Spend(first.rest, k) else first
  {
    if j > 0 && faults != [] && faults[0] == Fine {
      SpendAdd(faults[1..], j - 1, k);
    } else if j > 0 && faults == [] {
      assert Spend(faults, k) == Through([]);
    }
  }

  function StopOf(f: Fault): Stop {
    if f in {RaiseBefore, RaiseAfter} then Raised else Died
  }

  /** A result that comes from k store operations: it fails exactly when one of them is cut off, and in its way. */
  predicate Spends<T>(before: seq<Fault>, k: nat, r: Result<T, Stop>, after: seq<Fault>) {
    match Spend(before, k)
    case Through(rest) => r.Ok? && after == rest
    case Cut(f, rest) => r.Err? && r.error == StopOf(f) && after == rest
  }

  /** The next write takes effect, whether or not the caller is told. */
  predicate Lands(faults: seq<Fault>) {
    faults == [] || faults[0] in {Fine, RaiseAfter, DieAfter}
  }

  /** One of the next k store operations raises, and the write of the error path takes effect. */
  predicate LosesResolution(faults: seq<Fault>, k: nat) {
    var spent := Spend(faults, k);
    spent.Cut? && StopOf(spent.fault) == Raised && Lands(spent.rest)
  }

  /** The reservation of create_claim takes effect, and it or its read-back is cut off. */
  predicate CutAtReservation(faults: seq<Fault>) {
    Lands(faults) && Spend(faults, 2).Cut?
  }

  /** The state of the record behind a slot that could not be taken: an exception is recorded, if the write of the record
  takes effect, and a death leaves the reservation. */
  function SlotFailure(spent: Spent): LedgerState
    requires spent.Cut?
  {
    if StopOf(spent.fault) == Raised && Lands(spent.rest) then ClaimCreationError else Reserved
  }

  lemma LosesAdd(faults: seq<Fault>, j: nat, k: nat)
    ensures var first := Spend(faults, j);
            LosesResolution(faults, j + k) <==> if first.Through? then LosesResolution(first.rest, k) else LosesResolution(faults, j)
  {
    SpendAdd(faults, j, k);
    hide Spend, StopOf, Lands;
  }

  function Enriched(fp: string -> string, c: Claim): Claim {
    c.(fingerprint := Some(fp(c.candidate.key)))
  }

  predicate SameOwner(current: Option<Claim>, expected: Claim) {
    current.Some? && current.value.claimId == expected.claimId && current.value.state == expected.state
  }

  // ---------------------------------------------------------------- the runs in relation

  /** What becomes of the head of the queue with the slot free.  A head that the ledger knows already is never claimed:
  the checks may still drop it, and let through, it answers a claim conflict and stops the bot, or raises if the record
  under its fingerprint is another key's.  And it is a cut at the reservation that leaves a head so. */
  predicate HeadServed(fp: string -> string, w: World, w': World, gates: Gates, faults: seq<Fault>, o: Outcome) {
    w.queue != [] ==>
      var c := w.queue[0];
      if fp(c.key) in w.store.ledger then
        && w'.queue == (if w.enabled && Drops(gates, c) then w.queue[1..] else w.queue)
        && (AllFine(faults) && w.enabled && Admits(gates, c) ==>
              if LedgerHas(fp, w.store.ledger, c.key) then o == ClaimConflict && !w'.enabled
              else o == HandoffException && w'.enabled)
      else w.enabled && Admits(gates, c) && CutAtReservation(faults) ==>
        && w'.store == w.store.(ledger := w.store.ledger[fp(c.key) := Record(c.key, Reserved, None)])
        && w'.queue == w.queue && w'.submitted == w.submitted
        && o == CutAnswer(Spend(faults, 2).fault)
  }

  /** What a run answers whose operation was cut off before the submission. */
  function CutAnswer(f: Fault): Outcome {
    if f in {RaiseBefore, RaiseAfter} then HandoffException else ProcessDied
  }

  /** The claim of candidate c under the answer a, and the rows it ends in: completed and archived if the answer settles
  the order, unresolved in the slot otherwise. */
  function JudgedClaim(fp: string -> string, drawn: string, c: Candidate, a: Order): Claim {
    Claim(drawn, c, Resolution(Decide(a)), Some(fp(c.key)), Some(StoredOrder(a)), Some(Decide(a)))
  }

  function JudgedStore(fp: string -> string, s: Store, drawn: string, c: Candidate, a: Order): Store {
    var claim := JudgedClaim(fp, drawn, c, a);
    if Resolved(claim.state) then
      Store(None, Some(claim.(state := Completed)), s.ledger[fp(c.key) := Record(c.key, Follows(Completed), Some(drawn))])
    else
      Store(Some(claim), s.last, s.ledger[fp(c.key) := Record(c.key, Follows(claim.state), Some(drawn))])
  }

  /** The rows behind a submission that raised. */
  function UnknownStore(fp: string -> string, s: Store, drawn: string, c: Candidate): Store {
    Store(Some(Claim(drawn, c, SubmissionUnknown, Some(fp(c.key)), None, None)), s.last,
          s.ledger[fp(c.key) := Record(c.key, Follows(SubmissionUnknown), Some(drawn))])
  }

  lemma ResolutionKinds(d: FillDecision)
    ensures Resolution(d) in {ResolvedFilled, ResolvedNoFill, Unresolved}
    ensures !Blocking(Resolution(d)) <==> Resolved(Resolution(d))
  {
  }

  lemma Rewritten(ledger: map<string, Record>, f: string, r: Record, q: Record)
    ensures ledger[f := r][f := q] == ledger[f := q]
  {
  }

  /** From the claim over the judged one to its end. */
  lemma JudgedIs(fp: string -> string, before: Store, claim: Claim, a: Order, r: Claim, mid: Store, after: Store)
    requires claim.fingerprint == Some(fp(claim.candidate.key))
    requires r == claim.(state := Resolution(Decide(a)), order := Some(StoredOrder(a)), fill := Some(Decide(a)))
    requires var key := claim.candidate.key;
             && mid == Store(Some(r), before.last, before.ledger[fp(key) := Record(key, Follows(r.state), Some(claim.claimId))])
             && after == if Resolved(r.state)
                         then Store(None, Some(r.(state := Completed)), mid.ledger[fp(key) := Record(key, Follows(Completed), Some(claim.claimId))])
                         else mid
    ensures after == JudgedStore(fp, before, claim.claimId, claim.candidate, a)
  {
    hide Decide, Resolution, StoredOrder;
    var key := claim.candidate.key;
    Rewritten(before.ledger, fp(key), Record(key, Follows(r.state), Some(claim.claimId)), Record(key, Follows(Completed), Some(claim.claimId)));
  }

  lemma UnknownIs(fp: string -> string, before: Store, claim: Claim)
    requires claim.order.None? && claim.fill.None?
    ensures var c := claim.candidate;
            Store(Some(Enriched(fp, claim).(state := SubmissionUnknown)), before.last,
                  before.ledger[fp(c.key) := Record(c.key, Follows(SubmissionUnknown), Some(claim.claimId))])
              == UnknownStore(fp, before, claim.claimId, c)
  {
  }

  /** What the rows end in does not depend on the record the claim was made with. */
  lemma EndsAlike(fp: string -> string, before: Store, mid: Store, drawn: string, c: Candidate, exchange: Option<Order>)
    requires mid.last == before.last
    requires mid.ledger == before.ledger[fp(c.key) := Record(c.key, Follows(Claimed), Some(drawn))]
    ensures UnknownStore(fp, mid, drawn, c) == UnknownStore(fp, before, drawn, c)
    ensures exchange.Some? ==> JudgedStore(fp, mid, drawn, c, exchange.value) == JudgedStore(fp, before, drawn, c, exchange.value)
  {
    hide Decide, Resolution, StoredOrder;
    var r := Record(c.key, Follows(Claimed), Some(drawn));
    Rewritten(before.ledger, fp(c.key), r, Record(c.key, Follows(SubmissionUnknown), Some(drawn)));
    if exchange.Some? {
      Rewritten(before.ledger, fp(c.key), r, Record(c.key, Follows(Completed), Some(drawn)));
      Rewritten(before.ledger, fp(c.key), r, Record(c.key, Follows(Resolution(Decide(exchange.value))), Some(drawn)));
    }
  }

  /** One run without faults, with a new candidate at the head that the checks let through: it is submitted once and
  journalled once under the drawn id.  A fill answers Executed, anything else its code.  If the answer settles the order,
  the slot is free again, the candidate gone, the claim archived and its record COMPLETED; otherwise the claim stays
  UNRESOLVED in the slot and the candidate queued.  If the submission raises, nothing is journalled and the outcome is
  unknown. */
  predicate HeadSubmitted(fp: string -> string, w: World, w': World, drawn: string, exchange: Option<Order>, o: Outcome)
    requires w.queue != []
  {
    var c, f := w.queue[0], fp(w.queue[0].key);
    && w'.submitted == w.submitted + [c.key]
    && match exchange
       case None =>
         && o == SubmissionOutcomeUnknown && !w'.enabled && w'.queue == w.queue && w'.journal == w.journal
         && w'.store.active == Some(Claim(drawn, c, SubmissionUnknown, Some(f), None, None)) && w'.store.last == w.store.last
         && w'.store.ledger == w.store.ledger[f := Record(c.key, Follows(SubmissionUnknown), Some(drawn))]
       case Some(a) =>
         var d := Decide(a);
         var stored := if a.NotAMapping? then Order(Some(-1), false, false, false, false, NoVerification) else a;
         var claim := Claim(drawn, c, Resolution(d), Some(f), Some(stored), Some(d));
         && w'.journal == w.journal + [Entry(drawn, false)]
         && o == (if Resolution(d) == ResolvedFilled then Executed else NotFilled(d.code))
         && w'.enabled == !d.requiresReview
         && if Resolution(d) in {ResolvedFilled, ResolvedNoFill} then
              && w'.queue == w.queue[1..] && w'.store.active == None && w'.store.last == Some(claim.(state := Completed))
              && w'.store.ledger == w.store.ledger[f := Record(c.key, Follows(Completed), Some(drawn))]
            else
              && w'.queue == w.queue && w'.store.active == Some(claim.(state := Unresolved)) && w'.store.last == w.store.last
              && w'.store.ledger == w.store.ledger[f := Record(c.key, Follows(Unresolved), Some(drawn))]
  }

  /** What the checks before a claim do to the queue and answer. */
  predicate HeadChecked(w: World, w': World, gates: Gates, o: Outcome) {
    && (w.queue == [] ==> o == NoCandidate && w' == w)
    && (w.queue != [] && !w.enabled ==> o == BotStopped && w' == w)
    && (w.queue != [] && w.enabled ==>
          var c := w.queue[0];
          var valid := c.symbol != "" && c.side in {"Buy", "Sell"} && !gates.stale;
          && (c.key == "" ==> o == QueueRemoveFailed && w' == w)
          && (c.key != "" && !valid ==> o == CandidateDropped && w' == w.(queue := w.queue[1..]))
          && (c.key != "" && valid && (gates.riskBlocked || gates.guardBlocked) ==> o == CandidateKept && w' == w)
          && (c.key != "" && valid && !gates.riskBlocked && !gates.guardBlocked && (gates.planBlocked || gates.sizingBlocked) ==>
                o == CandidateDropped && w' == w.(queue := w.queue[1..])))
  }

  /** The checks let the head through, and the ledger does not know its key. */
  predicate NewHead(fp: string -> string, w: World, gates: Gates) {
    && w.enabled && w.queue != [] && fp(w.queue[0].key) !in w.store.ledger
    && w.queue[0].key != "" && w.queue[0].symbol != "" && w.queue[0].side in {"Buy", "Sell"}
    && !gates.stale && !gates.riskBlocked && !gates.guardBlocked && !gates.planBlocked && !gates.sizingBlocked
  }

  /** The checks let the head through. */
  predicate LetThrough(w: World, gates: Gates) {
    w.enabled && w.queue != [] && Admits(gates, w.queue[0])
  }

  lemma ThroughFacts(fp: string -> string, w: World, gates: Gates)
    requires LetThrough(w, gates)
    ensures w.enabled && w.queue != [] && Tradable(w.queue[0]) && w.queue[0].key != ""
    ensures NewHead(fp, w, gates) <==> fp(w.queue[0].key) !in w.store.ledger
  {
  }

  /** A head that the checks stop. */
  lemma CheckedRuns(fp: string -> string, w: World, w': World, gates: Gates, faults: seq<Fault>, o: Outcome)
    requires w.store.active.None? && HeadChecked(w, w', gates, o) && !LetThrough(w, gates)
    ensures RunRelation(fp, w, w') && HeadServed(fp, w, w', gates, faults, o) && !NewHead(fp, w, gates)
    ensures w.queue != [] && w.queue[0].key == "" ==> w' == w
  {
    hide RunRelation, CutAtReservation, LedgerHas;
    NothingMoves(fp, w, w');
  }

  /** And one that they let through. */
  lemma ThroughServed(fp: string -> string, w: World, w': World, gates: Gates, faults: seq<Fault>, o: Outcome)
    requires LetThrough(w, gates)
    requires var c := w.queue[0];
             if fp(c.key) in w.store.ledger then
               && w'.queue == w.queue
               && (AllFine(faults) ==>
                     if LedgerHas(fp, w.store.ledger, c.key) then o == ClaimConflict && !w'.enabled else o == HandoffException && w'.enabled)
             else CutAtReservation(faults) ==>
               && w'.store == w.store.(ledger := w.store.ledger[fp(c.key) := Record(c.key, Reserved, None)])
               && w'.queue == w.queue && w'.submitted == w.submitted
               && o == CutAnswer(Spend(faults, 2).fault)
    ensures HeadServed(fp, w, w', gates, faults, o) && HeadChecked(w, w', gates, o)
  {
    hide CutAtReservation, LedgerHas, AllFine;
  }

  lemma ServedIs(fp: string -> string, w: World, w': World, drawn: string, exchange: Option<Order>, o: Outcome)
    requires w.queue != [] && w.enabled
    requires var c := w.queue[0];
             && w'.submitted == w.submitted + [c.key]
             && match exchange
                case None =>
                  && o == SubmissionOutcomeUnknown && !w'.enabled && w'.queue == w.queue && w'.journal == w.journal
                  && w'.store == UnknownStore(fp, w.store, drawn, c)
                case Some(a) =>
                  && w'.journal == w.journal + [Entry(drawn, false)] && w'.store == JudgedStore(fp, w.store, drawn, c, a)
                  && o == (if Decide(a).accepted then Executed else NotFilled(Decide(a).code))
                  && w'.enabled == (w.enabled && !Decide(a).requiresReview)
                  && w'.queue == if Resolved(Resolution(Decide(a))) then RemoveFirst(w.queue, c.key) else w.queue
    ensures HeadSubmitted(fp, w, w', drawn, exchange, o)
  {
    hide Decide;
  }

  lemma NothingRuns(fp: string -> string, w: World)
    ensures RunRelation(fp, w, w)
  {
    hide JournalCount, KeyCount, Accountable, Tradable;
  }

  /** A free slot, and at most the head of the queue or the switch change. */
  lemma NothingMoves(fp: string -> string, w: World, w': World)
    requires w.store.active.None? && w'.store == w.store && w'.journal == w.journal && w'.submitted == w.submitted
    requires w'.queue == w.queue || (w.queue != [] && w'.queue == w.queue[1..])
    ensures RunRelation(fp, w, w')
  {
    hide JournalCount, KeyCount, Accountable, Tradable;
  }

  lemma RecoveryRuns(fp: string -> string, w: World, w': World)
    requires w.store.active.Some? && FailsClosed(w, w') && Finishes(fp, w, w')
    requires KeepsTo(fp, w.store, w'.store, w.store.active.value.candidate)
    ensures RunRelation(fp, w, w')
  {
    hide Finishes, KeepsStranded, KeepsTo, Tradable;
    KeepsFacts(fp, w.store, w'.store, w.store.active.value.candidate);
    KeepsToStranded(fp, w, w', w.store.active.value.candidate);
  }

  lemma AttemptRuns(fp: string -> string, w: World, w': World)
    requires w.store.active.None? && w.queue != [] && w.enabled && Tradable(w.queue[0]) && KeepsTo(fp, w.store, w'.store, w.queue[0])
    requires var c := w.queue[0];
             if fp(c.key) in w.store.ledger then w' == w.(enabled := w'.enabled)
             else w'.submitted == w.submitted
                  || (w'.submitted == w.submitted + [c.key] && Settled(fp, w') && fp(c.key) in w'.store.ledger)
    ensures RunRelation(fp, w, w')
  {
    PendingFacts(fp, w);
    hide Pending, Settled, KeepsStranded, KeepsTo, Tradable;
    KeepsFacts(fp, w.store, w'.store, w.queue[0]);
    if fp(w.queue[0].key) in w.store.ledger {
      NothingMoves(fp, w, w');
    } else {
      KeepsToStranded(fp, w, w', w.queue[0]);
    }
  }

  // ---------------------------------------------------------------- the runner

  class Handoff {
    const fp: string -> string
    var store: Store
    var queue: seq<Candidate>
    var journal: seq<Entry>
    var submitted: seq<string>
    var enabled: bool
    var faults: seq<Fault>
    /** Every value the durable rows have had. */
    ghost var trail: seq<Store>

    function Now(): World
      reads this
    {
      World(store, queue, journal, submitted, enabled)
    }

    ghost predicate Valid()
      reads this
    {
      |trail| > 0 && trail[|trail| - 1] == store && LegalTrail(trail)
    }

    constructor (fp: string -> string, w: World, faults: seq<Fault>)
      ensures Valid()
      ensures Now() == w
      ensures this.fp == fp
      ensures this.faults == faults
    {
      this.fp := fp;
      store := w.store;
      queue := w.queue;
      journal := w.journal;
      submitted := w.submitted;
      enabled := w.enabled;
      this.faults := faults;
      trail := [w.store];
    }

    method NextFault() returns (f: Fault)
      modifies this`faults
      ensures AllFine(old(faults)) ==> f == Fine && AllFine(faults)
      ensures old(faults) != [] ==> f == old(faults)[0] && faults == old(faults)[1..]
      ensures old(faults) == [] ==> f == Fine && faults == []
    {
      f := Fine;
      if faults != [] {
        f := faults[0];
        faults := faults[1..];
      }
    }

    /** One writing store operation. */
    method Write(s: Store) returns (r: Result<bool, Stop>)
      requires Valid() && Legal(store, s)
      modifies this`store, this`trail, this`faults
      ensures Valid() && old(trail) <= trail
      ensures r.Ok? ==> store == s && Lands(old(faults))
      ensures store == if Lands(old(faults)) then s else old(store)
      ensures Spends(old(faults), 1, r, faults)
      ensures AllFine(old(faults)) ==> r.Ok? && AllFine(faults)
    {
      assert faults != [] ==> Spend(faults[1..], 0) == Through(faults[1..]);
      var f := NextFault();
      if f in {Fine, RaiseAfter, DieAfter} {
        trail := trail + [s];
        store := s;
      }
      r := if f == Fine then Ok(true) else Err(StopOf(f));
    }

    /** One reading store operation. */
    method Read() returns (r: Result<Store, Stop>)
      modifies this`faults
      ensures r.Ok? ==> r.value == store
      ensures Spends(old(faults), 1, r, faults)
      ensures AllFine(old(faults)) ==> r.Ok? && AllFine(faults)
    {
      assert faults != [] ==> Spend(faults[1..], 0) == Through(faults[1..]);
      var f := NextFault();
      r := if f == Fine then Ok(store) else Err(StopOf(f));
    }

    method AddJournal(e: Entry) returns (r: Result<bool, Stop>)
      modifies this`journal, this`faults
      ensures r.Ok? ==> journal == old(journal) + [e]
      ensures r.Err? ==> journal in {old(journal), old(journal) + [e]}
      ensures Spends(old(faults), 1, r, faults)
      ensures AllFine(old(faults)) ==> r.Ok? && AllFine(faults)
    {
      assert faults != [] ==> Spend(faults[1..], 0) == Through(faults[1..]);
      var f := NextFault();
      if f in {Fine, RaiseAfter, DieAfter} {
        journal := journal + [e];
      }
      r := if f == Fine then Ok(true) else Err(StopOf(f));
    }

    /** _persist_claim: write the claim, read it back. */
    method PersistClaim(u: Claim) returns (r: Result<Claim, Stop>)
      requires Valid() && Legal(store, store.(active := Some(u)))
      modifies this`store, this`trail, this`faults
      ensures Valid() && old(trail) <= trail
      ensures store == if Lands(old(faults)) then old(store).(active := Some(u)) else old(store)
      ensures r.Ok? ==> store.active == Some(u) && r.value == u && Lands(old(faults))
      ensures Spends(old(faults), 2, r, faults)
      ensures AllFine(old(faults)) ==> r.Ok? && AllFine(faults)
    {
      hide Spend;
      SpendAdd(faults, 1, 1);
      var _ :- Write(store.(active := Some(u)));
      var saved :- Read();
      r := if SameOwner(saved.active, u) then Ok(saved.active.value) else Err(Raised);
    }

    /** Write a ledger record and read it back. */
    method WriteRecord(record: Record) returns (r: Result<Record, Stop>)
      requires Valid()
      modifies this`store, this`trail, this`faults
      ensures Valid() && old(trail) <= trail
      ensures store == if Lands(old(faults)) then old(store).(ledger := old(store).ledger[fp(record.key) := record]) else old(store)
      ensures r.Ok? ==> store.ledger == old(store).ledger[fp(record.key) := record]
      ensures Spends(old(faults), 2, r, faults)
      ensures AllFine(old(faults)) ==> r.Ok? && AllFine(faults)
    {
      hide Spend;
      SpendAdd(faults, 1, 1);
      var f := fp(record.key);
      var _ :- Write(store.(ledger := store.ledger[f := record]));
      var saved :- Read();
      r := if f in saved.ledger && saved.ledger[f].key == record.key && saved.ledger[f].state == record.state
           then Ok(saved.ledger[f]) else Err(Raised);
    }

    /** The ledger record of the claim, created if an earlier version left none. */
    method EnsureRecord(u: Claim) returns (r: Result<Record, Stop>)
      requires Valid()
      modifies this`store, this`trail, this`faults
      ensures Valid() && old(trail) <= trail && store.last == old(store).last && store.active == old(store).active
      ensures store.ledger in {old(store).ledger, old(store).ledger[fp(u.candidate.key) := Record(u.candidate.key, RecoveredActiveClaim, Some(u.claimId))]}
      ensures fp(u.candidate.key) in old(store).ledger ==> store.ledger == old(store).ledger && Spends(old(faults), 1, r, faults)
      ensures r.Ok? ==> fp(u.candidate.key) in store.ledger && store.ledger[fp(u.candidate.key)] == r.value
      ensures AllFine(old(faults)) ==> r.Ok? && AllFine(faults)
    {
      hide Spend;
      var f := fp(u.candidate.key);
      var read :- Read();
      if f !in read.ledger {
        var _ :- Write(store.(ledger := store.ledger[f := Record(u.candidate.key, RecoveredActiveClaim, Some(u.claimId))]));
        read :- Read();
      }
      r := Ok(read.ledger[f]);
    }

    /** The ledger record of the active claim, and the claim completed with its identity fields. */
    method EnsureMetadata(u: Claim) returns (r: Result<(Claim, Record), Stop>)
      requires Valid() && store.active == Some(u)
      modifies this`store, this`trail, this`faults
      ensures Valid() && old(trail) <= trail && store.last == old(store).last
      ensures store.active in {Some(u), Some(Enriched(fp, u))}
      ensures store.ledger in {old(store).ledger, old(store).ledger[fp(u.candidate.key) := Record(u.candidate.key, RecoveredActiveClaim, Some(u.claimId))]}
      ensures fp(u.candidate.key) in old(store).ledger ==> store.ledger == old(store).ledger
      ensures r.Ok? ==> store.active == Some(Enriched(fp, u)) && r.value.0 == Enriched(fp, u) && r.value.1.key == u.candidate.key
      ensures Enriched(fp, u) == u && LedgerHas(fp, old(store).ledger, u.candidate.key) ==> Spends(old(faults), 2, r, faults)
      ensures AllFine(old(faults)) && (fp(u.candidate.key) in old(store).ledger ==> LedgerHas(fp, old(store).ledger, u.candidate.key))
              ==> r.Ok? && AllFine(faults)
    {
      hide Spend;
      SpendAdd(faults, 1, 1);
      var current :- Read();
      if !SameOwner(current.active, u) {
        return Err(Raised);
      }
      var record :- EnsureRecord(u);
      if record.key != u.candidate.key {
        return Err(Raised);
      }
      var enriched := Enriched(fp, u);
      if enriched != u {
        var _ :- Write(store.(active := Some(enriched)));
        var _ :- Read();
      }
      r := Ok((enriched, record));
    }

    /** transition_claim as composed: the claim first, then its metadata, then the ledger. */
    method Transition(u: Claim) returns (r: Result<Claim, Stop>)
      requires Valid() && Legal(store, store.(active := Some(u)))
      modifies this`store, this`trail, this`faults
      ensures Valid() && old(trail) <= trail && store.last == old(store).last
      ensures if Lands(old(faults)) then store.active in {Some(u), Some(Enriched(fp, u))} else store == old(store)
      ensures Enriched(fp, u) == u && LedgerHas(fp, old(store).ledger, u.candidate.key) ==> Spends(old(faults), 6, r, faults)
      ensures OnlyRecordOf(fp, old(store).ledger, store.ledger, u.candidate.key)
      ensures r.Ok? ==>
                && r.value == Enriched(fp, u) && store.active == Some(r.value)
                && store.ledger == old(store).ledger[fp(u.candidate.key) := Record(u.candidate.key, Follows(u.state), Some(u.claimId))]
      ensures AllFine(old(faults)) && (fp(u.candidate.key) in old(store).ledger ==> LedgerHas(fp, old(store).ledger, u.candidate.key))
              ==> r.Ok? && AllFine(faults)
    {
      hide Spend, Legal, LegalTrail, NextState, Lands, OnlyRecordOf;
      ghost var before, f := store.ledger, fp(u.candidate.key);
      OnlyRecordFacts(fp, before, before, u.candidate.key);
      OnlyRecordWritten(fp, before, u.candidate.key);
      SpendAdd(faults, 2, 4);
      var saved :- PersistClaim(u);
      SpendAdd(faults, 2, 2);
      var ensured :- EnsureMetadata(saved);
      var (claim, record) := ensured;
      var _ :- WriteRecord(record.(state := Follows(u.state), claimId := Some(u.claimId)));
      r := Ok(claim);
    }

    /** What every start of the process does before its first run: complete the claim in the slot and let the ledger
    follow it. */
    method BootstrapClaim() returns (r: Result<bool, Stop>)
      requires Valid()
      modifies this`store, this`trail, this`faults
      ensures Valid() && old(trail) <= trail
      ensures Bootstrapped(fp, old(Now()), Now())
      ensures var before := old(store);
              AllFine(old(faults)) && before.active.Some? ==>
                var c := before.active.value;
                (fp(c.candidate.key) in before.ledger ==> LedgerHas(fp, before.ledger, c.candidate.key)) ==>
                  && r == Ok(true) && store.active == Some(Enriched(fp, c))
                  && store.ledger == before.ledger[fp(c.candidate.key) := Record(c.candidate.key, Follows(c.state), Some(c.claimId))]
    {
      hide Spend, Lands, LegalTrail, Spends, Bootstrapped;
      ghost var w := Now();
      BetweenIsRestart(fp, w, w);
      var read :- Read();
      if read.active.None? {
        return Ok(false);
      }
      ghost var c := read.active.value;
      var ensured := EnsureMetadata(read.active.value);
      BootstrapLeaves(fp, w, Now(), c);
      if ensured.Err? {
        return Err(ensured.error);
      }
      var (claim, record) := ensured.value;
      OnlyRecordWritten(fp, w.store.ledger, c.candidate.key);
      var written := WriteRecord(record.(state := Follows(claim.state), claimId := Some(claim.claimId)));
      BootstrapLeaves(fp, w, Now(), c);
      r := if written.Ok? then Ok(true) else Err(written.error);
    }

    /** The slot part of create_claim; run_once has just seen the slot empty. */
    method TakeSlot(claim: Claim) returns (r: Result<Claim, Stop>)
      requires Valid() && store.active.None? && claim.state == Claimed
      modifies this`store, this`trail, this`faults
      ensures Valid() && old(trail) <= trail
      ensures store in {old(store), old(store).(active := Some(claim))}
      ensures r.Ok? ==> store.active == Some(claim) && r.value == claim
      ensures Spends(old(faults), 2, r, faults)
      ensures AllFine(old(faults)) ==> r.Ok? && AllFine(faults)
    {
      hide Spend;
      SpendAdd(faults, 1, 1);
      var _ :- Write(store.(active := Some(claim)));
      var saved :- Read();
      r := if SameOwner(saved.active, claim) then Ok(saved.active.value) else Err(Raised);
    }

    /** create_claim after the reservation; a slot that raises is recorded in the ledger. */
    method ClaimReserved(c: Candidate, drawn: string, reservation: Record) returns (r: Result<Option<Claim>, Stop>)
      requires Valid() && store.active.None? && reservation.key == c.key
      requires fp(c.key) in store.ledger && store.ledger[fp(c.key)] == reservation
      modifies this`store, this`trail, this`faults
      ensures Valid() && old(trail) <= trail && store.last == old(store).last
      ensures OnlyRecordOf(fp, old(store).ledger, store.ledger, c.key)
      ensures store.active.Some? ==> store.active.value.state == Claimed && store.active.value.candidate == c
      ensures r.Ok? ==>
                && r.value == Some(Claim(drawn, c, Claimed, Some(fp(c.key)), None, None))
                && store.active == r.value && LedgerHas(fp, store.ledger, c.key)
                && store.ledger == old(store).ledger[fp(c.key) := Record(c.key, Follows(Claimed), Some(drawn))]
      ensures AllFine(old(faults)) ==> r.Ok? && AllFine(faults)
      ensures reservation == Record(c.key, Reserved, None) && Spend(old(faults), 2).Cut? ==>
                r.Err? && store.ledger == old(store).ledger[fp(c.key) := Record(c.key, SlotFailure(Spend(old(faults), 2)), None)]
    {
      hide Spend;
      var taken := TakeSlot(Claim(drawn, c, Claimed, None, None, None));
      if taken.Err? {
        if taken.error == Raised {
          var _ :- WriteRecord(reservation.(state := ClaimCreationError));
        }
        return Err(taken.error);
      }
      var claim :- PersistClaim(Enriched(fp, taken.value));
      var _ :- WriteRecord(reservation.(state := Follows(Claimed), claimId := Some(drawn)));
      r := Ok(Some(claim));
    }

    /** create_claim as composed: reserve in the ledger, take the slot, complete the claim, record it. */
    method CreateClaim(c: Candidate, drawn: string) returns (r: Result<Option<Claim>, Stop>)
      requires Valid() && store.active.None?
      modifies this`store, this`trail, this`faults
      ensures Valid() && old(trail) <= trail && store.last == old(store).last
      ensures OnlyRecordOf(fp, old(store).ledger, store.ledger, c.key)
      ensures fp(c.key) in old(store).ledger ==> store == old(store) && (r.Ok? ==> r.value.None?)
      ensures store.active.Some? ==> store.active.value.state == Claimed && store.active.value.candidate == c
      ensures r.Ok? && r.value.Some? ==>
                && r.value.value == Claim(drawn, c, Claimed, Some(fp(c.key)), None, None)
                && store.active == r.value && LedgerHas(fp, store.ledger, c.key)
                && store.ledger == old(store).ledger[fp(c.key) := Record(c.key, Follows(Claimed), Some(drawn))]
      ensures r.Ok? && r.value.None? ==> store == old(store)
      ensures AllFine(old(faults)) && fp(c.key) !in old(store).ledger ==> r.Ok? && r.value.Some? && AllFine(faults)
      ensures AllFine(old(faults)) && LedgerHas(fp, old(store).ledger, c.key) ==> r == Ok(None)
      ensures fp(c.key) in old(store).ledger && !LedgerHas(fp, old(store).ledger, c.key) ==> r.Err?
      ensures AllFine(old(faults)) && r.Err? ==> r.error == Raised
      ensures fp(c.key) !in old(store).ledger && CutAtReservation(old(faults)) ==>
                && r == Err(StopOf(Spend(old(faults), 2).fault))
                && store == old(store).(ledger := old(store).ledger[fp(c.key) := Record(c.key, Reserved, None)])
      ensures var reserving := Spend(old(faults), 2);
              fp(c.key) !in old(store).ledger && reserving.Through? && Spend(reserving.rest, 2).Cut? ==>
                && r.Err?
                && store.ledger == old(store).ledger[fp(c.key) := Record(c.key, SlotFailure(Spend(reserving.rest, 2)), None)]
    {
      SpendAdd(faults, 1, 1);
      var f := fp(c.key);
      if f in store.ledger {
        var _ :- Read();
        var existing :- Read();
        return if existing.ledger[f].key == c.key then Ok(None) else Err(Raised);
      }
      var _ :- Write(store.(ledger := store.ledger[f := Record(c.key, Reserved, None)]));
      var saved :- Read();
      r := ClaimReserved(c, drawn, saved.ledger[f]);
    }

    /** Archive the completed claim, then free the slot. */
    method ArchiveAndClear(c: Claim) returns (r: Result<bool, Stop>)
      requires Valid() && store.active == Some(c) && c.state == Completed
      modifies this`store, this`trail, this`faults
      ensures Valid() && old(trail) <= trail && store.ledger == old(store).ledger
      ensures store.active == Some(c) || (store.active.None? && store.last == Some(c))
      ensures r.Ok? ==> store.active.None?
      ensures Spends(old(faults), 3, r, faults)
      ensures AllFine(old(faults)) ==> r.Ok? && AllFine(faults)
    {
      hide Spend;
      SpendAdd(faults, 1, 2);
      var _ :- Write(store.(last := Some(c)));
      SpendAdd(faults, 1, 1);
      var saved :- Read();
      if saved.last.None? || saved.last.value.claimId != c.claimId {
        return Err(Raised);
      }
      r := Write(store.(active := None));
    }

    /** Journal a recovered fill, unless it is journalled already. */
    method RestoreAccounting(c: Claim) returns (r: Result<bool, Stop>)
      modifies this`journal, this`faults
      ensures journal == old(journal) || (JournalCount(old(journal), c.claimId) == 0 && journal == old(journal) + [Entry(c.claimId, true)])
      ensures r.Ok? ==> Accountable(c) && JournalCount(journal, c.claimId) >= 1
      ensures AllFine(old(faults)) ==> AllFine(faults)
      ensures AllFine(old(faults)) ==>
                (r.Ok? <==>
                   && c.claimId != "" && c.order.Some? && c.order.value.Order? && c.order.value.retCode == Some(0)
                   && c.fill.Some? && c.fill.value.accepted
                   && c.candidate.key != "" && c.candidate.symbol != "" && c.candidate.side in {"Buy", "Sell"})
      ensures AllFine(old(faults)) && r.Ok? && JournalCount(old(journal), c.claimId) == 0 ==> journal == old(journal) + [Entry(c.claimId, true)]
      ensures !Accountable(c) ==> r == Err(Raised) && journal == old(journal) && faults == old(faults)
    {
      if !Accountable(c) {
        return Err(Raised);
      }
      JournalCountAppend(journal, Entry(c.claimId, true), c.claimId);
      if JournalCount(journal, c.claimId) == 0 {
        var _ :- AddJournal(Entry(c.claimId, true));
      }
      r := Ok(true);
    }

    /** The hotfix before completion: restore the accounting of a recovered fill and note it in the claim. */
    method RecoverAccounting(c: Claim) returns (r: Result<Claim, Stop>)
      requires Valid() && store.active == Some(c) && c.state == ResolvedFilled
      modifies this`store, this`trail, this`journal, this`faults
      ensures Valid() && old(trail) <= trail && store.last == old(store).last
      ensures Accounting(fp, old(Now()), Now(), c)
      ensures r.Ok? ==> r.value == Enriched(fp, c) && store.active == Some(r.value) && JournalCount(journal, c.claimId) >= 1
      ensures AllFine(old(faults)) && Accountable(c) && LedgerHas(fp, old(store).ledger, c.candidate.key) ==> r.Ok? && AllFine(faults)
      ensures !Accountable(c) ==> r == Err(Raised) && store == old(store) && journal == old(journal) && faults == old(faults)
    {
      var _ :- RestoreAccounting(c);
      r := Transition(c);
    }

    /** Remove the candidate, complete the claim, archive it and free the slot. */
    method FinishResolved(c: Claim) returns (r: Result<Outcome, Stop>)
      requires Valid() && store.active == Some(c) && !Blocking(c.state)
      modifies this`store, this`trail, this`queue, this`enabled, this`faults
      ensures Valid() && old(trail) <= trail
      ensures Completion(fp, old(Now()), Now(), c)
      ensures enabled ==> old(enabled)
      ensures c.candidate.key != "" ==> enabled == old(enabled)
      ensures r.Ok? ==> (r.value == RecoveryCompleted && store.active.None?) || (r.value == QueueResolutionFailed && c.candidate.key == "" && !enabled)
      ensures AllFine(old(faults)) && c.candidate.key != "" && LedgerHas(fp, old(store).ledger, c.candidate.key)
              ==> r.Ok? && store.active.None? && AllFine(faults)
      ensures c.candidate.key != "" && LedgerHas(fp, old(store).ledger, c.candidate.key) && Enriched(fp, c) == c
              ==> Spends(old(faults), 9, r, faults)
    {
      hide Spend, Lands, LegalTrail, OnlyRecordOf, Completion;
      ghost var w := Now();
      OnlyRecordFacts(fp, store.ledger, store.ledger, c.candidate.key);
      SpendAdd(faults, 6, 3);
      if c.candidate.key == "" {
        var kept := Transition(c);
        CompletionBegun(fp, w, Now(), c);
        if kept.Err? {
          return Err(kept.error);
        }
        enabled := false;
        return Ok(QueueResolutionFailed);
      }
      queue := RemoveFirst(queue, c.candidate.key);
      var completed := Transition(c.(state := Completed));
      CompletionBegun(fp, w, Now(), c);
      if completed.Err? {
        return Err(completed.error);
      }
      ghost var w1 := Now();
      var cleared := ArchiveAndClear(completed.value);
      CompletionEnded(fp, w, w1, Now(), c);
      r := if cleared.Ok? then Ok(RecoveryCompleted) else Err(cleared.error);
    }

    /** Completion in a recovery run, with the accounting first if the claim is still RESOLVED_FILLED. */
    method CompleteRecovered(c: Claim) returns (r: Result<Outcome, Stop>)
      requires Valid() && store.active == Some(c) && !Blocking(c.state)
      modifies this`store, this`trail, this`queue, this`journal, this`enabled, this`faults
      ensures Valid() && old(trail) <= trail && submitted == old(submitted)
      ensures KeepsTo(fp, old(store), store, c.candidate) && Finishes(fp, old(Now()), Now())
      ensures AllFine(old(faults)) && Pending(fp, old(Now())) ==> r == Ok(RecoveryCompleted) && Done(fp, Now(), c)
      ensures r == Ok(RecoveryAccountingFailed) ==> !enabled && c.state == ResolvedFilled && queue == old(queue)
      ensures c.state == ResolvedFilled && !Accountable(c) ==>
                r == Ok(RecoveryAccountingFailed) && Now() == old(Now()).(enabled := false)
      ensures r == Ok(QueueResolutionFailed) ==> !enabled && c.candidate.key == ""
    {
      hide Accounting, Completion, Pending, Done, JournalCount, Accountable, KeepsTo, LegalTrail, Spend;
      ghost var w := Now();
      PendingFacts(fp, w);
      KeepsSame(fp, store, c.candidate);
      var claim := c;
      if c.state == ResolvedFilled {
        var restored := RecoverAccounting(c);
        AccountingFacts(fp, w, Now(), c);
        if Pending(fp, w) {
          AccountingKeeps(fp, w, Now(), c);
        }
        if restored.Err? {
          if restored.error == Died {
            return Err(Died);
          }
          ghost var before := Now();
          enabled := false;
          DisabledStays(fp, before, Now());
          return Ok(RecoveryAccountingFailed);
        }
        claim := restored.value;
      }
      ghost var w1 := Now();
      PendingFacts(fp, w1);
      r := FinishResolved(claim);
      CompletionFacts(fp, w1, Now(), claim);
      KeepsTwice(fp, w.store, w1.store, store, c.candidate);
      if Pending(fp, w1) {
        CompletionKeeps(fp, w1, Now(), claim);
        SameClaimPending(fp, Now(), claim, c);
      }
    }

    /** A run that finds a claim in the slot. */
    method RecoverOrBlock(c: Claim) returns (r: Result<Outcome, Stop>)
      requires Valid() && store.active == Some(c)
      modifies this`store, this`trail, this`queue, this`journal, this`enabled, this`faults
      ensures Valid() && old(trail) <= trail
      ensures FailsClosed(old(Now()), Now()) && KeepsTo(fp, old(store), store, c.candidate) && Finishes(fp, old(Now()), Now())
      ensures Blocking(c.state) ==> r == Ok(ClaimUnresolved) && !enabled
      ensures r == Ok(RecoveryAccountingFailed) ==> !enabled && c.state == ResolvedFilled && queue == old(queue)
      ensures c.state == ResolvedFilled && !Accountable(c) ==>
                r == Ok(RecoveryAccountingFailed) && Now() == old(Now()).(enabled := false)
      ensures r == Ok(QueueResolutionFailed) ==> !enabled && c.candidate.key == ""
      ensures AllFine(old(faults)) && Pending(fp, old(Now())) ==> r == Ok(RecoveryCompleted) && Done(fp, Now(), c)
    {
      KeepsSame(fp, store, c.candidate);
      if Blocking(c.state) {
        enabled := false;
        return Ok(ClaimUnresolved);
      }
      hide Finishes, Pending, Done, KeepsTo;
      r := CompleteRecovered(c);
    }

    /** The exception path of run_once: the outcome of the submission is unknown. */
    method MarkUnknown(c: Claim, stop: Stop) returns (o: Outcome)
      requires Valid() && (store.active.Some? ==> store.active.value.claimId == c.claimId && store.active.value.candidate == c.candidate)
      modifies this`store, this`trail, this`enabled, this`faults
      ensures Valid() && old(trail) <= trail && KeepsTo(fp, old(store), store, c.candidate)
      ensures if stop == Raised && Lands(old(faults)) then store.active.Some? && store.active.value.state == SubmissionUnknown
              else store == old(store)
      ensures o == SubmissionOutcomeUnknown ==> !enabled
      ensures o in {SubmissionOutcomeUnknown, ProcessDied}
      ensures Settled(fp, old(Now())) ==> Settled(fp, Now())
      ensures AllFine(old(faults)) && stop == Raised && LedgerHas(fp, old(store).ledger, c.candidate.key) ==>
                && o == SubmissionOutcomeUnknown
                && store == Store(Some(Enriched(fp, c).(state := SubmissionUnknown)), old(store).last,
                                  old(store).ledger[fp(c.candidate.key) := Record(c.candidate.key, Follows(SubmissionUnknown), Some(c.claimId))])
    {
      hide Pending, Done, OnlyRecordOf, Lands, Spend, LegalTrail;
      ghost var w := Now();
      KeepsSame(fp, store, c.candidate);
      if stop == Died {
        return ProcessDied;
      }
      var t := Transition(c.(state := SubmissionUnknown));
      if Settled(fp, w) {
        SettledStays(fp, w, Now());
      }
      if t.Err? && t.error == Died {
        return ProcessDied;
      }
      EnabledIrrelevant(fp, Now(), false);
      enabled := false;
      o := SubmissionOutcomeUnknown;
    }

    /** From the claim to the resolved claim: submit, store the answer, store how it is judged. */
    method Resolve(claim: Claim, exchange: Option<Order>) returns (r: Result<Claim, (Claim, Stop)>)
      requires Valid() && store.active == Some(claim) && claim.state == Claimed && claim.fingerprint == Some(fp(claim.candidate.key))
      requires LedgerHas(fp, store.ledger, claim.candidate.key)
      modifies this`store, this`trail, this`faults
      ensures Valid() && old(trail) <= trail && KeepsTo(fp, old(store), store, claim.candidate)
      ensures store.active.Some? && LedgerHas(fp, store.ledger, claim.candidate.key)
      ensures var c := store.active.value;
              && c.claimId == claim.claimId && c.candidate == claim.candidate
              && (!Blocking(c.state) ==>
                    Resolved(c.state) && c.order.Some? && c.fill == Some(Decide(c.order.value)) && c.state == Resolution(c.fill.value))
      ensures r.Ok? ==> && store.active == Some(r.value) && r.value.fill.Some? && r.value.state == Resolution(r.value.fill.value)
                        && Enriched(fp, r.value) == r.value
      ensures store.active.value.state != SubmissionUnknown
      ensures r.Ok? && exchange.Some? ==> r.value.fill == Some(Decide(exchange.value))
      ensures r.Err? ==> r.error.0.claimId == claim.claimId && r.error.0.candidate == claim.candidate
      ensures exchange.Some? ==>
                var spent := Spend(old(faults), 12);
                && faults == spent.rest && (r.Ok? <==> spent.Through?)
                && (r.Err? ==> r.error.1 == StopOf(spent.fault))
      ensures AllFine(old(faults)) && exchange.Some? ==>
                r.Ok? && AllFine(faults) && r.value.fill == Some(Decide(exchange.value))
      ensures exchange.None? ==> r == Err((claim, Raised)) && store == old(store) && faults == old(faults)
      ensures r.Ok? && exchange.Some? ==>
                && r.value == claim.(state := Resolution(Decide(exchange.value)), order := Some(StoredOrder(exchange.value)),
                                     fill := Some(Decide(exchange.value)))
                && store == Store(Some(r.value), old(store).last,
                                  old(store).ledger[fp(claim.candidate.key) := Record(claim.candidate.key, Follows(r.value.state), Some(claim.claimId))])
    {
      KeepsSame(fp, store, claim.candidate);
      if exchange.None? {
        return Err((claim, Raised));
      }
      hide Spend, Lands, StopOf, LegalTrail, Decide, OnlyRecordOf, LedgerHas;
      ghost var before := store;
      SpendAdd(faults, 6, 6);
      var order := StoredOrder(exchange.value);
      var sent := Transition(claim.(state := Submitted, order := Some(order)));
      ghost var mid := store;
      KeepsFacts(fp, before, mid, claim.candidate);
      if sent.Err? {
        return Err((claim, sent.error));
      }
      var d := Decide(exchange.value);
      StoredOrderSettles(exchange.value);
      var resolved := Transition(sent.value.(state := Resolution(d), fill := Some(d)));
      KeepsTwice(fp, before, mid, store, claim.candidate);
      KeepsFacts(fp, mid, store, claim.candidate);
      r := if resolved.Ok? then Ok(resolved.value) else Err((sent.value, resolved.error));
    }

    /** After the claim: submit, journal the answer, and finish the claim if it is resolved.  An answer that settles
    the order ends as SUBMISSION_UNKNOWN exactly when one of the store operations behind it raises and the write of
    the error path takes effect; a death never does that. */
    method Submit(claim: Claim, exchange: Option<Order>) returns (o: Outcome)
      requires Valid() && store.active == Some(claim) && claim.state == Claimed && claim.fingerprint == Some(fp(claim.candidate.key))
      requires LedgerHas(fp, store.ledger, claim.candidate.key) && Tradable(claim.candidate) && claim.claimId != ""
      requires KeyCount(queue, claim.candidate.key) <= 1 && JournalCount(journal, claim.claimId) == 0
      requires claim.order.None? && claim.fill.None?
      modifies this`store, this`trail, this`queue, this`journal, this`enabled, this`faults
      ensures Valid() && old(trail) <= trail && KeepsTo(fp, old(store), store, claim.candidate) && Settled(fp, Now())
      ensures AllFine(old(faults)) && exchange.Some? ==>
                var d := Decide(exchange.value);
                && o == (if d.accepted then Executed else NotFilled(d.code))
                && enabled == (old(enabled) && !d.requiresReview)
                && journal == old(journal) + [Entry(claim.claimId, false)]
                && store == JudgedStore(fp, old(store), claim.claimId, claim.candidate, exchange.value)
                && queue == if Resolved(Resolution(d)) then RemoveFirst(old(queue), claim.candidate.key) else old(queue)
      ensures AllFine(old(faults)) && exchange.None? ==>
                && o == SubmissionOutcomeUnknown && !enabled && queue == old(queue) && journal == old(journal)
                && store == UnknownStore(fp, old(store), claim.claimId, claim.candidate)
      ensures exchange.Some? && !Blocking(Resolution(Decide(exchange.value))) ==>
                (LosesResolution(old(faults), 22) <==> store.active.Some? && store.active.value.state == SubmissionUnknown)
    {
      hide JournalCount, KeyCount, Tradable, Normalized, StateCode, FullEvidence, Pending, Done, Decide, Resolution;
      hide Spend, StopOf, Lands, KeepsTo, LegalTrail, JudgedStore, UnknownStore, StoredOrder;
      ghost var before := store;
      LosesAdd(faults, 12, 10);
      UnknownIs(fp, before, claim);
      var resolved := Resolve(claim, exchange);
      ghost var mid := store;
      if resolved.Err? {
        assert Settled(fp, Now()) by {
          if !Blocking(store.active.value.state) { ResolvedPending(fp, Now()); }
        }
        o := MarkUnknown(resolved.error.0, resolved.error.1);
        KeepsTwice(fp, before, mid, store, claim.candidate);
        return;
      }
      hide Settled, Blocking, Resolved, LedgerHas, Concluded, LosesResolution;
      ghost var fine := AllFine(faults);
      o := JournalAndConclude(resolved.value);
      KeepsTwice(fp, before, mid, store, claim.candidate);
      ConcludedIsKnown(fp, Now(), resolved.value);
      if exchange.Some? && fine {
        ResolutionKinds(Decide(exchange.value));
        JudgedIs(fp, before, claim, exchange.value, resolved.value, mid, store);
      }
    }

    /** The answer is judged and stored: journal it, and finish the claim if it is resolved.  Wherever the process
    dies, a resolved claim is left done or to the next run.  Wherever one of the ten store operations raises instead,
    the error path replaces the resolution by SUBMISSION_UNKNOWN, filled or not, and even after the slot was freed. */
    method JournalAndConclude(c: Claim) returns (o: Outcome)
      requires Valid() && store.active == Some(c) && c.fill.Some? && c.state == Resolution(c.fill.value)
      requires Enriched(fp, c) == c
      requires !Blocking(c.state) ==> Resolved(c.state) && c.order.Some? && c.fill == Some(Decide(c.order.value))
      requires LedgerHas(fp, store.ledger, c.candidate.key) && Tradable(c.candidate) && c.claimId != ""
      requires KeyCount(queue, c.candidate.key) <= 1 && JournalCount(journal, c.claimId) == 0
      modifies this`store, this`trail, this`queue, this`journal, this`enabled, this`faults
      ensures Valid() && old(trail) <= trail && KeepsTo(fp, old(store), store, c.candidate) && Settled(fp, Now())
      ensures AllFine(old(faults)) ==> o == if c.fill.value.accepted then Executed else NotFilled(c.fill.value.code)
      ensures AllFine(old(faults)) ==>
                journal == old(journal) + [Entry(c.claimId, false)] && enabled == (old(enabled) && !c.fill.value.requiresReview)
      ensures AllFine(old(faults)) && Blocking(c.state) ==> store == old(store) && queue == old(queue)
      ensures AllFine(old(faults)) && !Blocking(c.state) ==>
                && store == Store(None, Some(c.(state := Completed)),
                                  old(store).ledger[fp(c.candidate.key) := Record(c.candidate.key, Follows(Completed), Some(c.claimId))])
                && queue == RemoveFirst(old(queue), c.candidate.key)
      ensures !Blocking(c.state) ==>
                if LosesResolution(old(faults), 10) then store.active.Some? && store.active.value.state == SubmissionUnknown
                else Concluded(fp, Now(), c)
    {
      hide JournalCount, KeyCount, Tradable, Normalized, StateCode, FullEvidence, Pending, Done, Decide;
      hide Spend, StopOf, Lands, Resolved, KeepsTo, LegalTrail;
      KeepsSame(fp, store, c.candidate);
      JournalCountAppend(journal, Entry(c.claimId, false), c.claimId);
      LosesAdd(faults, 1, 9);
      var journalled := AddJournal(Entry(c.claimId, false));
      ghost var w := Now();
      assert Settled(fp, w) by {
        if !Blocking(c.state) { ResolvedPending(fp, w); }
      }
      if journalled.Err? {
        o := MarkUnknown(c, journalled.error);
        if !Blocking(c.state) && store == w.store {
          ConcludedStays(fp, w, Now(), c);
        }
        return;
      }
      var d := c.fill.value;
      EnabledIrrelevant(fp, Now(), false);
      if d.requiresReview {
        enabled := false;
      }
      if Blocking(c.state) {
        return NotFilled(d.code);
      }
      o := Conclude(c);
    }

    /** Completion in the run that submitted. */
    method Conclude(c: Claim) returns (o: Outcome)
      requires Valid() && store.active == Some(c) && Resolved(c.state) && c.fill.Some? && c.state == Resolution(c.fill.value)
      requires Pending(fp, Now()) && JournalCount(journal, c.claimId) == 1 && Enriched(fp, c) == c
      modifies this`store, this`trail, this`queue, this`enabled, this`faults
      ensures Valid() && old(trail) <= trail && KeepsTo(fp, old(store), store, c.candidate) && Settled(fp, Now())
      ensures AllFine(old(faults)) ==> o == if c.fill.value.accepted then Executed else NotFilled(c.fill.value.code)
      ensures AllFine(old(faults)) ==>
                && store == Store(None, Some(c.(state := Completed)),
                                  old(store).ledger[fp(c.candidate.key) := Record(c.candidate.key, Follows(Completed), Some(c.claimId))])
                && queue == RemoveFirst(old(queue), c.candidate.key) && enabled == old(enabled)
      ensures if LosesResolution(old(faults), 9) then store.active.Some? && store.active.value.state == SubmissionUnknown
              else Concluded(fp, Now(), c)
    {
      hide JournalCount, KeyCount, Spend, StopOf, Lands, Resolution, Completion, Pending, Done, KeepsTo, LegalTrail, Settled, Concluded;
      ghost var w := Now();
      PendingFacts(fp, w);
      var finished := FinishResolved(c);
      ghost var w1 := Now();
      CompletionKeeps(fp, w, w1, c);
      CompletionFacts(fp, w, w1, c);
      CompletionSettles(fp, w, w1, c);
      CompletionLeaves(fp, w, w1, c);
      CompletionFreed(fp, w, w1, c);
      hide Pending, Done, Completion;
      if finished.Err? {
        o := MarkUnknown(c, finished.error);
        KeepsTwice(fp, w.store, w1.store, store, c.candidate);
        if store == w1.store {
          ConcludedStays(fp, w1, Now(), c);
        }
        return;
      }
      o := if finished.value == QueueResolutionFailed then QueueResolutionFailed
           else if c.fill.value.accepted then Executed else NotFilled(c.fill.value.code);
    }

    /** Claim the candidate and submit it, unless its key is known to the ledger. */
    method Attempt(c: Candidate, drawn: string, exchange: Option<Order>) returns (o: Outcome)
      requires Valid() && store.active.None? && Tradable(c)
      requires drawn != "" && JournalCount(journal, drawn) == 0 && KeyCount(queue, c.key) <= 1
      modifies this
      ensures Valid() && old(trail) <= trail && KeepsTo(fp, old(store), store, c)
      ensures submitted == old(submitted)
              || (&& submitted == old(submitted) + [c.key] && Settled(fp, Now())
                  && fp(c.key) !in old(store).ledger && fp(c.key) in store.ledger)
      ensures fp(c.key) in old(store).ledger ==> store == old(store) && submitted == old(submitted) && queue == old(queue) && journal == old(journal)
      ensures AllFine(old(faults)) && LedgerHas(fp, old(store).ledger, c.key) ==> o == ClaimConflict && !enabled
      ensures AllFine(old(faults)) && fp(c.key) in old(store).ledger && !LedgerHas(fp, old(store).ledger, c.key) ==>
                o == HandoffException && enabled == old(enabled)
      ensures AllFine(old(faults)) && fp(c.key) !in old(store).ledger ==> submitted == old(submitted) + [c.key]
      ensures AllFine(old(faults)) && fp(c.key) !in old(store).ledger && exchange.Some? ==>
                var d := Decide(exchange.value);
                && o == (if d.accepted then Executed else NotFilled(d.code))
                && enabled == (old(enabled) && !d.requiresReview)
                && journal == old(journal) + [Entry(drawn, false)]
                && store == JudgedStore(fp, old(store), drawn, c, exchange.value)
                && queue == if Resolved(Resolution(d)) then RemoveFirst(old(queue), c.key) else old(queue)
      ensures AllFine(old(faults)) && fp(c.key) !in old(store).ledger && exchange.None? ==>
                && o == SubmissionOutcomeUnknown && !enabled && queue == old(queue) && journal == old(journal)
                && store == UnknownStore(fp, old(store), drawn, c)
      ensures fp(c.key) !in old(store).ledger && CutAtReservation(old(faults)) ==>
                && store == old(store).(ledger := old(store).ledger[fp(c.key) := Record(c.key, Reserved, None)])
                && queue == old(queue) && submitted == old(submitted) && o == CutAnswer(Spend(old(faults), 2).fault)
    {
      hide JournalCount, KeyCount, Normalized, StateCode, FullEvidence, Settled, Tradable, CutAtReservation, OnlyRecordOf;
      ghost var before := store;
      var created := CreateClaim(c, drawn);
      if created.Err? {
        return if created.error == Raised then HandoffException else ProcessDied;
      }
      if created.value.None? {
        enabled := false;
        return ClaimConflict;
      }
      submitted := submitted + [c.key];
      ghost var mid := store;
      o := Submit(created.value.value, exchange);
      KeepsTwice(fp, before, mid, store, c);
      KeepsFacts(fp, mid, store, c);
      EndsAlike(fp, before, mid, drawn, c, exchange);
    }

    /** The checks before a claim: none is left to answer if they let the head through. */
    method CheckHead(gates: Gates) returns (o: Option<Outcome>)
      modifies this`queue
      ensures o.Some? ==> HeadChecked(old(Now()), Now(), gates, o.value) && !LetThrough(old(Now()), gates)
      ensures o.None? ==> Now() == old(Now()) && LetThrough(Now(), gates)
    {
      ghost var w := Now();
      if queue == [] {
        return Some(NoCandidate);
      }
      var c := queue[0];
      if !enabled {
        return Some(BotStopped);
      }
      if gates.stale || !Tradable(c) {
        if c.key == "" {
          return Some(QueueRemoveFailed);
        }
        queue := RemoveFirst(queue, c.key);
        return Some(CandidateDropped);
      }
      if gates.riskBlocked || gates.guardBlocked {
        return Some(CandidateKept);
      }
      if gates.planBlocked || gates.sizingBlocked {
        queue := RemoveFirst(queue, c.key);
        return Some(CandidateDropped);
      }
      o := None;
    }

    /** A run that finds the slot free: check the head of the queue, then claim and submit it. */
    method ServeHead(gates: Gates, drawn: string, exchange: Option<Order>) returns (o: Outcome)
      requires Valid() && drawn != "" && JournalCount(journal, drawn) == 0
      requires QueuedOnce(queue) && store.active.None?
      modifies this
      ensures Valid() && old(trail) <= trail
      ensures RunRelation(fp, old(Now()), Now())
      ensures old(queue) != [] && old(queue)[0].key == "" ==>
                store == old(store) && queue == old(queue) && submitted == old(submitted)
      ensures HeadServed(fp, old(Now()), Now(), gates, old(faults), o)
      ensures HeadChecked(old(Now()), Now(), gates, o)
      ensures AllFine(old(faults)) && NewHead(fp, old(Now()), gates) ==> HeadSubmitted(fp, old(Now()), Now(), drawn, exchange, o)
    {
      hide JournalCount, KeyCount, Normalized, StateCode, FullEvidence, Tradable, RunRelation, HeadChecked, NewHead, LetThrough, HeadSubmitted;
      hide Stranded, KeepsTo, CutAtReservation, LedgerHas, LegalTrail, Settled, HeadServed, UnknownStore, JudgedStore;
      ghost var w, given := Now(), faults;
      var checked := CheckHead(gates);
      if checked.Some? {
        o := checked.value;
        CheckedRuns(fp, w, Now(), gates, given, o);
        return;
      }
      ThroughFacts(fp, w, gates);
      var c := queue[0];
      assert c in queue;
      o := Attempt(c, drawn, exchange);
      AttemptRuns(fp, w, Now());
      ThroughServed(fp, w, Now(), gates, given, o);
      if AllFine(given) && fp(c.key) !in w.store.ledger {
        ServedIs(fp, w, Now(), drawn, exchange, o);
      }
    }

    /** One run.  `drawn` is the random claim id, `exchange` what place_demo_order answers, if it does not raise. */
    method RunOnce(gates: Gates, drawn: string, exchange: Option<Order>) returns (o: Outcome)
      requires Valid() && drawn != "" && JournalCount(journal, drawn) == 0
      requires QueuedOnce(queue)
      modifies this
      ensures Valid() && old(trail) <= trail
      ensures RunRelation(fp, old(Now()), Now())
      ensures AllFine(old(faults)) && Pending(fp, old(Now())) ==> o == RecoveryCompleted && Done(fp, Now(), old(store).active.value)
      ensures AllFine(old(faults)) && old(store).active.Some? && Blocking(old(store).active.value.state) ==> o == ClaimUnresolved && !enabled
      ensures AllFine(old(faults)) && old(store).active.Some? && old(store).active.value.state == ResolvedFilled
              && !Accountable(old(store).active.value) ==>
                o == RecoveryAccountingFailed && Now() == old(Now()).(enabled := false)
      ensures old(store).active.None? && old(queue) != [] && old(queue)[0].key == "" ==>
                store == old(store) && queue == old(queue) && submitted == old(submitted)
      ensures old(store).active.None? ==>
                var read := Spend(old(faults), 1);
                if read.Through? then HeadServed(fp, old(Now()), Now(), gates, read.rest, o) && HeadChecked(old(Now()), Now(), gates, o)
                else Now() == old(Now()) && o == if StopOf(read.fault) == Raised then HandoffException else ProcessDied
      ensures AllFine(old(faults)) && old(store).active.None? && NewHead(fp, old(Now()), gates) ==>
                HeadSubmitted(fp, old(Now()), Now(), drawn, exchange, o)
    {
      hide JournalCount, KeyCount, Normalized, StateCode, FullEvidence, Pending, Done, Tradable, RunRelation, HeadServed, Finishes;
      hide KeepsTo, Spend, LegalTrail;
      ghost var w := Now();
      NothingRuns(fp, w);
      PendingFacts(fp, w);
      var read := Read();
      if read.Err? {
        return if read.error == Raised then HandoffException else ProcessDied;
      }
      if read.value.active.Some? {
        var recovered := RecoverOrBlock(read.value.active.value);
        RecoveryRuns(fp, w, Now());
        if recovered.Err? {
          return if recovered.error == Raised then HandoffException else ProcessDied;
        }
        return recovered.value;
      }
      o := ServeHead(gates, drawn, exchange);
    }
  }

  // ---------------------------------------------------------------- the trail of the durable rows

  /** The stored claim at point i of the trail. */
  predicate HoldsAt(trail: seq<Store>, i: nat, claimId: string)
    requires i < |trail|
  {
    trail[i].active.Some? && trail[i].active.value.claimId == claimId
  }

  lemma {:induction false} EmptiedOnlyWhenCompleted(trail: seq<Store>, claimId: string, i: nat, j: nat) returns (k: nat)
    requires LegalTrail(trail) && i < j < |trail| && HoldsAt(trail, i, claimId) && trail[j].active.None?
    ensures i <= k < j && trail[k + 1].active.None?
    ensures forall l | i <= l <= k :: HoldsAt(trail, l, claimId)
    ensures HoldsAt(trail, k, claimId) && trail[k].active.value.state == Completed
    decreases j - i
  {
    assert Legal(trail[i], trail[i + 1]);
    if trail[i + 1].active.None? {
      k := i;
    } else {
      k := EmptiedOnlyWhenCompleted(trail, claimId, i + 1, j);
    }
  }

  lemma {:induction false} CompletedOnlyWhenResolved(trail: seq<Store>, claimId: string, i: nat, k: nat) returns (m: nat)
    requires LegalTrail(trail) && i <= k < |trail| && forall l | i <= l <= k :: HoldsAt(trail, l, claimId)
    requires HoldsAt(trail, i, claimId) && Blocking(trail[i].active.value.state)
    requires HoldsAt(trail, k, claimId) && trail[k].active.value.state == Completed
    ensures i < m < k && HoldsAt(trail, m, claimId) && Resolved(trail[m].active.value.state)
    decreases k - i
  {
    assert HoldsAt(trail, k, claimId) && i != k;
    assert HoldsAt(trail, i + 1, claimId) && Legal(trail[i], trail[i + 1]);
    if Resolved(trail[i + 1].active.value.state) {
      m := i + 1;
    } else {
      m := CompletedOnlyWhenResolved(trail, claimId, i + 1, k);
    }
  }

  /** A claim of unknown outcome leaves the slot, if it ever does, through a resolved state and then COMPLETED. */
  lemma ClearedThroughResolution(trail: seq<Store>, claimId: string, i: nat, j: nat) returns (m: nat, k: nat)
    requires LegalTrail(trail) && i < j < |trail| && HoldsAt(trail, i, claimId) && trail[j].active.None?
    requires Blocking(trail[i].active.value.state)
    ensures i < m < k < j && HoldsAt(trail, m, claimId) && HoldsAt(trail, k, claimId)
    ensures Resolved(trail[m].active.value.state) && trail[k].active.value.state == Completed && trail[k + 1].active.None?
  {
    k := EmptiedOnlyWhenCompleted(trail, claimId, i, j);
    m := CompletedOnlyWhenResolved(trail, claimId, i, k);
  }

  // ---------------------------------------------------------------- histories

  /** What happens between two runs of one process: the queue changes, the operator switches the bot. */
  predicate Between(w: World, w': World) {
    w'.store == w.store && w'.journal == w.journal && w'.submitted == w.submitted && QueuedOnce(w'.queue)
  }

  /** A new process: the bootstrap ran, to its end or cut off, and the queue and the switch start anew. */
  predicate Restarted(fp: string -> string, w: World, w': World) {
    Bootstrapped(fp, w, w') && QueuedOnce(w'.queue)
  }

  /** Runs and restarts, each cut off anywhere, in any order. */
  predicate History(fp: string -> string, ws: seq<World>) {
    forall i | 0 <= i < |ws| - 1 ::
      RunRelation(fp, ws[i], ws[i + 1]) || Between(ws[i], ws[i + 1]) || Restarted(fp, ws[i], ws[i + 1])
  }

  lemma BootstrapAgain(fp: string -> string, w: World, w1: World, w2: World)
    requires Bootstrapped(fp, w, w1) && Bootstrapped(fp, w1, w2)
    ensures Bootstrapped(fp, w, w2)
  {
  }

  /** While the claim is CLAIMED, SUBMITTED, UNRESOLVED or SUBMISSION_UNKNOWN, nothing is submitted or journalled
  any more, the claim stays in the slot with its state and all it holds but for the identity fields, and of the
  ledger only its own record changes, to follow it. */
  lemma {:induction false} UnknownOutcomeBlocksForever(fp: string -> string, ws: seq<World>, i: nat, j: nat)
    requires History(fp, ws) && i <= j < |ws|
    requires ws[i].store.active.Some? && Blocking(ws[i].store.active.value.state)
    ensures ws[j].submitted == ws[i].submitted && ws[j].journal == ws[i].journal
    ensures ws[j].store.active.Some? && SameClaim(ws[j].store.active.value, ws[i].store.active.value)
    ensures ws[j].store.active.value.state == ws[i].store.active.value.state
    ensures Bootstrapped(fp, ws[i], ws[j])
    decreases j
  {
    hide Finishes, LeavesBehind, SubmitsFresh, KeyCount, OnlyRecordOf, KeepsStranded, StrandedHead;
    if i == j {
      BetweenIsRestart(fp, ws[i], ws[j]);
    } else {
      var w, w' := ws[j - 1], ws[j];
      UnknownOutcomeBlocksForever(fp, ws, i, j - 1);
      assert RunRelation(fp, w, w') || Between(w, w') || Restarted(fp, w, w');
      if !Restarted(fp, w, w') {
        BetweenIsRestart(fp, w, w');
      }
      BootstrapAgain(fp, ws[i], w, w');
    }
  }

  predicate SubmittedOnce(fp: string -> string, w: World) {
    && (forall i | 0 <= i < |w.submitted| :: fp(w.submitted[i]) in w.store.ledger)
    && (forall i, j | 0 <= i < j < |w.submitted| :: fp(w.submitted[i]) != fp(w.submitted[j]))
  }

  lemma BootstrapKeepsKeys(fp: string -> string, w: World, w': World)
    requires Bootstrapped(fp, w, w')
    ensures w.store.ledger.Keys <= w'.store.ledger.Keys && w'.submitted == w.submitted
  {
  }

  /** Over all runs and restarts, cut off anywhere, no candidate is submitted twice. */
  lemma {:induction false} NeverSubmittedTwice(fp: string -> string, ws: seq<World>)
    requires History(fp, ws) && ws != [] && SubmittedOnce(fp, ws[0])
    ensures SubmittedOnce(fp, ws[|ws| - 1])
  {
    hide Finishes, LeavesBehind, FailsClosed, KeyCount, Tradable, Bootstrapped, KeepsStranded, StrandedHead;
    var n := |ws| - 1;
    if n > 0 {
      var w, w' := ws[n - 1], ws[n];
      NeverSubmittedTwice(fp, ws[..n]);
      assert RunRelation(fp, w, w') || Between(w, w') || Restarted(fp, w, w');
      if Restarted(fp, w, w') {
        BootstrapKeepsKeys(fp, w, w');
      }
    }
  }

  lemma BootstrapKeepsStranded(fp: string -> string, w: World, w': World, f: string)
    requires Bootstrapped(fp, w, w') && Stranded(fp, w, f)
    ensures Stranded(fp, w', f) && w'.store.ledger[f] == w.store.ledger[f] && w'.submitted == w.submitted
  {
  }

  lemma RunKeepsStranded(fp: string -> string, w: World, w': World, f: string)
    requires KeepsStranded(fp, w, w') && SubmitsFresh(fp, w, w') && Stranded(fp, w, f)
    ensures Stranded(fp, w', f) && w'.store.ledger[f] == w.store.ledger[f]
    ensures w'.submitted == w.submitted || exists key :: w'.submitted == w.submitted + [key] && fp(key) != f
  {
    hide Tradable;
  }

  /** What is submitted from one point of a history to a later one has another fingerprint. */
  predicate NotSubmitted(fp: string -> string, before: seq<string>, after: seq<string>, f: string) {
    before <= after && forall i | |before| <= i < |after| :: fp(after[i]) != f
  }

  /** A key whose record in the ledger no claim in the slot stands for, such as one that was cut off between its
  reservation and its claim, is never submitted again, and its record never changes: whenever a run finds it at the head
  of the queue with the slot free, no row changes, and the candidate stays or goes unclaimed. */
  lemma {:induction false} StrandedForever(fp: string -> string, ws: seq<World>, i: nat, j: nat, key: string)
    requires History(fp, ws) && i <= j < |ws| && Stranded(fp, ws[i], fp(key))
    ensures Stranded(fp, ws[j], fp(key)) && ws[j].store.ledger[fp(key)] == ws[i].store.ledger[fp(key)]
    ensures NotSubmitted(fp, ws[i].submitted, ws[j].submitted, fp(key))
    ensures j + 1 < |ws| && RunRelation(fp, ws[j], ws[j + 1]) && ws[j].store.active.None? && ws[j].queue != [] && ws[j].queue[0].key == key ==>
              && ws[j + 1].store == ws[j].store && ws[j + 1].journal == ws[j].journal && ws[j + 1].submitted == ws[j].submitted
              && ws[j + 1].queue in {ws[j].queue, ws[j].queue[1..]}
    decreases j
  {
    hide Finishes, LeavesBehind, FailsClosed, SubmitsFresh, KeyCount, KeepsStranded, Bootstrapped;
    if i < j {
      var w, w' := ws[j - 1], ws[j];
      StrandedForever(fp, ws, i, j - 1, key);
      assert RunRelation(fp, w, w') || Between(w, w') || Restarted(fp, w, w');
      if RunRelation(fp, w, w') {
        RunKeepsStranded(fp, w, w', fp(key));
      } else {
        if Between(w, w') {
          BetweenIsRestart(fp, w, w');
        }
        BootstrapKeepsStranded(fp, w, w', fp(key));
      }
    }
  }

  /** From a resolved claim on, however often the recovery or the bootstrap before it is cut off: it is still
  pending, or it has reached its one outcome. */
  lemma {:induction false} RecoveryIsConfluent(fp: string -> string, ws: seq<World>, j: nat)
    requires History(fp, ws) && j < |ws| && Pending(fp, ws[0])
    ensures ws[0].store.active.Some?
    ensures || (Pending(fp, ws[j]) && ws[j].store.active.Some? && SameClaim(ws[j].store.active.value, ws[0].store.active.value))
            || exists k | 0 <= k <= j :: Done(fp, ws[k], ws[0].store.active.value)
  {
    PendingFacts(fp, ws[0]);
    SameClaimTwice(ws[0].store.active.value, ws[0].store.active.value, ws[0].store.active.value);
    hide Done, Pending, SameClaim, RunRelation, Between, Restarted;
    if j > 0 {
      var w, w' := ws[j - 1], ws[j];
      RecoveryIsConfluent(fp, ws, j - 1);
      assert RunRelation(fp, w, w') || Between(w, w') || Restarted(fp, w, w');
      if Pending(fp, w) && w.store.active.Some? && SameClaim(w.store.active.value, ws[0].store.active.value) {
        ConfluentStep(fp, w, w', ws[0].store.active.value);
      }
    }
  }

  lemma SameClaimTwice(c: Claim, d: Claim, e: Claim)
    requires SameClaim(c, d) && SameClaim(d, e)
    ensures SameClaim(c, e)
  {
  }

  lemma ConfluentStep(fp: string -> string, w: World, w': World, c: Claim)
    requires RunRelation(fp, w, w') || Between(w, w') || Restarted(fp, w, w')
    requires Pending(fp, w) && w.store.active.Some? && SameClaim(w.store.active.value, c)
    ensures Done(fp, w', c) || (Pending(fp, w') && w'.store.active.Some? && SameClaim(w'.store.active.value, c))
  {
    PendingFacts(fp, w');
    hide LeavesBehind, SubmitsFresh, FailsClosed, Done, Pending, SameClaim, Bootstrapped, QueuedOnce, KeepsStranded, StrandedHead;
    if RunRelation(fp, w, w') {
      if Done(fp, w', w.store.active.value) {
        SameClaimPending(fp, w', w.store.active.value, c);
      } else {
        SameClaimTwice(w'.store.active.value, w.store.active.value, c);
      }
    } else {
      if Between(w, w') {
        BetweenIsRestart(fp, w, w');
      }
      RestartKeeps(fp, w, w');
      SameClaimTwice(w'.store.active.value, w.store.active.value, c);
    }
  }

  /** The bootstrap keeps a resolved claim recoverable. */
  lemma RestartKeeps(fp: string -> string, w: World, w': World)
    requires Pending(fp, w) && Restarted(fp, w, w')
    ensures Pending(fp, w') && w.store.active.Some? && SameClaim(w'.store.active.value, w.store.active.value)
  {
    AbsentCount(w'.queue, w.store.active.value.candidate.key);
    hide JournalCount, KeyCount, Accountable;
  }

  lemma {:induction false} AbsentCount(queue: seq<Candidate>, key: string)
    ensures KeyCount(queue, key) > 0 ==> exists c <- queue :: c.key == key
  {
    if queue != [] {
      AbsentCount(queue[1..], key);
    }
  }
}
