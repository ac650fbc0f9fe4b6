/** What the execution handoff stores, and how it reads the exchange's answer to an order. */
module HandoffClaims {
  import opened Common

  // ---------------------------------------------------------------- the answer to an order

  /** The fillVerification member of an order response; flags are compared with `is True`, so anything else
  reads as false.  `unresolvedFalse` is `unresolved is False`, `unresolvedTruthy` is `bool(unresolved)`. */
  datatype Verification =
    | NoVerification
    | InvalidVerification
    | Verification(state: string, accepted: bool, finalFilled: bool, terminal: bool,
                   unresolvedFalse: bool, unresolvedTruthy: bool, positiveQty: bool)

  /** What place_demo_order returned: not a mapping, or a mapping whose code may not read as a number. */
  datatype Order =
    | NotAMapping
    | Order(retCode: Option<int>, transportFlag: bool, accepted: bool, finalFilled: bool, exchangeOk: bool,
            verification: Verification)

  datatype Code =
    | OrderFilled | OrderResponseInvalid | OrderCreateRejected | FillVerificationMissing | FillVerificationInvalid
    | OrderPartial | OrderCancelled | OrderRejected | OrderFillUnresolved | FillVerificationIncomplete
    | SubmissionTransportUnknown

  datatype FillDecision = FillDecision(accepted: bool, code: Code, requiresReview: bool)

  predicate IsLetterOrDigit(c: char) {
    'a' <= c <= 'z' || 'A' <= c <= 'Z' || '0' <= c <= '9'
  }

  function Lower(c: char): char {
    if 'A' <= c <= 'Z' then c - 'A' + 'a' else c
  }

  /** Letters and digits, in lower case. */
  function Normalized(s: string): string {
    if s == "" then ""
    else (if IsLetterOrDigit(s[0]) then [Lower(s[0])] else "") + Normalized(s[1..])
  }

  /** A local sentinel or a transport error: the order may or may not have reached the exchange. */
  predicate TransportUnknown(o: Order) {
    o.Order? && (o.retCode == Some(-2) || o.transportFlag)
  }

  predicate FullEvidence(o: Order)
    requires o.Order? && o.verification.Verification?
  {
    var v := o.verification;
    && o.accepted && o.finalFilled && o.exchangeOk
    && v.accepted && v.finalFilled && v.terminal && v.unresolvedFalse
    && Normalized(v.state) == "filled" && v.positiveQty
  }

  function StateCode(state: string): Code {
    if state == "partial" then OrderPartial
    else if state in {"cancelled", "canceled", "deactivated", "expired"} then OrderCancelled
    else if state in {"rejected", "createrejected"} then OrderRejected
    else if state in {"pending", "timeout", "unknown", "new", "active", "created"} then OrderFillUnresolved
    else if state in {"invalidfill", "verificationerror", "invalidcreateresponse"} then FillVerificationInvalid
    else FillVerificationIncomplete
  }

  function Decide(o: Order): FillDecision {
    if TransportUnknown(o) then FillDecision(false, SubmissionTransportUnknown, true)
    else if o.NotAMapping? then FillDecision(false, OrderResponseInvalid, true)
    else if o.retCode != Some(0) then FillDecision(false, OrderCreateRejected, false)
    else if o.verification.NoVerification? then FillDecision(false, FillVerificationMissing, true)
    else if o.verification.InvalidVerification? then FillDecision(false, FillVerificationInvalid, true)
    else if FullEvidence(o) then FillDecision(true, OrderFilled, false)
    else
      var code := StateCode(Normalized(o.verification.state));
      var review := o.verification.unresolvedTruthy
        || code in {OrderPartial, OrderFillUnresolved, FillVerificationInvalid, FillVerificationIncomplete};
      FillDecision(false, code, review)
  }

  // ---------------------------------------------------------------- claims and ledger records

  datatype ClaimState =
    | Claimed | Submitted | Unresolved | SubmissionUnknown | ResolvedFilled | ResolvedNoFill | Completed
    | Unrecognized(name: string)

  function Resolution(d: FillDecision): ClaimState {
    if d.accepted then ResolvedFilled
    else if d.code in {OrderCreateRejected, OrderCancelled, OrderRejected} && !d.requiresReview then ResolvedNoFill
    else Unresolved
  }

  /** Filled only on complete evidence, all nine pieces of it. */
  lemma FilledOnlyOnFullEvidence(o: Order)
    ensures Resolution(Decide(o)) == ResolvedFilled <==>
              && o.Order? && o.retCode == Some(0) && !o.transportFlag
              && o.accepted && o.finalFilled && o.exchangeOk
              && o.verification.Verification?
              && var v := o.verification;
                 && v.accepted && v.finalFilled && v.terminal && v.unresolvedFalse && v.positiveQty
                 && Normalized(v.state) == "filled"
  {
    hide Normalized, StateCode;
  }

  /** Given up as "no fill" only when the exchange refused the order, or reports it cancelled or rejected and
  settled.  A response without a readable code also counts as refused. */
  lemma NoFillOnlyWhenSettled(o: Order)
    ensures Resolution(Decide(o)) == ResolvedNoFill <==>
            && o.Order? && o.retCode != Some(-2) && !o.transportFlag
            && (o.retCode != Some(0)
                || (o.verification.Verification? && !o.verification.unresolvedTruthy
                    && Normalized(o.verification.state) in
                         {"cancelled", "canceled", "deactivated", "expired", "rejected", "createrejected"}))
  {
    if o.Order? && o.verification.Verification? {
      assert FullEvidence(o) ==> Normalized(o.verification.state) == "filled";
      StateCodeClasses(Normalized(o.verification.state));
      hide Normalized, StateCode;
      DistinctFromFilled(Normalized(o.verification.state));
    }
  }

  /** The order was taken, and its fill verification has this state. */
  predicate Verified(o: Order, states: set<string>) {
    && o.Order? && o.retCode == Some(0) && !o.transportFlag
    && o.verification.Verification? && Normalized(o.verification.state) in states
  }

  /** Which response gets which code: those that settle nothing, by what is missing. */
  lemma RefusalCodes(o: Order)
    ensures var d := Decide(o);
            && (d.code == SubmissionTransportUnknown <==> o.Order? && (o.retCode == Some(-2) || o.transportFlag))
            && (d.code == OrderResponseInvalid <==> o.NotAMapping?)
            && (d.code == OrderCreateRejected <==> o.Order? && o.retCode !in {Some(0), Some(-2)} && !o.transportFlag)
            && (d.code == FillVerificationMissing <==>
                  o.Order? && o.retCode == Some(0) && !o.transportFlag && o.verification.NoVerification?)
            && (d.code == OrderFilled <==> d.accepted)
            && (d.accepted <==> Resolution(d) == ResolvedFilled)
  {
    if o.Order? && o.verification.Verification? {
      StateCodeClasses(Normalized(o.verification.state));
    }
    hide Normalized, FullEvidence;
  }

  /** And those with a verification, by its state. */
  lemma StateCodes(o: Order)
    ensures var d := Decide(o);
            && (d.code == OrderPartial <==> Verified(o, {"partial"}))
            && (d.code == OrderCancelled <==> Verified(o, {"cancelled", "canceled", "deactivated", "expired"}))
            && (d.code == OrderRejected <==> Verified(o, {"rejected", "createrejected"}))
            && (d.code == OrderFillUnresolved <==> Verified(o, {"pending", "timeout", "unknown", "new", "active", "created"}))
            && (d.code == FillVerificationInvalid <==>
                  (o.Order? && o.retCode == Some(0) && !o.transportFlag && o.verification.InvalidVerification?)
                  || Verified(o, {"invalidfill", "verificationerror", "invalidcreateresponse"}))
  {
    if o.Order? && o.verification.Verification? {
      assert FullEvidence(o) ==> Normalized(o.verification.state) == "filled";
      StatesApart(Normalized(o.verification.state));
      hide Normalized, FullEvidence, StateCode;
    }
  }

  lemma StatesApart(s: string)
    ensures StateCode(s) == OrderPartial <==> s in {"partial"}
    ensures StateCode(s) == OrderCancelled <==> s in {"cancelled", "canceled", "deactivated", "expired"}
    ensures StateCode(s) == OrderRejected <==> s in {"rejected", "createrejected"}
    ensures StateCode(s) == OrderFillUnresolved <==> s in {"pending", "timeout", "unknown", "new", "active", "created"}
    ensures StateCode(s) == FillVerificationInvalid <==> s in {"invalidfill", "verificationerror", "invalidcreateresponse"}
    ensures StateCode(s) !in {OrderFilled, OrderResponseInvalid, OrderCreateRejected, FillVerificationMissing, SubmissionTransportUnknown}
    ensures s == "filled" ==> StateCode(s) == FillVerificationIncomplete
  {
    assert |"partial"| == 7 && |"filled"| == 6 && |"pending"| == 7 && |"timeout"| == 7 && |"unknown"| == 7 && |"new"| == 3;
  }

  /** An operator has to look at it unless it is filled, refused, or settled without a fill. */
  lemma ReviewedUnlessSettled(o: Order)
    ensures Decide(o).requiresReview <==> Resolution(Decide(o)) == Unresolved
  {
  }

  /** What is compared of a state: its letters and digits, in lower case. */
  lemma {:induction false} NormalizedConcat(a: string, b: string)
    ensures Normalized(a + b) == Normalized(a) + Normalized(b)
    decreases |a|
  {
    hide IsLetterOrDigit, Lower;
    if a == "" {
      assert a + b == b;
    } else {
      NormalizedConcat(a[1..], b);
      assert (a + b)[0] == a[0] && (a + b)[1..] == a[1..] + b;
      NormalizedFirst(a);
      NormalizedFirst(a + b);
      hide Normalized;
    }
  }

  lemma NormalizedFirst(s: string)
    requires s != ""
    ensures Normalized(s) == (if IsLetterOrDigit(s[0]) then [Lower(s[0])] else "") + Normalized(s[1..])
  {
  }

  lemma NormalizedLetter(c: char)
    ensures Normalized([c]) ==
              if 'a' <= c <= 'z' || '0' <= c <= '9' then [c]
              else if 'A' <= c <= 'Z' then [c + 32 as char]
              else ""
  {
  }

  lemma StateCodeClasses(state: string)
    ensures StateCode(state) in {OrderCancelled, OrderRejected} <==>
            state in {"cancelled", "canceled", "deactivated", "expired", "rejected", "createrejected"}
    ensures StateCode(state) != OrderCreateRejected
  {
    assert |"partial"| == 7;
    assert state == "partial" ==> state !in {"cancelled", "canceled", "deactivated", "expired", "rejected", "createrejected"};
  }

  lemma DistinctFromFilled(state: string)
    ensures state == "filled" ==> state !in {"cancelled", "canceled", "deactivated", "expired", "rejected", "createrejected"}
  {
  }

  datatype Candidate = Candidate(key: string, symbol: string, side: string)

  /** What run_once demands of a candidate before it claims it. */
  predicate Tradable(c: Candidate) {
    c.key != "" && c.symbol != "" && c.side in {"Buy", "Sell"}
  }

  /** A claim.  `fingerprint` stands for the three identity fields, which are written together: the ledger key
  and the order id are this fingerprint behind fixed prefixes. */
  datatype Claim = Claim(claimId: string, candidate: Candidate, state: ClaimState, fingerprint: Option<string>,
                         order: Option<Order>, fill: Option<FillDecision>)

  datatype LedgerState =
    | Reserved | ClaimCreationError | ActiveClaimConflict | RecoveredActiveClaim | Follows(state: ClaimState)

  /** A permanent ledger record, kept under the fingerprint of its candidate key. */
  datatype Record = Record(key: string, state: LedgerState, claimId: Option<string>)

  /** The three kinds of durable rows the handoff uses. */
  datatype Store = Store(active: Option<Claim>, last: Option<Claim>, ledger: map<string, Record>)

  /** SHA-256 as an arbitrary function to at least the 27 characters an order id uses. */
  ghost predicate IsFingerprint(fp: string -> string) {
    forall key :: |fp(key)| >= 27
  }

  function OrderLinkId(fingerprint: string): string
    requires |fingerprint| >= 27
  {
    "cdx-idem-" + fingerprint[..27]
  }
}
