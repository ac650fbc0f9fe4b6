/** The execution-command table: three worker slots, claimed and advanced by transactions whose statements
interleave.  Plain reads see committed rows only; a row locked by a claim makes other writers of it wait. */
module CommandOutbox {
  import opened Common
  import TextOrder

  const MAX_ACTIVE_SLOTS := 3

  datatype CommandState =
    | Available | Reserved | OrderPending | PartiallyFilled | Managing | Closing | Closed | Failed

  predicate Active(s: CommandState) {
    s in {Reserved, OrderPending, PartiallyFilled, Managing, Closing}
  }

  function AllowedTransitions(s: CommandState): set<CommandState> {
    match s
    case Available => {Reserved}
    case Reserved => {OrderPending, Failed}
    case OrderPending => {PartiallyFilled, Managing, Failed}
    case PartiallyFilled => {Managing, Closing, Failed}
    case Managing => {Closing, Closed, Failed}
    case Closing => {Closed, Failed}
    case Closed => {}
    case Failed => {}
  }

  datatype Row = Row(slot: Option<int>, state: CommandState, payload: string, owner: Option<string>,
                     createdAt: int, updatedAt: int)

  /** The statement a claiming transaction executes next; from UPDATE on it has a row locked. */
  datatype Stage = CheckSlot | CountActive | SelectRow | UpdateRow(key: string) | CommitRow(key: string)

  datatype Claiming = Claiming(owner: string, slot: int, now: int, stage: Stage)

  /** The committed rows, and the claims under way. */
  datatype Db = Db(rows: map<string, Row>, claims: map<nat, Claiming>)

  datatype Event =
    | Publish(key: string, payload: string, now: int)
    | Refresh(key: string, payload: string, now: int)
    | Transition(key: string, owner: string, expected: CommandState, target: CommandState, now: int)
    | BeginClaim(id: nat, owner: string, slot: int, now: int)
    | Proceed(id: nat, choice: string)
    | Rollback(id: nat)

  // ---------------------------------------------------------------- locks and reads

  predicate Locks(c: Claiming, key: string) {
    c.stage == UpdateRow(key) || c.stage == CommitRow(key)
  }

  predicate Locked(db: Db, key: string) {
    exists id <- db.claims :: Locks(db.claims[id], key)
  }

  predicate SlotTaken(rows: map<string, Row>, slot: int) {
    exists k <- rows :: Active(rows[k].state) && rows[k].slot == Some(slot)
  }

  function ActiveKeys(rows: map<string, Row>): set<string> {
    set k | k in rows && Active(rows[k].state)
  }

  /** ORDER BY created_at, candidate_key */
  predicate Earlier(rows: map<string, Row>, a: string, b: string)
    requires a in rows && b in rows
  {
    rows[a].createdAt < rows[b].createdAt || (rows[a].createdAt == rows[b].createdAt && TextOrder.Before(a, b))
  }

  predicate Selectable(db: Db, key: string) {
    key in db.rows && db.rows[key].state == Available && !Locked(db, key)
  }

  /** What SELECT ... FOR UPDATE SKIP LOCKED LIMIT 1 picks when its snapshot is current.  Interleaved with others it
  may be behind, and pick a later row or none. */
  predicate Oldest(db: Db, key: string) {
    && Selectable(db, key)
    && forall k <- db.rows :: k != key && Selectable(db, k) ==> Earlier(db.rows, key, k)
  }

  function Drop(claims: map<nat, Claiming>, id: nat): map<nat, Claiming> {
    map i | i in claims && i != id :: claims[i]
  }

  function Stop(db: Db, id: nat): Db {
    db.(claims := Drop(db.claims, id))
  }

  function Stand(db: Db, id: nat, stage: Stage): Db
    requires id in db.claims
  {
    db.(claims := db.claims[id := db.claims[id].(stage := stage)])
  }

  function Taken(row: Row, c: Claiming): Row {
    row.(slot := Some(c.slot), state := Reserved, owner := Some(c.owner), updatedAt := c.now)
  }

  // ---------------------------------------------------------------- statements

  /** The unique index lets an UPDATE through unless a committed active row holds the slot, which raises; an
  uncommitted one makes it wait. */
  function ProceedClaim(db: Db, id: nat, choice: string): Db
    requires id in db.claims
  {
    var c := db.claims[id];
    match c.stage
    case CheckSlot => if SlotTaken(db.rows, c.slot) then Stop(db, id) else Stand(db, id, CountActive)
    case CountActive => if |ActiveKeys(db.rows)| >= MAX_ACTIVE_SLOTS then Stop(db, id) else Stand(db, id, SelectRow)
    case SelectRow => if Selectable(db, choice) then Stand(db, id, UpdateRow(choice)) else Stop(db, id)
    case UpdateRow(key) =>
      if key !in db.rows || db.rows[key].state != Available then Stop(db, id)
      else if SlotTaken(db.rows, c.slot) then Stop(db, id)
      else if exists i <- db.claims :: db.claims[i].stage.CommitRow? && db.claims[i].slot == c.slot then db
      else Stand(db, id, CommitRow(key))
    case CommitRow(key) =>
      if key !in db.rows then db else Stop(db.(rows := db.rows[key := Taken(db.rows[key], c)]), id)
  }

  /** One statement.  Calls with bad arguments raise and change nothing; writers wait for a locked row. */
  function Step(db: Db, e: Event): Db {
    match e
    case Publish(key, payload, now) =>
      if key == "" || payload == "" || key in db.rows then db
      else db.(rows := db.rows[key := Row(None, Available, payload, None, now, now)])
    case Refresh(key, payload, now) =>
      if key == "" || payload == "" || key !in db.rows || Locked(db, key) || db.rows[key].state != Available then db
      else
        db.(rows := db.rows[key := db.rows[key].(state := Available, slot := None, owner := None, payload := payload, updatedAt := now)])
    case Transition(key, owner, expected, target, now) =>
      if key == "" || owner == "" || target !in AllowedTransitions(expected) then db
      else if key !in db.rows || Locked(db, key) || db.rows[key].owner != Some(owner) || db.rows[key].state != expected then db
      else db.(rows := db.rows[key := db.rows[key].(state := target, updatedAt := now)])
    case BeginClaim(id, owner, slot, now) =>
      if owner == "" || slot !in {1, 2, 3} || id in db.claims then db
      else db.(claims := db.claims[id := Claiming(owner, slot, now, CheckSlot)])
    case Proceed(id, choice) => if id in db.claims then ProceedClaim(db, id, choice) else db
    case Rollback(id) => Stop(db, id)
  }

  function Run(events: seq<Event>): Db {
    if events == [] then Db(map[], map[]) else Step(Run(events[..|events| - 1]), events[|events| - 1])
  }

  // ---------------------------------------------------------------- the invariant

  /** An AVAILABLE row has neither owner nor slot; every other row has both. */
  predicate RowOk(r: Row) {
    if r.state == Available then r.slot == None && r.owner == None
    else r.slot.Some? && r.slot.value in {1, 2, 3} && r.owner.Some? && r.owner.value != ""
  }

  predicate SlotsApart(rows: map<string, Row>) {
    forall a, b | a in rows && b in rows && a != b && Active(rows[a].state) && Active(rows[b].state) :: rows[a].slot != rows[b].slot
  }

  predicate ClaimOk(db: Db, c: Claiming) {
    && c.owner != "" && c.slot in {1, 2, 3}
    && (c.stage.UpdateRow? || c.stage.CommitRow? ==> c.stage.key in db.rows && db.rows[c.stage.key].state == Available)
    && (c.stage.CommitRow? ==> !SlotTaken(db.rows, c.slot))
  }

  /** Two claims never have the same row locked, nor the same slot about to be committed. */
  predicate ClaimsApart(c: Claiming, d: Claiming) {
    && (c.stage.UpdateRow? || c.stage.CommitRow? ==> !Locks(d, c.stage.key))
    && (c.stage.CommitRow? && d.stage.CommitRow? ==> c.slot != d.slot)
  }

  predicate Inv(db: Db) {
    && (forall k <- db.rows :: RowOk(db.rows[k]))
    && SlotsApart(db.rows)
    && (forall i <- db.claims :: ClaimOk(db, db.claims[i]))
    && (forall i, j | i in db.claims && j in db.claims && i != j :: ClaimsApart(db.claims[i], db.claims[j]))
  }

  lemma StopKeeps(db: Db, id: nat)
    requires Inv(db)
    ensures Inv(Stop(db, id))
  {
    hide RowOk, SlotsApart, ClaimOk, ClaimsApart, SlotTaken;
    var db' := Stop(db, id);
    forall i | i in db'.claims ensures ClaimOk(db', db'.claims[i]) {
      assert ClaimOk(db, db.claims[i]);
      ClaimOkDepends(db, db', db.claims[i]);
    }
  }

  lemma ClaimOkDepends(db: Db, db': Db, c: Claiming)
    requires db.rows == db'.rows && ClaimOk(db, c)
    ensures ClaimOk(db', c)
  {
  }

  /** A write to one unlocked row that takes no slot. */
  lemma RowWriteKeeps(db: Db, key: string, r: Row)
    requires Inv(db) && RowOk(r) && !Locked(db, key)
    requires key !in db.rows ==> r.state == Available
    requires key in db.rows && Active(r.state) ==> Active(db.rows[key].state) && r.slot == db.rows[key].slot
    ensures Inv(db.(rows := db.rows[key := r]))
  {
    var db' := db.(rows := db.rows[key := r]);
    forall i | i in db'.claims ensures ClaimOk(db', db'.claims[i]) {
      assert ClaimOk(db, db.claims[i]);
      assert !Locks(db.claims[i], key);
      if SlotTaken(db'.rows, db.claims[i].slot) {
        var k :| k in db'.rows && Active(db'.rows[k].state) && db'.rows[k].slot == Some(db.claims[i].slot);
        assert k in db.rows && Active(db.rows[k].state) && db.rows[k].slot == Some(db.claims[i].slot);
      }
    }
    hide RowOk, ClaimOk, Locked;
    assert SlotsApart(db'.rows);
  }

  lemma StandKeeps(db: Db, id: nat, stage: Stage)
    requires Inv(db) && id in db.claims && ClaimOk(db, db.claims[id].(stage := stage))
    requires forall j <- db.claims :: j != id ==>
               ClaimsApart(db.claims[j], db.claims[id].(stage := stage)) && ClaimsApart(db.claims[id].(stage := stage), db.claims[j])
    ensures Inv(Stand(db, id, stage))
  {
    hide RowOk, SlotsApart, ClaimOk, ClaimsApart;
    var db' := Stand(db, id, stage);
    forall i | i in db'.claims ensures ClaimOk(db', db'.claims[i]) {
      ClaimOkDepends(db, db', db'.claims[i]);
    }
  }

  /** The commit is where a slot is taken: the index entry made it this claim's alone. */
  lemma CommitKeeps(db: Db, id: nat, choice: string)
    requires Inv(db) && id in db.claims && db.claims[id].stage.CommitRow?
    ensures Inv(ProceedClaim(db, id, choice))
  {
    var c := db.claims[id];
    var key := c.stage.key;
    assert ClaimOk(db, c);
    var rows' := db.rows[key := Taken(db.rows[key], c)];
    var db' := Db(rows', Drop(db.claims, id));
    assert ProceedClaim(db, id, choice) == db';
    forall i | i in db'.claims ensures ClaimOk(db', db'.claims[i]) {
      assert ClaimOk(db, db.claims[i]) && ClaimsApart(c, db.claims[i]) && ClaimsApart(db.claims[i], c);
    }
    forall a, b | a in rows' && b in rows' && a != b && Active(rows'[a].state) && Active(rows'[b].state)
      ensures rows'[a].slot != rows'[b].slot
    {
      assert !SlotTaken(db.rows, c.slot);
    }
    hide ClaimOk, SlotTaken;
  }

  lemma ProceedKeeps(db: Db, id: nat, choice: string)
    requires Inv(db) && id in db.claims
    ensures Inv(ProceedClaim(db, id, choice))
  {
    var c := db.claims[id];
    StopKeeps(db, id);
    if c.stage.CommitRow? {
      CommitKeeps(db, id, choice);
    } else {
      assert ClaimOk(db, c);
      forall j | j in db.claims && j != id ensures ClaimsApart(db.claims[j], c) && ClaimsApart(c, db.claims[j]) {}
      hide Inv, SlotTaken, Selectable, ActiveKeys;
      match c.stage
      case CheckSlot => StandKeeps(db, id, CountActive);
      case CountActive => StandKeeps(db, id, SelectRow);
      case SelectRow =>
        if Selectable(db, choice) {
          SelectedApart(db, id, choice);
          StandKeeps(db, id, UpdateRow(choice));
        }
      case UpdateRow(key) =>
        if !SlotTaken(db.rows, c.slot) && !(exists i <- db.claims :: db.claims[i].stage.CommitRow? && db.claims[i].slot == c.slot) {
          StandKeeps(db, id, CommitRow(key));
        }
    }
  }

  lemma SelectedApart(db: Db, id: nat, choice: string)
    requires id in db.claims && db.claims[id].stage.SelectRow? && Selectable(db, choice)
    ensures db.rows[choice].state == Available
    ensures forall j <- db.claims :: j != id ==>
              ClaimsApart(db.claims[j], db.claims[id].(stage := UpdateRow(choice))) && ClaimsApart(db.claims[id].(stage := UpdateRow(choice)), db.claims[j])
  {
    assert !Locked(db, choice);
  }

  lemma StepKeeps(db: Db, e: Event)
    requires Inv(db)
    ensures Inv(Step(db, e))
  {
    match e
    case Proceed(id, choice) =>
      if id in db.claims { ProceedKeeps(db, id, choice); }
    case Rollback(id) => StopKeeps(db, id);
    case BeginClaim(id, owner, slot, now) =>
      hide RowOk, SlotsApart;
    case Publish(key, payload, now) =>
      if key !in db.rows && key != "" && payload != "" {
        assert !Locked(db, key) by {
          forall i | i in db.claims ensures !Locks(db.claims[i], key) { assert ClaimOk(db, db.claims[i]); }
        }
        hide Inv, Locked;
        RowWriteKeeps(db, key, Row(None, Available, payload, None, now, now));
      }
    case Refresh(key, payload, now) =>
      if key in db.rows && !Locked(db, key) && db.rows[key].state == Available {
        hide Inv, Locked;
        RowWriteKeeps(db, key, db.rows[key].(state := Available, slot := None, owner := None, payload := payload, updatedAt := now));
      }
    case Transition(key, owner, expected, target, now) =>
      if key in db.rows && !Locked(db, key) && db.rows[key].owner == Some(owner) && db.rows[key].state == expected
         && target in AllowedTransitions(expected) && owner != "" {
        assert RowOk(db.rows[key]);
        hide Inv, Locked;
        RowWriteKeeps(db, key, db.rows[key].(state := target, updatedAt := now));
      }
  }

  lemma {:induction false} RunKeeps(events: seq<Event>)
    ensures Inv(Run(events))
  {
    if events != [] {
      RunKeeps(events[..|events| - 1]);
      hide Inv, Step;
      StepKeeps(Run(events[..|events| - 1]), events[|events| - 1]);
    }
  }

  // ---------------------------------------------------------------- slot exclusion

  /** Whatever claims, transitions and rollbacks interleave: a slot never has two active commands. */
  lemma SlotExclusion(events: seq<Event>, a: string, b: string)
    requires var rows := Run(events).rows;
             a in rows && b in rows && Active(rows[a].state) && Active(rows[b].state) && rows[a].slot == rows[b].slot
    ensures a == b
  {
    RunKeeps(events);
    hide Run;
  }

  lemma {:induction false} SlotsCount(rows: map<string, Row>, keys: set<string>)
    requires keys <= ActiveKeys(rows) && SlotsApart(rows) && forall k <- keys :: rows[k].slot.Some?
    ensures |set k | k in keys :: rows[k].slot.value| == |keys|
    decreases |keys|
  {
    if keys != {} {
      var k :| k in keys;
      var rest := keys - {k};
      SlotsCount(rows, rest);
      assert rows[k].slot.value !in set j | j in rest :: rows[j].slot.value;
      assert (set j | j in keys :: rows[j].slot.value) == (set j | j in rest :: rows[j].slot.value) + {rows[k].slot.value};
    }
  }

  lemma SubsetSize(a: set<int>, b: set<int>)
    requires a <= b
    ensures |a| <= |b|
  {
    assert b == a + (b - a);
  }

  predicate TableOk(rows: map<string, Row>) {
    (forall k <- rows :: RowOk(rows[k])) && SlotsApart(rows)
  }

  lemma {:induction false} ActiveFit(rows: map<string, Row>, slots: set<int>)
    requires TableOk(rows)
    requires forall k <- ActiveKeys(rows) :: rows[k].slot.Some? ==> rows[k].slot.value in slots
    ensures |ActiveKeys(rows)| <= |slots|
  {
    assert forall k <- ActiveKeys(rows) :: RowOk(rows[k]) && rows[k].slot.Some?;
    SlotsCount(rows, ActiveKeys(rows));
    SubsetSize(set k | k in ActiveKeys(rows) :: rows[k].slot.value, slots);
  }

  /** A slot without an active command leaves room below the limit, so in a single snapshot the count check
  never refuses what the slot check let through. */
  lemma FreeSlotLeavesRoom(rows: map<string, Row>, slot: int)
    requires TableOk(rows) && slot in {1, 2, 3} && !SlotTaken(rows, slot)
    ensures |ActiveKeys(rows)| < 3 == MAX_ACTIVE_SLOTS
  {
    assert forall k <- ActiveKeys(rows) :: RowOk(rows[k]) && rows[k].slot.value in {1, 2, 3} - {slot};
    ActiveFit(rows, {1, 2, 3} - {slot});
  }

  /** At most three commands are ever active. */
  lemma AtMostThreeActive(events: seq<Event>)
    ensures |set k | k in Run(events).rows && Run(events).rows[k].state in {Reserved, OrderPending, PartiallyFilled, Managing, Closing}| <= 3
  {
    var rows := Run(events).rows;
    RunKeeps(events);
    assert forall k <- ActiveKeys(rows) :: RowOk(rows[k]) && rows[k].slot.value in {1, 2, 3};
    ActiveFit(rows, {1, 2, 3});
    assert ActiveKeys(rows) == set k | k in rows && rows[k].state in {Reserved, OrderPending, PartiallyFilled, Managing, Closing};
  }

  /** The checks that open a claim are not what keeps slots apart: two claims for one slot can both pass them. */
  lemma ChecksCanBothPass() returns (events: seq<Event>)
    ensures var db := Run(events);
            && 1 in db.claims && 2 in db.claims
            && db.claims[1].slot == db.claims[2].slot && db.claims[1].stage.SelectRow? && db.claims[2].stage.SelectRow?
  {
    var a, b := Claiming("a", 1, 0, CheckSlot), Claiming("b", 1, 0, CheckSlot);
    RunNext([], BeginClaim(1, "a", 1, 0));
    events := [] + [BeginClaim(1, "a", 1, 0)];
    RunNext(events, BeginClaim(2, "b", 1, 0));
    events := events + [BeginClaim(2, "b", 1, 0)];
    assert Run(events) == Db(map[], map[1 := a, 2 := b]);
    hide Run;
    BothPass(events, 1, a);
    events := events + [Proceed(1, "")] + [Proceed(1, "")];
    BothPass(events, 2, b);
    events := events + [Proceed(2, "")] + [Proceed(2, "")];
  }

  lemma BothPass(events: seq<Event>, id: nat, c: Claiming)
    requires var db := Run(events); db.rows == map[] && id in db.claims && db.claims[id] == c && c.stage == CheckSlot
    ensures Run(events + [Proceed(id, "")] + [Proceed(id, "")])
            == Db(map[], Run(events).claims[id := c.(stage := SelectRow)])
  {
    RunNext(events, Proceed(id, ""));
    RunNext(events + [Proceed(id, "")], Proceed(id, ""));
    assert ActiveKeys(map[]) == {};
    hide Run;
  }

  lemma RunNext(events: seq<Event>, e: Event)
    ensures Run(events + [e]) == Step(Run(events), e)
  {
    assert (events + [e])[..|events|] == events;
  }

  // ---------------------------------------------------------------- progress and ownership

  function Rank(s: CommandState): nat {
    match s
    case Available => 0
    case Reserved => 1
    case OrderPending => 2
    case PartiallyFilled => 3
    case Managing => 4
    case Closing => 5
    case Closed => 6
    case Failed => 6
  }

  /** What one statement may do to a stored command: nothing; a refresh of an AVAILABLE one; its claim; or a step
  along the transition graph that leaves payload, slot, owner and age alone. */
  predicate Advances(r: Row, r': Row) {
    && r'.createdAt == r.createdAt
    && (r' == r
        || (r.state == Available == r'.state && r'.slot == None && r'.owner == None)
        || (r.state == Available && r'.state == Reserved && r'.payload == r.payload)
        || (r.state != Available && r'.state in AllowedTransitions(r.state)
            && r'.payload == r.payload && r'.slot == r.slot && r'.owner == r.owner))
  }

  lemma StepAdvances(db: Db, e: Event, key: string)
    requires Inv(db) && key in db.rows
    ensures key in Step(db, e).rows && Advances(db.rows[key], Step(db, e).rows[key])
  {
    assert RowOk(db.rows[key]);
    if e.Proceed? && e.id in db.claims {
      assert ClaimOk(db, db.claims[e.id]);
    }
    hide SlotsApart, ClaimsApart, ClaimOk, SlotTaken, Selectable, ActiveKeys, Oldest;
  }

  lemma AdvancesRank(r: Row, r': Row)
    requires Advances(r, r')
    ensures Rank(r.state) <= Rank(r'.state) && r'.createdAt == r.createdAt
    ensures r'.state == r.state || Rank(r.state) < Rank(r'.state)
    ensures r.state != Available ==> r'.state != Available && r'.payload == r.payload && r'.slot == r.slot && r'.owner == r.owner
  {
  }

  /** Every command of a run is still there at its end; it has advanced in the rank of its state, and once it
  was claimed its payload, slot and owner are what they were. */
  lemma {:induction false} CommandsAdvance(events: seq<Event>, n: nat, key: string)
    requires n <= |events| && key in Run(events[..n]).rows
    ensures key in Run(events).rows
    ensures var r, r' := Run(events[..n]).rows[key], Run(events).rows[key];
            && Rank(r.state) <= Rank(r'.state) && r'.createdAt == r.createdAt
            && (r.state != Available ==>
                  r'.payload == r.payload && r'.slot == r.slot && r'.owner == r.owner && (r'.state == r.state || Rank(r.state) < Rank(r'.state)))
    decreases |events| - n
  {
    if n == |events| {
      assert events[..n] == events;
    } else {
      assert events[..n + 1][..n] == events[..n];
      RunKeeps(events[..n]);
      var db, next := Run(events[..n]), Run(events[..n + 1]);
      assert next == Step(db, events[n]);
      hide Inv, Step, Run, Advances, Rank;
      StepAdvances(db, events[n], key);
      AdvancesRank(db.rows[key], next.rows[key]);
      CommandsAdvance(events, n + 1, key);
    }
  }

  /** How often the state of a command has changed along a run. */
  function Moves(events: seq<Event>, key: string): nat {
    if events == [] then 0
    else
      var before, after := Run(events[..|events| - 1]).rows, Run(events).rows;
      Moves(events[..|events| - 1], key)
      + if key in before && key in after && before[key].state != after[key].state then 1 else 0
  }

  /** At most six changes of state, ever. */
  lemma {:induction false} AtMostSixMoves(events: seq<Event>, key: string)
    ensures Moves(events, key) <= if key in Run(events).rows then Rank(Run(events).rows[key].state) else 0
    ensures Moves(events, key) <= 6
  {
    if events != [] {
      var n := |events| - 1;
      AtMostSixMoves(events[..n], key);
      RunKeeps(events[..n]);
      assert Run(events) == Step(Run(events[..n]), events[n]);
      hide Inv, Step, Run, Rank, Advances;
      if key in Run(events[..n]).rows {
        StepAdvances(Run(events[..n]), events[n], key);
        AdvancesRank(Run(events[..n]).rows[key], Run(events).rows[key]);
      }
      RankAtMostSix();
    }
  }

  lemma RankAtMostSix()
    ensures forall s: CommandState :: Rank(s) <= 6
  {
  }

  /** A command that is not AVAILABLE was stored before the last statement. */
  lemma StoredBefore(db: Db, e: Event, key: string)
    requires Inv(db) && key in Step(db, e).rows && Step(db, e).rows[key].state != Available
    ensures key in db.rows
  {
    if e.Proceed? && e.id in db.claims {
      assert ClaimOk(db, db.claims[e.id]);
    }
    hide SlotsApart, ClaimsApart, ClaimOk, SlotTaken, Selectable, ActiveKeys, Oldest, RowOk;
  }

  predicate StateAt(events: seq<Event>, n: nat, key: string, states: set<CommandState>)
    requires n <= |events|
  {
    key in Run(events[..n]).rows && Run(events[..n]).rows[key].state in states
  }

  lemma StateEarlier(events: seq<Event>, n: nat, m: nat, key: string, states: set<CommandState>)
    requires m <= n <= |events| && StateAt(events[..n], m, key, states)
    ensures StateAt(events, m, key, states)
  {
    assert events[..n][..m] == events[..m];
    hide Run;
  }

  /** The only way into these states is from those. */
  ghost predicate EnteredFrom(states: set<CommandState>, from: set<CommandState>) {
    forall r: Row, r': Row {:trigger Advances(r, r')} ::
      Advances(r, r') && r'.state in states && r.state !in states ==> r.state in from
  }

  lemma {:induction false} PassedThrough(events: seq<Event>, key: string, states: set<CommandState>, from: set<CommandState>)
    returns (n: nat)
    requires Available !in states && EnteredFrom(states, from)
    requires key in Run(events).rows && Run(events).rows[key].state in states
    ensures n < |events| && StateAt(events, n, key, from)
    decreases |events|
  {
    assert events != [];
    n := |events| - 1;
    var db := Run(events[..n]);
    RunKeeps(events[..n]);
    StoredBefore(db, events[n], key);
    StepAdvances(db, events[n], key);
    assert Run(events) == Step(db, events[n]);
    hide Inv, Step, Run, Advances;
    if db.rows[key].state in states {
      var m := PassedThrough(events[..n], key, states, from);
      StateEarlier(events, n, m, key, from);
      n := m;
    }
  }

  lemma WaysIn()
    ensures EnteredFrom({PartiallyFilled, Managing, Closing, Closed}, {OrderPending})
    ensures EnteredFrom({Closed}, {Managing, Closing})
    ensures EnteredFrom({OrderPending, PartiallyFilled, Managing, Closing, Closed}, {Reserved})
    ensures EnteredFrom({Reserved, OrderPending, PartiallyFilled, Managing, Closing, Closed, Failed}, {Available})
    ensures EnteredFrom({Failed}, {Reserved, OrderPending, PartiallyFilled, Managing, Closing})
  {
  }

  /** Over every run: a command that is partly filled, managed, closing or closed had its order pending before; a closed one
  was managed or closing, a failed one active; whose order was ever pending was reserved, and whatever is not AVAILABLE
  was. */
  lemma LifecycleInOrder(events: seq<Event>, key: string) returns (n: nat, m: nat)
    requires key in Run(events).rows
    ensures var state := Run(events).rows[key].state;
            && n <= |events| && m <= |events|
            && (state in {PartiallyFilled, Managing, Closing, Closed} ==> StateAt(events, n, key, {OrderPending}))
            && (state == Closed ==> StateAt(events, m, key, {Managing, Closing}))
            && (state == OrderPending ==> StateAt(events, m, key, {Reserved}))
            && (state == Reserved ==> StateAt(events, m, key, {Available}))
            && (state == Failed ==> StateAt(events, m, key, {Reserved, OrderPending, PartiallyFilled, Managing, Closing}))
  {
    WaysIn();
    hide *;
    n, m := 0, 0;
    var state := Run(events).rows[key].state;
    if state in {PartiallyFilled, Managing, Closing, Closed} {
      n := PassedThrough(events, key, {PartiallyFilled, Managing, Closing, Closed}, {OrderPending});
    }
    if state == Closed {
      m := PassedThrough(events, key, {Closed}, {Managing, Closing});
    } else if state == OrderPending {
      m := PassedThrough(events, key, {OrderPending, PartiallyFilled, Managing, Closing, Closed}, {Reserved});
    } else if state == Reserved {
      m := PassedThrough(events, key, {Reserved, OrderPending, PartiallyFilled, Managing, Closing, Closed, Failed}, {Available});
    } else if state == Failed {
      m := PassedThrough(events, key, {Failed}, {Reserved, OrderPending, PartiallyFilled, Managing, Closing});
    }
  }

  /** Whatever else is under way, the owner of an active command can fail it: no claim has its row locked. */
  lemma OwnerCanFail(events: seq<Event>, key: string, owner: string, now: int)
    requires key in Run(events).rows && owner != "" && Run(events).rows[key].owner == Some(owner)
    requires key != "" && Run(events).rows[key].state in {Reserved, OrderPending, PartiallyFilled, Managing, Closing}
    ensures var r := Run(events).rows[key];
            Step(Run(events), Transition(key, owner, r.state, Failed, now)).rows
              == Run(events).rows[key := Row(r.slot, Failed, r.payload, r.owner, r.createdAt, now)]
  {
    RunKeeps(events);
    var db := Run(events);
    hide Run;
    assert !Locked(db, key) by {
      forall i | i in db.claims ensures !Locks(db.claims[i], key) { assert ClaimOk(db, db.claims[i]); }
    }
  }

  /** A row that a claim has locked changes by no other statement than that claim's own. */
  lemma LockedRowsWait(db: Db, e: Event, key: string)
    requires Locked(db, key) && key in db.rows && !e.Proceed?
    ensures Step(db, e).rows[key] == db.rows[key]
  {
  }

  /** A claim that is rolled back is gone with its locks; rows and the other claims stay. */
  lemma RollbackLeaves(db: Db, id: nat)
    ensures var db' := Step(db, Rollback(id));
            && db'.rows == db.rows && db'.claims.Keys == db.claims.Keys - {id}
            && forall i <- db'.claims :: db'.claims[i] == db.claims[i]
  {
  }

  // ---------------------------------------------------------------- what a claim does

  /** A statement of a claim changes rows only by its commit: an AVAILABLE command becomes RESERVED by the owner in the
  slot, which no active command has, and keeps the rest. */
  lemma ClaimsReserve(events: seq<Event>, id: nat, choice: string)
    requires var db := Run(events); id in db.claims && Step(db, Proceed(id, choice)).rows != db.rows
    ensures var db := Run(events);
            var c := db.claims[id];
            && c.stage.CommitRow? && c.stage.key in db.rows && db.rows[c.stage.key].state == Available
            && (forall k <- db.rows :: db.rows[k].slot == Some(c.slot) ==>
                  db.rows[k].state !in {Reserved, OrderPending, PartiallyFilled, Managing, Closing})
            && var r := db.rows[c.stage.key];
               Step(db, Proceed(id, choice)) ==
                 Db(db.rows[c.stage.key := Row(Some(c.slot), Reserved, r.payload, Some(c.owner), r.createdAt, c.now)],
                    map i | i in db.claims && i != id :: db.claims[i])
  {
    RunKeeps(events);
    var db := Run(events);
    assert ClaimOk(db, db.claims[id]);
    hide Run, Inv;
  }

  /** A claim whose slot is taken ends without a change, before its selection or at its update. */
  lemma TakenSlotRefuses(db: Db, id: nat, choice: string)
    requires id in db.claims && (db.claims[id].stage.CheckSlot? || db.claims[id].stage.UpdateRow?)
    requires exists k <- db.rows :: db.rows[k].slot == Some(db.claims[id].slot)
                                    && db.rows[k].state in {Reserved, OrderPending, PartiallyFilled, Managing, Closing}
    ensures Step(db, Proceed(id, choice)).rows == db.rows && id !in Step(db, Proceed(id, choice)).claims
  {
    assert SlotTaken(db.rows, db.claims[id].slot);
  }

  /** And one that finds three commands active ends at its count. */
  lemma FullTableRefuses(db: Db, id: nat, choice: string)
    requires id in db.claims && db.claims[id].stage.CountActive?
    requires |set k | k in db.rows && db.rows[k].state in {Reserved, OrderPending, PartiallyFilled, Managing, Closing}| >= 3
    ensures Step(db, Proceed(id, choice)).rows == db.rows && id !in Step(db, Proceed(id, choice)).claims
  {
    assert ActiveKeys(db.rows) == set k | k in db.rows && db.rows[k].state in {Reserved, OrderPending, PartiallyFilled, Managing, Closing};
  }

  /** The state of a claim that is the only one. */
  function Alone(rows: map<string, Row>, id: nat, c: Claiming, stage: Stage): Db {
    Db(rows, map[id := c.(stage := stage)])
  }

  /** Left alone, a claim for a free slot reserves the AVAILABLE command it selects. */
  lemma ClaimAlone(rows: map<string, Row>, id: nat, owner: string, slot: int, now: int, key: string)
    requires TableOk(rows) && key in rows && rows[key].state == Available && owner != "" && slot in {1, 2, 3}
    requires forall k <- rows :: rows[k].slot == Some(slot) ==>
               rows[k].state !in {Reserved, OrderPending, PartiallyFilled, Managing, Closing}
    ensures var s1 := Step(Db(rows, map[]), BeginClaim(id, owner, slot, now));
            var s2 := Step(s1, Proceed(id, key));
            var s3 := Step(s2, Proceed(id, key));
            var s4 := Step(s3, Proceed(id, key));
            var s5 := Step(s4, Proceed(id, key));
            && s1 == Db(rows, map[id := Claiming(owner, slot, now, CheckSlot)])
            && Step(s5, Proceed(id, key)) ==
                 Db(rows[key := Row(Some(slot), Reserved, rows[key].payload, Some(owner), rows[key].createdAt, now)], map[])
  {
    assert !SlotTaken(rows, slot);
    FreeSlotLeavesRoom(rows, slot);
    var c := Claiming(owner, slot, now, CheckSlot);
    assert map[][id := c] == map[id := c];
    assert Step(Db(rows, map[]), BeginClaim(id, owner, slot, now)) == Alone(rows, id, c, CheckSlot);
    AlonePasses(rows, id, c, key);
    AloneTakes(rows, id, c, key);
    hide TableOk, SlotTaken, ActiveKeys, Step;
  }

  lemma AlonePasses(rows: map<string, Row>, id: nat, c: Claiming, key: string)
    requires key in rows && rows[key].state == Available && !SlotTaken(rows, c.slot) && |ActiveKeys(rows)| < MAX_ACTIVE_SLOTS
    ensures Step(Alone(rows, id, c, CheckSlot), Proceed(id, key)) == Alone(rows, id, c, CountActive)
    ensures Step(Alone(rows, id, c, CountActive), Proceed(id, key)) == Alone(rows, id, c, SelectRow)
  {
    hide SlotTaken, ActiveKeys;
    AloneStands(rows, id, c, CountActive);
    AloneStands(rows, id, c, SelectRow);
  }

  lemma AloneTakes(rows: map<string, Row>, id: nat, c: Claiming, key: string)
    requires key in rows && rows[key].state == Available && !SlotTaken(rows, c.slot)
    ensures Step(Alone(rows, id, c, SelectRow), Proceed(id, key)) == Alone(rows, id, c, UpdateRow(key))
    ensures Step(Alone(rows, id, c, UpdateRow(key)), Proceed(id, key)) == Alone(rows, id, c, CommitRow(key))
    ensures Step(Alone(rows, id, c, CommitRow(key)), Proceed(id, key)) ==
              Db(rows[key := Row(Some(c.slot), Reserved, rows[key].payload, Some(c.owner), rows[key].createdAt, c.now)], map[])
  {
    hide SlotTaken, ActiveKeys;
    AloneStands(rows, id, c, UpdateRow(key));
    AloneStands(rows, id, c, CommitRow(key));
    assert !Locked(Alone(rows, id, c, SelectRow), key);
    assert Drop(map[id := c.(stage := CommitRow(key))], id) == map[];
  }

  lemma AloneStands(rows: map<string, Row>, id: nat, c: Claiming, stage: Stage)
    ensures forall before: Stage {:trigger c.(stage := before)} ::
              Stand(Db(rows, map[id := c.(stage := before)]), id, stage) == Db(rows, map[id := c.(stage := stage)])
  {
  }

  /** Publishing again never overwrites a command, refreshing never touches a claimed one, and no transition
  claims one. */
  lemma WritersKeepOff(events: seq<Event>, e: Event, key: string)
    requires key in Run(events).rows && !e.Proceed?
    ensures var r, r' := Run(events).rows[key], Step(Run(events), e).rows[key];
            && (e.Publish? ==> r' == r)
            && (e.Refresh? && r.state != Available ==> r' == r)
            && (r.state == Available ==> r'.state == Available)
  {
    RunKeeps(events);
    var db := Run(events);
    assert RowOk(db.rows[key]);
    hide Run, SlotsApart, ClaimsApart, ClaimOk;
  }

  // ---------------------------------------------------------------- the table as one transaction at a time

  lemma {:induction false} OldestAmong(rows: map<string, Row>, keys: set<string>) returns (k: string)
    requires keys != {} && keys <= rows.Keys
    ensures k in keys && forall j <- keys :: j != k ==> Earlier(rows, k, j)
    decreases |keys|
  {
    k :| k in keys;
    var rest := keys - {k};
    if rest != {} {
      var m := OldestAmong(rows, rest);
      TextOrder.Total(k, m);
      if !Earlier(rows, k, m) {
        k := m;
      } else {
        forall j | j in rest && j != m ensures Earlier(rows, k, j) {
          if TextOrder.Before(k, m) && TextOrder.Before(m, j) { TextOrder.Transitive(k, m, j); }
        }
      }
    }
  }

  lemma OldestExists(rows: map<string, Row>, k: string)
    requires k in rows && rows[k].state == Available
    ensures exists o <- rows :: Oldest(Db(rows, map[]), o)
  {
    var available := set j | j in rows && rows[j].state == Available;
    assert k in available;
    var o := OldestAmong(rows, available);
    assert Oldest(Db(rows, map[]), o);
  }

  lemma OldestIs(rows: map<string, Row>, k: string)
    requires k in rows && Oldest(Db(rows, map[]), k)
    ensures rows[k].state == Available
    ensures forall j <- rows :: j != k && rows[j].state == Available ==>
              || rows[k].createdAt < rows[j].createdAt
              || (rows[k].createdAt == rows[j].createdAt && TextOrder.Before(k, j))
  {
    forall j | j in rows && j != k && rows[j].state == Available ensures Earlier(rows, k, j) {
      assert Selectable(Db(rows, map[]), j);
    }
    hide TextOrder.Before;
  }

  /** The moves of a command. */
  lemma TransitionsAre(expected: CommandState, target: CommandState)
    ensures target in AllowedTransitions(expected) <==>
              || (expected == Available && target == Reserved)
              || (expected == Reserved && target in {OrderPending, Failed})
              || (expected == OrderPending && target in {PartiallyFilled, Managing, Failed})
              || (expected == PartiallyFilled && target in {Managing, Closing, Failed})
              || (expected == Managing && target in {Closing, Closed, Failed})
              || (expected == Closing && target in {Closed, Failed})
  {
  }

  class CommandTable {
    var rows: map<string, Row>

    predicate Valid()
      reads this
    {
      TableOk(rows)
    }

    constructor ()
      ensures Valid() && rows == map[]
    {
      rows := map[];
    }

    /** Whether the command was inserted; bad arguments raise. */
    method PublishCommand(key: string, payload: string, now: int) returns (r: Option<bool>)
      requires Valid()
      modifies this
      ensures Valid() && rows == Step(Db(old(rows), map[]), Publish(key, payload, now)).rows
      ensures r.None? <==> key == "" || payload == ""
      ensures r.Some? ==> (r.value <==> key !in old(rows)) && key in rows
      ensures rows == if r == Some(true) then old(rows)[key := Row(None, Available, payload, None, now, now)] else old(rows)
    {
      if key == "" || payload == "" {
        return None;
      }
      r := Some(key !in rows);
      if key !in rows {
        rows := rows[key := Row(None, Available, payload, None, now, now)];
      }
    }

    /** The refreshed row, if the command was still AVAILABLE; bad arguments raise. */
    method RefreshStaleCommand(key: string, payload: string, now: int) returns (r: Option<Option<Row>>)
      requires Valid()
      modifies this
      ensures Valid() && rows == Step(Db(old(rows), map[]), Refresh(key, payload, now)).rows
      ensures r.None? <==> key == "" || payload == ""
      ensures r.Some? ==> (r.value.Some? <==> key in old(rows) && old(rows)[key].state == Available)
      ensures r.Some? && r.value.Some? ==> r.value.value == Row(None, Available, payload, None, old(rows)[key].createdAt, now)
      ensures rows == if r.Some? && r.value.Some? then old(rows)[key := r.value.value] else old(rows)
    {
      if key == "" || payload == "" {
        return None;
      }
      if key !in rows || rows[key].state != Available {
        return Some(None);
      }
      var row := Row(None, Available, payload, None, rows[key].createdAt, now);
      rows := rows[key := row];
      r := Some(Some(row));
    }

    /** The advanced row, if its owner and state are as expected; bad arguments and moves off the graph raise. */
    method TransitionCommand(key: string, owner: string, expected: CommandState, target: CommandState, now: int)
      returns (r: Option<Option<Row>>)
      requires Valid()
      modifies this
      ensures Valid() && rows == Step(Db(old(rows), map[]), Transition(key, owner, expected, target, now)).rows
      ensures r.None? <==>
                key == "" || owner == ""
                || !(|| (expected == Available && target == Reserved)
                     || (expected == Reserved && target in {OrderPending, Failed})
                     || (expected == OrderPending && target in {PartiallyFilled, Managing, Failed})
                     || (expected == PartiallyFilled && target in {Managing, Closing, Failed})
                     || (expected == Managing && target in {Closing, Closed, Failed})
                     || (expected == Closing && target in {Closed, Failed}))
      ensures r.Some? ==> (r.value.Some? <==> key in old(rows) && old(rows)[key].owner == Some(owner) && old(rows)[key].state == expected)
      ensures r.Some? && r.value.Some? ==>
                && expected != Available
                && var row := old(rows)[key]; r.value.value == Row(row.slot, target, row.payload, row.owner, row.createdAt, now)
      ensures rows == if r.Some? && r.value.Some? then old(rows)[key := r.value.value] else old(rows)
    {
      hide TableOk, AllowedTransitions;
      TransitionsAre(expected, target);
      if key == "" || owner == "" || target !in AllowedTransitions(expected) {
        return None;
      }
      if key !in rows || rows[key].owner != Some(owner) || rows[key].state != expected {
        return Some(None);
      }
      var row := rows[key].(state := target, updatedAt := now);
      MovedTableOk(rows, key, row);
      rows := rows[key := row];
      r := Some(Some(row));
    }

    /** Claim the oldest AVAILABLE command for a slot that no active command has; bad arguments raise. */
    method ClaimCommand(owner: string, slot: int, now: int) returns (r: Option<Option<string>>)
      requires Valid()
      modifies this
      ensures Valid()
      ensures r.None? <==> owner == "" || slot !in {1, 2, 3}
      ensures r.Some? ==>
                (r.value.Some? <==>
                   && (forall k <- old(rows) :: old(rows)[k].slot == Some(slot) ==>
                         old(rows)[k].state !in {Reserved, OrderPending, PartiallyFilled, Managing, Closing})
                   && exists k <- old(rows) :: old(rows)[k].state == Available)
      ensures if r.Some? && r.value.Some? then
                var k := r.value.value;
                && k in old(rows) && old(rows)[k].state == Available
                && (forall j <- old(rows) :: j != k && old(rows)[j].state == Available ==>
                      || old(rows)[k].createdAt < old(rows)[j].createdAt
                      || (old(rows)[k].createdAt == old(rows)[j].createdAt && TextOrder.Before(k, j)))
                && rows == old(rows)[k := Row(Some(slot), Reserved, old(rows)[k].payload, Some(owner), old(rows)[k].createdAt, now)]
              else rows == old(rows)
    {
      if owner == "" || slot !in {1, 2, 3} {
        return None;
      }
      if SlotTaken(rows, slot) {
        return Some(None);
      }
      FreeSlotLeavesRoom(rows, slot);
      if |ActiveKeys(rows)| >= MAX_ACTIVE_SLOTS {
        return Some(None);
      }
      if k: string :| k in rows && rows[k].state == Available {
        OldestExists(rows, k);
        var o :| o in rows && Oldest(Db(rows, map[]), o);
        ghost var before := rows;
        rows := rows[o := rows[o].(slot := Some(slot), state := Reserved, owner := Some(owner), updatedAt := now)];
        ClaimedTableOk(before, o, Claiming(owner, slot, now, CheckSlot));
        OldestIs(before, o);
        return Some(Some(o));
      }
      r := Some(None);
    }
  }

  /** A row that moves along the graph keeps its slot, and was active before if it is now. */
  lemma MovedTableOk(rows: map<string, Row>, key: string, row: Row)
    requires TableOk(rows) && key in rows && rows[key].owner.Some? && rows[key].owner.value != ""
    requires row.slot == rows[key].slot && row.owner == rows[key].owner && row.state in AllowedTransitions(rows[key].state)
    ensures TableOk(rows[key := row]) && rows[key].state != Available
  {
    assert RowOk(rows[key]);
  }

  lemma ClaimedTableOk(rows: map<string, Row>, key: string, c: Claiming)
    requires TableOk(rows) && key in rows && rows[key].state == Available
    requires c.owner != "" && c.slot in {1, 2, 3} && !SlotTaken(rows, c.slot)
    ensures TableOk(rows[key := Taken(rows[key], c)])
  {
  }
}
