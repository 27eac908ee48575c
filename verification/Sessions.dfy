/** The three commands as concurrent database sessions. Every `await` of a
    command is a step of its own; steps of different sessions interleave freely.
    A session locks the row of its user before it reads transactions and keeps
    the lock until it commits or rolls back. Reads see committed rows. */
module Sessions {
  import opened Seqs
  import opened Transactions
  import opened Ledger
  import opened LedgerLaws

  /** What a session is about to do. */
  datatype Phase =
    | NeedAccount                         // add: look the account up
    | NeedLock                            // select the user row for update
    | NeedUnits                           // add: load the pair and check it
    | NeedRow                             // update, delete: fetch the row
    | NeedNewAccount(row: Transaction)    // update: look the account up
    | NeedOldPair(row: Transaction)       // update: check the pair that is left
    | NeedNewPair(row: Transaction)       // update: check the pair that is joined
    | NeedRest(row: Transaction)          // delete: check what remains
    | Ready(found: Option<Transaction>)   // flush the write
    | Flushed(found: Option<Transaction>, id: int)  // commit
    | Finished(outcome: Outcome)
    | RolledBack

  datatype Session = Session(req: Request, phase: Phase)

  /** A finished session, with the id its insert was given. */
  datatype Entry = Entry(id: int, req: Request, outcome: Outcome)

  datatype System = System(
    dir: Directory, table: Table, nextId: int,
    locks: map<int, nat>, sessions: map<nat, Session>, journal: seq<Entry>)

  datatype Action = Begin(who: nat, req: Request) | Advance(who: nat) | RollBack(who: nat)

  // ---------------------------------------------------------------- steps

  predicate Fits(req: Request, phase: Phase) {
    match phase
    case NeedAccount => req.Add?
    case NeedUnits => req.Add?
    case NeedRow => !req.Add?
    case NeedNewAccount(_) => req.Update?
    case NeedOldPair(_) => req.Update?
    case NeedNewPair(_) => req.Update?
    case NeedRest(_) => req.Delete?
    case Ready(found) => req.Add? || found.Some?
    case Flushed(found, _) => req.Add? || found.Some?
    case _ => true
  }

  function Next(dir: Directory, table: Table, nextId: int, req: Request, phase: Phase): Phase
    requires Fits(req, phase)
  {
    match phase
    case NeedAccount =>
      if dir.Owns(req.userId, req.data.accountId) then NeedLock else Finished(Rejected(InvalidTransaction))
    case NeedLock =>
      if req.Add? then NeedUnits else NeedRow
    case NeedUnits =>
      if HasUnits(table, req.userId, req.data) then Ready(None) else Finished(Rejected(InsufficientPosition))
    case NeedRow =>
      var found := Find(table, req.id);
      if found.None? then Finished(Missing)
      else if found.value.userId != req.userId then Finished(Rejected(TransactionForbidden))
      else if req.Update? then NeedNewAccount(found.value)
      else NeedRest(found.value)
    case NeedNewAccount(row) =>
      if dir.Owns(req.userId, Changed(row, req.changes).accountId) then NeedOldPair(row)
      else Finished(Rejected(InvalidTransaction))
    case NeedOldPair(row) =>
      if OldPairOk(table, row, Changed(row, req.changes)) then NeedNewPair(row)
      else Finished(Rejected(InsufficientPosition))
    case NeedNewPair(row) =>
      if NewPairOk(table, row, Changed(row, req.changes)) then Ready(Some(row))
      else Finished(Rejected(InsufficientPosition))
    case NeedRest(row) =>
      if RestOk(table, row) then Ready(Some(row)) else Finished(Rejected(InsufficientPosition))
    case Ready(found) =>
      var resolves := match req
        case Add(user, d) => dir.Resolves(NewRow(nextId, user, d))
        case Update(_, _, c) => dir.Resolves(Changed(found.value, c))
        case Delete(_, _) => true;
      if resolves then Flushed(found, nextId) else Finished(Rejected(InvalidTransaction))
    case Flushed(found, id) =>
      Finished(match req
        case Add(user, d) => Recorded(NewRow(id, user, d))
        case Update(_, _, c) => Updated(Changed(found.value, c))
        case Delete(_, _) => Deleted)
    case Finished(_) => phase
    case RolledBack => phase
  }

  /** The table after the commit of a flushed session. */
  function Written(table: Table, req: Request, found: Option<Transaction>, id: int): Table
    requires req.Add? || found.Some?
  {
    match req
    case Add(user, d) => table + [NewRow(id, user, d)]
    case Update(_, _, c) => Replace(table, Changed(found.value, c))
    case Delete(_, row) => Remove(table, row)
  }

  predicate Over(phase: Phase) {
    phase.Finished? || phase.RolledBack?
  }

  function Release(locks: map<int, nat>, user: int, who: nat): map<int, nat> {
    if user in locks && locks[user] == who then locks - {user} else locks
  }

  predicate Enabled(s: System, a: Action) {
    match a
    case Begin(who, req) => who !in s.sessions && req.Positive()
    case Advance(who) =>
      && who in s.sessions
      && var ses := s.sessions[who];
      && !Over(ses.phase) && Fits(ses.req, ses.phase)
      && (ses.phase.NeedLock? ==> ses.req.userId !in s.locks)
    case RollBack(who) => who in s.sessions && !Over(s.sessions[who].phase)
  }

  function Apply(s: System, a: Action): System
    requires Enabled(s, a)
  {
    match a
    case Begin(who, req) =>
      s.(sessions := s.sessions[who := Session(req, if req.Add? then NeedAccount else NeedLock)])
    case RollBack(who) =>
      var req := s.sessions[who].req;
      s.(sessions := s.sessions[who := Session(req, RolledBack)], locks := Release(s.locks, req.userId, who))
    case Advance(who) =>
      var Session(req, phase) := s.sessions[who];
      var next := Next(s.dir, s.table, s.nextId, req, phase);
      System(
        s.dir,
        if phase.Flushed? then Written(s.table, req, phase.found, phase.id) else s.table,
        if phase.Ready? && next.Flushed? && req.Add? then s.nextId + 1 else s.nextId,
        if phase.NeedLock? && req.userId in s.dir.users then s.locks[req.userId := who]
        else if next.Finished? then Release(s.locks, req.userId, who)
        else s.locks,
        s.sessions[who := Session(req, next)],
        if next.Finished?
        then s.journal + [Entry(if phase.Flushed? then phase.id else s.nextId, req, next.outcome)]
        else s.journal)
  }

  // ---------------------------------------------------------------- invariant

  ghost predicate Own(table: Table, req: Request, row: Transaction) {
    !req.Add? && row in table && row.userId == req.userId && row.id == req.id
  }

  /** What a session has established about the committed rows so far. */
  ghost predicate Known(dir: Directory, table: Table, req: Request, phase: Phase) {
    && Fits(req, phase)
    && match phase
       case NeedLock => req.Add? ==> dir.Owns(req.userId, req.data.accountId)
       case NeedUnits => dir.Owns(req.userId, req.data.accountId)
       case NeedNewAccount(row) => Own(table, req, row)
       case NeedOldPair(row) => Own(table, req, row) && dir.Owns(req.userId, Changed(row, req.changes).accountId)
       case NeedNewPair(row) =>
         && Own(table, req, row) && dir.Owns(req.userId, Changed(row, req.changes).accountId)
         && OldPairOk(table, row, Changed(row, req.changes))
       case NeedRest(row) => Own(table, req, row)
       case Ready(found) => Checked(dir, table, req, found)
       case Flushed(found, id) =>
         && Checked(dir, table, req, found)
         && (req.Add? ==> dir.Resolves(NewRow(id, req.userId, req.data)))
         && (req.Update? ==> dir.Resolves(Changed(found.value, req.changes)))
       case _ => true
  }

  ghost predicate Checked(dir: Directory, table: Table, req: Request, found: Option<Transaction>) {
    match req
    case Add(user, d) => dir.Owns(user, d.accountId) && HasUnits(table, user, d)
    case Update(user, _, c) =>
      && found.Some? && Own(table, req, found.value)
      && dir.Owns(user, Changed(found.value, c).accountId)
      && OldPairOk(table, found.value, Changed(found.value, c))
      && NewPairOk(table, found.value, Changed(found.value, c))
    case Delete(_, _) => found.Some? && Own(table, req, found.value) && RestOk(table, found.value)
  }

  predicate PastLock(phase: Phase) {
    !Over(phase) && !phase.NeedAccount? && !phase.NeedLock?
  }

  ghost predicate LocksHeld(s: System) {
    && (forall who ::
          who in s.sessions && PastLock(s.sessions[who].phase) && s.sessions[who].req.userId in s.dir.users ==>
          s.sessions[who].req.userId in s.locks && s.locks[s.sessions[who].req.userId] == who)
    && (forall user :: user in s.locks ==>
          && s.locks[user] in s.sessions
          && s.sessions[s.locks[user]].req.userId == user
          && PastLock(s.sessions[s.locks[user]].phase))
  }

  /** Ids are given out once: rows and unfinished inserts all have different ones. */
  ghost predicate IdsFresh(s: System) {
    && (forall t :: t in s.table ==> t.id < s.nextId)
    && (forall who :: who in s.sessions && s.sessions[who].phase.Flushed? && s.sessions[who].req.Add? ==>
          && s.sessions[who].phase.id < s.nextId
          && (forall t :: t in s.table ==> t.id != s.sessions[who].phase.id)
          && (forall v :: v in s.sessions && v != who && s.sessions[v].phase.Flushed? && s.sessions[v].req.Add? ==>
                s.sessions[v].phase.id != s.sessions[who].phase.id))
  }

  ghost predicate SessionsKnow(s: System) {
    forall who :: who in s.sessions ==>
      s.sessions[who].req.Positive() && Known(s.dir, s.table, s.sessions[who].req, s.sessions[who].phase)
  }

  /** The table of the serial execution of the journal. */
  function Replay(dir: Directory, start: Table, journal: seq<Entry>): Table
  {
    if journal == [] then start
    else
      var e := journal[|journal| - 1];
      Perform(dir, Replay(dir, start, journal[..|journal| - 1]), e.id, e.req).0
  }

  /** Every outcome in the journal is the one the serial execution gives. */
  ghost predicate Serial(dir: Directory, start: Table, journal: seq<Entry>) {
    forall k :: 0 <= k < |journal| ==>
      Perform(dir, Replay(dir, start, journal[..k]), journal[k].id, journal[k].req).1 == journal[k].outcome
  }

  ghost predicate Inv(start: Table, s: System) {
    && Consistent(s.dir, s.table)
    && LocksHeld(s)
    && IdsFresh(s)
    && SessionsKnow(s)
    && s.table == Replay(s.dir, start, s.journal)
    && Serial(s.dir, start, s.journal)
  }

  // ---------------------------------------------------------------- one session against the rest

  /** What a session knows only concerns the rows of its own user. */
  lemma KnownFrame(dir: Directory, table: Table, table': Table, req: Request, phase: Phase)
    requires Known(dir, table, req, phase)
    requires Filter(table, Mine(req.userId)) == Filter(table', Mine(req.userId))
    ensures Known(dir, table', req, phase)
  {
    var mine := Mine(req.userId);
    FilterMembers(table, mine);
    FilterMembers(table', mine);
    forall b, a ensures Load(table, req.userId, b, a) == Load(table', req.userId, b, a) {
      FilterTwice(table, mine, Pair(req.userId, b, a), Pair(req.userId, b, a));
      FilterTwice(table', mine, Pair(req.userId, b, a), Pair(req.userId, b, a));
    }
    forall row | Own(table, req, row) ensures Own(table', req, row) {
      assert row in Filter(table, mine);
      assert row in Filter(table', mine);
    }
    assert forall b, a, id :: Others(table, req.userId, b, a, id) == Others(table', req.userId, b, a, id);
  }

  /** A commit does not touch the rows of any other user. */
  lemma WrittenFrame(table: Table, req: Request, found: Option<Transaction>, id: int, other: int)
    requires DistinctIds(table) && other != req.userId
    requires req.Add? || (found.Some? && Own(table, req, found.value))
    ensures Filter(Written(table, req, found, id), Mine(other)) == Filter(table, Mine(other))
  {
    match req
    case Add(user, d) =>
      FilterSnoc(table, NewRow(id, user, d), Mine(other));
    case Update(_, _, c) =>
      var changed := Changed(found.value, c);
      var edit := (t: Transaction) => if t.id == changed.id then changed else t;
      forall t | t in table && t.id == changed.id ensures t == found.value {
        FoundRow(table, t);
        FoundRow(table, found.value);
      }
      FilterMap(table, edit, Mine(other), Mine(other));
      FilterMembers(table, Mine(other));
      var kept := Filter(table, Mine(other));
      assert forall i :: 0 <= i < |kept| ==> kept[i] in table && edit(kept[i]) == kept[i];
      assert Map(kept, edit) == kept;
      assert Written(table, req, found, id) == Map(table, edit);
    case Delete(_, row) =>
      forall t | t in table && t.id == row ensures t == found.value {
        FoundRow(table, t);
        FoundRow(table, found.value);
      }
      FilterTwice(table, Except(row), Mine(other), Mine(other));
  }

  /** A session ends exactly as its request would if it ran alone on the rows
      committed at that moment. */
  lemma EndsAsPerformed(dir: Directory, table: Table, nextId: int, req: Request, phase: Phase)
    requires Consistent(dir, table) && Known(dir, table, req, phase) && !Over(phase)
    requires Next(dir, table, nextId, req, phase).Finished?
    ensures Perform(dir, table, if phase.Flushed? then phase.id else nextId, req)
         == (if phase.Flushed? then Written(table, req, phase.found, phase.id) else table,
             Next(dir, table, nextId, req, phase).outcome)
  {
    match phase
    case NeedNewAccount(row) => FoundRow(table, row);
    case NeedOldPair(row) => FoundRow(table, row);
    case NeedNewPair(row) => FoundRow(table, row);
    case NeedRest(row) => FoundRow(table, row);
    case Ready(found) => if found.Some? && !req.Add? { FoundRow(table, found.value); }
    case Flushed(found, id) => if found.Some? && !req.Add? { FoundRow(table, found.value); }
    case _ =>
  }

  /** One more request, executed after the others with the outcome the journal gives it. */
  lemma SerialSnoc(dir: Directory, start: Table, journal: seq<Entry>, e: Entry)
    requires Serial(dir, start, journal)
    requires Perform(dir, Replay(dir, start, journal), e.id, e.req).1 == e.outcome
    ensures Replay(dir, start, journal + [e]) == Perform(dir, Replay(dir, start, journal), e.id, e.req).0
    ensures Serial(dir, start, journal + [e])
  {
    var longer, n := journal + [e], |journal|;
    assert longer[..n] == journal;
    forall k | 0 <= k < n ensures longer[k] == journal[k] && longer[..k] == journal[..k] {
    }
  }

  /** Any step but the commit leaves the committed rows as they are, and every
      step that ends a session agrees with the request run alone. */
  lemma StepIsSerial(start: Table, s: System, who: nat)
    requires Inv(start, s) && Enabled(s, Advance(who))
    ensures var s' := Apply(s, Advance(who));
      && (s.sessions[who].phase.Flushed? || s'.table == s.table)
      && s'.table == Replay(s.dir, start, s'.journal)
      && Serial(s.dir, start, s'.journal)
  {
    var Session(req, phase) := s.sessions[who];
    var next := Next(s.dir, s.table, s.nextId, req, phase);
    if next.Finished? {
      EndsAsPerformed(s.dir, s.table, s.nextId, req, phase);
      SerialSnoc(s.dir, start, s.journal,
                 Entry(if phase.Flushed? then phase.id else s.nextId, req, next.outcome));
    }
  }

  lemma StepKeepsTable(start: Table, s: System, who: nat)
    requires Inv(start, s) && Enabled(s, Advance(who))
    ensures Consistent(s.dir, Apply(s, Advance(who)).table)
  {
    var Session(req, phase) := s.sessions[who];
    if phase.Flushed? {
      EndsAsPerformed(s.dir, s.table, s.nextId, req, phase);
      if req.Add? {
        PerformKeepsConsistent(s.dir, s.table, phase.id, req);
      } else {
        PerformKeepsConsistent(s.dir, s.table, s.nextId, req);
      }
    }
  }

  ghost predicate HasId(table: Table, id: int) {
    exists t :: t in table && t.id == id
  }

  /** A commit brings no id but that of the inserted row. */
  lemma WrittenIds(table: Table, req: Request, found: Option<Transaction>, id: int)
    requires req.Add? || found.Some?
    ensures forall t :: t in Written(table, req, found, id) ==> HasId(table, t.id) || (req.Add? && t.id == id)
  {
    var after := Written(table, req, found, id);
    forall t | t in after ensures HasId(table, t.id) || (req.Add? && t.id == id) {
      match req
      case Add(_, _) => assert t in table || t.id == id;
      case Update(_, _, _) =>
        var i :| 0 <= i < |after| && after[i] == t;
        assert table[i] in table && table[i].id == t.id;
      case Delete(_, row) =>
        FilterMembers(table, Except(row));
    }
  }

  lemma StepKeepsIds(s: System, who: nat)
    requires IdsFresh(s) && Enabled(s, Advance(who))
    ensures IdsFresh(Apply(s, Advance(who)))
  {
    var Session(req, phase) := s.sessions[who];
    if phase.Flushed? {
      WrittenIds(s.table, req, phase.found, phase.id);
    }
  }

  lemma StepKeepsLocks(s: System, who: nat)
    requires LocksHeld(s) && Enabled(s, Advance(who))
    ensures LocksHeld(Apply(s, Advance(who)))
  {
    var s' := Apply(s, Advance(who));
    var Session(req, phase) := s.sessions[who];
    assert forall v :: v in s.sessions && v != who ==> s'.sessions[v] == s.sessions[v];
    assert s'.sessions[who].req == req;
  }

  lemma StepKeepsKnown(start: Table, s: System, who: nat)
    requires Inv(start, s) && Enabled(s, Advance(who))
    ensures SessionsKnow(Apply(s, Advance(who)))
  {
    var s' := Apply(s, Advance(who));
    var Session(req, phase) := s.sessions[who];
    assert Known(s.dir, s.table, req, phase);
    forall v | v in s'.sessions
      ensures s'.sessions[v].req.Positive() && Known(s.dir, s'.table, s'.sessions[v].req, s'.sessions[v].phase)
    {
      if v == who {
        NextKnown(s.dir, s.table, s.nextId, req, phase);
      } else {
        var other := s.sessions[v];
        assert Known(s.dir, s.table, other.req, other.phase);
        if phase.Flushed? {
          if other.req.userId == req.userId {
            SameUserKnowsNothing(start, s, who, v);
          } else {
            WrittenFrame(s.table, req, phase.found, phase.id, other.req.userId);
            KnownFrame(s.dir, s.table, s'.table, other.req, other.phase);
          }
        }
      }
    }
  }

  lemma NextKnown(dir: Directory, table: Table, nextId: int, req: Request, phase: Phase)
    requires Known(dir, table, req, phase) && !Over(phase)
    ensures Known(dir, if phase.Flushed? then Written(table, req, phase.found, phase.id) else table,
                  req, Next(dir, table, nextId, req, phase))
  {
  }

  /** While one session of a user is past the lock, the others of that user have
      read nothing yet. */
  lemma SameUserKnowsNothing(start: Table, s: System, who: nat, v: nat)
    requires Inv(start, s) && who in s.sessions && v in s.sessions && v != who
    requires s.sessions[who].phase.Flushed? && s.sessions[v].req.userId == s.sessions[who].req.userId
    ensures !PastLock(s.sessions[v].phase)
  {
    var Session(req, phase) := s.sessions[who];
    assert Known(s.dir, s.table, req, phase);
    assert req.userId in s.dir.users;
  }

  lemma AdvanceKeepsInv(start: Table, s: System, who: nat)
    requires Inv(start, s) && Enabled(s, Advance(who))
    ensures Inv(start, Apply(s, Advance(who)))
  {
    StepIsSerial(start, s, who);
    StepKeepsTable(start, s, who);
    StepKeepsIds(s, who);
    StepKeepsLocks(s, who);
    StepKeepsKnown(start, s, who);
  }

  lemma OtherActionsKeepLocks(s: System, a: Action)
    requires LocksHeld(s) && Enabled(s, a) && !a.Advance?
    ensures LocksHeld(Apply(s, a))
  {
    var s' := Apply(s, a);
    assert forall v :: v in s.sessions && v != a.who ==> s'.sessions[v] == s.sessions[v];
  }

  /** Beginning and rolling back change no rows. */
  lemma OtherActionsKeepInv(start: Table, s: System, a: Action)
    requires Inv(start, s) && Enabled(s, a) && !a.Advance?
    ensures Inv(start, Apply(s, a))
  {
    OtherActionsKeepLocks(s, a);
    OtherActionsKeepIds(s, a);
    OtherActionsKeepKnown(s, a);
  }

  lemma OtherActionsKeepIds(s: System, a: Action)
    requires IdsFresh(s) && Enabled(s, a) && !a.Advance?
    ensures IdsFresh(Apply(s, a))
  {
    var s' := Apply(s, a);
    assert forall v :: v in s'.sessions && s'.sessions[v].phase.Flushed? ==>
      v in s.sessions && s'.sessions[v] == s.sessions[v];
  }

  lemma OtherActionsKeepKnown(s: System, a: Action)
    requires SessionsKnow(s) && Enabled(s, a) && !a.Advance?
    ensures SessionsKnow(Apply(s, a))
  {
    var s' := Apply(s, a);
    forall v | v in s'.sessions
      ensures s'.sessions[v].req.Positive() && Known(s'.dir, s'.table, s'.sessions[v].req, s'.sessions[v].phase)
    {
      if v != a.who {
        assert s'.sessions[v] == s.sessions[v];
      }
    }
  }

  lemma ActionKeepsInv(start: Table, s: System, a: Action)
    requires Inv(start, s) && Enabled(s, a)
    ensures Inv(start, Apply(s, a))
  {
    if a.Advance? {
      AdvanceKeepsInv(start, s, a.who);
    } else {
      OtherActionsKeepInv(start, s, a);
    }
  }

  // ---------------------------------------------------------------- whole runs

  ghost predicate IsRun(states: seq<System>, actions: seq<Action>) {
    && |states| == |actions| + 1
    && forall k :: 0 <= k < |actions| ==>
         Enabled(states[k], actions[k]) && states[k + 1] == Apply(states[k], actions[k])
  }

  ghost predicate Initial(s: System) {
    && Consistent(s.dir, s.table)
    && (forall t :: t in s.table ==> t.id < s.nextId)
    && s.locks == map[] && s.sessions == map[] && s.journal == []
  }

  lemma {:induction false} RunKeepsInv(states: seq<System>, actions: seq<Action>, k: nat)
    requires IsRun(states, actions) && Initial(states[0]) && k < |states|
    ensures Inv(states[0].table, states[k])
  {
    if k > 0 {
      RunKeepsInv(states, actions, k - 1);
      ActionKeepsInv(states[0].table, states[k - 1], actions[k - 1]);
    }
  }

  /** Safety: however the sessions interleave, no committed state has a negative
      position, on one account or over all accounts. */
  lemma CommittedPositionsNonNegative(states: seq<System>, actions: seq<Action>, k: nat,
      user: int, bond: int, account: int)
    requires IsRun(states, actions) && Initial(states[0]) && k < |states|
    ensures Position(states[k].table, user, bond, account) >= 0
    ensures Net(Filter(states[k].table, OfBond(user, bond))) >= 0
  {
    RunKeepsInv(states, actions, k);
    PooledNonNegative(states[k].table, user, bond);
  }

  /** However the sessions interleave, every committed row lies on an account of its own user
      and on an existing bond, and no two rows have the same id. */
  lemma CommittedRowsAreOwned(states: seq<System>, actions: seq<Action>, k: nat, i: nat, j: nat)
    requires IsRun(states, actions) && Initial(states[0]) && k < |states| && i < |states[k].table|
    ensures var row, dir := states[k].table[i], states[k].dir;
      && row.accountId in dir.owner && dir.owner[row.accountId] == row.userId
      && row.userId in dir.users && row.bondId in dir.bonds
      && (i < j < |states[k].table| ==> states[k].table[j].id != row.id)
  {
    RunKeepsInv(states, actions, k);
    assert states[k].table[i] in states[k].table;
  }

  /** Serializability: every run leaves the rows, and gives every request the
      outcome, of running the finished requests one after the other. */
  lemma Serializable(states: seq<System>, actions: seq<Action>, k: nat)
    requires IsRun(states, actions) && Initial(states[0]) && k < |states|
    ensures states[k].table == Replay(states[k].dir, states[0].table, states[k].journal)
    ensures Serial(states[k].dir, states[0].table, states[k].journal)
  {
    RunKeepsInv(states, actions, k);
  }
}
