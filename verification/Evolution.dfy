/** What one transaction may do to the tables: rows keep their identity, the log only
    grows, every change a scope can see moves that scope's version, and a parked scope
    sees nothing but cancellations and late news. */
module Evolution {
  import opened Wrappers
  import opened Store
  import opened Execution
  import opened Administration
  import opened Invariants

  // ---- what a scope sees --------------------------------------------------------------

  function DialogIn(attempts: Attempts, attempt: Id): Option<Id> {
    if attempt in attempts then Some(attempts[attempt].dialog) else None
  }

  function SeenRequests(requests: Requests, s: Scope): Requests {
    map r | r in requests && InScope(s, Some(requests[r].dialog)) :: requests[r]
  }

  function SeenAttempts(attempts: Attempts, s: Scope): Attempts {
    map a | a in attempts && InScope(s, Some(attempts[a].dialog)) :: attempts[a]
  }

  function SeenActions(actions: Actions, attempts: Attempts, s: Scope): Actions {
    map c | c in actions && InScope(s, DialogIn(attempts, actions[c].attempt)) :: actions[c]
  }

  function SeenTools(tools: map<Id, ToolCall>, attempts: Attempts, s: Scope): map<Id, ToolCall> {
    map i | i in tools && InScope(s, DialogIn(attempts, tools[i].attempt)) :: tools[i]
  }

  function SeenPrompts(prompts: map<Id, Prompt>, attempts: Attempts, s: Scope): map<Id, Prompt> {
    map p | p in prompts && InScope(s, DialogIn(attempts, prompts[p].attempt)) :: prompts[p]
  }

  function SeenEvents(events: map<nat, Event>, s: Scope): map<nat, Event> {
    map n | n in events && InScope(s, events[n].dialog) :: events[n]
  }

  function SeenHolds(holds: map<Id, Hold>, s: Scope): map<Id, Hold> {
    map h | h in holds && InScope(s, ScopeDialog(holds[h].scope)) :: holds[h]
  }

  function SeenReleases(releases: map<Id, Release>, holds: map<Id, Hold>, s: Scope): map<Id, Release> {
    map h | h in releases && h in holds && InScope(s, ScopeDialog(holds[h].scope)) :: releases[h]
  }

  datatype View = View(
    requests: Requests, attempts: Attempts, actions: Actions, tools: map<Id, ToolCall>, approvals: map<Id, Prompt>,
    inputs: map<Id, Prompt>, events: map<nat, Event>, holds: map<Id, Hold>, releases: map<Id, Release>, paused: bool)

  /** Everything a quiescence proof for `s` depends on. */
  function Seen(db: Db, s: Scope): View {
    View(SeenRequests(db.requests.rows, s), SeenAttempts(db.attempts.rows, s),
         SeenActions(db.actions.rows, db.attempts.rows, s), SeenTools(db.tools.rows, db.attempts.rows, s),
         SeenPrompts(db.approvals.rows, db.attempts.rows, s), SeenPrompts(db.inputs.rows, db.attempts.rows, s),
         SeenEvents(db.events.rows, s), SeenHolds(db.holds.rows, s),
         SeenReleases(db.releases.rows, db.holds.rows, s), db.state.paused)
  }

  // ---- the bonds -------------------------------------------------------------------------

  /** What a particular transaction is allowed: a parked scope to leave alone, whether the start gate is
      held shut for it, the attempt it may start, the actions whose status it may move, and whether it
      may take a finished attempt back into the slot. */
  datatype Terms = Terms(parked: Option<Scope>, gated: bool, starts: Option<Id>, moves: set<Id>, reopens: bool)

  datatype Bond = SameAttempts | SameFinals | SameLedger | SameActions | SameRows | SameHolds | SameLog | Versions | Calm

  ghost predicate AttemptsKept(before: Attempts, after: Attempts, starts: Option<Id>) {
    && (forall a :: a in before ==>
          && a in after && after[a].dialog == before[a].dialog && after[a].request == before[a].request
          && after[a].generation == before[a].generation && (before[a].started ==> after[a].started))
    && (forall a :: a in after && after[a].started ==> (a in before && before[a].started) || starts == Some(a))
  }

  ghost predicate FinalsKept(before: Attempts, after: Attempts) {
    forall a :: a in before && Finished(before[a].state) ==> a in after && after[a].state == before[a].state
  }

  ghost predicate ReceiptsKept(before: map<Id, Receipt>, after: map<Id, Receipt>) {
    forall id :: id in before ==> id in after && after[id] == before[id]
  }

  ghost predicate ActionsKept(before: Actions, after: Actions, moves: set<Id>) {
    forall c :: c in before ==> c in after && (if c in moves then after[c] == before[c].(status := after[c].status) else after[c] == before[c])
  }

  ghost predicate RequestsKept(before: Requests, after: Requests) {
    forall r :: r in before ==>
      && r in after && after[r].dialog == before[r].dialog && after[r].message == before[r].message
      && after[r].queueSequence == before[r].queueSequence
  }

  ghost predicate PromptsKept(before: map<Id, Prompt>, after: map<Id, Prompt>) {
    forall p :: p in before ==> p in after && after[p].attempt == before[p].attempt
  }

  ghost predicate VersionMoves(db: Db, db': Db, s: Scope) {
    s in db.revisions.rows ==>
      && s in db'.revisions.rows && db.revisions.rows[s].state <= db'.revisions.rows[s].state
      && (db.revisions.rows[s].state == db'.revisions.rows[s].state ==>
            db'.revisions.rows[s] == db.revisions.rows[s] && Seen(db', s) == Seen(db, s))
  }

  /** In scope, attempts and effects stand still, and a request only leaves the queue by cancellation. */
  ghost predicate StandsStill(db: Db, db': Db, s: Scope) {
    && (forall a :: a in db'.attempts.rows && InScope(s, Some(db'.attempts.rows[a].dialog)) ==>
          && a in db.attempts.rows && db'.attempts.rows[a].state == db.attempts.rows[a].state
          && db'.attempts.rows[a].effect == db.attempts.rows[a].effect)
    && (forall r :: r in db'.requests.rows && InScope(s, Some(db'.requests.rows[r].dialog)) ==>
          r in db.requests.rows && (db'.requests.rows[r].status == db.requests.rows[r].status || db'.requests.rows[r].status == Cancelled))
    && (forall c :: c in db'.actions.rows && InScope(s, DialogIn(db'.attempts.rows, db'.actions.rows[c].attempt)) ==>
          && c in db.actions.rows && db'.actions.rows[c] == db.actions.rows[c]
          && InScope(s, DialogIn(db.attempts.rows, db.actions.rows[c].attempt)))
    && (forall i :: i in db'.tools.rows && InScope(s, DialogIn(db'.attempts.rows, db'.tools.rows[i].attempt)) ==>
          && i in db.tools.rows && db'.tools.rows[i] == db.tools.rows[i]
          && InScope(s, DialogIn(db.attempts.rows, db.tools.rows[i].attempt)))
    && (forall p :: p in db'.approvals.rows && InScope(s, DialogIn(db'.attempts.rows, db'.approvals.rows[p].attempt)) ==>
          && p in db.approvals.rows && db'.approvals.rows[p] == db.approvals.rows[p]
          && InScope(s, DialogIn(db.attempts.rows, db.approvals.rows[p].attempt)))
    && (forall p :: p in db'.inputs.rows && InScope(s, DialogIn(db'.attempts.rows, db'.inputs.rows[p].attempt)) ==>
          && p in db.inputs.rows && db'.inputs.rows[p] == db.inputs.rows[p]
          && InScope(s, DialogIn(db.attempts.rows, db.inputs.rows[p].attempt)))
    && (forall n :: n in db'.events.rows && InScope(s, db'.events.rows[n].dialog) && db'.events.rows[n].kind.ToolCompleted? ==>
          n in db.events.rows && db'.events.rows[n] == db.events.rows[n])
  }

  ghost predicate Bound(bond: Bond, db: Db, db': Db, terms: Terms) {
    match bond
    case SameAttempts => AttemptsKept(db.attempts.rows, db'.attempts.rows, terms.starts)
    case SameFinals => !terms.reopens ==> FinalsKept(db.attempts.rows, db'.attempts.rows)
    case SameLedger => ReceiptsKept(db.accepted.rows, db'.accepted.rows) && ReceiptsKept(db.rejected.rows, db'.rejected.rows)
    case SameActions => ActionsKept(db.actions.rows, db'.actions.rows, terms.moves)
    case SameRows =>
      && RequestsKept(db.requests.rows, db'.requests.rows)
      && PromptsKept(db.approvals.rows, db'.approvals.rows) && PromptsKept(db.inputs.rows, db'.inputs.rows)
      && (forall i :: i in db.tools.rows ==> i in db'.tools.rows && db'.tools.rows[i].attempt == db.tools.rows[i].attempt)
    case SameHolds => !terms.gated ==>
      db'.holds == db.holds && db'.releases == db.releases && db'.holdRevisions == db.holdRevisions && db'.deletions == db.deletions
    case SameLog => forall n :: n in db.events.rows ==> n in db'.events.rows && db'.events.rows[n] == db.events.rows[n]
    case Versions => forall s :: VersionMoves(db, db', s)
    case Calm => terms.parked.Some? ==> StandsStill(db, db', terms.parked.value)
  }

  ghost predicate Extends(db: Db, db': Db, terms: Terms) {
    forall bond :: Bound(bond, db, db', terms)
  }

  lemma HaveBond(bond: Bond, db: Db, db': Db, terms: Terms)
    requires Extends(db, db', terms)
    ensures Bound(bond, db, db', terms)
  {
  }

  lemma Chain(db: Db, db1: Db, db2: Db, terms: Terms)
    requires Extends(db, db1, terms) && Extends(db1, db2, terms)
    ensures Extends(db, db2, terms)
  {
    forall bond ensures Bound(bond, db, db2, terms) {
      HaveBond(bond, db, db1, terms); HaveBond(bond, db1, db2, terms);
      match bond
      case Versions =>
        forall s ensures VersionMoves(db, db2, s) {
          assert VersionMoves(db, db1, s) && VersionMoves(db1, db2, s);
        }
      case Calm =>
        HaveBond(SameAttempts, db1, db2, terms); HaveBond(SameRows, db1, db2, terms);
      case _ =>
    }
  }

  lemma Unchanged(db: Db, terms: Terms)
    ensures Extends(db, db, terms)
  {
  }
}
