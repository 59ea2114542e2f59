/** Credential replacement: the rollback marker beside the credential file, the provisional
    adapter exchange, and what bootstrap recovers from a crash between any two file steps
    (adapters/cursor/auth_backend.go, adapters/cursor/managed.go). */
module Credentials {
  import opened Wrappers

  type Adapter = nat

  const SECRET_LIMIT := 16 * 1024

  predicate ValidSecret(s: string) {
    s != "" && |s| <= SECRET_LIMIT && '\r' !in s && '\n' !in s && '\0' !in s
  }

  /** The raw contents of the credential file and of the marker beside it. */
  datatype Files = Files(credential: Option<string>, marker: Option<string>)

  function TrimSuffix(s: string, c: char): string {
    if s != "" && s[|s| - 1] == c then s[..|s| - 1] else s
  }

  function ReadSecret(content: Option<string>): Result<Option<string>> {
    match content
    case None => Ok(None)
    case Some(raw) =>
      var secret := TrimSuffix(TrimSuffix(raw, '\n'), '\r');
      if ValidSecret(secret) then Ok(Some(secret)) else Err
  }

  // ---- the marker --------------------------------------------------------------------------

  function EncodeMarker(previous: Option<string>): string {
    match previous case None => "0" case Some(secret) => "1" + secret
  }

  /** What a marker says the credential was; `Err` for contents no marker has. */
  function DecodeMarker(marker: string): Result<Option<string>> {
    if marker == "0" then Ok(None)
    else if |marker| > 1 && marker[0] == '1' then Ok(Some(marker[1..]))
    else Err
  }

  lemma ReadBack(secret: string)
    requires ValidSecret(secret)
    ensures ReadSecret(Some(secret)) == Ok(Some(secret))
  {
  }

  /** The marker gives back exactly what it was made from, an absent credential included. */
  lemma MarkerRoundTrip(previous: Option<string>)
    requires previous.Some? ==> ValidSecret(previous.value)
    ensures DecodeMarker(EncodeMarker(previous)) == Ok(previous)
    ensures ValidSecret(EncodeMarker(previous)) <==> (previous.Some? ==> |previous.value| < SECRET_LIMIT)
  {
  }

  /** Only valid marker contents decode, and each comes from exactly one previous state. */
  lemma MarkerIsCanonical(marker: string)
    ensures DecodeMarker(marker).Ok? ==> EncodeMarker(DecodeMarker(marker).value) == marker
  {
  }

  // ---- recovery -----------------------------------------------------------------------------

  /** The credential bootstrap ends up with, if it recovers from these files without a further crash. */
  function Recovered(f: Files): Result<Option<string>> {
    match ReadSecret(f.marker)
    case Err => Err
    case Ok(None) => ReadSecret(f.credential)
    case Ok(Some(marker)) =>
      var previous := DecodeMarker(marker);
      if previous.Ok? && previous.value.Some? && !ValidSecret(previous.value.value) then Err else previous
  }

  /** Under a readable marker the credential file does not matter. */
  lemma MarkedRecovers(f: Files, previous: Option<string>)
    requires previous.Some? ==> ValidSecret(previous.value)
    requires f.marker == Some(EncodeMarker(previous)) && ValidSecret(EncodeMarker(previous))
    ensures Recovered(f) == Ok(previous)
  {
  }

  /** With the credential back in its file it does not matter whether the marker is still there. */
  lemma PutBackRecovers(f: Files, previous: Option<string>)
    requires previous.Some? ==> ValidSecret(previous.value) && |previous.value| < SECRET_LIMIT
    requires ReadSecret(f.credential) == Ok(previous) && (f.marker == None || f.marker == Some(EncodeMarker(previous)))
    ensures Recovered(f) == Ok(previous)
  {
  }

  /** A crash in any of these states recovers to the same credential, or finds the new one in place without a marker. */
  ghost predicate AllPass(states: seq<Files>, from: nat, credential: Result<Option<string>>, secret: string) {
    forall i :: from <= i < |states| ==> Recovered(states[i]) == credential || states[i] == Files(Some(secret), None)
  }

  lemma PassOn(before: seq<Files>, states: seq<Files>, from: nat, credential: Result<Option<string>>, secret: string)
    requires before <= states && AllPass(before, from, credential, secret) && AllRecover(states, |before|, credential)
    ensures AllPass(states, from, credential, secret)
  {
  }

  lemma PassTogether(start: seq<Files>, middle: seq<Files>, states: seq<Files>, credential: Result<Option<string>>, secret: string)
    requires start <= middle <= states && AllRecover(middle, |start|, credential) && AllPass(states, |middle|, credential, secret)
    ensures AllPass(states, |start|, credential, secret)
  {
    assert forall i :: |start| <= i < |middle| ==> states[i] == middle[i];
  }

  /** A crash in any of these states recovers to the same credential. */
  ghost predicate AllRecover(states: seq<Files>, from: nat, credential: Result<Option<string>>) {
    forall i :: from <= i < |states| ==> Recovered(states[i]) == credential
  }

  /** How one file step ends: done, failed without effect, or failed after its atomic replace took effect. */
  datatype Fault = Clean | Before | After

  class Disk {
    var files: Files
    /** Every state the files have been in, one per file step that took effect. */
    ghost var past: seq<Files>

    ghost predicate Tracked()
      reads this
    {
      past != [] && files == past[|past| - 1]
    }

    constructor (initial: Files)
      ensures files == initial && past == [initial]
    {
      files, past := initial, [initial];
    }

    method WriteMarker(content: string, fault: Fault) returns (failed: bool)
      modifies this
      ensures failed <==> !ValidSecret(content) || fault != Clean
      ensures if !ValidSecret(content) || fault == Before then files == old(files) && past == old(past)
              else files == old(files).(marker := Some(content)) && past == old(past) + [files]
    {
      if ValidSecret(content) && fault != Before {
        files := files.(marker := Some(content));
        past := past + [files];
      }
      return !ValidSecret(content) || fault != Clean;
    }

    method RemoveMarker(fault: Fault) returns (failed: bool)
      modifies this
      ensures failed <==> fault != Clean
      ensures if fault == Before then files == old(files) && past == old(past)
              else files == old(files).(marker := None) && past == old(past) + [files]
    {
      if fault != Before {
        files := files.(marker := None);
        past := past + [files];
      }
      return fault != Clean;
    }

    /** Writes the secret, or removes the file when there was none. */
    method RestoreCredential(secret: Option<string>, fault: Fault) returns (failed: bool)
      modifies this
      ensures failed <==> (secret.Some? && !ValidSecret(secret.value)) || fault != Clean
      ensures if (secret.Some? && !ValidSecret(secret.value)) || fault == Before then files == old(files) && past == old(past)
              else files == old(files).(credential := secret) && past == old(past) + [files]
    {
      if secret.Some? && !ValidSecret(secret.value) {
        return true;
      }
      if fault != Before {
        files := files.(credential := secret);
        past := past + [files];
      }
      return fault != Clean;
    }

    /** Bootstrap recovery. Whatever step it fails or crashes at, running it again gives the same credential. */
    method Recover(restoreFault: Fault, removeFault: Fault) returns (failed: bool)
      modifies this
      ensures old(past) <= past
      ensures AllRecover(past, |old(past)|, old(Recovered(files)))
      ensures Recovered(files) == old(Recovered(files))
      ensures !failed ==> files.marker == None && ReadSecret(files.credential) == old(Recovered(files))
      ensures failed <==> old(files.marker).Some? && (old(Recovered(files)).Err? || restoreFault != Clean || removeFault != Clean)
    {
      var marker := ReadSecret(files.marker);
      if marker.Err? {
        return true;
      }
      if marker.value.None? {
        assert files.marker == None;
        return false;
      }
      var previous := DecodeMarker(marker.value.value);
      if previous.Err? {
        return true;
      }
      failed := RestoreCredential(previous.value, restoreFault);
      if previous.value.Some? && ValidSecret(previous.value.value) {
        ReadBack(previous.value.value);
      }
      if failed {
        return true;
      }
      failed := RemoveMarker(removeFault);
    }
  }

  /** Recovering twice is recovering once. */
  lemma RecoveryIsIdempotent(f: Files)
    requires Recovered(f).Ok?
    ensures Recovered(Files(Recovered(f).value, None)) == Recovered(f)
  {
  }

  // ---- the replacement ----------------------------------------------------------------------

  /** The adapter in force. */
  class Managed {
    var current: Option<Adapter>
    var closed: bool

    constructor ()
      ensures current == None && !closed
    {
      current, closed := None, false;
    }

    method Exchange(candidate: Option<Adapter>) returns (failed: bool, prior: Option<Adapter>)
      modifies this
      ensures closed == old(closed) && (failed <==> candidate.None? || closed)
      ensures if failed then current == old(current) else current == candidate && prior == old(current)
    {
      if candidate.None? || closed {
        return true, None;
      }
      prior := current;
      current := candidate;
      return false, prior;
    }

    /** Takes the adapter out of force, whether or not it can be closed. */
    method Deactivate(closeFails: bool) returns (failed: bool)
      modifies this
      ensures closed == old(closed) && current == None && (failed <==> old(current).Some? && closeFails)
    {
      var prior := current;
      current := None;
      return prior.Some? && closeFails;
    }

    /** Puts the predecessor back, provided the provisional adapter is still the one in force. */
    method Restore(expected: Option<Adapter>, prior: Option<Adapter>) returns (failed: bool)
      modifies this
      ensures closed == old(closed) && (failed <==> closed || old(current) != expected)
      ensures current == if failed then old(current) else prior
    {
      if closed || current != expected {
        return true;
      }
      current := prior;
      return false;
    }
  }

  /** The faults of the file steps of a rollback. */
  datatype RollbackFaults = RollbackFaults(credential: Fault, marker: Fault)

  predicate Works(faults: RollbackFaults) {
    faults.credential == Clean && faults.marker == Clean
  }

  // ---- closing, step by step ------------------------------------------------------------------

  /** A close that undoes a commit puts the adapter back, then the credential, and then takes the marker away. */
  datatype Stage = Restoring | Writing(restored: bool) | Unmarking | Settled

  datatype Closer = Closer(adapter: Option<Adapter>, prior: Option<Adapter>, previous: Option<string>, stage: Stage)

  /** The files, the adapter in force, and what finished logins still have to close. Closing holds no lock of the
      manager's, so that anything may happen between two of its steps. */
  datatype World = World(files: Files, current: Option<Adapter>, shut: bool, closers: map<nat, Closer>)

  datatype Move = Closing(id: nat, fault: Fault) | Deactivating

  function CloseStep(w: World, id: nat, fault: Fault): World
    requires id in w.closers
  {
    var c := w.closers[id];
    match c.stage
    case Restoring =>
      if w.shut || w.current != c.adapter then w.(closers := w.closers[id := c.(stage := Writing(false))])
      else w.(current := c.prior, closers := w.closers[id := c.(adapter := None, stage := Writing(true))])
    case Writing(restored) =>
      w.(files := if fault == Before then w.files else w.files.(credential := c.previous),
         closers := w.closers[id := c.(stage := if restored && fault == Clean then Unmarking else Settled)])
    case Unmarking =>
      w.(files := if fault == Before then w.files else w.files.(marker := None), closers := w.closers[id := c.(stage := Settled)])
    case Settled => w
  }

  /** A whole close with nothing in between. */
  function AfterClose(w: World, id: nat, faults: RollbackFaults): World
    requires id in w.closers
  {
    CloseStep(CloseStep(CloseStep(w, id, Clean), id, faults.credential), id, faults.marker)
  }

  /** What a rollback makes of the files. */
  function RolledBack(f: Files, previous: Option<string>, refused: bool, faults: RollbackFaults): Files {
    Files(if faults.credential == Before then f.credential else previous,
          if !refused && faults.credential == Clean && faults.marker != Before then None else f.marker)
  }

  lemma AfterCloseIs(w: World, id: nat, faults: RollbackFaults)
    requires id in w.closers && w.closers[id].stage.Restoring?
    ensures var c, after := w.closers[id], AfterClose(w, id, faults);
      var refused := w.shut || w.current != c.adapter;
      after.files == RolledBack(w.files, c.previous, refused, faults) && after.current == if refused then w.current else c.prior
  {
  }

  ghost predicate Moved(run: seq<World>, moves: seq<Move>, k: nat) {
    && k < |moves| && k + 1 < |run|
    && match moves[k]
       case Closing(id, fault) => id in run[k].closers && run[k + 1] == CloseStep(run[k], id, fault)
       case Deactivating => run[k + 1] == run[k].(current := None)
  }

  ghost predicate Unfolds(run: seq<World>, moves: seq<Move>) {
    |run| == |moves| + 1 && forall k: nat :: k < |moves| ==> Moved(run, moves, k)
  }

  /** However the outstanding closes go on, and wherever they crash, bootstrap ends up with `v`. */
  ghost predicate Lasting(w: World, v: Option<string>) {
    forall run: seq<World>, moves: seq<Move> :: Unfolds(run, moves) && run[0] == w ==> Recovered(run[|moves|].files) == Ok(v)
  }

  predicate WriteAhead(c: Closer) {
    c.stage.Restoring? || c.stage.Writing?
  }

  /** Every login could mark what it replaced, and a marker that is still there belongs to whoever has a write ahead. */
  ghost predicate Closable(marker: Option<string>, closers: map<nat, Closer>) {
    forall id :: id in closers ==>
      && (closers[id].previous.Some? ==> ValidSecret(closers[id].previous.value) && |closers[id].previous.value| < SECRET_LIMIT)
      && (marker.Some? && WriteAhead(closers[id]) ==> marker == Some(EncodeMarker(closers[id].previous)))
  }

  /** Nothing that is still to be closed can change what is recovered. */
  ghost predicate Unthreatened(w: World, v: Option<string>) {
    && Recovered(w.files) == Ok(v)
    && forall id :: id in w.closers ==>
         && (WriteAhead(w.closers[id]) ==> w.closers[id].previous == v)
         && (w.closers[id].stage.Unmarking? ==> ReadSecret(w.files.credential) == Ok(v))
  }

  ghost predicate Holds(w: World, v: Option<string>) {
    Unthreatened(w, v) && Closable(w.files.marker, w.closers)
  }

  lemma HoldsRestoring(w: World, v: Option<string>, id: nat, fault: Fault)
    requires Holds(w, v) && id in w.closers && w.closers[id].stage.Restoring?
    ensures Holds(CloseStep(w, id, fault), v)
  {
  }

  lemma HoldsWriting(w: World, v: Option<string>, id: nat, fault: Fault)
    requires Holds(w, v) && id in w.closers && w.closers[id].stage.Writing?
    ensures Holds(CloseStep(w, id, fault), v)
  {
    assert w.closers[id].previous == v;
    if v.Some? {
      ReadBack(v.value);
    }
    var w' := CloseStep(w, id, fault);
    assert Recovered(w'.files) == Ok(v);
  }

  lemma HoldsUnmarking(w: World, v: Option<string>, id: nat, fault: Fault)
    requires Holds(w, v) && id in w.closers && w.closers[id].stage.Unmarking?
    ensures Holds(CloseStep(w, id, fault), v)
  {
    var w' := CloseStep(w, id, fault);
    assert Recovered(w'.files) == Ok(v);
  }

  lemma HoldsStep(w: World, v: Option<string>, id: nat, fault: Fault)
    requires Holds(w, v) && id in w.closers
    ensures Holds(CloseStep(w, id, fault), v)
  {
    match w.closers[id].stage
    case Restoring => HoldsRestoring(w, v, id, fault);
    case Writing(_) => HoldsWriting(w, v, id, fault);
    case Unmarking => HoldsUnmarking(w, v, id, fault);
    case Settled =>
  }

  lemma {:induction false} HoldsOn(run: seq<World>, moves: seq<Move>, k: nat, v: Option<string>)
    requires Unfolds(run, moves) && k <= |moves| && Holds(run[0], v)
    ensures Holds(run[k], v)
  {
    if k > 0 {
      HoldsOn(run, moves, k - 1, v);
      assert Moved(run, moves, k - 1);
      if moves[k - 1].Closing? {
        HoldsStep(run[k - 1], v, moves[k - 1].id, moves[k - 1].fault);
      }
    }
  }

  lemma LastsAfter(w: World, v: Option<string>, id: nat, fault: Fault)
    requires Lasting(w, v) && id in w.closers
    ensures Lasting(CloseStep(w, id, fault), v)
  {
    forall run: seq<World>, moves: seq<Move> | Unfolds(run, moves) && run[0] == CloseStep(w, id, fault)
      ensures Recovered(run[|moves|].files) == Ok(v)
    {
      var longer, more := [w] + run, [Closing(id, fault)] + moves;
      forall k: nat | k < |more| ensures Moved(longer, more, k) {
        assert k > 0 ==> Moved(run, moves, k - 1);
      }
      assert Unfolds(longer, more) && longer[|more|] == run[|moves|];
    }
  }

  lemma LastsNow(w: World, v: Option<string>)
    requires Lasting(w, v)
    ensures Recovered(w.files) == Ok(v)
  {
    assert Unfolds([w], []);
  }

  /** What is recovered now stays recovered, through every interleaving of the closes still to come and a crash at any
      point of it, if and only if each of them with its write ahead puts back that very credential, and each that is about
      to take the marker away leaves it in the file. */
  lemma RecoveredStaysIff(w: World, v: Option<string>)
    requires Closable(w.files.marker, w.closers)
    ensures Lasting(w, v) <==> Unthreatened(w, v)
  {
    if Unthreatened(w, v) {
      forall run: seq<World>, moves: seq<Move> | Unfolds(run, moves) && run[0] == w ensures Recovered(run[|moves|].files) == Ok(v) {
        HoldsOn(run, moves, |moves|, v);
      }
    }
    if Lasting(w, v) {
      LastsNow(w, v);
      forall id | id in w.closers
        ensures WriteAhead(w.closers[id]) ==> w.closers[id].previous == v
        ensures w.closers[id].stage.Unmarking? ==> ReadSecret(w.files.credential) == Ok(v)
      {
        CloserAgrees(w, v, id);
      }
    }
  }

  /** After a logout nothing is recovered, now and for good, unless a marker of an earlier credential is left or a login that
      has finished still has to put one back. */
  ghost predicate Forgotten(marker: Option<string>, closers: map<nat, Closer>) {
    && (marker.None? || ReadSecret(marker) == Ok(Some("0")))
    && forall id :: id in closers && WriteAhead(closers[id]) ==> closers[id].previous == None
  }

  lemma LogoutLastsIff(w: World)
    requires w.files.credential == None && Closable(w.files.marker, w.closers)
    ensures Lasting(w, None) <==> Forgotten(w.files.marker, w.closers)
  {
    RecoveredStaysIff(w, None);
  }

  lemma CloserAgrees(w: World, v: Option<string>, id: nat)
    requires Lasting(w, v) && Closable(w.files.marker, w.closers) && id in w.closers
    ensures WriteAhead(w.closers[id]) ==> w.closers[id].previous == v
    ensures w.closers[id].stage.Unmarking? ==> ReadSecret(w.files.credential) == Ok(v)
  {
    LastsNow(w, v);
    LastsAfter(w, v, id, Clean);
    var w1 := CloseStep(w, id, Clean);
    LastsNow(w1, v);
    if WriteAhead(w.closers[id]) {
      LastsAfter(w1, v, id, Clean);
      LastsNow(CloseStep(w1, id, Clean), v);
    }
  }

  /** Whether the context has ended at each point a commit looks at it, and the faults of its file steps. */
  datatype CommitFaults = CommitFaults(
    endedEarly: bool, endedMarked: bool, endedExchanged: bool, endedWritten: bool,
    marker: Fault, clearing: Fault, credential: Fault, rollback: RollbackFaults)

  /** Nothing stands in the way of a commit. */
  predicate CommitGoes(f: Files, shut: bool, faults: CommitFaults) {
    && !shut && ReadSecret(f.credential).Ok? && ValidSecret(EncodeMarker(ReadSecret(f.credential).value))
    && !faults.endedEarly && !faults.endedMarked && !faults.endedExchanged && !faults.endedWritten
    && faults.marker == Clean && faults.credential == Clean
  }

  class Replacement {
    const disk: Disk
    const managed: Managed
    const secret: string
    const candidate: Adapter
    var adapter: Option<Adapter>
    var prior: Option<Adapter>
    var previous: Option<string>
    var committed: bool
    var finalized: bool
    var rolledBack: bool
    var closed: bool
    /** Finalization has taken the marker away. */
    ghost var sealed: bool

    constructor (disk: Disk, managed: Managed, secret: string, candidate: Adapter)
      requires ValidSecret(secret) && disk.Tracked()
      ensures this.disk == disk && this.managed == managed && this.secret == secret && this.candidate == candidate
      ensures Valid() && adapter == Some(candidate) && !committed && !finalized && !rolledBack && !closed && !sealed
    {
      this.disk, this.managed, this.secret, this.candidate := disk, managed, secret, candidate;
      adapter, prior, previous := Some(candidate), None, None;
      committed, finalized, rolledBack, closed := false, false, false, false;
      sealed := false;
    }

    /** Where the files stand between commit and settlement. */
    ghost predicate Provisional(f: Files)
      reads this
    {
      && (f.credential == Some(secret) || ReadSecret(f.credential) == Ok(previous))
      && (f.marker == Some(EncodeMarker(previous)) || (f.marker == None && (sealed || ReadSecret(f.credential) == Ok(previous))))
    }

    /** Committed, and neither made permanent nor undone. */
    predicate Open()
      reads this
    {
      committed && !finalized && !rolledBack
    }

    /** What a rollback would have to do, and what is left to do for the close. */
    function Undoing(): Closer
      reads this
    {
      Closer(adapter, prior, previous, Restoring)
    }

    function Left(): Closer
      reads this
    {
      if Open() && !closed then Undoing() else Closer(None, None, None, Settled)
    }

    /** What holds whatever others do to the files. */
    ghost predicate Sound()
      reads this, disk
    {
      && ValidSecret(secret) && disk.Tracked()
      && (previous.Some? ==> ValidSecret(previous.value))
      && (committed && previous.Some? ==> |previous.value| < SECRET_LIMIT)
      && (finalized ==> committed && !rolledBack && sealed)
      && (sealed ==> committed)
      && (adapter.Some? ==> adapter == Some(candidate))
    }

    ghost predicate Valid()
      reads this, disk
    {
      Sound() && (Open() ==> Provisional(disk.files))
    }

    /** What a login leaves to be closed meets what the theorems about closing ask of it. */
    lemma LeftIsClosable()
      requires Valid()
      ensures Closable(disk.files.marker, map[0 := Left()])
    {
    }

    /** Makes the candidate the adapter in force and the secret the credential, provisionally. Every state the
        files pass through, an undone attempt included, recovers to the previous credential. */
    method Commit(faults: CommitFaults) returns (failed: bool)
      requires Valid()
      modifies this, disk, managed
      ensures Valid() && managed.closed == old(managed.closed) && sealed == old(sealed) && finalized == old(finalized) && closed == old(closed)
      ensures old(committed) ==> failed && committed && rolledBack == old(rolledBack)
      ensures !failed <==>
        old(!closed && !committed && !finalized && !rolledBack && adapter.Some?) && CommitGoes(old(disk.files), old(managed.closed), faults)
      ensures old(disk.past) <= disk.past
      ensures AllRecover(disk.past, |old(disk.past)|, old(ReadSecret(disk.files.credential)))
      ensures committed && !old(committed) ==> Ok(previous) == old(ReadSecret(disk.files.credential)) && prior == old(managed.current)
      ensures !failed ==>
        && committed && !rolledBack && !finalized
        && disk.files == Files(Some(secret), Some(EncodeMarker(previous)))
        && managed.current == Some(candidate) && adapter == Some(candidate) && prior == old(managed.current)
      ensures !old(committed) && committed ==> managed.current == old(managed.current) || managed.current == Some(candidate)
      ensures !old(committed) && committed && failed && Works(faults.rollback) ==> rolledBack
      ensures failed && !committed ==> managed.current == old(managed.current) && disk.files.credential == old(disk.files.credential)
      ensures failed && !old(committed) && rolledBack && !old(rolledBack) ==>
        && managed.current == old(managed.current) && disk.files.marker == None
        && ReadSecret(disk.files.credential) == old(ReadSecret(disk.files.credential))
    {
      if closed || committed || finalized || rolledBack || adapter.None? || faults.endedEarly {
        return true;
      }
      failed := Mark(faults.marker, faults.endedMarked, faults.clearing);
      if failed {
        return true;
      }
      failed := ExchangeAdapter(faults.clearing);
      if failed {
        return true;
      }
      failed := WriteProvisionally(faults);
    }

    /** Puts the candidate in force, which makes the commit one that has to be undone. */
    method ExchangeAdapter(clearing: Fault) returns (failed: bool)
      requires Valid() && !committed && !sealed && adapter == Some(candidate)
      requires disk.files.marker == Some(EncodeMarker(previous)) && ReadSecret(disk.files.credential) == Ok(previous)
      requires previous.Some? ==> |previous.value| < SECRET_LIMIT
      modifies this`committed, this`prior, disk, managed
      ensures Valid() && managed.closed == old(managed.closed) && (failed <==> managed.closed) && (committed <==> !failed)
      ensures disk.files.credential == old(disk.files.credential)
      ensures old(disk.past) <= disk.past && AllRecover(disk.past, |old(disk.past)|, Ok(previous))
      ensures if failed then managed.current == old(managed.current)
              else managed.current == adapter && prior == old(managed.current) && disk.files == old(disk.files) && disk.past == old(disk.past)
    {
      failed, prior := managed.Exchange(adapter);
      if failed {
        var _ := disk.RemoveMarker(clearing);
        return true;
      }
      committed := true;
    }

    /** The first half of a commit: remembers the credential and marks it for rollback. */
    method Mark(fault: Fault, ended: bool, clearing: Fault) returns (failed: bool)
      requires Valid() && !committed && !sealed
      modifies this`previous, disk
      ensures Valid() && disk.files.credential == old(disk.files.credential)
      ensures old(disk.past) <= disk.past && AllRecover(disk.past, |old(disk.past)|, old(ReadSecret(disk.files.credential)))
      ensures !failed ==>
        && Ok(previous) == old(ReadSecret(disk.files.credential)) && disk.files.marker == Some(EncodeMarker(previous))
        && (previous.Some? ==> |previous.value| < SECRET_LIMIT)
      ensures failed <==> ended || fault != Clean || old(ReadSecret(disk.files.credential)).Err?
                          || !ValidSecret(EncodeMarker(old(ReadSecret(disk.files.credential)).value))
    {
      var read := ReadSecret(disk.files.credential);
      if read.Err? {
        return true;
      }
      previous := read.value;
      MarkerRoundTrip(previous);
      failed := disk.WriteMarker(EncodeMarker(previous), fault);
      if disk.files.marker == Some(EncodeMarker(previous)) && ValidSecret(EncodeMarker(previous)) {
        MarkedRecovers(disk.files, previous);
      }
      if failed {
        return true;
      }
      if ended {
        var _ := disk.RemoveMarker(clearing);
        return true;
      }
    }

    /** The second half of a commit, once the candidate is in force. */
    method WriteProvisionally(faults: CommitFaults) returns (failed: bool)
      requires Valid() && Open() && adapter == Some(candidate) && managed.current == adapter && !managed.closed
      requires disk.files.marker == Some(EncodeMarker(previous)) && ReadSecret(disk.files.credential) == Ok(previous)
      modifies this, disk, managed
      ensures Valid() && managed.closed == old(managed.closed) && committed && unchanged(this`finalized, this`sealed, this`closed, this`previous, this`prior)
      ensures old(disk.past) <= disk.past && AllRecover(disk.past, |old(disk.past)|, Ok(previous))
      ensures !failed ==>
        && !rolledBack && disk.files == Files(Some(secret), Some(EncodeMarker(previous)))
        && managed.current == Some(candidate) && adapter == Some(candidate)
      ensures rolledBack ==> failed && managed.current == prior && disk.files.marker == None && ReadSecret(disk.files.credential) == Ok(previous)
      ensures failed <==> faults.endedExchanged || faults.endedWritten || faults.credential != Clean
      ensures managed.current == old(managed.current) || managed.current == prior
      ensures failed && Works(faults.rollback) ==> rolledBack
    {
      if faults.endedExchanged {
        var _ := RollbackLocked(faults.rollback);
        return true;
      }
      failed := disk.RestoreCredential(Some(secret), faults.credential);
      MarkerRoundTrip(previous);
      MarkedRecovers(disk.files, previous);
      if failed || faults.endedWritten {
        var _ := RollbackLocked(faults.rollback);
        return true;
      }
    }

    /** Undoes a commit. It goes through exactly when the provisional adapter is still in force and both file steps work. */
    method RollbackLocked(faults: RollbackFaults) returns (failed: bool)
      requires Sound()
      modifies this, disk, managed
      ensures Sound() && managed.closed == old(managed.closed) && unchanged(this`committed, this`finalized, this`previous, this`prior, this`sealed, this`closed)
      ensures old(disk.past) <= disk.past
      ensures old(Valid()) ==> Valid() && (committed ==> AllRecover(disk.past, |old(disk.past)|, Ok(previous)))
      ensures !failed <==> (|| old(finalized) || old(rolledBack)
                            || (faults.marker == Clean
                                && (committed ==> !managed.closed && old(managed.current) == old(adapter) && faults.credential == Clean)))
      ensures rolledBack <==> old(rolledBack) || (!failed && !finalized)
      ensures old(finalized) || old(rolledBack) ==> unchanged(disk, managed, this)
      ensures faults.marker == Before ==> disk.files.marker == old(disk.files.marker)
      ensures !committed ==> unchanged(managed) && disk.files.credential == old(disk.files.credential)
      ensures !committed ==> AllRecover(disk.past, |old(disk.past)|, ReadSecret(disk.files.credential))
      ensures old(Open()) ==>
        var refused := managed.closed || old(managed.current) != old(adapter);
        && disk.files == RolledBack(old(disk.files), previous, refused, faults)
        && managed.current == if refused then old(managed.current) else prior
      ensures committed && !failed && !finalized && !old(rolledBack) ==>
        managed.current == prior && disk.files.marker == None && ReadSecret(disk.files.credential) == Ok(previous)
    {
      if finalized || rolledBack {
        return false;
      }
      if committed {
        failed := UndoCommit(faults.credential);
        if old(Provisional(disk.files)) && faults.credential != Before {
          PutBackRecovers(disk.files, previous);
          PutBackRecovers(disk.files.(marker := None), previous);
        }
        if failed {
          return true;
        }
      }
      adapter := None;
      failed := disk.RemoveMarker(faults.marker);
      if failed {
        return true;
      }
      rolledBack := true;
    }

    /** The adapter goes back if the provisional one is still in force; the credential goes back in any case. */
    method UndoCommit(fault: Fault) returns (failed: bool)
      requires Sound() && Open()
      modifies this`adapter, disk, managed
      ensures Sound() && managed.closed == old(managed.closed)
      ensures failed <==> managed.closed || old(managed.current) != old(adapter) || fault != Clean
      ensures if managed.closed || old(managed.current) != old(adapter) then managed.current == old(managed.current) && adapter == old(adapter)
              else managed.current == prior && adapter == None
      ensures if fault == Before then disk.files == old(disk.files) && disk.past == old(disk.past)
              else disk.files == old(disk.files).(credential := previous) && disk.past == old(disk.past) + [disk.files]
      ensures fault != Before ==> ReadSecret(disk.files.credential) == Ok(previous)
    {
      failed := managed.Restore(adapter, prior);
      if !failed {
        adapter := None;
      }
      var notWritten := disk.RestoreCredential(previous, fault);
      if previous.Some? {
        ReadBack(previous.value);
      }
      return failed || notWritten;
    }

    /** Makes the replacement permanent by taking the marker away. */
    method Finalize(fault: Fault) returns (failed: bool)
      requires Valid()
      modifies this, disk
      ensures unchanged(this`committed, this`rolledBack, this`previous, this`closed)
      ensures failed <==> closed || !committed || rolledBack || (!old(finalized) && fault != Clean)
      ensures finalized <==> old(finalized) || !failed
      ensures failed ==> unchanged(this`adapter, this`prior)
      ensures if !closed && committed && !rolledBack && !old(finalized) && fault != Before
              then sealed && disk.files == old(disk.files).(marker := None) && disk.past == old(disk.past) + [disk.files]
              else disk.files == old(disk.files) && disk.past == old(disk.past) && sealed == old(sealed)
      ensures Valid()
    {
      if closed || !committed || rolledBack {
        return true;
      }
      if finalized {
        return false;
      }
      failed := disk.RemoveMarker(fault);
      if fault != Before {
        sealed := true;
      }
      if failed {
        return true;
      }
      finalized, adapter, prior := true, None, None;
    }

    /** Closing an unsettled commit rolls it back, in the steps that are left and whatever the files have become. */
    method Close(faults: RollbackFaults) returns (failed: bool)
      requires Sound()
      modifies this, disk, managed
      ensures Sound() && closed && managed.closed == old(managed.closed) && finalized == old(finalized) && committed == old(committed)
      ensures old(Left()).stage.Settled? ==> !failed && unchanged(disk, managed)
      ensures var after := AfterClose(World(old(disk.files), old(managed.current), managed.closed, map[0 := old(Left())]), 0, faults);
        disk.files == after.files && managed.current == after.current
      ensures old(Left()).stage.Restoring? ==>
        (failed <==> managed.closed || old(managed.current) != old(adapter) || !Works(faults))
      ensures old(disk.past) <= disk.past && previous == old(previous)
      ensures old(Valid()) ==> Valid() && AllRecover(disk.past, |old(disk.past)|, Ok(previous))
      ensures faults.marker == Before ==> disk.files.marker == old(disk.files.marker)
    {
      if closed {
        return false;
      }
      AfterCloseIs(World(disk.files, managed.current, managed.closed, map[0 := Undoing()]), 0, faults);
      closed := true;
      if Open() {
        failed := RollbackLocked(faults);
        return;
      }
      adapter := None;
      return false;
    }
  }

  /** The faults and interruptions of one whole replacement. */
  datatype ReplaceFaults = ReplaceFaults(
    commit: CommitFaults, endedLate: bool, rollback: RollbackFaults, finalize: Fault, close: RollbackFaults)

  /** A whole replacement, from preparation to close. Of all the states the files pass through, exactly the one in which
      finalization has just taken the marker away recovers to the new credential; every other one recovers to the credential
      there was. That state is reached if and only if the commit goes through, the context is still open and the removal
      takes effect, and it is the last one unless the removal reports a failure and the close undoes the commit. */
  method Replace(disk: Disk, managed: Managed, secret: string, candidate: Adapter, faults: ReplaceFaults)
    returns (failed: bool, ghost settled: nat)
    requires ValidSecret(secret) && disk.Tracked()
    modifies disk, managed
    ensures old(disk.past) <= disk.past && |old(disk.past)| <= settled <= |disk.past|
    ensures settled < |disk.past| <==>
      CommitGoes(old(disk.files), old(managed.closed), faults.commit) && !faults.endedLate && faults.finalize != Before
    ensures forall i :: |old(disk.past)| <= i < |disk.past| ==>
      Recovered(disk.past[i]) == if i == settled then Ok(Some(secret)) else old(ReadSecret(disk.files.credential))
    ensures settled < |disk.past| ==> disk.past[settled] == Files(Some(secret), None)
    ensures !failed <==> CommitGoes(old(disk.files), old(managed.closed), faults.commit) && !faults.endedLate && faults.finalize == Clean
    ensures !failed ==> settled == |disk.past| - 1 && disk.files == Files(Some(secret), None) && managed.current == Some(candidate)
  {
    var replacement := new Replacement(disk, managed, secret, candidate);
    failed := replacement.Commit(faults.commit);
    settled := |disk.past|;
    if failed || faults.endedLate {
      var _ := replacement.RollbackLocked(faults.rollback);
      var _ := replacement.Close(faults.close);
      return true, |disk.past|;
    }
    failed := replacement.Finalize(faults.finalize);
    ReadBack(secret);
    var _ := replacement.Close(faults.close);
    if faults.finalize == Before {
      settled := |disk.past|;
    }
  }
}
