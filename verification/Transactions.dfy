/** A write transaction as the source runs it: the tables and the loaded state row, changed
    in place one statement at a time (runtime/sql.go, runtime/events.go). */
module Transactions {
  import opened Wrappers
  import opened Store

  /** Drops every occurrence of a reason from the loaded list. */
  method RemoveReasonInPlace(reasons: seq<Reason>, reason: Reason) returns (kept: seq<Reason>)
    ensures kept == RemoveReason(reasons, reason)
  {
    kept := [];
    assert reasons[0..] == reasons;
    for i := 0 to |reasons|
      invariant kept + RemoveReason(reasons[i..], reason) == RemoveReason(reasons, reason)
    {
      RemoveNext(reasons, i, reason);
      if reasons[i] != reason {
        kept := kept + [reasons[i]];
      }
    }
  }

  lemma RemoveNext(reasons: seq<Reason>, i: nat, reason: Reason)
    requires i < |reasons|
    ensures RemoveReason(reasons[i..], reason) ==
      (if reasons[i] == reason then [] else [reasons[i]]) + RemoveReason(reasons[i + 1..], reason)
  {
    assert reasons[i..][1..] == reasons[i + 1..];
  }

  class Transaction {
    var db: Db
    var st: State

    /** BEGIN, followed by reading the state row. */
    constructor (store: Db)
      ensures Now() == Begin(store)
    {
      db, st := store, store.state;
    }

    /** The transaction as a value. */
    function Now(): Tx
      reads this
    {
      Tx(db, st)
    }

    method WriteRequest(id: Id, row: Request)
      modifies this
      ensures Now() == PutRequest(old(Now()), id, row)
    {
      db := db.(requests := Table(db.requests.rows[id := row]));
      db := db.(revisions := Table(Bump(db.revisions.rows, Some(row.dialog), 1)));
    }

    method WriteMessage(id: Id, row: Message)
      modifies this
      ensures Now() == PutMessage(old(Now()), id, row)
    {
      db := db.(messages := Table(db.messages.rows[id := row]));
    }

    method WriteAttempt(id: Id, row: Attempt)
      modifies this
      ensures Now() == PutAttempt(old(Now()), id, row)
    {
      db := db.(attempts := Table(db.attempts.rows[id := row]));
      db := db.(revisions := Table(Bump(db.revisions.rows, Some(row.dialog), 0)));
    }

    method WriteAction(id: Id, row: Action)
      modifies this
      ensures Now() == PutAction(old(Now()), id, row)
    {
      db := db.(actions := Table(db.actions.rows[id := row]));
      db := db.(revisions := Table(Bump(db.revisions.rows, DialogOf(db, row.attempt), 0)));
    }

    method WriteTool(id: Id, row: ToolCall)
      modifies this
      ensures Now() == PutTool(old(Now()), id, row)
    {
      db := db.(tools := Table(db.tools.rows[id := row]));
      db := db.(revisions := Table(Bump(db.revisions.rows, DialogOf(db, row.attempt), 0)));
    }

    method WriteApproval(id: Id, row: Prompt)
      modifies this
      ensures Now() == PutApproval(old(Now()), id, row)
    {
      db := db.(approvals := Table(db.approvals.rows[id := row]));
      db := db.(revisions := Table(Bump(db.revisions.rows, DialogOf(db, row.attempt), 0)));
    }

    method WriteInput(id: Id, row: Prompt)
      modifies this
      ensures Now() == PutInput(old(Now()), id, row)
    {
      db := db.(inputs := Table(db.inputs.rows[id := row]));
      db := db.(revisions := Table(Bump(db.revisions.rows, DialogOf(db, row.attempt), 0)));
    }

    method WriteLate(row: Late)
      modifies this
      ensures Now() == PutLate(old(Now()), row)
    {
      db := db.(late := db.late + [row]);
    }

    /** Increments the sequence in the loaded state and inserts the event under it. */
    method AppendEvent(kind: EventKind, dialog: Option<Id>)
      modifies this
      ensures Now() == Emit(old(Now()), kind, dialog)
    {
      st := st.(lastEventSeq := st.lastEventSeq + 1);
      db := db.(events := Table(db.events.rows[st.lastEventSeq := Event(st.lastEventSeq, kind, dialog)]));
      db := db.(revisions := Table(Bump(db.revisions.rows, dialog, 0)));
    }

    /** Writes the state row back; the pause trigger fires when the flag has changed. */
    method SaveState()
      modifies this
      ensures Now() == Save(old(Now()))
    {
      if db.state.paused != st.paused {
        db := db.(revisions := Table(BumpAll(db.revisions.rows)));
      }
      db := db.(state := st);
    }
  }
}
