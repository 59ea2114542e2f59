/** Bounded visits of the event log (runtime/replay.go). */
module Replay {
  import opened Store
  import opened Commands
  import opened Execution
  import opened Administration
  import opened Invariants
  import opened System
  import opened SystemKeeps
  import opened Theorems

  const WIRE_BYTES := 8 * 1024 * 1024
  const PAGE_LIMIT := 100

  datatype Replayed = BadCursor | CursorAhead | LogGap | NeedsSnapshot | Page(last: nat, events: seq<Event>)

  /** The event is about a dialog that has been deleted, and is not the deletion itself. */
  predicate OfDeletedDialog(db: Db, event: Event) {
    && !event.kind.DialogDeleted?
    && (|| (event.dialog.Some? && Deleted(db, event.dialog.value))
        || (event.kind.MessageMoved? && event.kind.message in db.messages.rows && Deleted(db, db.messages.rows[event.kind.message].dialog))
        || (event.kind.MessageAccepted? && Deleted(db, event.kind.into)))
  }

  /** The keys the log query returns: the first `limit` rows after the cursor, in order. */
  ghost predicate IsQuery(events: map<nat, Event>, after: nat, limit: nat, keys: seq<nat>) {
    && |keys| <= limit
    && (forall i :: 0 <= i < |keys| ==> keys[i] in events && keys[i] > after)
    && (forall i, j :: 0 <= i < j < |keys| ==> keys[i] < keys[j])
    && (forall k :: k in events && k > after && (|keys| < limit || (|keys| > 0 && k <= keys[|keys| - 1])) ==> k in keys)
  }

  function Bytes(sizes: seq<nat>): nat {
    if sizes == [] then 0 else Bytes(sizes[..|sizes| - 1]) + sizes[|sizes| - 1]
  }

  /** The events of `keys`, numbered on from the cursor. */
  ghost predicate IsWindow(db: Db, after: nat, keys: seq<nat>, window: seq<Event>) {
    && |window| <= |keys|
    && forall i :: 0 <= i < |window| ==>
         keys[i] in db.events.rows && window[i] == db.events.rows[keys[i]] && window[i].number == after + 1 + i
  }

  /** `keys` and `sizes` are what the store returns for the query; a row that cannot be taken ends the page. */
  method ReplayEvents(db: Db, after: int, limit: int, keys: seq<nat>, sizes: seq<nat>) returns (r: Replayed)
    requires after >= 0 && limit >= 1 ==> IsQuery(db.events.rows, after, limit, keys) && |sizes| == |keys|
    ensures r == BadCursor <==> after < 0 || limit < 1 || limit > PAGE_LIMIT
    ensures r == CursorAhead <==> r != BadCursor && after > db.state.lastEventSeq
    ensures r == LogGap ==> exists i :: 0 <= i < |keys| && db.events.rows[keys[i]].number != after + 1 + i
    ensures r.Page? ==>
      && r.last == db.state.lastEventSeq && IsWindow(db, after, keys, r.events) && Bytes(sizes[..|r.events|]) <= WIRE_BYTES - 1024
      && (|r.events| < |keys| ==> Bytes(sizes[..|r.events|]) + sizes[|r.events|] > WIRE_BYTES - 1024)
      && forall i :: 0 <= i < |r.events| ==> !OfDeletedDialog(db, r.events[i])
    ensures r == NeedsSnapshot ==> exists i :: 0 <= i < |keys| && OfDeletedDialog(db, db.events.rows[keys[i]])
  {
    if after < 0 || limit < 1 || limit > PAGE_LIMIT {
      return BadCursor;
    }
    if after > db.state.lastEventSeq {
      return CursorAhead;
    }
    var window: seq<Event> := [];
    var totalBytes, expected, next := 0, after + 1, 0;
    while next < |keys|
      invariant 0 <= next <= |keys| && expected == after + 1 + next
      invariant |window| == next && IsWindow(db, after, keys, window)
      invariant totalBytes == Bytes(sizes[..next]) <= WIRE_BYTES - 1024
    {
      var event := db.events.rows[keys[next]];
      if event.number != expected {
        return LogGap;
      }
      if totalBytes + sizes[next] > WIRE_BYTES - 1024 {
        break;
      }
      assert sizes[..next + 1][..next] == sizes[..next];
      window := window + [event];
      totalBytes := totalBytes + sizes[next];
      expected := expected + 1;
      next := next + 1;
    }
    var events: seq<Event> := [];
    for i := 0 to |window|
      invariant events == window[..i]
      invariant forall k :: 0 <= k < i ==> !OfDeletedDialog(db, window[k])
    {
      if OfDeletedDialog(db, window[i]) {
        return NeedsSnapshot;
      }
      events := events + [window[i]];
    }
    return Page(db.state.lastEventSeq, events);
  }

  // ---- on a store the node wrote -----------------------------------------------------------

  /** Over a gap-free log the query returns the next numbers without a hole. */
  lemma {:induction false} QueryIsContiguous(events: map<nat, Event>, last: nat, after: nat, limit: nat, keys: seq<nat>, i: nat)
    requires GapFree(events, last) && IsQuery(events, after, limit, keys) && i < |keys|
    ensures keys[i] == after + 1 + i && events[keys[i]].number == after + 1 + i
  {
    if i > 0 {
      QueryIsContiguous(events, last, after, limit, keys, i - 1);
    }
    var next := after + 1 + i;
    assert keys[i] in events && keys[i] >= next;
    assert next in keys;
    var j :| 0 <= j < |keys| && keys[j] == next;
    if j < i {
      QueryIsContiguous(events, last, after, limit, keys, j);
    }
  }

  /** The store never reports a gap, whatever the cursor. */
  lemma NoGapInRuns(run: seq<Sys>, steps: seq<Step>, t: nat, after: nat, limit: nat, keys: seq<nat>)
    requires IsRun(run, steps) && t < |run| && IsQuery(run[t].db.events.rows, after, limit, keys)
    ensures forall i :: 0 <= i < |keys| ==> keys[i] == after + 1 + i && run[t].db.events.rows[keys[i]].number == after + 1 + i
  {
    Reachable(run, steps, t);
    Have(Log, Begin(run[t].db));
    forall i | 0 <= i < |keys| ensures keys[i] == after + 1 + i && run[t].db.events.rows[keys[i]].number == after + 1 + i {
      QueryIsContiguous(run[t].db.events.rows, run[t].db.state.lastEventSeq, after, limit, keys, i);
    }
  }

  /** One successful read: when, with which query answer, and the page it gave. */
  datatype Read = Read(time: nat, limit: nat, keys: seq<nat>, page: seq<Event>)

  ghost predicate ReadAt(run: seq<Sys>, after: nat, read: Read) {
    && read.time < |run| && IsQuery(run[read.time].db.events.rows, after, read.limit, read.keys)
    && IsWindow(run[read.time].db, after, read.keys, read.page)
    && forall i :: 0 <= i < |read.page| ==> !OfDeletedDialog(run[read.time].db, read.page[i])
  }

  function Joined(visits: seq<Read>): seq<Event> {
    if visits == [] then [] else Joined(visits[..|visits| - 1]) + visits[|visits| - 1].page
  }

  /** A reader that follows the log, each read starting where the previous page ended. */
  ghost predicate Reading(run: seq<Sys>, start: nat, visits: seq<Read>) {
    visits != [] ==>
      var n := |visits| - 1;
      && Reading(run, start, visits[..n]) && ReadAt(run, start + |Joined(visits[..n])|, visits[n])
      && (n > 0 ==> visits[n - 1].time <= visits[n].time)
  }

  /** The log holds `event` at number `n`. */
  ghost predicate Logged(db: Db, n: nat, event: Event) {
    n in db.events.rows && db.events.rows[n] == event
  }

  /** The log holds the events of `page` from number `after + 1` on. */
  ghost predicate LoggedFrom(db: Db, after: nat, page: seq<Event>) {
    forall k :: 0 <= k < |page| ==> Logged(db, after + 1 + k, page[k])
  }

  lemma PageIsLog(run: seq<Sys>, steps: seq<Step>, after: nat, read: Read, t: nat)
    requires IsRun(run, steps) && read.time <= t < |run| && ReadAt(run, after, read)
    ensures LoggedFrom(run[t].db, after, read.page)
  {
    NoGapInRuns(run, steps, read.time, after, read.limit, read.keys);
    forall k | 0 <= k < |read.page| ensures Logged(run[t].db, after + 1 + k, read.page[k]) {
      assert read.keys[k] == after + 1 + k;
      LogOnlyGrows(run, steps, read.time, t, after + 1 + k);
    }
  }

  lemma JoinedLogged(db: Db, start: nat, before: seq<Event>, page: seq<Event>)
    requires LoggedFrom(db, start, before) && LoggedFrom(db, start + |before|, page)
    ensures LoggedFrom(db, start, before + page)
  {
    forall k | |before| <= k < |before + page| ensures Logged(db, start + 1 + k, (before + page)[k]) {
      assert Logged(db, start + |before| + 1 + (k - |before|), page[k - |before|]);
    }
  }

  lemma LastRead(run: seq<Sys>, start: nat, visits: seq<Read>, t: nat)
    requires Reading(run, start, visits) && visits != [] && Past(visits, t)
    ensures var n := |visits| - 1;
      && Reading(run, start, visits[..n]) && ReadAt(run, start + |Joined(visits[..n])|, visits[n])
      && Past(visits[..n], t) && visits[n].time <= t && Joined(visits) == Joined(visits[..n]) + visits[n].page
  {
  }

  ghost predicate Past(visits: seq<Read>, t: nat) {
    forall i :: 0 <= i < |visits| ==> visits[i].time <= t
  }

  lemma OneMorePage(run: seq<Sys>, steps: seq<Step>, start: nat, before: seq<Event>, visit: Read, t: nat)
    requires IsRun(run, steps) && visit.time <= t < |run| && ReadAt(run, start + |before|, visit)
    requires LoggedFrom(run[t].db, start, before)
    ensures LoggedFrom(run[t].db, start, before + visit.page)
  {
    PageIsLog(run, steps, start + |before|, visit, t);
    JoinedLogged(run[t].db, start, before, visit.page);
  }

  /** Pages read one after another, with any commits between them, join into the log from the cursor on:
      no gap, no repeat, no reordering. */
  lemma {:induction false} PagesJoinToTheLog(run: seq<Sys>, steps: seq<Step>, start: nat, visits: seq<Read>, t: nat)
    requires IsRun(run, steps) && t < |run| && Reading(run, start, visits) && Past(visits, t)
    ensures LoggedFrom(run[t].db, start, Joined(visits))
  {
    if visits != [] {
      var before, visit := Joined(visits[..|visits| - 1]), visits[|visits| - 1];
      LastRead(run, start, visits, t);
      assert LoggedFrom(run[t].db, start, before) by {
        PagesJoinToTheLog(run, steps, start, visits[..|visits| - 1], t);
      }
      OneMorePage(run, steps, start, before, visit, t);
    }
  }
}
