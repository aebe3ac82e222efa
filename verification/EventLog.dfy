/**
The runtime event table: idempotent append with one sequence per scope, the four
list queries, and the paged replay loop the stream handlers run over a fixed table.
*/
module EventLog {
  import opened Wrappers

  datatype Scope = Session | Team | Process | Worktree | System

  /** A stream key: the scope and the id inside it. */
  datatype Key = Key(scope: Scope, id: string)

  datatype NewEvent = NewEvent(
    eventId: string, key: Key, sessionId: Option<string>, kind: string, payload: string)

  datatype Row = Row(rowId: nat, seqNo: nat, event: NewEvent)

  datatype QueryError = LimitOverflow

  /** The largest LIMIT that fits the 64-bit column type. */
  const I64_MAX: nat := 0x7fff_ffff_ffff_ffff

  // ---- The table as a value ----

  /** The rows of one scope, in row order. */
  function Scoped(rows: seq<Row>, key: Key): seq<Row> {
    if rows == [] then []
    else
      var last := rows[|rows| - 1];
      Scoped(rows[..|rows| - 1], key) + if last.event.key == key then [last] else []
  }

  /** `MAX(seq)` over the rows of one scope, 0 when there are none. */
  function MaxSeq(rows: seq<Row>, key: Key): nat {
    if rows == [] then 0
    else
      var last := rows[|rows| - 1];
      var rest := MaxSeq(rows[..|rows| - 1], key);
      if last.event.key == key && last.seqNo > rest then last.seqNo else rest
  }

  function FindById(rows: seq<Row>, eventId: string): (r: Option<Row>)
    ensures r.Some? ==> r.value in rows && r.value.event.eventId == eventId
    ensures r.None? ==> forall row :: row in rows ==> row.event.eventId != eventId
  {
    if rows == [] then None
    else if rows[0].event.eventId == eventId then Some(rows[0])
    else FindById(rows[1..], eventId)
  }

  function Inserted(rows: seq<Row>, event: NewEvent): Row {
    Row(|rows| + 1, MaxSeq(rows, event.key) + 1, event)
  }

  /** The table after one append. */
  function Append(rows: seq<Row>, event: NewEvent): seq<Row> {
    if FindById(rows, event.eventId).Some? then rows else rows + [Inserted(rows, event)]
  }

  function AppendAll(rows: seq<Row>, events: seq<NewEvent>): seq<Row> {
    if events == [] then rows
    else Append(AppendAll(rows, events[..|events| - 1]), events[|events| - 1])
  }

  /**
  What the table's constraints and the append keep: each row got, when it was the newest, the
  next row id, the next seq of its scope, and an id no earlier row had.
  */
  ghost predicate WellFormed(rows: seq<Row>) {
    rows == [] ||
    var earlier, last := rows[..|rows| - 1], rows[|rows| - 1];
    && WellFormed(earlier)
    && last.rowId == |rows|
    && last.seqNo == |Scoped(earlier, last.event.key)| + 1
    && forall row :: row in earlier ==> row.event.eventId != last.event.eventId
  }

  ghost predicate UniqueIds(rows: seq<Row>) {
    forall i, j :: 0 <= i < j < |rows| ==> rows[i].event.eventId != rows[j].event.eventId
  }

  /** In a well-formed table ids are unique and row ids count from 1. */
  lemma {:induction false} WellFormedIds(rows: seq<Row>)
    requires WellFormed(rows)
    ensures UniqueIds(rows)
    ensures forall i :: 0 <= i < |rows| ==> rows[i].rowId == i + 1
  {
    if rows != [] {
      var earlier := rows[..|rows| - 1];
      WellFormedIds(earlier);
      assert forall i :: 0 <= i < |earlier| ==> rows[i] == earlier[i] && rows[i] in earlier;
    }
  }

  /** `MAX(seq)` is the number of rows of the scope. */
  lemma {:induction false} MaxSeqCounts(rows: seq<Row>, key: Key)
    requires WellFormed(rows)
    ensures MaxSeq(rows, key) == |Scoped(rows, key)|
  {
    if rows != [] {
      MaxSeqCounts(rows[..|rows| - 1], key);
    }
  }

  lemma AppendKeeps(rows: seq<Row>, event: NewEvent)
    requires WellFormed(rows)
    ensures WellFormed(Append(rows, event))
  {
    MaxSeqCounts(rows, event.key);
    assert (rows + [Inserted(rows, event)])[..|rows|] == rows;
  }

  /** The rows of a scope carry exactly the sequence numbers 1, 2, ..., n, in row order. */
  lemma {:induction false} ScopedSeqs(rows: seq<Row>, key: Key, k: nat)
    requires WellFormed(rows) && k < |Scoped(rows, key)|
    ensures Scoped(rows, key)[k].seqNo == k + 1
    ensures Scoped(rows, key)[k].event.key == key
  {
    if k < |Scoped(rows[..|rows| - 1], key)| {
      ScopedSeqs(rows[..|rows| - 1], key, k);
    }
  }

  // ---- Append refines a list without repeats ----

  /** The events in arrival order, each id kept only the first time it is seen. */
  function FirstOccurrences(events: seq<NewEvent>): seq<NewEvent> {
    if events == [] then []
    else
      var earlier := events[..|events| - 1];
      var last := events[|events| - 1];
      FirstOccurrences(earlier)
      + if exists e :: e in earlier && e.eventId == last.eventId then [] else [last]
  }

  function EventsOf(rows: seq<Row>): (r: seq<NewEvent>)
    ensures |r| == |rows| && forall i :: 0 <= i < |rows| ==> r[i] == rows[i].event
  {
    seq(|rows|, i requires 0 <= i < |rows| => rows[i].event)
  }

  lemma {:induction false} FirstOccurrencesIds(events: seq<NewEvent>, id: string)
    ensures (exists e :: e in events && e.eventId == id)
       <==> (exists e :: e in FirstOccurrences(events) && e.eventId == id)
  {
    if events != [] {
      var earlier := events[..|events| - 1];
      var last := events[|events| - 1];
      FirstOccurrencesIds(earlier, id);
      FirstOccurrencesIds(earlier, last.eventId);
      assert events == earlier + [last];
    }
  }

  /** For any appends from the empty table, repeats included, the table is the list of first occurrences. */
  lemma {:induction false} AppendRefinesList(events: seq<NewEvent>)
    ensures WellFormed(AppendAll([], events))
    ensures EventsOf(AppendAll([], events)) == FirstOccurrences(events)
  {
    if events != [] {
      var earlier := events[..|events| - 1];
      var last := events[|events| - 1];
      AppendRefinesList(earlier);
      AppendKeeps(AppendAll([], earlier), last);
      FirstOccurrencesIds(earlier, last.eventId);
      AppendIsSnoc(AppendAll([], earlier), last);
    }
  }

  lemma AppendIsSnoc(rows: seq<Row>, event: NewEvent)
    ensures EventsOf(Append(rows, event))
         == EventsOf(rows) + if exists e :: e in EventsOf(rows) && e.eventId == event.eventId then [] else [event]
  {
    var found := FindById(rows, event.eventId);
    if found.Some? {
      var i :| 0 <= i < |rows| && rows[i] == found.value;
      assert EventsOf(rows)[i].eventId == event.eventId;
    } else {
      assert forall e :: e in EventsOf(rows) ==> exists i :: 0 <= i < |rows| && rows[i].event == e;
    }
  }

  lemma FindUnique(rows: seq<Row>, row: Row)
    requires WellFormed(rows) && row in rows
    ensures FindById(rows, row.event.eventId) == Some(row)
  {
    WellFormedIds(rows);
    var found := FindById(rows, row.event.eventId);
    assert found.Some?;
    var i :| 0 <= i < |rows| && rows[i] == row;
    var j :| 0 <= j < |rows| && rows[j] == found.value;
  }

  /** Appending an id that is already stored changes nothing and yields the stored row, however much later. */
  lemma {:induction false} RepeatYieldsStoredRow(rows: seq<Row>, first: NewEvent, between: seq<NewEvent>, again: NewEvent)
    requires WellFormed(rows) && again.eventId == first.eventId
    ensures
      var stored := FindById(Append(rows, first), first.eventId);
      var later := AppendAll(Append(rows, first), between);
      && stored.Some?
      && Append(later, again) == later
      && FindById(later, again.eventId) == stored
  {
    AppendKeeps(rows, first);
    var start := Append(rows, first);
    if FindById(rows, first.eventId).None? {
      assert start[|start| - 1].event == first;
    }
    var stored := FindById(start, first.eventId).value;
    AppendAllExtends(start, between);
    assert stored in AppendAll(start, between);
    FindUnique(AppendAll(start, between), stored);
  }

  lemma {:induction false} AppendAllExtends(rows: seq<Row>, events: seq<NewEvent>)
    requires WellFormed(rows)
    ensures rows <= AppendAll(rows, events) && WellFormed(AppendAll(rows, events))
  {
    if events != [] {
      AppendAllExtends(rows, events[..|events| - 1]);
      AppendKeeps(AppendAll(rows, events[..|events| - 1]), events[|events| - 1]);
    }
  }

  // ---- Queries ----

  /** The column a query orders and pages by: the scope's seq, or the row id for the global log. */
  function Position(row: Row, scope: Option<Key>): nat {
    if scope.Some? then row.seqNo else row.rowId
  }

  predicate InScope(row: Row, scope: Option<Key>) {
    scope.None? || row.event.key == scope.value
  }

  predicate Matches(row: Row, scope: Option<Key>, after: Option<int>) {
    InScope(row, scope) && (after.Some? ==> Position(row, scope) > after.value)
  }

  /** All rows a query selects, in row order. */
  function Filter(rows: seq<Row>, scope: Option<Key>, after: Option<int>): seq<Row> {
    if rows == [] then []
    else
      var last := rows[|rows| - 1];
      Filter(rows[..|rows| - 1], scope, after) + if Matches(last, scope, after) then [last] else []
  }

  function Take(rows: seq<Row>, limit: nat): seq<Row> {
    if |rows| <= limit then rows else rows[..limit]
  }

  function Query(rows: seq<Row>, scope: Option<Key>, after: Option<int>, limit: nat): seq<Row> {
    Take(Filter(rows, scope, after), limit)
  }

  lemma {:induction false} FilterMembers(rows: seq<Row>, scope: Option<Key>, after: Option<int>, row: Row)
    ensures row in Filter(rows, scope, after) <==> row in rows && Matches(row, scope, after)
  {
    if rows != [] {
      FilterMembers(rows[..|rows| - 1], scope, after, row);
      assert rows == rows[..|rows| - 1] + [rows[|rows| - 1]];
    }
  }

  lemma FilterSnoc(rows: seq<Row>, last: Row, scope: Option<Key>, after: Option<int>)
    ensures Filter(rows + [last], scope, after)
         == Filter(rows, scope, after) + if Matches(last, scope, after) then [last] else []
  {
    assert (rows + [last])[..|rows|] == rows;
  }

  /** Rows of one scope are in ascending position, and positions start at 1. */
  ghost predicate Ordered(rows: seq<Row>, scope: Option<Key>) {
    && (forall i :: 0 <= i < |rows| ==> Position(rows[i], scope) >= 1)
    && (forall i, j :: 0 <= i < j < |rows| && InScope(rows[i], scope) && InScope(rows[j], scope) ==>
          Position(rows[i], scope) < Position(rows[j], scope))
  }

  lemma {:induction false} SeqBounded(rows: seq<Row>, row: Row)
    requires WellFormed(rows) && row in rows
    ensures 1 <= row.seqNo <= |Scoped(rows, row.event.key)|
  {
    if row in rows[..|rows| - 1] {
      SeqBounded(rows[..|rows| - 1], row);
    }
  }

  lemma {:induction false} WellFormedIsOrdered(rows: seq<Row>, scope: Option<Key>)
    requires WellFormed(rows)
    ensures Ordered(rows, scope)
  {
    if rows != [] {
      var earlier := rows[..|rows| - 1];
      WellFormedIsOrdered(earlier, scope);
      WellFormedIds(rows);
      forall i | 0 <= i < |earlier| && scope.Some? && InScope(rows[i], scope)
        ensures rows[i].seqNo <= |Scoped(earlier, scope.value)|
      {
        SeqBounded(earlier, earlier[i]);
      }
      assert forall i :: 0 <= i < |earlier| ==> rows[i] == earlier[i];
    }
  }

  ghost predicate Ascending(rows: seq<Row>, scope: Option<Key>) {
    forall i, j :: 0 <= i < j < |rows| ==> Position(rows[i], scope) < Position(rows[j], scope)
  }

  /** Row order is the ORDER BY of each query: what a query selects is strictly ascending. */
  lemma {:induction false} FilterAscends(rows: seq<Row>, scope: Option<Key>, after: Option<int>)
    requires Ordered(rows, scope)
    ensures Ascending(Filter(rows, scope, after), scope)
  {
    if rows != [] {
      var short := rows[..|rows| - 1];
      FilterAscends(short, scope, after);
      var got := Filter(short, scope, after);
      forall i | 0 <= i < |got| && Matches(rows[|rows| - 1], scope, after)
        ensures Position(got[i], scope) < Position(rows[|rows| - 1], scope)
      {
        FilterMembers(short, scope, after, got[i]);
      }
    }
  }

  lemma {:induction false} NoneAbove(rows: seq<Row>, scope: Option<Key>, bound: int)
    requires forall row :: row in rows && InScope(row, scope) ==> Position(row, scope) <= bound
    ensures Filter(rows, scope, Some(bound)) == []
  {
    if rows != [] {
      NoneAbove(rows[..|rows| - 1], scope, bound);
    }
  }

  lemma LastIsAbove(rows: seq<Row>, scope: Option<Key>, bound: int)
    requires Ordered(rows, scope) && |rows| > 0 && InScope(rows[|rows| - 1], scope)
    requires bound >= Position(rows[|rows| - 1], scope)
    ensures Filter(rows, scope, Some(bound)) == []
  {
    NoneAbove(rows, scope, bound);
  }

  /** Restarting a query from the position of its k-th row yields what follows that row. */
  lemma {:induction false} Restart(rows: seq<Row>, scope: Option<Key>, after: Option<int>, k: nat)
    requires Ordered(rows, scope) && 1 <= k <= |Filter(rows, scope, after)|
    ensures
      var all := Filter(rows, scope, after);
      Filter(rows, scope, Some(Position(all[k - 1], scope))) == all[k..]
  {
    var short := rows[..|rows| - 1];
    var last := rows[|rows| - 1];
    var rest := Filter(short, scope, after);
    if k <= |rest| {
      FilterMembers(short, scope, after, rest[k - 1]);
      Restart(short, scope, after, k);
      var p := Position(rest[k - 1], scope);
      assert Filter(short, scope, Some(p)) == rest[k..];
    } else {
      LastIsAbove(rows, scope, Position(last, scope));
    }
  }

  /** Every position is at least 1, so an absent cursor and the cursor 0 select the same rows. */
  lemma {:induction false} AbsentCursorIsZero(rows: seq<Row>, scope: Option<Key>)
    requires Ordered(rows, scope)
    ensures Filter(rows, scope, None) == Filter(rows, scope, Some(0))
  {
    if rows != [] {
      AbsentCursorIsZero(rows[..|rows| - 1], scope);
    }
  }

  // ---- The store ----

  class EventStore {
    var rows: seq<Row>

    constructor ()
      ensures rows == [] && WellFormed(rows)
    {
      rows := [];
    }

    method FetchByEventId(eventId: string) returns (found: Option<Row>)
      ensures found == FindById(rows, eventId)
    {
      var i := 0;
      found := None;
      while i < |rows|
        invariant 0 <= i <= |rows|
        invariant FindById(rows, eventId) == FindById(rows[i..], eventId)
      {
        if rows[i].event.eventId == eventId {
          return Some(rows[i]);
        }
        i := i + 1;
      }
    }

    method NextSeq(key: Key) returns (number: nat)
      requires WellFormed(rows)
      ensures number == |Scoped(rows, key)| + 1
    {
      var i, largest := 0, 0;
      while i < |rows|
        invariant 0 <= i <= |rows|
        invariant largest == MaxSeq(rows[..i], key)
      {
        assert rows[..i + 1][..i] == rows[..i];
        if rows[i].event.key == key && rows[i].seqNo > largest {
          largest := rows[i].seqNo;
        }
        i := i + 1;
      }
      assert rows[..i] == rows;
      MaxSeqCounts(rows, key);
      number := largest + 1;
    }

    /** One immediate transaction: look the id up, otherwise number and insert the row. */
    method AppendRuntimeEvent(event: NewEvent) returns (record: Row)
      requires WellFormed(rows)
      modifies this
      ensures WellFormed(rows) && rows == Append(old(rows), event)
      ensures FindById(rows, event.eventId) == Some(record)
      ensures record !in old(rows) ==>
        record.event == event && record.seqNo == |Scoped(old(rows), event.key)| + 1
    {
      var existing := FetchByEventId(event.eventId);
      if existing.Some? {
        return existing.value;
      }
      var next := NextSeq(event.key);
      record := Row(|rows| + 1, next, event);
      MaxSeqCounts(rows, event.key);
      AppendKeeps(rows, event);
      rows := rows + [record];
      FindUnique(rows, record);
    }

    /** The list query: rows of the scope (or all rows) beyond the cursor, ascending, at most `limit`. */
    method ListRuntimeEvents(scope: Option<Key>, after: Option<int>, limit: nat)
        returns (page: Result<seq<Row>, QueryError>)
      ensures page == if limit > I64_MAX then Err(LimitOverflow) else Ok(Query(rows, scope, after, limit))
    {
      if limit > I64_MAX {
        return Err(LimitOverflow);
      }
      var i, got := 0, [];
      while i < |rows| && |got| < limit
        invariant 0 <= i <= |rows| && |got| <= limit
        invariant got == Filter(rows[..i], scope, after)
      {
        assert rows[..i + 1][..i] == rows[..i];
        if Matches(rows[i], scope, after) {
          got := got + [rows[i]];
        }
        i := i + 1;
      }
      FilterPrefix(rows, i, scope, after);
      assert rows[..|rows|] == rows;
      assert got == Query(rows, scope, after, limit);
      page := Ok(got);
    }

    /**
    The replay loop of the stream handlers over a table nobody appends to meanwhile. `limit` is
    the clamped page size.
    */
    method Replay(scope: Option<Key>, cursor: Option<int>, limit: nat)
        returns (events: seq<Row>, replayCursor: Option<int>)
      requires Ordered(rows, scope) && 1 <= limit <= 10_000
      ensures events == Filter(rows, scope, cursor)
      ensures replayCursor == if events == [] then cursor else Some(Position(events[|events| - 1], scope))
    {
      hide Filter, Ordered, Query, Position;
      events, replayCursor := [], cursor;
      ghost var all := Filter(rows, scope, cursor);
      while true
        invariant events <= all
        invariant replayCursor == if events == [] then cursor else Some(Position(events[|events| - 1], scope))
        invariant Filter(rows, scope, replayCursor) == all[|events|..]
        decreases |all| - |events|
      {
        NextPage(rows, scope, cursor, events, replayCursor, limit);
        var listed := ListRuntimeEvents(scope, replayCursor, limit);
        var page := listed.value;
        if page == [] {
          break;
        }
        replayCursor := Some(Position(page[|page| - 1], scope));
        events := events + page;
        if |page| < limit {
          break;
        }
      }
    }
  }

  /** A page read at the place reached goes on from there, and an empty or short one is the last. */
  lemma NextPage(rows: seq<Row>, scope: Option<Key>, cursor: Option<int>, events: seq<Row>, at: Option<int>, limit: nat)
    requires Ordered(rows, scope) && limit >= 1 && events <= Filter(rows, scope, cursor)
    requires Filter(rows, scope, at) == Filter(rows, scope, cursor)[|events|..]
    ensures
      var all, page := Filter(rows, scope, cursor), Query(rows, scope, at, limit);
      && events + page <= all
      && (|page| < limit ==> events + page == all)
      && (page != [] ==>
            && (events + page)[|events + page| - 1] == page[|page| - 1]
            && Filter(rows, scope, Some(Position(page[|page| - 1], scope))) == all[|events + page|..])
  {
    var all, page := Filter(rows, scope, cursor), Query(rows, scope, at, limit);
    hide Filter, Ordered, Position;
    Onward(all, events, page);
    if page != [] {
      assert all[|events + page| - 1] == page[|page| - 1];
      Restart(rows, scope, cursor, |events + page|);
    }
  }

  /** More rows of a list, after the first ones. */
  lemma Onward(all: seq<Row>, taken: seq<Row>, page: seq<Row>)
    requires taken <= all && page <= all[|taken|..]
    ensures taken + page <= all && taken + page == all[..|taken + page|]
    ensures page != [] ==> (taken + page)[|taken + page| - 1] == page[|page| - 1]
  {
    assert all == taken + all[|taken|..];
  }

  lemma {:induction false} FilterPrefix(rows: seq<Row>, n: nat, scope: Option<Key>, after: Option<int>)
    requires n <= |rows|
    ensures Filter(rows[..n], scope, after) <= Filter(rows, scope, after)
  {
    if n == |rows| {
      assert rows[..n] == rows;
    } else {
      var short := rows[..|rows| - 1];
      assert short[..n] == rows[..n];
      FilterPrefix(short, n, scope, after);
    }
  }
}
