/** Listing a project's tasks page by page. */
module Pagination {
  import opened Prelude
  import opened TaskModel

  const INT32_LIMIT: int := 0x8000_0000

  /** Conversion of a 64-bit number to 32 bits. */
  function ToInt32(n: int): (r: int)
    ensures -INT32_LIMIT <= r < INT32_LIMIT
    ensures 0 <= n ==> (r == n <==> n < INT32_LIMIT)
  {
    (n + INT32_LIMIT) % (2 * INT32_LIMIT) - INT32_LIMIT
  }

  /** Absent conditions match everything. */
  datatype Filter = Filter(status: Option<Status>, assignedTo: string, priority: string)

  predicate Matches(t: Task, companyID: string, projectID: string, f: Filter)
  {
    && t.companyID == companyID && t.projectID == projectID
    && (f.status.Some? ==> t.status == f.status.value)
    && (f.assignedTo != "" ==> t.assignedTo == Some(f.assignedTo))
    && (f.priority != "" ==> t.details.priority == f.priority)
  }

  function Select(rows: seq<Task>, q: Task -> bool): seq<Task>
  {
    if rows == [] then [] else Select(rows[..|rows| - 1], q) + if q(rows[|rows| - 1]) then [rows[|rows| - 1]] else []
  }

  lemma {:induction false} SelectDependsOnValues(rows: seq<Task>, p: Task -> bool, q: Task -> bool)
    requires forall t :: p(t) == q(t)
    ensures Select(rows, p) == Select(rows, q)
  {
    if rows != [] { SelectDependsOnValues(rows[..|rows| - 1], p, q); }
  }

  /** The rows of the query, in the table's order. */
  function Matching(rows: seq<Task>, companyID: string, projectID: string, f: Filter): seq<Task>
  {
    Select(rows, t => Matches(t, companyID, projectID, f))
  }

  /** The positions of the rows that q holds of, in order. */
  function Positions(rows: seq<Task>, q: Task -> bool): (at: seq<nat>)
    ensures forall k | 0 <= k < |at| :: at[k] < |rows| && q(rows[at[k]])
    ensures forall j, k | 0 <= j < k < |at| :: at[j] < at[k]
  {
    if rows == [] then []
    else
      Positions(rows[..|rows| - 1], q) + if q(rows[|rows| - 1]) then [|rows| - 1] else []
  }

  lemma {:induction false} EveryPositionIsThere(rows: seq<Task>, q: Task -> bool, j: nat)
    requires j < |rows| && q(rows[j])
    ensures j in Positions(rows, q)
  {
    if j < |rows| - 1 { EveryPositionIsThere(rows[..|rows| - 1], q, j); }
  }

  /** The rows at the given positions. */
  function Picked(rows: seq<Task>, at: seq<nat>): seq<Task>
    requires forall k | 0 <= k < |at| :: at[k] < |rows|
  {
    seq(|at|, k requires 0 <= k < |at| => rows[at[k]])
  }

  lemma {:induction false} SelectPicks(rows: seq<Task>, q: Task -> bool)
    ensures Select(rows, q) == Picked(rows, Positions(rows, q))
  {
    if rows != [] {
      var before := rows[..|rows| - 1];
      SelectPicks(before, q);
      assert Picked(rows, Positions(before, q)) == Picked(before, Positions(before, q));
    }
  }

  /** The positions are those of all rows with the given company, project, status, assignee and priority, as far as they
      are given, in the table's order. */
  ghost predicate AreAllRowsAskedFor(at: seq<nat>, rows: seq<Task>, companyID: string, projectID: string, f: Filter)
  {
    && (forall j, k | 0 <= j < k < |at| :: at[j] < at[k])
    && (forall k | 0 <= k < |at| :: at[k] < |rows|)
    && (forall j | 0 <= j < |rows| ::
          j in at <==>
          && rows[j].companyID == companyID && rows[j].projectID == projectID
          && (f.status.Some? ==> rows[j].status == f.status.value)
          && (f.assignedTo != "" ==> rows[j].assignedTo == Some(f.assignedTo))
          && (f.priority != "" ==> rows[j].details.priority == f.priority))
  }

  lemma MatchingIsWhatWasAskedFor(rows: seq<Task>, companyID: string, projectID: string, f: Filter)
    returns (at: seq<nat>)
    ensures AreAllRowsAskedFor(at, rows, companyID, projectID, f)
    ensures Matching(rows, companyID, projectID, f) == Picked(rows, at)
  {
    var q := t => Matches(t, companyID, projectID, f);
    at := Positions(rows, q);
    SelectPicks(rows, q);
    SelectDependsOnValues(rows, q, t => Matches(t, companyID, projectID, f));
    forall j | 0 <= j < |rows|
      ensures j in at <==> q(rows[j])
    {
      if q(rows[j]) { EveryPositionIsThere(rows, q, j); }
    }
  }

  function Min(a: int, b: int): int { if a < b then a else b }

  /** Offset and limit. */
  function Slice<T>(s: seq<T>, offset: nat, limit: nat): seq<T>
  {
    s[Min(offset, |s|)..Min(offset + limit, |s|)]
  }

  /** Page numbers start at 1. */
  function Page<T>(s: seq<T>, page: nat, size: nat): seq<T>
    requires page >= 1
  {
    Slice(s, (page - 1) * size, size)
  }

  /** The first pages, one after the other. */
  function Pages<T>(s: seq<T>, count: nat, size: nat): seq<T>
  {
    if count == 0 then [] else Pages(s, count - 1, size) + Page(s, count, size)
  }

  lemma {:induction false} PagesArePrefixes<T>(s: seq<T>, count: nat, size: nat)
    ensures Pages(s, count, size) == s[..Min(count * size, |s|)]
  {
    if count > 0 {
      PagesArePrefixes(s, count - 1, size);
      OneMorePage(count, size);
      var from, to := Min((count - 1) * size, |s|), Min(count * size, |s|);
      assert s[..from] + s[from..to] == s[..to];
    }
  }

  lemma OneMorePage(count: nat, size: nat)
    requires count > 0
    ensures count * size == (count - 1) * size + size && 0 <= (count - 1) * size
  {
  }

  /** Enough pages to hold n rows. */
  function PageCount(n: nat, size: nat): nat
    requires size > 0
  {
    (n + size - 1) / size
  }

  lemma PageCountIsEnough(n: nat, size: nat)
    requires size > 0
    ensures n <= PageCount(n, size) * size
  {
    var q := (n + size - 1) / size;
    assert q * size == n + size - 1 - (n + size - 1) % size;
  }

  lemma {:induction false} MorePagesHoldMore(a: nat, b: nat, size: nat)
    requires a <= b
    ensures a * size <= b * size
  {
    if a < b {
      MorePagesHoldMore(a, b - 1, size);
      OneMorePage(b, size);
    }
  }

  lemma NoRowBeyond<T>(s: seq<T>, page: nat, size: nat)
    requires size > 0 && page > PageCount(|s|, size)
    ensures Page(s, page, size) == []
  {
    PageCountIsEnough(|s|, size);
    MorePagesHoldMore(PageCount(|s|, size), page - 1, size);
  }

  lemma AllRowsWithin<T>(s: seq<T>, size: nat)
    requires size > 0
    ensures Pages(s, PageCount(|s|, size), size) == s
  {
    PagesArePrefixes(s, PageCount(|s|, size), size);
    PageCountIsEnough(|s|, size);
    assert s[..|s|] == s;
  }

  function NormalizePage(page: int, pageSize: int): (r: (int, int))
    ensures r.0 >= 1 && 1 <= r.1 <= 100
    ensures page >= 1 ==> r.0 == page
    ensures page < 1 ==> r.0 == 1
    ensures 1 <= pageSize <= 100 ==> r.1 == pageSize
    ensures pageSize < 1 || pageSize > 100 ==> r.1 == 20
  {
    (if page < 1 then 1 else page, if pageSize < 1 || pageSize > 100 then 20 else pageSize)
  }

  datatype Listing = Listing(tasks: seq<Task>, total: int, page: int, pageSize: int)

  /** What a client gets for a request. */
  function Listed(matching: seq<Task>, page: int, pageSize: int): Listing
  {
    var (p, size) := NormalizePage(page, pageSize);
    Listing(Page(matching, p, size), ToInt32(|matching|), ToInt32(p), ToInt32(size))
  }

  /** The first pages a client gets, asking for the given size each time. */
  function Collected(matching: seq<Task>, count: nat, pageSize: int): seq<Task>
  {
    if count == 0 then [] else Collected(matching, count - 1, pageSize) + Listed(matching, count, pageSize).tasks
  }

  lemma {:induction false} CollectedArePages(matching: seq<Task>, count: nat, pageSize: int)
    ensures Collected(matching, count, pageSize) == Pages(matching, count, NormalizePage(1, pageSize).1)
  {
    if count > 0 { CollectedArePages(matching, count - 1, pageSize); }
  }

  /** Whatever page size is asked for: the pages up to the last one, one after the other, are the whole list, each row
      once; and every page after that is empty. */
  lemma PagesMakeUpTheList(matching: seq<Task>, pageSize: int)
    ensures var size := NormalizePage(1, pageSize).1;
            && Collected(matching, PageCount(|matching|, size), pageSize) == matching
            && forall page: nat | page > PageCount(|matching|, size) :: Listed(matching, page, pageSize).tasks == []
  {
    var size := NormalizePage(1, pageSize).1;
    var last := PageCount(|matching|, size);
    CollectedArePages(matching, last, pageSize);
    AllRowsWithin(matching, size);
    forall page: nat | page > last
      ensures Listed(matching, page, pageSize).tasks == []
    {
      NoRowBeyond(matching, page, size);
    }
  }

  /** So all pages together are the rows asked for, each once and in the table's order. */
  lemma AllPagesAreTheRowsAskedFor(rows: seq<Task>, companyID: string, projectID: string, f: Filter, pageSize: int)
    returns (at: seq<nat>)
    ensures AreAllRowsAskedFor(at, rows, companyID, projectID, f)
    ensures var size := NormalizePage(1, pageSize).1;
            Collected(Matching(rows, companyID, projectID, f), PageCount(|at|, size), pageSize) == Picked(rows, at)
  {
    at := MatchingIsWhatWasAskedFor(rows, companyID, projectID, f);
    PagesMakeUpTheList(Matching(rows, companyID, projectID, f), pageSize);
  }

  /** The tasks are the rows at the given positions that fall on the page. */
  ghost predicate OnThePage(tasks: seq<Task>, rows: seq<Task>, at: seq<nat>, page: int, size: int)
    requires page >= 1 && size >= 1 && forall k | 0 <= k < |at| :: at[k] < |rows|
  {
    var offset := (page - 1) * size;
    && |tasks| == (if offset >= |at| then 0 else if |at| - offset < size then |at| - offset else size)
    && forall i | 0 <= i < |tasks| :: tasks[i] == rows[at[offset + i]]
  }

  lemma PageIsOnThePage(rows: seq<Task>, at: seq<nat>, page: int, size: int)
    requires page >= 1 && size >= 1 && forall k | 0 <= k < |at| :: at[k] < |rows|
    ensures OnThePage(Page(Picked(rows, at), page, size), rows, at, page, size)
  {
    OneMorePage(page, size);
  }

  lemma PagesAreAskedFor(tasks: seq<Task>, rows: seq<Task>, at: seq<nat>, page: int, size: int, companyID: string,
                         projectID: string, f: Filter)
    requires page >= 1 && size >= 1 && AreAllRowsAskedFor(at, rows, companyID, projectID, f)
    requires OnThePage(tasks, rows, at, page, size)
    ensures forall t | t in tasks :: Matches(t, companyID, projectID, f)
  {
    OneMorePage(page, size);
    forall i | 0 <= i < |tasks| ensures Matches(tasks[i], companyID, projectID, f) {
      assert at[(page - 1) * size + i] in at;
    }
  }

  /** The tasks table in the order in which it is listed: latest first, ties in some fixed order. */
  class TaskTable {
    var rows: seq<Task>

    constructor (rows: seq<Task>)
      ensures this.rows == rows
    {
      this.rows := rows;
    }

    /** Builds up the query condition by condition, counts its rows, and reads one page of them. */
    method ListByProject(companyID: string, projectID: string, filter: Filter, page: int, pageSize: int)
      returns (tasks: seq<Task>, total: int, ghost at: seq<nat>)
      requires page >= 1 && pageSize >= 1
      ensures AreAllRowsAskedFor(at, rows, companyID, projectID, filter)
      ensures total == |at| && OnThePage(tasks, rows, at, page, pageSize)
      ensures forall t | t in tasks ::
                && t.companyID == companyID && t.projectID == projectID
                && (filter.status.Some? ==> t.status == filter.status.value)
                && (filter.assignedTo != "" ==> t.assignedTo == Some(filter.assignedTo))
                && (filter.priority != "" ==> t.details.priority == filter.priority)
      ensures tasks == Page(Matching(rows, companyID, projectID, filter), page, pageSize)
      ensures total == |Matching(rows, companyID, projectID, filter)|
    {
      var q := (t: Task) => t.companyID == companyID && t.projectID == projectID;
      if filter.status.Some? {
        var prior := q;
        q := t => prior(t) && t.status == filter.status.value;
      }
      if filter.assignedTo != "" {
        var prior := q;
        q := t => prior(t) && t.assignedTo == Some(filter.assignedTo);
      }
      if filter.priority != "" {
        var prior := q;
        q := t => prior(t) && t.details.priority == filter.priority;
      }
      SelectDependsOnValues(rows, q, t => Matches(t, companyID, projectID, filter));

      var matching := Select(rows, q);
      total := |matching|;
      var offset := (page - 1) * pageSize;
      tasks := Slice(matching, offset, pageSize);
      at := MatchingIsWhatWasAskedFor(rows, companyID, projectID, filter);
      PageIsOnThePage(rows, at, page, pageSize);
      PagesAreAskedFor(tasks, rows, at, page, pageSize, companyID, projectID, filter);
    }

    /** The controller: normalise the page, read it, and copy its rows into the answer. */
    method ListTasks(companyID: string, projectID: string, filter: Filter, page: int, pageSize: int)
      returns (answer: Listing, ghost at: seq<nat>)
      ensures AreAllRowsAskedFor(at, rows, companyID, projectID, filter)
      ensures var p := if page < 1 then 1 else page;
              var size := if pageSize < 1 || pageSize > 100 then 20 else pageSize;
              && OnThePage(answer.tasks, rows, at, p, size)
              && answer.pageSize == size && (p < 0x8000_0000 ==> answer.page == p)
      ensures |at| < 0x8000_0000 ==> answer.total == |at|
      ensures forall t | t in answer.tasks ::
                && t.companyID == companyID && t.projectID == projectID
                && (filter.status.Some? ==> t.status == filter.status.value)
                && (filter.assignedTo != "" ==> t.assignedTo == Some(filter.assignedTo))
                && (filter.priority != "" ==> t.details.priority == filter.priority)
      ensures answer == Listed(Matching(rows, companyID, projectID, filter), page, pageSize)
    {
      var normal := NormalizePage(page, pageSize);
      var tasks, total;
      tasks, total, at := ListByProject(companyID, projectID, filter, normal.0, normal.1);
      answer := BuildAnswer(tasks, total, normal.0, normal.1);
    }

    /** Copies the rows of a page into the answer. */
    method BuildAnswer(tasks: seq<Task>, total: int, page: int, pageSize: int) returns (answer: Listing)
      ensures answer == Listing(tasks, ToInt32(total), ToInt32(page), ToInt32(pageSize))
    {
      var copied := [];
      for i := 0 to |tasks|
        invariant copied == tasks[..i]
      {
        copied := copied + [tasks[i]];
      }
      answer := Listing(copied, ToInt32(total), ToInt32(page), ToInt32(pageSize));
    }
  }
}
