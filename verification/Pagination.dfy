/** Listing events page by page (List, filterEvents and the cursor in memstore/memstore.go).
    A cursor is the text inside its base64 wrapping. */
module Pagination {
  import opened Common
  import opened Decimals
  import opened Texts
  import opened Sorting

  /** What List looks at in an event. */
  datatype Row = Row(id: string, workspaceId: string, status: string, startsAt: int)

  datatype Filter = Filter(
    workspaceId: string,
    statuses: seq<string>,
    ids: seq<string>,
    startsAfter: Option<int>,
    limit: int,
    cursor: string)

  /** `next` is empty on the last page. */
  datatype Page = Page(rows: seq<Row>, next: string)

  const DEFAULT_PAGE_SIZE: int := 20
  const MAX_PAGE_SIZE: int := 100
  const MILLISECOND: int := 1_000_000

  // ----- the order of the list

  /** strings.Compare(a, b) <= 0. */
  predicate LexLe(a: string, b: string) {
    if a == "" then true
    else if b == "" then false
    else if a[0] == b[0] then LexLe(a[1..], b[1..])
    else a[0] < b[0]
  }

  /** Later start first, then the larger id. */
  predicate Le(a: Row, b: Row) {
    a.startsAt > b.startsAt || (a.startsAt == b.startsAt && LexLe(b.id, a.id))
  }

  // ----- filtering

  predicate Matches(row: Row, f: Filter) {
    && (f.workspaceId != "" ==> row.workspaceId == f.workspaceId)
    && (f.statuses != [] ==> row.status in f.statuses)
    && (f.ids != [] ==> row.id in f.ids)
    && (f.startsAfter.Some? ==> row.startsAt >= f.startsAfter.value)
  }

  predicate BeforeCursor(row: Row, startsAt: int, id: string) {
    row.startsAt < startsAt || (row.startsAt == startsAt && row.id != id && LexLe(row.id, id))
  }

  function EncodeCursor(row: Row): string {
    FormatInt(row.startsAt / MILLISECOND) + "|" + row.id
  }

  function DecodeCursor(cursor: string): Option<(int, string)> {
    match Cut(cursor, '|')
    case None => None
    case Some((millis, id)) =>
      match ParseInt(millis)
      case None => None
      case Some(ms) => Some((ms * MILLISECOND, id))
  }

  /** The rows wanted, in store order; `after` is the decoded cursor. */
  function Selected(rows: seq<Row>, f: Filter, after: Option<(int, string)>): seq<Row> {
    if rows == [] then []
    else
      var last := |rows| - 1;
      Selected(rows[..last], f, after) + if Wanted(rows[last], f, after) then [rows[last]] else []
  }

  predicate Wanted(row: Row, f: Filter, after: Option<(int, string)>) {
    Matches(row, f) && (after.Some? ==> BeforeCursor(row, after.value.0, after.value.1))
  }

  function PageSize(limit: int): int {
    Min(if limit <= 0 then DEFAULT_PAGE_SIZE else limit, MAX_PAGE_SIZE)
  }

  function Paged(matched: seq<Row>, limit: int): Page {
    var size := PageSize(limit);
    if |matched| > size then Page(matched[..size], EncodeCursor(matched[size - 1])) else Page(matched, "")
  }

  function Listed(rows: seq<Row>, f: Filter): Option<Page> {
    if f.cursor == "" then Some(Paged(Sort(Selected(rows, f, None), Le), f.limit))
    else
      match DecodeCursor(f.cursor)
      case None => None
      case Some(after) => Some(Paged(Sort(Selected(rows, f, Some(after)), Le), f.limit))
  }

  method List(rows: seq<Row>, f: Filter) returns (r: Option<Page>)
    ensures r == Listed(rows, f)
  {
    var after: Option<(int, string)> := None;
    if f.cursor != "" {
      after := DecodeCursor(f.cursor);
      if after.None? {
        return None;
      }
    }
    var matched: seq<Row> := [];
    for i := 0 to |rows|
      invariant matched == Selected(rows[..i], f, after)
    {
      assert rows[..i + 1][..i] == rows[..i];
      if !Matches(rows[i], f) {
        continue;
      }
      if f.cursor != "" && !BeforeCursor(rows[i], after.value.0, after.value.1) {
        continue;
      }
      matched := matched + [rows[i]];
    }
    assert rows[..|rows|] == rows;
    matched := Sort(matched, Le);
    var limit := f.limit;
    if limit <= 0 {
      limit := DEFAULT_PAGE_SIZE;
    }
    limit := Min(limit, MAX_PAGE_SIZE);
    var next := "";
    if |matched| > limit {
      next := EncodeCursor(matched[limit - 1]);
      matched := matched[..limit];
    }
    return Some(Page(matched, next));
  }

  // ----- the order is total on ids

  lemma {:induction false} LexTotal(a: string, b: string)
    ensures LexLe(a, b) || LexLe(b, a)
    ensures LexLe(a, b) && LexLe(b, a) ==> a == b
  {
    if a != "" && b != "" {
      assert a == [a[0]] + a[1..] && b == [b[0]] + b[1..];
      LexTotal(a[1..], b[1..]);
    }
  }

  lemma {:induction false} LexTransitive(a: string, b: string, c: string)
    requires LexLe(a, b) && LexLe(b, c)
    ensures LexLe(a, c)
  {
    if a != "" && a[0] == b[0] && b[0] == c[0] {
      LexTransitive(a[1..], b[1..], c[1..]);
    }
  }

  lemma LeIsPreorder()
    ensures Preorder(Le)
  {
    forall a, b
      ensures Le(a, b) || Le(b, a)
    {
      LexTotal(a.id, b.id);
    }
    forall a, b, c | Le(a, b) && Le(b, c)
      ensures Le(a, c)
    {
      if a.startsAt == b.startsAt == c.startsAt {
        LexTransitive(c.id, b.id, a.id);
      }
    }
  }

  // ----- the assumptions of the promise

  ghost predicate DistinctIds(rows: seq<Row>) {
    forall i, j :: 0 <= i < j < |rows| ==> rows[i].id != rows[j].id
  }

  predicate InRange(t: int) {
    MIN_INT64 <= t / MILLISECOND <= MAX_INT64
  }

  /** Ids are unique, and the milliseconds of start times fit an int64. */
  ghost predicate Storable(rows: seq<Row>) {
    DistinctIds(rows) && forall i :: 0 <= i < |rows| ==> InRange(rows[i].startsAt)
  }

  /** And no start lies between two milliseconds. */
  ghost predicate Plain(rows: seq<Row>) {
    Storable(rows) && forall i :: 0 <= i < |rows| ==> rows[i].startsAt % MILLISECOND == 0
  }

  lemma FormattedHasNoBar(n: int)
    ensures '|' !in FormatInt(n)
  {
    DigitsRead(if n < 0 then -n else n);
  }

  /** A cursor holds its place exactly when the start is a whole number of milliseconds. */
  lemma CursorRoundTrip(row: Row)
    requires InRange(row.startsAt)
    ensures EncodeCursor(row) != ""
    ensures DecodeCursor(EncodeCursor(row)) == Some((row.startsAt / MILLISECOND * MILLISECOND, row.id))
    ensures DecodeCursor(EncodeCursor(row)) == Some((row.startsAt, row.id)) <==> row.startsAt % MILLISECOND == 0
  {
    var ms := row.startsAt / MILLISECOND;
    FormattedHasNoBar(ms);
    CutAt(FormatInt(ms), '|', row.id);
    ParseFormat(ms);
  }

  // ----- the whole list, and what remains of it after a cursor

  lemma {:induction false} SelectedMembers(rows: seq<Row>, f: Filter, after: Option<(int, string)>)
    ensures forall row :: row in Selected(rows, f, after) <==> row in rows && Wanted(row, f, after)
  {
    if rows != [] {
      var last := |rows| - 1;
      SelectedMembers(rows[..last], f, after);
      assert rows == rows[..last] + [rows[last]];
    }
  }

  lemma {:induction false} SelectedDistinct(rows: seq<Row>, f: Filter, after: Option<(int, string)>)
    requires DistinctIds(rows)
    ensures Distinct(Selected(rows, f, after))
  {
    if rows != [] {
      var last := |rows| - 1;
      SelectedDistinct(rows[..last], f, after);
      SelectedMembers(rows[..last], f, after);
      if Wanted(rows[last], f, after) {
        DistinctAppend(Selected(rows[..last], f, after), rows[last]);
      }
    }
  }

  /** Sorted, without ties, and with exactly the wanted rows. */
  ghost predicate IsListOf(s: seq<Row>, rows: seq<Row>, f: Filter, after: Option<(int, string)>) {
    && Sorted(s, Le) && Distinct(s)
    && (forall row :: row in s <==> row in rows && Wanted(row, f, after))
  }

  lemma SortedIsList(rows: seq<Row>, f: Filter, after: Option<(int, string)>)
    requires DistinctIds(rows)
    ensures IsListOf(Sort(Selected(rows, f, after), Le), rows, f, after)
  {
    var s := Selected(rows, f, after);
    LeIsPreorder();
    SortSorts(s, Le);
    SelectedDistinct(rows, f, after);
    SortKeepsDistinct(s, Le);
    SortMembers(s, Le);
    SelectedMembers(rows, f, after);
  }

  /** Rows with different ids are never tied. */
  lemma NoTies(rows: seq<Row>, a: Row, b: Row)
    requires DistinctIds(rows) && a in rows && b in rows && Le(a, b) && Le(b, a)
    ensures a == b
  {
    LexTotal(a.id, b.id);
  }

  lemma FirstIsLeast(s: seq<Row>, row: Row)
    requires Sorted(s, Le) && row in s
    ensures Le(s[0], row)
  {
    var j :| 0 <= j < |s| && s[j] == row;
    LexTotal(row.id, row.id);
  }

  lemma TailMembers(s: seq<Row>)
    requires s != [] && Distinct(s)
    ensures forall row :: row in s[1..] <==> row in s && row != s[0]
  {
    assert s == [s[0]] + s[1..];
  }

  lemma SameEmptiness(a: seq<Row>, b: seq<Row>)
    requires forall row :: row in a <==> row in b
    ensures a == [] <==> b == []
  {
    if a != [] { assert a[0] in b; }
    if b != [] { assert b[0] in a; }
  }

  /** There is only one such list. */
  lemma {:induction false} ListIsUnique(a: seq<Row>, b: seq<Row>, rows: seq<Row>)
    requires DistinctIds(rows) && Sorted(a, Le) && Sorted(b, Le) && Distinct(a) && Distinct(b)
    requires (forall row :: row in a ==> row in rows) && (forall row :: row in a <==> row in b)
    ensures a == b
  {
    SameEmptiness(a, b);
    if a != [] {
      assert a[0] in b && b[0] in a;
      FirstIsLeast(a, b[0]);
      FirstIsLeast(b, a[0]);
      NoTies(rows, a[0], b[0]);
      TailMembers(a);
      TailMembers(b);
      ListIsUnique(a[1..], b[1..], rows);
    }
  }

  /** The row comes after the cursor that marks another row, as the cursor records it. */
  predicate Resumes(mark: Row, row: Row) {
    BeforeCursor(row, mark.startsAt / MILLISECOND * MILLISECOND, mark.id)
  }

  /** The first row from the j-th on that comes after the cursor. */
  function SkipTo(whole: seq<Row>, mark: Row, j: nat): (r: nat)
    requires j <= |whole|
    ensures j <= r <= |whole|
    ensures forall i :: j <= i < r ==> !Resumes(mark, whole[i])
    ensures r < |whole| ==> Resumes(mark, whole[r])
    decreases |whole| - j
  {
    if j == |whole| || Resumes(mark, whole[j]) then j else SkipTo(whole, mark, j + 1)
  }

  /** Where the list goes on after the cursor of its k-th row. */
  function Resume(whole: seq<Row>, k: nat): (r: nat)
    requires k <= |whole|
    ensures k <= r <= |whole|
    ensures r == k <==> k == 0 || k == |whole| || Resumes(whole[k - 1], whole[k])
  {
    if k == 0 then 0 else SkipTo(whole, whole[k - 1], k)
  }

  /** The order of the list, and what comes after a cursor, go together. */
  lemma ResumesLater(mark: Row, row: Row, later: Row)
    requires Resumes(mark, row) && Le(row, later)
    ensures Resumes(mark, later)
  {
    if row.startsAt == later.startsAt {
      LexTotal(row.id, mark.id);
      LexTotal(later.id, row.id);
      if LexLe(row.id, mark.id) {
        LexTransitive(later.id, row.id, mark.id);
      }
    }
  }

  lemma NeverResumesBefore(mark: Row, row: Row)
    requires Le(row, mark)
    ensures !Resumes(mark, row)
  {
    LexTotal(row.id, mark.id);
  }

  lemma RestMembers(whole: seq<Row>, k: nat, row: Row)
    requires 0 < k <= |whole| && Sorted(whole, Le) && Distinct(whole)
    ensures row in whole[Resume(whole, k)..] <==> row in whole && Resumes(whole[k - 1], row)
  {
    var mark, r := whole[k - 1], Resume(whole, k);
    if row in whole {
      var i :| 0 <= i < |whole| && whole[i] == row;
      if i < r {
        if i < k {
          LexTotal(mark.id, mark.id);
          NeverResumesBefore(mark, row);
        }
        assert row !in whole[r..];
      } else {
        LexTotal(row.id, row.id);
        ResumesLater(mark, whole[r], row);
        assert row == whole[r..][i - r];
      }
    } else {
      assert row in whole[r..] ==> row in whole;
    }
  }

  /** The list for the cursor of its k-th row is the rest of the list, from the first row that
      comes after the cursor: after the k-th row itself, when its start is whole milliseconds. */
  lemma RestAfterCursor(rows: seq<Row>, f: Filter, whole: seq<Row>, k: nat)
    requires Storable(rows) && 0 < k <= |whole| && IsListOf(whole, rows, f, None)
    ensures Sort(Selected(rows, f, DecodeCursor(EncodeCursor(whole[k - 1]))), Le) == whole[Resume(whole, k)..]
    ensures whole[k - 1].startsAt % MILLISECOND == 0 ==> Resume(whole, k) == k
  {
    var mark, r := whole[k - 1], Resume(whole, k);
    assert mark in whole;
    CursorRoundTrip(mark);
    var after := Some((mark.startsAt / MILLISECOND * MILLISECOND, mark.id));
    SortedIsList(rows, f, after);
    var rest := Sort(Selected(rows, f, after), Le);
    forall row
      ensures row in rest <==> row in whole[r..]
    {
      RestMembers(whole, k, row);
    }
    ListIsUnique(rest, whole[r..], rows);
    if k < |whole| {
      WholeMarkResumes(rows, whole, k);
    }
  }

  lemma WholeMarkResumes(rows: seq<Row>, whole: seq<Row>, k: nat)
    requires DistinctIds(rows) && 0 < k < |whole| && Sorted(whole, Le) && Distinct(whole)
    requires forall row :: row in whole ==> row in rows
    ensures whole[k - 1].startsAt % MILLISECOND == 0 ==> Resumes(whole[k - 1], whole[k])
  {
    assert whole[k - 1] in whole && whole[k] in whole && Le(whole[k - 1], whole[k]);
    LexTotal(whole[k].id, whole[k - 1].id);
    assert whole[k].id != whole[k - 1].id;
  }

  /** What a filter asks for; what is left empty asks for nothing. */
  predicate AskedFor(row: Row, f: Filter) {
    && (f.workspaceId == "" || row.workspaceId == f.workspaceId)
    && (f.statuses == [] || row.status in f.statuses)
    && (f.ids == [] || row.id in f.ids)
    && (f.startsAfter == None || f.startsAfter.value <= row.startsAt)
  }

  /** A page has only rows that were asked for, latest start first and larger id first among
      equals, at most a hundred, or twenty if no number is given. A full page has a cursor, and
      a first page without one has every row that was asked for. */
  lemma ListedRows(rows: seq<Row>, f: Filter, page: Page)
    requires DistinctIds(rows) && Listed(rows, f) == Some(page)
    ensures forall i :: 0 <= i < |page.rows| ==> page.rows[i] in rows && AskedFor(page.rows[i], f)
    ensures forall i, j :: 0 <= i < j < |page.rows| ==>
              var a, b := page.rows[i], page.rows[j];
              a.startsAt > b.startsAt || (a.startsAt == b.startsAt && a.id != b.id && LexLe(b.id, a.id))
    ensures var size := if f.limit <= 0 then 20 else if f.limit > 100 then 100 else f.limit;
            |page.rows| <= size && (page.next != "" ==> |page.rows| == size)
    ensures f.cursor == "" && page.next == "" ==> forall row :: row in rows && AskedFor(row, f) ==> row in page.rows
  {
    var after := if f.cursor == "" then None else DecodeCursor(f.cursor);
    var whole := Sort(Selected(rows, f, after), Le);
    SortedIsList(rows, f, after);
    PageOfList(rows, f, after, whole, page);
  }

  lemma PageOfList(rows: seq<Row>, f: Filter, after: Option<(int, string)>, whole: seq<Row>, page: Page)
    requires DistinctIds(rows) && IsListOf(whole, rows, f, after) && page == Paged(whole, f.limit)
    ensures forall i :: 0 <= i < |page.rows| ==> page.rows[i] in rows && AskedFor(page.rows[i], f)
    ensures forall i, j :: 0 <= i < j < |page.rows| ==>
              var a, b := page.rows[i], page.rows[j];
              a.startsAt > b.startsAt || (a.startsAt == b.startsAt && a.id != b.id && LexLe(b.id, a.id))
    ensures var size := if f.limit <= 0 then 20 else if f.limit > 100 then 100 else f.limit;
            |page.rows| <= size && (page.next != "" ==> |page.rows| == size)
    ensures after.None? && page.next == "" ==> forall row :: row in rows && AskedFor(row, f) ==> row in page.rows
  {
    PageIsPrefix(whole, f.limit);
    forall i | 0 <= i < |page.rows|
      ensures page.rows[i] == whole[i] && whole[i] in rows && Wanted(whole[i], f, after)
    {
      assert whole[i] in whole;
    }
    forall i, j | 0 <= i < j < |page.rows|
      ensures Le(whole[i], whole[j]) && whole[i].id != whole[j].id
    {
      assert whole[i] != whole[j];
    }
  }

  lemma PageIsPrefix(whole: seq<Row>, limit: int)
    ensures var page := Paged(whole, limit); var size := if limit <= 0 then 20 else if limit > 100 then 100 else limit;
      && |page.rows| <= |whole| && page.rows == whole[..|page.rows|]
      && |page.rows| <= size && (page.next != "" ==> |page.rows| == size) && (page.next == "" ==> page.rows == whole)
  {
    var size := PageSize(limit);
    if |whole| > size {
      assert '|' in EncodeCursor(whole[size - 1]);
    }
  }

  // ----- following the cursors

  /** Up to `n` requests, each with the cursor of the page before: the rows received, and
      whether the last page was reached. */
  function Follow(list: string -> Option<Page>, cursor: string, n: nat): (seq<Row>, bool)
    decreases n
  {
    if n == 0 then ([], false)
    else
      match list(cursor)
      case None => ([], false)
      case Some(page) =>
        if page.next == "" then (page.rows, true)
        else
          var (rest, done) := Follow(list, page.next, n - 1);
          (page.rows + rest, done)
  }

  /** The requests for one filter. */
  function Requests(rows: seq<Row>, f: Filter): string -> Option<Page> {
    (cursor: string) => Listed(rows, f.(cursor := cursor))
  }

  /** The cursor that asks for what comes after the first `k` rows of the list. */
  function CursorAt(whole: seq<Row>, k: nat): string
    requires k <= |whole|
  {
    if k == 0 then "" else EncodeCursor(whole[k - 1])
  }

  lemma PageAt(rows: seq<Row>, f: Filter, whole: seq<Row>, k: nat)
    requires Storable(rows) && k <= |whole| && IsListOf(whole, rows, f, None)
    ensures Listed(rows, f.(cursor := CursorAt(whole, k))) == Some(Paged(whole[Resume(whole, k)..], f.limit))
  {
    var g := f.(cursor := CursorAt(whole, k));
    assert IsListOf(whole, rows, g, None) by {
      assert forall row :: Wanted(row, g, None) == Wanted(row, f, None);
    }
    if k > 0 {
      assert whole[k - 1] in whole;
      CursorRoundTrip(whole[k - 1]);
      RestAfterCursor(rows, g, whole, k);
    } else {
      SortedIsList(rows, g, None);
      ListIsUnique(Sort(Selected(rows, g, None), Le), whole, rows);
      assert whole[k..] == whole;
    }
  }

  /** A full page names its last row as the place to go on from. */
  lemma FullPage(whole: seq<Row>, k: nat, limit: int)
    requires k <= |whole| && PageSize(limit) < |whole| - k
    ensures var size := PageSize(limit); var page := Paged(whole[k..], limit);
      size > 0 && page.next == CursorAt(whole, k + size) && page.rows == whole[k..k + size] && page.next != ""
  {
    var size := PageSize(limit);
    assert whole[k..][size - 1] == whole[k + size - 1];
    assert whole[k..][..size] == whole[k..k + size];
    assert '|' in EncodeCursor(whole[k + size - 1]);
  }

  /** Every request is answered with a page of what is left from `from` on. */
  ghost predicate Serves(list: string -> Option<Page>, at: nat -> string, from: nat -> nat, whole: seq<Row>, size: nat) {
    forall k :: 0 <= k <= |whole| ==> ServesAt(list, at, from, whole, size, k)
  }

  ghost predicate ServesAt(list: string -> Option<Page>, at: nat -> string, from: nat -> nat, whole: seq<Row>, size: nat, k: nat)
    requires k <= |whole|
  {
    k <= from(k) <= |whole| && list(at(k)).Some? && IsPage(list(at(k)).value, at, whole, size, from(k))
  }

  /** The rows from `r` on, or as many as fit and the cursor for the others. */
  predicate IsPage(page: Page, at: nat -> string, whole: seq<Row>, size: nat, r: nat)
    requires r <= |whole|
  {
    if |whole| - r <= size then page == Page(whole[r..], "")
    else page == Page(whole[r..r + size], at(r + size)) && page.next != ""
  }

  function Cursors(whole: seq<Row>): nat -> string {
    (k: nat) => if k <= |whole| then CursorAt(whole, k) else ""
  }

  function Resumptions(whole: seq<Row>): nat -> nat {
    (k: nat) => if k <= |whole| then Resume(whole, k) else 0
  }

  ghost predicate Answers(list: string -> Option<Page>, whole: seq<Row>, limit: int, k: nat)
    requires k <= |whole|
  {
    list(CursorAt(whole, k)) == Some(Paged(whole[Resume(whole, k)..], limit))
  }

  lemma RequestsAnswer(rows: seq<Row>, f: Filter, whole: seq<Row>, k: nat)
    requires Storable(rows) && k <= |whole| && IsListOf(whole, rows, f, None)
    ensures Answers(Requests(rows, f), whole, f.limit, k)
  {
    PageAt(rows, f, whole, k);
  }

  lemma AnswersServe(list: string -> Option<Page>, whole: seq<Row>, limit: int)
    requires forall k :: 0 <= k <= |whole| ==> Answers(list, whole, limit, k)
    ensures Serves(list, Cursors(whole), Resumptions(whole), whole, PageSize(limit))
  {
    forall k | 0 <= k <= |whole|
      ensures ServesAt(list, Cursors(whole), Resumptions(whole), whole, PageSize(limit), k)
    {
      assert Answers(list, whole, limit, k);
      PagedIs(whole, Resume(whole, k), limit);
    }
  }

  lemma PagedIs(whole: seq<Row>, r: nat, limit: int)
    requires r <= |whole|
    ensures PageSize(limit) > 0 && IsPage(Paged(whole[r..], limit), Cursors(whole), whole, PageSize(limit), r)
  {
    if |whole| - r > PageSize(limit) {
      FullPage(whole, r, limit);
    }
  }

  /** `n` pages are enough for so many rows. */
  predicate Enough(n: nat, size: int, left: int) {
    n > 0 && (left <= size || Enough(n - 1, size, left - size))
  }

  lemma {:induction false} EnoughPages(n: nat, size: int, left: int)
    requires n > 0 && left <= n * size
    ensures Enough(n, size, left)
  {
    if left > size {
      assert n * size == (n - 1) * size + size;
      EnoughPages(n - 1, size, left - size);
    }
  }

  lemma FollowOnce(list: string -> Option<Page>, cursor: string, page: Page, n: nat)
    requires n > 0 && list(cursor) == Some(page)
    ensures Follow(list, cursor, n) ==
            if page.next == "" then (page.rows, true)
            else (page.rows + Follow(list, page.next, n - 1).0, Follow(list, page.next, n - 1).1)
  {
  }

  /** What was skipped once never comes: later pages lie further down the list. */
  lemma {:induction false} FollowDescends(list: string -> Option<Page>, at: nat -> string, from: nat -> nat, whole: seq<Row>,
                                          size: nat, k: nat, n: nat, j: nat)
    requires Serves(list, at, from, whole, size) && Distinct(whole) && k <= |whole| && j < from(k) <= |whole|
    ensures whole[j] !in Follow(list, at(k), n).0
    decreases n
  {
    assert ServesAt(list, at, from, whole, size, k);
    if n > 0 && |whole| - from(k) > size {
      var next := from(k) + size;
      assert ServesAt(list, at, from, whole, size, next);
      FollowDescends(list, at, from, whole, size, next, n - 1, j);
      FollowOnce(list, at(k), Page(whole[from(k)..next], at(next)), n);
    } else if n > 0 {
      FollowOnce(list, at(k), Page(whole[from(k)..], ""), n);
    }
  }

  /** No page after the one that begins at `k` skips a row. */
  predicate NoneSkipped(from: nat -> nat, size: nat, k: nat, length: nat)
    requires size > 0
    decreases length - k
  {
    length - k <= size || (from(k + size) == k + size && NoneSkipped(from, size, k + size, length))
  }

  lemma SamePrefix(whole: seq<Row>, k: nat, next: nat, rest: seq<Row>)
    requires k <= next <= |whole|
    ensures whole[k..next] + rest == whole[k..] <==> rest == whole[next..]
  {
    assert whole[k..] == whole[k..next] + whole[next..];
    assert (whole[k..next] + rest)[next - k..] == rest;
    assert whole[k..][next - k..] == whole[next..];
  }

  lemma {:induction false} FollowFrom(list: string -> Option<Page>, at: nat -> string, from: nat -> nat, whole: seq<Row>,
                                      size: nat, k: nat, n: nat)
    requires Serves(list, at, from, whole, size) && Distinct(whole) && size > 0 && k <= |whole| && from(k) == k
    requires Enough(n, size, |whole| - k)
    ensures Follow(list, at(k), n) == (whole[k..], true) <==> NoneSkipped(from, size, k, |whole|)
    decreases n
  {
    assert ServesAt(list, at, from, whole, size, k);
    if |whole| - k > size {
      var next := k + size;
      FollowOnce(list, at(k), Page(whole[k..next], at(next)), n);
      SamePrefix(whole, k, next, Follow(list, at(next), n - 1).0);
      if from(next) == next {
        FollowFrom(list, at, from, whole, size, next, n - 1);
      } else {
        assert ServesAt(list, at, from, whole, size, next);
        FollowDescends(list, at, from, whole, size, next, n - 1, next);
        assert whole[next..][0] == whole[next];
      }
    } else {
      FollowOnce(list, at(k), Page(whole[k..], ""), n);
    }
  }

  /** The rows that begin a page, after the one at `k`, come after the cursor of the page before. */
  predicate PagesMeetFrom(whole: seq<Row>, size: nat, k: nat)
    requires size > 0
  {
    forall j :: k < j < |whole| && j % size == 0 ==> Resumes(whole[j - 1], whole[j])
  }

  predicate PagesMeet(whole: seq<Row>, size: nat)
    requires size > 0
  {
    PagesMeetFrom(whole, size, 0)
  }

  lemma {:induction false} OneMoreTime(p: int, q: int, size: nat)
    ensures p < q ==> p * size + size <= q * size
    decreases q - p
  {
    if p < q {
      assert q * size == (q - 1) * size + size;
      OneMoreTime(p, q - 1, size);
    }
  }

  lemma Remainder(n: nat, size: nat, q: nat, r: nat)
    requires n == q * size + r && r < size
    ensures n % size == r
  {
    var p := n / size;
    assert n == p * size + n % size;
    OneMoreTime(p, q, size);
    OneMoreTime(q, p, size);
  }

  /** The next multiple after one of them. */
  lemma NextMultiple(k: nat, j: nat, size: nat)
    requires size > 0 && k % size == 0
    ensures (k + size) % size == 0
    ensures k < j && j % size == 0 ==> k + size <= j
  {
    var q := k / size;
    assert k == q * size;
    assert (q + 1) * size == q * size + size;
    Remainder(k + size, size, q + 1, 0);
    if k < j < k + size {
      Remainder(j, size, q, j - k);
    }
  }

  lemma PagesMeetStep(whole: seq<Row>, size: nat, k: nat)
    requires size > 0 && k % size == 0
    ensures |whole| - k <= size ==> PagesMeetFrom(whole, size, k)
    ensures |whole| - k > size ==>
              (PagesMeetFrom(whole, size, k)
               <==> Resumes(whole[k + size - 1], whole[k + size]) && PagesMeetFrom(whole, size, k + size))
  {
    NextMultiple(k, k, size);
    forall j | k < j && j % size == 0
      ensures k + size <= j
    {
      NextMultiple(k, j, size);
    }
  }

  lemma {:induction false} NoneSkippedIsMeeting(whole: seq<Row>, size: nat, k: nat)
    requires size > 0 && k <= |whole| && k % size == 0
    ensures NoneSkipped(Resumptions(whole), size, k, |whole|) <==> PagesMeetFrom(whole, size, k)
    decreases |whole| - k
  {
    PagesMeetStep(whole, size, k);
    if |whole| - k > size {
      NextMultiple(k, k, size);
      NoneSkippedIsMeeting(whole, size, k + size);
    }
  }

  /** Following the cursors of a list that is answered page by page. */
  lemma FollowAnswers(list: string -> Option<Page>, whole: seq<Row>, limit: int, n: nat)
    requires forall k :: 0 <= k <= |whole| ==> Answers(list, whole, limit, k)
    requires Distinct(whole) && n > 0 && |whole| <= n * PageSize(limit)
    ensures Follow(list, "", n) == (whole, true) <==> PagesMeet(whole, PageSize(limit))
  {
    var size := PageSize(limit);
    AnswersServe(list, whole, limit);
    EnoughPages(n, size, |whole|);
    FollowFrom(list, Cursors(whole), Resumptions(whole), whole, size, 0, n);
    NoneSkippedIsMeeting(whole, size, 0);
    assert whole[0..] == whole;
  }

  /** When paging is lossless: on an unchanged store with unique ids, following the cursors
      yields the whole filtered list, in order and each row once, exactly when every row that
      begins a page comes after the cursor made of the row before it, which records that row's
      start cut to milliseconds. */
  lemma PagingIsLosslessIff(rows: seq<Row>, f: Filter, n: nat)
    requires Storable(rows) && n > 0 && |Selected(rows, f, None)| <= n * PageSize(f.limit)
    ensures var whole := Sort(Selected(rows, f, None), Le);
      && IsListOf(whole, rows, f, None)
      && (Follow(Requests(rows, f), "", n) == (whole, true) <==> PagesMeet(whole, PageSize(f.limit)))
  {
    var whole := Sort(Selected(rows, f, None), Le);
    SortedIsList(rows, f, None);
    SortMembers(Selected(rows, f, None), Le);
    forall k | 0 <= k <= |whole|
      ensures Answers(Requests(rows, f), whole, f.limit, k)
    {
      RequestsAnswer(rows, f, whole, k);
    }
    FollowAnswers(Requests(rows, f), whole, f.limit, n);
  }

  /** In particular whole-millisecond starts lose nothing, for every limit: the cursors end,
      after no more requests than fill the list, and yield the filtered rows, each once, latest
      start first and larger id first among equals. */
  lemma PagingIsLossless(rows: seq<Row>, f: Filter, n: nat)
    requires Plain(rows) && n > 0 && |Selected(rows, f, None)| <= n * PageSize(f.limit)
    ensures Follow(Requests(rows, f), "", n) == (Sort(Selected(rows, f, None), Le), true)
    ensures IsListOf(Follow(Requests(rows, f), "", n).0, rows, f, None)
  {
    PagingIsLosslessIff(rows, f, n);
    var whole := Sort(Selected(rows, f, None), Le);
    forall k | 0 < k < |whole|
      ensures Resumes(whole[k - 1], whole[k])
    {
      assert whole[k - 1] in whole;
      WholeMarkResumes(rows, whole, k);
    }
  }

  lemma {:induction false} FollowSkips(list: string -> Option<Page>, at: nat -> string, from: nat -> nat, whole: seq<Row>,
                                       size: nat, k: nat, gap: nat, n: nat)
    requires Serves(list, at, from, whole, size) && Distinct(whole) && size > 0
    requires k < gap < |whole| && k % size == 0 && gap % size == 0 && gap < from(gap)
    requires forall j: nat :: j < gap && j % size == 0 ==> from(j) == j
    ensures whole[gap] !in Follow(list, at(k), n).0
    decreases n
  {
    NextMultiple(k, gap, size);
    if n > 0 {
      var next := k + size;
      assert ServesAt(list, at, from, whole, size, k);
      FollowOnce(list, at(k), Page(whole[k..next], at(next)), n);
      if next == gap {
        assert ServesAt(list, at, from, whole, size, gap);
        FollowDescends(list, at, from, whole, size, gap, n - 1, gap);
      } else {
        FollowSkips(list, at, from, whole, size, next, gap, n - 1);
      }
    }
  }

  /** A row that begins a page and does not come after the cursor of the page before. */
  predicate FirstGap(whole: seq<Row>, size: nat, k: nat)
    requires size > 0
  {
    && 0 < k < |whole| && k % size == 0 && !Resumes(whole[k - 1], whole[k])
    && forall j :: 0 < j < k && j % size == 0 ==> Resumes(whole[j - 1], whole[j])
  }

  /** Otherwise the first such row is never listed, however many pages are asked for. */
  lemma GapIsLost(rows: seq<Row>, f: Filter, n: nat, k: nat)
    requires Storable(rows) && FirstGap(Sort(Selected(rows, f, None), Le), PageSize(f.limit), k)
    ensures Sort(Selected(rows, f, None), Le)[k] !in Follow(Requests(rows, f), "", n).0
  {
    var whole := Sort(Selected(rows, f, None), Le);
    SortedIsList(rows, f, None);
    forall j | 0 <= j <= |whole|
      ensures Answers(Requests(rows, f), whole, f.limit, j)
    {
      RequestsAnswer(rows, f, whole, j);
    }
    AnswersServe(Requests(rows, f), whole, f.limit);
    FollowSkips(Requests(rows, f), Cursors(whole), Resumptions(whole), whole, PageSize(f.limit), 0, k, n);
  }

  lemma ListOfTwo(a: Row, b: Row, f: Filter)
    requires f == Filter("", [], [], None, 1, "") && a.startsAt == 2 && b.startsAt == 1
    ensures Sort(Selected([a, b], f, None), Le) == [a, b]
  {
    assert [a, b][..1] == [a] && [a][..0] == [];
    assert Selected([a], f, None) == [] + [a];
    assert [a, b][1..] == [b] && [b][1..] == [];
    assert Sort([b], Le) == [b] && Sort([a, b], Le) == [a, b];
  }

  /** For instance the row at one nanosecond, when a page ends with one at two. */
  lemma SubMillisecondIsLost(f: Filter, a: Row, b: Row, n: nat)
    requires f == Filter("", [], [], None, 1, "") && a.startsAt == 2 && b.startsAt == 1 && a.id != b.id
    ensures b in Selected([a, b], f, None) && b !in Follow(Requests([a, b], f), "", n).0
  {
    ListOfTwo(a, b, f);
    SortMembers(Selected([a, b], f, None), Le);
    assert b in [a, b];
    GapIsLost([a, b], f, n, 1);
  }
}
