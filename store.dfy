/**
 * The two hosted tables, `watched_items` and `watchlist_items`, as the
 * client sees them: rows of one signed-in user, inserted with a
 * database-assigned id and time stamp, deleted by id, and selected in
 * descending order of a time-stamp column. A unique constraint on
 * (`user_id`, `tmdb_id`) per table answers a second insert of the same
 * title with the PostgreSQL code `23505`.
 *
 * Failures of the service itself (network, permissions) are parameters:
 * `reached` says whether a call got through, `fault` is the error code of an
 * insert that did not.
 */
module Store {
  import opened Wrappers
  import opened SearchMedia

  datatype Table = WatchedItems | WatchlistItems
  datatype Column = CreatedAt | WatchedAt

  function Other(t: Table): Table {
    match t
    case WatchedItems => WatchlistItems
    case WatchlistItems => WatchedItems
  }

  /** The columns a client writes; a column an insert leaves out is absent (`None`). */
  datatype MediaRecord = MediaRecord(
    userId: string,
    title: Option<string>,
    mediaType: MediaKind,
    year: Option<int>,
    posterUrl: Option<string>,
    totalEpisodes: Option<int>,
    totalSeasons: Option<int>,
    tmdbId: Option<int>,
    description: Option<string>,
    genres: Option<string>,
    rating: Option<real>,
    runtime: Option<int>,
    director: Option<string>,
    language: Option<string>,
    releaseDate: Option<string>,
    budget: Option<int>,
    revenue: Option<int>,
    mainCast: Option<string>,
    tvStatus: Option<string>)

  /** A stored row: the record plus what the database fills in. Only watched rows have `watched_at`. */
  datatype Row = Row(id: string, createdAt: int, watchedAt: Option<int>, rec: MediaRecord)

  const UniqueViolation: string := "23505"

  function NewRow(t: Table, rec: MediaRecord, id: string, now: int): Row {
    Row(id, now, if t == WatchedItems then Some(now) else None, rec)
  }

  // ------------------------------------------------------- uniqueness

  /** Two records name the same provider title for the same user (a null `tmdb_id` never clashes). */
  predicate SameTitle(a: MediaRecord, b: MediaRecord) {
    a.userId == b.userId && a.tmdbId.Some? && a.tmdbId == b.tmdbId
  }

  predicate Clashes(rows: seq<Row>, rec: MediaRecord) {
    exists i :: 0 <= i < |rows| && SameTitle(rows[i].rec, rec)
  }

  predicate KeysUnique(rows: seq<Row>) {
    forall i, j :: 0 <= i < j < |rows| ==> !SameTitle(rows[i].rec, rows[j].rec)
  }

  /** The error an insert reports: a service fault, else the constraint, else none. */
  function InsertError(rows: seq<Row>, rec: MediaRecord, fault: Option<string>): (err: Option<string>)
    ensures err.None? <==> fault.None? && !Clashes(rows, rec)
    ensures fault.None? && err.Some? ==> err == Some(UniqueViolation)
  {
    if fault.Some? then fault
    else if Clashes(rows, rec) then Some(UniqueViolation)
    else None
  }

  /** An insert the constraint admits keeps the table free of duplicates. */
  lemma InsertKeepsKeysUnique(rows: seq<Row>, row: Row)
    requires KeysUnique(rows) && !Clashes(rows, row.rec)
    ensures KeysUnique(rows + [row])
  {
    var s := rows + [row];
    forall i, j | 0 <= i < j < |s|
      ensures !SameTitle(s[i].rec, s[j].rec)
    {
      if j == |rows| {
        assert s[i] == rows[i] && s[j] == row;
        assert !SameTitle(rows[i].rec, row.rec);
      }
    }
  }

  /**
   * Once a title with a provider id is stored, a second insert of it fails
   * with `23505`, and the table holds exactly one row for it.
   */
  lemma SecondInsertRejected(rows: seq<Row>, row: Row, again: MediaRecord)
    requires KeysUnique(rows) && !Clashes(rows, row.rec) && row.rec.tmdbId.Some?
    requires again.userId == row.rec.userId && again.tmdbId == row.rec.tmdbId
    ensures InsertError(rows + [row], again, None) == Some(UniqueViolation)
    ensures forall i :: 0 <= i < |rows + [row]| && SameTitle((rows + [row])[i].rec, again) ==> i == |rows|
  {
    var s := rows + [row];
    assert SameTitle(s[|rows|].rec, again);
    forall i | 0 <= i < |s| && SameTitle(s[i].rec, again)
      ensures i == |rows|
    {
      if i < |rows| {
        assert SameTitle(rows[i].rec, row.rec);
      }
    }
  }

  // ----------------------------------------------------------- delete

  /** `delete().eq('id', id)`: every row with that id goes, the others stay in order. */
  function Without(rows: seq<Row>, id: string): (r: seq<Row>)
    ensures |r| <= |rows|
    ensures forall x :: x in r <==> x in rows && x.id != id
    decreases |rows|
  {
    if rows == [] then []
    else (if rows[0].id == id then [] else [rows[0]]) + Without(rows[1..], id)
  }

  lemma {:induction false} WithoutAppend(a: seq<Row>, b: seq<Row>, id: string)
    ensures Without(a + b, id) == Without(a, id) + Without(b, id)
    decreases |a|
  {
    if a == [] {
      assert a + b == b;
    } else {
      assert (a + b)[1..] == a[1..] + b;
      WithoutAppend(a[1..], b, id);
    }
  }

  /** Deleting is idempotent: removing an id that is gone changes nothing. */
  lemma WithoutIdempotent(rows: seq<Row>, id: string)
    ensures Without(Without(rows, id), id) == Without(rows, id)
  {
    WithoutNoop(Without(rows, id), id);
  }

  lemma {:induction false} WithoutNoop(rows: seq<Row>, id: string)
    requires forall x :: x in rows ==> x.id != id
    ensures Without(rows, id) == rows
    decreases |rows|
  {
    if rows != [] {
      assert rows[0] in rows;
      WithoutNoop(rows[1..], id);
    }
  }

  lemma {:induction false} WithoutKeepsKeysUnique(rows: seq<Row>, id: string)
    requires KeysUnique(rows)
    ensures KeysUnique(Without(rows, id))
    decreases |rows|
  {
    if rows != [] {
      var rest := rows[1..];
      UniqueSplit(rows);
      WithoutKeepsKeysUnique(rest, id);
      var tail := Without(rest, id);
      if rows[0].id != id {
        assert Without(rows, id) == [rows[0]] + tail;
        UniqueCons(rows[0], tail);
      } else {
        assert Without(rows, id) == tail;
      }
    }
  }

  /** A duplicate-free table is its first row, clashing with none of the rest, and a duplicate-free rest. */
  lemma UniqueSplit(rows: seq<Row>)
    requires KeysUnique(rows) && rows != []
    ensures KeysUnique(rows[1..])
    ensures forall x :: x in rows[1..] ==> !SameTitle(rows[0].rec, x.rec)
  {
    var rest := rows[1..];
    forall i, j | 0 <= i < j < |rest|
      ensures !SameTitle(rest[i].rec, rest[j].rec)
    {
      assert rest[i] == rows[i + 1] && rest[j] == rows[j + 1];
    }
    forall x | x in rest
      ensures !SameTitle(rows[0].rec, x.rec)
    {
      var k :| 0 <= k < |rest| && rest[k] == x;
      assert rows[k + 1] == x;
    }
  }

  lemma UniqueCons(x: Row, rows: seq<Row>)
    requires KeysUnique(rows)
    requires forall y :: y in rows ==> !SameTitle(x.rec, y.rec)
    ensures KeysUnique([x] + rows)
  {
    var s := [x] + rows;
    forall i, j | 0 <= i < j < |s|
      ensures !SameTitle(s[i].rec, s[j].rec)
    {
      assert s[j] == rows[j - 1];
      if i > 0 {
        assert s[i] == rows[i - 1];
      }
    }
  }

  // ------------------------------------------------------------ order

  function Stamp(r: Row, c: Column): int {
    match c
    case CreatedAt => r.createdAt
    case WatchedAt => r.watchedAt.GetOr(0)
  }

  predicate SortedDesc(rows: seq<Row>, c: Column) {
    forall i, j :: 0 <= i < j < |rows| ==> Stamp(rows[i], c) >= Stamp(rows[j], c)
  }

  /** Puts `x` in front of the first row that is not later than it. */
  function InsertDesc(x: Row, rows: seq<Row>, c: Column): (r: seq<Row>)
    ensures multiset(r) == multiset(rows) + multiset{x}
    ensures |r| > 0 && (r[0] == x || (rows != [] && r[0] == rows[0]))
    decreases |rows|
  {
    if rows == [] || Stamp(x, c) >= Stamp(rows[0], c) then [x] + rows
    else
      assert rows == [rows[0]] + rows[1..];
      [rows[0]] + InsertDesc(x, rows[1..], c)
  }

  lemma {:induction false} InsertDescSorted(x: Row, rows: seq<Row>, c: Column)
    requires SortedDesc(rows, c)
    ensures SortedDesc(InsertDesc(x, rows, c), c)
    decreases |rows|
  {
    if rows != [] && Stamp(x, c) < Stamp(rows[0], c) {
      var rest := InsertDesc(x, rows[1..], c);
      InsertDescSorted(x, rows[1..], c);
      assert Stamp(rows[0], c) >= Stamp(rest[0], c);
      var r := [rows[0]] + rest;
      forall i, j | 0 <= i < j < |r|
        ensures Stamp(r[i], c) >= Stamp(r[j], c)
      {
        if i == 0 && j > 1 {
          assert Stamp(rest[0], c) >= Stamp(rest[j - 1], c);
        }
      }
    }
  }

  /** `order(c, { ascending: false })`: a reordering of the rows, latest first. */
  function OrderByDesc(rows: seq<Row>, c: Column): (r: seq<Row>)
    ensures SortedDesc(r, c)
    ensures multiset(r) == multiset(rows)
    decreases |rows|
  {
    if rows == [] then []
    else
      assert rows == [rows[0]] + rows[1..];
      var rest := OrderByDesc(rows[1..], c);
      InsertDescSorted(rows[0], rest, c);
      InsertDesc(rows[0], rest, c)
  }

  // ------------------------------------------------------------ tables

  class Tables {
    var watched: seq<Row>
    var watchlist: seq<Row>

    ghost predicate Valid()
      reads this
    {
      && KeysUnique(watched) && KeysUnique(watchlist)
      && (forall r :: r in watched ==> r.watchedAt.Some?)
      && (forall r :: r in watchlist ==> r.watchedAt.None?)
    }

    constructor ()
      ensures Valid() && watched == [] && watchlist == []
    {
      watched, watchlist := [], [];
    }

    function Rows(t: Table): seq<Row>
      reads this
    {
      match t
      case WatchedItems => watched
      case WatchlistItems => watchlist
    }

    /** `select('*').order(c, { ascending: false })` */
    function Select(t: Table, c: Column): (r: seq<Row>)
      reads this
      ensures SortedDesc(r, c) && multiset(r) == multiset(Rows(t))
    {
      OrderByDesc(Rows(t), c)
    }

    /** `insert(rec)`: the database assigns `id` and stamps the row with `now`. */
    method Insert(t: Table, rec: MediaRecord, id: string, now: int, fault: Option<string>) returns (err: Option<string>)
      requires Valid()
      modifies this
      ensures Valid()
      ensures err == InsertError(old(Rows(t)), rec, fault)
      ensures Rows(t) == if err.None? then old(Rows(t)) + [NewRow(t, rec, id, now)] else old(Rows(t))
      ensures Rows(Other(t)) == old(Rows(Other(t)))
    {
      err := InsertError(Rows(t), rec, fault);
      if err.None? {
        var row := NewRow(t, rec, id, now);
        InsertKeepsKeysUnique(Rows(t), row);
        if t == WatchedItems {
          watched := watched + [row];
        } else {
          watchlist := watchlist + [row];
        }
      }
    }

    /** `delete().eq('id', id)`; a call that does not get through changes nothing. */
    method Delete(t: Table, id: string, reached: bool)
      requires Valid()
      modifies this
      ensures Valid()
      ensures Rows(t) == if reached then Without(old(Rows(t)), id) else old(Rows(t))
      ensures Rows(Other(t)) == old(Rows(Other(t)))
    {
      if reached {
        WithoutKeepsKeysUnique(Rows(t), id);
        if t == WatchedItems {
          watched := Without(watched, id);
        } else {
          watchlist := Without(watchlist, id);
        }
      }
    }
  }
}
