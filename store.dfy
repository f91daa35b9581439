/**
  The `messages` table: an append-only sequence of rows whose `id` column is assigned by
  SQLite's AUTOINCREMENT, and the full-table read that feeds the `load messages` snapshot.
 */
module Store {
  import opened Events

  /** The table's rows in insertion order, and the id the next successful insert receives. */
  datatype Table = Table(rows: seq<Row>, nextId: nat)

  /** A freshly created table: no rows, and AUTOINCREMENT starts at 1. */
  const Empty: Table := Table([], 1)

  /** Ids are positive, below `nextId`, and strictly increasing in table order. */
  ghost predicate Valid(t: Table) {
    && 1 <= t.nextId
    && (forall i :: 0 <= i < |t.rows| ==> 1 <= t.rows[i].id < t.nextId)
    && (forall i, j :: 0 <= i < j < |t.rows| ==> t.rows[i].id < t.rows[j].id)
  }

  /** `rows'` keeps every row of `rows`, unchanged and in place, and may add more after them. */
  ghost predicate AppendOnly(rows: seq<Row>, rows': seq<Row>) {
    |rows| <= |rows'| && rows'[..|rows|] == rows
  }

  /** A successful `INSERT INTO messages (content, image, username)`. */
  function Insert(t: Table, content: Option<string>, image: Option<string>, username: string): (r: Table)
    requires Valid(t)
    ensures Valid(r)
    ensures AppendOnly(t.rows, r.rows) && |r.rows| == |t.rows| + 1
    ensures var last := r.rows[|t.rows|];
      last.content == content && last.image == image && last.username == username
    ensures forall i :: 0 <= i < |t.rows| ==> t.rows[i].id < r.rows[|t.rows|].id
    ensures r.nextId > t.nextId
  {
    Table(t.rows + [Row(t.nextId, content, image, username)], t.nextId + 1)
  }

  /** The selected columns of one row. */
  function Project(row: Row): Listed {
    Listed(row.content, row.image, row.username)
  }

  /** `SELECT content, image, username FROM messages`: every row, in table order, without its id. */
  function Listing(rows: seq<Row>): (r: seq<Listed>)
    ensures |r| == |rows|
    ensures forall i :: 0 <= i < |rows| ==>
      r[i].content == rows[i].content && r[i].image == rows[i].image && r[i].username == rows[i].username
  {
    if rows == [] then [] else Listing(rows[..|rows| - 1]) + [Project(rows[|rows| - 1])]
  }

  /** Reading the table after a later insert lists the earlier snapshot first, unchanged. */
  lemma {:induction false} ListingExtends(rows: seq<Row>, rows': seq<Row>)
    requires AppendOnly(rows, rows')
    ensures Listing(rows')[..|rows|] == Listing(rows)
  {
  }
}
