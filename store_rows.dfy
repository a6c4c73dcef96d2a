/** The list updates the client stores apply to their rows after a
    successful backend call: `rows.map(r => r.id === id ? row : r)`,
    `rows.filter(r => r.id !== id)` and `[row, ...rows]`. */
module StoreRows {
  import opened Common

  /** Every row whose id is `id` becomes `row`; the others stay where they are. */
  function ReplaceById<T(==)>(rows: seq<T>, idOf: T -> string, id: string, row: T): (r: seq<T>)
  {
    seq(|rows|, i requires 0 <= i < |rows| => if idOf(rows[i]) == id then row else rows[i])
  }

  /** Replacing keeps the length and order, changes exactly the rows with
      that id, changes nothing when no row has it, and doing it twice is
      doing it once. */
  lemma ReplaceByIdProperties<T>(rows: seq<T>, idOf: T -> string, id: string, row: T)
    ensures var r := ReplaceById(rows, idOf, id, row);
      && |r| == |rows|
      && (forall i :: 0 <= i < |rows| && idOf(rows[i]) != id ==> r[i] == rows[i])
      && (forall i :: 0 <= i < |rows| && idOf(rows[i]) == id ==> r[i] == row)
      && (forall x :: x in r ==> x in rows || x == row)
      && ((exists i :: 0 <= i < |rows| && idOf(rows[i]) == id) ==> row in r)
      && ((forall i :: 0 <= i < |rows| ==> idOf(rows[i]) != id) ==> r == rows)
      && ReplaceById(r, idOf, id, row) == r
  {
    var r := ReplaceById(rows, idOf, id, row);
    forall x | x in r ensures x in rows || x == row {
      var i :| 0 <= i < |r| && r[i] == x;
    }
    if exists i :: 0 <= i < |rows| && idOf(rows[i]) == id {
      var i :| 0 <= i < |rows| && idOf(rows[i]) == id;
      assert r[i] == row;
    }
    var twice := ReplaceById(r, idOf, id, row);
    forall i | 0 <= i < |r| ensures twice[i] == r[i] {
    }
  }

  /** Every row whose id is `id` is dropped; the rest keep their order. */
  function RemoveById<T(==,!new)>(rows: seq<T>, idOf: T -> string, id: string): (r: seq<T>)
  {
    Filter(rows, x => idOf(x) != id)
  }

  /** Removal leaves no row with that id and every other row, in order; it
      changes nothing when no row has the id, and repeating it changes
      nothing more. */
  lemma {:induction false} RemoveByIdProperties<T(!new)>(rows: seq<T>, idOf: T -> string, id: string)
    ensures var r := RemoveById(rows, idOf, id);
      && (forall x :: x in r <==> x in rows && idOf(x) != id)
      && IsSubsequence(r, rows)
      && |r| <= |rows|
      && ((forall x :: x in rows ==> idOf(x) != id) ==> r == rows)
      && RemoveById(r, idOf, id) == r
  {
    var r := RemoveById(rows, idOf, id);
    assert forall x :: x in r ==> idOf(x) != id;
  }

  /** Removing from a concatenation removes from each part. */
  lemma RemoveByIdAppend<T(!new)>(a: seq<T>, b: seq<T>, idOf: T -> string, id: string)
    ensures RemoveById(a + b, idOf, id) == RemoveById(a, idOf, id) + RemoveById(b, idOf, id)
  {
    FilterAppend(a, b, x => idOf(x) != id);
  }
}
