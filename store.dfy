/**
 * The SQL the handlers issue, over tables modelled as sequences of rows in
 * primary-key order: a `SELECT ... WHERE` that fetches one row, a `DELETE ... WHERE`
 * that keeps the other rows, and an `UPDATE ... WHERE` that rewrites the
 * matching rows.
 */
module Store {
  import opened Basics
  import opened Models

  /** Row keys strictly increase along the table, so no key occurs twice. */
  ghost predicate KeysIncreasing<T>(rows: seq<T>, key: T -> int) {
    forall i, j :: 0 <= i < j < |rows| ==> key(rows[i]) < key(rows[j])
  }

  /** The first row that `where` selects, if any. */
  function Find<T(!new)>(rows: seq<T>, where: T -> bool): (r: Option<T>)
    ensures r.Some? ==> r.value in rows && where(r.value)
    ensures r.None? <==> forall x :: x in rows ==> !where(x)
    decreases |rows|
  {
    if |rows| == 0 then None
    else if where(rows[0]) then Some(rows[0])
    else Find(rows[1..], where)
  }

  /** Appending a row leaves the answer for rows already present unchanged. */
  lemma {:induction false} FindAppend<T(!new)>(rows: seq<T>, row: T, where: T -> bool)
    ensures Find(rows + [row], where) ==
      if Find(rows, where).Some? then Find(rows, where)
      else if where(row) then Some(row) else None
    decreases |rows|
  {
    if |rows| > 0 {
      assert (rows + [row])[1..] == rows[1..] + [row];
      FindAppend(rows[1..], row, where);
    }
  }

  /** The rows `keep` holds of, in their original order: the table after a DELETE of the others. */
  function Filter<T(!new)>(rows: seq<T>, keep: T -> bool): (r: seq<T>)
    ensures |r| <= |rows|
    ensures forall x :: x in r <==> x in rows && keep(x)
    ensures |r| == |rows| <==> forall x :: x in rows ==> keep(x)
    decreases |rows|
  {
    if |rows| == 0 then []
    else if keep(rows[0]) then [rows[0]] + Filter(rows[1..], keep)
    else Filter(rows[1..], keep)
  }

  /** Removing rows keeps the remaining keys increasing. */
  lemma {:induction false} FilterKeepsKeysIncreasing<T(!new)>(rows: seq<T>, keep: T -> bool, key: T -> int)
    requires KeysIncreasing(rows, key)
    ensures KeysIncreasing(Filter(rows, keep), key)
    decreases |rows|
  {
    if |rows| > 0 {
      assert KeysIncreasing(rows[1..], key);
      FilterKeepsKeysIncreasing(rows[1..], keep, key);
      var rest := Filter(rows[1..], keep);
      forall x | x in rest ensures key(rows[0]) < key(x) {
        var j :| 1 <= j < |rows| && rows[j] == x;
      }
    }
  }

  /** The table after `UPDATE ... SET ... WHERE`: the rows `where` selects are rewritten by `rewrite`. */
  function UpdateWhere<T>(rows: seq<T>, where: T -> bool, rewrite: T -> T): (r: seq<T>)
    ensures |r| == |rows|
    ensures forall i :: 0 <= i < |rows| ==> r[i] == if where(rows[i]) then rewrite(rows[i]) else rows[i]
  {
    seq(|rows|, i requires 0 <= i < |rows| => if where(rows[i]) then rewrite(rows[i]) else rows[i])
  }

  /** The row test of `WHERE username = ?` on the users table. */
  function HasUsername(username: string): User -> bool {
    (u: User) => u.username == username
  }

  /** The row test of `ON c.author_id = u.id` for one author id. */
  function HasUserId(id: nat): User -> bool {
    (u: User) => u.id == id
  }

  /** `SELECT * FROM users WHERE username = ?` */
  function UserByUsername(users: seq<User>, username: string): (r: Option<User>)
    ensures r.Some? ==> r.value in users && r.value.username == username
    ensures r.None? <==> forall u :: u in users ==> u.username != username
  {
    Find(users, HasUsername(username))
  }

  /** The user a `JOIN users u ON c.author_id = u.id` pairs with an author id. */
  function UserById(users: seq<User>, id: nat): (r: Option<User>)
    ensures r.Some? ==> r.value in users && r.value.id == id
    ensures r.None? <==> forall u :: u in users ==> u.id != id
  {
    Find(users, HasUserId(id))
  }
}
