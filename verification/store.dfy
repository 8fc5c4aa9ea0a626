/** A database table reduced to a finite map from primary key to row.
    Rows are only ever inserted here, so the auto-increment counter is
    one past the largest key in use. */
module Store {

  /** Every non-empty finite set of ids has a largest element. */
  lemma {:induction false} HasLargest(s: set<nat>)
    requires s != {}
    ensures exists k :: k in s && forall j :: j in s ==> j <= k
  {
    var x :| x in s;
    if s != {x} {
      HasLargest(s - {x});
      var k :| k in s - {x} && forall j :: j in s - {x} ==> j <= k;
      var m := if x <= k then k else x;
      forall j | j in s
        ensures j <= m
      {
        if j != x {
          assert j in s - {x};
        }
      }
    }
  }

  /** The largest key of the table, 0 for an empty one. */
  function LargestKey<T>(rows: map<nat, T>): (k: nat)
    ensures forall id :: id in rows ==> id <= k
    ensures rows != map[] ==> k in rows
  {
    if rows == map[] then 0
    else
      HasLargest(rows.Keys);
      var k :| k in rows && forall j :: j in rows ==> j <= k;
      k
  }

  /** The id the next insert receives: positive and above every stored key. */
  function NextId<T>(rows: map<nat, T>): (id: nat)
    ensures 1 <= id && id !in rows
    ensures forall k :: k in rows ==> k < id
  {
    LargestKey(rows) + 1
  }
}
