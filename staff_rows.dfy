/**
 * The `staff_members` lookup both the server hook and the client store run:
 * select the rows of one user and expect exactly one.
 */
module StaffRows {
  import opened Types

  /** The rows belonging to user `uid`. */
  function MatchingRows(rows: seq<StaffMember>, uid: string): (m: seq<StaffMember>)
    ensures forall s :: s in m <==> s in rows && s.userId == uid
    ensures |m| <= |rows|
    ensures (forall s :: s in rows ==> s.userId != uid) ==> m == []
    ensures forall i :: UniqueMatch(rows, uid, i) ==> m == [rows[i]]
  {
    if rows == [] then []
    else
      var rest := MatchingRows(rows[1..], uid);
      assert forall i :: 0 < i && UniqueMatch(rows, uid, i) ==> UniqueMatch(rows[1..], uid, i - 1);
      assert UniqueMatch(rows, uid, 0) ==> rest == [] by {
        if UniqueMatch(rows, uid, 0) {
          forall s | s in rows[1..] ensures s.userId != uid {
            var j :| 0 <= j < |rows| - 1 && rows[1..][j] == s;
            assert rows[j + 1] == s;
          }
        }
      }
      if rows[0].userId == uid then [rows[0]] + rest else rest
  }

  /** A single matching row is the unique row of that user. */
  lemma {:induction false} MatchingRowsOne(rows: seq<StaffMember>, uid: string)
    requires |MatchingRows(rows, uid)| == 1
    ensures exists i :: UniqueMatch(rows, uid, i)
  {
    var rest := MatchingRows(rows[1..], uid);
    if rows[0].userId == uid {
      assert rest == [];
      forall j | 0 < j < |rows| ensures rows[j].userId != uid {
        assert rows[1..][j - 1] == rows[j];
        assert rows[j] !in rest;
      }
      assert UniqueMatch(rows, uid, 0);
    } else {
      MatchingRowsOne(rows[1..], uid);
      var i :| UniqueMatch(rows[1..], uid, i);
      forall j | 0 < j < |rows| && j != i + 1 ensures rows[j].userId != uid {
        assert rows[1..][j - 1] == rows[j];
      }
      assert UniqueMatch(rows, uid, i + 1);
    }
  }

  /** Row `i` is the only row of user `uid`. */
  predicate UniqueMatch(rows: seq<StaffMember>, uid: string, i: int)
  {
    && 0 <= i < |rows| && rows[i].userId == uid
    && forall j :: 0 <= j < |rows| && j != i ==> rows[j].userId != uid
  }

  /** A single-row select: the row when exactly one matches, no data otherwise. */
  function SingleRow(rows: seq<StaffMember>, uid: string): (r: Option<StaffMember>)
    ensures r.Some? ==> r.value in rows && r.value.userId == uid
    ensures (forall s :: s in rows ==> s.userId != uid) ==> r.None?
    ensures forall i :: UniqueMatch(rows, uid, i) ==> r == Some(rows[i])
    ensures r.Some? ==> exists i :: UniqueMatch(rows, uid, i)
  {
    var m := MatchingRows(rows, uid);
    if |m| == 1 then
      MatchingRowsOne(rows, uid);
      Some(m[0])
    else
      assert |m| != 1;
      None
  }
}
