/**
 * Values shared by every part of the model: optional values, the error
 * outcomes the repositories and connection managers report, and strictly
 * increasing id sequences (the order in which a table scan delivers rows).
 */
module Common {

  datatype Option<+T> = None | Some(value: T) {
    /** Rust's `unwrap_or` / `unwrap_or_default`. */
    function GetOr(default: T): T {
      match this
      case Some(v) => v
      case None => default
    }
  }

  /** Every failure the modelled core can report, with the message the
      source gives it where the source writes one. */
  datatype Error =
    | NoConnection            // "No database connection"
    | MedicationIdRequired    // "Medication ID is required for update"
    | ReminderIdRequired      // "Reminder ID is required for update"
    | SetTypeFailed           // "Failed to set database type"
    | SetSeaFailed            // "Failed to set SeaORM connection"
    | SetConnectionFailed     // "Failed to set database connection"
    | SetHandleFailed         // "Failed to set database handle"
    | NotInitialized          // "Database not initialized"
    | NoActiveConnection      // "No active database connection"
    | ConnectFailed           // building, connecting or creating the tables failed
    | SyncFailed              // the replica round trip failed
    | NullColumn              // a non-NULL read met a NULL column
    | BadTimestamp            // a timestamp column did not parse

  datatype Result<+T> = Ok(value: T) | Err(error: Error)

  predicate Increasing(s: seq<int>) {
    forall i, j :: 0 <= i < j < |s| ==> s[i] < s[j]
  }

  /** A non-empty set has a member. */
  lemma Inhabited(s: set<int>)
    requires s != {}
    ensures exists y :: y in s
  {
    if forall y :: y !in s {
      assert false;
    }
  }

  lemma {:induction false} HasMax(s: set<int>)
    requires s != {}
    ensures exists m :: m in s && forall x :: x in s ==> x <= m
    decreases s
  {
    Inhabited(s);
    var y :| y in s;
    if s == {y} {
      assert forall x :: x in s ==> x <= y;
    } else {
      var rest := s - {y};
      assert rest != {};
      HasMax(rest);
      var m :| m in rest && forall x :: x in rest ==> x <= m;
      var big := if m < y then y else m;
      forall x | x in s ensures x <= big {
        if x != y { assert x in rest; }
      }
      assert big in s;
    }
  }

  /** The largest member of a non-empty set. */
  function MaxOf(s: set<int>): (m: int)
    requires s != {}
    ensures m in s && forall x :: x in s ==> x <= m
  {
    HasMax(s);
    var m :| m in s && forall x :: x in s ==> x <= m;
    m
  }

  /** The members of `s` in ascending order: the order of a rowid scan. */
  function SortedIds(s: set<int>): (r: seq<int>)
    ensures |r| == |s|
    ensures forall x {:trigger x in r} :: x in r <==> x in s
    ensures Increasing(r)
    decreases s
  {
    if s == {} then []
    else
      var m := MaxOf(s);
      var rest := SortedIds(s - {m});
      assert forall x :: x in rest ==> x < m;
      IncreasingSnoc(rest, m);
      rest + [m]
  }

  /** The members of `ids` that lie in `p`, in their original order: the
      rows of a scan that satisfy a `WHERE` clause. */
  function KeepIn(ids: seq<int>, p: set<int>): (r: seq<int>)
    ensures forall x {:trigger x in r} :: x in r <==> x in ids && x in p
    ensures |r| <= |ids|
    ensures Increasing(ids) ==> Increasing(r)
  {
    if ids == [] then []
    else
      var last := ids[|ids| - 1];
      var front := KeepIn(ids[..|ids| - 1], p);
      PrefixBelowLast(ids, ids[..|ids| - 1], last);
      if last in p then
        IncreasingSnoc(front, last);
        front + [last]
      else front
  }

  lemma NonEmptyHasMember(s: seq<int>)
    ensures s == [] || s[0] in s
  {
  }

  lemma PrefixBelowLast(ids: seq<int>, front: seq<int>, last: int)
    requires ids == front + [last]
    ensures Increasing(ids) ==> Increasing(front)
    ensures Increasing(ids) ==> forall x :: x in front ==> x < last
  {
    if Increasing(ids) {
      forall i, j | 0 <= i < j < |front| ensures front[i] < front[j] {
        assert front[i] == ids[i] && front[j] == ids[j];
      }
      forall x | x in front ensures x < last {
        var i :| 0 <= i < |front| && front[i] == x;
        assert ids[i] == x && ids[|front|] == last;
      }
    }
  }

  lemma IncreasingSnoc(a: seq<int>, x: int)
    ensures Increasing(a) && (forall y :: y in a ==> y < x) ==> Increasing(a + [x])
  {
    if Increasing(a) && (forall y :: y in a ==> y < x) {
      forall i, j | 0 <= i < j < |a| + 1 ensures (a + [x])[i] < (a + [x])[j] {
        assert (a + [x])[i] == a[i];
        if j == |a| {
          assert a[i] in a;
        }
      }
    }
  }

  lemma KeepInSnoc(ids: seq<int>, x: int, p: set<int>)
    ensures KeepIn(ids + [x], p) == KeepIn(ids, p) + (if x in p then [x] else [])
  {
    assert (ids + [x])[..|ids|] == ids;
  }

  /** Filtering twice is filtering once by both conditions. */
  lemma {:induction false} KeepInTwice(ids: seq<int>, p: set<int>, q: set<int>)
    ensures KeepIn(KeepIn(ids, p), q) == KeepIn(ids, p * q)
  {
    if ids != [] {
      var front := ids[..|ids| - 1];
      var last := ids[|ids| - 1];
      KeepInTwice(front, p, q);
      assert KeepIn(ids, p) == KeepIn(front, p) + (if last in p then [last] else []);
      assert KeepIn(ids, p * q) == KeepIn(front, p * q) + (if last in p * q then [last] else []);
      if last in p {
        assert KeepIn(ids, p) == KeepIn(front, p) + [last];
        KeepInSnoc(KeepIn(front, p), last, q);
        assert KeepIn(KeepIn(ids, p), q)
            == KeepIn(KeepIn(front, p), q) + (if last in q then [last] else []);
      } else {
        assert KeepIn(ids, p) == KeepIn(front, p);
      }
    }
  }
}
