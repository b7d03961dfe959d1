/**
 * The `registration_requests` table as a sequence of rows, and the two writes
 * the components issue against it: the insert of a registration and the
 * status update keyed by e-mail.
 */
module RegistrationTable {
  import opened RegistrationStorage
  import opened Effects

  /** A registration starts `pending` (the column default) and becomes `verified`. */
  datatype Status = Pending | Verified

  datatype StoredRow = StoredRow(row: RegistrationRow, status: Status)

  /** The table after a successful insert of `row`. */
  function Inserted(table: seq<StoredRow>, row: RegistrationRow): (r: seq<StoredRow>)
    ensures |r| == |table| + 1 && r[..|table|] == table
    ensures r[|table|] == StoredRow(row, Pending)
  {
    table + [StoredRow(row, Pending)]
  }

  /** `update({ status: 'verified' }).eq('email', email)` */
  function MarkVerified(table: seq<StoredRow>, email: string): (r: seq<StoredRow>)
    ensures |r| == |table|
    ensures forall i :: 0 <= i < |table| ==> r[i].row == table[i].row
    ensures forall i :: 0 <= i < |table| ==>
      r[i].status == if table[i].row.email == email then Verified else table[i].status
  {
    if table == [] then []
    else
      var first := if table[0].row.email == email then table[0].(status := Verified) else table[0];
      [first] + MarkVerified(table[1..], email)
  }

  /** Rows of other e-mail addresses are left exactly as they were. */
  lemma MarkVerifiedFrame(table: seq<StoredRow>, email: string, i: nat)
    requires i < |table| && table[i].row.email != email
    ensures MarkVerified(table, email)[i] == table[i]
  {
  }

  /** A second identical update changes nothing. */
  lemma MarkVerifiedIdempotent(table: seq<StoredRow>, email: string)
    ensures MarkVerified(MarkVerified(table, email), email) == MarkVerified(table, email)
  {
    var once := MarkVerified(table, email);
    var twice := MarkVerified(once, email);
    assert |twice| == |once|;
    forall i | 0 <= i < |once| ensures twice[i] == once[i] {
    }
  }

  /** The update never takes a row back from verified to pending. */
  lemma MarkVerifiedMonotone(table: seq<StoredRow>, email: string, i: nat)
    requires i < |table| && table[i].status == Verified
    ensures MarkVerified(table, email)[i].status == Verified
  {
  }

  /** Updates for two addresses give the same table in either order. */
  lemma MarkVerifiedCommutes(table: seq<StoredRow>, a: string, b: string)
    ensures MarkVerified(MarkVerified(table, a), b) == MarkVerified(MarkVerified(table, b), a)
  {
    var ab := MarkVerified(MarkVerified(table, a), b);
    var ba := MarkVerified(MarkVerified(table, b), a);
    forall i | 0 <= i < |table| ensures ab[i] == ba[i] {
    }
  }

  /** Verifying the address of a registration just inserted marks that row verified. */
  lemma VerifyAfterInsert(table: seq<StoredRow>, row: RegistrationRow)
    ensures MarkVerified(Inserted(table, row), row.email)[|table|] == StoredRow(row, Verified)
  {
  }

  /** What a write does to the table once the backend carries it out; other effects leave it. */
  function Perform(table: seq<StoredRow>, e: Effect): (r: seq<StoredRow>)
    ensures !IsWrite(e) ==> r == table
    ensures |r| == if e.InsertRegistration? then |table| + 1 else |table|
    ensures forall i :: 0 <= i < |table| ==> r[i].row == table[i].row
  {
    match e
    case InsertRegistration(row) => Inserted(table, row)
    case UpdateStatus(email) => MarkVerified(table, email)
    case _ => table
  }

  /**
   * The writes of a trace, carried out in order. Rows are only ever appended,
   * and a stored registration's fields never change: only its status does.
   */
  function PerformAll(table: seq<StoredRow>, effects: seq<Effect>): (r: seq<StoredRow>)
    ensures |table| <= |r| <= |table| + WriteCount(effects)
    ensures forall i :: 0 <= i < |table| ==> r[i].row == table[i].row
    decreases effects
  {
    if effects == [] then table else PerformAll(Perform(table, effects[0]), effects[1..])
  }

  /**
   * A write as it settles: carried out when the call resolved, and taken to
   * leave the table as it was when the call returned an error or threw.
   */
  function Settle(table: seq<StoredRow>, e: Effect, o: Outcome): (r: seq<StoredRow>)
    ensures o.Resolved? || r == table
  {
    if o.Resolved? then Perform(table, e) else table
  }

  /** A trace without writes leaves the table as it was. */
  lemma {:induction false} PerformAllNoWrites(table: seq<StoredRow>, effects: seq<Effect>)
    requires WriteCount(effects) == 0
    ensures PerformAll(table, effects) == table
  {
    if effects != [] {
      assert !IsWrite(effects[0]);
      PerformAllNoWrites(table, effects[1..]);
    }
  }

  lemma {:induction false} PerformAllAppend(table: seq<StoredRow>, a: seq<Effect>, b: seq<Effect>)
    ensures PerformAll(table, a + b) == PerformAll(PerformAll(table, a), b)
    decreases a
  {
    if a == [] {
      assert a + b == b;
    } else {
      assert (a + b)[0] == a[0] && (a + b)[1..] == a[1..] + b;
      PerformAllAppend(Perform(table, a[0]), a[1..], b);
    }
  }
}
