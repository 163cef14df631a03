/**
 * VerificationAdminController: an administrator lists the users waiting for
 * government-ID verification and decides on one of them.
 */
module VerificationAdmin {

  import opened Wrappers
  import opened Users

  const UserNotFound := "User not found"
  const StatusMustBeDecision := "Status must be VERIFIED or REJECTED"

  /** One listed user, as the row `pending` builds for it; `None` stands for `null`. */
  datatype PendingRow = PendingRow(id: string, phone: Option<string>, displayName: Option<string>, status: string)

  /** The users with status PENDING, in repository order (`findAllByGovIdVerificationStatus`). */
  function PendingUsers(users: seq<User>): (p: seq<User>)
    reads users
    ensures forall u :: u in p ==> u in users && u.govIdVerificationStatus == Pending
    ensures forall u :: u in users && u.govIdVerificationStatus == Pending ==> multiset(p)[u] == multiset(users)[u]
  {
    if users == [] then []
    else
      var rest := PendingUsers(users[1..]);
      assert users == [users[0]] + users[1..];
      if users[0].govIdVerificationStatus == Pending then [users[0]] + rest else rest
  }

  function RowOf(u: User): PendingRow
    reads u
  {
    PendingRow(u.id, u.phone, u.displayName, u.govIdVerificationStatus.Name())
  }

  /** The rows of `users`, one per user, in order. */
  function Rows(users: seq<User>): (rows: seq<PendingRow>)
    reads users
    ensures |rows| == |users|
    ensures forall i :: 0 <= i < |users| ==> rows[i] == RowOf(users[i])
  {
    if users == [] then [] else [RowOf(users[0])] + Rows(users[1..])
  }

  /** `pending`, with a missing phone or display name listed as `null`. */
  function PendingRows(users: seq<User>): (rows: seq<PendingRow>)
    reads users
  {
    Rows(PendingUsers(users))
  }

  /** Every PENDING user of the repository is among those listed. */
  lemma PendingUserListed(users: seq<User>, u: User)
    requires u in users && u.govIdVerificationStatus == Pending
    ensures u in PendingUsers(users)
  {
    var p: seq<User> := PendingUsers(users);
    assert u in multiset(users);
    assert u in multiset(p);
  }

  /** `pending` lists exactly the PENDING users: one row each, every row PENDING. */
  lemma PendingListsExactlyPending(users: seq<User>)
    ensures forall i :: 0 <= i < |PendingRows(users)| ==> PendingRows(users)[i].status == "PENDING"
    ensures forall u :: u in users && u.govIdVerificationStatus == Pending ==>
      RowOf(u) in PendingRows(users)
  {
    var p := PendingUsers(users);
    var rows := PendingRows(users);
    forall i | 0 <= i < |rows|
      ensures rows[i].status == "PENDING"
    {
      assert p[i] in p;
    }
    forall u | u in users && u.govIdVerificationStatus == Pending
      ensures RowOf(u) in rows
    {
      PendingUserListed(users, u);
      var i :| 0 <= i < |p| && p[i] == u;
      assert rows[i] == RowOf(u);
    }
  }

  /** Whether `Map.of` would receive a `null` value for this user. */
  predicate HasNullColumn(u: User)
    reads u
  {
    u.phone.None? || u.displayName.None?
  }

  /**
   * `pending` as written: `Map.of` throws NullPointerException on a `null`
   * value, so one PENDING user without a phone or a display name makes the
   * whole listing fail (`None`).
   */
  function PendingAsWritten(users: seq<User>): (r: Option<seq<PendingRow>>)
    reads users
    ensures r.None? <==> exists u :: u in PendingUsers(users) && HasNullColumn(u)
    ensures r.Some? ==> r.value == PendingRows(users)
  {
    var p := PendingUsers(users);
    if exists u :: u in p && HasNullColumn(u) then None else Some(PendingRows(users))
  }

  /** A PENDING user who registered without a display name hides every other pending request. */
  lemma UnnamedPendingUserBreaksListing(users: seq<User>, u: User)
    requires u in users && u.govIdVerificationStatus == Pending && u.displayName.None?
    ensures PendingAsWritten(users).None?
  {
    PendingUserListed(users, u);
    assert u in PendingUsers(users) && HasNullColumn(u);
  }

  datatype DecisionResponse =
    | Decided(userId: string, status: string)
    | Error(httpStatus: nat, reason: string)

  /** The status a decision body names, if it is one `decide` accepts. */
  function ParseDecision(status: Option<string>): (s: Option<VerificationStatus>)
    ensures s.Some? <==> status == Some("VERIFIED") || status == Some("REJECTED")
    ensures s.Some? ==> s.value.Name() == status.value && (s.value == Verified || s.value == Rejected)
  {
    if status == Some("VERIFIED") then Some(Verified)
    else if status == Some("REJECTED") then Some(Rejected)
    else None
  }

  /**
   * `decide` on the user `userId`, whose current status is `current` (`None`
   * when no such user exists): the response and the status afterwards.
   */
  function DecideStep(userId: string, current: Option<VerificationStatus>, status: Option<string>): (r: (DecisionResponse, Option<VerificationStatus>))
    ensures current.None? ==> r == (Error(404, UserNotFound), None)
    ensures current.Some? && ParseDecision(status).None? ==> r == (Error(400, StatusMustBeDecision), current)
    ensures current.Some? && ParseDecision(status).Some? ==>
      r.1 == ParseDecision(status) && r.0 == Decided(userId, status.value)
  {
    if current.None? then (Error(404, UserNotFound), None)
    else
      match ParseDecision(status)
      case None => (Error(400, StatusMustBeDecision), current)
      case Some(s) => (Decided(userId, s.Name()), Some(s))
  }

  /** A decision does not depend on the current status: a verified user can be rejected and back. */
  lemma DecisionIgnoresCurrentStatus(userId: string, a: VerificationStatus, b: VerificationStatus, status: Option<string>)
    requires ParseDecision(status).Some?
    ensures DecideStep(userId, Some(a), status) == DecideStep(userId, Some(b), status)
  {
  }

  /** `decide`: `target` is the user with the path's id, `null` when there is none. */
  method Decide(target: User?, status: Option<string>) returns (resp: DecisionResponse)
    modifies Found(target)`govIdVerificationStatus
    ensures target == null ==> resp == Error(404, UserNotFound)
    ensures target != null ==>
      (resp, Some(target.govIdVerificationStatus)) == DecideStep(target.id, Some(old(target.govIdVerificationStatus)), status)
  {
    if target == null {
      return Error(404, UserNotFound);
    }
    if status != Some("VERIFIED") && status != Some("REJECTED") {
      return Error(400, StatusMustBeDecision);
    }
    target.govIdVerificationStatus := if status.value == "VERIFIED" then Verified else Rejected;
    resp := Decided(target.id, target.govIdVerificationStatus.Name());
  }
}
