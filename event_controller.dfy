/**
 * The join workflow of EventController: joining an event (owner, existing
 * participant, existing request, free seat or waitlist), reading one's own
 * join status, and the owner's approve and reject actions.
 *
 * Each handler is modelled on the event it loaded; the caller's user id and
 * the current time are parameters. Repository loads and saves are not
 * modelled.
 */
module EventJoins {

  import opened Wrappers
  import opened Text
  import opened Events

  /** The position of the first join request of `userId`, as the for-loop in `findJoinRequestForUser` finds it. */
  function FindJoinRequest(reqs: seq<JoinRequest>, userId: string): Option<nat> {
    FirstIndex(reqs, (jr: JoinRequest) => jr.userId == userId)
  }

  /** The stream filter in `ensureParticipant`: the requests of everybody else, in order. */
  function WithoutUser(reqs: seq<JoinRequest>, userId: string): (r: seq<JoinRequest>)
    ensures |r| <= |reqs|
    ensures forall i :: 0 <= i < |r| ==> r[i].userId != userId && r[i] in reqs
    ensures forall i :: 0 <= i < |reqs| && reqs[i].userId != userId ==> reqs[i] in r
  {
    if reqs == [] then []
    else (if reqs[0].userId == userId then [] else [reqs[0]]) + WithoutUser(reqs[1..], userId)
  }

  /** The filter drops every request of `userId` and keeps each other request as often as it occurs. */
  lemma {:induction false} WithoutUserCounts(reqs: seq<JoinRequest>, userId: string)
    ensures forall jr :: multiset(WithoutUser(reqs, userId))[jr] == if jr.userId == userId then 0 else multiset(reqs)[jr]
  {
    if reqs != [] {
      WithoutUserCounts(reqs[1..], userId);
      assert reqs == [reqs[0]] + reqs[1..];
    }
  }

  /** The filter works request by request, so it keeps the order of the requests it keeps. */
  lemma {:induction false} WithoutUserAppend(a: seq<JoinRequest>, b: seq<JoinRequest>, userId: string)
    ensures WithoutUser(a + b, userId) == WithoutUser(a, userId) + WithoutUser(b, userId)
  {
    if a == [] {
      assert a + b == b;
    } else {
      assert (a + b)[0] == a[0] && (a + b)[1..] == a[1..] + b;
      WithoutUserAppend(a[1..], b, userId);
    }
  }

  /** `maxParticipants == null || participants.size() < maxParticipants`. */
  predicate HasCapacity(participants: set<string>, maxParticipants: Option<int>) {
    maxParticipants.None? || |participants| < maxParticipants.value
  }

  /** Filtering out a user with no request changes nothing. */
  lemma {:induction false} WithoutAbsentUser(reqs: seq<JoinRequest>, userId: string)
    requires FindJoinRequest(reqs, userId).None?
    ensures WithoutUser(reqs, userId) == reqs
  {
    if reqs != [] {
      WithoutAbsentUser(reqs[1..], userId);
    }
  }

  /** Changing the request that the search finds, but not its user, does not move the search. */
  lemma {:induction false} FindAfterUpdate(reqs: seq<JoinRequest>, userId: string, i: nat, jr: JoinRequest)
    requires FindJoinRequest(reqs, userId) == Some(i) && jr.userId == userId
    ensures FindJoinRequest(reqs[i := jr], userId) == Some(i)
  {
    if i > 0 {
      assert reqs[i := jr][1..] == reqs[1..][i - 1 := jr];
      FindAfterUpdate(reqs[1..], userId, i - 1, jr);
    }
  }

  /** A request appended for a user with none is the one the search finds. */
  lemma {:induction false} FindAfterAppend(reqs: seq<JoinRequest>, userId: string, jr: JoinRequest)
    requires FindJoinRequest(reqs, userId).None? && jr.userId == userId
    ensures FindJoinRequest(reqs + [jr], userId) == Some(|reqs|)
  {
    if reqs != [] {
      assert (reqs + [jr])[1..] == reqs[1..] + [jr];
      FindAfterAppend(reqs[1..], userId, jr);
    }
  }

  /**
   * `findOrCreateJoinRequest`: the position of the user's request and the
   * list afterwards; a PENDING request is appended only when there is none.
   */
  function FindOrCreateStep(reqs: seq<JoinRequest>, userId: string, now: nat): (r: (nat, seq<JoinRequest>))
    ensures r.0 < |r.1| && FindJoinRequest(r.1, userId) == Some(r.0)
    ensures FindJoinRequest(reqs, userId).Some? ==> r == (FindJoinRequest(reqs, userId).value, reqs)
    ensures FindJoinRequest(reqs, userId).None? ==>
      r == (|reqs|, reqs + [JoinRequest(userId, Pending, Some(now))])
  {
    var found := FindJoinRequest(reqs, userId);
    if found.Some? then (found.value, reqs)
    else
      FindAfterAppend(reqs, userId, JoinRequest(userId, Pending, Some(now)));
      (|reqs|, reqs + [JoinRequest(userId, Pending, Some(now))])
  }

  /** The request with its status set, and its time set when it had none. */
  function Decided(jr: JoinRequest, status: JoinStatus, now: nat): JoinRequest {
    jr.(status := status, requestedAt := if jr.requestedAt.None? then Some(now) else jr.requestedAt)
  }

  /**
   * `approveUser`: false for the CONFLICT it throws when the event is full;
   * otherwise the user's request is APPROVED and the user participates.
   */
  function ApproveStep(maxParticipants: Option<int>, participants: set<string>, reqs: seq<JoinRequest>,
                       userId: string, now: nat): (r: (bool, set<string>, seq<JoinRequest>))
    ensures r.0 <==> HasCapacity(participants, maxParticipants)
    ensures !r.0 ==> r.1 == participants && r.2 == reqs
    ensures r.0 ==> r.1 == participants + {userId}
    ensures r.0 ==> var i := FindJoinRequest(r.2, userId);
      i.Some? && r.2[i.value].status == Approved && r.2[i.value].requestedAt.Some?
    ensures r.0 ==> var c := FindOrCreateStep(reqs, userId, now);
      |r.2| == |c.1| && (forall j :: 0 <= j < |r.2| && j != c.0 ==> r.2[j] == c.1[j])
  {
    if !HasCapacity(participants, maxParticipants) then (false, participants, reqs)
    else
      var c := FindOrCreateStep(reqs, userId, now);
      var reqs' := c.1[c.0 := Decided(c.1[c.0], Approved, now)];
      FindAfterUpdate(c.1, userId, c.0, Decided(c.1[c.0], Approved, now));
      (true, participants + {userId}, reqs')
  }

  /** `rejectUser`: the user's request is REJECTED and the user no longer participates. */
  function RejectStep(participants: set<string>, reqs: seq<JoinRequest>, userId: string, now: nat): (r: (set<string>, seq<JoinRequest>))
    ensures r.0 == participants - {userId}
    ensures var i := FindJoinRequest(r.1, userId);
      i.Some? && r.1[i.value].status == Rejected && r.1[i.value].requestedAt.Some?
    ensures var c := FindOrCreateStep(reqs, userId, now);
      |r.1| == |c.1| && (forall j :: 0 <= j < |r.1| && j != c.0 ==> r.1[j] == c.1[j])
  {
    var c := FindOrCreateStep(reqs, userId, now);
    FindAfterUpdate(c.1, userId, c.0, Decided(c.1[c.0], Rejected, now));
    (participants - {userId}, c.1[c.0 := Decided(c.1[c.0], Rejected, now)])
  }

  /** `myJoinStatus`: a participant is APPROVED; otherwise the status of the first request; otherwise NONE. */
  function JoinStatusOf(participants: set<string>, reqs: seq<JoinRequest>, userId: string): (s: JoinStatus)
    ensures userId in participants ==> s == Approved
    ensures userId !in participants && FindJoinRequest(reqs, userId).Some? ==>
      s == reqs[FindJoinRequest(reqs, userId).value].status
    ensures userId !in participants && FindJoinRequest(reqs, userId).None? ==> s == NoJoin
  {
    if userId in participants then Approved
    else
      var i := FindJoinRequest(reqs, userId);
      if i.Some? then reqs[i.value].status else NoJoin
  }

  /**
   * `requestJoin` by `userId` on an event owned by `owner`: the status
   * returned, and the participants and requests afterwards.
   */
  function RequestJoinStep(owner: Option<string>, maxParticipants: Option<int>, participants: set<string>,
                           reqs: seq<JoinRequest>, userId: string, now: nat): (r: (JoinStatus, set<string>, seq<JoinRequest>))
    ensures owner == Some(userId) ==> r == (Approved, participants + {userId}, WithoutUser(reqs, userId))
    ensures owner != Some(userId) && userId in participants ==> r == (Approved, participants, reqs)
    ensures owner != Some(userId) && userId !in participants && FindJoinRequest(reqs, userId).Some? ==>
      r == (reqs[FindJoinRequest(reqs, userId).value].status, participants, reqs)
    ensures owner != Some(userId) && userId !in participants && FindJoinRequest(reqs, userId).None? ==>
      if HasCapacity(participants, maxParticipants) then r == (Approved, participants + {userId}, reqs)
      else r == (Waitlisted, participants, reqs + [JoinRequest(userId, Waitlisted, Some(now))])
  {
    if owner == Some(userId) then (Approved, participants + {userId}, WithoutUser(reqs, userId))
    else if userId in participants then (Approved, participants, reqs)
    else
      var existing := FindJoinRequest(reqs, userId);
      if existing.Some? then (reqs[existing.value].status, participants, reqs)
      else if HasCapacity(participants, maxParticipants) then
        WithoutAbsentUser(reqs, userId);
        (Approved, participants + {userId}, WithoutUser(reqs, userId))
      else (Waitlisted, participants, reqs + [JoinRequest(userId, Waitlisted, Some(now))])
  }

  /** After joining, `myJoinStatus` reports the status `requestJoin` returned. */
  lemma JoinThenStatus(owner: Option<string>, maxParticipants: Option<int>, participants: set<string>,
                       reqs: seq<JoinRequest>, userId: string, now: nat)
    ensures var r := RequestJoinStep(owner, maxParticipants, participants, reqs, userId, now);
      JoinStatusOf(r.1, r.2, userId) == r.0
  {
    if owner != Some(userId) && userId !in participants && FindJoinRequest(reqs, userId).None?
       && !HasCapacity(participants, maxParticipants) {
      FindAfterAppend(reqs, userId, JoinRequest(userId, Waitlisted, Some(now)));
    }
  }

  /** Asking to join again returns the same status and changes nothing more. */
  lemma JoinTwice(owner: Option<string>, maxParticipants: Option<int>, participants: set<string>,
                  reqs: seq<JoinRequest>, userId: string, now: nat, later: nat)
    ensures var r := RequestJoinStep(owner, maxParticipants, participants, reqs, userId, now);
      RequestJoinStep(owner, maxParticipants, r.1, r.2, userId, later) == r
  {
    var r := RequestJoinStep(owner, maxParticipants, participants, reqs, userId, now);
    if owner == Some(userId) {
      WithoutAbsentUser(r.2, userId);
    } else if userId !in participants && FindJoinRequest(reqs, userId).None?
              && !HasCapacity(participants, maxParticipants) {
      FindAfterAppend(reqs, userId, JoinRequest(userId, Waitlisted, Some(now)));
    }
  }

  /** Nobody but the owner can join past the limit: a non-owner never pushes participants beyond `maxParticipants`. */
  lemma JoinRespectsCapacity(owner: Option<string>, m: int, participants: set<string>,
                             reqs: seq<JoinRequest>, userId: string, now: nat)
    requires owner != Some(userId) && |participants| <= m
    ensures |RequestJoinStep(owner, Some(m), participants, reqs, userId, now).1| <= m
  {
  }

  /** After an approval, the user's status reads APPROVED; after a rejection, REJECTED. */
  lemma DecisionThenStatus(maxParticipants: Option<int>, participants: set<string>, reqs: seq<JoinRequest>, userId: string, now: nat)
    ensures var a := ApproveStep(maxParticipants, participants, reqs, userId, now);
      a.0 ==> JoinStatusOf(a.1, a.2, userId) == Approved
    ensures var r := RejectStep(participants, reqs, userId, now);
      JoinStatusOf(r.0, r.1, userId) == Rejected
  {
  }

  /** `changeJoinStatus`'s action: "" for a missing one, otherwise trimmed and lower-cased. */
  function ParseAction(action: Option<string>): string {
    if action.None? then "" else ToLower(Trim(action.value))
  }

  datatype Outcome =
    | Updated(status: JoinStatus, participantsCount: nat)
    | Failed(httpStatus: nat, message: string)

  /**
   * `changeJoinStatus` by `callerId` for `userId`: the response, and the
   * participants and requests afterwards.
   */
  function ChangeJoinStatusStep(owner: Option<string>, callerId: string, maxParticipants: Option<int>,
                                participants: set<string>, reqs: seq<JoinRequest>, userId: string,
                                action: Option<string>, now: nat): (r: (Outcome, set<string>, seq<JoinRequest>))
    ensures owner != Some(callerId) ==> r == (Failed(403, "Not event owner"), participants, reqs)
    ensures owner == Some(callerId) && ParseAction(action) != "approve" && ParseAction(action) != "reject" ==>
      r == (Failed(400, "action must be 'approve' or 'reject'"), participants, reqs)
    ensures owner == Some(callerId) && ParseAction(action) == "approve" ==>
      var a := ApproveStep(maxParticipants, participants, reqs, userId, now);
      if a.0 then r == (Updated(Approved, |a.1|), a.1, a.2)
      else r == (Failed(409, "Event is at capacity"), participants, reqs)
    ensures owner == Some(callerId) && ParseAction(action) == "reject" ==>
      var j := RejectStep(participants, reqs, userId, now);
      r == (Updated(Rejected, |j.0|), j.0, j.1)
  {
    if owner != Some(callerId) then (Failed(403, "Not event owner"), participants, reqs)
    else
      var act := ParseAction(action);
      if act == "approve" then
        var a := ApproveStep(maxParticipants, participants, reqs, userId, now);
        if !a.0 then (Failed(409, "Event is at capacity"), participants, reqs)
        else
          var c := FindOrCreateStep(a.2, userId, now);
          (Updated(a.2[c.0].status, |a.1|), a.1, c.1)
      else if act == "reject" then
        var j := RejectStep(participants, reqs, userId, now);
        var c := FindOrCreateStep(j.1, userId, now);
        (Updated(j.1[c.0].status, |j.0|), j.0, c.1)
      else (Failed(400, "action must be 'approve' or 'reject'"), participants, reqs)
  }

  /** `findJoinRequestForUser`: the for-loop over the requests. */
  method FindJoinRequestForUser(e: Event, userId: string) returns (found: Option<nat>)
    ensures found == FindJoinRequest(e.joinRequests, userId)
  {
    var reqs := e.joinRequests;
    var i := 0;
    while i < |reqs|
      invariant 0 <= i <= |reqs|
      invariant forall j :: 0 <= j < i ==> reqs[j].userId != userId
    {
      if reqs[i].userId == userId {
        FirstMatch(reqs, userId, i);
        return Some(i);
      }
      i := i + 1;
    }
    NoMatch(reqs, userId);
    return None;
  }

  lemma {:induction false} FirstMatch(reqs: seq<JoinRequest>, userId: string, i: nat)
    requires i < |reqs| && reqs[i].userId == userId
    requires forall j :: 0 <= j < i ==> reqs[j].userId != userId
    ensures FindJoinRequest(reqs, userId) == Some(i)
  {
    if i > 0 {
      FirstMatch(reqs[1..], userId, i - 1);
    }
  }

  lemma {:induction false} NoMatch(reqs: seq<JoinRequest>, userId: string)
    requires forall j :: 0 <= j < |reqs| ==> reqs[j].userId != userId
    ensures FindJoinRequest(reqs, userId).None?
  {
    if reqs != [] {
      NoMatch(reqs[1..], userId);
    }
  }

  /** `ensureParticipant`: drops all of the user's requests and adds the user to the participants. */
  method EnsureParticipant(e: Event, userId: string)
    modifies e`participants, e`joinRequests
    ensures e.joinRequests == WithoutUser(old(e.joinRequests), userId)
    ensures e.participants == old(e.participants) + {userId}
  {
    e.joinRequests := WithoutUser(e.joinRequests, userId);
    e.participants := e.participants + {userId};
  }

  method FindOrCreateJoinRequest(e: Event, userId: string, now: nat) returns (index: nat)
    modifies e`joinRequests
    ensures (index, e.joinRequests) == FindOrCreateStep(old(e.joinRequests), userId, now)
  {
    var found := FindJoinRequestForUser(e, userId);
    if found.Some? {
      return found.value;
    }
    index := |e.joinRequests|;
    e.joinRequests := e.joinRequests + [JoinRequest(userId, Pending, Some(now))];
  }

  /** Returns false where the source throws CONFLICT. */
  method ApproveUser(e: Event, userId: string, now: nat) returns (ok: bool)
    modifies e`participants, e`joinRequests
    ensures (ok, e.participants, e.joinRequests)
      == ApproveStep(e.maxParticipants, old(e.participants), old(e.joinRequests), userId, now)
  {
    var hasCapacity := e.maxParticipants.None? || |e.participants| < e.maxParticipants.value;
    if !hasCapacity {
      return false;
    }
    var i := FindOrCreateJoinRequest(e, userId, now);
    e.joinRequests := e.joinRequests[i := Decided(e.joinRequests[i], Approved, now)];
    e.participants := e.participants + {userId};
    return true;
  }

  method RejectUser(e: Event, userId: string, now: nat)
    modifies e`participants, e`joinRequests
    ensures (e.participants, e.joinRequests) == RejectStep(old(e.participants), old(e.joinRequests), userId, now)
  {
    var i := FindOrCreateJoinRequest(e, userId, now);
    e.joinRequests := e.joinRequests[i := Decided(e.joinRequests[i], Rejected, now)];
    e.participants := e.participants - {userId};
  }

  method RequestJoin(e: Event, userId: string, now: nat) returns (status: JoinStatus)
    modifies e`participants, e`joinRequests
    ensures (status, e.participants, e.joinRequests)
      == RequestJoinStep(e.createdByUserId, e.maxParticipants, old(e.participants), old(e.joinRequests), userId, now)
  {
    if e.createdByUserId == Some(userId) {
      EnsureParticipant(e, userId);
      return Approved;
    }
    if userId in e.participants {
      return Approved;
    }
    var existing := FindJoinRequestForUser(e, userId);
    if existing.Some? {
      return e.joinRequests[existing.value].status;
    }
    var hasCapacity := e.maxParticipants.None? || |e.participants| < e.maxParticipants.value;
    if hasCapacity {
      EnsureParticipant(e, userId);
      WithoutAbsentUser(old(e.joinRequests), userId);
      return Approved;
    }
    e.joinRequests := e.joinRequests + [JoinRequest(userId, Waitlisted, Some(now))];
    return Waitlisted;
  }

  method MyJoinStatus(e: Event, userId: string) returns (status: JoinStatus)
    ensures status == JoinStatusOf(e.participants, e.joinRequests, userId)
  {
    if userId in e.participants {
      return Approved;
    }
    var jr := FindJoinRequestForUser(e, userId);
    if jr.Some? {
      return e.joinRequests[jr.value].status;
    }
    return NoJoin;
  }

  /** `callerId` is the id of the authenticated user; the response replaces the map the source returns. */
  method ChangeJoinStatus(e: Event, callerId: string, userId: string, action: Option<string>, now: nat) returns (outcome: Outcome)
    modifies e`participants, e`joinRequests
    ensures (outcome, e.participants, e.joinRequests)
      == ChangeJoinStatusStep(e.createdByUserId, callerId, e.maxParticipants, old(e.participants), old(e.joinRequests),
                              userId, action, now)
  {
    if e.createdByUserId != Some(callerId) {
      return Failed(403, "Not event owner");
    }
    var act := if action.None? then "" else ToLower(Trim(action.value));
    if act == "approve" {
      var ok := ApproveUser(e, userId, now);
      if !ok {
        return Failed(409, "Event is at capacity");
      }
    } else if act == "reject" {
      RejectUser(e, userId, now);
    } else {
      return Failed(400, "action must be 'approve' or 'reject'");
    }
    var i := FindOrCreateJoinRequest(e, userId, now);
    outcome := Updated(e.joinRequests[i].status, |e.participants|);
  }
}
