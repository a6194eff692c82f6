/** The signed status changes of change control and computer-system
    validation in app.py: approving or rejecting a change request,
    implementing an approved one, executing a validation test and reviewing
    its result. Each handler checks, in order, that the user is an
    administrator, that the record is in a state the step may start from,
    that the password re-entered for the electronic signature is right and
    that the required form fields are filled in; only then does it write the
    new state.

    The password check is the user's check_password, passed in as a
    boolean; the new signature's id and the moment of signing are
    parameters. Form fields are absent (None) or text, and count as filled
    in when they are non-empty text. */
module ChangeControl {
  import opened Common

  predicate Filled(f: Option<string>) { f.Some? && f.value != "" }

  /** Why a step was refused. `Failed` is the exception raised while the
      signature is built, which is rolled back. */
  datatype Refusal =
    | AccessDenied
    | AlreadyProcessed
    | NotApproved
    | AlreadyExecuted
    | NotExecuted
    | AlreadyReviewed
    | InvalidPassword
    | ReasonRequired
    | FieldsRequired
    | Failed

  /** Who signed, when, and the id of the signature record. */
  datatype Signing = Signing(userId: nat, isAdmin: bool, passwordOk: bool, at: int, signatureId: nat)

  // =====================================================================
  // Change requests

  datatype ChangeState = ChangeState(
    status: string,
    description: string,
    versionAfter: Option<string>,
    approvedBy: Option<nat>,
    approvedDate: Option<int>,
    approvalSignatureId: Option<nat>,
    implementedBy: Option<nat>,
    implementedDate: Option<int>,
    implementationSignatureId: Option<nat>)

  /** The text appended to a description under a heading, as the handlers
      add comments and notes. */
  function Appended(description: string, heading: string, text: string): string {
    description + "\n\n--- " + heading + " ---\n" + text
  }

  /** POST /change-control/request/<id>/approve. The action names the
      decision: "approve" approves and any other text rejects; a missing
      action makes the signature text raise. */
  function Approve(c: ChangeState, who: Signing, action: Option<string>, reason: Option<string>,
                   comments: Option<string>): (r: Result<ChangeState, Refusal>)
    ensures r.Ok? ==> c.status == "pending" && who.isAdmin && who.passwordOk && Filled(reason)
    ensures r.Ok? ==> r.value.status == (if action == Some("approve") then "approved" else "rejected")
    ensures r.Ok? ==> r.value.approvedBy == Some(who.userId) && r.value.approvedDate == Some(who.at)
                      && r.value.approvalSignatureId == Some(who.signatureId)
    ensures r.Ok? ==> r.value.implementedBy == c.implementedBy && r.value.versionAfter == c.versionAfter
  {
    if !who.isAdmin then Err(AccessDenied)
    else if c.status != "pending" then Err(AlreadyProcessed)
    else if !who.passwordOk then Err(InvalidPassword)
    else if !Filled(reason) then Err(ReasonRequired)
    else if action.None? then Err(Failed)
    else
      var description := if Filled(comments) then Appended(c.description, "Approval Comments", comments.value)
                         else c.description;
      Ok(c.(status := if action.value == "approve" then "approved" else "rejected",
            approvedBy := Some(who.userId), approvedDate := Some(who.at),
            approvalSignatureId := Some(who.signatureId), description := description))
  }

  /** POST /change-control/request/<id>/implement. */
  function Implement(c: ChangeState, who: Signing, reason: Option<string>, notes: Option<string>,
                     versionAfter: Option<string>): (r: Result<ChangeState, Refusal>)
    ensures r.Ok? ==> c.status == "approved" && who.isAdmin && who.passwordOk && Filled(reason)
    ensures r.Ok? ==> r.value.status == "implemented" && r.value.implementedBy == Some(who.userId)
                      && r.value.implementedDate == Some(who.at)
                      && r.value.implementationSignatureId == Some(who.signatureId)
    ensures r.Ok? ==> r.value.versionAfter == (if Filled(versionAfter) then versionAfter else c.versionAfter)
    ensures r.Ok? ==> r.value.approvedBy == c.approvedBy && r.value.approvalSignatureId == c.approvalSignatureId
  {
    if !who.isAdmin then Err(AccessDenied)
    else if c.status != "approved" then Err(NotApproved)
    else if !who.passwordOk then Err(InvalidPassword)
    else if !Filled(reason) then Err(ReasonRequired)
    else
      var description := if Filled(notes) then Appended(c.description, "Implementation Notes", notes.value)
                         else c.description;
      Ok(c.(status := "implemented", implementedBy := Some(who.userId), implementedDate := Some(who.at),
            implementationSignatureId := Some(who.signatureId),
            versionAfter := if Filled(versionAfter) then versionAfter else c.versionAfter,
            description := description))
  }

  /** Approval succeeds exactly when every guard passes, and the first
      failing guard names the refusal. */
  lemma ApproveGuards(c: ChangeState, who: Signing, action: Option<string>, reason: Option<string>,
                      comments: Option<string>)
    ensures Approve(c, who, action, reason, comments).Ok? <==>
      who.isAdmin && c.status == "pending" && who.passwordOk && Filled(reason) && action.Some?
    ensures who.isAdmin && c.status != "pending" ==> Approve(c, who, action, reason, comments) == Err(AlreadyProcessed)
  {
  }

  lemma ImplementGuards(c: ChangeState, who: Signing, reason: Option<string>, notes: Option<string>,
                        versionAfter: Option<string>)
    ensures Implement(c, who, reason, notes, versionAfter).Ok? <==>
      who.isAdmin && c.status == "approved" && who.passwordOk && Filled(reason)
    ensures who.isAdmin && c.status != "approved" ==> Implement(c, who, reason, notes, versionAfter) == Err(NotApproved)
  {
  }

  /** A change request moves pending → approved → implemented, or pending
      → rejected; a rejected or implemented one admits no further step. */
  lemma ChangeLifecycle(c: ChangeState, who: Signing, action: Option<string>, reason: Option<string>,
                        text: Option<string>, versionAfter: Option<string>)
    ensures c.status in {"rejected", "implemented"} ==>
      Approve(c, who, action, reason, text).Err? && Implement(c, who, reason, text, versionAfter).Err?
    ensures Approve(c, who, action, reason, text).Ok? ==>
      var a := Approve(c, who, action, reason, text).value;
      Approve(a, who, action, reason, text).Err?
      && (Implement(a, who, reason, text, versionAfter).Ok? <==> a.status == "approved" && who.passwordOk && Filled(reason))
    ensures Implement(c, who, reason, text, versionAfter).Ok? ==>
      var i := Implement(c, who, reason, text, versionAfter).value;
      Approve(i, who, action, reason, text).Err? && Implement(i, who, reason, text, versionAfter).Err?
  {
  }

  /** A change-control record whose handlers write its fields. */
  class ChangeRequest {
    var status: string
    var description: string
    var versionAfter: Option<string>
    var approvedBy: Option<nat>
    var approvedDate: Option<int>
    var approvalSignatureId: Option<nat>
    var implementedBy: Option<nat>
    var implementedDate: Option<int>
    var implementationSignatureId: Option<nat>

    function Current(): ChangeState
      reads this
    {
      ChangeState(status, description, versionAfter, approvedBy, approvedDate, approvalSignatureId,
                  implementedBy, implementedDate, implementationSignatureId)
    }

    /** A new request: pending, with nothing signed. */
    constructor (description: string)
      ensures Current() == ChangeState("pending", description, None, None, None, None, None, None, None)
    {
      status := "pending";
      this.description := description;
      versionAfter := None;
      approvedBy, approvedDate, approvalSignatureId := None, None, None;
      implementedBy, implementedDate, implementationSignatureId := None, None, None;
    }

    method HandleApprove(who: Signing, action: Option<string>, reason: Option<string>, comments: Option<string>)
      returns (refusal: Option<Refusal>)
      modifies this
      ensures var r := Approve(old(Current()), who, action, reason, comments);
        if r.Ok? then refusal.None? && Current() == r.value
        else refusal == Some(r.error) && Current() == old(Current())
    {
      if !who.isAdmin { return Some(AccessDenied); }
      if status != "pending" { return Some(AlreadyProcessed); }
      if !who.passwordOk { return Some(InvalidPassword); }
      if !Filled(reason) { return Some(ReasonRequired); }
      if action.None? { return Some(Failed); }
      status := if action.value == "approve" then "approved" else "rejected";
      approvedBy := Some(who.userId);
      approvedDate := Some(who.at);
      approvalSignatureId := Some(who.signatureId);
      if Filled(comments) {
        description := Appended(description, "Approval Comments", comments.value);
      }
      return None;
    }

    method HandleImplement(who: Signing, reason: Option<string>, notes: Option<string>, version: Option<string>)
      returns (refusal: Option<Refusal>)
      modifies this
      ensures var r := Implement(old(Current()), who, reason, notes, version);
        if r.Ok? then refusal.None? && Current() == r.value
        else refusal == Some(r.error) && Current() == old(Current())
    {
      if !who.isAdmin { return Some(AccessDenied); }
      if status != "approved" { return Some(NotApproved); }
      if !who.passwordOk { return Some(InvalidPassword); }
      if !Filled(reason) { return Some(ReasonRequired); }
      status := "implemented";
      implementedBy := Some(who.userId);
      implementedDate := Some(who.at);
      implementationSignatureId := Some(who.signatureId);
      if Filled(version) {
        versionAfter := version;
      }
      if Filled(notes) {
        description := Appended(description, "Implementation Notes", notes.value);
      }
      return None;
    }
  }

  // =====================================================================
  // Validation tests

  datatype TestState = TestState(
    status: string,
    actualResult: Option<string>,
    notes: Option<string>,
    executedBy: Option<nat>,
    executedDate: Option<int>,
    executionSignatureId: Option<nat>,
    reviewedBy: Option<nat>,
    reviewedDate: Option<int>,
    reviewSignatureId: Option<nat>)

  /** Python truthiness of a user id column: set and not zero. */
  predicate Reviewed(t: TestState) { t.reviewedBy.Some? && t.reviewedBy.value != 0 }

  /** POST /validation/test/<id>/execute. The new status is whatever the
      form names; the handler does not restrict it to pass or fail. */
  function Execute(t: TestState, who: Signing, actualResult: Option<string>, status: Option<string>,
                   notes: Option<string>, reason: Option<string>): (r: Result<TestState, Refusal>)
    ensures r.Ok? ==> t.status in {"pending", "retest"} && who.isAdmin && who.passwordOk
    ensures r.Ok? ==> Filled(actualResult) && Filled(status) && Filled(reason)
    ensures r.Ok? ==> r.value.status == status.value && r.value.actualResult == actualResult
                      && r.value.executedBy == Some(who.userId) && r.value.executedDate == Some(who.at)
                      && r.value.executionSignatureId == Some(who.signatureId)
    ensures r.Ok? ==> r.value.notes == (if Filled(notes) then notes else t.notes)
    ensures r.Ok? ==> r.value.reviewedBy == t.reviewedBy
  {
    if !who.isAdmin then Err(AccessDenied)
    else if t.status !in {"pending", "retest"} then Err(AlreadyExecuted)
    else if !who.passwordOk then Err(InvalidPassword)
    else if !(Filled(actualResult) && Filled(status) && Filled(reason)) then Err(FieldsRequired)
    else
      Ok(t.(actualResult := actualResult, status := status.value, executedBy := Some(who.userId),
            executedDate := Some(who.at), executionSignatureId := Some(who.signatureId),
            notes := if Filled(notes) then notes else t.notes))
  }

  /** The reviewer's signature on a test, with any review comments
      appended to its notes. */
  function ReviewSigned(t: TestState, who: Signing, comments: Option<string>): TestState {
    var notes := if Filled(comments)
                 then Some(Appended(if t.notes.Some? then t.notes.value else "", "Review Comments", comments.value))
                 else t.notes;
    t.(reviewedBy := Some(who.userId), reviewedDate := Some(who.at),
       reviewSignatureId := Some(who.signatureId), notes := notes)
  }

  /** POST /validation/test/<id>/review. Any action other than "retest"
      signs the review; "retest" records the comments, sends the test back
      to be executed again and clears the reviewer. */
  function Review(t: TestState, who: Signing, action: Option<string>, reason: Option<string>,
                  comments: Option<string>): (r: Result<TestState, Refusal>)
    ensures r.Ok? ==> t.status in {"pass", "fail"} && !Reviewed(t) && who.isAdmin && who.passwordOk && Filled(reason)
    ensures r.Ok? && action == Some("retest") ==>
      r.value.status == "retest" && r.value.reviewedBy.None? && r.value.reviewedDate.None? && r.value.reviewSignatureId.None?
    ensures r.Ok? && action != Some("retest") ==>
      r.value.status == t.status && r.value.reviewedBy == Some(who.userId)
      && r.value.reviewedDate == Some(who.at) && r.value.reviewSignatureId == Some(who.signatureId)
    ensures r.Ok? ==> r.value.executedBy == t.executedBy && r.value.actualResult == t.actualResult
  {
    if !who.isAdmin then Err(AccessDenied)
    else if t.status !in {"pass", "fail"} then Err(NotExecuted)
    else if Reviewed(t) then Err(AlreadyReviewed)
    else if !who.passwordOk then Err(InvalidPassword)
    else if !Filled(reason) then Err(ReasonRequired)
    else
      var signed := ReviewSigned(t, who, comments);
      if action == Some("retest") then
        Ok(signed.(status := "retest", reviewedBy := None, reviewedDate := None, reviewSignatureId := None))
      else Ok(signed)
  }

  lemma ExecuteGuards(t: TestState, who: Signing, actualResult: Option<string>, status: Option<string>,
                      notes: Option<string>, reason: Option<string>)
    ensures Execute(t, who, actualResult, status, notes, reason).Ok? <==>
      who.isAdmin && t.status in {"pending", "retest"} && who.passwordOk
      && Filled(actualResult) && Filled(status) && Filled(reason)
  {
  }

  lemma ReviewGuards(t: TestState, who: Signing, action: Option<string>, reason: Option<string>,
                     comments: Option<string>)
    ensures Review(t, who, action, reason, comments).Ok? <==>
      who.isAdmin && t.status in {"pass", "fail"} && !Reviewed(t) && who.passwordOk && Filled(reason)
  {
  }

  /** An executed test is reviewed at most once: after a signed review
      (by a user with a non-zero id) every further review is refused, and
      execution is refused too. */
  lemma ReviewOnce(t: TestState, who: Signing, action: Option<string>, reason: Option<string>,
                   comments: Option<string>, other: Signing, action2: Option<string>, reason2: Option<string>,
                   comments2: Option<string>, result2: Option<string>, status2: Option<string>)
    requires Review(t, who, action, reason, comments).Ok? && action != Some("retest") && who.userId != 0
    ensures var u := Review(t, who, action, reason, comments).value;
      Review(u, other, action2, reason2, comments2).Err?
      && Execute(u, other, result2, status2, comments2, reason2).Err?
  {
  }

  /** A "retest" review reopens the test: it can be executed again, and
      reviewed again once it has a pass or fail result. */
  lemma RetestReopens(t: TestState, who: Signing, reason: Option<string>, comments: Option<string>,
                      executor: Signing, result: Option<string>, verdict: string, notes: Option<string>,
                      reason2: Option<string>)
    requires Review(t, who, Some("retest"), reason, comments).Ok?
    requires executor.isAdmin && executor.passwordOk && Filled(result) && Filled(reason2)
    requires verdict in {"pass", "fail"}
    ensures var u := Review(t, who, Some("retest"), reason, comments).value;
      Execute(u, executor, result, Some(verdict), notes, reason2).Ok?
      && var e := Execute(u, executor, result, Some(verdict), notes, reason2).value;
      e.status == verdict && !Reviewed(e)
  {
  }

  /** Because the new status comes from the form unchecked, an execution
      may leave the test "pending", and it can then be executed again,
      replacing the recorded result and execution signature. */
  lemma ExecuteMayStayOpen(t: TestState, who: Signing, result: Option<string>, reason: Option<string>,
                           later: Signing, result2: Option<string>)
    requires who.isAdmin && who.passwordOk && t.status == "pending" && Filled(result) && Filled(reason)
    requires later.isAdmin && later.passwordOk && Filled(result2)
    ensures var e := Execute(t, who, result, Some("pending"), None, reason);
      e.Ok? && Execute(e.value, later, result2, Some("pass"), None, reason).Ok?
      && Execute(e.value, later, result2, Some("pass"), None, reason).value.executionSignatureId == Some(later.signatureId)
  {
  }

  /** A validation test record whose handlers write its fields. */
  class ValidationTest {
    var status: string
    var actualResult: Option<string>
    var notes: Option<string>
    var executedBy: Option<nat>
    var executedDate: Option<int>
    var executionSignatureId: Option<nat>
    var reviewedBy: Option<nat>
    var reviewedDate: Option<int>
    var reviewSignatureId: Option<nat>

    function Current(): TestState
      reads this
    {
      TestState(status, actualResult, notes, executedBy, executedDate, executionSignatureId,
                reviewedBy, reviewedDate, reviewSignatureId)
    }

    constructor ()
      ensures Current() == TestState("pending", None, None, None, None, None, None, None, None)
    {
      status := "pending";
      actualResult, notes := None, None;
      executedBy, executedDate, executionSignatureId := None, None, None;
      reviewedBy, reviewedDate, reviewSignatureId := None, None, None;
    }

    method HandleExecute(who: Signing, result: Option<string>, newStatus: Option<string>, newNotes: Option<string>,
                         reason: Option<string>)
      returns (refusal: Option<Refusal>)
      modifies this
      ensures var r := Execute(old(Current()), who, result, newStatus, newNotes, reason);
        if r.Ok? then refusal.None? && Current() == r.value
        else refusal == Some(r.error) && Current() == old(Current())
    {
      if !who.isAdmin { return Some(AccessDenied); }
      if status != "pending" && status != "retest" { return Some(AlreadyExecuted); }
      if !who.passwordOk { return Some(InvalidPassword); }
      if !(Filled(result) && Filled(newStatus) && Filled(reason)) { return Some(FieldsRequired); }
      actualResult := result;
      status := newStatus.value;
      executedBy := Some(who.userId);
      executedDate := Some(who.at);
      executionSignatureId := Some(who.signatureId);
      if Filled(newNotes) {
        notes := newNotes;
      }
      return None;
    }

    method HandleReview(who: Signing, action: Option<string>, reason: Option<string>, comments: Option<string>)
      returns (refusal: Option<Refusal>)
      modifies this
      ensures var r := Review(old(Current()), who, action, reason, comments);
        if r.Ok? then refusal.None? && Current() == r.value
        else refusal == Some(r.error) && Current() == old(Current())
    {
      if !who.isAdmin { return Some(AccessDenied); }
      if status != "pass" && status != "fail" { return Some(NotExecuted); }
      if reviewedBy.Some? && reviewedBy.value != 0 { return Some(AlreadyReviewed); }
      if !who.passwordOk { return Some(InvalidPassword); }
      if !Filled(reason) { return Some(ReasonRequired); }
      SignReview(who, comments);
      if action == Some("retest") {
        status := "retest";
        reviewedBy := None;
        reviewedDate := None;
        reviewSignatureId := None;
      }
      return None;
    }

    /** The reviewer signs; review comments are appended to the notes. */
    method SignReview(who: Signing, comments: Option<string>)
      modifies this
      ensures Current() == ReviewSigned(old(Current()), who, comments)
    {
      reviewedBy := Some(who.userId);
      reviewedDate := Some(who.at);
      reviewSignatureId := Some(who.signatureId);
      if Filled(comments) {
        notes := Some(Appended(if notes.Some? then notes.value else "", "Review Comments", comments.value));
      }
    }
  }
}
