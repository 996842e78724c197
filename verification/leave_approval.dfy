/**
 * The leave-channel branch of the `messageReactionAdd` listener (functions/index.js:380-428):
 * an approver's ✅ under a leave request puts the requester on leave until the end of the
 * request's last day; a ❌ only replies. Both are gated by `isAuthorizedApprover`
 * (functions/index.js:147-157), whose role test names an identifier the file never declares.
 */
module LeaveApproval {
  import opened Wrappers
  import ThaiDate
  import NumericDate
  import Roster

  /** A name the code reads: declared in the file with a value, or never declared. */
  datatype Binding = Declared(value: string) | Undeclared

  /**
   * The test inside `isAuthorizedApprover`'s try block. `roles` is the reacting member's roles,
   * None when the guild or member fetch failed. Reading an undeclared name throws, and the catch
   * turns that, like a failed fetch, into false.
   */
  function HasApproverRole(roleId: Binding, roles: Option<set<string>>): (ok: bool)
    ensures ok ==> roleId.Declared? && roles.Some?
    ensures roleId.Declared? && roles.Some? ==> (ok <==> roleId.value in roles.value)
  {
    match roleId
    case Undeclared => false
    case Declared(id) => roles.Some? && id in roles.value
  }

  /** The file declares `ROLE_IDS` (the rank roles) but not `ROLE_ID`. */
  const RoleIdAsWritten: Binding := Undeclared

  /** `isAuthorizedApprover(userId)` as written. */
  function IsAuthorizedApproverAsWritten(roles: Option<set<string>>): bool
  {
    HasApproverRole(RoleIdAsWritten, roles)
  }

  /** As written, nobody is an approver, whatever roles they hold. */
  lemma NoOneIsAuthorizedAsWritten(roles: set<string>)
    ensures !IsAuthorizedApproverAsWritten(Some(roles))
  {
  }

  /** The evidently intended check: the member holds the configured approver role. */
  function IsAuthorizedApprover(approverRoleId: string, roles: Option<set<string>>): bool
  {
    HasApproverRole(Declared(approverRoleId), roles)
  }

  /** With the role declared, exactly its holders are approvers, and a failed fetch denies. */
  lemma ApproverRoleAuthorizes(approverRoleId: string, roles: set<string>)
    ensures IsAuthorizedApprover(approverRoleId, Some(roles)) <==> approverRoleId in roles
    ensures !IsAuthorizedApprover(approverRoleId, None)
  {
  }

  const Approve: string := "✅"
  const Reject: string := "❌"

  datatype Outcome =
    | Ignored                        // not a decision emoji, or not an approver
    | Rejected                       // the rejection reply
    | NoRange                        // the message holds no date range
    | NoRosterEntry                  // no roster document, or no entry of the requester
    | LeaveApproved(targetName: string)

  /**
   * The branch itself, given whether the reacting member is an approver. `lastDay` is the second
   * date of the range the request's text holds (None when it holds none), and `endOfDay` the
   * host's `new Date(y, m, d)` followed by `setHours(23, 59, 59, 999)`, as a time value.
   */
  method OnLeaveReaction(
    doc: Roster.RosterDoc, authorized: bool, emoji: string, lastDay: Option<NumericDate.DateToken>,
    endOfDay: ThaiDate.DateArgs -> int, authorId: string)
    returns (outcome: Outcome)
    requires lastDay.Some? ==> NumericDate.WellFormed(lastDay.value)
    modifies doc
    ensures !authorized || (emoji != Approve && emoji != Reject) ==> unchanged(doc) && outcome == Ignored
    ensures authorized && emoji == Reject ==> unchanged(doc) && outcome == Rejected
    ensures authorized && emoji == Approve && lastDay.None? ==> unchanged(doc) && outcome == NoRange
    ensures authorized && emoji == Approve && lastDay.Some? ==>
      var endMs := endOfDay(NumericDate.ParseNumericDate(lastDay).value);
      var found := old(doc.present) &&
        exists i :: 0 <= i < |old(doc.items)| && old(doc.items)[i].discordId == Some(authorId);
      (found ==> (outcome.LeaveApproved? && doc.items == Roster.ApproveAll(old(doc.items), authorId, endMs) &&
        doc.writes == old(doc.writes) + 1)) &&
      (!found ==> outcome == NoRosterEntry && doc.items == old(doc.items) && doc.writes == old(doc.writes))
  {
    if emoji != Approve && emoji != Reject {
      return Ignored;
    }
    if !authorized {
      return Ignored;
    }
    if emoji == Reject {
      return Rejected;
    }
    if lastDay.None? {
      return NoRange;
    }
    var parsed := NumericDate.ParseNumericDate(lastDay);
    var endMs := endOfDay(parsed.value);
    var found, targetName := Roster.ApproveLeaveInDb(doc, authorId, endMs);
    outcome := if found then LeaveApproved(targetName) else NoRosterEntry;
  }

  /** The listener as written: the roster is never touched. */
  method OnLeaveReactionAsWritten(
    doc: Roster.RosterDoc, roles: Option<set<string>>, emoji: string, lastDay: Option<NumericDate.DateToken>,
    endOfDay: ThaiDate.DateArgs -> int, authorId: string)
    returns (outcome: Outcome)
    requires lastDay.Some? ==> NumericDate.WellFormed(lastDay.value)
    modifies doc
    ensures unchanged(doc) && outcome == Ignored
  {
    outcome := OnLeaveReaction(doc, IsAuthorizedApproverAsWritten(roles), emoji, lastDay, endOfDay, authorId);
  }

  /** The listener with the approver role declared. */
  method OnLeaveReactionWithRole(
    doc: Roster.RosterDoc, approverRoleId: string, roles: Option<set<string>>, emoji: string,
    lastDay: Option<NumericDate.DateToken>, endOfDay: ThaiDate.DateArgs -> int, authorId: string)
    returns (outcome: Outcome)
    requires lastDay.Some? ==> NumericDate.WellFormed(lastDay.value)
    modifies doc
    ensures roles.None? || approverRoleId !in roles.value ==> unchanged(doc) && outcome == Ignored
    ensures (roles.Some? && approverRoleId in roles.value && emoji == Approve && lastDay.Some? &&
      old(doc.present) && (exists i :: 0 <= i < |old(doc.items)| && old(doc.items)[i].discordId == Some(authorId))) ==>
      outcome.LeaveApproved? &&
      doc.items == Roster.ApproveAll(old(doc.items), authorId, endOfDay(NumericDate.ParseNumericDate(lastDay).value))
  {
    outcome := OnLeaveReaction(doc, IsAuthorizedApprover(approverRoleId, roles), emoji, lastDay, endOfDay, authorId);
  }
}
