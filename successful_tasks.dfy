/** The rules of backend/routes/successfulTasks.js: what a submission needs, which request keys
    reach which attributes on submit and on PATCH, who may see, change and delete a task, and the
    admin's approve and reject transitions. Storage is left out: a stored task is a `Task`
    object, and the list queries filter `Row` snapshots. */
module SuccessfulTasks {
  import opened Text
  import J = Json
  import opened Http

  /** Each request key with the attribute it sets, in the order the handlers copy them. */
  const FieldMap: seq<(string, string)> := [
    ("task_name", "taskName"), ("task_description", "taskDescription"), ("hints", "hints"),
    ("base_patch", "basePatch"), ("golden_patch", "goldenPatch"), ("test_patch", "testPatch"),
    ("pr_number", "prNumber"), ("ai_success_rate", "aiSuccessRate"), ("payout_amount", "payoutAmount")]

  /** The attributes the copied keys name. */
  function Attributes(fm: seq<(string, string)>): set<string> {
    set i | 0 <= i < |fm| :: fm[i].1
  }

  predicate DistinctAttributes(fm: seq<(string, string)>) {
    forall a, b :: 0 <= a < b < |fm| ==> fm[a].1 != fm[b].1
  }

  lemma FieldMapIsDistinct()
    ensures DistinctAttributes(FieldMap)
    ensures Attributes(FieldMap) == {"taskName", "taskDescription", "hints", "basePatch", "goldenPatch",
                                     "testPatch", "prNumber", "aiSuccessRate", "payoutAmount"}
  {
    var fm := FieldMap;
    assert fm[0].1 == "taskName" && fm[1].1 == "taskDescription" && fm[2].1 == "hints";
    assert fm[3].1 == "basePatch" && fm[4].1 == "goldenPatch" && fm[5].1 == "testPatch";
    assert fm[6].1 == "prNumber" && fm[7].1 == "aiSuccessRate" && fm[8].1 == "payoutAmount";
  }

  // ---------------------------------------------------------------- copying request keys

  /** The attributes set from `body` by the pairs of `fm`, in order: the snake_case key first,
      then, when `camelToo`, the attribute's own camelCase key, which overwrites it. A key present
      in the body is a defined value (JSON has no `undefined`). */
  function Mapped(body: map<string, J.Json>, fm: seq<(string, string)>, camelToo: bool): (m: map<string, J.Json>)
    ensures m.Keys <= Attributes(fm)
    decreases |fm|
  {
    if |fm| == 0 then map[]
    else
      var snake := fm[|fm| - 1].0;
      var camel := fm[|fm| - 1].1;
      var m0 := Mapped(body, fm[..|fm| - 1], camelToo);
      assert Attributes(fm[..|fm| - 1]) <= Attributes(fm) by {
        forall k | k in Attributes(fm[..|fm| - 1]) ensures k in Attributes(fm) {
          var i :| 0 <= i < |fm| - 1 && fm[..|fm| - 1][i].1 == k;
          assert fm[i].1 == k;
        }
      }
      var m1 := if snake in body then m0[camel := body[snake]] else m0;
      if camelToo && camel in body then m1[camel := body[camel]] else m1
  }

  /** With one pair per attribute, each attribute is set iff one of its keys is present, and the
      camelCase key wins when both are. */
  lemma {:induction false} MappedLookup(body: map<string, J.Json>, fm: seq<(string, string)>, camelToo: bool, i: nat)
    requires DistinctAttributes(fm)
    requires i < |fm|
    ensures var m := Mapped(body, fm, camelToo);
      var snake := fm[i].0;
      var camel := fm[i].1;
      && (camel in m <==> snake in body || (camelToo && camel in body))
      && (camelToo && camel in body ==> m[camel] == body[camel])
      && (snake in body && !(camelToo && camel in body) ==> m[camel] == body[snake])
    decreases |fm|
  {
    if i < |fm| - 1 {
      var init := fm[..|fm| - 1];
      MappedLookup(body, init, camelToo, i);
      assert init[i] == fm[i];
    }
  }

  /** The `forEach` over the field map that builds a PATCH's updates. */
  method BuildUpdates(body: map<string, J.Json>, fm: seq<(string, string)>) returns (updates: map<string, J.Json>)
    ensures updates == Mapped(body, fm, true)
  {
    updates := map[];
    var i := 0;
    while i < |fm|
      invariant 0 <= i <= |fm|
      invariant updates == Mapped(body, fm[..i], true)
    {
      assert fm[..i + 1][..i] == fm[..i];
      var (snake, camel) := fm[i];
      if snake in body {
        updates := updates[camel := body[snake]];
      }
      if camel in body {
        updates := updates[camel := body[camel]];
      }
      i := i + 1;
    }
    assert fm[..i] == fm;
  }

  /** A PATCH sets one of the nine attributes exactly when the body gives it under either name,
      preferring the camelCase name, and sets nothing else. */
  lemma PatchUpdates(body: map<string, J.Json>, i: nat)
    requires i < |FieldMap|
    ensures Mapped(body, FieldMap, true).Keys <= Attributes(FieldMap)
    ensures var m := Mapped(body, FieldMap, true);
      && (FieldMap[i].1 in m <==> FieldMap[i].0 in body || FieldMap[i].1 in body)
      && (FieldMap[i].1 in body ==> m[FieldMap[i].1] == body[FieldMap[i].1])
      && (FieldMap[i].0 in body && FieldMap[i].1 !in body ==> m[FieldMap[i].1] == body[FieldMap[i].0])
  {
    FieldMapIsDistinct();
    MappedLookup(body, FieldMap, true, i);
  }

  /** A submission reads only the snake_case keys. */
  lemma SubmitReadsSnakeCase(body: map<string, J.Json>, i: nat)
    requires i < |FieldMap|
    ensures var m := Mapped(body, FieldMap, false);
      && (FieldMap[i].1 in m <==> FieldMap[i].0 in body)
      && (FieldMap[i].0 in body ==> m[FieldMap[i].1] == body[FieldMap[i].0])
  {
    FieldMapIsDistinct();
    MappedLookup(body, FieldMap, false, i);
  }

  // ---------------------------------------------------------------- submit

  /** A body value, `undefined` reading as null. */
  function Field(body: map<string, J.Json>, key: string): J.Json {
    if key in body then body[key] else J.Null
  }

  /** POST /successful-tasks up to the insert: both hashes must be given; `commit` is the id of
      the commit with those hashes, if the store has one. The not-found message shortens both
      hashes, which fails on a value that is not text. */
  function CheckSubmission(body: map<string, J.Json>, commit: Option<int>): (r: Outcome<int>)
    ensures !J.JsTruthy(Field(body, "git_base_commit")) || !J.JsTruthy(Field(body, "merge_commit"))
      ==> r == BadRequest("Missing required fields")
    ensures r.Ok? <==> J.JsTruthy(Field(body, "git_base_commit")) && J.JsTruthy(Field(body, "merge_commit")) && commit.Some?
    ensures r.Ok? ==> r.value == commit.value
    ensures r.NotFound? ==> Field(body, "git_base_commit").Str? && Field(body, "merge_commit").Str?
  {
    var base := Field(body, "git_base_commit");
    var merge := Field(body, "merge_commit");
    if !J.JsTruthy(base) || !J.JsTruthy(merge) then BadRequest("Missing required fields")
    else if commit.None? then
      if base.Str? && merge.Str? then NotFound("Commit not found") else ServerError
    else Ok(commit.value)
  }

  // ---------------------------------------------------------------- permissions

  /** GET /successful-tasks/:id: approved tasks are public; others only to admins and the owner. */
  predicate CanView(status: string, isAdmin: bool, me: int, owner: int) {
    status == "approved" || isAdmin || owner == me
  }

  /** PATCH: the owner only, admins included in the refusal. */
  predicate CanUpdate(me: int, owner: int) {
    owner == me
  }

  /** DELETE: the owner or an admin. */
  predicate CanDelete(isAdmin: bool, me: int, owner: int) {
    owner == me || isAdmin
  }

  /** The permissions nest: whoever may update may delete, and whoever may delete may view; an
      admin who is not the owner may delete but not update. */
  lemma PermissionsNest(status: string, isAdmin: bool, me: int, owner: int)
    ensures CanUpdate(me, owner) ==> CanDelete(isAdmin, me, owner)
    ensures CanDelete(isAdmin, me, owner) ==> CanView(status, isAdmin, me, owner)
    ensures isAdmin && owner != me ==> CanDelete(isAdmin, me, owner) && !CanUpdate(me, owner)
    ensures !CanView(status, isAdmin, me, owner) <==> status != "approved" && !isAdmin && owner != me
  {
  }

  // ---------------------------------------------------------------- the stored task

  class Task {
    const id: int
    const userId: int
    const commitId: int
    const gitBaseCommit: J.Json
    const mergeCommit: J.Json
    /** The nine copied attributes that are set, by attribute name. */
    var content: map<string, J.Json>
    var status: string
    var approvedBy: Option<int>
    var approvedAt: Option<int>
    var rejectionReason: Option<J.Json>

    /** The insert of an accepted submission: approved at once, with no approver. */
    constructor Submit(id: int, userId: int, commitId: int, body: map<string, J.Json>)
      ensures this.id == id && this.userId == userId && this.commitId == commitId
      ensures gitBaseCommit == Field(body, "git_base_commit") && mergeCommit == Field(body, "merge_commit")
      ensures content == Mapped(body, FieldMap, false)
      ensures status == "approved" && approvedBy.None? && approvedAt.None? && rejectionReason.None?
    {
      this.id := id;
      this.userId := userId;
      this.commitId := commitId;
      gitBaseCommit := Field(body, "git_base_commit");
      mergeCommit := Field(body, "merge_commit");
      content := Mapped(body, FieldMap, false);
      status := "approved";
      approvedBy := None;
      approvedAt := None;
      rejectionReason := None;
    }

    /** PATCH /successful-tasks/:id by user `me`: the owner's body is merged into the nine
        attributes; status, approval and rejection never change. */
    method Update(me: int, body: map<string, J.Json>) returns (r: Outcome<()>)
      modifies this
      ensures r.Ok? <==> CanUpdate(me, userId)
      ensures !r.Ok? ==> r == Forbidden("Not authorized. You can only update your own tasks.") && content == old(content)
      ensures r.Ok? ==> content == old(content) + Mapped(body, FieldMap, true)
      ensures status == old(status) && approvedBy == old(approvedBy) && approvedAt == old(approvedAt)
      ensures rejectionReason == old(rejectionReason)
    {
      if userId != me {
        return Forbidden("Not authorized. You can only update your own tasks.");
      }
      var updates := BuildUpdates(body, FieldMap);
      content := content + updates;
      r := Ok(());
    }

    /** PATCH /successful-tasks/:id/approve by admin `actor` at time `now`. */
    method Approve(isAdmin: bool, actor: int, now: int) returns (r: Outcome<()>)
      modifies this
      ensures !isAdmin ==> r == AdminRequired && status == old(status) && approvedBy == old(approvedBy) && approvedAt == old(approvedAt)
      ensures isAdmin ==> r.Ok? && status == "approved" && approvedBy == Some(actor) && approvedAt == Some(now)
      ensures content == old(content) && rejectionReason == old(rejectionReason)
    {
      if !isAdmin {
        return AdminRequired;
      }
      status := "approved";
      approvedBy := Some(actor);
      approvedAt := Some(now);
      r := Ok(());
    }

    /** PATCH /successful-tasks/:id/reject by an admin: the status becomes 'rejected' and a given
        reason is stored; an absent one leaves the stored reason, as does the approval. */
    method Reject(isAdmin: bool, reason: Option<J.Json>) returns (r: Outcome<()>)
      modifies this
      ensures !isAdmin ==> r == AdminRequired && status == old(status) && rejectionReason == old(rejectionReason)
      ensures isAdmin ==> r.Ok? && status == "rejected"
      ensures isAdmin ==> rejectionReason == if reason.Some? then reason else old(rejectionReason)
      ensures content == old(content) && approvedBy == old(approvedBy) && approvedAt == old(approvedAt)
    {
      if !isAdmin {
        return AdminRequired;
      }
      status := "rejected";
      if reason.Some? {
        rejectionReason := reason;
      }
      r := Ok(());
    }
  }

  // ---------------------------------------------------------------- lists

  /** A snapshot of one stored task, as the list queries filter it. */
  datatype Row = Row(id: int, userId: int, commitId: int, status: string)

  /** `req.query.status || 'approved'`: the list always filters by some status. */
  function StatusFilter(status: Option<string>): (s: string)
    ensures s != ""
    ensures status.None? || status.value == "" ==> s == "approved"
    ensures status.Some? && status.value != "" ==> s == status.value
  {
    if status.Some? && status.value != "" then status.value else "approved"
  }

  /** The commit filter of the list: none, one commit, or (commit_id does not read as an
      integer) no commit. */
  predicate CommitAdmits(commitId: Option<string>, row: Row) {
    commitId.None? || commitId.value == ""
    || (J.ParseInt(commitId.value).Some? && row.commitId == J.ParseInt(commitId.value).value)
  }

  /** GET /successful-tasks: the rows with the filtered status and commit, in store order. */
  function ListTasks(rows: seq<Row>, status: Option<string>, commitId: Option<string>): (r: seq<Row>)
    ensures forall x :: x in r <==> x in rows && x.status == StatusFilter(status) && CommitAdmits(commitId, x)
    decreases |rows|
  {
    if |rows| == 0 then []
    else
      var rest := ListTasks(rows[1..], status, commitId);
      if rows[0].status == StatusFilter(status) && CommitAdmits(commitId, rows[0]) then [rows[0]] + rest else rest
  }

  /** GET /successful-tasks/commits/:commit_id: the approved tasks of one commit. */
  function TasksForCommit(rows: seq<Row>, commitId: int): (r: seq<Row>)
    ensures forall x :: x in r <==> x in rows && x.commitId == commitId && x.status == "approved"
    ensures |r| <= |rows|
    decreases |rows|
  {
    if |rows| == 0 then []
    else
      var rest := TasksForCommit(rows[1..], commitId);
      if rows[0].commitId == commitId && rows[0].status == "approved" then [rows[0]] + rest else rest
  }

  /** Without a status parameter the list holds only approved tasks, and filtered by a commit it
      is exactly that commit's task list. */
  lemma {:induction false} DefaultListIsCommitList(rows: seq<Row>, text: string, commitId: int)
    requires text != "" && J.ParseInt(text) == Some(commitId)
    ensures ListTasks(rows, None, Some(text)) == TasksForCommit(rows, commitId)
    decreases |rows|
  {
    if |rows| > 0 {
      DefaultListIsCommitList(rows[1..], text, commitId);
    }
  }
}
