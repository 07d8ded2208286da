/**
 * `mockAPI` of my-app/src/services/mockData.ts: an in-memory array of PRs (the
 * `PR` interface of my-app/src/types/index.ts, with `status` and `created_by`)
 * that the operations read and change in place. Fresh ids (`Date.now()`) and
 * timestamps (`new Date()`) are parameters; the artificial delays are left out.
 */
module MockStore {
  import opened Js
  import opened Types

  datatype StoredComment = StoredComment(
    commentId: string,
    prId: string,
    userId: string,
    role: UserRole,
    commentText: string,
    createdAt: string)

  /**
   * A stored PR. `form` holds the `PRFormData` fields (shipment, account,
   * addresses, items, services, insurance) by name; the store never inspects them.
   */
  datatype StoredPr = StoredPr(
    id: string,
    status: PrStatus,
    createdBy: string,
    assignedTo: Option<string>,
    submissionDate: Option<string>,
    lastUpdated: string,
    comments: seq<StoredComment>,
    form: map<string, Value>)

  /** The argument of `createPR`: a PR without id, status, creator, timestamp and comments. */
  datatype NewPr = NewPr(
    assignedTo: Option<string>,
    submissionDate: Option<string>,
    form: map<string, Value>)

  /** A `Partial<PR>`: `None` for a key the object does not carry. */
  datatype PrPatch = PrPatch(
    id: Option<string>,
    status: Option<PrStatus>,
    createdBy: Option<string>,
    assignedTo: Option<string>,
    submissionDate: Option<string>,
    lastUpdated: Option<string>,
    comments: Option<seq<StoredComment>>,
    form: map<string, Value>)

  /** The argument of `addComment`: a comment without id and timestamp. */
  datatype NewComment = NewComment(prId: string, userId: string, role: UserRole, commentText: string)

  const NotFound: Exception := Error("PR not found")

  // ------------------------------------------------------------- queries

  /** `findIndex(pr => pr.id === prId)`: the first position holding that id, or -1. */
  function IndexOfId(s: seq<StoredPr>, prId: string): (k: int)
    ensures -1 <= k < |s|
    ensures k == -1 <==> forall j :: 0 <= j < |s| ==> s[j].id != prId
    ensures k >= 0 ==> s[k].id == prId && forall j :: 0 <= j < k ==> s[j].id != prId
  {
    if s == [] then -1
    else if s[0].id == prId then 0
    else
      var k := IndexOfId(s[1..], prId);
      if k == -1 then -1 else k + 1
  }

  /** `find(pr => pr.id === prId) || null` (a found record is an object, so truthy). */
  function FindById(s: seq<StoredPr>, prId: string): (r: Option<StoredPr>)
    ensures r.None? <==> forall j :: 0 <= j < |s| ==> s[j].id != prId
    ensures r.Some? ==> r.value in s && r.value.id == prId
    ensures r.Some? ==> r.value == s[IndexOfId(s, prId)]
  {
    var k := IndexOfId(s, prId);
    if k < 0 then None else Some(s[k])
  }

  /** Which records `getPRs` returns to a user. */
  predicate Visible(pr: StoredPr, userId: string, role: UserRole) {
    if role == SalesExecutive then pr.createdBy == userId
    else pr.status in {UnderReview, ActionRequired, Approved, Rejected, Closed}
  }

  /** `filter(Visible)` */
  function VisibleTo(s: seq<StoredPr>, userId: string, role: UserRole): (r: seq<StoredPr>)
    ensures forall pr :: pr in r <==> pr in s && Visible(pr, userId, role)
    ensures Sublist(r, s)
    ensures |r| <= |s|
  {
    if s == [] then []
    else
      var rest := VisibleTo(s[1..], userId, role);
      assert forall pr :: pr in s <==> pr == s[0] || pr in s[1..];
      if Visible(s[0], userId, role) then [s[0]] + rest else rest
  }

  /** Each visible record is listed as many times as it is stored; no other record is listed. */
  lemma {:induction false} VisibleToCounts(s: seq<StoredPr>, userId: string, role: UserRole)
    ensures forall pr ::
      multiset(VisibleTo(s, userId, role))[pr] == (if Visible(pr, userId, role) then multiset(s)[pr] else 0)
  {
    if s != [] {
      VisibleToCounts(s[1..], userId, role);
      assert s == [s[0]] + s[1..];
    }
  }

  /** Removes the record at position k, keeping the others in order. */
  function RemoveAt(s: seq<StoredPr>, k: nat): (r: seq<StoredPr>)
    requires k < |s|
    ensures |r| == |s| - 1
    ensures forall j :: 0 <= j < k ==> r[j] == s[j]
    ensures forall j :: k <= j < |r| ==> r[j] == s[j + 1]
  {
    s[..k] + s[k + 1..]
  }

  /** `{ ...pr, ...patch, last_updated: now }` */
  function ApplyPatch(pr: StoredPr, patch: PrPatch, now: string): (r: StoredPr)
    ensures r.lastUpdated == now
    ensures patch.id.Some? ==> r.id == patch.id.value
    ensures patch.id.None? ==> r.id == pr.id
    ensures patch.status.Some? ==> r.status == patch.status.value
    ensures patch.status.None? ==> r.status == pr.status
    ensures patch.createdBy.Some? ==> r.createdBy == patch.createdBy.value
    ensures patch.createdBy.None? ==> r.createdBy == pr.createdBy
    ensures patch.assignedTo.Some? ==> r.assignedTo == patch.assignedTo
    ensures patch.assignedTo.None? ==> r.assignedTo == pr.assignedTo
    ensures patch.submissionDate.Some? ==> r.submissionDate == patch.submissionDate
    ensures patch.submissionDate.None? ==> r.submissionDate == pr.submissionDate
    ensures patch.comments.Some? ==> r.comments == patch.comments.value
    ensures patch.comments.None? ==> r.comments == pr.comments
    ensures r.form.Keys == pr.form.Keys + patch.form.Keys
    ensures forall key :: key in patch.form ==> r.form[key] == patch.form[key]
    ensures forall key :: key in pr.form && key !in patch.form ==> r.form[key] == pr.form[key]
  {
    MergeKeeps(pr.form, patch.form);
    StoredPr(
      id := if patch.id.Some? then patch.id.value else pr.id,
      status := if patch.status.Some? then patch.status.value else pr.status,
      createdBy := if patch.createdBy.Some? then patch.createdBy.value else pr.createdBy,
      assignedTo := if patch.assignedTo.Some? then patch.assignedTo else pr.assignedTo,
      submissionDate := if patch.submissionDate.Some? then patch.submissionDate else pr.submissionDate,
      lastUpdated := now,
      comments := if patch.comments.Some? then patch.comments.value else pr.comments,
      form := pr.form + patch.form)
  }

  /** An object spread: the later object's keys win, the earlier one's others stay. */
  lemma MergeKeeps<K, V>(a: map<K, V>, b: map<K, V>)
    ensures (a + b).Keys == a.Keys + b.Keys
    ensures forall key :: key in b ==> (a + b)[key] == b[key]
    ensures forall key :: key in a && key !in b ==> (a + b)[key] == a[key]
  {
  }

  /** The record `createPR` builds. */
  function NewRecord(data: NewPr, freshId: string, now: string): StoredPr {
    StoredPr(freshId, Draft, "1", data.assignedTo, data.submissionDate, now, [], data.form)
  }

  /** The module-level `mockPRs` array and the `mockAPI` operations on it. */
  class PrStore {
    var prs: seq<StoredPr>

    constructor (initial: seq<StoredPr>)
      ensures prs == initial
    {
      prs := initial;
    }

    /** `getPRs(userId, role)` */
    function GetPRs(userId: string, role: UserRole): (r: seq<StoredPr>)
      reads this
      ensures r == VisibleTo(prs, userId, role)
    {
      VisibleTo(prs, userId, role)
    }

    /** `getPR(prId)`: the first record with that id, or null. */
    function GetPR(prId: string): (r: Option<StoredPr>)
      reads this
      ensures r == FindById(prs, prId)
    {
      FindById(prs, prId)
    }

    /** `getComments(prId)`: the first matching record's comments, or none. */
    function GetComments(prId: string): (r: seq<StoredComment>)
      reads this
      ensures FindById(prs, prId).Some? ==> r == FindById(prs, prId).value.comments
      ensures FindById(prs, prId).None? ==> r == []
    {
      var pr := FindById(prs, prId);
      if pr.Some? then pr.value.comments else []
    }

    /** `createPR`: appends one draft with no comments, created by user "1". */
    method CreatePR(data: NewPr, freshId: string, now: string) returns (pr: StoredPr)
      modifies this
      ensures prs == old(prs) + [pr]
      ensures pr == NewRecord(data, freshId, now)
      ensures pr.id == freshId && pr.status == Draft && pr.comments == [] && pr.createdBy == "1"
    {
      pr := NewRecord(data, freshId, now);
      prs := prs + [pr];
    }

    /** `updatePR`: merges the patch into the first record with that id. */
    method UpdatePR(prId: string, patch: PrPatch, now: string) returns (r: Result<StoredPr>)
      modifies this
      ensures IndexOfId(old(prs), prId) == -1 ==> r == Throws(NotFound) && prs == old(prs)
      ensures IndexOfId(old(prs), prId) >= 0 ==>
        var k := IndexOfId(old(prs), prId);
        && prs == old(prs)[k := ApplyPatch(old(prs)[k], patch, now)]
        && r == Ok(prs[k])
    {
      var index := IndexOfId(prs, prId);
      if index == -1 {
        return Throws(NotFound);
      }
      prs := prs[index := ApplyPatch(prs[index], patch, now)];
      r := Ok(prs[index]);
    }

    /** `deletePR`: splices out the first record with that id. */
    method DeletePR(prId: string) returns (r: Result<()>)
      modifies this
      ensures IndexOfId(old(prs), prId) == -1 ==> r == Throws(NotFound) && prs == old(prs)
      ensures IndexOfId(old(prs), prId) >= 0 ==>
        r == Ok(()) && prs == RemoveAt(old(prs), IndexOfId(old(prs), prId))
    {
      var index := IndexOfId(prs, prId);
      if index == -1 {
        return Throws(NotFound);
      }
      prs := RemoveAt(prs, index);
      r := Ok(());
    }

    /**
     * `submitPR`: under review, whatever the prior status. The submission date
     * and `last_updated` are two reads of the clock, `submittedAt` and `updatedAt`.
     */
    method SubmitPR(prId: string, submittedAt: string, updatedAt: string) returns (r: Result<StoredPr>)
      modifies this
      ensures IndexOfId(old(prs), prId) == -1 ==> r == Throws(NotFound) && prs == old(prs)
      ensures IndexOfId(old(prs), prId) >= 0 ==>
        var k := IndexOfId(old(prs), prId);
        && prs == old(prs)[k := Submitted(old(prs)[k], submittedAt, updatedAt)]
        && r == Ok(prs[k])
    {
      var index := IndexOfId(prs, prId);
      if index == -1 {
        return Throws(NotFound);
      }
      prs := prs[index := Submitted(prs[index], submittedAt, updatedAt)];
      r := Ok(prs[index]);
    }

    /** `approvePR` (`decision == Approved`) and `rejectPR` (`decision == Rejected`). */
    method Decide(prId: string, decision: PrStatus, now: string) returns (r: Result<StoredPr>)
      requires decision == Approved || decision == Rejected
      modifies this
      ensures IndexOfId(old(prs), prId) == -1 ==> r == Throws(NotFound) && prs == old(prs)
      ensures IndexOfId(old(prs), prId) >= 0 ==>
        var k := IndexOfId(old(prs), prId);
        && prs == old(prs)[k := old(prs)[k].(status := decision, lastUpdated := now)]
        && r == Ok(prs[k])
    {
      var index := IndexOfId(prs, prId);
      if index == -1 {
        return Throws(NotFound);
      }
      prs := prs[index := prs[index].(status := decision, lastUpdated := now)];
      r := Ok(prs[index]);
    }

    method ApprovePR(prId: string, now: string) returns (r: Result<StoredPr>)
      modifies this
      ensures IndexOfId(old(prs), prId) == -1 ==> r == Throws(NotFound) && prs == old(prs)
      ensures IndexOfId(old(prs), prId) >= 0 ==>
        var k := IndexOfId(old(prs), prId);
        && prs == old(prs)[k := old(prs)[k].(status := Approved, lastUpdated := now)]
        && r == Ok(prs[k])
    {
      r := Decide(prId, Approved, now);
    }

    method RejectPR(prId: string, now: string) returns (r: Result<StoredPr>)
      modifies this
      ensures IndexOfId(old(prs), prId) == -1 ==> r == Throws(NotFound) && prs == old(prs)
      ensures IndexOfId(old(prs), prId) >= 0 ==>
        var k := IndexOfId(old(prs), prId);
        && prs == old(prs)[k := old(prs)[k].(status := Rejected, lastUpdated := now)]
        && r == Ok(prs[k])
    {
      r := Decide(prId, Rejected, now);
    }

    /**
     * `addComment`: the new comment is returned in every case; when a record has
     * its `pr_id`, the comment is appended to it and it becomes action-required.
     * The comment's `created_at` and the record's `last_updated` are two reads of
     * the clock, `createdAt` and `updatedAt`.
     */
    method AddComment(data: NewComment, freshId: string, createdAt: string, updatedAt: string) returns (c: StoredComment)
      modifies this
      ensures c == StoredComment(freshId, data.prId, data.userId, data.role, data.commentText, createdAt)
      ensures IndexOfId(old(prs), data.prId) == -1 ==> prs == old(prs)
      ensures IndexOfId(old(prs), data.prId) >= 0 ==>
        var k := IndexOfId(old(prs), data.prId);
        prs == old(prs)[k := old(prs)[k].(comments := old(prs)[k].comments + [c],
                                          status := ActionRequired, lastUpdated := updatedAt)]
    {
      c := StoredComment(freshId, data.prId, data.userId, data.role, data.commentText, createdAt);
      var index := IndexOfId(prs, data.prId);
      if index >= 0 {
        var pr := prs[index];
        prs := prs[index := pr.(comments := pr.comments + [c], status := ActionRequired, lastUpdated := updatedAt)];
      }
    }
  }

  // -------------------------------------------------------------- lemmas

  /** Anyone but a sales executive sees exactly the records that are not drafts. */
  lemma AnalystSeesNonDrafts(s: seq<StoredPr>, userId: string, role: UserRole, pr: StoredPr)
    requires role != SalesExecutive
    ensures pr in VisibleTo(s, userId, role) <==> pr in s && pr.status != Draft
    ensures multiset(VisibleTo(s, userId, role))[pr] == if pr.status != Draft then multiset(s)[pr] else 0
  {
    VisibleToCounts(s, userId, role);
  }

  /** A sales executive sees exactly the records that user created, each as often as it is stored. */
  lemma SalesSeesOwn(s: seq<StoredPr>, userId: string, pr: StoredPr)
    ensures pr in VisibleTo(s, userId, SalesExecutive) <==> pr in s && pr.createdBy == userId
    ensures multiset(VisibleTo(s, userId, SalesExecutive))[pr] == if pr.createdBy == userId then multiset(s)[pr] else 0
  {
    VisibleToCounts(s, userId, SalesExecutive);
  }

  /** A record appended under an id no earlier record has is what `getPR` then finds. */
  lemma {:induction false} FindAppendedFresh(s: seq<StoredPr>, pr: StoredPr)
    requires forall j :: 0 <= j < |s| ==> s[j].id != pr.id
    ensures IndexOfId(s + [pr], pr.id) == |s|
    ensures FindById(s + [pr], pr.id) == Some(pr)
  {
    var t := s + [pr];
    assert t[|s|] == pr;
  }

  /** Creating a PR under a fresh id and deleting that id gives back the store. */
  lemma CreateThenDelete(s: seq<StoredPr>, data: NewPr, freshId: string, now: string)
    requires forall j :: 0 <= j < |s| ==> s[j].id != freshId
    ensures IndexOfId(s + [NewRecord(data, freshId, now)], freshId) == |s|
    ensures RemoveAt(s + [NewRecord(data, freshId, now)], |s|) == s
  {
    FindAppendedFresh(s, NewRecord(data, freshId, now));
    assert (s + [NewRecord(data, freshId, now)])[..|s|] == s;
  }

  /** A freshly created PR is a draft, so an analyst's list does not change. */
  lemma {:induction false} CreatedDraftHiddenFromAnalysts(s: seq<StoredPr>, data: NewPr, freshId: string,
                                                         now: string, userId: string, role: UserRole)
    requires role != SalesExecutive
    ensures VisibleTo(s + [NewRecord(data, freshId, now)], userId, role) == VisibleTo(s, userId, role)
  {
    var pr := NewRecord(data, freshId, now);
    if s == [] {
      assert [] + [pr] == [pr];
    } else {
      assert (s + [pr])[1..] == s[1..] + [pr];
      CreatedDraftHiddenFromAnalysts(s[1..], data, freshId, now, userId, role);
    }
  }

  /** The record `submitPR` stores in place of `pr`. */
  function Submitted(pr: StoredPr, submittedAt: string, updatedAt: string): (r: StoredPr)
    ensures r.status == UnderReview && r.submissionDate == Some(submittedAt) && r.lastUpdated == updatedAt
    ensures r.id == pr.id && r.createdBy == pr.createdBy && r.comments == pr.comments
  {
    pr.(status := UnderReview, submissionDate := Some(submittedAt), lastUpdated := updatedAt)
  }

  /**
   * Submitting the record at position k changes an analyst's list by exactly
   * that record: the old one leaves it if it was listed, the submitted one
   * joins it, and nothing else moves in or out, whatever the prior status.
   */
  lemma SubmittedIsVisibleToAnalysts(s: seq<StoredPr>, k: nat, submittedAt: string, updatedAt: string, userId: string, role: UserRole)
    requires k < |s| && role != SalesExecutive
    ensures Submitted(s[k], submittedAt, updatedAt) in VisibleTo(s[k := Submitted(s[k], submittedAt, updatedAt)], userId, role)
    ensures multiset(VisibleTo(s[k := Submitted(s[k], submittedAt, updatedAt)], userId, role))
         == multiset(VisibleTo(s, userId, role))
            - (if s[k].status != Draft then multiset{s[k]} else multiset{})
            + multiset{Submitted(s[k], submittedAt, updatedAt)}
  {
    var v := Submitted(s[k], submittedAt, updatedAt);
    var t := s[k := v];
    assert v in VisibleTo(t, userId, role) by {
      assert t[k] == v;
    }
    VisibleAfterUpdate(s, k, v, userId, role);
    assert Visible(s[k], userId, role) <==> s[k].status != Draft;
  }

  /** Replacing the record at position k by a visible one swaps exactly those two in the list. */
  lemma VisibleAfterUpdate(s: seq<StoredPr>, k: nat, v: StoredPr, userId: string, role: UserRole)
    requires k < |s| && Visible(v, userId, role)
    ensures multiset(VisibleTo(s[k := v], userId, role))
         == multiset(VisibleTo(s, userId, role))
            - (if Visible(s[k], userId, role) then multiset{s[k]} else multiset{}) + multiset{v}
  {
    var t := s[k := v];
    assert s[k] in s;
    assert multiset(t) == multiset(s) - multiset{s[k]} + multiset{v};
    VisibleToCounts(s, userId, role);
    VisibleToCounts(t, userId, role);
    FilteredSwap(multiset(s), multiset(t), multiset(VisibleTo(s, userId, role)),
                 multiset(VisibleTo(t, userId, role)), s[k], v, x => Visible(x, userId, role));
  }

  /**
   * Replacing one occurrence of `a` by `v` in a multiset changes its filtered
   * part by exactly those two, when `v` passes the filter.
   */
  lemma FilteredSwap<T>(ms: multiset<T>, mt: multiset<T>, before: multiset<T>, after: multiset<T>,
                        a: T, v: T, keep: T -> bool)
    requires a in ms && keep(v)
    requires mt == ms - multiset{a} + multiset{v}
    requires forall x :: before[x] == if keep(x) then ms[x] else 0
    requires forall x :: after[x] == if keep(x) then mt[x] else 0
    ensures after == before - (if keep(a) then multiset{a} else multiset{}) + multiset{v}
  {
    var gone: multiset<T> := if keep(a) then multiset{a} else multiset{};
    forall x
      ensures after[x] == (before - gone + multiset{v})[x]
    {
    }
  }
}
