/**
 * The logic of my-app/src/pages/PRDetailsPage.tsx: the status colour of a PR,
 * which action buttons the page shows, when the action dialog's submit button is
 * disabled, which mutation a submit dispatches, and the optimistic cache edits of
 * the resubmit, approve, reject and request-action mutations with their rollback.
 *
 * Every expression that reads `PRStatus.ACTIVE_STATUS` takes its value as the
 * parameter `active` (see `Types.ActiveConst`).
 */
module PrDetailsPage {
  import opened Js
  import opened Types
  import opened Mapper
  import opened QueryCache

  /** The MUI chip colours "default", "warning", "error", "success" and "info". */
  datatype Color = DefaultColor | WarningColor | ErrorColor | SuccessColor | InfoColor

  /** `x?.toLowerCase() === target`, which throws for a value that is not a string or nullish. */
  function LowerEquals(x: Value, target: string): (r: Result<bool>)
    ensures r.Ok? <==> x.Str? || Nullish(x)
    ensures r == Ok(true) <==> x.Str? && Lower(x.s) == target
  {
    var n :- LowerOpt(x);
    Ok(n == Some(target))
  }

  // --------------------------------------------------------- status colour

  /**
   * The closed branch: the final approval status decides first, then the analyst
   * status, then whether the last comment mentions "approved" (tested before
   * "rejected"); otherwise, and when no PR is passed, "default".
   */
  function ClosedColor(pr: Option<Pr>): (r: Result<Color>)
    ensures r.Ok? ==> r.value in {DefaultColor, SuccessColor, ErrorColor}
    ensures pr.None? ==> r == Ok(DefaultColor)
  {
    if pr.None? then Ok(DefaultColor)
    else
      var p := pr.value;
      var final :- LowerOpt(p.finalApprovalStatus);
      if final == Some("approved") then Ok(SuccessColor)
      else if final == Some("rejected") then Ok(ErrorColor)
      else
        var analyst :- LowerOpt(p.analystStatus);
        if analyst == Some("approved") then Ok(SuccessColor)
        else if analyst == Some("rejected") then Ok(ErrorColor)
        else LastCommentColor(p.comments)
  }

  /**
   * `getStatusColor(status, pr)` (my-app/src/pages/SalesDashboard.tsx has the same
   * function). The `switch` compares the lower-cased status with each case in
   * order, so the ACTIVE_STATUS case is evaluated for every status that is not
   * one of the five before it.
   */
  function StatusColor(active: ActiveConst, status: Value, pr: Option<Pr>): (r: Result<Color>)
    ensures !(status.Str? || Nullish(status)) ==> r == Throws(TypeError)
    ensures status.Str? && Lower(status.s) in EarlyCases() ==> r.Ok? && r.value != InfoColor
  {
    var n :- LowerOpt(status);
    if n == Some("draft") then Ok(DefaultColor)
    else if n == Some("under_review") then Ok(WarningColor)
    else if n == Some("action_required") then Ok(ErrorColor)
    else if n == Some("approved") then Ok(SuccessColor)
    else if n == Some("rejected") then Ok(ErrorColor)
    else
      var act :- LowerStrict(ActiveValue(active));
      if n == Some(act) || n == Some("active status") then Ok(InfoColor)
      else if n == Some("closed") then ClosedColor(pr)
      else Ok(DefaultColor)
  }

  /** The lower-cased statuses the `switch` matches before it reaches the ACTIVE_STATUS case. */
  function EarlyCases(): set<string> {
    {"draft", "under_review", "action_required", "approved", "rejected"}
  }

  /** The colour of each of the five early statuses, whatever the ACTIVE_STATUS constant. */
  lemma EarlyStatusColors(active: ActiveConst, s: string, pr: Option<Pr>)
    ensures Lower(s) == "draft" ==> StatusColor(active, Str(s), pr) == Ok(DefaultColor)
    ensures Lower(s) == "under_review" ==> StatusColor(active, Str(s), pr) == Ok(WarningColor)
    ensures Lower(s) == "action_required" ==> StatusColor(active, Str(s), pr) == Ok(ErrorColor)
    ensures Lower(s) == "approved" ==> StatusColor(active, Str(s), pr) == Ok(SuccessColor)
    ensures Lower(s) == "rejected" ==> StatusColor(active, Str(s), pr) == Ok(ErrorColor)
  {
  }

  /**
   * With the constant defined: the active forms give "info", an unrecognised
   * status (or none) gives "default", and "closed" follows `ClosedColor`.
   */
  lemma LaterStatusColors(s: Value, pr: Option<Pr>)
    requires s.Str? || Nullish(s)
    requires !(s.Str? && Lower(s.s) in EarlyCases())
    ensures s.Str? && Lower(s.s) in {"active_status", "active status"} ==>
      StatusColor(WithActiveStatus, s, pr) == Ok(InfoColor)
    ensures s.Str? && Lower(s.s) == "closed" ==> StatusColor(WithActiveStatus, s, pr) == ClosedColor(pr)
    ensures !(s.Str? && Lower(s.s) in {"active_status", "active status", "closed"}) ==>
      StatusColor(WithActiveStatus, s, pr) == Ok(DefaultColor)
  {
    ActiveConstLower();
  }

  /** `"ACTIVE_STATUS".toLowerCase()` */
  lemma ActiveConstLower()
    ensures LowerStrict(ActiveValue(WithActiveStatus)) == Ok("active_status")
  {
    assert Lower("ACTIVE_STATUS") == "active_status";
  }

  /**
   * As written (no ACTIVE_STATUS key), `getStatusColor` throws exactly when the
   * status is not a string or nullish, or when it is not one of the five early
   * statuses: "active status", "closed" and every unrecognised status crash.
   */
  lemma AsWrittenColorThrows(s: Value, pr: Option<Pr>)
    ensures StatusColor(AsWritten, s, pr).Throws? <==>
      !(s.Str? && Lower(s.s) in EarlyCases())
  {
  }

  /** The three-tier rule for a closed PR: a final decision wins over everything else. */
  lemma ClosedFinalDecides(p: Pr)
    requires p.finalApprovalStatus.Str?
    ensures Lower(p.finalApprovalStatus.s) == "approved" ==> ClosedColor(Some(p)) == Ok(SuccessColor)
    ensures Lower(p.finalApprovalStatus.s) == "rejected" ==> ClosedColor(Some(p)) == Ok(ErrorColor)
  {
  }

  /**
   * Without a final decision the analyst status decides; without either, only the
   * last comment is consulted, "approved" before "rejected".
   */
  lemma ClosedFallbacks(p: Pr)
    requires Nullish(p.finalApprovalStatus)
    requires p.analystStatus.Str? || Nullish(p.analystStatus)
    ensures p.analystStatus.Str? && Lower(p.analystStatus.s) == "approved" ==>
      ClosedColor(Some(p)) == Ok(SuccessColor)
    ensures p.analystStatus.Str? && Lower(p.analystStatus.s) == "rejected" ==>
      ClosedColor(Some(p)) == Ok(ErrorColor)
    ensures !(p.analystStatus.Str? && Lower(p.analystStatus.s) in {"approved", "rejected"}) ==>
      ClosedColor(Some(p)) == LastCommentColor(p.comments)
  {
  }

  /** The colour the last comment alone gives. */
  function LastCommentColor(comments: seq<Comment>): (r: Result<Color>)
    ensures comments == [] ==> r == Ok(DefaultColor)
    ensures comments != [] && comments[|comments| - 1].commentText.Str? ==>
      var t := Lower(comments[|comments| - 1].commentText.s);
      && (Contains(t, "approved") ==> r == Ok(SuccessColor))
      && (!Contains(t, "approved") && Contains(t, "rejected") ==> r == Ok(ErrorColor))
      && (!Contains(t, "approved") && !Contains(t, "rejected") ==> r == Ok(DefaultColor))
  {
    if comments == [] then Ok(DefaultColor)
    else
      var text :- LowerOpt(comments[|comments| - 1].commentText);
      if text.Some? && Contains(text.value, "approved") then Ok(SuccessColor)
      else if text.Some? && Contains(text.value, "rejected") then Ok(ErrorColor)
      else Ok(DefaultColor)
  }

  // ------------------------------------------------------- action buttons

  predicate IsSales(user: Option<User>) {
    user.Some? && user.value.role == SalesExecutive
  }

  predicate IsAnalyst(user: Option<User>) {
    user.Some? && user.value.role == PricingAnalyst
  }

  /** Edit, Send to PA and Delete: a sales executive looking at a draft. */
  function DraftControls(user: Option<User>, pr: Pr): (r: Result<bool>)
    ensures !IsSales(user) ==> r == Ok(false)
    ensures r == Ok(true) <==> IsSales(user) && pr.salesStatus.Str? && Lower(pr.salesStatus.s) == "draft"
  {
    if !IsSales(user) then Ok(false)
    else
      var isDraft :- LowerEquals(pr.salesStatus, "draft");
      Ok(isDraft)
  }

  /** Whether a status lower-cases to "action_required" or "action required". */
  function IsActionRequired(x: Value): (r: Result<bool>)
    ensures r.Ok? <==> x.Str? || Nullish(x)
    ensures r == Ok(true) <==> x.Str? && Lower(x.s) in {"action_required", "action required"}
  {
    var n :- LowerOpt(x);
    Ok(n == Some("action_required") || n == Some("action required"))
  }

  /** Edit and Resubmit: a sales executive looking at a PR that needs action. */
  function ResubmitControls(user: Option<User>, pr: Pr): (r: Result<bool>)
    ensures !IsSales(user) ==> r == Ok(false)
    ensures r == Ok(true) <==>
      IsSales(user) && pr.salesStatus.Str? && Lower(pr.salesStatus.s) in {"action_required", "action required"}
  {
    if !IsSales(user) then Ok(false) else IsActionRequired(pr.salesStatus)
  }

  /** The draft buttons and the resubmit buttons never show together. */
  lemma SalesControlsExclusive(user: Option<User>, pr: Pr)
    ensures !(DraftControls(user, pr) == Ok(true) && ResubmitControls(user, pr) == Ok(true))
  {
  }

  /**
   * Approve, Reject and Request Action: a pricing analyst, the PR assigned to
   * that analyst, and an analyst status that lower-cases to the active status.
   */
  function DecisionControls(active: ActiveConst, user: Option<User>, pr: Pr): (r: Result<bool>)
    ensures !IsAnalyst(user) || !Truthy(pr.assignedTo) ==> r == Ok(false)
    ensures r == Ok(true) ==> IsAnalyst(user) && pr.assignedTo == Str(user.value.id) && user.value.id != ""
  {
    if !IsAnalyst(user) || !Truthy(pr.assignedTo) || pr.assignedTo != Str(user.value.id) then Ok(false)
    else
      var n :- LowerOpt(pr.analystStatus);
      var act :- LowerStrict(ActiveValue(active));
      Ok(n == Some(act) || n == Some("active status"))
  }

  /** With the constant defined, exactly the two active spellings enable the decision buttons. */
  lemma DecisionControlsIff(user: Option<User>, pr: Pr)
    ensures DecisionControls(WithActiveStatus, user, pr) == Ok(true) <==>
      && IsAnalyst(user) && pr.assignedTo == Str(user.value.id) && user.value.id != ""
      && pr.analystStatus.Str? && Lower(pr.analystStatus.s) in {"active_status", "active status"}
  {
    ActiveConstLower();
  }

  /** "ACTIVE_STATUS", "Active Status" and "active status" all enable the buttons. */
  lemma ActiveSpellingsEnable(user: User, pr: Pr)
    requires user.role == PricingAnalyst && user.id != "" && pr.assignedTo == Str(user.id)
    ensures pr.analystStatus in {Str("ACTIVE_STATUS"), Str("Active Status"), Str("active status")} ==>
      DecisionControls(WithActiveStatus, Some(user), pr) == Ok(true)
  {
    DecisionControlsIff(Some(user), pr);
    ActiveSpellingsLower();
  }

  /** `toLowerCase()` of the three active spellings. */
  lemma ActiveSpellingsLower()
    ensures Lower("ACTIVE_STATUS") == "active_status"
    ensures Lower("Active Status") == "active status" && Lower("active status") == "active status"
  {
  }

  /** As written, opening a PR assigned to oneself as an analyst throws. */
  lemma AsWrittenDecisionControlsThrow(user: User, pr: Pr)
    requires user.role == PricingAnalyst && user.id != "" && pr.assignedTo == Str(user.id)
    ensures DecisionControls(AsWritten, Some(user), pr).Throws?
  {
  }

  // -------------------------------------------------------- action dialog

  datatype ActionType = ApproveAction | RejectAction | ActionRequiredAction

  /** Whether the action dialog's submit button is disabled. */
  function SubmitDisabled(action: ActionType, comment: string, pending: bool): (d: bool)
    ensures pending ==> d
    ensures !pending && action == ApproveAction ==> !d
  {
    (action != ApproveAction && Trim(comment) == "") || pending
  }

  /** Rejecting or requesting action is blocked exactly while the comment is blank. */
  lemma CommentRequiredUnlessApprove(action: ActionType, comment: string)
    requires action != ApproveAction
    ensures SubmitDisabled(action, comment, false) <==> Blank(comment)
  {
    TrimEmptyIffBlank(comment);
  }

  /** The four mutations with an optimistic detail edit. */
  datatype DetailMutation = Resubmit | Approve | Reject | RequestAction

  /** `handleActionSubmit`: approve, reject, and anything else requests action. */
  function ActionMutation(action: ActionType): (m: DetailMutation)
    ensures m != Resubmit
    ensures (m == Approve <==> action == ApproveAction) && (m == Reject <==> action == RejectAction)
  {
    if action == ApproveAction then Approve
    else if action == RejectAction then Reject
    else RequestAction
  }

  datatype EditMutation = UpdateEdit | ResubmitEdit

  /**
   * The edit dialog's submit: resubmit when the status of the viewer's side
   * (sales status for a sales executive, analyst status otherwise) needs action.
   */
  function EditDispatch(user: Option<User>, pr: Pr): (r: Result<EditMutation>)
    ensures IsSales(user) ==> (r == Ok(ResubmitEdit) <==> ResubmitControls(user, pr) == Ok(true))
    ensures IsSales(user) ==> (r.Ok? <==> ResubmitControls(user, pr).Ok?)
  {
    var needsAction :- IsActionRequired(if IsSales(user) then pr.salesStatus else pr.analystStatus);
    if needsAction then Ok(ResubmitEdit) else Ok(UpdateEdit)
  }

  // --------------------------------------------------- optimistic updates

  /** The detail record each mutation writes while the remote call runs. */
  function Optimistic(m: DetailMutation, pr: Pr, now: string): (r: Pr)
    ensures r.lastUpdated == Str(now)
    ensures r.(salesStatus := pr.salesStatus, analystStatus := pr.analystStatus, lastUpdated := pr.lastUpdated) == pr
    ensures m != Resubmit ==> r.salesStatus == pr.salesStatus
    ensures m == Resubmit ==> r.salesStatus == Str("Active Status") && r.analystStatus == Str("Active Status")
    ensures m == Approve ==> r.analystStatus == Str("Approved")
    ensures m == Reject ==> r.analystStatus == Str("Rejected")
    ensures m == RequestAction ==> r.analystStatus == Str("Action Required")
  {
    match m
    case Resubmit => pr.(salesStatus := Str("Active Status"), analystStatus := Str("Active Status"), lastUpdated := Str(now))
    case Approve => pr.(analystStatus := Str("Approved"), lastUpdated := Str(now))
    case Reject => pr.(analystStatus := Str("Rejected"), lastUpdated := Str(now))
    case RequestAction => pr.(analystStatus := Str("Action Required"), lastUpdated := Str(now))
  }

  /**
   * Once a decision is shown optimistically, the decision buttons disappear, and
   * the analyst chip shows "success" for approve and "error" for reject.
   */
  lemma OptimisticDecisionHidesButtons(m: DetailMutation, user: Option<User>, pr: Pr, now: string)
    requires m != Resubmit
    ensures DecisionControls(WithActiveStatus, user, Optimistic(m, pr, now)) == Ok(false)
    ensures m == Approve ==> StatusColor(AsWritten, Optimistic(m, pr, now).analystStatus, None) == Ok(SuccessColor)
    ensures m == Reject ==> StatusColor(AsWritten, Optimistic(m, pr, now).analystStatus, None) == Ok(ErrorColor)
  {
    ActiveConstLower();
    assert Lower("Approved") == "approved";
    assert Lower("Rejected") == "rejected";
    assert Lower("Action Required") == "action required";
  }

  /**
   * The optimistic "Active Status" of a resubmit is shown as "info" once the
   * constant exists; as written, drawing its chip throws.
   */
  lemma OptimisticResubmitColor(pr: Pr, now: string)
    ensures StatusColor(WithActiveStatus, Optimistic(Resubmit, pr, now).salesStatus, None) == Ok(InfoColor)
    ensures StatusColor(AsWritten, Optimistic(Resubmit, pr, now).salesStatus, None).Throws?
  {
    ActiveConstLower();
    assert Lower("Active Status") == "active status";
  }

  /** The list each mutation snapshots and invalidates. */
  function ListKey(m: DetailMutation): (k: Key)
    ensures !IsDetailKey(k)
  {
    if m == Resubmit then [Str("sales-prs")] else [Str("pa-prs")]
  }

  /** The context `onMutate` returns: whatever the two keys held before the edit. */
  datatype Snapshot = Snapshot(previousPr: Option<Cached>, previousPrs: Option<Cached>)

  /** The cache after `onMutate`: the detail entry edited when one was cached, nothing else. */
  function AfterMutate(entries: map<Key, Cached>, detailKey: Key, m: DetailMutation, now: string): map<Key, Cached>
  {
    if detailKey in entries && entries[detailKey].DetailOf? then
      entries[detailKey := DetailOf(Optimistic(m, entries[detailKey].pr, now))]
    else entries
  }

  /** The page's own state and its query client. */
  class DetailsPage {
    const client: QueryClient
    const prId: string
    var editDialogOpen: bool
    var actionDialogOpen: bool
    var comment: string
    var actionType: ActionType

    constructor (client: QueryClient, prId: string)
      ensures this.client == client && this.prId == prId
      ensures !editDialogOpen && !actionDialogOpen && comment == "" && actionType == ApproveAction
    {
      this.client := client;
      this.prId := prId;
      editDialogOpen := false;
      actionDialogOpen := false;
      comment := "";
      actionType := ApproveAction;
    }

    /** `onMutate`: snapshot both keys, then edit the detail entry if one is cached. */
    method OnMutate(m: DetailMutation, now: string) returns (ctx: Snapshot)
      requires client.Valid()
      modifies client
      ensures client.Valid()
      ensures ctx == Snapshot(old(client.GetQueryData(DetailKey(prId))), old(client.GetQueryData(ListKey(m))))
      ensures client.entries == AfterMutate(old(client.entries), DetailKey(prId), m, now)
      ensures client.invalidated == old(client.invalidated)
    {
      var previousPr := client.GetQueryData(DetailKey(prId));
      var previousPrs := client.GetQueryData(ListKey(m));
      if previousPr.Some? {
        assert Fits(DetailKey(prId), previousPr.value);
        client.SetQueryData(DetailKey(prId), DetailOf(Optimistic(m, previousPr.value.pr, now)));
      }
      ctx := Snapshot(previousPr, previousPrs);
    }

    /** `onError`: put back each snapshot that exists. */
    method OnError(m: DetailMutation, ctx: Snapshot)
      requires client.Valid()
      requires ctx.previousPr.Some? ==> ctx.previousPr.value.DetailOf?
      requires ctx.previousPrs.Some? ==> ctx.previousPrs.value.ListOf?
      modifies client
      ensures client.Valid()
      ensures var e1 := if ctx.previousPr.Some? then old(client.entries)[DetailKey(prId) := ctx.previousPr.value]
                        else old(client.entries);
              client.entries == if ctx.previousPrs.Some? then e1[ListKey(m) := ctx.previousPrs.value] else e1
      ensures client.invalidated == old(client.invalidated)
    {
      if ctx.previousPr.Some? {
        client.SetQueryData(DetailKey(prId), ctx.previousPr.value);
      }
      if ctx.previousPrs.Some? {
        client.SetQueryData(ListKey(m), ctx.previousPrs.value);
      }
    }

    /** `onSettled`: invalidate both keys and close the dialog the mutation came from. */
    method OnSettled(m: DetailMutation)
      modifies client, this
      ensures client.entries == old(client.entries)
      ensures client.invalidated == old(client.invalidated) + {DetailKey(prId), ListKey(m)}
      ensures m == Resubmit ==> !editDialogOpen && actionDialogOpen == old(actionDialogOpen) && comment == old(comment)
      ensures m != Resubmit ==> !actionDialogOpen && comment == "" && editDialogOpen == old(editDialogOpen)
      ensures actionType == old(actionType)
    {
      client.InvalidateQueries(DetailKey(prId));
      client.InvalidateQueries(ListKey(m));
      if m == Resubmit {
        editDialogOpen := false;
      } else {
        actionDialogOpen := false;
        comment := "";
      }
    }

    /**
     * One mutation from start to settle, the remote call's outcome given as
     * `remoteOk`. On success the cache keeps the optimistic edit; on failure it is
     * exactly as before; both keys end up invalidated either way.
     */
    method Mutate(m: DetailMutation, now: string, remoteOk: bool)
      requires client.Valid()
      modifies client, this
      ensures client.Valid()
      ensures remoteOk ==> client.entries == AfterMutate(old(client.entries), DetailKey(prId), m, now)
      ensures !remoteOk ==> client.entries == old(client.entries)
      ensures client.invalidated == old(client.invalidated) + {DetailKey(prId), ListKey(m)}
      ensures m == Resubmit ==> !editDialogOpen && actionDialogOpen == old(actionDialogOpen) && comment == old(comment)
      ensures m != Resubmit ==> !actionDialogOpen && comment == "" && editDialogOpen == old(editDialogOpen)
      ensures actionType == old(actionType)
    {
      ghost var before := client.entries;
      var ctx := OnMutate(m, now);
      if !remoteOk {
        OnError(m, ctx);
        var e1 := if ctx.previousPr.Some? then before[DetailKey(prId) := ctx.previousPr.value] else before;
        assert e1 == before;
        assert ctx.previousPrs.Some? ==> before[ListKey(m)] == ctx.previousPrs.value;
      }
      OnSettled(m);
    }

    /** `handleActionSubmit`: run the mutation the chosen action type names. */
    method HandleActionSubmit(now: string, remoteOk: bool)
      requires client.Valid()
      modifies client, this
      ensures client.Valid()
      ensures remoteOk ==> client.entries == AfterMutate(old(client.entries), DetailKey(prId), ActionMutation(actionType), now)
      ensures !remoteOk ==> client.entries == old(client.entries)
      ensures client.invalidated == old(client.invalidated) + {DetailKey(prId), ListKey(ActionMutation(actionType))}
      ensures !actionDialogOpen && comment == "" && editDialogOpen == old(editDialogOpen)
      ensures actionType == old(actionType)
    {
      Mutate(ActionMutation(actionType), now, remoteOk);
    }
  }

  /** The optimistic edit writes only the detail entry, and only when it is cached. */
  lemma AfterMutateTouchesOnlyDetail(entries: map<Key, Cached>, prId: string, m: DetailMutation, now: string)
    ensures AfterMutate(entries, DetailKey(prId), m, now).Keys == entries.Keys
    ensures forall k | k in entries && k != DetailKey(prId) ::
      AfterMutate(entries, DetailKey(prId), m, now)[k] == entries[k]
    ensures DetailKey(prId) !in entries ==> AfterMutate(entries, DetailKey(prId), m, now) == entries
    ensures ListKey(m) in entries ==> AfterMutate(entries, DetailKey(prId), m, now)[ListKey(m)] == entries[ListKey(m)]
  {
  }
}
