/**
 * The logic of my-app/src/pages/AnalystDashboard.tsx: the status colour and
 * label of a card's chip, the filter and counts over the analyst's lists, the
 * Assign button and the card's quick actions, and the invalidation after assign.
 * Expressions that read `PRStatus.ACTIVE_STATUS` take its value as `active`.
 */
module AnalystDashboard {
  import opened Js
  import opened Types
  import opened Mapper
  import opened QueryCache
  import PrDetailsPage
  import SalesDashboard

  type Color = PrDetailsPage.Color

  /** `getStatusColor(status)`: the same `switch` as the details page, but "closed" is always "default". */
  function StatusColor(active: ActiveConst, status: Value): (r: Result<Color>)
    ensures r == Ok(PrDetailsPage.InfoColor) ==>
      status.Str? && Lower(status.s) !in PrDetailsPage.EarlyCases()
  {
    var n :- LowerOpt(status);
    if n == Some("draft") then Ok(PrDetailsPage.DefaultColor)
    else if n == Some("under_review") then Ok(PrDetailsPage.WarningColor)
    else if n == Some("action_required") then Ok(PrDetailsPage.ErrorColor)
    else if n == Some("approved") then Ok(PrDetailsPage.SuccessColor)
    else if n == Some("rejected") then Ok(PrDetailsPage.ErrorColor)
    else
      var act :- LowerStrict(ActiveValue(active));
      if n == Some(act) || n == Some("active status") then Ok(PrDetailsPage.InfoColor)
      else Ok(PrDetailsPage.DefaultColor)
  }

  /**
   * The analyst colour is the details page's colour when no PR is passed: it
   * depends on the status alone, and closed and unrecognised statuses are "default".
   */
  lemma ColorAgreesWithDetails(active: ActiveConst, status: Value)
    ensures StatusColor(active, status) == PrDetailsPage.StatusColor(active, status, None)
  {
  }

  /** `getStatusLabel(status)`: like the sales dashboard's, plus the active status. */
  function StatusLabel(active: ActiveConst, status: Value): (r: Result<Value>)
    ensures r.Ok? ==> status.Str? || Nullish(status)
  {
    var n :- LowerOpt(status);
    if n == Some("draft") then Ok(Str("Draft"))
    else if n == Some("under_review") then Ok(Str("Under Review"))
    else if n == Some("action_required") then Ok(Str("Action Required"))
    else if n == Some("approved") then Ok(Str("Approved"))
    else if n == Some("rejected") then Ok(Str("Rejected"))
    else
      var act :- LowerStrict(ActiveValue(active));
      if n == Some(act) || n == Some("active status") then Ok(Str("Active Status"))
      else if n == Some("closed") then Ok(Str("Closed"))
      else Ok(status)
  }

  /**
   * With the constant defined, the analyst label is "Active Status" for the two
   * active spellings and the sales dashboard's label for everything else.
   */
  lemma LabelExtendsSalesLabel(status: Value)
    requires status.Str? || Nullish(status)
    ensures status.Str? && Lower(status.s) in {"active_status", "active status"} ==>
      StatusLabel(WithActiveStatus, status) == Ok(Str("Active Status"))
    ensures !(status.Str? && Lower(status.s) in {"active_status", "active status"}) ==>
      StatusLabel(WithActiveStatus, status) == SalesDashboard.StatusLabel(status)
  {
    PrDetailsPage.ActiveConstLower();
  }

  /** As written, the label throws for every status past the five early cases. */
  lemma AsWrittenLabelThrows(status: Value)
    ensures StatusLabel(AsWritten, status).Throws? <==>
      !(status.Str? && Lower(status.s) in PrDetailsPage.EarlyCases())
  {
  }

  /** The status a card's chip shows: the analyst status when truthy, else the sales status. */
  function ChipStatus(pr: Pr): (v: Value)
    ensures Truthy(pr.analystStatus) ==> v == pr.analystStatus
    ensures !Truthy(pr.analystStatus) ==> v == pr.salesStatus
  {
    Or(pr.analystStatus, pr.salesStatus)
  }

  /** `filterPRsByStatus(prs, status)`: the sales filter applied to the analyst status. */
  function FilterPRsByStatus(prs: seq<Pr>, status: Value): (r: Result<seq<Pr>>)
    ensures r.Ok? ==> Sublist(r.value, prs)
    ensures r.Ok? ==> forall p :: p in r.value <==>
      p in prs && SalesDashboard.MatchesStatus(p.analystStatus, status) == Ok(true)
    ensures r.Ok? ==>
      forall p :: multiset(r.value)[p] ==
        (if SalesDashboard.MatchesStatus(p.analystStatus, status) == Ok(true) then multiset(prs)[p] else 0)
  {
    SalesDashboard.Filter(prs, SalesDashboard.AnalystTrack, status)
  }

  datatype Stats = Stats(available: nat, assignedCount: nat, activeStatus: nat, closed: nat)

  /** `list?.length || 0` */
  function LengthOrZero(prs: Option<seq<Pr>>): (n: nat)
    ensures prs.Some? ==> n == |prs.value|
    ensures prs.None? ==> n == 0
  {
    if prs.Some? then |prs.value| else 0
  }

  /** `getStats()`: list sizes, and the active and closed counts within the assigned list. */
  function GetStats(active: ActiveConst, availablePrs: Option<seq<Pr>>, myPrs: Option<seq<Pr>>): (r: Result<Stats>)
    ensures r.Ok? ==> r.value.available == LengthOrZero(availablePrs)
    ensures r.Ok? ==> r.value.assignedCount == LengthOrZero(myPrs)
    ensures r.Ok? ==> var mine := if myPrs.Some? then myPrs.value else [];
      && r.value.activeStatus == SalesDashboard.Count(mine, SalesDashboard.AnalystTrack, ActiveValue(active))
      && r.value.closed == SalesDashboard.Count(mine, SalesDashboard.AnalystTrack, Str("CLOSED"))
    ensures r.Ok? ==> r.value.activeStatus <= r.value.assignedCount && r.value.closed <= r.value.assignedCount
    ensures myPrs.None? || myPrs.value == [] ==> r == Ok(Stats(LengthOrZero(availablePrs), 0, 0, 0))
  {
    var mine := if myPrs.Some? then myPrs.value else [];
    var activeOnes :- FilterPRsByStatus(mine, ActiveValue(active));
    var closedOnes :- FilterPRsByStatus(mine, Str("CLOSED"));
    SalesDashboard.FilterCount(mine, SalesDashboard.AnalystTrack, ActiveValue(active));
    SalesDashboard.FilterCount(mine, SalesDashboard.AnalystTrack, Str("CLOSED"));
    Ok(Stats(LengthOrZero(availablePrs), LengthOrZero(myPrs), |activeOnes|, |closedOnes|))
  }

  /** As written, the counts throw exactly when the analyst has an assigned PR. */
  lemma AsWrittenStatsThrow(availablePrs: Option<seq<Pr>>, myPrs: Option<seq<Pr>>)
    ensures GetStats(AsWritten, availablePrs, myPrs).Throws? <==> myPrs.Some? && myPrs.value != []
  {
    if myPrs.Some? && myPrs.value != [] {
      var p := myPrs.value[0];
      assert p in myPrs.value;
      assert SalesDashboard.MatchesStatus(p.analystStatus, Undefined).Throws?;
    }
  }

  /** The Assign button: a card of the available list whose PR is not assigned. */
  function AssignButton(inAvailableList: bool, pr: Pr): (shown: bool)
    ensures shown ==> inAvailableList && !Truthy(pr.assignedTo)
    ensures inAvailableList && Nullish(pr.assignedTo) ==> shown
  {
    inAvailableList && !Truthy(pr.assignedTo)
  }

  /** The card's quick actions: approve/reject icons for an active PR, a comment icon for one needing action. */
  datatype QuickActions = QuickActions(decide: bool, comment: bool)

  function CardQuickActions(active: ActiveConst, pr: Pr): (r: Result<QuickActions>)
    ensures r.Ok? <==> active.Some? && (pr.analystStatus.Str? || Nullish(pr.analystStatus))
    ensures r.Ok? && r.value.decide ==> pr.analystStatus.Str?
  {
    var n :- LowerOpt(pr.analystStatus);
    var act :- LowerStrict(ActiveValue(active));
    var decide := n == Some(act) || n == Some("active status");
    var comment := n == Some("action_required") || n == Some("action required");
    Ok(QuickActions(decide, comment))
  }

  /** As written, every card throws while its quick actions are drawn. */
  lemma AsWrittenCardsThrow(pr: Pr)
    ensures CardQuickActions(AsWritten, pr).Throws?
  {
  }

  /** With the constant defined, the icons follow the analyst status. */
  lemma QuickActionsIff(pr: Pr)
    requires pr.analystStatus.Str? || Nullish(pr.analystStatus)
    ensures CardQuickActions(WithActiveStatus, pr).Ok?
    ensures CardQuickActions(WithActiveStatus, pr).value.decide <==>
      pr.analystStatus.Str? && Lower(pr.analystStatus.s) in {"active_status", "active status"}
    ensures CardQuickActions(WithActiveStatus, pr).value.comment <==>
      pr.analystStatus.Str? && Lower(pr.analystStatus.s) in {"action_required", "action required"}
  {
    PrDetailsPage.ActiveConstLower();
  }

  /** The keys the assign mutation invalidates. */
  const AvailableKey: Key := [Str("pa-available-prs")]
  const MyKey: Key := [Str("pa-my-prs")]

  /** The key a list query caches under: `[base, user?.id]`. */
  function ShownKey(base: Key, user: Option<User>): (k: Key)
    ensures |k| == |base| + 1 && base <= k
  {
    base + [if user.Some? then Str(user.value.id) else Undefined]
  }

  /**
   * As written, a decision or comment on the details page settles by
   * invalidating `["pr-details", prId]` and `["pa-prs"]`. Neither starts the
   * key either of this dashboard's lists is cached under, so after an approve,
   * reject or request-action neither list is invalidated.
   */
  lemma AsWrittenDecisionsMissAnalystLists(m: PrDetailsPage.DetailMutation, prId: string, user: Option<User>)
    requires m != PrDetailsPage.Resubmit
    ensures !Marks({DetailKey(prId), PrDetailsPage.ListKey(m)}, ShownKey(AvailableKey, user))
    ensures !Marks({DetailKey(prId), PrDetailsPage.ListKey(m)}, ShownKey(MyKey, user))
  {
    var settled := {DetailKey(prId), PrDetailsPage.ListKey(m)};
    assert PrDetailsPage.ListKey(m) == [Str("pa-prs")];
    assert "pa-prs" != "pa-available-prs" && "pa-prs" != "pa-my-prs";
    assert "pr-details" != "pa-available-prs" && "pr-details" != "pa-my-prs";
    forall k | k in settled
      ensures !(k <= ShownKey(AvailableKey, user)) && !(k <= ShownKey(MyKey, user))
    {
      assert k[0] != ShownKey(AvailableKey, user)[0] && k[0] != ShownKey(MyKey, user)[0];
    }
  }

  /**
   * The keys a details-page mutation should invalidate on settling: its details
   * and the lists it changes, which for a decision are this dashboard's two.
   */
  function CorrectedSettleKeys(m: PrDetailsPage.DetailMutation, prId: string): (ks: set<Key>)
    ensures DetailKey(prId) in ks
    ensures m == PrDetailsPage.Resubmit ==> PrDetailsPage.ListKey(m) in ks
    ensures m != PrDetailsPage.Resubmit ==> AvailableKey in ks && MyKey in ks
  {
    if m == PrDetailsPage.Resubmit then {DetailKey(prId), PrDetailsPage.ListKey(m)}
    else {DetailKey(prId), AvailableKey, MyKey}
  }

  /** With the corrected keys, every decision invalidates both of this dashboard's lists, whoever is signed in. */
  lemma CorrectedDecisionsRefreshAnalystLists(m: PrDetailsPage.DetailMutation, prId: string, user: Option<User>)
    requires m != PrDetailsPage.Resubmit
    ensures Marks(CorrectedSettleKeys(m, prId), ShownKey(AvailableKey, user))
    ensures Marks(CorrectedSettleKeys(m, prId), ShownKey(MyKey, user))
  {
    assert AvailableKey in CorrectedSettleKeys(m, prId) && AvailableKey <= ShownKey(AvailableKey, user);
    assert MyKey in CorrectedSettleKeys(m, prId) && MyKey <= ShownKey(MyKey, user);
  }

  /** The dashboard's query client. */
  class AnalystBoard {
    const client: QueryClient

    constructor (client: QueryClient)
      ensures this.client == client
    {
      this.client := client;
    }

    /**
     * The assign mutation, its remote outcome given as `remoteOk`: no optimistic
     * edit; on success both lists are invalidated, on failure nothing happens.
     */
    method Assign(remoteOk: bool)
      modifies client
      ensures client.entries == old(client.entries)
      ensures remoteOk ==> client.invalidated == old(client.invalidated) + {AvailableKey, MyKey}
      ensures !remoteOk ==> client.invalidated == old(client.invalidated)
    {
      if remoteOk {
        client.InvalidateQueries(AvailableKey);
        client.InvalidateQueries(MyKey);
      }
    }
  }
}
