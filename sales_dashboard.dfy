/**
 * The logic of my-app/src/pages/SalesDashboard.tsx: status labels, the
 * case- and underscore-tolerant status filter and the per-status counts, the
 * draft buttons on a card, the create dialog's dispatch, and the optimistic
 * create, submit and delete edits of the cached PR list with their rollback.
 * `getStatusColor` is the one of the details page (`PrDetailsPage.StatusColor`).
 */
module SalesDashboard {
  import opened Js
  import opened Types
  import opened Mapper
  import opened QueryCache
  import PrDetailsPage

  // -------------------------------------------------------------- labels

  /** `getStatusLabel`: the six enum forms get display labels; anything else comes back as given. */
  function StatusLabel(status: Value): (r: Result<Value>)
    ensures r.Ok? <==> status.Str? || Nullish(status)
    ensures status.Str? && Lower(status.s) !in LabelledForms() ==> r == Ok(status)
    ensures Nullish(status) ==> r == Ok(status)
  {
    var n :- LowerOpt(status);
    if n == Some("draft") then Ok(Str("Draft"))
    else if n == Some("under_review") then Ok(Str("Under Review"))
    else if n == Some("action_required") then Ok(Str("Action Required"))
    else if n == Some("approved") then Ok(Str("Approved"))
    else if n == Some("rejected") then Ok(Str("Rejected"))
    else if n == Some("closed") then Ok(Str("Closed"))
    else Ok(status)
  }

  function LabelledForms(): set<string> {
    {"draft", "under_review", "action_required", "approved", "rejected", "closed"}
  }

  /** The label of each `PRStatus` value. */
  lemma LabelOfEachStatus(s: PrStatus)
    ensures StatusLabel(Str(StatusName(s))) == Ok(Str(
      match s
      case Draft => "Draft"
      case UnderReview => "Under Review"
      case ActionRequired => "Action Required"
      case Approved => "Approved"
      case Rejected => "Rejected"
      case Closed => "Closed"))
  {
    LowerForms();
  }

  /** Labelling a label changes nothing. */
  lemma LabelIdempotent(status: Value)
    requires status.Str? || Nullish(status)
    ensures StatusLabel(StatusLabel(status).value) == StatusLabel(status)
  {
    LabelsLower();
  }

  /** `toLowerCase()` of the six display labels. */
  lemma LabelsLower()
    ensures Lower("Draft") == "draft" && Lower("Under Review") == "under review"
    ensures Lower("Action Required") == "action required" && Lower("Approved") == "approved"
    ensures Lower("Rejected") == "rejected" && Lower("Closed") == "closed"
  {
  }

  // ----------------------------------------------------- status filtering

  /** Which status a filter reads: the sales dashboard's or the analyst dashboard's. */
  datatype Track = SalesTrack | AnalystTrack

  function StatusOf(pr: Pr, track: Track): Value {
    if track == SalesTrack then pr.salesStatus else pr.analystStatus
  }

  /**
   * The filter's test: the PR's status lower-cased equals the wanted status
   * lower-cased, or that with its first underscore turned into a space.
   */
  function MatchesStatus(field: Value, status: Value): (r: Result<bool>)
    ensures r.Ok? <==> (field.Str? || Nullish(field)) && status.Str?
    ensures r == Ok(true) <==>
      && field.Str? && status.Str?
      && (Lower(field.s) == Lower(status.s) || Lower(field.s) == ReplaceFirst(Lower(status.s), '_', ' '))
  {
    var mine :- LowerOpt(field);
    var wanted :- LowerStrict(status);
    if mine == Some(wanted) then Ok(true)
    else Ok(mine == Some(ReplaceFirst(wanted, '_', ' ')))
  }

  /** `prs.filter(...)`, which throws on the first PR whose test throws. */
  function Filter(prs: seq<Pr>, track: Track, status: Value): (r: Result<seq<Pr>>)
    ensures prs == [] ==> r == Ok([])
    ensures r.Ok? <==> forall p | p in prs :: MatchesStatus(StatusOf(p, track), status).Ok?
    ensures r.Ok? ==> Sublist(r.value, prs) && |r.value| <= |prs|
    ensures r.Ok? ==> forall p :: p in r.value <==> p in prs && MatchesStatus(StatusOf(p, track), status) == Ok(true)
    ensures r.Ok? ==>
      forall p :: multiset(r.value)[p] ==
        (if MatchesStatus(StatusOf(p, track), status) == Ok(true) then multiset(prs)[p] else 0)
  {
    if prs == [] then Ok([])
    else
      assert forall p :: p in prs <==> p == prs[0] || p in prs[1..];
      assert prs == [prs[0]] + prs[1..];
      var keep :- MatchesStatus(StatusOf(prs[0], track), status);
      var rest :- Filter(prs[1..], track, status);
      Ok(if keep then [prs[0]] + rest else rest)
  }

  /** `filterPRsByStatus(status)` over the cached list, `[]` while there is none. */
  function FilterPRsByStatus(prs: Option<seq<Pr>>, status: Value): (r: Result<seq<Pr>>)
    ensures prs.None? ==> r == Ok([])
    ensures prs.Some? ==> r == Filter(prs.value, SalesTrack, status)
  {
    if prs.None? then Ok([]) else Filter(prs.value, SalesTrack, status)
  }

  /** What the filter keeps for each status constant the dashboard passes. */
  lemma MatchForms(field: Value)
    requires field.Str?
    ensures MatchesStatus(field, Str("DRAFT")) == Ok(true) <==> Lower(field.s) == "draft"
    ensures MatchesStatus(field, Str("UNDER_REVIEW")) == Ok(true) <==> Lower(field.s) in {"under_review", "under review"}
    ensures MatchesStatus(field, Str("APPROVED")) == Ok(true) <==> Lower(field.s) == "approved"
    ensures MatchesStatus(field, Str("REJECTED")) == Ok(true) <==> Lower(field.s) == "rejected"
    ensures MatchesStatus(field, Str("ACTION_REQUIRED")) == Ok(true) <==> Lower(field.s) in {"action_required", "action required"}
    ensures MatchesStatus(field, Str("CLOSED")) == Ok(true) <==> Lower(field.s) == "closed"
  {
    LowerForms();
    NoUnderscore();
    UnderReviewSpaced();
    ActionRequiredSpaced();
    MatchConst(field, "DRAFT", "draft", "draft");
    MatchConst(field, "UNDER_REVIEW", "under_review", "under review");
    MatchConst(field, "APPROVED", "approved", "approved");
    MatchConst(field, "REJECTED", "rejected", "rejected");
    MatchConst(field, "ACTION_REQUIRED", "action_required", "action required");
    MatchConst(field, "CLOSED", "closed", "closed");
  }

  /** `toLowerCase()` of the status constants. */
  lemma LowerForms()
    ensures Lower("DRAFT") == "draft" && Lower("UNDER_REVIEW") == "under_review"
    ensures Lower("APPROVED") == "approved" && Lower("REJECTED") == "rejected"
    ensures Lower("ACTION_REQUIRED") == "action_required" && Lower("CLOSED") == "closed"
  {
  }

  /** `replace("_", " ")` of the two lower-cased status constants that hold an underscore. */
  lemma UnderReviewSpaced()
    ensures ReplaceFirst("under_review", '_', ' ') == "under review"
  {
    SpelledParts();
    UnderscoreToSpace("under", "review");
  }

  lemma ActionRequiredSpaced()
    ensures ReplaceFirst("action_required", '_', ' ') == "action required"
  {
    SpelledParts();
    UnderscoreToSpace("action", "required");
  }

  /** The two constants split at their underscore, each way it is spelled. */
  lemma SpelledParts()
    ensures '_' !in "under" && '_' !in "action"
    ensures "under" + "_" + "review" == "under_review" && "under" + " " + "review" == "under review"
    ensures "action" + "_" + "required" == "action_required" && "action" + " " + "required" == "action required"
  {
  }

  /** `replace("_", " ")` leaves the other lower-cased status constants alone. */
  lemma NoUnderscore()
    ensures ReplaceFirst("draft", '_', ' ') == "draft"
    ensures ReplaceFirst("approved", '_', ' ') == "approved"
    ensures ReplaceFirst("rejected", '_', ' ') == "rejected"
    ensures ReplaceFirst("closed", '_', ' ') == "closed"
  {
    assert '_' !in "draft";
    assert '_' !in "approved";
    assert '_' !in "rejected";
    assert '_' !in "closed";
  }

  /** The filter's test against one constant, given its two lower-cased forms. */
  lemma MatchConst(field: Value, status: string, lowered: string, spaced: string)
    requires field.Str? && Lower(status) == lowered && ReplaceFirst(lowered, '_', ' ') == spaced
    ensures MatchesStatus(field, Str(status)) == Ok(true) <==> Lower(field.s) in {lowered, spaced}
  {
  }

  lemma UnderscoreToSpace(a: string, b: string)
    requires '_' !in a
    ensures ReplaceFirst(a + "_" + b, '_', ' ') == a + " " + b
  {
    assert a + "_" + b == a + ['_'] + b;
    assert a + " " + b == a + [' '] + b;
    ReplaceSplit(a, '_', ' ', b);
  }

  // -------------------------------------------------------------- counts

  datatype Stats = Stats(total: nat, drafts: nat, underReview: nat, approved: nat, rejected: nat, actionRequired: nat)

  function BucketSum(s: Stats): nat {
    s.drafts + s.underReview + s.approved + s.rejected + s.actionRequired
  }

  /** Every status the sales filter reads can be lower-cased. */
  predicate Readable(prs: seq<Pr>, track: Track) {
    forall p | p in prs :: StatusOf(p, track).Str? || Nullish(StatusOf(p, track))
  }

  /** `getStats()` */
  function GetStats(prs: Option<seq<Pr>>): (r: Result<Stats>)
    ensures prs.None? ==> r == Ok(Stats(0, 0, 0, 0, 0, 0))
    ensures prs.Some? ==> (r.Ok? <==> Readable(prs.value, SalesTrack))
    ensures r.Ok? && prs.Some? ==>
      && r.value.total == |prs.value|
      && r.value.drafts == Count(prs.value, SalesTrack, Str("DRAFT"))
      && r.value.underReview == Count(prs.value, SalesTrack, Str("UNDER_REVIEW"))
      && r.value.approved == Count(prs.value, SalesTrack, Str("APPROVED"))
      && r.value.rejected == Count(prs.value, SalesTrack, Str("REJECTED"))
      && r.value.actionRequired == Count(prs.value, SalesTrack, Str("ACTION_REQUIRED"))
      && BucketSum(r.value) <= r.value.total
  {
    if prs.None? then Ok(Stats(0, 0, 0, 0, 0, 0))
    else if !Readable(prs.value, SalesTrack) then
      ReadableIffFilterOk(prs.value, "DRAFT");
      Throws(FilterPRsByStatus(prs, Str("DRAFT")).exception)
    else
      var s := prs.value;
      ConstantFilterCount(s, "DRAFT");
      ConstantFilterCount(s, "UNDER_REVIEW");
      ConstantFilterCount(s, "APPROVED");
      ConstantFilterCount(s, "REJECTED");
      ConstantFilterCount(s, "ACTION_REQUIRED");
      BucketsDisjoint(s);
      Ok(Stats(|s|,
               |FilterPRsByStatus(prs, Str("DRAFT")).value|,
               |FilterPRsByStatus(prs, Str("UNDER_REVIEW")).value|,
               |FilterPRsByStatus(prs, Str("APPROVED")).value|,
               |FilterPRsByStatus(prs, Str("REJECTED")).value|,
               |FilterPRsByStatus(prs, Str("ACTION_REQUIRED")).value|))
  }

  /** A filter by a constant status succeeds exactly when every status read can be lower-cased. */
  lemma ReadableIffFilterOk(prs: seq<Pr>, status: string)
    ensures Filter(prs, SalesTrack, Str(status)).Ok? <==> Readable(prs, SalesTrack)
  {
  }

  /** Whether a PR lands in the bucket of a status: 1 when its status on the track matches, else 0. */
  function Hit(pr: Pr, track: Track, status: Value): nat {
    if MatchesStatus(StatusOf(pr, track), status) == Ok(true) then 1 else 0
  }

  /** The number of PRs whose status on the track matches, counted position by position. */
  function Count(prs: seq<Pr>, track: Track, status: Value): (n: nat)
    ensures n <= |prs|
  {
    if prs == [] then 0 else Hit(prs[0], track, status) + Count(prs[1..], track, status)
  }

  /** A filter that succeeds keeps exactly as many PRs as match. */
  lemma {:induction false} FilterCount(prs: seq<Pr>, track: Track, status: Value)
    requires Filter(prs, track, status).Ok?
    ensures |Filter(prs, track, status).value| == Count(prs, track, status)
  {
    if prs != [] {
      var keep := MatchesStatus(StatusOf(prs[0], track), status);
      assert Filter(prs[1..], track, status).Ok? by {
        assert keep.Ok?;
      }
      var rest := Filter(prs[1..], track, status).value;
      FilterCount(prs[1..], track, status);
      assert Filter(prs, track, status).value == if keep.value then [prs[0]] + rest else rest;
    }
  }

  /** On a readable list, a filter by a constant succeeds and keeps as many PRs as match. */
  lemma ConstantFilterCount(prs: seq<Pr>, status: string)
    requires Readable(prs, SalesTrack)
    ensures Filter(prs, SalesTrack, Str(status)).Ok?
    ensures |Filter(prs, SalesTrack, Str(status)).value| == Count(prs, SalesTrack, Str(status))
  {
    ReadableIffFilterOk(prs, status);
    FilterCount(prs, SalesTrack, Str(status));
  }

  /** A PR is in at most one of the five buckets. */
  lemma AtMostOneBucket(pr: Pr)
    ensures Hit(pr, SalesTrack, Str("DRAFT")) + Hit(pr, SalesTrack, Str("UNDER_REVIEW"))
          + Hit(pr, SalesTrack, Str("APPROVED")) + Hit(pr, SalesTrack, Str("REJECTED"))
          + Hit(pr, SalesTrack, Str("ACTION_REQUIRED")) <= 1
  {
    if pr.salesStatus.Str? {
      MatchForms(pr.salesStatus);
    }
  }

  /** The five buckets are disjoint, so together they hold at most every PR once. */
  lemma {:induction false} BucketsDisjoint(prs: seq<Pr>)
    ensures Count(prs, SalesTrack, Str("DRAFT")) + Count(prs, SalesTrack, Str("UNDER_REVIEW"))
          + Count(prs, SalesTrack, Str("APPROVED")) + Count(prs, SalesTrack, Str("REJECTED"))
          + Count(prs, SalesTrack, Str("ACTION_REQUIRED")) <= |prs|
  {
    if prs != [] {
      BucketsDisjoint(prs[1..]);
      AtMostOneBucket(prs[0]);
    }
  }

  // ---------------------------------------------------------- card and dialog

  /** The card's Edit and Delete buttons: the PR's sales status lower-cases to "draft". */
  function CardEditable(pr: Pr): (r: Result<bool>)
    ensures r.Ok? <==> pr.salesStatus.Str? || Nullish(pr.salesStatus)
    ensures r == Ok(true) <==> pr.salesStatus.Str? && Lower(pr.salesStatus.s) == "draft"
  {
    PrDetailsPage.LowerEquals(pr.salesStatus, "draft")
  }

  /** The list edits this page makes while a mutation runs. */
  datatype ListEdit =
    | SaveDraft(data: Pr, stamp: string)   // createMutation
    | SubmitNew(data: Pr, stamp: string)   // submitMutation
    | DeleteById(prId: string)             // deleteMutation

  /** The create dialog's submit: the first tab saves a draft, any other submits. */
  function DialogEdit(tab: int, data: Pr, stamp: string): (e: ListEdit)
    ensures tab == 0 <==> e == SaveDraft(data, stamp)
    ensures tab != 0 <==> e == SubmitNew(data, stamp)
  {
    if tab == 0 then SaveDraft(data, stamp) else SubmitNew(data, stamp)
  }

  /** The placeholder appended for a PR still being created: a temporary id and the given status. */
  function Placeholder(data: Pr, stamp: string, salesStatus: string): (p: Pr)
    ensures p.id == Str("temp-" + stamp) && p.salesStatus == Str(salesStatus)
    ensures p.(id := data.id, salesStatus := data.salesStatus) == data
  {
    data.(id := Str("temp-" + stamp), salesStatus := Str(salesStatus))
  }

  /** `filter(pr => pr.id !== prId)` */
  function WithoutId(prs: seq<Pr>, prId: string): (r: seq<Pr>)
    ensures Sublist(r, prs)
    ensures forall p :: p in r <==> p in prs && p.id != Str(prId)
    ensures forall p :: multiset(r)[p] == if p.id != Str(prId) then multiset(prs)[p] else 0
  {
    if prs == [] then []
    else
      assert forall p :: p in prs <==> p == prs[0] || p in prs[1..];
      assert prs == [prs[0]] + prs[1..];
      var rest := WithoutId(prs[1..], prId);
      if prs[0].id != Str(prId) then [prs[0]] + rest else rest
  }

  /** The optimistic list. */
  function EditList(e: ListEdit, prs: seq<Pr>): (r: seq<Pr>)
    ensures !e.DeleteById? ==> |r| == |prs| + 1 && r[..|prs|] == prs
    ensures e.SaveDraft? ==> r[|prs|] == Placeholder(e.data, e.stamp, "Draft")
    ensures e.SubmitNew? ==> r[|prs|] == Placeholder(e.data, e.stamp, "Under Review")
    ensures e.DeleteById? ==> Sublist(r, prs) && forall p :: p in r <==> p in prs && p.id != Str(e.prId)
    ensures e.DeleteById? ==> forall p :: multiset(r)[p] == if p.id != Str(e.prId) then multiset(prs)[p] else 0
  {
    match e
    case SaveDraft(data, stamp) => prs + [Placeholder(data, stamp, "Draft")]
    case SubmitNew(data, stamp) => prs + [Placeholder(data, stamp, "Under Review")]
    case DeleteById(prId) => WithoutId(prs, prId)
  }

  /** The cache after `onMutate`: the list under `key` edited when one is cached, nothing else. */
  function AfterListMutate(entries: map<Key, Cached>, key: Key, e: ListEdit): map<Key, Cached> {
    if key in entries && entries[key].ListOf? then entries[key := ListOf(EditList(e, entries[key].prs))]
    else entries
  }

  /** The key the mutations read, write and invalidate. */
  const MutationKey: Key := [Str("sales-prs")]

  /** The key the dashboard's list query caches under: `["sales-prs", user?.id]`. */
  function ShownKey(user: Option<User>): (k: Key)
    ensures k != MutationKey && !IsDetailKey(k)
  {
    [Str("sales-prs"), if user.Some? then Str(user.value.id) else Undefined]
  }

  /**
   * The dashboard's dialog state and its query client. `listKey` is the key the
   * optimistic edits read and write: `MutationKey` in the page as written,
   * `ShownKey(user)` in the corrected page.
   */
  class SalesBoard {
    const client: QueryClient
    const listKey: Key
    var createDialogOpen: bool
    var tab: int

    constructor (client: QueryClient, listKey: Key)
      requires !IsDetailKey(listKey)
      ensures this.client == client && this.listKey == listKey
      ensures !createDialogOpen && tab == 0
    {
      this.client := client;
      this.listKey := listKey;
      createDialogOpen := false;
      tab := 0;
    }

    /** `onMutate`: snapshot the list, then edit it if one is cached. */
    method OnMutate(e: ListEdit) returns (previous: Option<Cached>)
      requires client.Valid() && !IsDetailKey(listKey)
      modifies client
      ensures client.Valid()
      ensures previous == old(client.GetQueryData(listKey))
      ensures client.entries == AfterListMutate(old(client.entries), listKey, e)
      ensures client.invalidated == old(client.invalidated)
    {
      previous := client.GetQueryData(listKey);
      if previous.Some? {
        assert Fits(listKey, previous.value);
        client.SetQueryData(listKey, ListOf(EditList(e, previous.value.prs)));
      }
    }

    /** `onError`: put the snapshot back if there was one. */
    method OnError(previous: Option<Cached>)
      requires client.Valid() && !IsDetailKey(listKey)
      requires previous.Some? ==> previous.value.ListOf?
      modifies client
      ensures client.Valid()
      ensures client.entries == if previous.Some? then old(client.entries)[listKey := previous.value] else old(client.entries)
      ensures client.invalidated == old(client.invalidated)
    {
      if previous.Some? {
        client.SetQueryData(listKey, previous.value);
      }
    }

    /** `onSettled`: invalidate `["sales-prs"]`; create and submit also close the dialog. */
    method OnSettled(e: ListEdit)
      modifies client, this
      ensures client.entries == old(client.entries)
      ensures client.invalidated == old(client.invalidated) + {MutationKey}
      ensures !e.DeleteById? ==> !createDialogOpen
      ensures e.DeleteById? ==> createDialogOpen == old(createDialogOpen)
      ensures tab == old(tab)
    {
      client.InvalidateQueries(MutationKey);
      if !e.DeleteById? {
        createDialogOpen := false;
      }
    }

    /**
     * One mutation from start to settle, the remote outcome given as `remoteOk`:
     * the optimistic list stays on success and the cache is exactly as before on failure.
     */
    method Mutate(e: ListEdit, remoteOk: bool)
      requires client.Valid() && !IsDetailKey(listKey)
      modifies client, this
      ensures client.Valid()
      ensures remoteOk ==> client.entries == AfterListMutate(old(client.entries), listKey, e)
      ensures !remoteOk ==> client.entries == old(client.entries)
      ensures client.invalidated == old(client.invalidated) + {MutationKey}
      ensures !e.DeleteById? ==> !createDialogOpen
      ensures e.DeleteById? ==> createDialogOpen == old(createDialogOpen)
      ensures tab == old(tab)
    {
      ghost var before := client.entries;
      var previous := OnMutate(e);
      if !remoteOk {
        assert previous.Some? ==> listKey in before && before[listKey] == previous.value && previous.value.ListOf?;
        OnError(previous);
        assert previous.Some? ==> before[listKey := previous.value] == before;
      }
      OnSettled(e);
    }

    /** The create dialog's `onSubmit`. */
    method SubmitDialog(data: Pr, stamp: string, remoteOk: bool)
      requires client.Valid() && !IsDetailKey(listKey)
      modifies client, this
      ensures client.Valid()
      ensures remoteOk ==> client.entries == AfterListMutate(old(client.entries), listKey, DialogEdit(old(tab), data, stamp))
      ensures !remoteOk ==> client.entries == old(client.entries)
      ensures client.invalidated == old(client.invalidated) + {MutationKey}
      ensures !createDialogOpen && tab == old(tab)
    {
      Mutate(DialogEdit(tab, data, stamp), remoteOk);
    }
  }

  /**
   * As written, the edits go to `["sales-prs"]` while the list is shown from
   * `["sales-prs", user?.id]`: the shown list never changes, and when nothing is
   * cached under the mutation key no edit happens at all.
   */
  lemma AsWrittenEditsMissShownList(entries: map<Key, Cached>, user: Option<User>, e: ListEdit)
    ensures ShownKey(user) in entries ==>
      ShownKey(user) in AfterListMutate(entries, MutationKey, e) &&
      AfterListMutate(entries, MutationKey, e)[ShownKey(user)] == entries[ShownKey(user)]
    ensures MutationKey !in entries ==> AfterListMutate(entries, MutationKey, e) == entries
  {
  }

  /** With the shown key, saving a draft appends its placeholder to the list on screen. */
  lemma CorrectedEditsReachShownList(entries: map<Key, Cached>, user: Option<User>, data: Pr, stamp: string)
    requires ShownKey(user) in entries && entries[ShownKey(user)].ListOf?
    ensures var shown := AfterListMutate(entries, ShownKey(user), SaveDraft(data, stamp))[ShownKey(user)];
      && shown.ListOf?
      && |shown.prs| == |entries[ShownKey(user)].prs| + 1
      && shown.prs[..|entries[ShownKey(user)].prs|] == entries[ShownKey(user)].prs
      && shown.prs[|entries[ShownKey(user)].prs|] == Placeholder(data, stamp, "Draft")
  {
  }

  /** Deleting keeps every other PR in order and removes every copy of the id. */
  lemma DeleteRemovesAllCopies(prs: seq<Pr>, prId: string)
    ensures forall p | p in EditList(DeleteById(prId), prs) :: p.id != Str(prId)
    ensures |EditList(DeleteById(prId), prs)| <= |prs|
  {
    SublistLength(EditList(DeleteById(prId), prs), prs);
  }

  lemma {:induction false} SublistLength<T>(a: seq<T>, b: seq<T>)
    requires Sublist(a, b)
    ensures |a| <= |b|
    decreases |b|
  {
    if a != [] && b != [] {
      if a[0] == b[0] {
        SublistLength(a[1..], b[1..]);
      } else {
        SublistLength(a, b[1..]);
      }
    }
  }
}
