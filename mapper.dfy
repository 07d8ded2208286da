/**
 * `transformPRData` of my-app/src/services/api.ts: `toAPI` renames the domain
 * record's camelCase fields to the wire's snake_case names and flattens the
 * items; `fromAPI` rebuilds the domain record from a wire record, filling every
 * falsy field with a default through JavaScript's `||`.
 */
module Mapper {
  import opened Js

  /** A line item as the pages hold it. */
  datatype Item = Item(
    id: Value,
    itemName: Value,
    commodityClass: Value,
    totalWeight: Value,
    handlingUnit: Value,
    noOfPieces: Value,
    containerType: Value,
    noOfPallets: Value)

  datatype Comment = Comment(id: Value, commentText: Value, createdAt: Value)

  /**
   * The PR record the pages work on: the shape `fromAPI` builds, plus the
   * `finalApprovalStatus` field the pages read (which `fromAPI` never sets).
   */
  datatype Pr = Pr(
    id: Value,
    shipmentDate: Value,
    accountInfo: Value,
    discount: Value,
    originAddress: Value,
    originState: Value,
    originZip: Value,
    originCountry: Value,
    destAddress: Value,
    destState: Value,
    destZip: Value,
    destCountry: Value,
    accessorial: Value,
    pickup: Value,
    delivery: Value,
    daylightProtect: Value,
    salesStatus: Value,
    analystStatus: Value,
    createdBy: Value,
    assignedTo: Value,
    submissionDate: Value,
    lastUpdated: Value,
    finalApprovalStatus: Value,
    items: seq<Item>,
    comments: seq<Comment>)

  datatype WireItem = WireItem(
    id: Value,
    item_name: Value,
    commodity_class: Value,
    total_weight: Value,
    handling_unit: Value,
    no_of_pieces: Value,
    container_type: Value,
    no_of_pallets: Value)

  datatype WireComment = WireComment(id: Value, comment_text: Value, created_at: Value)

  /**
   * A PR on the wire: every field `fromAPI` reads. A field the payload lacks is
   * `Undefined`; `items`/`comments` are `None` when absent or null.
   */
  datatype WirePr = WirePr(
    id: Value,
    pr_id: Value,
    shipment_date: Value,
    account_info: Value,
    discount: Value,
    origin_address: Value,
    origin_state: Value,
    origin_zip: Value,
    origin_country: Value,
    dest_address: Value,
    dest_state: Value,
    destination_state: Value,
    dest_zip: Value,
    dest_country: Value,
    accessorial: Value,
    pickup: Value,
    delivery: Value,
    daylight_protect: Value,
    sales_status: Value,
    analyst_status: Value,
    status: Value,
    created_by: Value,
    assigned_to: Value,
    assigned_: Value,  // the payload's `assigned` (a Dafny keyword)
    submission_date: Value,
    last_updated: Value,
    items: Option<seq<WireItem>>,
    comments: Option<seq<WireComment>>)

  // ---------------------------------------------------------------- toAPI

  function ItemToWire(it: Item): (w: WireItem)
    ensures w.id == Undefined
    ensures w.item_name == it.itemName && w.commodity_class == it.commodityClass
    ensures w.total_weight == it.totalWeight && w.handling_unit == it.handlingUnit
    ensures w.no_of_pieces == it.noOfPieces && w.container_type == it.containerType
    ensures w.no_of_pallets == it.noOfPallets
  {
    WireItem(Undefined, it.itemName, it.commodityClass, it.totalWeight,
             it.handlingUnit, it.noOfPieces, it.containerType, it.noOfPallets)
  }

  function ItemsToWire(items: seq<Item>): (ws: seq<WireItem>)
    ensures |ws| == |items|
    ensures forall i :: 0 <= i < |items| ==> ws[i] == ItemToWire(items[i])
  {
    seq(|items|, i requires 0 <= i < |items| => ItemToWire(items[i]))
  }

  /**
   * `shipment_date`: a Date becomes the `YYYY-MM-DD` part of its ISO string
   * (an invalid Date makes toISOString throw); anything else passes through.
   */
  function ShipmentDateToWire(d: Value): (r: Result<Value>)
    ensures r.Throws? <==> d == InvalidDate
    ensures d.Date? ==> r == Ok(Str(BeforeT(d.iso)))
    ensures !d.Date? && d != InvalidDate ==> r == Ok(d)
  {
    match d
    case Date(iso) => Ok(Str(BeforeT(iso)))
    case InvalidDate => Throws(RangeError)
    case _ => Ok(d)
  }

  /** `transformPRData.toAPI` */
  function ToApi(x: Pr): (r: Result<WirePr>)
    ensures r.Ok? <==> x.shipmentDate != InvalidDate
    ensures r.Ok? ==> ToApiShape(x, r.value)
  {
    var date :- ShipmentDateToWire(x.shipmentDate);
    Ok(WirePr(
      id := Undefined, pr_id := Undefined,
      shipment_date := date,
      account_info := x.accountInfo,
      discount := x.discount,
      origin_address := x.originAddress,
      origin_state := x.originState,
      origin_zip := x.originZip,
      origin_country := x.originCountry,
      dest_address := x.destAddress,
      dest_state := x.destState,
      destination_state := Undefined,
      dest_zip := x.destZip,
      dest_country := x.destCountry,
      accessorial := x.accessorial,
      pickup := x.pickup,
      delivery := x.delivery,
      daylight_protect := x.daylightProtect,
      sales_status := Undefined, analyst_status := Undefined, status := Undefined,
      created_by := Undefined, assigned_to := Undefined, assigned_ := Undefined,
      submission_date := Undefined, last_updated := Undefined,
      items := Some(ItemsToWire(x.items)),
      comments := None))
  }

  /**
   * What `toAPI` promises: each of the fifteen header fields copied under its
   * snake_case name, no identity, status, assignment or comment fields, and one
   * wire item per domain item, in order, with its seven fields copied.
   */
  ghost predicate ToApiShape(x: Pr, w: WirePr) {
    && w.account_info == x.accountInfo && w.discount == x.discount
    && w.origin_address == x.originAddress && w.origin_state == x.originState
    && w.origin_zip == x.originZip && w.origin_country == x.originCountry
    && w.dest_address == x.destAddress && w.dest_state == x.destState
    && w.dest_zip == x.destZip && w.dest_country == x.destCountry
    && w.accessorial == x.accessorial && w.pickup == x.pickup && w.delivery == x.delivery
    && w.daylight_protect == x.daylightProtect
    && (x.shipmentDate.Date? ==> w.shipment_date == Str(BeforeT(x.shipmentDate.iso)))
    && (!x.shipmentDate.Date? ==> w.shipment_date == x.shipmentDate)
    && w.id == Undefined && w.pr_id == Undefined && w.destination_state == Undefined
    && w.sales_status == Undefined && w.analyst_status == Undefined && w.status == Undefined
    && w.created_by == Undefined && w.assigned_to == Undefined && w.assigned_ == Undefined
    && w.submission_date == Undefined && w.last_updated == Undefined
    && w.comments == None
    && w.items.Some? && |w.items.value| == |x.items|
    && (forall i :: 0 <= i < |x.items| ==>
          var wi, it := w.items.value[i], x.items[i];
          && wi.item_name == it.itemName && wi.commodity_class == it.commodityClass
          && wi.total_weight == it.totalWeight && wi.handling_unit == it.handlingUnit
          && wi.no_of_pieces == it.noOfPieces && wi.container_type == it.containerType
          && wi.no_of_pallets == it.noOfPallets)
  }

  // -------------------------------------------------------------- fromAPI

  function ItemFromWire(w: WireItem): Item {
    Item(w.id, w.item_name, w.commodity_class, w.total_weight,
         w.handling_unit, w.no_of_pieces, w.container_type, w.no_of_pallets)
  }

  function CommentFromWire(w: WireComment): Comment {
    Comment(w.id, w.comment_text, w.created_at)
  }

  /** `apiData.items?.map(...) || []`: absent gives none, present ones map one-for-one. */
  function ItemsFromWire(ws: Option<seq<WireItem>>): (items: seq<Item>)
    ensures ws.None? ==> items == []
    ensures ws.Some? ==> |items| == |ws.value|
    ensures ws.Some? ==> forall i :: 0 <= i < |items| ==> items[i] == ItemFromWire(ws.value[i])
  {
    match ws
    case None => []
    case Some(s) => seq(|s|, i requires 0 <= i < |s| => ItemFromWire(s[i]))
  }

  function CommentsFromWire(ws: Option<seq<WireComment>>): (cs: seq<Comment>)
    ensures ws.None? ==> cs == []
    ensures ws.Some? ==> |cs| == |ws.value|
    ensures ws.Some? ==> forall i :: 0 <= i < |cs| ==> cs[i] == CommentFromWire(ws.value[i])
  {
    match ws
    case None => []
    case Some(s) => seq(|s|, i requires 0 <= i < |s| => CommentFromWire(s[i]))
  }

  /**
   * The account fallback `PR-${pr_id?.slice(-8) || id?.slice(-8) || "Unknown"}`;
   * slicing a non-string id throws.
   */
  function AccountFallback(prId: Value, id: Value): (r: Result<Value>)
    ensures r.Throws? <==> SliceThrows(prId, id)
    ensures r.Ok? ==> r.value.Str? && |r.value.s| >= 3 && r.value.s[..3] == "PR-"
    ensures prId.Str? && prId.s != "" ==> r == Ok(Str("PR-" + SliceLast(prId.s, 8)))
    ensures Nullish(prId) && Nullish(id) ==> r == Ok(Str("PR-Unknown"))
  {
    if prId.Str? && prId.s != "" then Ok(Str("PR-" + SliceLast(prId.s, 8)))
    else if !(prId.Str? || Nullish(prId)) then Throws(TypeError)
    else if id.Str? && id.s != "" then Ok(Str("PR-" + SliceLast(id.s, 8)))
    else if !(id.Str? || Nullish(id)) then Throws(TypeError)
    else Ok(Str("PR-Unknown"))
  }

  /**
   * Slicing throws on `pr_id` when it is neither a string nor nullish, and
   * reaches `id` (and throws there) unless `pr_id` is a non-empty string.
   */
  predicate SliceThrows(prId: Value, id: Value) {
    || !(prId.Str? || Nullish(prId))
    || (!(prId.Str? && prId.s != "") && !(id.Str? || Nullish(id)))
  }

  /**
   * `transformPRData.fromAPI`. `now` is the ISO string of `new Date()` at the
   * call; `hostParse` is what `new Date(x)` gives for an x that is neither a Date
   * nor a date-only ISO string.
   */
  function FromApi(w: WirePr, now: string, hostParse: Value -> Option<string>): (r: Result<Pr>)
    ensures r.Throws? <==> !Truthy(w.account_info) && SliceThrows(w.pr_id, w.id)
    ensures r.Ok? ==> Populated(r.value)
    ensures r.Ok? ==> FieldsFrom(w, r.value, now, hostParse)
    ensures r.Ok? && !Truthy(w.account_info) ==> AccountFallback(w.pr_id, w.id) == Ok(r.value.accountInfo)
  {
    var account :- if Truthy(w.account_info) then Ok(w.account_info) else AccountFallback(w.pr_id, w.id);
    BuildFields(w, account, now, hostParse);
    BuildPopulated(w, account, now, hostParse);
    Ok(Build(w, account, now, hostParse))
  }

  /** The object literal of `fromAPI`, with the account already chosen. */
  function Build(w: WirePr, account: Value, now: string, hostParse: Value -> Option<string>): Pr {
    Pr(
      id := Or(w.id, w.pr_id),
      shipmentDate := if Truthy(w.shipment_date) then NewDate(w.shipment_date, hostParse) else Date(now),
      accountInfo := account,
      discount := Or(w.discount, Str("")),
      originAddress := Or(w.origin_address, Str("")),
      originState := Or(w.origin_state, Str("")),
      originZip := Or(w.origin_zip, Str("")),
      originCountry := Or(w.origin_country, Str("USA")),
      destAddress := Or(w.dest_address, Str("")),
      destState := Or(Or(w.destination_state, w.dest_state), Str("")),
      destZip := Or(w.dest_zip, Str("")),
      destCountry := Or(w.dest_country, Str("USA")),
      accessorial := Or(w.accessorial, Str("")),
      pickup := Or(w.pickup, Str("")),
      delivery := Or(w.delivery, Str("")),
      daylightProtect := Or(w.daylight_protect, Bool(false)),
      salesStatus := Or(Or(w.sales_status, w.status), Str("Draft")),
      analystStatus := Or(Or(w.analyst_status, w.status), Null),
      createdBy := Or(w.created_by, Str("")),
      assignedTo := Or(Or(w.assigned_to, w.assigned_), Null),
      submissionDate := Or(w.submission_date, Str("")),
      lastUpdated := Or(w.last_updated, Str("")),
      finalApprovalStatus := Undefined,
      items := ItemsFromWire(w.items),
      comments := CommentsFromWire(w.comments))
  }

  /** The literal meets `FieldsFrom` whenever a truthy `account_info` is the account chosen. */
  lemma BuildFields(w: WirePr, account: Value, now: string, hostParse: Value -> Option<string>)
    requires Truthy(w.account_info) ==> account == w.account_info
    ensures FieldsFrom(w, Build(w, account, now, hostParse), now, hostParse)
  {
  }

  /** With a truthy account, the literal is fully populated. */
  lemma BuildPopulated(w: WirePr, account: Value, now: string, hostParse: Value -> Option<string>)
    requires Truthy(account)
    ensures Populated(Build(w, account, now, hostParse))
  {
  }

  /** A text field after `|| ""`: the wire value when truthy, else the empty string. */
  ghost predicate TruthyOrEmpty(v: Value) {
    Truthy(v) || v == Str("")
  }

  /**
   * Fully populated: no defaulted field is left undefined. Text fields are truthy
   * or `""`, the countries and the sales status are always truthy, and
   * `daylightProtect` is truthy or `false`.
   */
  ghost predicate Populated(p: Pr) {
    && TruthyOrEmpty(p.discount) && TruthyOrEmpty(p.originAddress)
    && TruthyOrEmpty(p.originState) && TruthyOrEmpty(p.originZip)
    && TruthyOrEmpty(p.destAddress) && TruthyOrEmpty(p.destState) && TruthyOrEmpty(p.destZip)
    && TruthyOrEmpty(p.accessorial) && TruthyOrEmpty(p.pickup) && TruthyOrEmpty(p.delivery)
    && TruthyOrEmpty(p.createdBy) && TruthyOrEmpty(p.submissionDate) && TruthyOrEmpty(p.lastUpdated)
    && Truthy(p.accountInfo)
    && Truthy(p.originCountry) && Truthy(p.destCountry)
    && Truthy(p.salesStatus)
    && (Truthy(p.analystStatus) || p.analystStatus == Null)
    && (Truthy(p.assignedTo) || p.assignedTo == Null)
    && (Truthy(p.daylightProtect) || p.daylightProtect == Bool(false))
    && (p.shipmentDate.Date? || p.shipmentDate == InvalidDate)
  }

  /** `wire || default`: the wire value when truthy, the default otherwise. */
  ghost predicate Defaulted(out: Value, wire: Value, default: Value) {
    && (Truthy(wire) ==> out == wire)
    && (!Truthy(wire) ==> out == default)
  }

  /** `first || second || default`. */
  ghost predicate Preferred(out: Value, first: Value, second: Value, default: Value) {
    && (Truthy(first) ==> out == first)
    && (!Truthy(first) && Truthy(second) ==> out == second)
    && (!Truthy(first) && !Truthy(second) ==> out == default)
  }

  /**
   * Each field of the record `fromAPI` builds, against the wire record: every
   * truthy wire field wins over its default, with the documented preferences
   * (`id` before `pr_id`, `destination_state` before `dest_state`,
   * `sales_status`/`analyst_status` before `status`, `assigned_to` before
   * `assigned`); a truthy `shipment_date` goes through `new Date`, a falsy one
   * gives the current time; items and comments are mapped one for one.
   */
  ghost predicate FieldsFrom(w: WirePr, p: Pr, now: string, hostParse: Value -> Option<string>) {
    && Defaulted(p.id, w.id, w.pr_id)
    && p.shipmentDate == (if Truthy(w.shipment_date) then NewDate(w.shipment_date, hostParse) else Date(now))
    && (Truthy(w.account_info) ==> p.accountInfo == w.account_info)
    && Defaulted(p.discount, w.discount, Str(""))
    && Defaulted(p.originAddress, w.origin_address, Str(""))
    && Defaulted(p.originState, w.origin_state, Str(""))
    && Defaulted(p.originZip, w.origin_zip, Str(""))
    && Defaulted(p.originCountry, w.origin_country, Str("USA"))
    && Defaulted(p.destAddress, w.dest_address, Str(""))
    && Preferred(p.destState, w.destination_state, w.dest_state, Str(""))
    && Defaulted(p.destZip, w.dest_zip, Str(""))
    && Defaulted(p.destCountry, w.dest_country, Str("USA"))
    && Defaulted(p.accessorial, w.accessorial, Str(""))
    && Defaulted(p.pickup, w.pickup, Str(""))
    && Defaulted(p.delivery, w.delivery, Str(""))
    && Defaulted(p.daylightProtect, w.daylight_protect, Bool(false))
    && Preferred(p.salesStatus, w.sales_status, w.status, Str("Draft"))
    && Preferred(p.analystStatus, w.analyst_status, w.status, Null)
    && Defaulted(p.createdBy, w.created_by, Str(""))
    && Preferred(p.assignedTo, w.assigned_to, w.assigned_, Null)
    && Defaulted(p.submissionDate, w.submission_date, Str(""))
    && Defaulted(p.lastUpdated, w.last_updated, Str(""))
    && p.finalApprovalStatus == Undefined
    && p.items == ItemsFromWire(w.items)
    && p.comments == CommentsFromWire(w.comments)
  }

  // ----------------------------------------------------------- round trip

  /** The text fields of a domain record hold strings and the flag a boolean. */
  predicate TextShaped(x: Pr) {
    && x.accountInfo.Str? && x.discount.Str?
    && x.originAddress.Str? && x.originState.Str? && x.originZip.Str? && x.originCountry.Str?
    && x.destAddress.Str? && x.destState.Str? && x.destZip.Str? && x.destCountry.Str?
    && x.accessorial.Str? && x.pickup.Str? && x.delivery.Str?
    && x.daylightProtect.Bool?
  }

  /**
   * `fromAPI(toAPI(x))` for a record whose text fields are strings and whose
   * shipment date is a valid Date: every text field and the flag come back
   * unchanged, except that an empty country comes back as "USA" and an empty
   * account as "PR-Unknown"; the date keeps its calendar day at midnight UTC;
   * every item keeps its seven fields and loses its id; the record loses its id,
   * its statuses (sales "Draft", analyst null), its assignee and its comments.
   */
  lemma RoundTrip(x: Pr, now: string, hostParse: Value -> Option<string>)
    requires TextShaped(x)
    requires x.shipmentDate.Date? && IsIsoInstant(x.shipmentDate.iso)
    ensures ToApi(x).Ok?
    ensures FromApi(ToApi(x).value, now, hostParse).Ok?
    ensures var y := FromApi(ToApi(x).value, now, hostParse).value;
      && y.discount == x.discount
      && y.originAddress == x.originAddress && y.originState == x.originState
      && y.originZip == x.originZip
      && y.destAddress == x.destAddress && y.destState == x.destState && y.destZip == x.destZip
      && y.accessorial == x.accessorial && y.pickup == x.pickup && y.delivery == x.delivery
      && y.daylightProtect == x.daylightProtect
      && y.originCountry == (if x.originCountry == Str("") then Str("USA") else x.originCountry)
      && y.destCountry == (if x.destCountry == Str("") then Str("USA") else x.destCountry)
      && y.accountInfo == (if x.accountInfo == Str("") then Str("PR-Unknown") else x.accountInfo)
      && y.shipmentDate == Date(x.shipmentDate.iso[..10] + "T00:00:00.000Z")
      && |y.items| == |x.items|
      && (forall i :: 0 <= i < |x.items| ==> y.items[i] == x.items[i].(id := Undefined))
      && y.id == Undefined && y.salesStatus == Str("Draft") && y.analystStatus == Null
      && y.assignedTo == Null && y.comments == []
  {
    IsoDay(x.shipmentDate.iso);
    ItemsRoundTrip(x.items);
    TextRoundTrip(x, now, hostParse);
  }

  /** The text fields and the flag of `fromAPI(toAPI(x))`, with the two defaults. */
  lemma TextRoundTrip(x: Pr, now: string, hostParse: Value -> Option<string>)
    requires TextShaped(x)
    requires x.shipmentDate.Date? && IsIsoInstant(x.shipmentDate.iso)
    requires ToApi(x).Ok?
    ensures FromApi(ToApi(x).value, now, hostParse).Ok?
    ensures var y := FromApi(ToApi(x).value, now, hostParse).value;
      && y.discount == x.discount
      && y.originAddress == x.originAddress && y.originState == x.originState
      && y.originZip == x.originZip
      && y.destAddress == x.destAddress && y.destState == x.destState && y.destZip == x.destZip
      && y.accessorial == x.accessorial && y.pickup == x.pickup && y.delivery == x.delivery
      && y.daylightProtect == x.daylightProtect
      && y.originCountry == (if x.originCountry == Str("") then Str("USA") else x.originCountry)
      && y.destCountry == (if x.destCountry == Str("") then Str("USA") else x.destCountry)
      && y.accountInfo == (if x.accountInfo == Str("") then Str("PR-Unknown") else x.accountInfo)
  {
    var w := ToApi(x).value;
    var y := FromApi(w, now, hostParse).value;
    OrOfText(x.discount); OrOfText(x.originAddress); OrOfText(x.originState);
    OrOfText(x.originZip); OrOfText(x.destAddress); OrOfText(x.destZip);
    OrOfText(x.accessorial); OrOfText(x.pickup); OrOfText(x.delivery);
    OrOfText(x.destState);
    assert y.destState == Or(Or(Undefined, x.destState), Str(""));
  }

  /** `s || ""` is `s` for a string. */
  lemma OrOfText(v: Value)
    requires v.Str?
    ensures Or(v, Str("")) == v
  {
  }

  /**
   * Values the form can hold that are falsy do not survive `fromAPI(toAPI(x))`:
   * a discount of `0` or a service flag `false` comes back as `""`, and a false
   * daylight-protect flag as `false`.
   */
  lemma FalsyFieldsLost(x: Pr, now: string, hostParse: Value -> Option<string>)
    requires ToApi(x).Ok?
    requires FromApi(ToApi(x).value, now, hostParse).Ok?
    ensures var y := FromApi(ToApi(x).value, now, hostParse).value;
      && (!Truthy(x.discount) ==> y.discount == Str(""))
      && (!Truthy(x.accessorial) ==> y.accessorial == Str(""))
      && (!Truthy(x.pickup) ==> y.pickup == Str(""))
      && (!Truthy(x.delivery) ==> y.delivery == Str(""))
      && (!Truthy(x.daylightProtect) ==> y.daylightProtect == Bool(false))
  {
    var w := ToApi(x).value;
    assert ToApiShape(x, w);
  }

  /** The part of an ISO instant before its `T` is its calendar day. */
  lemma IsoDay(iso: string)
    requires IsIsoInstant(iso)
    ensures BeforeT(iso) == iso[..10] && IsCalendarDate(iso[..10])
  {
    var day := iso[..10];
    assert iso == day + "T" + iso[11..];
    assert 'T' !in day by {
      forall i | 0 <= i < |day| ensures day[i] != 'T' {
        if i != 4 && i != 7 { assert IsDigit(day[i]); }
      }
    }
    BeforeTOfSplit(day, iso[11..]);
  }

  /** Items sent and read back keep their seven fields and lose their ids. */
  lemma ItemsRoundTrip(items: seq<Item>)
    ensures |ItemsFromWire(Some(ItemsToWire(items)))| == |items|
    ensures forall i :: 0 <= i < |items| ==>
      ItemsFromWire(Some(ItemsToWire(items)))[i] == items[i].(id := Undefined)
  {
    var ys := ItemsFromWire(Some(ItemsToWire(items)));
    forall i | 0 <= i < |items| ensures ys[i] == items[i].(id := Undefined) {
      assert ItemsToWire(items)[i] == ItemToWire(items[i]);
    }
  }

  /** A record built by `fromAPI` never carries an explicit final approval status. */
  lemma FromApiHasNoFinalStatus(w: WirePr, now: string, hostParse: Value -> Option<string>)
    requires FromApi(w, now, hostParse).Ok?
    ensures !Truthy(FromApi(w, now, hostParse).value.finalApprovalStatus)
  {
  }
}
