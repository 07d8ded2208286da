/**
 * The zod schemas of my-app/src/utils/validation.ts. Parsing an object reports
 * every failing check, field by field in the order the schema declares them,
 * each as an issue with a path and a message; the form is accepted exactly when
 * no issue is reported. Form values arrive typed: strings, booleans and numbers
 * (as `real`, never NaN), with the shipment date a JS value.
 */
module Validation {
  import opened Js
  import opened Types

  datatype PathSegment = Field(name: string) | Index(i: nat)
  type Path = seq<PathSegment>

  /** The messages the schemas report; `Text` gives each one's wording. */
  datatype Message =
    | NameTooShort | InvalidEmail | PasswordTooShort | InvalidRole
    | PasswordRequired | CommentRequired
    | ItemNameRequired | CommodityClassRequired | WeightNotPositive | NotInteger
    | HandlingUnitsNotPositive | PiecesNotPositive | ContainerTypesRequired | PalletsNegative
    | DateRequired | DateInvalid | DateExpected(received: string)
    | AccountInfoRequired | DiscountNegative | DiscountOver100
    | StartingAddressRequired | StartingStateRequired | StartingZipRequired | StartingCountryRequired
    | DestinationAddressRequired | DestinationStateRequired | DestinationZipRequired
    | DestinationCountryRequired | ItemsRequired

  /** The wording of each message; `NotInteger` and the date ones are zod's own. */
  function Text(m: Message): string {
    match m
    case NameTooShort => "Name must be at least 2 characters"
    case InvalidEmail => "Invalid email address"
    case PasswordTooShort => "Password must be at least 6 characters"
    case InvalidRole => "Please select a valid role"
    case PasswordRequired => "Password is required"
    case CommentRequired => "Comment text is required"
    case ItemNameRequired => "Item name is required"
    case CommodityClassRequired => "Commodity class is required"
    case WeightNotPositive => "Total weight must be positive"
    case NotInteger => "Expected integer, received float"
    case HandlingUnitsNotPositive => "Handling units must be a positive integer"
    case PiecesNotPositive => "Number of pieces must be a positive integer"
    case ContainerTypesRequired => "Container types is required"
    case PalletsNegative => "Number of pallets must be non-negative"
    case DateRequired => "Shipment date is required"
    case DateInvalid => "Invalid date"
    case DateExpected(received) => "Expected date, received " + received
    case AccountInfoRequired => "Account info is required"
    case DiscountNegative => "Discount must be non-negative"
    case DiscountOver100 => "Discount cannot exceed 100%"
    case StartingAddressRequired => "Starting address is required"
    case StartingStateRequired => "Starting state is required"
    case StartingZipRequired => "Starting zip is required"
    case StartingCountryRequired => "Starting country is required"
    case DestinationAddressRequired => "Destination address is required"
    case DestinationStateRequired => "Destination state is required"
    case DestinationZipRequired => "Destination zip is required"
    case DestinationCountryRequired => "Destination country is required"
    case ItemsRequired => "At least one item is required"
  }

  datatype Issue = Issue(path: Path, message: Message)

  /** One check of a schema: no issue when `ok`, otherwise `message` at `path`. */
  datatype Rule = Rule(ok: bool, path: Path, message: Message)

  /** The issues of a sequence of checks, in order. */
  function Report(rules: seq<Rule>): (r: seq<Issue>)
    ensures |r| <= |rules|
  {
    if rules == [] then []
    else (if rules[0].ok then [] else [Issue(rules[0].path, rules[0].message)]) + Report(rules[1..])
  }

  /** No issue is reported exactly when every check passes. */
  lemma {:induction false} ReportEmptyIff(rules: seq<Rule>)
    ensures Report(rules) == [] <==> forall i | 0 <= i < |rules| :: rules[i].ok
  {
    if rules != [] {
      ReportEmptyIff(rules[1..]);
      assert forall i | 1 <= i < |rules| :: rules[i] == rules[1..][i - 1];
    }
  }

  /** A failing check's issue is reported. */
  lemma {:induction false} ReportHas(rules: seq<Rule>, i: nat)
    requires i < |rules| && !rules[i].ok
    ensures Issue(rules[i].path, rules[i].message) in Report(rules)
  {
    if i > 0 {
      ReportHas(rules[1..], i - 1);
    }
  }

  /** Every issue comes from a failing check. */
  lemma {:induction false} ReportFrom(rules: seq<Rule>, x: Issue)
    requires x in Report(rules)
    ensures exists i | 0 <= i < |rules| :: !rules[i].ok && x == Issue(rules[i].path, rules[i].message)
  {
    if !(!rules[0].ok && x == Issue(rules[0].path, rules[0].message)) {
      ReportFrom(rules[1..], x);
      var i :| 0 <= i < |rules[1..]| && !rules[1..][i].ok && x == Issue(rules[1..][i].path, rules[1..][i].message);
      assert rules[i + 1] == rules[1..][i];
    }
  }

  /** `.int()`: a number with no fractional part. */
  predicate IsInt(x: real) {
    x == x.Floor as real
  }

  /** A check whose message no other check shares is reported exactly when it fails. */
  lemma ReportHasIff(rules: seq<Rule>, k: nat)
    requires k < |rules|
    requires forall j | 0 <= j < |rules| && j != k :: rules[j].message != rules[k].message
    ensures Issue(rules[k].path, rules[k].message) in Report(rules) <==> !rules[k].ok
  {
    if !rules[k].ok {
      ReportHas(rules, k);
    } else if Issue(rules[k].path, rules[k].message) in Report(rules) {
      ReportFrom(rules, Issue(rules[k].path, rules[k].message));
    }
  }

  // ---------------------------------------------------------------- signup

  datatype SignupData = SignupData(name: string, email: string, password: string, role: string)

  /**
   * `signupSchema`: name of 2 characters or more, a well-formed email (zod's
   * email check, given as `isEmail`), a password of 6 or more, and one of the two
   * `UserRole` values.
   */
  function SignupRules(d: SignupData, isEmail: string -> bool): seq<Rule> {
    [Rule(|d.name| >= 2, [Field("name")], NameTooShort),
     Rule(isEmail(d.email), [Field("email")], InvalidEmail),
     Rule(|d.password| >= 6, [Field("password")], PasswordTooShort),
     Rule(d.role == RoleName(SalesExecutive) || d.role == RoleName(PricingAnalyst),
          [Field("role")], InvalidRole)]
  }

  function SignupIssues(d: SignupData, isEmail: string -> bool): (r: seq<Issue>)
    ensures r == [] <==>
      |d.name| >= 2 && isEmail(d.email) && |d.password| >= 6 &&
      d.role in {"SALES_EXECUTIVE", "PRICING_ANALYST"}
  {
    var rules := SignupRules(d, isEmail);
    ReportEmptyIff(rules);
    assert (forall i | 0 <= i < |rules| :: rules[i].ok) <==> rules[0].ok && rules[1].ok && rules[2].ok && rules[3].ok;
    Report(rules)
  }

  /** The role issue is reported exactly when the role is not a `UserRole` value. */
  lemma SignupRoleIssue(d: SignupData, isEmail: string -> bool)
    ensures Issue([Field("role")], InvalidRole) in SignupIssues(d, isEmail) <==>
      d.role != "SALES_EXECUTIVE" && d.role != "PRICING_ANALYST"
  {
    ReportHasIff(SignupRules(d, isEmail), 3);
  }

  /** The short role codes of the sign-up pages are not roles the schema accepts. */
  lemma RoleCodesRejected(d: SignupData, isEmail: string -> bool)
    requires d.role == "SE" || d.role == "PA"
    ensures Issue([Field("role")], InvalidRole) in SignupIssues(d, isEmail)
  {
    SignupRoleIssue(d, isEmail);
  }

  // ----------------------------------------------------------------- login

  datatype LoginData = LoginData(email: string, password: string)

  function LoginRules(d: LoginData, isEmail: string -> bool): seq<Rule> {
    [Rule(isEmail(d.email), [Field("email")], InvalidEmail),
     Rule(|d.password| >= 1, [Field("password")], PasswordRequired)]
  }

  /** `loginSchema`: a well-formed email and a non-empty password. */
  function LoginIssues(d: LoginData, isEmail: string -> bool): (r: seq<Issue>)
    ensures r == [] <==> isEmail(d.email) && d.password != []
  {
    var rules := LoginRules(d, isEmail);
    ReportEmptyIff(rules);
    assert (forall i | 0 <= i < |rules| :: rules[i].ok) <==> rules[0].ok && rules[1].ok;
    Report(rules)
  }

  // --------------------------------------------------------------- comment

  /** `commentSchema`: the comment text is not empty. */
  function CommentIssues(commentText: string): (r: seq<Issue>)
    ensures r == [] <==> commentText != []
    ensures r != [] ==> r == [Issue([Field("comment_text")], CommentRequired)]
  {
    Report([Rule(|commentText| >= 1, [Field("comment_text")], CommentRequired)])
  }

  // ------------------------------------------------------------------ item

  datatype ItemData = ItemData(
    itemName: string,
    commodityClass: string,
    totalWeight: real,
    handlingUnits: real,
    numberOfPieces: real,
    containerTypes: string,
    numberOfPallets: real)

  /** What an item must satisfy, stated field by field. */
  predicate ValidItem(it: ItemData) {
    it.itemName != [] && it.commodityClass != [] && it.containerTypes != [] &&
    it.totalWeight > 0.0 &&
    IsInt(it.handlingUnits) && it.handlingUnits > 0.0 &&
    IsInt(it.numberOfPieces) && it.numberOfPieces > 0.0 &&
    IsInt(it.numberOfPallets) && it.numberOfPallets >= 0.0
  }

  /**
   * `itemInfoSchema`, its checks under `at` (the item's path). `.int()` and the
   * bound after it are separate checks, so a negative fraction reports both.
   */
  function ItemRules(it: ItemData, at: Path): seq<Rule> {
    [Rule(|it.itemName| >= 1, at + [Field("itemName")], ItemNameRequired),
     Rule(|it.commodityClass| >= 1, at + [Field("commodityClass")], CommodityClassRequired),
     Rule(it.totalWeight > 0.0, at + [Field("totalWeight")], WeightNotPositive),
     Rule(IsInt(it.handlingUnits), at + [Field("handlingUnits")], NotInteger),
     Rule(it.handlingUnits > 0.0, at + [Field("handlingUnits")], HandlingUnitsNotPositive),
     Rule(IsInt(it.numberOfPieces), at + [Field("numberOfPieces")], NotInteger),
     Rule(it.numberOfPieces > 0.0, at + [Field("numberOfPieces")], PiecesNotPositive),
     Rule(|it.containerTypes| >= 1, at + [Field("containerTypes")], ContainerTypesRequired),
     Rule(IsInt(it.numberOfPallets), at + [Field("numberOfPallets")], NotInteger),
     Rule(it.numberOfPallets >= 0.0, at + [Field("numberOfPallets")], PalletsNegative)]
  }

  function ItemIssues(it: ItemData, at: Path): (r: seq<Issue>)
    ensures r == [] <==> ValidItem(it)
  {
    ReportEmptyIff(ItemRules(it, at));
    ItemRulesPass(it, at);
    Report(ItemRules(it, at))
  }

  /** The item's checks all pass exactly when the item is valid. */
  lemma ItemRulesPass(it: ItemData, at: Path)
    ensures (forall i | 0 <= i < |ItemRules(it, at)| :: ItemRules(it, at)[i].ok) <==> ValidItem(it)
  {
    var rules := ItemRules(it, at);
    assert (forall i | 0 <= i < |rules| :: rules[i].ok) <==>
      rules[0].ok && rules[1].ok && rules[2].ok && rules[3].ok && rules[4].ok &&
      rules[5].ok && rules[6].ok && rules[7].ok && rules[8].ok && rules[9].ok;
  }

  /** A non-positive weight and a negative pallet count each report their own issue, and only then. */
  lemma ItemBoundIssues(it: ItemData, at: Path)
    ensures Issue(at + [Field("totalWeight")], WeightNotPositive) in ItemIssues(it, at) <==>
      it.totalWeight <= 0.0
    ensures Issue(at + [Field("numberOfPallets")], PalletsNegative) in ItemIssues(it, at) <==>
      it.numberOfPallets < 0.0
  {
    ItemBoundUnique(it, at);
    ReportHasIff(ItemRules(it, at), 2);
    ReportHasIff(ItemRules(it, at), 9);
  }

  /** No other check of an item shares the weight's or the pallets' bound message. */
  lemma ItemBoundUnique(it: ItemData, at: Path)
    ensures forall j | 0 <= j < |ItemRules(it, at)| && j != 2 :: ItemRules(it, at)[j].message != WeightNotPositive
    ensures forall j | 0 <= j < |ItemRules(it, at)| && j != 9 :: ItemRules(it, at)[j].message != PalletsNegative
  {
  }

  /** The issues of `items[from..]`, each item's under `["items", index]`. */
  function ItemsIssues(items: seq<ItemData>, from: nat): (r: seq<Issue>)
    requires from <= |items|
    ensures r == [] <==> forall i | from <= i < |items| :: ValidItem(items[i])
    decreases |items| - from
  {
    if from == |items| then []
    else ItemIssues(items[from], [Field("items"), Index(from)]) + ItemsIssues(items, from + 1)
  }

  // --------------------------------------------------------------- PR form

  datatype PrFormData = PrFormData(
    shipmentDate: Value,
    accountInfo: string,
    discount: real,
    startingAddress: string,
    startingState: string,
    startingZip: string,
    startingCountry: string,
    destinationAddress: string,
    destinationState: string,
    destinationZip: string,
    destinationCountry: string,
    items: seq<ItemData>,
    accessorial: bool,
    pickup: bool,
    delivery: bool,
    daylightProtectCoverage: bool,
    insuranceDescription: Option<string>,
    insuranceNote: Option<string>)

  /** The type zod names when a value is not a date. */
  function TypeName(v: Value): string {
    match v
    case Undefined => "undefined"
    case Null => "null"
    case Bool(_) => "boolean"
    case Num(_) => "number"
    case Str(_) => "string"
    case Date(_) => "date"
    case InvalidDate => "date"
  }

  /** `z.date({ required_error })`: the message for a missing, invalid or mistyped date. */
  function DateMessage(v: Value): (m: Message)
    ensures v == Undefined <==> m == DateRequired
    ensures v == InvalidDate <==> m == DateInvalid
    ensures m.DateExpected? ==> m.received == TypeName(v)
  {
    match v
    case Undefined => DateRequired
    case InvalidDate => DateInvalid
    case _ => DateExpected(TypeName(v))
  }

  /**
   * The checks of `prFormSchema` before the items' own: the date, the header,
   * the eight address strings and the array's `.min(1)`, which zod checks before
   * the elements.
   */
  function FormRules(d: PrFormData): seq<Rule> {
    [Rule(d.shipmentDate.Date?, [Field("shipmentDate")], DateMessage(d.shipmentDate)),
     Rule(|d.accountInfo| >= 1, [Field("accountInfo")], AccountInfoRequired),
     Rule(d.discount >= 0.0, [Field("discount")], DiscountNegative),
     Rule(d.discount <= 100.0, [Field("discount")], DiscountOver100),
     Rule(|d.startingAddress| >= 1, [Field("startingAddress")], StartingAddressRequired),
     Rule(|d.startingState| >= 1, [Field("startingState")], StartingStateRequired),
     Rule(|d.startingZip| >= 1, [Field("startingZip")], StartingZipRequired),
     Rule(|d.startingCountry| >= 1, [Field("startingCountry")], StartingCountryRequired),
     Rule(|d.destinationAddress| >= 1, [Field("destinationAddress")], DestinationAddressRequired),
     Rule(|d.destinationState| >= 1, [Field("destinationState")], DestinationStateRequired),
     Rule(|d.destinationZip| >= 1, [Field("destinationZip")], DestinationZipRequired),
     Rule(|d.destinationCountry| >= 1, [Field("destinationCountry")], DestinationCountryRequired),
     Rule(|d.items| >= 1, [Field("items")], ItemsRequired)]
  }

  /** The nine required strings of the header and the two addresses are filled. */
  predicate HeaderFilled(d: PrFormData) {
    d.accountInfo != [] &&
    d.startingAddress != [] && d.startingState != [] && d.startingZip != [] && d.startingCountry != [] &&
    d.destinationAddress != [] && d.destinationState != [] && d.destinationZip != [] &&
    d.destinationCountry != []
  }

  /** What a PR form must satisfy, stated directly. */
  predicate ValidPrForm(d: PrFormData) {
    d.shipmentDate.Date? && HeaderFilled(d) && 0.0 <= d.discount <= 100.0 &&
    |d.items| >= 1 && (forall i | 0 <= i < |d.items| :: ValidItem(d.items[i]))
  }

  /** The form-level checks all pass exactly when the form meets everything but the items' own rules. */
  lemma FormRulesPass(d: PrFormData)
    ensures (forall i | 0 <= i < |FormRules(d)| :: FormRules(d)[i].ok) <==>
      d.shipmentDate.Date? && HeaderFilled(d) && 0.0 <= d.discount <= 100.0 && |d.items| >= 1
  {
    var rules := FormRules(d);
    assert (forall i | 0 <= i < |rules| :: rules[i].ok) <==>
      rules[0].ok && rules[1].ok && rules[2].ok && rules[3].ok && rules[4].ok && rules[5].ok &&
      rules[6].ok && rules[7].ok && rules[8].ok && rules[9].ok && rules[10].ok && rules[11].ok &&
      rules[12].ok;
  }

  /** `prFormSchema`: the issues of every field in declaration order. */
  function PrFormIssues(d: PrFormData): (r: seq<Issue>)
    ensures r == [] <==> ValidPrForm(d)
  {
    ReportEmptyIff(FormRules(d));
    FormRulesPass(d);
    Report(FormRules(d)) + ItemsIssues(d.items, 0)
  }

  /** Each bound of the discount has its own issue, reported exactly when it is broken. */
  lemma DiscountIssues(d: PrFormData)
    ensures Issue([Field("discount")], DiscountNegative) in PrFormIssues(d) <==> d.discount < 0.0
    ensures Issue([Field("discount")], DiscountOver100) in PrFormIssues(d) <==> d.discount > 100.0
  {
    DiscountUnique(d);
    ReportHasIff(FormRules(d), 2);
    ReportHasIff(FormRules(d), 3);
    ItemsUnderItems(d.items, 0);
  }

  /** No other form-level check shares either discount message. */
  lemma DiscountUnique(d: PrFormData)
    ensures forall j | 0 <= j < |FormRules(d)| && j != 2 :: FormRules(d)[j].message != DiscountNegative
    ensures forall j | 0 <= j < |FormRules(d)| && j != 3 :: FormRules(d)[j].message != DiscountOver100
  {
  }

  /** An empty item list reports the `.min(1)` issue and nothing about items. */
  lemma EmptyItemsIssue(d: PrFormData)
    requires d.items == []
    ensures Issue([Field("items")], ItemsRequired) in PrFormIssues(d)
  {
    ReportHas(FormRules(d), 12);
  }

  /** Every issue of an item lies under `["items", its index]`. */
  lemma {:induction false} ItemsUnderItems(items: seq<ItemData>, from: nat)
    requires from <= |items|
    ensures forall x | x in ItemsIssues(items, from) :: |x.path| >= 2 && x.path[0] == Field("items")
    decreases |items| - from
  {
    if from < |items| {
      ItemsUnderItems(items, from + 1);
      var at := [Field("items"), Index(from)];
      ItemRulesUnder(items[from], at);
      ReportUnder(ItemRules(items[from], at), at);
      forall x | x in ItemIssues(items[from], at)
        ensures |x.path| >= 2 && x.path[0] == Field("items")
      {
        assert x.path[..|at|][0] == x.path[0];
      }
    }
  }

  /** Each check of an item names one field under the item's path. */
  lemma ItemRulesUnder(it: ItemData, at: Path)
    ensures forall j | 0 <= j < |ItemRules(it, at)| ::
      |ItemRules(it, at)[j].path| == |at| + 1 && ItemRules(it, at)[j].path[..|at|] == at
  {
  }

  /** Issues are reported at their checks' paths, so checks under `at` report under `at`. */
  lemma ReportUnder(rules: seq<Rule>, at: Path)
    requires forall j | 0 <= j < |rules| :: |rules[j].path| > |at| && rules[j].path[..|at|] == at
    ensures forall x | x in Report(rules) :: |x.path| > |at| && x.path[..|at|] == at
  {
    forall x | x in Report(rules)
      ensures |x.path| > |at| && x.path[..|at|] == at
    {
      ReportFrom(rules, x);
    }
  }

  /** The insurance fields and the coverage flag never produce an issue. */
  lemma InsuranceOptional(d: PrFormData, coverage: bool, description: Option<string>, note: Option<string>)
    ensures PrFormIssues(d.(daylightProtectCoverage := coverage,
                            insuranceDescription := description,
                            insuranceNote := note)) == PrFormIssues(d)
  {
    var e := d.(daylightProtectCoverage := coverage, insuranceDescription := description, insuranceNote := note);
    assert FormRules(e) == FormRules(d);
  }
}
