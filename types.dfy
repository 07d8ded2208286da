/**
 * The enumerations of my-app/src/types/index.ts. `PRStatus` as declared there has
 * six members and no ACTIVE_STATUS; the pages that evaluate
 * `PRStatus.ACTIVE_STATUS` take that constant as a parameter (see `ActiveConst`).
 */
module Types {
  import opened Js

  datatype UserRole = SalesExecutive | PricingAnalyst

  /** The string value of each `UserRole` member. */
  function RoleName(r: UserRole): string {
    match r
    case SalesExecutive => "SALES_EXECUTIVE"
    case PricingAnalyst => "PRICING_ANALYST"
  }

  datatype PrStatus = Draft | UnderReview | ActionRequired | Approved | Rejected | Closed

  /** The string value of each `PRStatus` member. */
  function StatusName(s: PrStatus): string {
    match s
    case Draft => "DRAFT"
    case UnderReview => "UNDER_REVIEW"
    case ActionRequired => "ACTION_REQUIRED"
    case Approved => "APPROVED"
    case Rejected => "REJECTED"
    case Closed => "CLOSED"
  }

  /** The signed-in user (`User`); dates are opaque strings. */
  datatype User = User(id: string, name: string, email: string, role: UserRole, createdAt: string)

  /**
   * The value of `PRStatus.ACTIVE_STATUS`: `None` when the key is missing (the
   * types file as written, where reading `.toLowerCase()` of it throws), or the
   * string the key would hold.
   */
  type ActiveConst = Option<string>

  const AsWritten: ActiveConst := None
  const WithActiveStatus: ActiveConst := Some("ACTIVE_STATUS")

  /** `PRStatus.ACTIVE_STATUS` as a value (undefined when the key is missing). */
  function ActiveValue(c: ActiveConst): Value {
    if c.None? then Undefined else Str(c.value)
  }
}
