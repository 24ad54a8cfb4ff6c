/**
 * The record types shared by the data-access layer and the pages
 * (client/lib/supabase.ts, the exported interfaces), and the string
 * unions they use, as closed enumerations.
 */
module Records {

  datatype Option<+T> = None | Some(value: T)

  /** The instant an ISO-8601 timestamp denotes; later instants are larger. */
  type Timestamp = nat

  datatype MemberLevel = Bronze | Silver | Gold | Platinum
  datatype TransactionType = Earn | Redeem | Bonus
  datatype RewardCategory = Discount | Product | Voucher
  datatype RedemptionStatus = Pending | Approved | Completed | Cancelled

  datatype User = User(
    id: string,
    email: string,
    phone: Option<string>,
    full_name: string,
    points: int,
    member_level: MemberLevel,
    created_at: Timestamp,
    updated_at: Timestamp)

  datatype PointTransaction = PointTransaction(
    id: string,
    user_id: string,
    points: int,
    transaction_type: TransactionType,
    description: string,
    reference_id: Option<string>,
    created_at: Timestamp)

  datatype Reward = Reward(
    id: string,
    name: string,
    description: string,
    points_required: int,
    category: RewardCategory,
    image_url: Option<string>,
    is_active: bool,
    created_at: Timestamp)

  datatype RedemptionHistory = RedemptionHistory(
    id: string,
    user_id: string,
    reward_id: string,
    points_used: int,
    status: RedemptionStatus,
    created_at: Timestamp,
    completed_at: Option<Timestamp>)

  datatype Milestone = Milestone(
    id: string,
    points_required: int,
    reward_title: string,
    reward_description: string,
    is_active: bool,
    created_at: Timestamp)

  /** The string each member level is stored as. */
  function LevelName(l: MemberLevel): string
  {
    match l
    case Bronze => "bronze"
    case Silver => "silver"
    case Gold => "gold"
    case Platinum => "platinum"
  }

  /** Reads a stored member level; only the four names of the union are accepted. */
  function ParseLevel(s: string): (r: Option<MemberLevel>)
    ensures r.Some? ==> LevelName(r.value) == s
    ensures r.None? ==> s !in {"bronze", "silver", "gold", "platinum"}
  {
    if s == "bronze" then Some(Bronze)
    else if s == "silver" then Some(Silver)
    else if s == "gold" then Some(Gold)
    else if s == "platinum" then Some(Platinum)
    else None
  }

  function TypeName(t: TransactionType): string
  {
    match t
    case Earn => "earn"
    case Redeem => "redeem"
    case Bonus => "bonus"
  }

  function ParseType(s: string): (r: Option<TransactionType>)
    ensures r.Some? ==> TypeName(r.value) == s
    ensures r.None? ==> s !in {"earn", "redeem", "bonus"}
  {
    if s == "earn" then Some(Earn)
    else if s == "redeem" then Some(Redeem)
    else if s == "bonus" then Some(Bonus)
    else None
  }

  function CategoryName(c: RewardCategory): string
  {
    match c
    case Discount => "discount"
    case Product => "product"
    case Voucher => "voucher"
  }

  function ParseCategory(s: string): (r: Option<RewardCategory>)
    ensures r.Some? ==> CategoryName(r.value) == s
    ensures r.None? ==> s !in {"discount", "product", "voucher"}
  {
    if s == "discount" then Some(Discount)
    else if s == "product" then Some(Product)
    else if s == "voucher" then Some(Voucher)
    else None
  }

  function StatusName(st: RedemptionStatus): string
  {
    match st
    case Pending => "pending"
    case Approved => "approved"
    case Completed => "completed"
    case Cancelled => "cancelled"
  }

  function ParseStatus(s: string): (r: Option<RedemptionStatus>)
    ensures r.Some? ==> StatusName(r.value) == s
    ensures r.None? ==> s !in {"pending", "approved", "completed", "cancelled"}
  {
    if s == "pending" then Some(Pending)
    else if s == "approved" then Some(Approved)
    else if s == "completed" then Some(Completed)
    else if s == "cancelled" then Some(Cancelled)
    else None
  }

  /** Every enumeration value survives being stored as its string and read back. */
  lemma EnumRoundTrips(l: MemberLevel, t: TransactionType, c: RewardCategory, st: RedemptionStatus)
    ensures ParseLevel(LevelName(l)) == Some(l)
    ensures ParseType(TypeName(t)) == Some(t)
    ensures ParseCategory(CategoryName(c)) == Some(c)
    ensures ParseStatus(StatusName(st)) == Some(st)
  {
  }
}
