/**
 * The records of the content tool: tracked accounts with an embedded persona,
 * content ideas that point at an account, and the six dashboard counters.
 * Timestamps and identifiers are the strings the source stores (ISO dates,
 * UUIDs); numeric counts are integers and growth percentages are reals.
 */
module Types {
  import opened Wrappers

  datatype AccountStatus = Active | Inactive | Archived

  /** Descriptive style attributes; a plain value owned by its account, with no id. */
  datatype Persona = Persona(
    personality: string,
    industry: string,
    appearance: string,
    catchphrase: string,
    updateFrequency: string)

  /** A tracked account. Only `platformUrl` may be absent. */
  datatype Account = Account(
    id: string,
    name: string,
    platformUrl: Option<string>,
    followerCount: int,
    totalPosts: int,
    weeklyFollowerGrowth: real,
    weeklyLikeGrowth: real,
    dailyFollowerGrowth: real,
    dailyLikeGrowth: real,
    persona: Persona,
    createdAt: string,
    updatedAt: string,
    status: AccountStatus)

  /** Five unordered labels: any status may follow any other. */
  datatype IdeaStatus = Pending | Scheduled | InProduction | Published | Abandoned

  /** A content idea. `description`, `scriptDraft`, `scriptLink` and `publishedAt` may be absent. */
  datatype ContentIdea = ContentIdea(
    id: string,
    accountId: string,
    title: string,
    description: Option<string>,
    scriptDraft: Option<string>,
    scriptLink: Option<string>,
    status: IdeaStatus,
    createdAt: string,
    updatedAt: string,
    publishedAt: Option<string>)

  datatype DashboardStats = DashboardStats(
    totalAccounts: int,
    activeAccounts: int,
    totalPosts: int,
    totalFollowers: int,
    pendingIdeas: int,
    scheduledIdeas: int)

  // Field projections handed to the array operations of module Arrays.
  function AccountId(a: Account): string { a.id }
  function AccountStatusOf(a: Account): AccountStatus { a.status }
  function FollowersOf(a: Account): int { a.followerCount }
  function PostsOf(a: Account): int { a.totalPosts }
  function IdeaId(i: ContentIdea): string { i.id }
  function IdeaAccountId(i: ContentIdea): string { i.accountId }
  function IdeaStatusOf(i: ContentIdea): IdeaStatus { i.status }

  /** The string each account status is stored as. */
  function AccountStatusLabel(s: AccountStatus): string {
    match s
    case Active => "active"
    case Inactive => "inactive"
    case Archived => "archived"
  }

  /** The string each idea status is stored as (and used as a tab value). */
  function IdeaStatusLabel(s: IdeaStatus): string {
    match s
    case Pending => "pending"
    case Scheduled => "scheduled"
    case InProduction => "in-production"
    case Published => "published"
    case Abandoned => "abandoned"
  }

  /** Reads a stored idea-status string back; anything but the five labels is rejected. */
  function ParseIdeaStatus(text: string): (r: Option<IdeaStatus>)
    ensures r.Some? ==> IdeaStatusLabel(r.value) == text
  {
    if text == "pending" then Some(Pending)
    else if text == "scheduled" then Some(Scheduled)
    else if text == "in-production" then Some(InProduction)
    else if text == "published" then Some(Published)
    else if text == "abandoned" then Some(Abandoned)
    else None
  }

  /** Reads a stored account-status string back. */
  function ParseAccountStatus(text: string): (r: Option<AccountStatus>)
    ensures r.Some? ==> AccountStatusLabel(r.value) == text
  {
    if text == "active" then Some(Active)
    else if text == "inactive" then Some(Inactive)
    else if text == "archived" then Some(Archived)
    else None
  }

  /** Every idea status survives being written as its label and read back. */
  lemma IdeaStatusRoundTrip(s: IdeaStatus)
    ensures ParseIdeaStatus(IdeaStatusLabel(s)) == Some(s)
  {
  }

  /** Every account status survives being written as its label and read back. */
  lemma AccountStatusRoundTrip(s: AccountStatus)
    ensures ParseAccountStatus(AccountStatusLabel(s)) == Some(s)
  {
  }
}
