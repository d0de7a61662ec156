/**
 * The account form: its initial field values, how a typed count becomes a
 * number, and the account `handleSubmit` builds. Identifiers and timestamps
 * are passed in: `freshId` for `crypto.randomUUID()`, and `createdNow` and
 * `updatedNow` for the two separate clock reads of `handleSubmit`.
 * JavaScript's `x || fallback` is modelled as written: an empty string
 * falls through to the fallback.
 */
module AccountForm {
  import opened Wrappers
  import opened Types

  datatype FormData = FormData(
    name: string,
    platformUrl: string,
    followerCount: int,
    totalPosts: int,
    personality: string,
    industry: string,
    appearance: string,
    catchphrase: string,
    updateFrequency: string)

  /** `s || fallback` for strings: the empty string is falsy. */
  function OrElse(s: string, fallback: string): (r: string)
    ensures s != "" ==> r == s
    ensures s == "" ==> r == fallback
    ensures r == "" <==> s == "" && fallback == ""
  {
    if s != "" then s else fallback
  }

  /** The initial form: the edited account's values, or empty strings and zeros when creating. */
  function InitialFormData(account: Option<Account>): (f: FormData)
    ensures account.None? ==> f == FormData("", "", 0, 0, "", "", "", "", "")
    ensures account.Some? ==>
      && f.name == account.value.name
      && f.platformUrl == account.value.platformUrl.GetOr("")
      && f.followerCount == account.value.followerCount
      && f.totalPosts == account.value.totalPosts
      && f.personality == account.value.persona.personality
      && f.industry == account.value.persona.industry
      && f.appearance == account.value.persona.appearance
      && f.catchphrase == account.value.persona.catchphrase
      && f.updateFrequency == account.value.persona.updateFrequency
  {
    match account
    case None => FormData("", "", 0, 0, "", "", "", "", "")
    case Some(a) =>
      FormData(a.name, a.platformUrl.GetOr(""), a.followerCount, a.totalPosts,
               a.persona.personality, a.persona.industry, a.persona.appearance,
               a.persona.catchphrase, a.persona.updateFrequency)
  }

  /**
   * `Number.parseInt(text) || 0`: the parser's result (`None` for NaN), with
   * NaN and 0 both stored as 0.
   */
  function CountInput(parsed: Option<int>): (n: int)
    ensures parsed.None? ==> n == 0
    ensures parsed.Some? ==> n == parsed.value
  {
    match parsed
    case Some(v) => v  // `0 || 0` is 0, so a parsed integer is kept as it is
    case None => 0
  }

  /**
   * `handleSubmit`: the edited account's id, creation time, status and growth
   * carry over (a new account gets `freshId`, `createdNow`, Active and zeros);
   * every other field comes from the form, and `updatedAt` is always
   * `updatedNow`.
   */
  function BuildAccount(account: Option<Account>, form: FormData, freshId: string,
                        createdNow: string, updatedNow: string): (r: Account)
    ensures r.id == if account.Some? then OrElse(account.value.id, freshId) else freshId
    ensures r.createdAt == if account.Some? then OrElse(account.value.createdAt, createdNow) else createdNow
    ensures r.updatedAt == updatedNow
    ensures account.Some? ==>
      && r.status == account.value.status
      && r.weeklyFollowerGrowth == account.value.weeklyFollowerGrowth
      && r.weeklyLikeGrowth == account.value.weeklyLikeGrowth
      && r.dailyFollowerGrowth == account.value.dailyFollowerGrowth
      && r.dailyLikeGrowth == account.value.dailyLikeGrowth
    ensures account.None? ==>
      && r.status == Active
      && r.weeklyFollowerGrowth == r.weeklyLikeGrowth == r.dailyFollowerGrowth == r.dailyLikeGrowth == 0.0
    ensures r.name == form.name && r.platformUrl == Some(form.platformUrl)
    ensures r.followerCount == form.followerCount && r.totalPosts == form.totalPosts
    ensures r.persona == Persona(form.personality, form.industry, form.appearance, form.catchphrase, form.updateFrequency)
  {
    Account(
      id := if account.Some? then OrElse(account.value.id, freshId) else freshId,
      name := form.name,
      platformUrl := Some(form.platformUrl),
      followerCount := form.followerCount,
      totalPosts := form.totalPosts,
      weeklyFollowerGrowth := if account.Some? then account.value.weeklyFollowerGrowth else 0.0,
      weeklyLikeGrowth := if account.Some? then account.value.weeklyLikeGrowth else 0.0,
      dailyFollowerGrowth := if account.Some? then account.value.dailyFollowerGrowth else 0.0,
      dailyLikeGrowth := if account.Some? then account.value.dailyLikeGrowth else 0.0,
      persona := Persona(form.personality, form.industry, form.appearance, form.catchphrase, form.updateFrequency),
      createdAt := if account.Some? then OrElse(account.value.createdAt, createdNow) else createdNow,
      updatedAt := updatedNow,
      status := if account.Some? then account.value.status else Active)
  }

  /**
   * Submitting an edit form untouched gives back the account with only
   * `updatedAt` refreshed, and an absent `platformUrl` turned into "".
   */
  lemma UntouchedEditRoundTrip(a: Account, freshId: string, createdNow: string, updatedNow: string)
    requires a.id != "" && a.createdAt != ""
    ensures BuildAccount(Some(a), InitialFormData(Some(a)), freshId, createdNow, updatedNow) ==
            a.(updatedAt := updatedNow, platformUrl := Some(a.platformUrl.GetOr("")))
  {
  }

  /** An edited account whose id is empty is saved under the fresh id instead. */
  lemma EmptyIdGetsFreshId(a: Account, form: FormData, freshId: string, createdNow: string, updatedNow: string)
    requires a.id == ""
    ensures BuildAccount(Some(a), form, freshId, createdNow, updatedNow).id == freshId
  {
  }
}
