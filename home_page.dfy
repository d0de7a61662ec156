/**
 * The dashboard page: on load it reads the accounts (seeding both slots
 * with the mock collections when no account is stored) and folds the two
 * collections into the six dashboard counters; its handlers delete and
 * import accounts. The counters are computed only on load: the handlers
 * leave them as they were.
 */
module HomePage {
  import opened Wrappers
  import opened Types
  import opened Arrays
  import opened Storage
  import opened Scraper

  /** The load effect's fold over the loaded accounts and the stored ideas. */
  function ComputeStats(accounts: seq<Account>, ideas: seq<ContentIdea>): (s: DashboardStats)
    ensures s.totalAccounts == |accounts|
    ensures 0 <= s.activeAccounts <= s.totalAccounts
    ensures 0 <= s.pendingIdeas && 0 <= s.scheduledIdeas
    ensures s.pendingIdeas + s.scheduledIdeas <= |ideas|
  {
    TwoCountsBounded(ideas, IdeaStatusOf, Pending, Scheduled);
    DashboardStats(
      totalAccounts := |accounts|,
      activeAccounts := CountBy(accounts, AccountStatusOf, Active),
      totalPosts := SumBy(accounts, PostsOf),
      totalFollowers := SumBy(accounts, FollowersOf),
      pendingIdeas := CountBy(ideas, IdeaStatusOf, Pending),
      scheduledIdeas := CountBy(ideas, IdeaStatusOf, Scheduled))
  }

  /**
   * No accounts give four zero account counters whatever the ideas, and no
   * ideas give two zero idea counters whatever the accounts.
   */
  lemma StatsOfNothing(accounts: seq<Account>, ideas: seq<ContentIdea>)
    ensures var s := ComputeStats([], ideas);
      s.totalAccounts == s.activeAccounts == s.totalFollowers == s.totalPosts == 0
    ensures var s := ComputeStats(accounts, []);
      s.pendingIdeas == s.scheduledIdeas == 0
  {
  }

  /**
   * Appending one account moves the account counters by exactly that
   * account's contribution and leaves the idea counters alone.
   */
  lemma StatsAfterAppend(accounts: seq<Account>, a: Account, ideas: seq<ContentIdea>)
    ensures var before, after := ComputeStats(accounts, ideas), ComputeStats(accounts + [a], ideas);
      && after.totalAccounts == before.totalAccounts + 1
      && after.activeAccounts == before.activeAccounts + (if a.status == Active then 1 else 0)
      && after.totalFollowers == before.totalFollowers + a.followerCount
      && after.totalPosts == before.totalPosts + a.totalPosts
      && after.pendingIdeas == before.pendingIdeas
      && after.scheduledIdeas == before.scheduledIdeas
  {
    CountByAppend(accounts, a, AccountStatusOf, Active);
    SumByAppend(accounts, a, FollowersOf);
    SumByAppend(accounts, a, PostsOf);
  }

  /**
   * Appending one idea adds 1 to the pending counter exactly when it is
   * pending and 1 to the scheduled counter exactly when it is scheduled, and
   * leaves the account counters alone.
   */
  lemma StatsAfterIdeaAppend(accounts: seq<Account>, ideas: seq<ContentIdea>, i: ContentIdea)
    ensures var before, after := ComputeStats(accounts, ideas), ComputeStats(accounts, ideas + [i]);
      && after.pendingIdeas == before.pendingIdeas + (if i.status == Pending then 1 else 0)
      && after.scheduledIdeas == before.scheduledIdeas + (if i.status == Scheduled then 1 else 0)
      && after.totalAccounts == before.totalAccounts
      && after.activeAccounts == before.activeAccounts
      && after.totalFollowers == before.totalFollowers
      && after.totalPosts == before.totalPosts
  {
    CountByAppend(ideas, i, IdeaStatusOf, Pending);
    CountByAppend(ideas, i, IdeaStatusOf, Scheduled);
  }

  /**
   * Deleting an id moves each account counter by the contribution of the
   * accounts that carried it (`gone`), and leaves the idea counters alone:
   * these are the amounts by which the dashboard, which keeps its old
   * counters after a delete, is off.
   */
  lemma StatsAfterDelete(accounts: seq<Account>, id: string, ideas: seq<ContentIdea>)
    ensures var before, after := ComputeStats(accounts, ideas), ComputeStats(RemoveBy(accounts, AccountId, id), ideas);
      var gone := FilterBy(accounts, AccountId, id);
      && after.totalAccounts == before.totalAccounts - |gone|
      && after.activeAccounts == before.activeAccounts - CountBy(gone, AccountStatusOf, Active)
      && after.totalFollowers == before.totalFollowers - SumBy(gone, FollowersOf)
      && after.totalPosts == before.totalPosts - SumBy(gone, PostsOf)
      && after.pendingIdeas == before.pendingIdeas
      && after.scheduledIdeas == before.scheduledIdeas
  {
    FilterRemovePartition(accounts, AccountId, id);
    CountSplitBy(accounts, AccountId, id, AccountStatusOf, Active);
    SumSplitBy(accounts, AccountId, id, FollowersOf);
    SumSplitBy(accounts, AccountId, id, PostsOf);
  }

  const PendingPersona := Persona("", "", "", "", "待设置")

  /**
   * The account `handleImportAccount` builds from scraped data. Its two
   * timestamps are two separate clock reads, `createdNow` and `updatedNow`.
   */
  function ImportedAccount(data: ScrapedAccountData, id: string, createdNow: string, updatedNow: string): (a: Account)
    ensures a.id == id && a.status == Active
    ensures a.name == data.name && a.platformUrl == Some(data.platformUrl)
    ensures a.followerCount == data.followerCount && a.totalPosts == data.totalPosts
    ensures a.weeklyFollowerGrowth == a.weeklyLikeGrowth == a.dailyFollowerGrowth == a.dailyLikeGrowth == 0.0
    ensures a.persona.updateFrequency == "待设置"
    ensures a.persona.(updateFrequency := "") == Persona("", "", "", "", "")
    ensures a.createdAt == createdNow && a.updatedAt == updatedNow
  {
    Account(
      id := id,
      name := data.name,
      platformUrl := Some(data.platformUrl),
      followerCount := data.followerCount,
      totalPosts := data.totalPosts,
      weeklyFollowerGrowth := 0.0,
      weeklyLikeGrowth := 0.0,
      dailyFollowerGrowth := 0.0,
      dailyLikeGrowth := 0.0,
      persona := PendingPersona,
      createdAt := createdNow,
      updatedAt := updatedNow,
      status := Active)
  }

  /** An account imported from a scrape of `url` links back to `url` and has counts in that platform's ranges. */
  lemma ImportedFromScrape(url: string, data: ScrapedAccountData, id: string, createdNow: string, updatedNow: string)
    requires ScrapedFor(url, data)
    ensures var a := ImportedAccount(data, id, createdNow, updatedNow);
      && a.platformUrl == Some(url)
      && FollowerDraw(DetectPlatform(url)).Holds(a.followerCount)
      && PostDraw(DetectPlatform(url)).Holds(a.totalPosts)
  {
  }

  class Home {
    var accounts: seq<Account>
    var stats: DashboardStats

    constructor ()
      ensures accounts == [] && stats == DashboardStats(0, 0, 0, 0, 0, 0)
    {
      accounts := [];
      stats := DashboardStats(0, 0, 0, 0, 0, 0);
    }

    /**
     * The load effect. With no stored account, each mock collection is
     * written to its slot once per element (so an empty one writes nothing)
     * and the page shows the mock accounts.
     */
    method Load(store: Store, mockAccounts: seq<Account>, mockIdeas: seq<ContentIdea>)
      requires store.hasWindow
      modifies this, store
      ensures old(store.accounts) != [] ==>
        store.accounts == old(store.accounts) && store.ideas == old(store.ideas) && accounts == old(store.accounts)
      ensures old(store.accounts) == [] ==>
        && store.accounts == mockAccounts
        && store.ideas == (if mockIdeas == [] then old(store.ideas) else mockIdeas)
        && accounts == mockAccounts
      ensures stats == ComputeStats(accounts, store.ideas)
    {
      var loaded := store.GetAccounts();
      if |loaded| == 0 {
        for k := 0 to |mockAccounts|
          invariant store.accounts == if k == 0 then old(store.accounts) else mockAccounts
          invariant store.ideas == old(store.ideas)
        {
          store.accounts := mockAccounts;
        }
        for k := 0 to |mockIdeas|
          invariant store.accounts == mockAccounts
          invariant store.ideas == if k == 0 then old(store.ideas) else mockIdeas
        {
          store.ideas := mockIdeas;
        }
        loaded := mockAccounts;
      }
      accounts := loaded;
      var ideas := store.GetIdeas();
      stats := ComputeStats(loaded, ideas);
    }

    /** `handleDeleteAccount`: only a confirmed delete touches the store and the list; ideas stay. */
    method HandleDeleteAccount(store: Store, id: string, confirmed: bool)
      requires store.hasWindow
      modifies this, store
      ensures confirmed ==> store.accounts == RemoveBy(old(store.accounts), AccountId, id)
      ensures confirmed ==> accounts == RemoveBy(old(accounts), AccountId, id)
      ensures !confirmed ==> store.accounts == old(store.accounts) && accounts == old(accounts)
      ensures store.ideas == old(store.ideas) && stats == old(stats)
    {
      if confirmed {
        var _ := store.DeleteAccount(id);
        accounts := RemoveBy(accounts, AccountId, id);
      }
    }

    /**
     * `handleImportAccount`: the new account is saved to the store (an upsert
     * by its fresh id, `saveNow` being the store's own clock read) and
     * appended to the shown list.
     */
    method HandleImportAccount(store: Store, data: ScrapedAccountData, newId: string,
                               createdNow: string, updatedNow: string, saveNow: string)
      requires store.hasWindow
      modifies this, store
      ensures var a := ImportedAccount(data, newId, createdNow, updatedNow);
        && accounts == old(accounts) + [a]
        && store.accounts == ReplaceOrAppend(old(store.accounts), AccountId, a, a.(updatedAt := saveNow))
      ensures (forall i :: 0 <= i < |old(store.accounts)| ==> old(store.accounts)[i].id != newId) ==>
        store.accounts == old(store.accounts) + [ImportedAccount(data, newId, createdNow, updatedNow)]
      ensures store.ideas == old(store.ideas) && stats == old(stats)
    {
      var account := ImportedAccount(data, newId, createdNow, updatedNow);
      var _ := store.SaveAccount(account, saveNow);
      accounts := accounts + [account];
    }
  }
}
