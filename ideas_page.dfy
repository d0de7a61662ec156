/**
 * The idea list page: an optional account filter from the query string,
 * a status tab filter, per-status counts, the account name shown beside
 * each idea, and handlers that change an idea's status or delete it.
 */
module IdeasPage {
  import opened Wrappers
  import opened Types
  import opened Arrays
  import opened Storage

  /** The status tab: everything, or one status. */
  datatype StatusFilter = All | Only(status: IdeaStatus)

  /** The counts shown on the six tabs. */
  datatype StatusCounts = StatusCounts(
    all: nat, pending: nat, scheduled: nat, inProduction: nat, published: nat, abandoned: nat)

  /**
   * The load effect's account filter. The query value filters only when it
   * is present and non-empty (`if (accountFilter)`).
   */
  function AccountFiltered(ideas: seq<ContentIdea>, accountFilter: Option<string>): (r: seq<ContentIdea>)
    ensures accountFilter.None? || accountFilter.value == "" ==> r == ideas
    ensures accountFilter.Some? && accountFilter.value != "" ==>
      && r == FilterBy(ideas, IdeaAccountId, accountFilter.value)
      && (forall i :: 0 <= i < |r| ==> r[i].accountId == accountFilter.value)
      && (forall i :: 0 <= i < |ideas| && ideas[i].accountId == accountFilter.value ==> ideas[i] in r)
  {
    if accountFilter.Some? && accountFilter.value != "" then FilterBy(ideas, IdeaAccountId, accountFilter.value)
    else ideas
  }

  /** The status effect: the whole list for All, else exactly the ideas with that status, in order. */
  function StatusFiltered(ideas: seq<ContentIdea>, filter: StatusFilter): (r: seq<ContentIdea>)
    ensures filter == All ==> r == ideas
    ensures filter.Only? ==>
      && r == FilterBy(ideas, IdeaStatusOf, filter.status)
      && (forall i :: 0 <= i < |r| ==> r[i].status == filter.status)
      && (forall i :: 0 <= i < |ideas| && ideas[i].status == filter.status ==> ideas[i] in r)
  {
    match filter
    case All => ideas
    case Only(status) => FilterBy(ideas, IdeaStatusOf, status)
  }

  /** The five status counts partition the list. */
  lemma {:induction false} FiveCountsSum(ideas: seq<ContentIdea>)
    ensures CountBy(ideas, IdeaStatusOf, Pending) + CountBy(ideas, IdeaStatusOf, Scheduled) +
            CountBy(ideas, IdeaStatusOf, InProduction) + CountBy(ideas, IdeaStatusOf, Published) +
            CountBy(ideas, IdeaStatusOf, Abandoned) == |ideas|
  {
    if ideas != [] {
      CountByCons(ideas, IdeaStatusOf, Pending);
      CountByCons(ideas, IdeaStatusOf, Scheduled);
      CountByCons(ideas, IdeaStatusOf, InProduction);
      CountByCons(ideas, IdeaStatusOf, Published);
      CountByCons(ideas, IdeaStatusOf, Abandoned);
      FiveCountsSum(ideas[1..]);
      assert IdeaStatusOf(ideas[0]) == ideas[0].status;
    }
  }

  /**
   * `statusCounts`: `all` is the list length, each other field is the number
   * of ideas with its status, and the five per-status counts add up to `all`.
   */
  function CountStatuses(ideas: seq<ContentIdea>): (c: StatusCounts)
    ensures c.all == |ideas|
    ensures c.pending == |StatusFiltered(ideas, Only(Pending))|
    ensures c.scheduled == |StatusFiltered(ideas, Only(Scheduled))|
    ensures c.inProduction == |StatusFiltered(ideas, Only(InProduction))|
    ensures c.published == |StatusFiltered(ideas, Only(Published))|
    ensures c.abandoned == |StatusFiltered(ideas, Only(Abandoned))|
    ensures c.pending + c.scheduled + c.inProduction + c.published + c.abandoned == c.all
  {
    FiveCountsSum(ideas);
    StatusCounts(
      all := |ideas|,
      pending := CountBy(ideas, IdeaStatusOf, Pending),
      scheduled := CountBy(ideas, IdeaStatusOf, Scheduled),
      inProduction := CountBy(ideas, IdeaStatusOf, InProduction),
      published := CountBy(ideas, IdeaStatusOf, Published),
      abandoned := CountBy(ideas, IdeaStatusOf, Abandoned))
  }

  /** The `statusCounts` field a tab trigger displays. */
  function TabCount(c: StatusCounts, tab: StatusFilter): nat {
    match tab
    case All => c.all
    case Only(Pending) => c.pending
    case Only(Scheduled) => c.scheduled
    case Only(InProduction) => c.inProduction
    case Only(Published) => c.published
    case Only(Abandoned) => c.abandoned
  }

  /** The number on each of the six tabs is the length of the list that tab shows. */
  lemma TabCountIsShownCount(ideas: seq<ContentIdea>, tab: StatusFilter)
    ensures TabCount(CountStatuses(ideas), tab) == |StatusFiltered(ideas, tab)|
  {
  }

  /**
   * `new Map(accounts.map(acc => [acc.id, acc.name]))`: entries are added in
   * order, so for a repeated id the last account's name wins.
   */
  function AccountNames(accounts: seq<Account>): (m: map<string, string>)
    ensures forall id :: id in m <==> LastIndexBy(accounts, AccountId, id) >= 0
    ensures forall id :: id in m ==> m[id] == accounts[LastIndexBy(accounts, AccountId, id)].name
  {
    if accounts == [] then map[]
    else
      var last := accounts[|accounts| - 1];
      AccountNames(accounts[..|accounts| - 1])[last.id := last.name]
  }

  /** Account ids are unique, as they are when every account got a fresh id. */
  predicate UniqueIds(accounts: seq<Account>) {
    forall i, j :: 0 <= i < j < |accounts| ==> accounts[i].id != accounts[j].id
  }

  /** With unique ids the shown name is the name `getAccountById` would find. */
  lemma NamesAgreeWithLookup(accounts: seq<Account>, id: string)
    requires UniqueIds(accounts)
    ensures id in AccountNames(accounts) <==> FindBy(accounts, AccountId, id).Some?
    ensures id in AccountNames(accounts) ==> AccountNames(accounts)[id] == FindBy(accounts, AccountId, id).value.name
  {
    var first, last := FirstIndexBy(accounts, AccountId, id), LastIndexBy(accounts, AccountId, id);
    if last >= 0 {
      assert accounts[first].id == accounts[last].id;
    }
  }

  /**
   * `handleStatusChange`'s update of the shown list: every idea with that
   * id gets the status and `updatedAt := now`; `publishedAt` is not touched.
   */
  function StatusChanged(ideas: seq<ContentIdea>, id: string, status: IdeaStatus, now: string): (r: seq<ContentIdea>)
    ensures |r| == |ideas|
    ensures forall j :: 0 <= j < |ideas| && ideas[j].id != id ==> r[j] == ideas[j]
    ensures forall j :: 0 <= j < |ideas| && ideas[j].id == id ==>
              r[j] == ideas[j].(status := status, updatedAt := now)
  {
    seq(|ideas|, j requires 0 <= j < |ideas| =>
      if ideas[j].id == id then ideas[j].(status := status, updatedAt := now) else ideas[j])
  }

  /** Idea ids are unique. */
  predicate UniqueIdeaIds(ideas: seq<ContentIdea>) {
    forall i, j :: 0 <= i < j < |ideas| ==> ideas[i].id != ideas[j].id
  }

  /**
   * With unique ids, the shown list after a status change equals the stored
   * list after `updateIdeaStatus`, except for the changed idea's timestamps:
   * the shown `publishedAt` keeps its old value, and the two `updatedAt`
   * values come from two separate clock reads (`viewNow` on the page,
   * `storeNow` in the store), so they agree exactly when those reads do.
   */
  lemma ShownAgreesWithStored(ideas: seq<ContentIdea>, id: string, status: IdeaStatus, storeNow: string, viewNow: string)
    requires UniqueIdeaIds(ideas)
    ensures forall j :: 0 <= j < |ideas| ==>
      var shown := StatusChanged(ideas, id, status, viewNow)[j];
      shown == StatusUpdated(ideas, id, status, storeNow)[j].(publishedAt := ideas[j].publishedAt, updatedAt := shown.updatedAt)
    ensures forall j :: 0 <= j < |ideas| ==>
      (StatusChanged(ideas, id, status, viewNow)[j].updatedAt == StatusUpdated(ideas, id, status, storeNow)[j].updatedAt
       <==> ideas[j].id != id || viewNow == storeNow)
  {
    var k := FirstIndexBy(ideas, IdeaId, id);
    forall j | 0 <= j < |ideas|
      ensures StatusUpdated(ideas, id, status, storeNow)[j] ==
              (if ideas[j].id == id then WithStatus(ideas[j], status, storeNow) else ideas[j])
    {
      if ideas[j].id == id {
        assert ideas[k].id == ideas[j].id;
      } else if k >= 0 {
        assert j != k;
      }
    }
  }

  /**
   * Publishing an idea whose stored time differs from the store's clock read
   * leaves the shown time stale.
   */
  lemma PublishedAtStale(ideas: seq<ContentIdea>, j: nat, storeNow: string, viewNow: string)
    requires j < |ideas| && ideas[j].publishedAt != Some(storeNow)
    requires forall i :: 0 <= i < j ==> ideas[i].id != ideas[j].id
    ensures StatusUpdated(ideas, ideas[j].id, Published, storeNow)[j].publishedAt == Some(storeNow)
    ensures StatusChanged(ideas, ideas[j].id, Published, viewNow)[j].publishedAt != Some(storeNow)
  {
    assert FirstIndexBy(ideas, IdeaId, ideas[j].id) == j;
  }

  class IdeasView {
    const accountFilter: Option<string>
    var ideas: seq<ContentIdea>
    var statusFilter: StatusFilter
    var accountNames: map<string, string>

    constructor (accountFilter: Option<string>)
      ensures this.accountFilter == accountFilter
      ensures ideas == [] && statusFilter == All && accountNames == map[]
    {
      this.accountFilter := accountFilter;
      ideas := [];
      statusFilter := All;
      accountNames := map[];
    }

    /** What the list shows once the status effect has run: the loaded ideas the tab selects, in order. */
    function FilteredIdeas(): (r: seq<ContentIdea>)
      reads this
      ensures r == StatusFiltered(ideas, statusFilter)
      ensures statusFilter == All ==> r == ideas
      ensures statusFilter.Only? ==>
        && (forall i :: 0 <= i < |r| ==> r[i].status == statusFilter.status && r[i] in ideas)
        && (forall i :: 0 <= i < |ideas| && ideas[i].status == statusFilter.status ==> ideas[i] in r)
        && |r| == CountBy(ideas, IdeaStatusOf, statusFilter.status)
    {
      StatusFiltered(ideas, statusFilter)
    }

    /**
     * The tab counts of the loaded (account-filtered) list: each tab's number
     * is the length of the list that tab shows.
     */
    function Counts(): (c: StatusCounts)
      reads this
      ensures forall tab :: TabCount(c, tab) == |StatusFiltered(ideas, tab)|
      ensures c.pending + c.scheduled + c.inProduction + c.published + c.abandoned == |ideas|
    {
      forall tab
        ensures TabCount(CountStatuses(ideas), tab) == |StatusFiltered(ideas, tab)|
      {
        TabCountIsShownCount(ideas, tab);
      }
      CountStatuses(ideas)
    }

    /** `accounts.get(idea.accountId)`: absent when no account has that id. */
    function AccountNameOf(idea: ContentIdea): (r: Option<string>)
      reads this
      ensures r.Some? <==> idea.accountId in accountNames
      ensures r.Some? ==> r.value == accountNames[idea.accountId]
    {
      if idea.accountId in accountNames then Some(accountNames[idea.accountId]) else None
    }

    /** The load effect. */
    method Load(store: Store)
      modifies this
      ensures accountNames == AccountNames(store.GetAccounts())
      ensures ideas == AccountFiltered(store.GetIdeas(), accountFilter)
      ensures statusFilter == old(statusFilter)
    {
      var loadedIdeas := store.GetIdeas();
      var loadedAccounts := store.GetAccounts();
      accountNames := AccountNames(loadedAccounts);
      var filtered := loadedIdeas;
      if accountFilter.Some? && accountFilter.value != "" {
        filtered := FilterBy(filtered, IdeaAccountId, accountFilter.value);
      }
      ideas := filtered;
    }

    /** A tab was chosen. */
    method SetStatusFilter(filter: StatusFilter)
      modifies this
      ensures statusFilter == filter && ideas == old(ideas) && accountNames == old(accountNames)
    {
      statusFilter := filter;
    }

    /**
     * `handleStatusChange`: persists through `updateIdeaStatus` (whose clock
     * read is `storeNow`), then maps the shown list with its own clock read
     * `viewNow`.
     */
    method HandleStatusChange(store: Store, id: string, status: IdeaStatus, storeNow: string, viewNow: string)
      modifies this, store
      ensures store.hasWindow ==> store.ideas == StatusUpdated(old(store.ideas), id, status, storeNow)
      ensures !store.hasWindow ==> store.ideas == old(store.ideas)
      ensures store.accounts == old(store.accounts)
      ensures ideas == StatusChanged(old(ideas), id, status, viewNow)
      ensures statusFilter == old(statusFilter) && accountNames == old(accountNames)
    {
      store.UpdateIdeaStatus(id, status, storeNow);
      ideas := StatusChanged(ideas, id, status, viewNow);
    }

    /** `handleDelete`: only a confirmed delete touches the store and the list. */
    method HandleDelete(store: Store, id: string, confirmed: bool)
      requires store.hasWindow
      modifies this, store
      ensures confirmed ==> store.ideas == RemoveBy(old(store.ideas), IdeaId, id)
      ensures confirmed ==> ideas == RemoveBy(old(ideas), IdeaId, id)
      ensures !confirmed ==> store.ideas == old(store.ideas) && ideas == old(ideas)
      ensures store.accounts == old(store.accounts)
      ensures statusFilter == old(statusFilter) && accountNames == old(accountNames)
    {
      if confirmed {
        var _ := store.DeleteIdea(id);
        ideas := RemoveBy(ideas, IdeaId, id);
      }
    }
  }
}
