/**
 * The record store: two independent persistent slots, "craftkit_accounts"
 * and "craftkit_ideas", each holding a whole sequence of records. Every
 * operation reads the whole slot, changes it, and writes it back whole.
 *
 * `hasWindow` is false when the code runs outside a browser. Then the
 * getters see an empty slot, `saveX`/`deleteX` fail at the write (the source
 * throws because `localStorage` does not exist; here they report `ok == false`
 * and write nothing), and `updateIdeaStatus` finds nothing and writes nothing.
 * An absent slot and a slot holding an empty list read the same, so an
 * absent slot is the empty sequence here.
 */
module Storage {
  import opened Wrappers
  import opened Types
  import opened Arrays

  /** The idea as `updateIdeaStatus` leaves it after mutating it in place. */
  function WithStatus(idea: ContentIdea, status: IdeaStatus, now: string): (r: ContentIdea)
    ensures r.status == status && r.updatedAt == now
    ensures r.publishedAt == if status == Published then Some(now) else idea.publishedAt
    ensures r.(status := idea.status, updatedAt := idea.updatedAt, publishedAt := idea.publishedAt) == idea
  {
    var changed := idea.(status := status, updatedAt := now);
    if status == Published then changed.(publishedAt := Some(now)) else changed
  }

  /**
   * The ideas after `updateIdeaStatus` found the first idea with `id` and
   * mutated it; with no such idea the sequence is unchanged.
   */
  function StatusUpdated(ideas: seq<ContentIdea>, id: string, status: IdeaStatus, now: string): (r: seq<ContentIdea>)
    ensures |r| == |ideas|
    ensures forall j :: 0 <= j < |ideas| ==>
              r[j] == if j == FirstIndexBy(ideas, IdeaId, id) then WithStatus(ideas[j], status, now) else ideas[j]
    ensures (forall j :: 0 <= j < |ideas| ==> ideas[j].id != id) ==> r == ideas
  {
    var i := FirstIndexBy(ideas, IdeaId, id);
    if i >= 0 then ideas[i := WithStatus(ideas[i], status, now)] else ideas
  }

  class Store {
    const hasWindow: bool
    var accounts: seq<Account>
    var ideas: seq<ContentIdea>

    constructor (hasWindow: bool, accounts: seq<Account>, ideas: seq<ContentIdea>)
      ensures this.hasWindow == hasWindow && this.accounts == accounts && this.ideas == ideas
    {
      this.hasWindow := hasWindow;
      this.accounts := accounts;
      this.ideas := ideas;
    }

    /** `getAccounts`: the stored accounts, or none without a window. */
    function GetAccounts(): (r: seq<Account>)
      reads this
      ensures hasWindow ==> r == accounts
      ensures !hasWindow ==> r == []
    {
      if hasWindow then accounts else []
    }

    /** `getIdeas`: the stored ideas, or none without a window. */
    function GetIdeas(): (r: seq<ContentIdea>)
      reads this
      ensures hasWindow ==> r == ideas
      ensures !hasWindow ==> r == []
    {
      if hasWindow then ideas else []
    }

    /**
     * `saveAccount`: the first account with the same id is replaced by the
     * argument stamped with `updatedAt := now`; an unseen id is appended as given.
     */
    method SaveAccount(account: Account, now: string) returns (ok: bool)
      modifies this
      ensures ok == hasWindow
      ensures ideas == old(ideas)
      ensures !ok ==> accounts == old(accounts)
      ensures ok ==> accounts == ReplaceOrAppend(old(accounts), AccountId, account, account.(updatedAt := now))
    {
      var list := GetAccounts();
      var index := FirstIndexBy(list, AccountId, account.id);
      if index >= 0 {
        list := list[index := account.(updatedAt := now)];
      } else {
        list := list + [account];
      }
      ok := hasWindow;
      if ok {
        accounts := list;
      }
    }

    /** `deleteAccount`: every account with that id is dropped, the rest keep their order. */
    method DeleteAccount(id: string) returns (ok: bool)
      modifies this
      ensures ok == hasWindow
      ensures ideas == old(ideas)
      ensures !ok ==> accounts == old(accounts)
      ensures ok ==> accounts == RemoveBy(old(accounts), AccountId, id)
    {
      var list := RemoveBy(GetAccounts(), AccountId, id);
      ok := hasWindow;
      if ok {
        accounts := list;
      }
    }

    /** `getAccountById`: the first stored account with that id, if any. */
    function GetAccountById(id: string): (r: Option<Account>)
      reads this
      ensures r.Some? ==> r.value.id == id
      ensures r.Some? ==> exists i :: 0 <= i < |GetAccounts()| && GetAccounts()[i] == r.value &&
                                      forall j :: 0 <= j < i ==> GetAccounts()[j].id != id
      ensures r.None? <==> forall i :: 0 <= i < |GetAccounts()| ==> GetAccounts()[i].id != id
    {
      FindBy(GetAccounts(), AccountId, id)
    }

    /** `getIdeasByAccount`: exactly the ideas of that account, in stored order. */
    function GetIdeasByAccount(accountId: string): (r: seq<ContentIdea>)
      reads this
      ensures forall i :: 0 <= i < |r| ==> r[i].accountId == accountId && r[i] in GetIdeas()
      ensures forall i :: 0 <= i < |GetIdeas()| && GetIdeas()[i].accountId == accountId ==> GetIdeas()[i] in r
      ensures r == FilterBy(GetIdeas(), IdeaAccountId, accountId)
    {
      FilterBy(GetIdeas(), IdeaAccountId, accountId)
    }

    /**
     * `saveIdea`: the first idea with the same id is replaced by the argument
     * stamped with `updatedAt := now`; an unseen id is appended as given.
     */
    method SaveIdea(idea: ContentIdea, now: string) returns (ok: bool)
      modifies this
      ensures ok == hasWindow
      ensures accounts == old(accounts)
      ensures !ok ==> ideas == old(ideas)
      ensures ok ==> ideas == ReplaceOrAppend(old(ideas), IdeaId, idea, idea.(updatedAt := now))
    {
      var list := GetIdeas();
      var index := FirstIndexBy(list, IdeaId, idea.id);
      if index >= 0 {
        list := list[index := idea.(updatedAt := now)];
      } else {
        list := list + [idea];
      }
      ok := hasWindow;
      if ok {
        ideas := list;
      }
    }

    /** `deleteIdea`: every idea with that id is dropped, the rest keep their order. */
    method DeleteIdea(id: string) returns (ok: bool)
      modifies this
      ensures ok == hasWindow
      ensures accounts == old(accounts)
      ensures !ok ==> ideas == old(ideas)
      ensures ok ==> ideas == RemoveBy(old(ideas), IdeaId, id)
    {
      var list := RemoveBy(GetIdeas(), IdeaId, id);
      ok := hasWindow;
      if ok {
        ideas := list;
      }
    }

    /**
     * `updateIdeaStatus`: the first idea with that id gets the new status and
     * `updatedAt := now`, and `publishedAt := now` only for Published; the
     * other ideas are untouched. With no such idea nothing is written.
     */
    method UpdateIdeaStatus(id: string, status: IdeaStatus, now: string)
      modifies this
      ensures accounts == old(accounts)
      ensures hasWindow ==> ideas == StatusUpdated(old(ideas), id, status, now)
      ensures !hasWindow ==> ideas == old(ideas)
    {
      var list := GetIdeas();
      var index := FirstIndexBy(list, IdeaId, id);
      if index >= 0 {
        list := list[index := WithStatus(list[index], status, now)];
        ideas := list;
      }
    }
  }

  /** A save followed by a lookup of the same id finds the saved record (stamped when it replaced one). */
  lemma SaveThenGet(accounts: seq<Account>, account: Account, now: string)
    ensures FindBy(ReplaceOrAppend(accounts, AccountId, account, account.(updatedAt := now)), AccountId, account.id) ==
            Some(if FirstIndexBy(accounts, AccountId, account.id) >= 0 then account.(updatedAt := now) else account)
  {
    UpsertThenFind(accounts, AccountId, account, account.(updatedAt := now));
  }

  /** Saving with an id already present keeps the length; an unseen id adds exactly one record. */
  lemma SaveLength(accounts: seq<Account>, account: Account, now: string)
    ensures |ReplaceOrAppend(accounts, AccountId, account, account.(updatedAt := now))| ==
            if exists i :: 0 <= i < |accounts| && accounts[i].id == account.id then |accounts| else |accounts| + 1
  {
    var i := FirstIndexBy(accounts, AccountId, account.id);
    if i >= 0 {
      assert accounts[i].id == account.id;
    }
  }

  /** Deleting an id that is not stored leaves the slot as it was. */
  lemma DeleteAbsent(accounts: seq<Account>, id: string)
    requires forall i :: 0 <= i < |accounts| ==> accounts[i].id != id
    ensures RemoveBy(accounts, AccountId, id) == accounts
  {
    RemoveAbsent(accounts, AccountId, id);
  }

  /** Saving, deleting the same id, then looking it up finds nothing. */
  lemma SaveDeleteGet(accounts: seq<Account>, account: Account, now: string)
    ensures FindBy(RemoveBy(ReplaceOrAppend(accounts, AccountId, account, account.(updatedAt := now)),
                            AccountId, account.id), AccountId, account.id) == None
  {
    RemoveThenFind(ReplaceOrAppend(accounts, AccountId, account, account.(updatedAt := now)), AccountId, account.id);
  }

  /** Marking an idea published and then pending keeps the publication time. */
  lemma UnpublishKeepsPublishedAt(idea: ContentIdea, t1: string, t2: string)
    ensures WithStatus(WithStatus(idea, Published, t1), Pending, t2).publishedAt == Some(t1)
  {
  }
}
