/**
 * The idea form: its initial field values, the account picker, and the
 * idea `handleSubmit` builds. Empty optional texts are stored as absent.
 */
module IdeaForm {
  import opened Wrappers
  import opened Types
  import opened Storage
  import AccountForm

  datatype FormData = FormData(
    accountId: string,
    title: string,
    description: string,
    scriptDraft: string,
    scriptLink: string,
    status: IdeaStatus)

  /** One entry of the account picker. */
  datatype AccountOption = AccountOption(id: string, name: string)

  /** `text || undefined`: the empty string becomes absent. */
  function NonEmpty(text: string): (r: Option<string>)
    ensures r.None? <==> text == ""
    ensures r.Some? ==> r.value == text
  {
    if text == "" then None else Some(text)
  }

  /**
   * The initial form. `accountId` is the idea's, else `defaultAccountId`,
   * else "" (an empty string falls through); the status is the idea's or
   * Pending; absent texts start as "".
   */
  function InitialFormData(idea: Option<ContentIdea>, defaultAccountId: Option<string>): (f: FormData)
    ensures f.accountId ==
      if idea.Some? && idea.value.accountId != "" then idea.value.accountId
      else if defaultAccountId.Some? then defaultAccountId.value
      else ""
    ensures idea.None? ==> f.title == f.description == f.scriptDraft == f.scriptLink == "" && f.status == Pending
    ensures idea.Some? ==>
      && f.title == idea.value.title
      && f.description == idea.value.description.GetOr("")
      && f.scriptDraft == idea.value.scriptDraft.GetOr("")
      && f.scriptLink == idea.value.scriptLink.GetOr("")
      && f.status == idea.value.status
  {
    var fallback := defaultAccountId.GetOr("");
    match idea
    case None => FormData(fallback, "", "", "", "", Pending)
    case Some(i) =>
      FormData(AccountForm.OrElse(i.accountId, fallback), i.title, i.description.GetOr(""),
               i.scriptDraft.GetOr(""), i.scriptLink.GetOr(""), i.status)
  }

  /** The picker effect: (id, name) of every stored account, in stored order. */
  function AccountOptions(accounts: seq<Account>): (r: seq<AccountOption>)
    ensures |r| == |accounts|
    ensures forall i :: 0 <= i < |r| ==> r[i].id == accounts[i].id && r[i].name == accounts[i].name
  {
    seq(|accounts|, i requires 0 <= i < |accounts| => AccountOption(accounts[i].id, accounts[i].name))
  }

  /** The picker lists an option for an id exactly when the store holds an account with it. */
  lemma PickerCoversStore(store: Store, id: string)
    ensures (exists i :: 0 <= i < |AccountOptions(store.GetAccounts())| && AccountOptions(store.GetAccounts())[i].id == id)
        <==> store.GetAccountById(id).Some?
  {
    var accounts := store.GetAccounts();
    var options := AccountOptions(accounts);
    if exists i :: 0 <= i < |options| && options[i].id == id {
      var i :| 0 <= i < |options| && options[i].id == id;
      assert accounts[i].id == id;
    }
    if store.GetAccountById(id).Some? {
      var i :| 0 <= i < |accounts| && accounts[i] == store.GetAccountById(id).value;
      assert options[i].id == id;
    }
  }

  /**
   * `handleSubmit`: the edited idea's id and creation time carry over (else
   * `freshId` and `createdNow`), `publishedAt` is the edited idea's (absent
   * for a new one), empty texts become absent, `updatedAt` is `updatedNow`
   * (a second clock read), and title, account and status come from the form
   * as they are.
   */
  function BuildIdea(idea: Option<ContentIdea>, form: FormData, freshId: string,
                     createdNow: string, updatedNow: string): (r: ContentIdea)
    ensures r.id == if idea.Some? && idea.value.id != "" then idea.value.id else freshId
    ensures r.createdAt == if idea.Some? && idea.value.createdAt != "" then idea.value.createdAt else createdNow
    ensures r.publishedAt == if idea.Some? then idea.value.publishedAt else None
    ensures r.updatedAt == updatedNow
    ensures r.title == form.title && r.accountId == form.accountId && r.status == form.status
    ensures r.description.None? <==> form.description == ""
    ensures r.scriptDraft.None? <==> form.scriptDraft == ""
    ensures r.scriptLink.None? <==> form.scriptLink == ""
    ensures r.description.GetOr("") == form.description
    ensures r.scriptDraft.GetOr("") == form.scriptDraft
    ensures r.scriptLink.GetOr("") == form.scriptLink
  {
    ContentIdea(
      id := if idea.Some? then AccountForm.OrElse(idea.value.id, freshId) else freshId,
      accountId := form.accountId,
      title := form.title,
      description := NonEmpty(form.description),
      scriptDraft := NonEmpty(form.scriptDraft),
      scriptLink := NonEmpty(form.scriptLink),
      status := form.status,
      createdAt := if idea.Some? then AccountForm.OrElse(idea.value.createdAt, createdNow) else createdNow,
      updatedAt := updatedNow,
      publishedAt := if idea.Some? then idea.value.publishedAt else None)
  }

  /** An optional text that is never the empty string. */
  predicate NotEmptyText(t: Option<string>) {
    t.None? || t.value != ""
  }

  /**
   * Submitting an edit form untouched gives back the idea with only
   * `updatedAt` refreshed, provided its ids and account are non-empty and no
   * optional text is present-but-empty (those come back absent).
   */
  lemma UntouchedEditRoundTrip(i: ContentIdea, defaultAccountId: Option<string>, freshId: string,
                                createdNow: string, updatedNow: string)
    requires i.id != "" && i.createdAt != "" && i.accountId != ""
    requires NotEmptyText(i.description) && NotEmptyText(i.scriptDraft) && NotEmptyText(i.scriptLink)
    ensures BuildIdea(Some(i), InitialFormData(Some(i), defaultAccountId), freshId, createdNow, updatedNow) ==
            i.(updatedAt := updatedNow)
  {
  }

  /** A present-but-empty description does not survive an untouched edit. */
  lemma EmptyDescriptionDropped(i: ContentIdea, defaultAccountId: Option<string>, freshId: string,
                                 createdNow: string, updatedNow: string)
    requires i.description == Some("")
    ensures BuildIdea(Some(i), InitialFormData(Some(i), defaultAccountId), freshId, createdNow, updatedNow).description == None
  {
  }
}
