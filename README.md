# CraftKit record store and page logic, modelled in Dafny

CraftKit is a browser tool for social-media creators. It keeps two
collections in local storage, tracked **accounts** (each with an embedded
**persona**) and **content ideas** (each pointing at an account), and
offers a mock "import account from URL" helper. This project models:

- the record store (`lib/storage.ts`) as the class `Storage.Store`. It has
  the two slots as `seq` fields and a `hasWindow` flag for code that runs
  outside a browser;
- the record types (`lib/types.ts`) as datatypes (`Types`);
- platform recognition and the mock scraper (`lib/scraper.ts`) as pure
  functions and one nondeterministic method (`Scraper`);
- the dashboard page's stats fold and handlers (`HomePage`);
- the idea list's filters, counts, name lookup and handlers (`IdeasPage`);
- the import dialog's five-field state machine (`ImportDialog`);
- the record builders of the account and idea forms (`AccountForm`, `IdeaForm`).

The JavaScript array operations the code is made of (`findIndex`, `find`,
`filter`, `reduce`) are in the module `Arrays`. They are generic over a key
projection because every predicate in the source compares one field for
equality. Their order and partition facts are proved once and used by the
pages.

Environment inputs are parameters:
- each `new Date().toISOString()` call site is a timestamp parameter of
  its own (`createdNow`, `updatedNow`, `saveNow`, `storeNow`, `viewNow`, or
  `now` in the store), so reads at different call sites are never assumed
  equal; a call site that runs more than once per operation shares one
  parameter (see "Left out");
- `freshId` / `newId` stand for `crypto.randomUUID()`;
- `confirmed` stands for `confirm(...)`;
- `parseHost` stands for the `URL` constructor, reduced to the hostname it
  yields, with `None` where it throws;
- `fails` says whether the awaited scrape rejects.

`Math.random` draws are free choices within their ranges (`:|`).

Behaviour the model makes explicit:
- Outside a browser, `saveX`/`deleteX` read an empty slot and then throw at
  `localStorage.setItem`. The model returns `ok == false` and writes
  nothing. `updateIdeaStatus` finds nothing there and writes nothing.
- The dashboard counters are computed only by the load effect. Deleting or
  importing an account leaves them stale. `StatsAfterAppend` and
  `StatsAfterDelete` give, counter by counter, the amounts by which they
  are off.
- After a status change the idea list updates `status` and `updatedAt` but
  not `publishedAt`, while the store does set `publishedAt`
  (`ShownAgreesWithStored`, `PublishedAtStale`). The shown and stored
  `updatedAt` of the changed idea come from two separate clock reads, so
  they agree only when those reads return the same string.
- Deleting an account does not delete its ideas: every account operation
  ensures the ideas slot is unchanged.
- The idea page's name map keeps the last account with a repeated id.
  `getAccountById` returns the first one. With unique ids they agree
  (`NamesAgreeWithLookup`).
- `x || fallback` treats "" as missing. An edited record with an empty `id`
  or `createdAt` gets the fresh id or the clock. An absent `platformUrl`
  becomes "" after an edit. A present-but-empty idea text becomes absent.
- The URL parser lowercases hostnames, while `detectPlatform` and
  `getPlatformName` test the raw URL. `SupportedHasKnownName` therefore
  assumes that the hostname occurs verbatim in the URL. An upper-case host
  such as `https://WWW.DOUYIN.COM/` passes the allow-list but gets the
  default mock record and the unknown-platform name.

## Model

| member | source | states |
|---|---|---|
| Types.ParseIdeaStatus | lib/types.ts:29 | the left inverse of the idea-status label encoding: exactly the five labels parse, each to the status it names |
| Types.ParseAccountStatus | lib/types.ts:3 | the left inverse of the account-status label encoding: exactly the three labels parse, each to the status it names |
| Types.IdeaStatusRoundTrip | lib/types.ts:29 | each of the five idea statuses is written as a distinct label and read back as itself |
| Types.AccountStatusRoundTrip | lib/types.ts:3 | each of the three account statuses is written as a distinct label and read back as itself |
| Arrays.FirstIndexBy | lib/storage.ts:19 | `findIndex`: -1 exactly when no element matches; otherwise a matching index with no match before it |
| Arrays.LastIndexBy | app/ideas/page.tsx:26 | the index a `Map` built from the list keeps: -1 when none matches, else a match with no match after it |
| Arrays.FindBy | lib/storage.ts:36 | `find`: absent exactly when no element matches; otherwise the element at the first matching position |
| Arrays.FilterBy | lib/storage.ts:47 | `filter` on equality: never longer than the input; every kept element matches, and every matching element is kept |
| Arrays.RemoveBy | lib/storage.ts:31 | `filter` on inequality: never longer than the input; every kept element differs, and every differing element is kept |
| Arrays.CountBy | app/page.tsx:45-47 | `filter(..).length`: at most the length, and 0 exactly when no element matches |
| Arrays.SumBy | app/page.tsx:43-44 | the `reduce` sum: non-negative when every value is, and 0 when every value is 0 |
| Arrays.ReplaceOrAppend | lib/storage.ts:17-25 | the upsert: with a match, only the first matching position is replaced and the length stays; without, the element is appended after an unchanged prefix |
| Arrays.FilterByAppend | lib/storage.ts:47 | filtering distributes over concatenation, so relative order is kept |
| Arrays.RemoveByAppend | lib/storage.ts:31 | removal distributes over concatenation, so the remaining records keep their order |
| Arrays.FilterRemovePartition | lib/storage.ts:31 | every element is kept by exactly one of the filter and its complement |
| Arrays.RemoveAbsent | lib/storage.ts:30-33 | removing a key no element carries leaves the sequence equal to before |
| Arrays.TwoCountsBounded | app/page.tsx:46-47 | counts of two different keys add up to at most the length |
| Arrays.CountByCons | app/ideas/page.tsx:66-70 | a count is the first element's contribution plus the count of the rest |
| Arrays.SumByAppend | app/page.tsx:43-44 | the `reduce` sum of a list with one more element grows by that element's value |
| Arrays.CountByAppend | app/page.tsx:45 | a filtered count grows by one exactly when the appended element matches |
| Arrays.SumByConcat | app/page.tsx:43-44 | the `reduce` sum of a concatenation is the sum of the two sums |
| Arrays.SumByCons | app/page.tsx:43-44 | the `reduce` sum is the first element's value plus the sum of the rest |
| Arrays.CountSplitBy | app/page.tsx:45 | a count over a list is the count over what an id filter removes plus the count over what it keeps |
| Arrays.SumSplitBy | app/page.tsx:43-44 | a sum over a list is the sum over what an id filter removes plus the sum over what it keeps |
| Arrays.UpsertThenFind | lib/storage.ts:17-37 | after an upsert the key is found, holding the replacement if the key was present and the appended element otherwise |
| Arrays.RemoveThenFind | lib/storage.ts:30-37 | after removing a key, looking it up finds nothing |
| Storage.WithStatus | lib/storage.ts:73-78 | the mutated idea has the new status and `updatedAt = now`; `publishedAt = now` for published, else unchanged; every other field unchanged (one `now` for the two reads, see "Left out") |
| Storage.StatusUpdated | lib/storage.ts:68-82 | same length; only the first idea with the id is changed, as by WithStatus; with no such idea, the list is unchanged |
| Storage.Store.GetAccounts | lib/storage.ts:11-15 | the stored accounts, or the empty sequence without a window |
| Storage.Store.GetIdeas | lib/storage.ts:40-44 | the stored ideas, or the empty sequence without a window |
| Storage.Store.SaveAccount | lib/storage.ts:17-28 | with a window, the accounts become the upsert of the argument, stamped `updatedAt = now` when it replaces; without one, nothing changes; ideas never change |
| Storage.Store.DeleteAccount | lib/storage.ts:30-33 | with a window, every account with the id is removed and the rest keep their order; ideas never change |
| Storage.Store.GetAccountById | lib/storage.ts:35-37 | the first stored account with the id, or absent exactly when none has it |
| Storage.Store.GetIdeasByAccount | lib/storage.ts:46-48 | exactly the stored ideas with that `accountId`, in stored order |
| Storage.Store.SaveIdea | lib/storage.ts:50-61 | with a window, the ideas become the upsert of the argument, stamped `updatedAt = now` when it replaces; accounts never change |
| Storage.Store.DeleteIdea | lib/storage.ts:63-66 | with a window, every idea with the id is removed, the rest in order; accounts never change |
| Storage.Store.UpdateIdeaStatus | lib/storage.ts:68-82 | with a window, the ideas become StatusUpdated of the old ideas; without one, nothing is written; accounts never change |
| Storage.SaveThenGet | lib/storage.ts:17-37 | after saving an account, getting its id returns it, stamped if it replaced a record |
| Storage.SaveLength | lib/storage.ts:17-25 | saving keeps the length when the id is present and adds exactly one record otherwise |
| Storage.DeleteAbsent | lib/storage.ts:30-33 | deleting an id no account has leaves the accounts equal to before |
| Storage.SaveDeleteGet | lib/storage.ts:17-37 | save, then delete the same id, then get: absent |
| Storage.UnpublishKeepsPublishedAt | lib/storage.ts:68-82 | publishing and then setting pending keeps the publication time |
| Scraper.DetectPlatform | lib/scraper.ts:51-62 | douyin if the URL contains douyin.com or tiktok.com; else bilibili if bilibili.com; else xiaohongshu if xiaohongshu.com or xhs.com; else default |
| Scraper.SomeIncluded | lib/scraper.ts:78 | `some`: true exactly when the host contains one of the listed domains |
| Scraper.IsSupportedPlatform | lib/scraper.ts:65-82 | false whenever the parser rejects the string; true exactly when the parsed hostname contains one of the seven domains |
| Scraper.SupportedDomainsUnfolded | lib/scraper.ts:66-74 | the allow-list test is the disjunction of the seven domain tests |
| Scraper.Includes | lib/scraper.ts:52 | `includes`: the empty string is in every string, a contained string is no longer than the container, and one of equal length is contained only if it is the container |
| Scraper.GetPlatformName | lib/scraper.ts:85-93 | each of the six names exactly when its domain is in the URL and no earlier-tested domain is (抖音, TikTok, 哔哩哔哩, 小红书, 快手, 微博 in that order); the unknown-platform name exactly when the URL contains none of the seven domains |
| Scraper.MockName | lib/scraper.ts:23-41 | the three recognised platforms' records are named as account examples (ending in 账号示例); the default record's name is not |
| Scraper.FollowerDraw | lib/scraper.ts:24-42 | every follower range is non-empty, starts at 10000 or more (exactly 10000 for the default record), and spans ten times its start |
| Scraper.PostDraw | lib/scraper.ts:25-43 | every post-count range is non-empty and starts at 10 or more (exactly 10 for the default record) |
| Scraper.ScrapeAccountData | lib/scraper.ts:12-49 | `platformUrl` is the input; the name is the detected platform's; the counts lie in its ranges |
| Scraper.IncludesTransitive | lib/scraper.ts:78 | a substring of a substring of the URL is a substring of the URL |
| Scraper.SupportedHasKnownName | lib/scraper.ts:65-93 | if the hostname occurs in the URL, every supported URL has a known platform name |
| Scraper.DetectAgreesWithName | lib/scraper.ts:51-93 | the mock record's platform and the displayed name agree; kuaishou, weibo and unknown URLs all get the default record |
| Scraper.KuaishouWeiboGetDefault | lib/scraper.ts:48-62 | a kuaishou or weibo URL matching none of the first five domains gets the default record |
| Scraper.DouyinProfileSupported | lib/scraper.ts:65-82 | a douyin profile URL whose host is www.douyin.com is supported |
| HomePage.ComputeStats | app/page.tsx:41-56 | `totalAccounts` is the list length; `activeAccounts` is at most that; pending plus scheduled ideas is at most the number of ideas |
| HomePage.StatsOfNothing | app/page.tsx:43-56 | no accounts give zero for the four account counters whatever the ideas; no ideas give zero pending and scheduled whatever the accounts |
| HomePage.StatsAfterIdeaAppend | app/page.tsx:46-47 | one more idea adds 1 to pending exactly when it is pending and 1 to scheduled exactly when it is scheduled; the account counters are unchanged |
| HomePage.StatsAfterAppend | app/page.tsx:43-51 | one more account adds 1 to the total, 1 to active if it is active, and its followers and posts to the sums; idea counts are unchanged |
| HomePage.StatsAfterDelete | app/page.tsx:43-56 | deleting an id lowers the total, the active count, the follower sum and the post sum by exactly the deleted accounts' share; idea counts are unchanged |
| HomePage.ImportedAccount | app/page.tsx:67-87 | name, URL and counts come from the scraped data; growth is 0; the persona is empty except `updateFrequency` "待设置"; status active; `createdAt` and `updatedAt` are the two clock reads |
| HomePage.ImportedFromScrape | app/page.tsx:66-90 | an account imported from a scrape of a URL links to that URL and has counts in its platform's ranges |
| HomePage.Home.constructor | app/page.tsx:16-24 | an empty list and six zero counters |
| HomePage.Home.Load | app/page.tsx:26-57 | stored accounts are shown as they are; with none, both slots are overwritten by non-empty mock collections and the mock accounts are shown; stats are the fold of the shown accounts and stored ideas |
| HomePage.Home.HandleDeleteAccount | app/page.tsx:59-64 | when confirmed, the id is removed from the store and the list; when declined, nothing changes; ideas and stats never change |
| HomePage.Home.HandleImportAccount | app/page.tsx:66-90 | the new account is appended to the list and upserted into the store (stamped with the store's own clock read if it replaces), which appends it when the id is fresh; ideas and stats unchanged |
| IdeasPage.AccountFiltered | app/ideas/page.tsx:29-37 | no filter or an empty one keeps all ideas; otherwise exactly the ideas of that account, in order |
| IdeasPage.StatusFiltered | app/ideas/page.tsx:40-46 | "all" shows the whole list; a status shows exactly the ideas with it, in order |
| IdeasPage.FiveCountsSum | app/ideas/page.tsx:64-71 | the five per-status counts add up to the number of ideas |
| IdeasPage.CountStatuses | app/ideas/page.tsx:64-71 | `all` is the list length; each of the five other fields is the number of ideas with its status; the five sum to `all` |
| IdeasPage.TabCountIsShownCount | app/ideas/page.tsx:92-105 | for each of the six tabs, the `statusCounts` field it displays equals the length of the list it shows |
| IdeasPage.AccountNames | app/ideas/page.tsx:26 | an id is mapped exactly when some account has it, to the name of the last such account |
| IdeasPage.NamesAgreeWithLookup | app/ideas/page.tsx:26 | with unique ids, the mapped name is the name `getAccountById` returns, and an id is mapped exactly when it is found |
| IdeasPage.StatusChanged | app/ideas/page.tsx:50 | same length; every idea with the id gets the status and the page's clock read as `updatedAt`; all others unchanged |
| IdeasPage.ShownAgreesWithStored | app/ideas/page.tsx:48-51 | with unique ids, the shown list after a status change equals the stored one except for `publishedAt` and `updatedAt`; the two `updatedAt` agree exactly when the idea was not changed or the page's and the store's clock reads are equal |
| IdeasPage.PublishedAtStale | app/ideas/page.tsx:48-51 | publishing sets the stored `publishedAt` to the store's clock read but leaves the shown one different |
| IdeasPage.IdeasView.constructor | app/ideas/page.tsx:17-20 | empty lists, the "all" filter and an empty name map |
| IdeasPage.IdeasView.FilteredIdeas | app/ideas/page.tsx:40-46 | StatusFiltered of the loaded list: the whole list under "all"; under a status tab, only ideas with that status, every such idea, as many as the tab count |
| IdeasPage.IdeasView.Counts | app/ideas/page.tsx:64-105 | for every tab, the displayed count of the loaded list is the length of the list that tab shows; the five status counts add up to its length |
| IdeasPage.IdeasView.AccountNameOf | app/ideas/page.tsx:129 | the mapped name of the idea's account, absent when no account has that id |
| IdeasPage.IdeasView.Load | app/ideas/page.tsx:22-38 | the name map is built from the stored accounts and the list is the account-filtered stored ideas |
| IdeasPage.IdeasView.SetStatusFilter | app/ideas/page.tsx:90 | choosing a tab changes only the status filter |
| IdeasPage.IdeasView.HandleStatusChange | app/ideas/page.tsx:48-51 | the store gets `updateIdeaStatus` with the store's clock read; the list becomes StatusChanged of the old list with the page's own clock read |
| IdeasPage.IdeasView.HandleDelete | app/ideas/page.tsx:53-58 | when confirmed, the id leaves the store and the list; when declined, nothing changes; accounts unchanged |
| ImportDialog.Dialog.constructor | components/import-account-dialog.tsx:29-33 | closed, empty URL, not loading, no error, no data |
| ImportDialog.Dialog.SetOpen | components/import-account-dialog.tsx:80 | only `open` changes |
| ImportDialog.Dialog.SetUrl | components/import-account-dialog.tsx:103 | only `url` changes |
| ImportDialog.Dialog.HandleScrape | components/import-account-dialog.tsx:35-59 | empty URL gives the input error, then an unsupported URL the platform error, both leaving `loading` alone; otherwise a failed scrape gives the generic error and a successful one the scraped data for that URL, with `loading` false; an error and data never hold together |
| ImportDialog.Dialog.HandleImport | components/import-account-dialog.tsx:61-69 | without data, nothing changes; with data, exactly that data is handed on and open, url, data and error are reset |
| ImportDialog.Dialog.HandleCancel | components/import-account-dialog.tsx:71-77 | all five fields return to their initial values |
| AccountForm.OrElse | components/account-form.tsx:37 | `s || fallback` on strings: a non-empty `s` is kept, "" falls through, and the result is "" only when both are |
| AccountForm.InitialFormData | components/account-form.tsx:21-31 | the edited account's fields (an absent URL as ""), or ""/0 everywhere when creating |
| AccountForm.CountInput | components/account-form.tsx:100 | an input that does not parse is stored as 0; a parsed integer as itself |
| AccountForm.BuildAccount | components/account-form.tsx:33-59 | id, creation time, status and growth carry over from the edited account, with "" falling through to the fresh id or the first clock read; a new account gets active and zero growth; `updatedAt` is the second clock read; all else comes from the form |
| AccountForm.UntouchedEditRoundTrip | components/account-form.tsx:21-56 | submitting an untouched edit form returns the account with only `updatedAt` refreshed and an absent URL as "" |
| AccountForm.EmptyIdGetsFreshId | components/account-form.tsx:37 | an edited account with an empty id is saved under the fresh id |
| IdeaForm.NonEmpty | components/idea-form.tsx:44-46 | an empty text becomes absent and any other text is kept |
| IdeaForm.InitialFormData | components/idea-form.tsx:23-30 | `accountId` is the idea's, else the default, else ""; the status is the idea's or pending; absent texts start as "" |
| IdeaForm.AccountOptions | components/idea-form.tsx:32-35 | one (id, name) option per stored account, in stored order |
| IdeaForm.PickerCoversStore | components/idea-form.tsx:32-35 | the picker has an option for an id exactly when `getAccountById` finds it |
| IdeaForm.BuildIdea | components/idea-form.tsx:37-54 | id and creation time carry over ("" falls through to the fresh id or the first clock read); `publishedAt` is the edited idea's or absent; empty texts become absent; `updatedAt` is the second clock read; title, account and status come from the form |
| IdeaForm.UntouchedEditRoundTrip | components/idea-form.tsx:23-51 | an untouched edit returns the idea with only `updatedAt` refreshed, given non-empty ids and account and no present-but-empty text |
| IdeaForm.EmptyDescriptionDropped | components/idea-form.tsx:26-44 | a present-but-empty description comes back absent after an untouched edit |

## Left out

- Local storage I/O and JSON encoding are not modelled. Each slot is a `seq` field. Malformed stored JSON, which makes the getters throw, is not modelled.
- An absent slot and a slot holding `[]` are both the empty sequence, because every reader treats them alike.
- The `URL` parser is the parameter `parseHost`. Its lowercasing and other normalisation are not modelled.
- The two-second scrape delay and the async machinery are not modelled. `HandleScrape` runs as one step, so the intermediate render with `loading` true is not represented.
- Randomness, UUIDs, the clock and `confirm` are parameters, one timestamp per call site of the clock.
- IdeasPage.StatusChanged: the `map` callback reads the clock once for each idea with the id; the model gives all of them one `viewNow`. This differs from the source only when several shown ideas share an id, which `saveIdea`'s upsert by id does not produce.
- IdeasPage.IdeasView.HandleStatusChange: inherits `StatusChanged`'s single `viewNow` for several shown ideas with the same id.
- Storage.WithStatus: `updateIdeaStatus` reads the clock twice (`updatedAt`, then `publishedAt`); the model uses one `now` for both, so a published idea's two stored times are equal in the model but may differ by a tick in the source.
- Types.ParseIdeaStatus: the stores never check status labels when reading, so a stored status outside the labels comes back as it is; the model's status datatypes cannot represent such a value, and the parsers serve only the label round trips.
- Types.ParseAccountStatus: the same holds for account statuses: a stored value outside active, inactive and archived cannot be represented.
- `Number.parseInt` is the parser's result, passed in as an `Option<int>`. The string-to-integer parsing itself is not modelled.
- The account form's other `onChange` handlers are not modelled. Each replaces one form field with the typed text. The idea form's `onChange` handlers are left out for the same reason.
- JavaScript numbers are IEEE doubles. Counts are modelled as unbounded integers and growth as reals, so rounding beyond 2^53 is not modelled.
- `lib/mock-data.ts` is not part of this model. The mock collections are parameters of `HomePage.Home.Load`.
- `|| mockData.default` in `scrapeAccountData` cannot be modelled. `Platform` has exactly the four table keys, so the fallback is unreachable.
- Rendering, routing, the delayed redirect after import and the edit navigation (`handleEdit`) are not modelled.
- The trend chart, idea item swipe gestures and badges, dashboard cards and bottom navigation are not modelled.
- The new-idea page wrapper is not modelled.
- Races between tabs are not modelled.
- The page methods that save or delete (`Home.Load`, `Home.HandleDeleteAccount`, `Home.HandleImportAccount`, `IdeasView.HandleDelete`) require `store.hasWindow`, because React effects and handlers run only in the browser.
