# advent-of-code-bot `pollAPI`, modelled in Dafny

The bot runs `pollAPI` every fifteen minutes. It fetches the private Advent of Code leaderboard and keeps one Firestore document per member. It then posts to Slack:

- a welcome for members it has not seen before;
- a notification for every known member whose star count went up.

This project models the core of that handler, `functions/src/index.ts`, from the moment the leaderboard JSON is in hand:

- **Normalisation** (module `Members`, lines 67-93). A raw `Imember` becomes a `MemberDoc`:
  - the id is parsed;
  - `last_star_ts` becomes milliseconds since the epoch;
  - the nested `completion_day_level` object is rebuilt, with its two `forEach` loops, as a map from day number to star number to milliseconds.

  JSON objects are sequences of properties in `Object.keys` order, so the loops can be followed step by step. Decimal strings and their parsing and printing are in module `Decimal`.
- **Flatten and update** (module `Patch`, line 98). `flatten(docData)` is a map from field path to leaf value, and the store's `update` applies such a map to a stored document. The lemmas prove what `update(flatten(doc))` does to a stored member:
  - scalars are overwritten;
  - fetched star times are written;
  - stored days and stars that are not reported are kept;
  - an empty fetched object clears what it names.
- **The store** (module `Store`). A class `MemberStore` holds its documents in a `map` field. `Get` reads that field; `Set` and `Update` are methods that change it.
- **Reconciliation** (module `Reconcile`, lines 66-113). The method `ReconcileRoster` loops over the roster, updating the store in place and filling `newMembers` and `updatedMembers`. It is proved equal to the function `Run`, which folds the one-entry decision `Step` over the roster. Lemmas about `Run` show the per-entry outcome and the counts.
- **Notifications** (module `Notify`, lines 115-148):
  - `BuildMemberString` and `StarNotifications` are the source's two loops, each proved against a function;
  - the wording is pinned down by lemmas: `" , "` between names, `"and "` before the last of two or more, `member`/`members`, and `a new star`/`N new stars`.
- **One poll** (module `Poll`). `PollMembers` composes the parts. It is proved to leave the store as `Run` says and to send exactly `Sent`:
  - the welcome, if any;
  - then one notification per updated member (`EveryUpdateNotified`).

## Model

| member | source | states |
|---|---|---|
| Decimal.Show | functions/src/index.ts:145 | the decimal text of a number has digits only, no leading zero, and starts with `0` exactly for zero |
| Decimal.ParseShow | functions/src/index.ts:145 | parsing the printed count gives the count back |
| Decimal.ShowParse | functions/src/index.ts:87 | printing a parsed canonical digit string gives the string back |
| Decimal.LeadingDigitPositive | functions/src/index.ts:87 | a digit string not starting with `0` parses to a positive number |
| Decimal.PrintsBackIfCanonical | functions/src/index.ts:87 | `parseInt` then printing is the identity on canonical digit strings |
| Decimal.ParseInjective | functions/src/index.ts:74 | two canonical keys that parse to the same number are the same key |
| Members.SecondsToMillis | functions/src/index.ts:79 | `new Date(parseInt(date) * 1000)` is a non-negative whole number of seconds in milliseconds |
| Members.LastStarMillis | functions/src/index.ts:86 | a `last_star_ts` string gives its seconds in milliseconds; the `0` sentinel gives the epoch |
| Members.DayStars | functions/src/index.ts:77-80 | the stars of a day are keyed by exactly the parsed star keys |
| Members.CompletionOf | functions/src/index.ts:72-82 | the completion is keyed by exactly the parsed day keys |
| Members.DayStarsAt | functions/src/index.ts:77-80 | a star key not repeated later (after parsing) keeps its own converted time |
| Members.CompletionAt | functions/src/index.ts:73-82 | a day key not repeated later (after parsing) keeps that day's converted stars |
| Members.Normal | functions/src/index.ts:84-92 | the document copies name, stars and scores, parses the id, keys the completion by the feed's days, and has a whole-second `last_star`, zero for the sentinel |
| Members.BuildCompletion | functions/src/index.ts:72-82 | the two nested loops build exactly `CompletionOf` of the feed |
| Members.NormalizeMember | functions/src/index.ts:70-92 | the document built is `Normal` of the record |
| Members.CanonicalIsLast | functions/src/index.ts:73-79 | with distinct canonical keys no later key overwrites an earlier one |
| Members.CompletionFaithful | functions/src/index.ts:72-82 | every reported star is present under its parsed day and star, at its seconds times 1000 |
| Members.CompletionDaysFromFeed | functions/src/index.ts:73-75 | every day of the completion is a day key of the feed, printed back |
| Members.LastStarFromSeconds | functions/src/index.ts:86 | `n` seconds give `n * 1000` milliseconds |
| Patch.Flatten | functions/src/index.ts:98 | the flattened document is well typed and holds the name, the stars and every star time at its path |
| Patch.Merge | functions/src/index.ts:98 | after a non-empty fetch the days are the stored days plus the fetched days |
| Patch.FlattenedDay | functions/src/index.ts:98 | every fetched day is written by the patch |
| Patch.PatchedDayFetched | functions/src/index.ts:98 | every day the patch writes is a fetched day |
| Patch.PatchedStar | functions/src/index.ts:98 | a patch writes a star exactly when it holds that star's path |
| Patch.FlattenedDays | functions/src/index.ts:98 | the patch names the whole completion iff it is empty, and writes exactly the fetched days |
| Patch.FlattenedStars | functions/src/index.ts:98 | the patch writes exactly the fetched stars of each day |
| Patch.FlattenedDayPath | functions/src/index.ts:98 | the patch names a day as a whole iff that fetched day is empty |
| Patch.FlattenFlattens | functions/src/index.ts:98 | `flatten(doc)` has every property of a flattened completion that the merge lemmas use |
| Patch.UntouchedDay | functions/src/index.ts:98 | a day the patch does not mention keeps its stored stars |
| Patch.ClearedDay | functions/src/index.ts:98 | a day named as an empty object is cleared |
| Patch.WrittenDay | functions/src/index.ts:98 | a day written star by star becomes its stored stars overridden by the fetched ones |
| Patch.MergeDay | functions/src/index.ts:98 | per day, applying the flattened completion is `Merge` |
| Patch.MergedDays | functions/src/index.ts:98 | applying the flattened completion gives the days of `Merge` |
| Patch.MergedEachDay | functions/src/index.ts:98 | after a non-empty fetch, every day the update leaves holds what `Merge` gives |
| Patch.MergeDays | functions/src/index.ts:98 | applying a flattened completion to a stored one is `Merge` |
| Patch.CompletionMerges | functions/src/index.ts:98 | `update(flatten(doc))` leaves the stored completion merged with the fetched one |
| Patch.FlattenedScalars | functions/src/index.ts:98 | the flattened document holds every scalar field of the document |
| Patch.UpdateMerges | functions/src/index.ts:98 | the updated document is the fetched one with its completion merged into the stored completion |
| Patch.MergeSelf | functions/src/index.ts:98 | merging a completion into itself changes nothing |
| Patch.UpdateWithOwn | functions/src/index.ts:98 | updating a document with its own flattening leaves it unchanged |
| Patch.UpdateEffect | functions/src/index.ts:98 | after the update the scalars and fetched star times are the fetched ones; an empty fetched day is cleared; unreported stored days and stars are kept; the completion is empty iff the fetch's is |
| Store.MemberStore.constructor | functions/src/index.ts:56 | the store starts with the given documents |
| Store.MemberStore.Get | functions/src/index.ts:69 | `get` finds a document iff one is stored under the id, and returns it |
| Store.MemberStore.Set | functions/src/index.ts:105 | `set` stores the document under the id and changes nothing else |
| Store.MemberStore.Update | functions/src/index.ts:98 | `update` replaces the stored document by the patch applied to it and changes nothing else |
| Reconcile.Step | functions/src/index.ts:95-107 | one entry writes only its own id, extends at most one list by at most one element, and reports only positive gains |
| Reconcile.StepCases | functions/src/index.ts:95-107 | unknown id: the document is stored and listed as new; known with fewer stars: `update(flatten(doc))` is written and `{name, newStars}` with the positive difference is listed; otherwise nothing changes |
| Reconcile.Run | functions/src/index.ts:66-111 | the roster's ids are added to the store, other documents are untouched, the lists only grow, and every reported gain is positive |
| Reconcile.RunStep | functions/src/index.ts:67-111 | one more roster entry is handled after the ones before it |
| Reconcile.ReconcileRoster | functions/src/index.ts:66-113 | the loop leaves the store and both lists as `Run` of the roster against the old store |
| Reconcile.HandleMember | functions/src/index.ts:69-107 | one member's lookup, normalisation and create-or-update leaves the store and lists as `Step` says |
| Reconcile.WriteGain | functions/src/index.ts:98 | `update(flatten(doc))` leaves the stored document with the fetched fields and the merged completion, other documents untouched |
| Reconcile.AloneLists | functions/src/index.ts:95-107 | an entry alone contributes its normalised record if unknown, its star gain if known with fewer stars |
| Reconcile.StepLocal | functions/src/index.ts:95-107 | an entry's outcome depends on the store only through its own document |
| Reconcile.RunListsPerEntry | functions/src/index.ts:66-113 | with distinct ids, the lists are what each entry contributes against the original store, in roster order |
| Reconcile.RunDocsPerEntry | functions/src/index.ts:66-113 | with distinct ids, each written document is what its entry alone writes, so the promises' finishing order does not matter |
| Reconcile.NewOfMembers | functions/src/index.ts:104-106 | the new members are exactly the normalised records of the ids missing from the store |
| Reconcile.NewOfCount | functions/src/index.ts:104-106 | with distinct ids there is one new member per id missing from the store |
| Reconcile.UpdatesOfPositive | functions/src/index.ts:95-106 | no entry both adds a new member and reports new stars, the two lists together are no longer than the roster, and every reported gain is positive |
| Notify.Join | functions/src/index.ts:118-127 | a single name is joined to itself |
| Notify.Names | functions/src/index.ts:119-126 | the names are the members' names, in order |
| Notify.BuildMemberString | functions/src/index.ts:118-127 | the loop builds exactly `NameList` of the names |
| Notify.WelcomeMessage | functions/src/index.ts:115-132 | a welcome is sent iff there is a new member |
| Notify.Welcome | functions/src/index.ts:118-131 | the text built is the welcome of `WelcomeMessage` |
| Notify.StarText | functions/src/index.ts:145 | a gain of one or less reads `a new star` |
| Notify.Notified | functions/src/index.ts:141-142 | at most one notified member per updated member |
| Notify.NotifiedAppend | functions/src/index.ts:141-142 | the members notified for two lists are those of each, in order |
| Notify.PositiveKept | functions/src/index.ts:141-142 | every updated member with a positive gain is notified |
| Notify.KeptPositive | functions/src/index.ts:141-142 | every notified member is an updated member with a positive gain |
| Notify.AllPositiveKept | functions/src/index.ts:141-142 | when every gain is positive, every updated member is notified, in order |
| Notify.StarMessages | functions/src/index.ts:141-148 | at most one notification per updated member |
| Notify.StarNotifications | functions/src/index.ts:141-148 | the loop sends exactly `StarMessages` of the updates |
| Notify.JoinAppend | functions/src/index.ts:118-127 | joining two non-empty lists puts one separator between the joined halves |
| Notify.AndBeforeLast | functions/src/index.ts:120-126 | with two or more names the list is the names joined by `" , "` with `"and "` before the last name |
| Notify.NoAndBelowTwo | functions/src/index.ts:120-126 | with fewer than two names there is no separator and no `and` |
| Notify.ThreeNames | functions/src/index.ts:118-127 | three names read `Alice , Bob , and Carl` |
| Notify.WelcomeWording | functions/src/index.ts:131 | one new member reads `new member: <name>`; more read `new members: <list>` |
| Notify.StarTextReadsBack | functions/src/index.ts:145 | above one, the text is the count's digits, which parse back to the count, then ` new stars` |
| Notify.PositiveNotified | functions/src/index.ts:141-147 | every update with a positive gain gets its notification |
| Notify.NotifiedPositive | functions/src/index.ts:141-147 | every notification is that of an update with a positive gain |
| Notify.StarMessagesAllPositive | functions/src/index.ts:141-147 | when all gains are positive, notification `i` is that of update `i` |
| Notify.NonPositiveSilent | functions/src/index.ts:142 | updates without a positive gain send nothing |
| Poll.Sent | functions/src/index.ts:115-148 | a poll sends at most one text more than there are updated members |
| Poll.PollMembers | functions/src/index.ts:59-151 | the store ends as `Run` leaves it and the texts sent are `Sent` of `Run`'s lists |
| Poll.EveryUpdateNotified | functions/src/index.ts:97-147 | the `newStars > 0` test never skips anyone: one notification per updated member, in order |
| Poll.WelcomeFirst | functions/src/index.ts:115-148 | without new members only star notifications are sent; with some, the welcome comes first |

## Left out

- Fetching the leaderboard (lines 39-54): the HTTP request, the cookie and year/team configuration, and the `status > 200` error. The model starts from the parsed `members` object, a `Roster`.
- Firestore itself. The store is a map from id to document in the class `MemberStore`, and `members/<id>` is the map key. Firestore's conversion of `Date` to a timestamp on the read-back at line 106 is not modelled: the document read back is the one written.
- Store failures. The model's `get`, `set` and `update` always succeed. In the source, a rejected call inside a member's promise (lines 68-110) never reaches `resolve()`, so `Promise.all` at line 113 never settles and no text is sent; the model does not capture that outcome.
- `flatten-anything` beyond member documents. Its result is modelled as a map from field path to leaf. A nested empty object, such as an empty completion or day, is taken to be a leaf itself.
- Slack delivery (`IncomingWebhook.send`) and `console` logging. A poll's result is the sequence of texts it sends.
- The concurrency of the per-member promises and `Promise.all`. The model runs them in roster order. With distinct ids, `RunDocsPerEntry` and `RunListsPerEntry` show that each entry's effect does not depend on the others. Only the order of the lists could differ.
- `apiMembers` (line 60, 93): filled but never read.
- The `TODO` leaderboard report and cleanup (lines 153-154): not implemented in the source.
- Malformed numbers. `parseInt` is modelled only on strings of decimal digits, and `Members.WellFormed` is a precondition. A non-digit string, which `parseInt` turns into `NaN`, is not modelled. Neither is an empty `last_star_ts`, which gives an invalid `Date`.
- JavaScript number precision. Numbers are unbounded integers, so values above 2^53 are not rounded.
- The order of `Object.keys` is taken as given by the roster and raw objects. JavaScript lists integer-like keys in ascending order, which the model does not impose.
- Reconcile.Step: states the updated document through `Merge` rather than `update(flatten(doc))`. `Reconcile.StepCases` and `Patch.UpdateMerges` prove the two equal.
