# Résumé builder templates and subscriptions: a Dafny model

This project models the core of a résumé builder web application. Users
write a résumé in a form and render it with one of eight templates. Some
templates are free and some need a paid subscription, bought through a
Stripe checkout. The model covers:

- the template catalogue and its access rules: tiers, categories, counts, and
  the development override that unlocks everything (`src/lib/templates.ts`);
- the subscription level of a user, read from the stored Stripe snapshot
  (`src/lib/subscription.ts`);
- the subscription collection with its unique indexes
  (`src/models/UserSubscription.ts`);
- the Stripe webhook: its response codes and what each event does to the
  collection (`src/app/api/stripe-webhook/route.ts`);
- the stored résumé, its template-id default and enumeration, and its JSON
  id in hex (`src/models/Resume.ts`);
- the mapping from stored résumé data to form values, with its date
  truncation and `|| undefined` normalisation, and the JSON file replacer
  (`src/lib/utils.ts`);
- which template component renders a résumé and with which style
  (`TemplateReview.tsx`);
- the template picker: search, lock filter, reset, and the available count
  (`TemplateSelector.tsx`);
- one card of the picker (`TemplateCard.tsx`);
- the display rules of the seven template components: Creative, Elegant,
  Tech, Compact, Professional, Minimal and Modern. For each, the model says
  which sections render and in which order, which entries and contact lines
  they show, which date labels, photo and badge radii, and which accent and
  sidebar colours.

Modules follow the source files:

| module | models |
|---|---|
| `Common` | JavaScript truthiness, `\|\|`, and string concatenation with `undefined` |
| `Seqs` | `filter` and `slice` |
| `Templates` | `templates.ts` |
| `SubscriptionLevels` | `subscription.ts` |
| `UserSubscriptions` | `UserSubscription.ts` |
| `StripeWebhook` | `route.ts` |
| `Resumes` | `Resume.ts` |
| `JsDates` | `Date` validity and `toISOString` |
| `FormValues` | `utils.ts` |
| `TemplatePreviews` | `TemplateReview.tsx` |
| `TemplateSelection` | `TemplateSelector.tsx` |
| `TemplateCards` | `TemplateCard.tsx` |
| `Display` | the seven template components |

Effects become data:

- A MongoDB collection is a map from `_id` to document.
- A database write is a function that returns the new map, or a duplicate-key
  error when a unique index would break.
- The outside services the webhook calls are parameters. These are the
  signature check, `subscriptions.retrieve`, Clerk and the database
  connection.

A webhook whose signature fails verification is answered 500, not with a
client error: the route catches the verification error together with the
handler errors (`src/app/api/stripe-webhook/route.ts:18-22, 43-46`).

Where the source has a defect (see "## Findings"), the operation is modelled
as written and the corrected version is defined next to it:

- The webhook takes the version of its upsert as a parameter.
  `StripeWebhook.Post(AsWritten, …)` is the route as written, and
  `StripeWebhook.Post(WithUserId, …)` is the route with `userId` written.
  Lemmas that hold for both are stated over both. The user-id keying of the
  collection is proved for `WithUserId` only, because the route as written
  breaks it.
- `Display.Render` and its labels and colours are what the components render
  as written. The corrected Elegant separator (`Display.IntendedSeparator`)
  and Modern sidebar (`Display.ModernSidebar`) stand on their own.

## Model

| member | source | states |
|---|---|---|
| Common.OrUndefined | src/lib/utils.ts:26-35 | `x \|\| undefined` keeps a non-empty string and turns an empty or missing one into undefined, so the result is never the empty string |
| Common.OrElse | src/components/templates/TemplateReview.tsx:23 | `x \|\| fallback` is the string when it is non-empty and the fallback otherwise |
| Common.JsConcat | src/components/templates/modern/ModernTemplate.tsx:46 | string concatenation with a possibly undefined left side: the text "undefined" stands in for a missing value, and the result always ends with the suffix |
| Templates.GetAllTemplates | src/lib/templates.ts:244-246 | the catalogue lists the eight table entries in table order |
| Templates.CatalogueOrder | src/lib/templates.ts:50-239 | the catalogue is classic, modern, minimal, creative, professional, compact, elegant, tech |
| Templates.TableKeyedById | src/lib/templates.ts:50-239 | every table entry is stored under its own id, and the keys are exactly the eight ids |
| Templates.CatalogueIdsDistinct | src/lib/templates.ts:244-246 | no two catalogue entries share an id |
| Templates.CatalogueListsTable | src/lib/templates.ts:244-246 | the list and the table hold the same templates, each under its id |
| Templates.GetTemplateById | src/lib/templates.ts:282-284 | a template is found exactly for the eight ids; the one found has that id and is in the catalogue |
| Templates.TierForLevel | src/lib/templates.ts:298-309 | the tier mapping preserves rank: free to free, pro to pro, pro plus to pro plus |
| Templates.UnlockAllTemplates | src/lib/templates.ts:7-9 | the override is on exactly when the unlock flag is "true" outside production |
| Templates.CanAccessTemplate | src/lib/templates.ts:289-310 | the override grants every id; otherwise an unknown id is refused, and a known one is allowed exactly when its tier's rank is at most the tier rank of the user's level |
| Templates.AccessMonotone | src/lib/templates.ts:298-309 | a higher subscription level never loses access that a lower one has |
| Templates.DefaultTemplateAlwaysAccessible | src/lib/templates.ts:315 | the default id "classic" names a free template that every level may use |
| Templates.OverrideDecidesUnknownIds | src/lib/templates.ts:293-296 | for an id outside the catalogue, only the override decides: off refuses, on allows |
| Templates.AllowedTiers | src/lib/templates.ts:251-262 | a tier allows exactly the tiers of equal or lower rank |
| Templates.GetTemplatesByTier | src/lib/templates.ts:251-262 | the list keeps catalogue order and holds exactly the templates whose tier is at most the given one |
| Templates.TierListsNested | src/lib/templates.ts:251-262 | the free list is an ordered sub-list of the pro list, which is an ordered sub-list of the pro-plus list, which is the whole catalogue |
| Templates.FreeListWithinPro | src/lib/templates.ts:251-262 | every free template is on the pro list, in the same order |
| Templates.ProListWithinProPlus | src/lib/templates.ts:251-262 | every pro template is on the pro-plus list, in the same order |
| Templates.ProPlusListIsCatalogue | src/lib/templates.ts:251-262 | the pro-plus tier lists the whole catalogue |
| Templates.GetTemplatesBySubscription | src/lib/templates.ts:267-277 | the list a level gets is an ordered sub-list of the catalogue |
| Templates.SubscriptionListMatchesAccess | src/lib/templates.ts:267-277 | a template is on a level's list exactly when the access check allows that level to use it, without the override |
| Templates.GetTemplatesByCategory | src/lib/templates.ts:332-353 | a category lists an ordered sub-list of the catalogue whose members all belong to the category; "all" lists the whole catalogue |
| Templates.CategoryIsFilter | src/lib/templates.ts:332-353 | each named category is the catalogue filtered by that category's test |
| Templates.PricingCategoriesPartitionCatalogue | src/lib/templates.ts:320-353 | the free and premium categories split the catalogue: together they hold each template exactly once |
| Templates.LayoutCategoriesPartitionCatalogue | src/lib/templates.ts:320-353 | the single-column, two-column and creative categories split the catalogue: together they hold each template exactly once |
| Templates.PricingSplit | src/lib/templates.ts:332-353 | over any list of templates, the free and premium filters together keep every element exactly once |
| Templates.LayoutSplit | src/lib/templates.ts:332-353 | over any list of templates, the three layout filters together keep every element exactly once |
| Templates.TierCounts | src/lib/templates.ts:358-369 | the catalogue has 2 free, 4 pro and 2 pro-plus templates |
| Templates.LayoutCounts | src/lib/templates.ts:358-369 | the catalogue has 3 single-column, 4 two-column and 1 creative-layout templates |
| Templates.GetTemplateStats | src/lib/templates.ts:358-369 | the tier counts and the layout counts each add up to the catalogue size, 8 |
| SubscriptionLevels.LevelOf | src/lib/subscription.ts:14-31 | no document or an expired one gives free; a current one gives pro for the pro price and pro plus for the pro-plus price, with the pro check first; any other price is an error; a level above free needs a current document |
| SubscriptionLevels.GetUserSubscriptionLevel | src/lib/subscription.ts:8-33 | the level comes from the document stored under the user id, and is free when there is none |
| SubscriptionLevels.PeriodEndIsInclusive | src/lib/subscription.ts:14-16 | at the period-end instant itself the subscription still counts |
| SubscriptionLevels.FreeStaysFree | src/lib/subscription.ts:14-16 | once a level has been computed as free, it stays free at every later time |
| SubscriptionLevels.ProCheckWins | src/lib/subscription.ts:18-29 | when both prices are configured the same, a matching document gives pro |
| UserSubscriptions.Validate | src/models/UserSubscription.ts:19-57 | a document is accepted exactly when `_id`, user, customer, subscription and price ids are non-empty and the period end is a valid date; the accepted document carries those values, and the cancel flag defaults to false; a rejection lists each of the six required paths exactly when that path fails |
| UserSubscriptions.FindById | src/lib/subscription.ts:12 | finds the document stored under the key, and finds none when there is none |
| UserSubscriptions.UpsertAsWritten | src/app/api/stripe-webhook/route.ts:75-88 | the upsert as written stores the fields under the key and keeps the old user id, so a new document has none; every other document is left alone; a new document is refused exactly when it collides with another one |
| UserSubscriptions.Upsert | src/app/api/stripe-webhook/route.ts:75-88 | the corrected upsert succeeds exactly when the document does not collide with another one; it stores the fields with the key as user id and leaves every other document alone |
| UserSubscriptions.DeleteByCustomer | src/app/api/stripe-webhook/route.ts:89-93 | exactly the documents of other customers remain, unchanged |
| UserSubscriptions.UpsertBy | src/app/api/stripe-webhook/route.ts:75-88 | either version of the upsert succeeds exactly when the written document does not collide with another one; it writes the fields with that version's user id (none for a new document as written, the key when corrected) and leaves every other document alone |
| UserSubscriptions.UpsertKeepsUniqueIndexes | src/models/UserSubscription.ts:25-41 | a successful upsert of either version keeps the unique indexes |
| UserSubscriptions.AsWrittenUpsertLeavesNoUserId | src/app/api/stripe-webhook/route.ts:75-88 | as written, the first upsert for a key stores a document without user id, so the collection is no longer keyed by user id |
| UserSubscriptions.UpsertPreservesValid | src/models/UserSubscription.ts:25-41 | a successful corrected upsert keeps the unique indexes and the user-id keying |
| UserSubscriptions.DeletePreservesValid | src/models/UserSubscription.ts:25-41 | deleting by customer keeps the unique indexes and the user-id keying |
| UserSubscriptions.UpsertIdempotent | src/app/api/stripe-webhook/route.ts:75-88 | for either version, repeating a successful upsert with the same fields changes nothing |
| UserSubscriptions.DeleteIdempotent | src/app/api/stripe-webhook/route.ts:89-93 | deleting the same customer twice is the same as deleting once |
| UserSubscriptions.AsWrittenSecondSubscriberFails | src/models/UserSubscription.ts:25-29 | with the upsert as written, after one user subscribes, a second user's first subscription is refused as a duplicate key |
| UserSubscriptions.CorrectedSecondSubscriberSucceeds | src/models/UserSubscription.ts:25-29 | with the corrected upsert, the second user's subscription is stored |
| StripeWebhook.HandleSessionCompleted | src/app/api/stripe-webhook/route.ts:49-63 | a session without a user id fails; with one, the customer id is written to that user's Clerk metadata, or the call fails when Clerk does |
| StripeWebhook.FieldsOf | src/app/api/stripe-webhook/route.ts:81-84 | the written fields take the first item's price and the period end in seconds times 1000; no items, or a period end that is not a valid date, is an error |
| StripeWebhook.HandleCreatedOrUpdated | src/app/api/stripe-webhook/route.ts:65-94 | no database or a failed retrieve is an error; an active, trialing or past-due subscription is upserted under the metadata user id, and a refused upsert is an error; any other status deletes the customer's documents |
| StripeWebhook.HandleDeleted | src/app/api/stripe-webhook/route.ts:96-102 | deletion removes every document of the customer, and fails when the database is down |
| StripeWebhook.Dispatch | src/app/api/stripe-webhook/route.ts:26-40 | each handled event type fails exactly when its handler fails and otherwise carries the handler's result; checkout touches only Clerk; other events are acknowledged with no effect |
| StripeWebhook.Post | src/app/api/stripe-webhook/route.ts:9-47 | a missing signature is 400 and a failed verification is 500; a verified event is 500 exactly when its handler fails, and 200 with the handler's collection and metadata update otherwise; any response but 200 leaves the collection alone and writes no metadata |
| StripeWebhook.UnhandledEventAcknowledged | src/app/api/stripe-webhook/route.ts:37-42 | a verified event of an unhandled type is answered 200 and changes nothing |
| StripeWebhook.CheckoutLeavesStoreAlone | src/app/api/stripe-webhook/route.ts:49-63 | a completed checkout never writes the subscription collection |
| StripeWebhook.EntitledSnapshotStored | src/app/api/stripe-webhook/route.ts:70-88 | for either version, an entitled subscription event whose upsert succeeds is answered 200, stores the snapshot under the user id named in the metadata (as written, with no user id for a new document), and leaves the other documents alone |
| StripeWebhook.CollidingSnapshotRejected | src/app/api/stripe-webhook/route.ts:75-88 | for either version, an entitled subscription event whose upsert collides is answered 500 and changes nothing |
| StripeWebhook.SecondSubscriberRejected | src/app/api/stripe-webhook/route.ts:75-88 | as written, after one user's subscription is stored, a second user's first subscription is answered 500 and nothing is stored; with `userId` written it is answered 200 |
| StripeWebhook.AsWrittenPostLeavesNoUserId | src/app/api/stripe-webhook/route.ts:75-88 | as written, the first stored snapshot of a user has no user id, so the collection is no longer keyed by user id |
| StripeWebhook.PostKeepsUniqueIndexes | src/app/api/stripe-webhook/route.ts:9-47 | for either version, whatever the request, the collection keeps its unique indexes |
| StripeWebhook.HandlerKeepsUniqueIndexes | src/app/api/stripe-webhook/route.ts:65-94 | for either version, the created/updated handler keeps the unique indexes |
| StripeWebhook.CustomerDocumentsRemoved | src/app/api/stripe-webhook/route.ts:89-102 | a deletion, or an update to a status without entitlement, leaves exactly the other customers' documents |
| StripeWebhook.PostPreservesValid | src/app/api/stripe-webhook/route.ts:9-47 | with `userId` written, whatever the request, the collection keeps its unique indexes and its user-id keying |
| StripeWebhook.HandlerPreservesValid | src/app/api/stripe-webhook/route.ts:65-94 | with `userId` written, the created/updated handler keeps the collection valid |
| StripeWebhook.RedeliveryIsHarmless | src/app/api/stripe-webhook/route.ts:9-47 | for either version, delivering the same request a second time gives the same response and the same collection |
| StripeWebhook.HandlerIdempotent | src/app/api/stripe-webhook/route.ts:65-94 | for either version, running the created/updated handler again on its own result changes nothing |
| StripeWebhook.StoredProSnapshotGrantsPro | src/lib/subscription.ts:8-22 | for either version, after a current subscription with the pro price is stored, the user's level is pro until the period end, because the level is looked up by `_id` |
| StripeWebhook.DeletionRevokesLevel | src/app/api/stripe-webhook/route.ts:96-102 | after the subscription of a user's customer is deleted, that user's level is free |
| Resumes.TemplateIdPath | src/models/Resume.ts:95 | a missing template id defaults to "classic"; a given one is accepted exactly when it is one of the eight ids |
| Resumes.Create | src/models/Resume.ts:83-111 | creation needs a non-empty user id and a catalogue template id; the stored résumé keeps the inputs, defaults the arrays to empty and sets both timestamps to now |
| Resumes.SetPath | src/models/Resume.ts:90-106 | a path present in an update replaces the stored value, and an absent one keeps it |
| Resumes.PhotoUrlAfter | src/models/Resume.ts:92 | a new upload stores its URL, a removal clears the URL, and an unchanged photo keeps the stored URL (the editor's save action, `src/app/(main)/editor/actions.ts:37-67`) |
| Resumes.MergeText | src/models/Resume.ts:90-103 | each text path present in the update replaces the stored one and each absent path is kept; the photo URL follows the photo change alone |
| Resumes.Save | src/models/Resume.ts:93-109 | saving through the editor action (`src/app/(main)/editor/actions.ts:63-81`, validators on) refuses a template id outside the eight ids; otherwise it sets exactly the paths present in the update, keeps the others, changes the photo URL only on upload or removal, keeps id, owner and creation time, and moves the update time to now |
| Resumes.SaveKeepsPhotoUnlessChanged | src/models/Resume.ts:92 | a save that leaves the photo alone keeps the stored photo URL |
| Resumes.EmptySaveTouchesOnlyUpdateTime | src/models/Resume.ts:93-109 | an update that sets nothing changes only the update time |
| Resumes.SaveIdempotent | src/models/Resume.ts:93-109 | saving the same update twice at the same time is the same as saving it once |
| Resumes.HexRoundTrip | src/models/Resume.ts:114-116 | reading back the hex text of an object id gives the id's bytes |
| Resumes.ToJson | src/models/Resume.ts:114-133 | the JSON form carries the id as 24 hex characters that read back as the object id, next to the résumé itself |
| Resumes.JsonIdsDistinct | src/models/Resume.ts:114-116 | two résumés with different object ids get different JSON ids |
| JsDates.NewDate | src/app/api/stripe-webhook/route.ts:82-84 | a date is valid exactly within ±8.64e15 ms, and a valid one keeps its time value |
| JsDates.CivilRoundTrip | src/lib/utils.ts:39-48 | the calendar date `toISOString` prints for a day counts back to that same day |
| JsDates.PadRoundTrip | src/lib/utils.ts:39-48 | a zero-padded number field reads back as the number |
| JsDates.ToIsoString | src/lib/utils.ts:42 | only a valid date has an ISO string: the calendar date, "T", the time of day |
| JsDates.BeforeFirst | src/lib/utils.ts:41 | `split(c)[0]` is the longest prefix without `c`, followed by `c` or the end of the string |
| JsDates.BeforeFirstOfJoin | src/lib/utils.ts:41 | splitting `a + c + b` at `c` gives `a` when `a` has no `c` |
| JsDates.IsoDatePart | src/lib/utils.ts:42 | the part of an ISO string before "T" is its calendar date |
| FormValues.ConvertDate | src/lib/utils.ts:39-48 | a date field fails only for an invalid date object; otherwise the result is missing for an empty value, and else it is the value's text cut at its first "T" |
| FormValues.ConvertDateIdempotent | src/lib/utils.ts:39-48 | converting an already converted date string gives it back |
| FormValues.ConvertWork | src/lib/utils.ts:36-50 | a work entry converts when both dates do; text fields are normalised and dates truncated |
| FormValues.ConvertEducation | src/lib/utils.ts:51-64 | an education entry converts when both dates do; text fields are normalised and dates truncated |
| FormValues.ConvertWorkList | src/lib/utils.ts:36-50 | the list maps element by element and fails exactly when an element does |
| FormValues.ConvertEducationList | src/lib/utils.ts:51-64 | the list maps element by element and fails exactly when an element does |
| FormValues.MapWork | src/lib/utils.ts:36 | a missing list stays missing, and a present one is mapped |
| FormValues.MapEducations | src/lib/utils.ts:51 | a missing list stays missing, and a present one is mapped |
| FormValues.BuildValues | src/lib/utils.ts:21-70 | every text field is normalised by `\|\| undefined`; skills, border style and colour pass through; the id is kept |
| FormValues.MapToResumeValuesAsWritten | src/lib/utils.ts:21-70 | the mapping as written never carries a template id |
| FormValues.MapToResumeValues | src/lib/utils.ts:21-70 | the corrected mapping carries the template id and otherwise agrees with the mapping as written |
| FormValues.MappingFailsOnlyOnInvalidDates | src/lib/utils.ts:39-63 | the mapping succeeds exactly when no entry holds an invalid date object |
| FormValues.FormDatesHaveNoTime | src/lib/utils.ts:39-63 | no mapped date contains a time part ("T") |
| FormValues.ServerDataOf | src/models/Resume.ts:28-51 | a stored résumé read back as data has no invalid dates, keeps its template id, and keeps its entry count |
| FormValues.StoredResumeMaps | src/lib/utils.ts:21-70 | every stored résumé maps; the corrected mapping keeps its template id and the mapping as written drops it |
| FormValues.FileReplacer | src/lib/utils.ts:10-19 | a file is replaced by its name, size, type and modification time, and any other value is kept |
| FormValues.ReplacerForgetsContents | src/lib/utils.ts:10-19 | two files that differ only in contents serialise alike |
| TemplatePreviews.ComponentFor | src/components/templates/TemplateReview.tsx:27-37 | a catalogue id gets its own component, and any other id gets the classic one |
| TemplatePreviews.ComponentIdsInjective | src/components/templates/TemplateReview.tsx:27-37 | each component is registered under an id that leads back to it |
| TemplatePreviews.ResolvedId | src/components/templates/TemplateReview.tsx:23 | the values' template id when it is non-empty, "classic" otherwise |
| TemplatePreviews.TemplatePreview | src/components/templates/TemplateReview.tsx:18-47 | a known id renders its component with its catalogue style; an unknown one renders classic with no style |
| TemplatePreviews.PreviewStyleMatchesComponent | src/components/templates/TemplateReview.tsx:24-44 | the style handed over is the style of the component's own catalogue entry |
| TemplatePreviews.ListPreviewIgnoresSavedTemplate | src/lib/utils.ts:21-70 | the list preview of any stored résumé renders the classic component |
| TemplatePreviews.ModernResumeListedAsClassic | src/lib/utils.ts:21-70 | a résumé saved with "modern" is not previewed with the modern component |
| TemplatePreviews.ListPreviewUsesSavedTemplate | src/components/templates/TemplateReview.tsx:18-47 | with the corrected mapping, every stored résumé is previewed with its own template and style |
| TemplateSelection.InitialState | src/components/templates/TemplateSelector.tsx:39-40 | the picker starts with an empty query and the "all" filter |
| TemplateSelection.OpenChanged | src/components/templates/TemplateSelector.tsx:43-51 | closing clears the query and filter; opening keeps them |
| TemplateSelection.Reset | src/components/templates/TemplateSelector.tsx:151-155 | reset clears the query and filter and keeps the dialog state |
| TemplateSelection.ResetMatchesClose | src/components/templates/TemplateSelector.tsx:43-51 | reset is idempotent, and closing is reset plus close |
| TemplateSelection.Trim | src/components/templates/TemplateSelector.tsx:54 | the trimmed query is a slice of the query with only whitespace cut on both sides, and starts and ends with non-whitespace |
| TemplateSelection.TrimEmptyIffBlank | src/components/templates/TemplateSelector.tsx:54 | trimming gives the empty string exactly for an all-whitespace query |
| TemplateSelection.AsciiLower | src/components/templates/TemplateSelector.tsx:54 | lower-casing maps A–Z to a–z, keeps every other character and leaves no capital |
| TemplateSelection.AsciiLowerIdempotent | src/components/templates/TemplateSelector.tsx:54 | lower-casing twice equals lower-casing once |
| TemplateSelection.IncludesIffOccurs | src/components/templates/TemplateSelector.tsx:67-68 | `includes` holds exactly when the needle occurs at some position of the haystack |
| TemplateSelection.NormalQuery | src/components/templates/TemplateSelector.tsx:54 | the normalised query is empty exactly for an all-whitespace query |
| TemplateSelection.Select | src/components/templates/TemplateSelector.tsx:53-70 | the kept templates are an ordered sub-list holding exactly those that pass the lock filter and, with a query, contain it |
| TemplateSelection.FilteredTemplates | src/components/templates/TemplateSelector.tsx:53-70 | the picker's list is an ordered sub-list of the catalogue; "available" shows only unlocked templates and "locked" only locked ones |
| TemplateSelection.FilteredMembership | src/components/templates/TemplateSelector.tsx:53-70 | a template is listed exactly when it is in the catalogue, passes the lock filter, and matches the trimmed lower-cased query or the query is blank |
| TemplateSelection.Filtered | src/components/templates/TemplateSelector.tsx:162-174 | each listed card gets its template, and is locked exactly when access is refused |
| TemplateSelection.BlankQueryFiltersByLockOnly | src/components/templates/TemplateSelector.tsx:64 | a blank query filters by lock state alone |
| TemplateSelection.AllIsAvailablePlusLocked | src/components/templates/TemplateSelector.tsx:57-63 | for any query, the "all" list is the "available" and "locked" lists together, as a multiset and by count |
| TemplateSelection.AvailableAndLockedDisjoint | src/components/templates/TemplateSelector.tsx:57-63 | no template is both available and locked |
| TemplateSelection.AccessibleTemplates | src/components/templates/TemplateSelector.tsx:72-77 | exactly the catalogue templates the user may use; all of them under the override |
| TemplateSelection.AvailableCount | src/components/templates/TemplateSelector.tsx:72-77 | the count is at most the catalogue size, and is the catalogue size under the override |
| TemplateSelection.AvailableCountMatchesAvailableList | src/components/templates/TemplateSelector.tsx:72-77 | the badge count equals the length of the "available" list for an empty query |
| TemplateSelection.AvailableCountMatchesSubscriptionList | src/lib/templates.ts:267-277 | without the override, the badge count equals the length of the level's subscription list |
| TemplateCards.HandleSelect | src/components/templates/TemplateCard.tsx:32-38 | a locked card opens the upgrade dialog and an unlocked one selects |
| TemplateCards.HandleKeyDown | src/components/templates/TemplateCard.tsx:40-45 | only Enter and Space act, and they select exactly when the card is unlocked |
| TemplateCards.KeyMatchesClick | src/components/templates/TemplateCard.tsx:40-45 | an activation key does what a click does |
| TemplateCards.ReplaceFirstDash | src/components/templates/TemplateCard.tsx:146 | replacing keeps the length and every non-dash character, and keeps a dash-free string as it is |
| TemplateCards.ReplaceFirstDashSplit | src/components/templates/TemplateCard.tsx:146 | only the first dash becomes a space; later dashes remain |
| TemplateCards.TierLabel | src/components/templates/TemplateCard.tsx:54-58 | the tier badge reads "Free", "Pro" or "Pro Plus", one label per tier |
| TemplateCards.Card | src/components/templates/TemplateCard.tsx:65-195 | the aria label names the template and says when it is locked; the tier badge is the tier's label and the layout label has its first dash replaced; the check shows only when selected and unlocked; at most the first 3 features and 2 recommendations appear, in order; only unlocked cards have a call to action |
| TemplateCards.LockedCardNeverSelected | src/components/templates/TemplateCard.tsx:101-120 | a locked card never shows the selected check or a call to action |
| Display.VisibleWork | src/components/templates/creative/CreativeTemplate.tsx:286-293 | the shown work entries keep their order and keep exactly the entries with some non-empty field, every copy of each |
| Display.VisibleEducations | src/components/templates/creative/CreativeTemplate.tsx:356-363 | the shown education entries keep their order and keep exactly the entries with some non-empty field, every copy of each |
| Display.BlankWorkEntryHidden | src/components/templates/tech/TechTemplate.tsx:191-195 | adding a blank work entry anywhere changes nothing shown |
| Display.Location | src/components/templates/creative/CreativeTemplate.tsx:185-196 | a location line exists exactly when city or country is non-empty, and it is never empty |
| Display.LocationIsRenderedJoin | src/components/templates/creative/CreativeTemplate.tsx:185-196 | the line is city and country joined by ", " when both are given |
| Display.ItemIf | src/components/templates/minimal/MinimalTemplate.tsx:113-118 | a non-empty value is one item, and an empty one none |
| Display.SeparateItems | src/components/templates/minimal/MinimalTemplate.tsx:113-118 | Minimal shows up to four non-empty items, city and country separately and email last; it shows some exactly when a contact field is set |
| Display.JoinedLines | src/components/templates/creative/CreativeTemplate.tsx:164-215 | the other templates show up to three non-empty lines, with city and country joined first and email last; they show some exactly when a contact field is set |
| Display.ContactLines | src/components/templates/elegant/ElegantTemplate.tsx:166-183 | contact lines exist exactly when a contact field is set, and none is empty |
| Display.StyleOf | src/components/templates/compact/CompactTemplate.tsx:98-103 | only "square" and "circle" name a border style |
| Display.PhotoRadius | src/components/templates/elegant/ElegantTemplate.tsx:122-127 | square gives 0px, circle gives 9999px, and anything else gives the template's own default |
| Display.PhotoRadiusDeterminesStyle | src/components/templates/professional/ProfessionalTemplate.tsx:93-98 | equal photo radii mean equal border styles: the three cases never share a radius |
| Display.BadgeRadius | src/components/templates/tech/TechTemplate.tsx:309-314 | only Tech and Minimal round skill badges by border style: like the photo for square and circle, 4px otherwise |
| Display.Separator | src/components/templates/elegant/ElegantTemplate.tsx:268-274 | the separator as written: a hyphen between two spaces, except Elegant's, which is the five-character mojibake between spaces |
| Display.IntendedSeparator | src/components/templates/elegant/ElegantTemplate.tsx:268-274 | the intended separator is a dash between two spaces: an en dash for Elegant, a hyphen for the others |
| Display.ElegantSeparatorGarbled | src/components/templates/elegant/ElegantTemplate.tsx:270 | the Elegant separator as written has five characters, no en dash, and differs from the intended one |
| Display.SeparatorCorrectedOnlyForElegant | src/components/templates/elegant/ElegantTemplate.tsx:268-274 | the written and intended separators agree exactly for the templates other than Elegant |
| Display.WorkDateLabel | src/components/templates/tech/TechTemplate.tsx:224-234 | a label exists exactly with a start date; it ends with the end date, or with the template's word for "present" when there is none |
| Display.EducationDateLabel | src/components/templates/professional/ProfessionalTemplate.tsx:281-286 | a label exists exactly with a start date; without an end date it has no separator and no end |
| Display.LabelsDifferOnlyInOpenEnd | src/components/templates/compact/CompactTemplate.tsx:252-298 | work and education labels with the same dates agree unless the end is open |
| Display.WorkEntryOf | src/components/templates/tech/TechTemplate.tsx:237-241 | Tech and Minimal show the description only when it is non-empty; the others always show it |
| Display.WorkEntries | src/components/templates/modern/ModernTemplate.tsx:217-239 | one entry per visible work entry, in order |
| Display.EducationEntries | src/components/templates/modern/ModernTemplate.tsx:255-277 | one entry per visible education entry, in order |
| Display.Accent | src/components/templates/elegant/ElegantTemplate.tsx:28 | a non-empty colour is used as it is; Creative, Elegant, Compact and Professional fall back to their own colour; Tech, Minimal and Modern pass an empty one through |
| Display.ModernSidebarAsWritten | src/components/templates/modern/ModernTemplate.tsx:46 | the sidebar colour as written always ends in "15" and is never the grey fallback |
| Display.ModernSidebarFallbackDead | src/components/templates/modern/ModernTemplate.tsx:46 | as written, a missing colour gives "undefined15" and an empty one gives "15" |
| Display.ModernSidebar | src/components/templates/modern/ModernTemplate.tsx:46 | the corrected sidebar tints a non-empty colour with "15" and is grey otherwise |
| Display.ModernSidebarAgreesWithColour | src/components/templates/modern/ModernTemplate.tsx:46 | the two versions agree exactly when a colour is given |
| Display.SidebarBackground | src/components/templates/compact/CompactTemplate.tsx:47-52 | only Creative, Compact, Professional and Modern have a sidebar; its colour is never empty and starts with a given colour; Modern's is the colour as written, "undefined15" when none is given |
| Display.ModernBadgeColor | src/components/templates/modern/ModernTemplate.tsx:165-167 | the badge colour is the given colour, or a non-empty fallback |
| Display.AccentAlwaysSet | src/components/templates/elegant/ElegantTemplate.tsx:28 | the accent is set for every colour exactly in Creative, Elegant, Compact and Professional, the templates with a fallback |
| Display.Layout | src/components/templates/creative/CreativeTemplate.tsx:68-97 | every template has summary, experience, education and skills; photo and contact sections exist except in Tech and Minimal; only Tech has the personal block |
| Display.VisibilityOf | src/components/templates/modern/ModernTemplate.tsx:90-277 | photo, contact, skills, summary and entry sections are visible exactly when they have content |
| Display.ShownSections | src/components/templates/professional/ProfessionalTemplate.tsx:40-61 | the rendered sections keep layout order and are exactly the layout's sections that have something to show |
| Display.MinimalSectionOrder | src/components/templates/minimal/MinimalTemplate.tsx:42-46 | Minimal renders header, summary, experience, education, skills in that order, always starting with the header |
| Display.JobTitleLine | src/components/templates/tech/TechTemplate.tsx:124 | Tech always renders the job title line; the others only when it is non-empty |
| Display.Render | src/components/templates/compact/CompactTemplate.tsx:44-66 | the view's sections are the shown sections in layout order, a photo radius appears exactly with a photo, and only Modern records a skill-badge colour, its `colorHex \|\| "#6366f1"` |
| Display.EntrySectionsMatchEntries | src/components/templates/creative/CreativeTemplate.tsx:286-409 | the experience and education sections appear exactly when they have entries to list |
| Display.TextSectionsMatchContent | src/components/templates/creative/CreativeTemplate.tsx:221-261 | the skills and summary sections appear exactly when there are skills or a summary |
| Display.ContactAndPhotoSections | src/components/templates/creative/CreativeTemplate.tsx:106-215 | the contact section appears exactly with contact lines and the photo section exactly with a photo; Tech and Minimal always show their header block |

## Left out

- Markup, Tailwind classes, icons, zoom and layout widths. Only the choices a
  component makes are modelled: sections, entries, labels, radii and colours.
  Gradients, border tints and badge tints other than Modern's are left out.
- `formatDate` is not interpreted. A label records the raw date string and the
  pattern it would be formatted with. Parsing date strings is left out too.
- The photo is a string URL. The `File` photo case and object URLs need a
  browser.
- Stripe's `constructEvent` and `subscriptions.retrieve` are left out. The
  signature check becomes the verified event or its absence, and the
  retrieved subscription is a parameter. The Clerk metadata call and the
  database connection become flags in `Services`.
- Caching, logging, `useMemo`, and the `setTimeout` focus of the search field
  are left out. They do not change any result.
- `toLowerCase` is modelled on ASCII letters only. Other letters are kept
  unchanged.
- An id that names an `Object.prototype` property (such as "toString") is
  treated as unknown. In JavaScript, the table lookup would find the
  inherited property.
- `ResumePreview.tsx` passes values through to the preview, so it is not
  modelled separately. `types.ts` and `cn` are not modelled either.
- `ClassicTemplate.tsx`, `validation.ts` and the `BorderStyles` declaration
  are not part of this model. The model assumes the eight template ids as the
  `templateId` enumeration and "square"/"circle" as the named border styles.
- The category and layout display labels are left out, except for the dash
  replacement on the card.
- StripeWebhook.HandleCreatedOrUpdated: the subscription's `metadata.userId`
  is assumed present. The route reads it without a check, and what the
  database does with an undefined `_id` is not visible in the source.
- Resumes.ToJson: the JSON form keeps `_id` and adds `id`; the `__v`
  version key is not modelled.
- Resumes.Save: a path whose value in the update is `undefined` is treated
  as absent from the update, which is how Mongoose casts such an update. A
  save without an id creates a résumé, which `Resumes.Create` models; the
  lookup by owner, the "Resume not found" error and the blob storage calls
  are left out.

## Findings

| source | as written | input that shows it | evidently intended | confidence | as-written member | corrected member |
|---|---|---|---|---|---|---|
| src/lib/utils.ts:21-70 | the mapping from stored data to form values copies every field except `templateId` | a résumé saved with template "modern", shown in the résumé list | the list previews each résumé with its saved template | not executed | TemplatePreviews.ModernResumeListedAsClassic | TemplatePreviews.ListPreviewUsesSavedTemplate |
| src/components/templates/modern/ModernTemplate.tsx:46 | `colorHex + "15" \|\| "#f3f4f6"`: the concatenation is never empty, so the fallback is dead | `colorHex` undefined gives "undefined15"; `colorHex` "" gives "15" | the grey fallback when no colour is set | not executed | Display.ModernSidebarFallbackDead | Display.ModernSidebarAgreesWithColour |
| src/app/api/stripe-webhook/route.ts:75-88 | the upsert writes `_id` and the Stripe fields but no `userId`, while the schema makes `userId` required and unique (src/models/UserSubscription.ts:25-29) | two different users subscribe one after the other: the second webhook is answered 500 | each user's document carries their user id, and any number of users can subscribe | not executed | StripeWebhook.SecondSubscriberRejected | StripeWebhook.PostPreservesValid |
| src/components/templates/elegant/ElegantTemplate.tsx:270 | the date separator is the mojibake "â€“" (the UTF-8 bytes of an en dash read as Windows-1252) | any work entry with a start date | " – ", an en dash between spaces | not executed | Display.ElegantSeparatorGarbled | Display.SeparatorCorrectedOnlyForElegant |
