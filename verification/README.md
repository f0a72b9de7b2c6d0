# Campaign lifecycle, modelled in Dafny

This project models the campaign lifecycle of a small outreach-campaign
application. A campaign has a name, a description, a status (`active`,
`inactive` or `deleted`), a list of lead URLs and a list of account
identifiers. Five operations act on the stored campaigns: list, get by id,
create, partial update and soft delete. A soft delete only sets the status
to `deleted`; from then on the campaign is invisible to reads.

The model covers these parts of the application:

- **The Campaign schema** (`campaign.dfy`, module `CampaignSchema`): the status
  enumeration with its lowercase text form, and what the schema does to a new
  document. It trims the name and description, and both are required. The
  status defaults to `active` and the two lists default to empty.
- **The database-backed controller** (`persisted.dfy`, module
  `PersistedController`): the five operations over a map from document
  identifier to document. It checks the identifier format, requires name and
  description, and refuses to set `deleted` through update.
- **The older in-memory controller** (`memory.dfy`, module
  `MemoryController`): the same five operations over an array searched by
  index. It has fewer checks, and its update can set `deleted`.
- **Where the two controllers meet and part** (`divergence.dfy`, module
  `Divergence`): the two controllers answer get and delete alike on stores
  that hold the same campaigns. Each divergence has a witness.
- **The message endpoint and the drafting service** (`message.dfy` and
  `ai_service.dfy`): the request check, the profile handed to the service,
  the prompt template and the fixed fallback text. Each exists in a
  TypeScript version and a compiled twin, and a lemma shows the twins
  behave identically.
- **The browser client** (`client_api.dfy`, module `ClientApi`): response
  handling, and the fallback array the client uses when the backend cannot
  be reached. That array has a soft delete of its own. The browser also has
  its own fallback message template.
- **The frontend's pure transforms** (`form_page.dfy`, `campaign_form.dfy`,
  `campaign_list.dfy`, `campaigns_page.dfy`):
  - parsing of comma-separated and one-per-line lists, and the join used for
    editing, with their round trips;
  - form validation;
  - the mapping between the status switch and the stored status;
  - field updates;
  - updates to the table after a status change or a delete;
  - description truncation;
  - the status badge.

`js.dfy` and `text.dfy` hold the JavaScript semantics the code relies on:
- an optional property and its truthiness;
- `trim`, `split` on one character, `join`, `filter`, `map`, `findIndex`;
- `String(n)` for a non-negative integer.

Some collaborators are modelled as parameters or as plain values:
- **The identifier check** is a function parameter `validId`. In the
  database controller it stands for the document identifier format check.
- **The clock** is a natural number `now`.
- **Generated identifiers** are a parameter `newId`.
- **The hosted language model** is a function from prompt to outcome.
- **`fetch`** is the outcome of the one request a call makes: a network
  failure, or a response with its `ok` flag, status line and parsed body.

Behaviours of the code worth calling out:
- Statuses are stored lowercase.
- Create accepts status `deleted` (`PersistedController.CreateAcceptsDeleted`).
- The in-memory controller's update can soft-delete
  (`MemoryController.UpdateCanSoftDelete`).
- Identifiers generated in the browser from the clock can repeat
  (`ClientApi.LocalCreateThenGet`).

## Model

| member | source | states |
|---|---|---|
| CampaignSchema.ParseStatus | backend/src/models/Campaign.ts:3-7 | a status text is accepted exactly when it is `active`, `inactive` or `deleted` (exact case), and names the status whose text it is |
| CampaignSchema.SwitchStatus | frontend/src/pages/CampaignFormPage.tsx:79 | a switch that is on stands for `active` and one that is off for `inactive`; no switch position means `deleted` |
| CampaignSchema.StatusTextRoundTrip | backend/src/models/Campaign.ts:31-35 | each status is recognised from its own text, and the text form is one-to-one |
| CampaignSchema.NewDocument | backend/src/models/Campaign.ts:19-48 | a document is built exactly when name and description are present and not blank; it then holds both trimmed, defaults `active` and empty lists, and stamps both timestamps with the clock |
| CampaignSchema.BlankNameIsRefused | backend/src/models/Campaign.ts:21-25 | a truthy but all-white-space name fails the required check once trimmed |
| CampaignSchema.NormalisationIsIdempotent | backend/src/models/Campaign.ts:21-30 | re-saving the trimmed text a document holds leaves the document unchanged |
| PersistedController.GetCampaigns | backend/src/controllers/campaignController.ts:6-18 | 200 with every stored campaign whose status is not `deleted`, each once and nothing else |
| PersistedController.GetCampaignById | backend/src/controllers/campaignController.ts:21-50 | 400 exactly for a malformed identifier, before any lookup; 404 exactly for an absent or soft-deleted record; otherwise 200 with the record |
| PersistedController.CreateCampaign | backend/src/controllers/campaignController.ts:53-97 | the check order is required fields, then status value, then the schema, then a free identifier; every refusal is a 400 that leaves the store unchanged; success inserts exactly one conforming document under the new identifier, with trimmed text, the status or `active`, the leads or `[]`, and the well-formed account ids in order |
| PersistedController.UpdateCampaign | backend/src/controllers/campaignController.ts:100-170 | the check order is identifier format, status value, refusal of `deleted`, existence (404 exactly when the record is absent or deleted), blank text (400 with the update error); every refusal leaves the store unchanged; success changes only this record, and only the fields supplied truthy, re-stamping `updatedAt` |
| PersistedController.DeleteCampaign | backend/src/controllers/campaignController.ts:173-209 | 400 for a malformed identifier and 404 for an absent or deleted record, store unchanged; otherwise only this record becomes `deleted` and is returned with the confirmation message |
| PersistedController.DeleteIsFinal | backend/src/controllers/campaignController.ts:184-201 | after a delete the listing omits the record; get fails with 404; update never succeeds, and answers 404 once the body's status passes its checks; a second delete answers 404 and changes nothing |
| PersistedController.CreateThenGet | backend/src/controllers/campaignController.ts:78-89 | a created record reads back unchanged, unless it was created `deleted` |
| PersistedController.CreateAcceptsDeleted | backend/src/controllers/campaignController.ts:63-67 | create accepts status `deleted` and yields a record no read can see |
| PersistedController.CreatePreservesValid | backend/src/controllers/campaignController.ts:69-87 | create keeps every document under its own well-formed identifier, with well-formed account ids and required trimmed text |
| PersistedController.UpdatePreservesValid | backend/src/controllers/campaignController.ts:134-155 | update keeps the same collection invariant |
| PersistedController.DeletePreservesValid | backend/src/controllers/campaignController.ts:194-196 | delete keeps the same collection invariant |
| PersistedController.DeletedIsTerminal | backend/src/controllers/campaignController.ts:117-132 | no request changes a soft-deleted record again |
| MemoryController.Locate | backend/dist/controllers/campaignController.js:93 | the first index holding the identifier, or -1 when none does |
| MemoryController.GetCampaigns | backend/dist/controllers/campaignController.js:17-28 | 200 with exactly the array's campaigns that are not `deleted` |
| MemoryController.ListingKeepsOrder | backend/dist/controllers/campaignController.js:19 | the listing keeps array order: listing a concatenation lists each part in turn |
| MemoryController.GetCampaignById | backend/dist/controllers/campaignController.js:31-51 | any identifier is looked up; 404 exactly when no element has it or the first one found is `deleted` |
| MemoryController.CreateCampaign | backend/dist/controllers/campaignController.js:54-81 | 400 exactly for a truthy status outside the enumeration, array unchanged; otherwise exactly one campaign is appended at the end, with the request's values as given, `active` and `[]` defaults |
| MemoryController.UpdateCampaign | backend/dist/controllers/campaignController.js:84-113 | status check first, then lookup; success replaces only the found element, each field taking the truthy new value or keeping the old one |
| MemoryController.DeleteCampaign | backend/dist/controllers/campaignController.js:116-142 | 404 with the array unchanged for an absent or deleted identifier; otherwise the found element becomes `deleted`, with length and every other element unchanged |
| MemoryController.DeleteIsFinal | backend/dist/controllers/campaignController.js:119-130 | after a delete, get, update and a second delete all fail; with unique identifiers the listing no longer holds the identifier |
| MemoryController.UpdateCanSoftDelete | backend/dist/controllers/campaignController.js:89-104 | an update with status `deleted` succeeds and the campaign then reads as not found |
| MemoryController.UpdateThenGet | backend/dist/controllers/campaignController.js:93-104 | a successful update reads back as the merged campaign, or as not found when it set `deleted`, and identifiers stay unique |
| MemoryController.CreateThenGet | backend/dist/controllers/campaignController.js:62-73 | a campaign created under a fresh identifier reads back as created, and identifiers stay unique |
| Divergence.GetAgrees | backend/src/controllers/campaignController.ts:26-40 | on stores that hold the same campaigns and a well-formed identifier, both controllers' get answers are equal |
| Divergence.DeleteAgrees | backend/src/controllers/campaignController.ts:178-201 | on such stores both deletes answer alike and leave the stores corresponding |
| Divergence.CreateWithoutNameDiverges | backend/src/controllers/campaignController.ts:58-61 | a request without a name is refused by the database controller and stored by the in-memory one |
| Divergence.UpdateToDeletedDiverges | backend/src/controllers/campaignController.ts:117-121 | setting `deleted` by update is refused by the database controller and carried out by the in-memory one |
| Divergence.MalformedIdDiverges | backend/src/controllers/campaignController.ts:26-29 | for a malformed identifier the database controller answers 400 to get and delete whatever its collection holds, while the in-memory controller finds and returns, or deletes, a campaign the array holds under that string |
| AiService.GeneratePersonalizedMessage | backend/src/services/aiService.ts:25-60 | the model's text unchanged on success, exactly the fallback on failure; no failure reaches the caller |
| AiService.PromptContainsLine | backend/src/services/aiService.ts:28-45 | each of the five labelled lines occurs in the prompt |
| AiService.PromptEmbedsIdentity | backend/src/services/aiService.ts:31-33 | the prompt carries name, job title and company verbatim on their labelled lines |
| AiService.PromptSubstitutesMissingContext | backend/src/services/aiService.ts:34-35 | a falsy location reads as `Not specified` and a falsy summary as `Not provided` |
| AiService.FallbackIgnoresContext | backend/src/services/aiService.ts:54-59 | the fallback depends on name, job title and company only, and an outage always yields it |
| AiServiceCompiled.GeneratePersonalizedMessage | backend/dist/services/aiService.js:28-63 | the compiled service answers the model's text on success and the fallback on failure |
| AiServiceCompiled.AgreesWithSource | backend/dist/services/aiService.js:32-61 | the compiled prompt, fallback and answer equal the TypeScript ones for every profile and model behaviour |
| MessageController.ProfileOf | backend/src/controllers/messageController.ts:16-22 | name, job title and company pass through verbatim; a falsy location or summary becomes `''` |
| MessageController.CreatePersonalizedMessage | backend/src/controllers/messageController.ts:4-40 | 400 exactly when name, job title or company is falsy; 500 exactly when the service throws; otherwise 200 with the service's text and `gemini-2.0-flash` |
| MessageController.RefusalSkipsGenerator | backend/src/controllers/messageController.ts:11-14 | an incomplete request gets the same answer whatever the service would do, so the service is not consulted |
| MessageController.OnlyTheProfileMatters | backend/src/controllers/messageController.ts:25-32 | a complete request's answer depends only on the service's outcome for its profile |
| MessageController.ServiceNeverFails | backend/src/controllers/messageController.ts:33-39 | wired to the drafting service, a complete request always gets 200, and on a model failure the fallback for its name, job title and company |
| MessageControllerCompiled.CreatePersonalizedMessage | backend/dist/controllers/messageController.js:14-47 | the compiled endpoint answers 400 exactly for an incomplete request, and 200 or 500 otherwise |
| MessageControllerCompiled.AgreesWithSource | backend/dist/controllers/messageController.js:20-46 | the compiled endpoint answers every request exactly as the TypeScript one |
| ClientApi.FailureError | frontend/src/services/api.ts:12-16 | a failed response's error is the body's truthy `message`, else `Error: <status> <statusText>`; a `null` body throws |
| ClientApi.HandleApiResponse | frontend/src/services/api.ts:11-21 | a failed response becomes an error without data; a successful one becomes its parsed body as data; an unreadable successful body throws |
| ClientApi.GetCampaigns | frontend/src/services/api.ts:24-37 | the backend's answer, or else exactly the fallback campaigns not `deleted` with the fallback note; the array is never changed |
| ClientApi.OfflineListingKeepsOrder | frontend/src/services/api.ts:33 | the fallback listing keeps array order: listing a concatenation lists each part in turn, so nothing is repeated or moved |
| ClientApi.GetCampaignById | frontend/src/services/api.ts:39-57 | the backend's answer, or else the first fallback campaign with the identifier whatever its status, or `Campaign not found` |
| ClientApi.CreateCampaign | frontend/src/services/api.ts:59-94 | a backend answer with data gains the success message; offline, exactly one campaign under `String(now)` is appended, and the rest of the array is unchanged |
| ClientApi.PatchLaws | frontend/src/services/api.ts:123 | spreading a patch: for all campaigns and patches, the empty patch changes nothing, and two patches in turn act as their merge with the later keys winning |
| ClientApi.FullPatchForgets | frontend/src/services/api.ts:123 | a patch that sets every key gives the same campaign whatever it was applied to, given the same identifier |
| ClientApi.ApplyIsIdempotent | frontend/src/services/api.ts:123 | applying a patch twice is applying it once |
| ClientApi.UpdateCampaign | frontend/src/services/api.ts:96-131 | offline, an absent identifier is an error with the array unchanged; otherwise only the first matching element is patched |
| ClientApi.DeleteCampaign | frontend/src/services/api.ts:133-162 | online success is a message with no data, body unread; offline, the first matching element becomes `deleted` whatever its status, with length and other elements unchanged; an absent identifier is an error |
| ClientApi.LocalDeleteIsSoft | frontend/src/services/api.ts:148-155 | the offline delete is idempotent; the deleted campaign is still returned by get, now `deleted`, and dropped from the listing |
| ClientApi.LocalCreateThenGet | frontend/src/services/api.ts:81-86 | an offline-created campaign reads back under a fresh identifier; under a repeated clock reading the older campaign shadows it |
| ClientApi.LocalUpdateThenGet | frontend/src/services/api.ts:118-123 | after an offline update, get returns the patched campaign |
| ClientApi.BackendAnswerIgnoresStore | frontend/src/services/api.ts:97-111 | a readable successful response is answered without consulting or changing the fallback array |
| ClientApi.GeneratePersonalizedMessage | frontend/src/services/api.ts:165-205 | a successful response with data is passed on; every other outcome gives the template from name, job title and company with model `fallback-template` |
| ClientApi.TemplateIgnoresContext | frontend/src/services/api.ts:185-195 | the browser's template does not depend on location or summary |
| CampaignFormPage.ParseCommaList | frontend/src/pages/CampaignFormPage.tsx:80-81 | every parsed entry is non-empty, trimmed and comma-free |
| CampaignFormPage.CommaListRoundTrip | frontend/src/pages/CampaignFormPage.tsx:33-34 | the `", "`-joined editing text of non-empty, trimmed, comma-free entries parses back to the same list |
| CampaignFormPage.Submit | frontend/src/pages/CampaignFormPage.tsx:76-82 | the texts as typed, the switch's status, and both lists parsed from their comma-separated text |
| CampaignFormPage.ActiveCampaignReloadsInactive | frontend/src/pages/CampaignFormPage.tsx:32 | as written, a loaded campaign's switch is always off, so saving it unchanged sends `inactive` |
| CampaignFormPage.EditRoundTrip | frontend/src/pages/CampaignFormPage.tsx:29-35 | loading an editable, not-deleted campaign and submitting untouched gives the campaign back |
| CampaignFormPage.HandleChange | frontend/src/pages/CampaignFormPage.tsx:55-61 | only the named input changes |
| CampaignFormPage.HandleToggleChange | frontend/src/pages/CampaignFormPage.tsx:63-68 | only the switch changes |
| CampaignFormPage.EditsAreIndependent | frontend/src/pages/CampaignFormPage.tsx:55-68 | edits to different inputs commute, the last write to an input wins, and the toggle commutes with text edits |
| CampaignForm.NonBlankLines | frontend/src/components/CampaignForm.tsx:120-121 | the kept lines are non-blank and newline-free |
| CampaignForm.LeadsValidity | frontend/src/components/CampaignForm.tsx:35-44 | the leads refinement holds exactly when every line is blank or starts with `http`; empty input is valid |
| CampaignForm.AccountIDsValidity | frontend/src/components/CampaignForm.tsx:45-54 | the account refinement holds exactly when some line is non-blank; empty input fails |
| CampaignForm.Submit | frontend/src/components/CampaignForm.tsx:114-122 | for accepted values: texts as typed, the named status, and each list's non-blank lines untrimmed and in order |
| CampaignForm.NewlineRoundTrip | frontend/src/components/CampaignForm.tsx:91-92 | joining non-blank, newline-free entries with `\n` and keeping non-blank lines gives them back |
| CampaignForm.ActiveStatusLoadsInactive | frontend/src/components/CampaignForm.tsx:90 | as written, an active campaign loads as `inactive` and is saved unchanged as `inactive` |
| CampaignForm.EditRoundTrip | frontend/src/components/CampaignForm.tsx:87-93 | a presentable campaign loads into accepted values, and submitting them untouched gives the campaign back |
| CampaignForm.ToggledFormIsInvalid | frontend/src/components/CampaignForm.tsx:214-218 | as written, the default and both switch values fail the status enumeration, so such a form never submits |
| CampaignForm.Toggle | frontend/src/components/CampaignForm.tsx:214-218 | with lowercase values, the switch shows what it wrote and writes an accepted status |
| CampaignForm.ToggleKeepsFormValid | frontend/src/components/CampaignForm.tsx:31-34 | with lowercase values, using the switch keeps accepted values accepted, and the default is acceptable |
| CampaignList.StatusPatchTouchesOnlyStatus | frontend/src/components/CampaignList.tsx:56-57 | the update sends the status key only: applied, it replaces the status and nothing else, and the last switch position wins |
| CampaignList.HandleStatusChange | frontend/src/components/CampaignList.tsx:54-83 | with data in the answer, only entries with the identifier take the new status, in place; otherwise the list is unchanged |
| CampaignList.HandleDelete | frontend/src/components/CampaignList.tsx:85-113 | when confirmed and answered with a message, exactly the entries without the identifier remain; otherwise the list is unchanged |
| CampaignList.DeleteKeepsOrder | frontend/src/components/CampaignList.tsx:92-94 | removal keeps the remaining entries in order |
| CampaignList.StatusChangeAfterDelete | frontend/src/components/CampaignList.tsx:59-64 | a status change for an identifier already removed leaves the list unchanged |
| CampaignList.TableFollowsOfflineClient | frontend/src/components/CampaignList.tsx:91-94 | offline, the table drops an entry exactly when the fallback array held it, and the update answer carries the requested status |
| CampaignList.Truncate | frontend/src/components/CampaignList.tsx:147-149 | a description over fifty characters shows as its first fifty plus `...`; a shorter one shows unchanged |
| CampaignList.TruncateIsIdempotent | frontend/src/components/CampaignList.tsx:147-149 | shortening twice is shortening once |
| CampaignList.ActiveRowsShowOff | frontend/src/components/CampaignList.tsx:154 | as written, every row's switch shows off |
| CampaignList.SwitchOn | frontend/src/components/CampaignList.tsx:153-158 | compared with the stored value, the switch is on exactly for an active campaign |
| CampaignList.SwitchShowsRecordedStatus | frontend/src/components/CampaignList.tsx:153-158 | compared with the stored value, the switch shows the status a change just recorded |
| CampaignsPage.BadgeVariantAsWritten | frontend/src/pages/CampaignsPage.tsx:50-61 | as written, each upper-case status name gets its own style and every other string, including the stored lowercase ones, the outline style |
| CampaignsPage.BackendStatusesShowOutline | frontend/src/pages/CampaignsPage.tsx:50-61 | as written, every stored status gets the outline badge |
| CampaignsPage.BadgeVariantFor | frontend/src/pages/CampaignsPage.tsx:52-57 | each status gets its own non-outline badge: active default, inactive secondary, deleted destructive |
| CampaignsPage.BadgeDistinguishesStatuses | frontend/src/pages/CampaignsPage.tsx:50-61 | the corrected badge equals the written one on the upper-case spelling, and tells the statuses apart |

## Left out

- HTTP routing and server start-up: responses are modelled as a status code and a JSON value.
- The `error` detail of 500 and catch-all 400 replies, and console logging: these are diagnostics only.
- The document database: the collection is a map. There is no identifier canonicalisation or casting of account ids to identifiers, and duplicate-key errors are modelled only as a clashing generated identifier.
- The race between the existence check and the update in the database controller (backend/src/controllers/campaignController.ts:157-160): requests are sequential in the model, so that path is unreachable.
- PersistedController.UpdateCampaign: assumes the schema's trimming and required check also apply to `$set` under `runValidators`. Failures of other store operations (500 replies) are not modelled.
- PersistedController.GetCampaigns: the collection's natural order is not modelled; the method states membership and distinctness, not order.
- JSON values of unexpected types (a non-string name, a non-array list, a status that is not a string): request fields are optional strings and optional string arrays.
- Strings are sequences of characters, not UTF-16 code units. This matters for `trim`'s white-space set, which is taken from ECMAScript, and for the fifty-character truncation.
- ClientApi.HandleApiResponse: only three body shapes are modelled (unreadable, `null`, an object with the expected payload). A successful body that is `false`, `0` or `""` would give falsy data just as `null` does.
- ClientApi.UpdateCampaign: a patch key that is present but `undefined` is not distinguished from a missing key.
- The fallback array is page-global and mutable in the client. The model threads it through calls and ignores aliasing of returned objects.
- The hosted model call and `fetch`: these are foreign network I/O, modelled as parameters giving success or failure.
- React rendering, hooks, toasts, navigation, timers, the confirmation dialog (a boolean parameter), and the form and validation libraries: only the refinement predicates, the length checks and the value transforms are modelled.
- MessageController.CreatePersonalizedMessage: the preview logging at messageController.ts:27 is not modelled. That line could only throw for a non-string message, which the service never returns.

## Findings

| source | as written | input that shows it | evidently intended | confidence | as-written member | corrected member |
|---|---|---|---|---|---|---|
| frontend/src/pages/CampaignFormPage.tsx:32 | `isActive: campaign.status === "ACTIVE"` | a stored campaign with status `active`: its switch loads off, and saving without changes sends `inactive` | compare with the stored lowercase value `active` | high; not executed | CampaignFormPage.ActiveCampaignReloadsInactive | CampaignFormPage.EditRoundTrip |
| frontend/src/components/CampaignForm.tsx:90 | `status: campaign.status === "active" ? "inactive" : campaign.status` | a stored campaign with status `active`: it loads as `inactive` and is saved as `inactive`; latent, since no route of the application mounts this form | load the status as stored | high; not executed | CampaignForm.ActiveStatusLoadsInactive | CampaignForm.EditRoundTrip |
| frontend/src/components/CampaignForm.tsx:216-217 | the switch writes `ACTIVE` / `INACTIVE`, and the default is `ACTIVE` (line 70), while the schema accepts only `active` / `inactive` (line 34) | a new form with every other field valid, or any form after using the switch: validation always fails on status; latent, since no route of the application mounts this form | write and default to the lowercase values | high; not executed | CampaignForm.ToggledFormIsInvalid | CampaignForm.ToggleKeepsFormValid |
| frontend/src/pages/CampaignsPage.tsx:52-57 | the badge cases are `ACTIVE`, `INACTIVE`, `DELETED` | a campaign with status `active` gets the `outline` badge, like every other campaign | match the lowercase stored values | high; not executed | CampaignsPage.BackendStatusesShowOutline | CampaignsPage.BadgeDistinguishesStatuses |
| frontend/src/components/CampaignList.tsx:154 | `checked={campaign.status === "ACTIVE"}` | a campaign with status `active`: its row's switch shows off; latent, since the only page that mounts this table is not routed | compare with `active` | high; not executed | CampaignList.ActiveRowsShowOff | CampaignList.SwitchShowsRecordedStatus |
