# linyone, modelled in Dafny

linyone is a disaster-response web application for Myanmar. Its pieces are:

- a Python backend that answers chat questions from a small retrieval index;
- a script that builds that index from JSON datasets;
- a Next.js front end with a crisis map, family safety links, organization and admin dashboards, live earthquake and flood alerts, and an English/Burmese interface.

This project models the deterministic logic inside those pieces and proves what that logic promises. There is one Dafny module per source file, plus `Common`, which holds Option, string helpers, whitespace sets, ASCII lowercasing, decimal printing and list combinators.

- `ChatApi` (`backend/chat_api.py`) covers:
  - request intake and language detection;
  - filtering of retrieval hits;
  - the character-budgeted context builder;
  - prompt assembly;
  - the per-provider retry rules of Gemini (through a Supabase function), Groq and Ollama;
  - the provider cascade, which always ends in a reply, with the local fallback last;
  - the response envelope.
- `BuildIndex` (`backend/build_index.py`) covers the three document-extraction rules, dataset loading, the build's early exit and the metadata id assignment.
- `Organization`, `Pins`, `FamilyService`, `FamilyTab`, `Navigation`, `Admin` and `Dashboard` model:
  - the state updates of the organization page, pin service, family service, family tab, navigation bar, admin page and dashboard card;
  - in each, only the matching record changes;
  - in each, the totals and counters agree with the lists they summarise.
- `LiveAlerts`, `DisasterToasts`, `AlertsPage`, `ReverseGeocode`, `ChatClient`, `LanguageProvider` and `AiChat` model:
  - the classifiers, formatters, bounded event lists and persisted seen-sets;
  - the coordinate checks and address formatting of the geocoding route;
  - the browser's chat fallback;
  - translation lookup;
  - the keyword answers of the offline assistant.

Code that updates state step by step is modelled imperatively:

- objects whose fields change are classes with `modifies` clauses;
- loops are `while` loops with invariants;
- each method states its whole result or new state, in terms of a specification function or predicate where the computation has one (the chat cascade, the flood and catalogue polls, the notification merge), and lemmas state the properties of those specifications.

Pure code is modelled as functions and lemmas.

Everything outside the program is a parameter of the operation that uses it:

- the network, the database and the realtime channel;
- the language-model providers;
- the embedding search and the browser's storage;
- the clock and random codes.

Provider replies and database answers are abstract outcomes, with the failure cases each operation distinguishes; the gaps are listed under "Left out". The current time is an integer number of milliseconds.

Three behaviours of the code are modelled as written and stated as lemmas or contracts:

- An Ollama reply whose content is the empty string counts as an answer, so the cascade stops with an empty response (`ChatApi.CascadeReplyShape`).
- The geocoding route sets its 10-second limit with `AbortSignal.timeout`, whose rejection is a `TimeoutError`, not the `AbortError` the route tests for. A timeout therefore answers 500 "Internal server error"; only an abort answers 408 (`ReverseGeocode.Respond`).
- The disaster toasts' loader compares the trimmed count with the age-filtered count. Expired entries therefore stay in storage while at most 500 fresh ones remain (`DisasterToasts.Toasts.LoadPersisted` together with `DisasterToasts.ExpiredForgottenButStored`).

On the dashboard, the family-link query of `src/services/family.ts:35-60` returns members without a `safety_status` field. So the status the dashboard maps from a link is `null` in practice. The model takes the link's status as given.

## Model

| member | source | states |
|---|---|---|
| ChatApi.ParseKind | backend/chat_api.py:52-67 | an assistant name has a prompt-table entry exactly when it is "emergency" or "mental", and the entry found is named by it |
| ChatApi.ParseKindName | backend/chat_api.py:52-67 | each assistant kind is found again from its own name |
| ChatApi.IsBurmese | backend/chat_api.py:116-117 | true exactly when some character lies in the Myanmar block U+1000–U+109F |
| ChatApi.DetectLanguage | backend/chat_api.py:366 | a truthy given language wins; otherwise "my" exactly when the message has a Myanmar character and "en" exactly when it has none |
| ChatApi.PromptsMentionEmergencyNumber | backend/chat_api.py:52-67 | each of the four system prompts contains "199" |
| ChatApi.SystemPrompt | backend/chat_api.py:158-159 | the Burmese prompt of the assistant when the language is "my" and the English one for any other language; the mental assistant gets a mental prompt and the emergency assistant an emergency prompt |
| ChatApi.PickOllamaModel | backend/chat_api.py:161-162 | the mental assistant gets the mental model and the emergency assistant the emergency model |
| ChatApi.LocalFallback | backend/chat_api.py:265-272 | a Burmese local answer when the language is "my" and an English one otherwise; the breathing answer for the mental assistant and the Drop-Cover-Hold-On answer for the emergency one |
| ChatApi.LocalFallbackMentionsEmergencyNumber | backend/chat_api.py:265-272 | each local answer is non-empty and contains "199" |
| ChatApi.FilterHits | backend/chat_api.py:133-139 | each kept hit names an existing metadata row, carries that row, its score, and its 1-based position in the raw hit list as rank |
| ChatApi.FilterHitsRanksIncrease | backend/chat_api.py:133-139 | the kept ranks are strictly increasing |
| ChatApi.FilterHitsComplete | backend/chat_api.py:133-139 | every raw hit naming an existing row is kept, ranked by its position |
| ChatApi.Retrieve | backend/chat_api.py:127-140 | no index gives []; otherwise the in-range hits in search order |
| ChatApi.ReplaceNewlines | backend/chat_api.py:150 | every newline becomes a space and every other character is kept in place; no newline is left |
| ChatApi.BudgetedPrefix | backend/chat_api.py:143-156 | the lines taken are a prefix of the lines, and non-empty when there are lines |
| ChatApi.BudgetedStops | backend/chat_api.py:153-155 | every line before the last one taken keeps the running total within the limit, and lines are cut only after the total passes it |
| ChatApi.BudgetedStep | backend/chat_api.py:152-155 | one loop turn: the line is appended, and the loop ends exactly when the total passes the limit |
| ChatApi.BudgetedLines | backend/chat_api.py:143-155 | the loop's parts equal the budgeted prefix of the formed lines |
| ChatApi.MakeContextSnippets | backend/chat_api.py:142-156 | the context is the budgeted lines joined by newlines |
| ChatApi.SnippetLineSingleLine | backend/chat_api.py:146-151 | a context line holds no newline when its label holds none |
| ChatApi.ContextNonEmpty | backend/chat_api.py:142-156 | at least one retrieved record gives a non-empty context |
| ChatApi.BuildMessages | backend/chat_api.py:274-282 | 2 to 4 messages: the system prompt first, the user text verbatim last, the therapy context only for a mental request with context, the attachment cut to 2000 characters only when present |
| ChatApi.AttachmentText | backend/chat_api.py:382 | the first 4000 characters of the non-empty texts joined by blank lines (all of it when shorter); "" when every text is empty |
| ChatApi.RequestFor | backend/chat_api.py:384-387 | the provider request carries the built messages; temperature 0.5 exactly for the mental assistant and 0.7 exactly for the emergency one; at most 512 tokens |
| ChatApi.GeminiOutcome | backend/chat_api.py:226-263 | a result only when configured and answered; the stripped content when non-empty, the soft refusal when empty without an error field, a failure when empty with one |
| ChatApi.GroqFromFirstAnswer | backend/chat_api.py:168-185 | from model i on: the answer comes from the first model with content, and failure means no model from i on gave content |
| ChatApi.GroqFirstAnswer | backend/chat_api.py:165-185 | Groq answers with the first model, in list order, whose reply has non-empty content, and raises only when none has |
| ChatApi.CallGroq | backend/chat_api.py:165-185 | the loop's result is the first-answer outcome, including the last error text on failure |
| ChatApi.OllamaOutcome | backend/chat_api.py:189-224 | a result is the content of one of the three attempts; the first attempt's content is returned as is; the call raises exactly when the first two attempts raise and either the first error names a GPU problem (so the second attempt already ran on the CPU and there is no third) or the third attempt raises too; otherwise the content of the first later attempt that answers is returned; a raised error is the native attempt's |
| ChatApi.CallOllama | backend/chat_api.py:189-224 | at most three requests, the OpenAI-style one first; the native one forces the CPU exactly when the first error names a GPU_ERR keyword |
| ChatApi.ProvidersAnswerNonEmpty | backend/chat_api.py:180-181 | Gemini and Groq report a result only with non-empty text |
| ChatApi.RunCascade | backend/chat_api.py:389-422 | the reply and the recorded errors are those of the cascade specification |
| ChatApi.StepsShape | backend/chat_api.py:393-422 | the providers asked form one of seven sequences, fixed by configuration and by which provider answered |
| ChatApi.CascadeAsks | backend/chat_api.py:393-417 | providers are asked in cascade order; Gemini exactly when configured, Groq exactly when keyed and Gemini did not answer, Ollama exactly when neither answered |
| ChatApi.CascadeMovesOnAfterErrors | backend/chat_api.py:393-417 | one to three providers are asked, and every one before the last failed |
| ChatApi.ErrorsAreFailures | backend/chat_api.py:398-417 | each recorded error is a failed provider's message, at most one per provider asked |
| ChatApi.CascadeReplySource | backend/chat_api.py:393-422 | the first answering provider supplies the text and the "<provider>:<model>" label; with none, the local answer labelled "local:fallback" |
| ChatApi.CascadeReplyShape | backend/chat_api.py:411-422 | only Ollama can give an empty reply, and the "local:fallback" label always carries the local answer |
| ChatApi.ReadRequest | backend/chat_api.py:353-367 | a missing form message reads the JSON body, an empty message is rejected, a malformed JSON body crashes; language and assistant take their defaults |
| ChatApi.RefsOf | backend/chat_api.py:424-434 | one reference for each of the first five retrieved records, in order |
| ChatApi.Respond | backend/chat_api.py:369-445 | an answer with the category of the assistant and the given timestamp whose text and model are the cascade reply to the request built from the prompt (messages and temperature of the assistant); the local label implies the local text; refs exactly when something was retrieved |
| ChatApi.Chat | backend/chat_api.py:343-460 | 422 exactly when a form field fails its literal type; 400 exactly for a rejected request; 500 with the English emergency fallback exactly when reading crashes or the assistant is unknown; otherwise an answer whose text and model are the cascade reply to the accepted request, with refs only for a mental request whose search kept hits |
| ChatApi.UnknownAssistantOnlyFromJson | backend/chat_api.py:347-359 | an accepted request naming an assistant without a prompt came from a JSON body whose truthy assistant is neither "emergency" nor "mental" |
| BuildIndex.LoadJsonArray | backend/build_index.py:46-61 | a file that parsed to an array gives exactly its items; a missing, non-array or unparsable file gives none |
| BuildIndex.PathNameSpec | backend/build_index.py:65 | the source name of a file never contains '/' and is never "." |
| BuildIndex.TrailingSeparatorsIgnored | backend/build_index.py:65 | a trailing "/" or "/." leaves the name unchanged, and the empty path and "." have an empty name |
| BuildIndex.FileNameAfterDirectory | backend/build_index.py:65 | the name of a path whose last component is not empty or "." is that component, whatever precedes it |
| BuildIndex.KeptSpec | backend/build_index.py:40-44 | `add_doc` appends at most one record, none exactly when the text is all whitespace, and what it appends is trimmed and non-empty |
| BuildIndex.Topic | backend/build_index.py:72 | the first truthy of session topic, trauma type and "session", kept as the JSON value it was |
| BuildIndex.IndexBuilder.constructor | backend/build_index.py:39 | the document list starts empty |
| BuildIndex.IndexBuilder.AddDoc | backend/build_index.py:40-44 | the list grows by exactly the kept record, and stays clean |
| BuildIndex.IndexBuilder.AddItem | backend/build_index.py:68-92 | one item appends its session, triple and question/answer records, in that order |
| BuildIndex.IndexBuilder.CollectDocs | backend/build_index.py:63-92 | the nested loop appends every file's records, files in argument order |
| BuildIndex.MetaLines | backend/build_index.py:121-123 | line i of meta.jsonl carries id i and the i-th record |
| BuildIndex.Build | backend/build_index.py:94-123 | the build stops with "nothing to index" exactly when no record was collected; otherwise the metadata lists every record with its position as id |
| BuildIndex.ItemDocsClean | backend/build_index.py:68-92 | every record one item yields is trimmed and non-empty |
| BuildIndex.AllDocsClean | backend/build_index.py:63-92 | every collected record is trimmed and non-empty |
| BuildIndex.UnreadableFileSkipped | backend/build_index.py:46-61 | a missing, non-array or unparsable file contributes nothing and the build goes on |
| BuildIndex.FilesInOrder | backend/build_index.py:63-68 | the records of each file sit between those of the files before and after it |
| BuildIndex.QaDocLast | backend/build_index.py:87-92 | an item with both "q" and "a" ends with exactly one question/answer record |
| BuildIndex.TripleDocsAreTriples | backend/build_index.py:79-85 | every record of the three-turn rule is marked as a triple |
| BuildIndex.NoQaWithoutBoth | backend/build_index.py:87 | without both "q" and "a" no question/answer record appears |
| BuildIndex.SessionDocFirst | backend/build_index.py:70-77 | an item with a conversation and a non-blank topic starts with its session record |
| BuildIndex.NoSessionWithoutConversation | backend/build_index.py:70 | an item without `full_conversation` yields no session record |
| BuildIndex.TripleDocsExact | backend/build_index.py:79-85 | when every sequence is non-blank, each yields its own trimmed record, in order |
| Organization.FindAcceptedSpec | src/app/organization/page.tsx:279 | the accepted-item lookup finds nothing exactly when no record has the category, and otherwise returns the first record of that category |
| Organization.FindRequiredNone | src/app/organization/page.tsx:379-380 | the required-item lookup finds nothing exactly when no item has the category |
| Organization.GetRemainingQuantity | src/app/organization/page.tsx:378-383 | 0 for a category the request does not ask for; the accepted record's remainder when one exists; the required quantity otherwise |
| Organization.NumberOr | src/app/organization/page.tsx:293-297 | the JavaScript or-default on a number: a non-zero value is kept, an absent value or 0 falls back to d |
| Organization.AllZero | src/app/organization/page.tsx:339 | true exactly when every updated item asks for quantity 0 |
| Organization.WithAcceptance | src/app/organization/page.tsx:342-352 | same length; exactly the requests with the id take the new status, required items and accepted items, each keeping its own other fields; all others kept |
| Organization.WithVolunteerStatus | src/app/organization/page.tsx:245-257 | same length; exactly the volunteers with the id get the new status, everything else about every volunteer kept |
| Organization.ClampQuantity | src/app/organization/page.tsx:1094 | the typed quantity is never negative and never above a non-negative maximum; an in-range entry is kept, an entry above a non-negative maximum becomes the maximum, and a negative or unparsable entry or a negative maximum gives 0 |
| Organization.OrganizationPage.constructor | src/app/organization/page.tsx:227-243 | the page starts with the given volunteers, requests and partners, nothing selected, no quantities and the dialog closed |
| Organization.OrganizationPage.ApproveVolunteer | src/app/organization/page.tsx:245-249 | the volunteers with the id become active; requests, partners, selection, quantities and the dialog flag unchanged |
| Organization.OrganizationPage.RejectVolunteer | src/app/organization/page.tsx:251-255 | the volunteers with the id become inactive; requests, partners, selection, quantities and the dialog flag unchanged |
| Organization.OrganizationPage.ViewRequest | src/app/organization/page.tsx:274-283 | the request is selected and the quantities are the record built item by item, later items overwriting earlier ones; volunteers, requests, partners and the dialog flag unchanged |
| Organization.OrganizationPage.SetQuantity | src/app/organization/page.tsx:1081-1098 | only the edited category's quantity changes, to the typed value clamped between 0 and what remains of it; every other field unchanged |
| Organization.OrganizationPage.AcceptRequest | src/app/organization/page.tsx:285-356 | without a selection or a user, or without any new acceptance, nothing changes; otherwise every request with the selected id takes the new required and accepted lists and the status they give (completed exactly when nothing is left), keeping its own other fields, and the dialog is cleared and closed |
| Organization.CollectAcceptance | src/app/organization/page.tsx:288-333 | the loop builds exactly the accepted list and the required list of the item-by-item specification, and flags a new acceptance exactly when some item got one |
| Organization.AcceptItem | src/app/organization/page.tsx:292-332 | one pass pushes the specified accepted record and required item, and counts as new exactly when the offer is positive and within what remains |
| Organization.RequiredListSpec | src/app/organization/page.tsx:288-333 | the updated required list has one entry per required item, in order, each as the single-item rule gives it |
| Organization.NewAcceptanceConserves | src/app/organization/page.tsx:299-319 | a new acceptance adds the offer to the accepted total, accepted plus remaining equals the original quantity, and the item then asks for the remainder under the same category |
| Organization.KeptItemUnchanged | src/app/organization/page.tsx:320-331 | an item without a new offer keeps its accepted record and asks for that record's remainder, or is copied unchanged when there is no record |
| Organization.ZeroOriginalFallsBack | src/app/organization/page.tsx:295 | a recorded original quantity of 0 is replaced by the required quantity, because the or-default treats 0 as missing |
| Organization.CompletedIffNothingLeft | src/app/organization/page.tsx:339-340 | the new status is "completed" exactly when every updated item asks for 0, and is "partially_accepted" otherwise |
| Organization.InitialQuantitiesAreRemaining | src/app/organization/page.tsx:274-283 | with distinct categories, the dialog starts every category at exactly what getRemainingQuantity reports for it |
| Organization.FirstRequired | src/app/organization/page.tsx:379 | with distinct categories, looking an item's category up returns that item |
| Organization.ApproveCount | src/app/organization/page.tsx:410 | approving raises the active-volunteer count by exactly the matching volunteers that were not active |
| Organization.PendingRequestsListed | src/app/organization/page.tsx:412-416 | the open-request count equals the length of the list of requests not completed |
| Pins.TypeRoundTrip | src/services/pins.ts:162 | a pin type written to the database reads back as itself, and a stored name reads back unchanged exactly when it is "damage" or "shelter" |
| Pins.DecideStatus | src/services/pins.ts:139-158 | a new pin is confirmed exactly when it has a user who is an active tracker or has the organization role, and is pending otherwise |
| Pins.CreatePin | src/services/pins.ts:160-215 | the insert carries the decided status (never completed), the database type name, the user id only when truthy, the phone, description and image URL given, and the position and time; a failed insert reports its message and no pin, a successful one reports the pin built from the returned row |
| Pins.RowToCreated | src/services/pins.ts:200-213 | the reported pin reads its type and status back from the row, and its image only when the upload gave a truthy URL |
| Pins.UpdatePinStatus | src/services/pins.ts:292-333 | confirming without a user, a member id or an active tracker is refused with no call; otherwise one update with the new status is sent, carrying the confirmer and time exactly when confirming with a member id; success exactly when the update went out without error |
| Pins.DeletePin | src/services/pins.ts:367-390 | only the organization role sends the delete; any other role is refused with no call; success exactly when the delete went out without error |
| Pins.DedupSpec | src/services/pins.ts:250 | the de-duplicated id list has no id twice and holds exactly the ids of its input |
| Pins.OwnerIdsSpec | src/services/pins.ts:250 | the owner ids are exactly the truthy user ids of the rows |
| Pins.LookedUpOwners | src/services/pins.ts:250-258 | the ids looked up are distinct and are exactly the truthy owners of the fetched rows |
| Pins.UserMapKeys | src/services/pins.ts:263 | the name map has an entry exactly for the ids of the returned users |
| Pins.CreatedBy | src/services/pins.ts:275 | the owner's name when the pin has a truthy owner whose looked-up name is non-empty, "Anonymous User" otherwise |
| Pins.RowToPin | src/services/pins.ts:267-279 | a fetched pin keeps the row's id and status, reads its type back from the database name, names its owner through the name map, and has an image only for a truthy URL |
| Pins.FetchPins | src/services/pins.ts:225-281 | a query error fails; no data gives an empty list; otherwise one pin per row, in order, each built with the same name map |
| Pins.AnonymousWithoutKnownOwner | src/services/pins.ts:254-275 | a pin without an owner, or fetched when the user lookup failed or returned nothing, shows as "Anonymous User" |
| FamilyService.ReciprocalRelation | src/services/family.ts:344-361 | the table's entry for the lower-cased relation, and "family" for a relation outside the table |
| FamilyService.ReciprocalIgnoresCase | src/services/family.ts:360 | the reciprocal of a relation does not depend on its letter case |
| FamilyService.ReciprocalValues | src/services/family.ts:344-361 | every written-back relation is one of the table's values or "family" |
| FamilyService.ReciprocalTwice | src/services/family.ts:344-361 | writing a relation back twice gives it back, lower-cased, only for husband and wife; every other relation ends as "family", because the combined values such as "son/daughter" are not keys |
| FamilyService.Lookup10 | src/services/family.ts:367-382 | a lookup returns the first ten matching users in table order (all of them when there are fewer), so it answers whenever one user matches |
| FamilyService.FindUsers | src/services/family.ts:363-391 | nothing for an empty identifier; at most ten users of the table; the phone lookup wins when it runs and finds a user, else the email lookup when it does, else the name lookup; for a non-empty identifier the result is empty exactly when none of the three answers; every user returned matches the winning lookup |
| FamilyService.FindMember | src/services/family.ts:57 | the member found for an id carries that id, and is a full user exactly when the users answer holds one with the id |
| FamilyService.FamilyDb.LinksOf | src/services/family.ts:19-22 | exactly the links whose owner is the user |
| FamilyService.FamilyDb.FetchFamilyMembers | src/services/family.ts:16-61 | nothing when the links lookup fails or finds none; otherwise one entry per link, in order, with the link's id, relation and member id; a failed user lookup leaves every member as its id only, and otherwise each member is the first users row with the link's member id, read without its email as the lookup selects only id, name and phone, or the id alone when none has it |
| FamilyService.FamilyDb.AddFamilyMemberById | src/services/family.ts:99-131 | an existing link is refused with "already_linked" when the check answers; otherwise one link is appended unless the insert fails, whose error is returned; other tables unchanged; no duplicate link is created when the check answers |
| FamilyService.FamilyDb.AddFamilyMemberByIdentifier | src/services/family.ts:87-97 | "member_not_found" with no change when no user is found; otherwise the outcome of linking the first user found: "already_linked" when the duplicate check answers that the link exists, the insert error when the insert fails, and success exactly otherwise, appending that one link; any failure leaves the links unchanged, and a duplicate-free link table stays duplicate-free when the check answers |
| FamilyService.FamilyDb.RemoveFamilyMemberById | src/services/family.ts:133-151 | a failed delete changes nothing and returns its error; otherwise every link from the user to the member is removed and all other links are kept |
| FamilyService.FamilyDb.SendFamilyRequest | src/services/family.ts:157-204 | "already_linked" is reported before "request_already_sent"; success exactly when neither check finds a row and the insert succeeds, and then exactly one pending request is appended; a failure leaves the requests as they were |
| FamilyService.FamilyDb.SingleRequest | src/services/family.ts:268-273 | a request is found exactly when one row has the id, and is that row |
| FamilyService.FamilyDb.ApproveFamilyRequest | src/services/family.ts:265-316 | "request_not_found" with no change when the lookup fails; otherwise each of the two links is appended when its insert succeeds, the second with the reciprocal relation; success exactly when both succeed, reporting the first error otherwise; only then is the request marked approved |
| FamilyService.FamilyDb.RejectFamilyRequest | src/services/family.ts:318-341 | a failed update returns its error and changes nothing; otherwise the request is gone after a successful delete, or stays marked rejected when the delete fails, and the call succeeds either way |
| FamilyService.SetStatus | src/services/family.ts:322-323 | every request with the id gets the status and the time; all other requests are unchanged |
| FamilyService.DeleteAfterSetStatus | src/services/family.ts:320-334 | deleting a request after marking it rejected leaves the same rows as deleting it outright |
| FamilyService.ApprovalLinksBothWays | src/services/family.ts:279-296 | an approval whose two inserts both succeed links the two users in both directions |
| FamilyTab.InviteOf | src/components/family-tab.tsx:128-138 | the entry a pending request adds carries the recipient's id |
| FamilyTab.AllLinkedWellFormed | src/components/family-tab.tsx:111-118 | a map holding only linked members, under their own ids, meets the merged list's invariant and holds every family member as linked |
| FamilyTab.AddLinked | src/components/family-tab.tsx:108-118 | the first loop yields a map of linked members only, every family member present under its id, with the keys in insertion order |
| FamilyTab.AddInvites | src/components/family-tab.tsx:121-142 | the second loop keeps the invariant: linked members stay linked, every pending request's recipient is present, and each entry sits under its own id |
| FamilyTab.MergedMembers | src/components/family-tab.tsx:105-145 | nothing without a signed-in user; otherwise one entry per id, every linked member as itself, every invited entry built from a pending request to someone outside the family, and every pending request's recipient present |
| FamilyTab.MergedFromMap | src/components/family-tab.tsx:144 | the map's values in insertion order meet the merged list's promise |
| FamilyTab.MergedDistinct | src/components/family-tab.tsx:144 | the values of a map whose entries sit under their own ids have distinct ids |
| FamilyTab.MergedEntriesFrom | src/components/family-tab.tsx:144 | every listed entry is a family member or an invite from a pending request to someone outside the family |
| FamilyTab.MergedHasFamily | src/components/family-tab.tsx:144 | every family member appears in the list as a linked entry |
| FamilyTab.MergedHasPending | src/components/family-tab.tsx:144 | every pending request's recipient appears in the list |
| FamilyTab.StartSafetyCheck | src/components/family-tab.tsx:167-172 | only the asked member changes: status "unknown", the check started now, and an expiry the given duration (300 seconds by default) later |
| FamilyTab.SendSafetyCheck | src/components/family-tab.tsx:162-172 | nothing changes without a signed-in user or when sending failed; otherwise the check is started |
| FamilyTab.ApplySafetyAnswer | src/components/family-tab.tsx:207-230 | nothing changes without a responder; only the responder changes; an answer older than the current window is ignored; otherwise the status becomes "danger" for a not-ok answer and "safe" for an ok one |
| FamilyTab.StaleAnswerIgnored | src/components/family-tab.tsx:216-224 | an answer created before the member's current window started never changes the status |
| FamilyTab.AnswerAfterStartCounts | src/components/family-tab.tsx:207-230 | after a check is started, the member's not-ok answer sent at or after the start marks them "danger" |
| FamilyTab.ServerWindowActive | src/components/family-tab.tsx:632-639 | true exactly when there is an expiry and now is before it |
| FamilyTab.RenderSafetyControl | src/components/family-tab.tsx:668-695 | the badge exactly while a window is active and a status is set; otherwise the ask button, disabled exactly while a window is active; the countdown runs to the expiry exactly while a window is active and shows 00:00 otherwise |
| FamilyTab.SecondsLeft | src/components/family-tab.tsx:650-656 | 0 without an expiry or once it has passed; otherwise the whole seconds left, rounded down |
| FamilyTab.Countdown | src/components/family-tab.tsx:656-659 | the countdown text has at least five characters |
| FamilyTab.CountdownRoundTrip | src/components/family-tab.tsx:656-659 | reading the minutes and seconds parts back gives the seconds left divided into minutes and seconds, separated by a colon |
| FamilyTab.CountdownAtZero | src/components/family-tab.tsx:650-659 | an absent or past expiry shows "00:00" |
| FamilyTab.Bridge.constructor | src/components/family-tab.tsx:579 | each run of the effect starts with nothing handled and nothing forwarded |
| FamilyTab.Bridge.Handle | src/components/family-tab.tsx:580-586 | a notification is forwarded exactly when its id is new and it is a safety answer; its id is marked handled either way |
| FamilyTab.Bridge.Poll | src/components/family-tab.tsx:594-599 | polling handles the list in order: it forwards exactly the specified notifications and marks every id of the list handled |
| FamilyTab.NothingForwardedTwice | src/components/family-tab.tsx:580-599 | polling a list whose ids were all handled forwards nothing |
| Navigation.DashboardHref | src/components/navigation.tsx:128 | an admin goes to "/admin", else an organization to "/organization", else "/dashboard" |
| Navigation.NavigationItems | src/components/navigation.tsx:125-140 | always two links, the map first; the dashboard link when signed in, the recent-alerts link otherwise |
| Navigation.IsActive | src/components/navigation.tsx:144-149 | the root link is active only on the root page; any other link exactly on pages whose path starts with its href |
| Navigation.RootOnlyOnRoot | src/components/navigation.tsx:144-149 | the map link is not active on any page but the root, signed in or not |
| Navigation.PrefixMatchesLongerName | src/components/navigation.tsx:148 | the prefix test also lights "/admin" on "/administrator" |
| Navigation.ToggleLanguage | src/components/navigation.tsx:151-153 | "en" becomes "my" and every other value becomes "en" |
| Navigation.ToggleTwice | src/components/navigation.tsx:151-153 | toggling twice returns to either supported language; any other value settles on "en" |
| Navigation.BadgeCount | src/components/navigation.tsx:567 | the bell's number is the unread notifications plus the pending requests |
| Navigation.BadgeText | src/components/navigation.tsx:567-569 | no badge exactly at zero; "99+" above 99; otherwise the count's decimal digits, at most two |
| Navigation.PollMerge | src/components/navigation.tsx:219-225 | the merged list is sorted newest first with no id twice; every held notification stays as held; every polled id is present; an entry not held before comes from the poll |
| Navigation.IndexById | src/components/navigation.tsx:220 | the map files every held notification under its own id, each value one of the held notifications, keys in insertion order |
| Navigation.AddUnseen | src/components/navigation.tsx:221-223 | the loop adds only polled notifications whose id is new, keeps held ones as they were, and leaves every held and every polled id present |
| Navigation.ValuesCover | src/components/navigation.tsx:224 | the map's values have distinct ids, contain every held and every polled id, and each comes from the held list when its id was held and from the poll otherwise |
| Navigation.NotificationCenter.constructor | src/components/navigation.tsx:116-119 | the center starts with no notifications and no pending requests |
| Navigation.NotificationCenter.Receive | src/components/navigation.tsx:236-238 | a realtime notification is put on top of the list; the pending requests are unchanged |
| Navigation.NotificationCenter.Poll | src/components/navigation.tsx:215-226 | the new list is the merge of the held list and the poll, as PollMerge states it: sorted newest first, no id twice, every held id kept with a held entry, every polled id present, every new entry from the poll; the pending requests are unchanged |
| Navigation.NotificationCenter.MarkRead | src/components/navigation.tsx:677-684 | a refused server call changes nothing; otherwise the notifications with the id become read and the rest are untouched |
| Navigation.NotificationCenter.Delete | src/components/navigation.tsx:660-666 | a refused server call changes nothing; otherwise exactly the notifications with the id are removed |
| Navigation.NotificationCenter.MarkAllRead | src/components/navigation.tsx:788-793 | with a signed-in user and a successful call every notification becomes read; otherwise nothing changes |
| Navigation.NotificationCenter.DeleteAll | src/components/navigation.tsx:804-810 | with a signed-in user and a successful call both lists are emptied and the badge disappears; otherwise nothing changes |
| Navigation.MarkedRead | src/components/navigation.tsx:682 | same length; the notifications with the id become read and the others are unchanged |
| Navigation.AllRead | src/components/navigation.tsx:792 | same length; every notification becomes read and is otherwise unchanged |
| Navigation.AllReadLeavesPending | src/components/navigation.tsx:792 | after marking all read the badge counts only the pending requests |
| Navigation.MarkReadLowersBadge | src/components/navigation.tsx:682 | marking one read never raises the badge, and lowers it by at most one when ids are distinct |
| Navigation.UnmatchedUnchanged | src/components/navigation.tsx:682 | marking an id no notification has leaves the list unchanged |
| LiveAlerts.SeverityFromMagnitude | src/components/alerts/live-alerts.tsx:27-32 | no magnitude is low; high exactly from 6, medium exactly from 4 up to 6 |
| LiveAlerts.SeverityFromDischarge | src/components/alerts/live-alerts.tsx:260-265 | no discharge is low; high exactly from 5000, medium exactly from 2000 up to 5000 |
| LiveAlerts.SeverityMonotone | src/components/alerts/live-alerts.tsx:27-32 | a stronger quake or a larger discharge is never rated lower |
| LiveAlerts.BreakdownExact | src/components/alerts/live-alerts.tsx:37-41 | days, hours, minutes and seconds add back up to the total seconds, each part below its unit |
| LiveAlerts.FormatTimeAgo | src/components/alerts/live-alerts.tsx:34-48 | "just now" under a second; otherwise the non-zero parts of the elapsed time joined by spaces, followed by " ago" |
| LiveAlerts.UnderMinute | src/components/alerts/live-alerts.tsx:37-41 | under a minute the breakdown is the seconds alone |
| LiveAlerts.MinuteOrMore | src/components/alerts/live-alerts.tsx:37-41 | from a minute on some part above seconds is non-zero |
| LiveAlerts.PartsWithoutSeconds | src/components/alerts/live-alerts.tsx:42-46 | with a day, hour or minute shown the label is not empty and no part is seconds |
| LiveAlerts.TimeAgoShape | src/components/alerts/live-alerts.tsx:36-47 | from one second on the label names some part; under a minute it is the seconds alone; from a minute on it shows no seconds |
| LiveAlerts.InsertEvents | src/components/alerts/live-alerts.tsx:120 | the list after an insert holds all events offered and held, up to 200 |
| LiveAlerts.InsertEventsSpec | src/components/alerts/live-alerts.tsx:120 | the list after an insert is newest first and holds only events offered or held, all of them when at most 200 |
| LiveAlerts.KeepsNewest | src/components/alerts/live-alerts.tsx:120 | an event dropped by the cap is no newer than any event kept |
| LiveAlerts.Feed.constructor | src/components/alerts/live-alerts.tsx:73-75 | the feed starts with no events and no seen ids |
| LiveAlerts.Feed.Insert | src/components/alerts/live-alerts.tsx:339 | the list becomes the capped, newest-first merge; events with new, distinct ids keep ids distinct |
| LiveAlerts.Feed.ReceiveQuake | src/components/alerts/live-alerts.tsx:140-160 | a realtime message is inserted exactly when its id was not seen, and its id is then recorded; otherwise nothing changes |
| LiveAlerts.Feed.ReceiveFeature | src/components/alerts/live-alerts.tsx:191-231 | a catalogue feature is inserted exactly when it has an id not seen before, and the id is then recorded; otherwise nothing changes |
| LiveAlerts.Feed.PollCatalogue | src/components/alerts/live-alerts.tsx:190-232 | the feed after a catalogue poll is the fold of the per-feature step over the features in order; the poll records exactly the non-empty feature ids and keeps the shown ids distinct |
| LiveAlerts.Feed.TestAlert | src/components/alerts/live-alerts.tsx:79-120 | the test alert's id is recorded and its event inserted without a seen check |
| LiveAlerts.FloodIdInjective | src/components/alerts/live-alerts.tsx:296 | one site's readings of different days get different event ids |
| LiveAlerts.LatestSample | src/components/alerts/live-alerts.tsx:285-293 | no reading without a series or with no times; otherwise the last time, with the discharge at the same index or none when the discharges are shorter |
| LiveAlerts.FloodCandidate | src/components/alerts/live-alerts.tsx:270-296 | a site offers an event only from a read body, for its newest reading, as a medium or high flood with the id of the site and that time |
| LiveAlerts.FloodEventsSpec | src/components/alerts/live-alerts.tsx:294-298 | the events a flood poll produces are medium or high floods with ids not seen before and no id twice |
| LiveAlerts.FloodEventsOnce | src/components/alerts/live-alerts.tsx:296-341 | once a poll's ids are recorded, the same answers produce no event again, so events of a rejected batch are never shown |
| LiveAlerts.CollectFloods | src/components/alerts/live-alerts.tsx:270-336 | the per-site requests produce exactly the specified events, record exactly their ids, and report whether any request threw |
| LiveAlerts.Feed.PollFloods | src/components/alerts/live-alerts.tsx:267-340 | the offered events are the specified ones and their ids are recorded; they are inserted only when no request threw and some were offered, otherwise the list is unchanged |
| LiveAlerts.QuakeEvent | src/components/alerts/live-alerts.tsx:146-159 | an earthquake event with the message's id, the severity of its magnitude, and its time, or now when that is missing or 0 |
| LiveAlerts.TestEvent | src/components/alerts/live-alerts.tsx:84-97 | the test event is stamped now and rated by its magnitude |
| LiveAlerts.InsertKeepsSeen | src/components/alerts/live-alerts.tsx:144-160 | every event kept by an insert carries a recorded id |
| LiveAlerts.InsertKeepsDistinct | src/components/alerts/live-alerts.tsx:339 | inserting events with new, distinct ids keeps the ids distinct |
| LiveAlerts.LastTen | src/components/alerts/live-alerts.tsx:351-354 | ten events of the kind, or all of them when there are fewer, each an event of the list |
| LiveAlerts.LastTenNewest | src/components/alerts/live-alerts.tsx:351-354 | the ten are newest first, and an event of the kind left out is no newer than any of them |
| LiveAlerts.Summary | src/components/alerts/live-alerts.tsx:351-365 | each of the high, medium and low counts is the number of events of that severity among the ten newest earthquakes followed by the ten newest floods; together they cover those at most 20 events |
| LiveAlerts.SeveritiesPartition | src/components/alerts/live-alerts.tsx:356-365 | every event has exactly one of the three severities |
| DisasterToasts.DeriveSeverity | src/components/alerts/disaster-toasts.tsx:20-35 | a given severity wins; an alert that is neither an earthquake nor a flood is low |
| DisasterToasts.DeriveAgreesWithFeed | src/components/alerts/disaster-toasts.tsx:22-33 | without a given severity, earthquakes and floods are rated with the same thresholds as the live feed |
| DisasterToasts.SetEntry | src/components/alerts/disaster-toasts.tsx:72-73 | after setting, the record holds the id with the new time, and at most one entry more than before |
| DisasterToasts.HeadKeyUnique | src/components/alerts/disaster-toasts.tsx:72-73 | in a record with distinct keys the first key does not recur |
| DisasterToasts.SetEntryMembers | src/components/alerts/disaster-toasts.tsx:73 | setting gives the id the new time and changes no other entry |
| DisasterToasts.ReplaceHeadDistinct | src/components/alerts/disaster-toasts.tsx:73 | giving the first key a new time keeps the keys distinct |
| DisasterToasts.SetEntryDistinct | src/components/alerts/disaster-toasts.tsx:73 | setting a key keeps the keys distinct |
| DisasterToasts.KeepNewest | src/components/alerts/disaster-toasts.tsx:75-76 | trimming keeps 500 entries, or all of them when there are fewer |
| DisasterToasts.KeepNewestDropsOlder | src/components/alerts/disaster-toasts.tsx:75-76 | trimming drops no entry newer than one it keeps |
| DisasterToasts.KeepNewestDistinct | src/components/alerts/disaster-toasts.tsx:58-59 | trimming keeps keys distinct, and drops nothing from at most 500 entries |
| DisasterToasts.KeepNewestSpec | src/components/alerts/disaster-toasts.tsx:75-76 | trimming orders entries newest first and keeps only entries it was given |
| DisasterToasts.NewestFirst | src/components/alerts/disaster-toasts.tsx:75-76 | an entry strictly newer than all others survives trimming, at the front |
| DisasterToasts.Recent | src/components/alerts/disaster-toasts.tsx:57 | exactly the entries shown less than seven days before now |
| DisasterToasts.RecentDistinct | src/components/alerts/disaster-toasts.tsx:57 | keeping the recent entries keeps the keys distinct |
| DisasterToasts.LoadKeepsDistinct | src/components/alerts/disaster-toasts.tsx:57-59 | loading keeps distinct keys, and all recent entries when there are at most 500 |
| DisasterToasts.KeyDetermines | src/components/alerts/disaster-toasts.tsx:55 | different entries of a stored object have different ids |
| DisasterToasts.PersistAdd | src/components/alerts/disaster-toasts.tsx:68-82 | unparsable storage is left as it is; empty storage becomes the single new entry; otherwise the id is stamped now and the record trimmed |
| DisasterToasts.PersistAddSpec | src/components/alerts/disaster-toasts.tsx:68-82 | after adding, the record holds at most 500 distinct ids, and the new id comes first when all other entries are older |
| DisasterToasts.Toasts.constructor | src/components/alerts/disaster-toasts.tsx:43-46 | the dialog starts closed, with no alert and nothing seen |
| DisasterToasts.Toasts.LoadPersisted | src/components/alerts/disaster-toasts.tsx:51-66 | without a stored object nothing changes; otherwise the seen ids become the 500 newest recent ids, and storage is rewritten only when trimming dropped some |
| DisasterToasts.Toasts.Receive | src/components/alerts/disaster-toasts.tsx:92-101 | a seen id changes nothing; a new id is recorded in memory and in storage, and opens the dialog with the derived severity exactly when the alert names its kind |
| DisasterToasts.ExpiredForgottenButStored | src/components/alerts/disaster-toasts.tsx:57-60 | an entry seven days old or older is not among the ids loaded into memory |
| ReverseGeocode.CheckCoordinates | src/app/api/reverse-geocode/route.ts:20-44 | accepted exactly when both are finite numbers within the latitude and longitude bounds; a non-number is reported as wrong types before a NaN is reported |
| ReverseGeocode.BoundsInclusive | src/app/api/reverse-geocode/route.ts:38 | finite coordinates are accepted exactly within -90..90 and -180..180, bounds included; an infinity in either place is out of range |
| ReverseGeocode.BuildAddressString | src/app/api/reverse-geocode/route.ts:136-168 | the loop builds exactly the specified display line |
| ReverseGeocode.AddressPartsNonEmpty | src/app/api/reverse-geocode/route.ts:140-167 | every part of the display line is non-empty, so dropping empty parts removes nothing |
| ReverseGeocode.AddressLineSpec | src/app/api/reverse-geocode/route.ts:167 | the display line is never empty, and is "Address not found" exactly when there are no parts or the only part is that text |
| ReverseGeocode.FormatAddressComponents | src/app/api/reverse-geocode/route.ts:173-210 | the loop builds exactly the specified component list |
| ReverseGeocode.ComponentsSpec | src/app/api/reverse-geocode/route.ts:184-207 | every component repeats a field as both its names and carries one type; each present field of the table yields its component |
| ReverseGeocode.WaitTime | src/app/api/reverse-geocode/route.ts:47-52 | the wait is never negative, the call starts at least 1.1 seconds after the previous one, and a positive wait ends exactly then |
| ReverseGeocode.Respond | src/app/api/reverse-geocode/route.ts:67-129 | only a rejection named AbortError answers 408; the request's own timeout, whose error is named TimeoutError, answers 500 like any other failure; a non-OK status is passed on with the message "Geocoding failed: HTTP " and that status; a body without an address answers 400; otherwise the display name, or the built line when it is missing, with the components |
| ReverseGeocode.Geocoder.constructor | src/app/api/reverse-geocode/route.ts:13 | the timer starts at 0 |
| ReverseGeocode.Geocoder.Post | src/app/api/reverse-geocode/route.ts:16-131 | an unreadable body answers 500 and an invalid pair answers 400, both at once and leaving the timer alone; a valid pair waits out the interval, restarts the timer when it resumes, and answers as specified |
| ReverseGeocode.CallsSpaced | src/app/api/reverse-geocode/route.ts:47-53 | two accepted requests handled one after the other reach the service at least 1.1 seconds apart; overlapping requests are not covered |
| Admin.MergeForm | src/app/admin/page.tsx:163-165 | the merged organization keeps its id, volunteer count, status and creation time, and takes every form field |
| Admin.NewOrganization | src/app/admin/page.tsx:118-130 | a registered organization is pending with no volunteers, "$0" funding when none was given, and an id and time taken from the clock |
| Admin.WithStatus | src/app/admin/page.tsx:187-197 | same length; exactly the organizations with the id get the status, all others unchanged |
| Admin.WithForm | src/app/admin/page.tsx:161-166 | same length; exactly the organizations with the id take the form's fields, all others unchanged |
| Admin.StatusCount | src/app/admin/page.tsx:208-209 | the count of organizations with the status is at most the number of organizations and is 0 exactly when none has the status |
| Admin.TotalVolunteers | src/app/admin/page.tsx:210 | no organization has more volunteers than the total |
| Admin.TotalFunding | src/app/admin/page.tsx:211-214 | when the total is a number every funding text has an amount and none exceeds the total |
| Admin.AdminPage.constructor | src/app/admin/page.tsx:92-103 | the page starts with the given organizations, nothing being edited, an empty form and the dialog closed |
| Admin.AdminPage.Register | src/app/admin/page.tsx:112-143 | an incomplete form changes nothing; otherwise the new organization is appended, the form cleared and the dialog closed |
| Admin.AdminPage.Edit | src/app/admin/page.tsx:145-157 | the organization is remembered, the form filled from it, and the dialog opened |
| Admin.AdminPage.Update | src/app/admin/page.tsx:159-179 | without an organization being edited nothing changes; otherwise its form is merged into every organization with its id, and editing ends with the form cleared |
| Admin.AdminPage.Delete | src/app/admin/page.tsx:181-185 | unconfirmed, nothing changes; confirmed, exactly the organizations with the id are removed; every organization with another id stays and none is added |
| Admin.AdminPage.Approve | src/app/admin/page.tsx:187-191 | the organizations with the id become active; nothing else changes |
| Admin.AdminPage.Reject | src/app/admin/page.tsx:193-197 | the organizations with the id become inactive; nothing else changes |
| Admin.FundingAmount | src/app/admin/page.tsx:212 | no amount (NaN) exactly when the funding text has no digit |
| Admin.FundingNaNIffDigitless | src/app/admin/page.tsx:211-214 | the funding total is NaN exactly when some organization's funding text has no digit |
| Admin.DefaultFundingIsZero | src/app/admin/page.tsx:124 | registering without a funding figure records an amount of 0 |
| Admin.VolunteersKept | src/app/admin/page.tsx:210 | approving, rejecting and editing keep the volunteer total; registering adds none |
| Admin.RegisterCounts | src/app/admin/page.tsx:118-132 | registering adds one pending organization and no active one |
| Admin.WithStatusAbsent | src/app/admin/page.tsx:187-197 | setting the status of an id no organization has changes nothing |
| Admin.StatusMovesOne | src/app/admin/page.tsx:208-209 | approving or rejecting the one pending organization of an id moves it from the pending count to the new status's count |
| AlertsPage.Elapsed | src/app/alerts/page.tsx:144-158 | minutes under an hour, hours under a day, days otherwise, each the whole number of units elapsed, rounded down |
| AlertsPage.UnitTail | src/app/alerts/page.tsx:151-157 | the label ends in the unit's word and " ago": minute(s) for minutes, hour(s) for hours, day(s) for days, plural exactly when the amount is not 1 |
| AlertsPage.FormatTimeAgo | src/app/alerts/page.tsx:144-158 | the label is the elapsed amount in decimal followed by its unit's tail; it ends in " ago" and reads in the plural exactly when the amount elapsed is not 1 |
| AlertsPage.LabelNamesUnit | src/app/alerts/page.tsx:144-158 | for every delay the label names minutes under an hour (also for a future date), hours from one hour to under a day, and days from a day on |
| AlertsPage.SeverityGroup | src/app/alerts/page.tsx:160-162 | exactly the alerts of that severity |
| AlertsPage.Column | src/app/alerts/page.tsx:227 | exactly the alerts of that kind |
| AlertsPage.GroupsPartition | src/app/alerts/page.tsx:160-162 | the three severity groups together hold every alert once |
| AlertsPage.ColumnsPartition | src/app/alerts/page.tsx:227-354 | the three columns together hold every alert once |
| ChatClient.LocalFallback | src/lib/chat.ts:71-92 | the canned answer is an error from the "local:fallback" model with no dataset references, stamped now, in category "mental" exactly for the mental-health assistant and "general" exactly for the emergency one |
| ChatClient.FallbackMentionsEmergencyNumber | src/lib/chat.ts:74-86 | every canned answer, in either language, tells the reader to call 199 |
| ChatClient.BodyJson | src/lib/chat.ts:47-48 | the body reads as the empty object exactly when it is empty, does not parse, or parses to the empty object; otherwise it is what parsing gave |
| ChatClient.Property | src/lib/chat.ts:55-61 | reading a field of null fails; a field is found only in an object that holds it, and is its value |
| ChatClient.ArrayOnly | src/lib/chat.ts:61 | a field is kept exactly when it is an array |
| ChatClient.AskChat | src/lib/chat.ts:23-66 | a thrown exchange or a non-OK status gives the canned local answer; a result marked as an error is always that canned answer, and an unmarked one came from an OK response |
| ChatClient.ErrorIffFailed | src/lib/chat.ts:23-66 | the result is marked as an error exactly when the exchange threw, the status was not OK, or the body was null; the canned answer is then the result |
| ChatClient.SuccessPassesFields | src/lib/chat.ts:55-62 | an OK answer whose body is an object is not an error and passes its response, category and model fields through unchanged |
| ChatClient.UnreadableBodyIsEmptyAnswer | src/lib/chat.ts:47-62 | an OK answer with an empty or unparsable body is not an error and has every field missing |
| ChatClient.DatasetRefsOnlyArrays | src/lib/chat.ts:61 | dataset references are returned exactly when the exchange succeeded and the backend sent an array there |
| LanguageProvider.Code | src/hooks/use-language.tsx:309-312 | the stored code is "en" exactly for English, and is two letters long |
| LanguageProvider.Translate | src/hooks/use-language.tsx:314-316 | a non-empty label of the current language is shown; a key without a label shows as itself; the result is empty only for the empty key |
| LanguageProvider.RecentAlertsUntranslated | src/hooks/use-language.tsx:314-316 | "nav.recentAlerts" reads "Recent Alerts" in English but shows as its raw key in Burmese |
| LanguageProvider.NavKeysTranslated | src/hooks/use-language.tsx:159-170 | every other navigation key has its own Burmese label |
| LanguageProvider.Mount | src/hooks/use-language.tsx:300-307 | the shown language is the saved one when it is exactly "en" or "my", and English otherwise |
| LanguageProvider.SetLanguage | src/hooks/use-language.tsx:309-312 | the shown language and the saved value both become the chosen language |
| LanguageProvider.ChoiceSurvivesReload | src/hooks/use-language.tsx:300-312 | a language chosen is the language shown on the next mount |
| AiChat.ContainsAny | src/components/ai-chat.tsx:122-130 | true exactly when one of the keywords occurs in the text |
| AiChat.Classify | src/components/ai-chat.tsx:119-132 | the topic chosen is mentioned by the lower-cased message, and no topic tried before it is mentioned |
| AiChat.GenerateResponse | src/components/ai-chat.tsx:118-137 | the reply is never empty; any message mentioning an earthquake keyword gets the earthquake text, and a message classified as shelter, first aid, contacts or kit gets that topic's text whatever the language; when no topic is mentioned it is the English default text exactly when the language is English and the Burmese one otherwise |
| AiChat.LanguageOnlyForDefault | src/components/ai-chat.tsx:118-137 | the two languages give different answers only when the message mentions no topic |
| AiChat.ChatWindow.constructor | src/components/ai-chat.tsx:94-106 | a new window holds only the greeting in the current language, with an empty box and no typing |
| AiChat.ChatWindow.Edit | src/components/ai-chat.tsx:105 | typing replaces the box's text and nothing else |
| AiChat.ChatWindow.Send | src/components/ai-chat.tsx:140-153 | a blank box changes nothing; otherwise the text is appended as a user message stamped with the clock, the box is cleared and typing starts |
| AiChat.ChatWindow.Answer | src/components/ai-chat.tsx:154-165 | the reply to the sent text is appended as a "general" assistant message and typing stops |
| AiChat.ChatWindow.QuickAction | src/components/ai-chat.tsx:168-171 | the send sees the box as it was before the prompt: a blank box leaves the prompt in it and sends nothing, otherwise the earlier text is sent |
| AiChat.SendThenAnswer | src/components/ai-chat.tsx:140-166 | a send followed by its reply adds exactly the question and then its answer, and leaves the box empty and typing stopped |
| AiChat.CategoryColor | src/components/ai-chat.tsx:193-201 | the gray badge exactly for a missing category or one outside safety, emergency, location and medical |
| Dashboard.ToMember | src/app/dashboard/page.tsx:155-164 | the card entry takes the member's id when there is one and the link's id otherwise, repeats it as the unique id, carries the link's status, and is named "Unknown" exactly when the name is missing or is that word |
| Dashboard.KeepFirstSound | src/app/dashboard/page.tsx:165-172 | what the filter keeps comes from the input, has a truthy id not seen before, has no id twice, and is no longer than the input |
| Dashboard.KeepFirstComplete | src/app/dashboard/page.tsx:165-172 | every truthy id of the input that was not already seen is kept |
| Dashboard.KeepFirstIsFirst | src/app/dashboard/page.tsx:165-172 | the member kept for an id is the first member of the input with that id |
| Dashboard.KeepFirstKeepsDistinct | src/app/dashboard/page.tsx:165-172 | a list whose ids are truthy, distinct and unseen passes unchanged |
| Dashboard.Dedup | src/app/dashboard/page.tsx:165-172 | the loop with its seen set keeps exactly the members the first-occurrence filter keeps |
| Dashboard.LoadMembers | src/app/dashboard/page.tsx:154-173 | the card shows the mapped links, first member per id, all ids truthy and distinct |
| Dashboard.OnDelete | src/app/dashboard/page.tsx:204-216 | after a DELETE event every link is mapped, in order, and nothing is removed |
| Dashboard.DeleteShowsDuplicates | src/app/dashboard/page.tsx:204-216 | two links to the same member show it twice after a DELETE event but once after a load or an INSERT event |
| Dashboard.AddMember | src/app/dashboard/page.tsx:80-96 | nothing is added without both a name and a phone; otherwise exactly one member is appended, with that name and phone, status "unknown", an id from the clock and the unique id "FAM-" followed by the random code |
| Dashboard.MarkSafe | src/app/dashboard/page.tsx:106-114 | the members with the id become "safe"; every other member is kept |
| Dashboard.SafeCount | src/app/dashboard/page.tsx:229 | the safe count is at most the number of members |
| Dashboard.MarkSafeIdempotent | src/app/dashboard/page.tsx:106-114 | marking the same member safe twice is the same as once |
| Dashboard.MarkSafeCount | src/app/dashboard/page.tsx:106-114 | marking safe raises the safe count by exactly the members with the id who were not safe yet |
| Dashboard.AddMemberCount | src/app/dashboard/page.tsx:80-96 | an added member does not change the safe count |

## Left out

- The health endpoint, FastAPI routing, CORS and environment loading are left out because they contain no logic beyond wiring. The configuration they produce is the `Config` parameter.
- Text extraction from uploaded PDF, DOCX, image (OCR) and text files is left out because it calls foreign libraries. The extracted texts are a given list of strings.
- Embedding, the FAISS search, vector normalisation and the index and vector file writes are left out because they are floating-point numerics inside libraries.
  - Retrieval hits are a given list of (index, score) pairs.
  - The build ends with the documents and the metadata lines.
- HTTP, Supabase, Ably, Nominatim, USGS and Open-Meteo calls are parameters: their answers are abstract outcomes. Error answers are modelled everywhere; a thrown exception is modelled for the chat client, the flood batch and the geocoding route.
  - The model does not capture the timing, concurrency or interleaving of these calls.
  - Nor does it capture the order in which the parallel flood requests complete; the answers are taken in site order.
- Realtime subscriptions, polling intervals, timeouts, abort controllers and React effects are left out. Only the state updates they trigger are modelled, as method calls.
- Lowercasing is ASCII-only, and trimming uses the whitespace sets of Python's `str.isspace` and JavaScript's `String.prototype.trim` written out. Unicode case folding is not modelled.
- `FamilyService.FindUsers`: the ILIKE name search is modelled as a case-insensitive substring test. `%` and `_` typed in the identifier are not treated as wildcards.
- Timestamps are integer milliseconds.
  - Parsing and printing ISO date strings, and the `NaN` of an unparsable date, are not modelled.
  - The ISO timestamp a reply carries is a string parameter.
- Event titles, descriptions, toast texts and the other display strings formatted from JavaScript numbers are left out. Only ids, times, kinds and severities are modelled.
- Magnitudes and discharge values are `real`. JavaScript number formatting and floating-point rounding are not modelled.
- `LiveAlerts.InsertEvents` sorts with a stable insertion sort. The source's `Array.prototype.sort` is also stable, so the orders agree.
- `ReverseGeocode.FormatAddressComponents`: the address is a map from key to string, and the components follow the route's own `componentMap`, written out in its order as `ComponentTable`. Address values that are not strings are not modelled.
- The 500 response's `details` field of the geocoding route is not modelled.
- ReverseGeocode.Respond: the success answer's `place_id` (the OSM id) and `geometry` (the parsed latitude and longitude) are not modelled; only the formatted address and the components are.
- `addFamilyMember` only forwards to `addFamilyMemberByIdentifier`, so it has no member of its own.
- From the family service, these operations are left out as thin database reads or writes without decision logic:
  - `getPendingFamilyRequests`;
  - the messaging functions (sending, fetching a conversation, unread counts, marking read, subscriptions);
  - `isUserOrganization` and `getUserOrgMember`.
- From the family tab, `handleCancelRequest` and the last-seen fetch and display are left out.
  - `handleCancelRequest` is a service call followed by a reload.
  - The service functions it calls, `cancelFamilyRequest` and `getSentFamilyRequests`, are not part of this model; the sent requests are a parameter.
- The random `FAM-` code of a new member and the generated ids are parameters.
- From the organization page, these are left out as navigation, UI or uploads with no state rule to prove:
  - `handleViewOnMap` stores a highlight in session storage and navigates;
  - `handleMarkAsDone` and its proof-image upload.
- `handleMarkAsDone` would mark the selected request completed, with a browser object URL for the image and a `Date` for the completion. It is the same per-id field update as the one `Organization.WithAcceptance` proves for acceptance.
- Image upload in the pin service is left out; the stored image URL is a parameter.
- `ChatClient.AskChat`: the request with files and the request without them give the same result shaping, so the model has one exchange. The 60-second abort is the `Threw` outcome.
- `LanguageProvider.Translations`: only the navigation entries of the two translation tables are written out, with "nav.recentAlerts" present in English only. The other keys all follow the same lookup.
- `LanguageProvider.Translate`: keys inherited from `Object.prototype` (such as "toString"), which would return a function, are not modelled.
- Voice input, scrolling, dialogs and the other rendering of the chat window and pages are left out.
- The hard-coded mock lists that seed the organization and admin pages are left out. The initial lists are constructor parameters.
- The colour-class helpers of the organization and admin pages (`getUrgencyColor`, `getStatusColor`) are left out because they are display-only lookups. `AiChat.CategoryColor` is modelled because its fallback is a stated rule.
- Dates shown as `lastSeen` and the `Date` objects stored on members and requests are left out. Their times are integers where the logic uses them.
- `backend/serve.py`, `src/services/notifications.ts`, `src/hooks/use-auth.tsx`, the last-seen update route and the login, register and layout pages are not part of this model.
- BuildIndex.IndexBuilder.AddItem: items are taken to be JSON objects whose "full_conversation" and every three-turn entry is a list of strings (a string value is given as the list of its characters, as `join` iterates it) and whose "three_turn_sequences", when present, is a list. A non-object item, a null or non-string element there, or a null "three_turn_sequences" makes Python raise, and the build then stops without writing anything; that stop is not modelled.
- BuildIndex.PathName: POSIX path syntax only; the Windows drive and backslash rules of `pathlib` are not modelled.
- FamilyTab.Bridge: one object is one run of the bridge's effect. The effect depends on `onResponse`, which the tab passes as a new inline closure on every render, so it re-runs with an empty handled set after each re-render; a safety answer can then be forwarded again. Forwarding across runs is not modelled, and the no-duplicate promise holds within one run only.
- Pins: an exception thrown inside `createPin`, `fetchPins`, `updatePinStatus` or `deletePin` is caught and answered with a fixed "Failed to ..." message; those catch paths are not modelled, only database answers that carry an error are.
- AiChat.ChatWindow: the language is read when the window is built and stays fixed; a language change during the 1.5-second reply delay is not modelled.
- FamilyService.ReciprocalRelation: the relation table is a plain JavaScript object, so a lower-cased relation naming an inherited `Object.prototype` member, such as "constructor" or "__proto__", yields that truthy member instead of "family". The model answers "family" for every relation outside the table.
