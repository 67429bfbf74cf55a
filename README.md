# Swarms platform: helpers and "add" modals, modelled in Dafny

This project models two parts of the Swarms marketplace web application.

The first part is the shared helper library `shared/utils/helpers.ts`. It covers:
- the night-time discount window and the token-cost estimator;
- `chunk`, `formatSpentTime`, `getTruncatedString` and `calculateTrialEndUnixTimestamp`;
- the toast redirects `getToastRedirect`, `getStatusRedirect` and `getErrorRedirect`;
- `getURL`, `commaSeparated` and `makeUrl`;
- `extractCategories`, which groups the agents' tags into categories.

The second part is the submit logic of the three explorer modals that add a tool, a prompt and an agent.

Modules:
- `Optional`, `Arith` and `Text` hold the shared pieces. `Text` has the JavaScript string operations the source relies on: `trim` with the ECMAScript whitespace set, `split`, `join`, `includes`, `toLowerCase` on ASCII, decimal rendering, and code-point order for `sort`.
- `Pricing` models `isNightTime`, `estimateTokenCost` and `estimateTokensAndCost`.
- `Helpers` models the other helpers, except `extractCategories`.
- `Categories` models `extractCategories` imperatively. It collects the tags into an insertion-ordered set, groups them with a processed set and a group map, then sorts the keys by insertion.
- `Tags` models the `split(',') / trim / filter(Boolean) / join(',')` normalisation that every modal applies to its tag field.
- `Submission` models what the modals share:
  - each submit handler is a chain of checks, and the first check that fails shows its toast and ends the handler;
  - the remote content check and the eligibility query are inputs;
  - it also holds the free or paid price terms.
- `ToolModal`, `PromptModal` and `AgentModal` model one modal each. A `class` holds the component's `useState` fields. Its methods are the handlers that update those fields.

Each submit handler is specified by a pure decision function over the state before the call and its inputs. The decision is either `Halt(toast)` or `Proceed(request)`, where the request is the payload sent to the server. The lemmas characterise exactly when a submission goes through, which toast stops it, and what shape the payload has.

Inputs: the server calls, the clock, the environment variables, `encodeURIComponent`, `parseFloat`, the price oracle and the link validator are all parameters.
- `parseFloat` returns `None` for NaN.
- A clock reading is an integer number of milliseconds since the epoch.
- An unset environment variable is `""`.

Notes on how the code reads its inputs (the model follows the code):
- The two modals read the result of `validateAll()` differently.
  - The prompt modal reads it as `{ isValid, errors }` (add-prompt-modal.tsx lines 232-233).
  - The agent modal writes `if (!validation.validateAll())` (add-agent-modal.tsx line 154). An object is always truthy, so if the result is such an object that check never blocks. The model keeps the agent modal's reading: `AgentModal.LocalCheck` records only whether the returned value was truthy.
  - A throw from `validateAll()` is caught in the prompt modal ("Validation Error" toast). In the agent modal it is not caught. The model stops that submission silently.
- The prompt modal's second check (`isValidating || validatePrompt.isPending`, line 223) can never be reached with `isPending` true, because line 219 has already returned silently. Lemma `PromptModal.WaitToastOnlyForLocalFlag` states this: a pending remote check halts without a toast, and the wait toast shows only for the local `isValidating` flag.
- `isNightTime` adds the local timezone offset and then reads the hour in local time, so the two cancel out. The hour tested is the UTC hour of the instant minus 8 hours, with no daylight-saving rule.
- The code does not check the sign of the token and agent counts, so the model takes any integer and the monotonicity lemmas carry the sign conditions.

## Model

| member | source | states |
|---|---|---|
| Pricing.NightTimeByTimeOfDay | shared/utils/helpers.ts:29-40 | the instant is night time exactly when the UTC hour of the instant minus 8 h is at least 20 or below 6 |
| Pricing.NightTimeIsDaily | shared/utils/helpers.ts:29-40 | night time repeats with a period of one day |
| Pricing.NightAndDayInstants | shared/utils/helpers.ts:29-40 | 10:00 UTC (2 AM at UTC-8) is night and 22:00 UTC (2 PM at UTC-8) is day |
| Pricing.EstimateTokenCost | shared/utils/helpers.ts:56-92 | echoes the token counts, flags night time and the discount exactly when the instant is at night, and the total is the agent, input and output costs summed |
| Pricing.DaytimeCosts | shared/utils/helpers.ts:56-92 | by day: agent cost is 0.01 per agent, input cost is 2.00 per million tokens per agent, output cost is 4.50 per million tokens per agent |
| Pricing.NightCostIsQuarterOfDay | shared/utils/helpers.ts:62-91 | the night input and output costs are exactly a quarter of the day ones, and the agent cost is not discounted |
| Pricing.CostsNonNegative | shared/utils/helpers.ts:56-92 | for non-negative token and agent counts every cost is non-negative |
| Pricing.TotalCostMonotone | shared/utils/helpers.ts:56-92 | the total cost does not decrease when token or agent counts grow (non-negative counts) |
| Pricing.CostScalesWithAgents | shared/utils/helpers.ts:56-92 | each cost equals the one-agent cost times the number of agents |
| Pricing.TokenEstimate | shared/utils/helpers.ts:48-49 | the token estimate is the least n with 4n at least the text length, i.e. ceil(length / 4) |
| Pricing.EstimateTokensAndCost | shared/utils/helpers.ts:42-54 | the token counts are the estimates of the input and output texts and the result is `estimateTokenCost` on them |
| Pricing.TokenEstimateExamples | shared/utils/helpers.ts:42-54 | "abcd" gives 1 input token, "abcde" gives 2, and an empty output gives 0 |
| Helpers.ChunkSplitsInput | shared/utils/helpers.ts:338-344 | for a non-zero size, the chunks concatenate back to the input, every chunk but the last holds exactly as many items as the absolute size, and the last holds between one and that many; an empty input gives no chunks |
| Helpers.ChunkOfZeroSize | shared/utils/helpers.ts:338-344 | a size of 0 fails on a non-empty input (the source reads an undefined chunk) and gives no chunks for an empty one |
| Helpers.SplitSecondsExact | shared/utils/helpers.ts:249-256 | for a non-negative duration the months, days, hours, minutes and seconds are an exact mixed-radix split of it |
| Helpers.ReportedUnitIsLargest | shared/utils/helpers.ts:258-268 | the unit reported is the largest unit that fits in the duration, and its count is the number of whole such units |
| Helpers.SpentTimePlural | shared/utils/helpers.ts:258-268 | the text ends in 's' exactly when the count is above 1, and zero seconds read "0 second" |
| Helpers.GetTruncatedString | shared/utils/helpers.ts:279-285 | an empty string gives null, a short string is returned whole, and a long one is cut to its first `num` characters followed by the end label |
| Helpers.TruncationKeepsPrefix | shared/utils/helpers.ts:279-285 | a truncated result starts with a prefix of the input and ends with the end label |
| Helpers.CalculateTrialEndUnixTimestamp | shared/utils/helpers.ts:142-159 | no trial end for a missing period or one below 2 days; otherwise the current second plus the period plus one day, in seconds |
| Helpers.ToastRedirectIsQueryString | shared/utils/helpers.ts:161-191 | a toast redirect is the path, '?', then the name, the description if non-empty, `disable_button=true` if asked and the extra parameters if non-empty, joined by '&' |
| Helpers.GetStatusRedirect | shared/utils/helpers.ts:193-207 | the redirect starts with the path and `?status=` and the encoded status name |
| Helpers.GetErrorRedirect | shared/utils/helpers.ts:209-223 | the redirect starts with the path and `?error=` and the encoded error name |
| Helpers.StripTrailingSlashes | shared/utils/helpers.ts:108 | the result is a prefix of the input with no trailing slash, and everything dropped is slashes |
| Helpers.StripLeadingSlashes | shared/utils/helpers.ts:112 | the result is a suffix of the input with no leading slash, and everything dropped is slashes |
| Helpers.GetUrl | shared/utils/helpers.ts:94-117 | the method's result is the configured origin, one slash and the path without its leading slashes |
| Helpers.GetUrlJoinsWithOneSlash | shared/utils/helpers.ts:94-117 | the origin always mentions "http", the path part never starts with a slash, and a leading slash on the path changes nothing |
| Helpers.GetUrlDefaultsToLocalhost | shared/utils/helpers.ts:96-105 | with neither site variable set the address is `http://localhost:3000/` followed by the path |
| Helpers.CommaSeparatedGroupsDigits | shared/utils/helpers.ts:246-247 | a non-negative integer is printed as its decimal digits grouped by threes from the right, and removing the commas gives back its decimal form and its value |
| Helpers.CommasGroupThousands | shared/utils/helpers.ts:246-247 | the regular-expression replacement inserts the same commas as grouping by threes from the right |
| Helpers.MakeUrlWithoutPlaceholders | shared/utils/helpers.ts:271-276 | a URL with no `[` and no `{` is returned unchanged |
| Helpers.MakeUrlSubstitutes | shared/utils/helpers.ts:271-276 | a `[key]` or `{key}` placeholder after literal text is replaced by the key's value, and an empty `[]` looks up "undefined" |
| Helpers.ClosingIndexFinds | shared/utils/helpers.ts:273 | the placeholder ends at the first closing character, provided no line break comes before it |
| Categories.CollectTags | shared/utils/helpers.ts:541-549 | the collected set is the distinct non-blank trimmed comma-separated entries of the agents' tags, in first-seen order |
| Categories.AddTags | shared/utils/helpers.ts:544-548 | adding one agent's tags extends the distinct sequence by that agent's entries |
| Categories.CollectedTags | shared/utils/helpers.ts:541-549 | a string is in the collected set exactly when it is a trimmed non-blank entry of some agent's tags |
| Categories.DistinctMembers | shared/utils/helpers.ts:541 | the insertion-ordered set has no duplicates and keeps exactly the members of its input |
| Categories.BaseWordOfTag | shared/utils/helpers.ts:557-558 | the base word is lower case, a prefix of the lower-cased tag, and non-empty for a non-blank trimmed tag |
| Categories.RelatedTags | shared/utils/helpers.ts:560-564 | the loop returns the reference filter `Related`: the tags of the collected sequence, in their order, that are not yet placed and whose lower-cased form starts with the lower-cased base word |
| Categories.RelatedMembers | shared/utils/helpers.ts:560-564 | a string is among the related tags exactly when it is a collected tag, not yet placed, whose lower-cased form starts with the prefix |
| Categories.MarkProcessed | shared/utils/helpers.ts:568 | the processed set becomes exactly the old set plus the related tags |
| Categories.PlaceTag | shared/utils/helpers.ts:554-570 | one step of the grouping loop is the reference step `Place`: a placed tag changes nothing; an unplaced tag maps its base word to the related tags, which all become placed |
| Categories.PlaceKeepsGroups | shared/utils/helpers.ts:554-570 | one step keeps the grouping invariant: every key is the non-empty base word of a collected tag, its group's tags start with it, and every placed tag starts with some key |
| Categories.PlaceMarksTag | shared/utils/helpers.ts:554-570 | one step never unplaces a tag and leaves the tag it visits placed |
| Categories.GroupsOfKeepsGroups | shared/utils/helpers.ts:551-570 | after any number of steps of the reference fold the grouping invariant holds |
| Categories.GroupsOfPlacesVisited | shared/utils/helpers.ts:551-570 | after any number of steps of the reference fold every tag visited is placed |
| Categories.GroupTags | shared/utils/helpers.ts:551-570 | the loop builds exactly the groups of the reference fold `Groups` over the collected tags; every key is the base word of a collected tag, each group's tags start with their key, and every tag starts with some key |
| Categories.GroupingDependsOnOrder | shared/utils/helpers.ts:551-570 | for two tags where the first one's key starts the second but not the other way round (such as "Art history" and "artificial"), that order gives the single group of the first key holding both tags, and the reverse order gives one group per tag |
| Categories.InsertSorted | shared/utils/helpers.ts:572 | inserting a new key keeps the keys strictly sorted and adds exactly that key |
| Categories.SortedKeys | shared/utils/helpers.ts:572 | the result is strictly sorted and holds exactly the group keys |
| Categories.ExtractCategories | shared/utils/helpers.ts:538-573 | no agents give no categories; otherwise the categories are strictly sorted and are exactly the keys of the reference groups of the collected tags; each is the lower-cased first word of some agent tag, and every agent tag starts, lower-cased, with some category |
| Categories.SortedIsUnique | shared/utils/helpers.ts:572 | two strictly sorted sequences with the same members are equal, so the sorted keys fix the categories exactly |
| Categories.KeysCoverTags | shared/utils/helpers.ts:551-572 | once every tag is placed, every tag starts with a sorted key |
| Categories.AgentTagsCovered | shared/utils/helpers.ts:538-573 | every tag of every agent is covered by some category |
| Tags.NonBlankTrimmedMembers | modules/platform/explorer/components/add-tool-modal.tsx:242-246 | an entry survives trim and filter exactly when it is the non-empty trim of some piece |
| Tags.TagEntries | modules/platform/explorer/components/add-tool-modal.tsx:218-221 | every entry is trimmed, non-blank and free of commas |
| Tags.BlankTagsHaveNoEntries | modules/platform/explorer/components/add-tool-modal.tsx:217-221 | a blank tag field has no entries and normalises to "" |
| Tags.TagEntriesOfNormalized | modules/platform/explorer/components/add-tool-modal.tsx:242-246 | normalising the tags keeps their entries |
| Tags.NormalizeTagsIdempotent | modules/platform/explorer/components/add-tool-modal.tsx:242-246 | normalising twice is the same as once |
| Submission.FirstBlockPassesIffAllPass | modules/platform/explorer/components/add-tool-modal.tsx:107-248 | a submit handler goes past its checks exactly when every check passes |
| Submission.FirstBlockIsEarliest | modules/platform/explorer/components/add-tool-modal.tsx:107-248 | the handler stops at the earliest failing check and shows that check's toast |
| Submission.Decide | modules/platform/explorer/components/add-tool-modal.tsx:107-263 | the handler proceeds with its request exactly when all checks pass, and otherwise halts with the first failing check's toast |
| Submission.EligibilityGatesPass | modules/platform/explorer/components/add-prompt-modal.tsx:269-294 | the eligibility checks pass exactly when the listing is free, or the query is neither loading nor failed and did not find the user ineligible |
| Submission.ListingGatesPass | modules/platform/explorer/components/add-prompt-modal.tsx:252-294 | the checks after the entry checks pass exactly when the remote check did not find the content invalid, a category is chosen, and the listing is free or the eligibility query is neither loading nor failed and did not find the user ineligible (the agent modal makes the same checks at add-agent-modal.tsx lines 162-205) |
| ToolModal.FieldGatesPass | modules/platform/explorer/components/add-tool-modal.tsx:116-196 | a field's checks pass exactly when its trimmed value meets the minimum and its raw length the maximum |
| ToolModal.FieldGatesReport | modules/platform/explorer/components/add-tool-modal.tsx:117-142 | a blank field reports "required", a short one "too short" and an over-long one "too long", in that order |
| ToolModal.TagsGatesPass | modules/platform/explorer/components/add-tool-modal.tsx:216-240 | the tag checks pass exactly when there are at most 10 entries, each of at most 50 characters |
| ToolModal.FieldsGatesPass | modules/platform/explorer/components/add-tool-modal.tsx:116-196 | the name, description and code checks pass exactly when each field meets its bounds (2..100, 10..1000, 5..50000) |
| ToolModal.VerdictGatesPass | modules/platform/explorer/components/add-tool-modal.tsx:198-214 | the verdict checks pass exactly when the remote check did not find the tool invalid and a category is chosen |
| ToolModal.ToolGatesPass | modules/platform/explorer/components/add-tool-modal.tsx:107-240 | the whole chain passes exactly when the form is acceptable |
| ToolModal.ToolProceedsIffAcceptable | modules/platform/explorer/components/add-tool-modal.tsx:107-263 | the tool is sent exactly when nothing is pending and the fields, remote verdict, categories and tags are acceptable, and then the request is the form's fields with normalised tags, the image URL if any and the file path only alongside an image |
| ToolModal.PendingCheckComesFirst | modules/platform/explorer/components/add-tool-modal.tsx:109-114 | while the remote check is pending the handler halts with the non-destructive "Validating Tool" toast, whatever the form holds |
| ToolModal.BlankNameReportedFirst | modules/platform/explorer/components/add-tool-modal.tsx:117-124 | a blank name is the first field error reported |
| ToolModal.ClearedFormNeedsName | modules/platform/explorer/components/add-tool-modal.tsx:117-124 | after the name is cleared, a submission halts with "Tool name is required" |
| ToolModal.RemoteVerdictAfterFields | modules/platform/explorer/components/add-tool-modal.tsx:198-205 | with acceptable fields, an invalid remote verdict halts with "Invalid Tool" and its error |
| ToolModal.SentTagsWithinLimits | modules/platform/explorer/components/add-tool-modal.tsx:242-262 | the tags sent are normalised, and hold at most 10 entries of at most 50 characters |
| ToolModal.AddToolModal.constructor | modules/platform/explorer/components/add-tool-modal.tsx:36-42 | the form starts empty with language "python" and not loading |
| ToolModal.AddToolModal.Submit | modules/platform/explorer/components/add-tool-modal.tsx:107-263 | returns the decision for the current form, leaves the form unchanged and sets loading when it proceeds |
| ToolModal.AddToolModal.AddSucceeded | modules/platform/explorer/components/add-tool-modal.tsx:264-276 | shows the success toast and clears name, code, description and tags, keeping language, categories and the loading flag |
| ToolModal.AddToolModal.AddFailed | modules/platform/explorer/components/add-tool-modal.tsx:277-283 | shows "An error has occurred" and clears the loading flag, leaving the form as it was |
| PromptModal.WithoutIndex | modules/platform/explorer/components/add-prompt-modal.tsx:86-90 | filtering out an index in range removes exactly that link, and an index out of range removes nothing |
| PromptModal.FilledLinks | modules/platform/explorer/components/add-prompt-modal.tsx:302 | the links kept are exactly those with a non-blank name and URL |
| PromptModal.FilledLinksIdempotent | modules/platform/explorer/components/add-prompt-modal.tsx:302 | filtering the links twice is the same as once |
| PromptModal.EditErrorReports | modules/platform/explorer/components/add-prompt-modal.tsx:92-107 | editing a link's non-blank URL that fails validation reports "Link <n>: <error>" with a one-based n, and any other edit clears the error |
| PromptModal.FormGate | modules/platform/explorer/components/add-prompt-modal.tsx:231-250 | the form check passes exactly when `validateAll` returned valid; the toast shows its first error or the fallback, and a throw shows "Validation Error" |
| PromptModal.EntryGatesPass | modules/platform/explorer/components/add-prompt-modal.tsx:219-250 | the entry checks pass exactly when nothing is validating or pending and the form is valid |
| PromptModal.PreLinkGatesPass | modules/platform/explorer/components/add-prompt-modal.tsx:219-294 | the checks before the links pass exactly when the entry and content checks do |
| PromptModal.PromptProceedsIffAcceptable | modules/platform/explorer/components/add-prompt-modal.tsx:218-337 | the prompt is sent exactly when every check passes, including the filled links' validation |
| PromptModal.WaitToastOnlyForLocalFlag | modules/platform/explorer/components/add-prompt-modal.tsx:219-229 | a pending remote check halts silently; the wait toast is shown only for the local validating flag |
| PromptModal.FreePromptIgnoresEligibility | modules/platform/explorer/components/add-prompt-modal.tsx:269-294 | for a free prompt the eligibility query has no effect on the decision |
| PromptModal.SentPromptShape | modules/platform/explorer/components/add-prompt-modal.tsx:296-337 | a sent prompt carries only filled links, which the link validator accepted, normalised tags, and price 0 with no wallet when free or the parsed price and the wallet when paid |
| PromptModal.PromptFailureToast | modules/platform/explorer/components/add-prompt-modal.tsx:370-398 | the failure toast is destructive; it is titled "Service Temporarily Unavailable" exactly when the message mentions the validation system or "temporarily", and "Submission Failed" otherwise |
| PromptModal.FailureShowsServerMessage | modules/platform/explorer/components/add-prompt-modal.tsx:378-386 | a message naming a known server condition is shown verbatim |
| PromptModal.FailureHintsAtPrice | modules/platform/explorer/components/add-prompt-modal.tsx:387-388 | a "Price must be" message is replaced by the minimum-price hint |
| PromptModal.FailureHintsAtWallet | modules/platform/explorer/components/add-prompt-modal.tsx:389-390 | a "Wallet address" message that mentions no earlier phrase is replaced by the wallet hint, titled "Submission Failed" |
| PromptModal.FailureHintsAtDuplicate | modules/platform/explorer/components/add-prompt-modal.tsx:391-392 | an "already exists" message that mentions no earlier phrase is replaced by the duplicate hint, titled "Submission Failed" |
| PromptModal.FailureDefaultsAreDistinct | modules/platform/explorer/components/add-prompt-modal.tsx:373-394 | no message and an unrecognised message give two different default descriptions |
| PromptModal.AddPromptModal.constructor | modules/platform/explorer/components/add-prompt-modal.tsx:36-52 | the modal starts in the initial state, with one empty link row |
| PromptModal.AddPromptModal.ResetForm | modules/platform/explorer/components/add-prompt-modal.tsx:168-188 | every field returns to its initial value |
| PromptModal.AddPromptModal.ClearContent | modules/platform/explorer/components/add-prompt-modal.tsx:169-173 | clears name, prompt, description, tags and categories and nothing else |
| PromptModal.AddPromptModal.ClearProgress | modules/platform/explorer/components/add-prompt-modal.tsx:174-181 | clears the loading, redirecting and validating flags and nothing else |
| PromptModal.AddPromptModal.ClearPricing | modules/platform/explorer/components/add-prompt-modal.tsx:176-183 | makes the listing free and clears price, wallet, SOL price and the converting flag, and nothing else |
| PromptModal.AddPromptModal.ClearLinks | modules/platform/explorer/components/add-prompt-modal.tsx:179-180 | leaves one empty link row and no link error, and nothing else |
| PromptModal.AddPromptModal.AddLink | modules/platform/explorer/components/add-prompt-modal.tsx:82-84 | appends one empty link and changes nothing else |
| PromptModal.AddPromptModal.RemoveLink | modules/platform/explorer/components/add-prompt-modal.tsx:86-90 | removes the indexed link unless it is the only one, so a link row always remains |
| PromptModal.AddPromptModal.UpdateLink | modules/platform/explorer/components/add-prompt-modal.tsx:92-107 | replaces the named field of the indexed link and sets the link error as the edit's validation reports |
| PromptModal.AddPromptModal.BeginUsdToSol | modules/platform/explorer/components/add-prompt-modal.tsx:122-128 | an empty or non-numeric price clears the SOL price without a lookup; otherwise the converting flag is set |
| PromptModal.AddPromptModal.FinishUsdToSol | modules/platform/explorer/components/add-prompt-modal.tsx:129-138 | a quote gives the SOL price whose product with the quote is the USD price; a failed lookup clears it; the converting flag is cleared either way |
| PromptModal.AddPromptModal.ConvertUsdToSol | modules/platform/explorer/components/add-prompt-modal.tsx:122-139 | with nothing to convert or a failed lookup the SOL price is cleared; after a successful lookup it is the SOL amount whose product with the quote is the USD price; the converting flag is cleared after a lookup and unchanged otherwise |
| PromptModal.AddPromptModal.Submit | modules/platform/explorer/components/add-prompt-modal.tsx:218-337 | returns the decision for the current state; once the checks before the links pass it sets the link error to "" or to the validator's error ("Invalid links" when it gives none); sets loading when it proceeds and changes nothing else |
| PromptModal.AddPromptModal.AddSucceeded | modules/platform/explorer/components/add-prompt-modal.tsx:338-369 | shows the success toast; with an id it starts redirecting to `/prompt/<id>`, without one it resets the form |
| PromptModal.AddPromptModal.RedirectTimedOut | modules/platform/explorer/components/add-prompt-modal.tsx:356-363 | clears the redirecting flag and shows the "Taking longer than expected?" toast |
| PromptModal.AddPromptModal.AddFailed | modules/platform/explorer/components/add-prompt-modal.tsx:370-408 | shows the failure toast for the message and clears the loading and redirecting flags |
| AgentModal.LocalGate | modules/platform/explorer/components/add-agent-modal.tsx:153-160 | the local check passes exactly when `validateAll` returned a truthy value |
| AgentModal.AgentProceedsIffAcceptable | modules/platform/explorer/components/add-agent-modal.tsx:143-238 | the agent is sent exactly when nothing is validating or pending, the local check returned truthy, and the content checks pass |
| AgentModal.EntryChecksComeFirst | modules/platform/explorer/components/add-agent-modal.tsx:144-160 | validating or pending halts with the wait toast, a falsy local result with "Please fix the errors in the form", and a throw silently |
| AgentModal.FreeAgentIgnoresEligibility | modules/platform/explorer/components/add-agent-modal.tsx:179-205 | for a free agent the eligibility query has no effect on the decision |
| AgentModal.SentAgentShape | modules/platform/explorer/components/add-agent-modal.tsx:207-237 | a sent agent carries normalised tags with the same entries as the field, and price 0 with no wallet when free or the parsed price and the wallet when paid |
| AgentModal.AgentApiFailureIff | modules/platform/explorer/components/add-agent-modal.tsx:258-274 | a message is an API failure exactly when it mentions "Fallback validation:", or mentions "API request failed" or "temporarily unavailable" without "Content quality score" or "not eligible" |
| AgentModal.AgentFailureToast | modules/platform/explorer/components/add-agent-modal.tsx:252-283 | the failure toast shows the message or "An error has occurred", titled "Validation Service Issue" exactly for API failures and "Submission Failed" otherwise |
| AgentModal.AddAgentModal.constructor | modules/platform/explorer/components/add-agent-modal.tsx:40-52 | the modal starts in the initial state |
| AgentModal.AddAgentModal.Submit | modules/platform/explorer/components/add-agent-modal.tsx:143-238 | returns the decision for the current state and sets loading when it proceeds, changing nothing else |
| AgentModal.AddAgentModal.AddSucceeded | modules/platform/explorer/components/add-agent-modal.tsx:239-251 | shows the success toast and clears name, code, description and tags only |
| AgentModal.AddAgentModal.AddFailed | modules/platform/explorer/components/add-agent-modal.tsx:252-285 | shows the failure toast for the message and clears the loading flag only |
| AgentModal.AddAgentModal.BeginSolToUsd | modules/platform/explorer/components/add-agent-modal.tsx:80-86 | an empty or non-numeric price clears the USD price without a lookup; otherwise the converting flag is set |
| AgentModal.AddAgentModal.FinishSolToUsd | modules/platform/explorer/components/add-agent-modal.tsx:87-95 | stores the looked-up USD price, or none on failure, and clears the converting flag |
| AgentModal.AddAgentModal.ConvertPriceToUsd | modules/platform/explorer/components/add-agent-modal.tsx:80-96 | the USD price is the lookup's result when there is something to convert and none otherwise; the converting flag is cleared after a lookup and unchanged otherwise |
| AgentModal.AddAgentModal.BeginCodeValidation | modules/platform/explorer/components/add-agent-modal.tsx:350-354 | the code is sent for validation exactly when its trimmed length is at least 5, and then the validating flag is set |
| AgentModal.AddAgentModal.FinishCodeValidation | modules/platform/explorer/components/add-agent-modal.tsx:355-357 | clears the validating flag only |
| AgentModal.AddAgentModal.CodeBlur | modules/platform/explorer/components/add-agent-modal.tsx:350-358 | the blur sends the code exactly when its trimmed length is at least 5; the validating flag ends cleared when the code was sent and unchanged otherwise |

## Left out

- Helpers.CalculateTrialEndUnixTimestamp: the trial period is an integer number of days; a fractional period is not modelled.
- Helpers.FormatSpentTime: the duration is an integer number of seconds. A fractional duration (0.5 s reads "0.5 second" in JavaScript) is not modelled.
- Helpers.CommaSeparatedGroupsDigits: covers non-negative integers only. Negative numbers, fractions and exponent notation from `Number.prototype.toString` are not modelled.
- Helpers.MakeUrlSubstitutes: the data is a map from strings to strings. Non-string values and keys inherited from `Object.prototype` are not modelled.
- Categories.ExtractCategories: the group keys are an ordinary map. `__proto__` and other prototype keys of the JavaScript object are not modelled. An agent that is itself `null` is not modelled; an agent whose tags are missing or empty is.
- String lengths and order are counted in Unicode code points, while JavaScript counts UTF-16 code units. This affects the tag and field length limits, `getTruncatedString` and the category sort. `toLowerCase` is modelled on ASCII letters only.
- The numbers are exact reals and integers; floating-point rounding of the costs and of the USD/SOL conversion is not modelled.
- Pricing.NightTimeByTimeOfDay: the runtime's local timezone is assumed to cancel out as the code intends. Daylight-saving time is not modelled.
- The current time, the environment variables, `encodeURIComponent`, `parseFloat`, the SOL price oracle, `validateLinksArray` and `validateAll` are inputs. Their own behaviour is not part of this model.
- The remote mutations (adding a tool, prompt or agent; the content check) and the eligibility query are inputs. Their pending, data and error states are what the handlers read.
- `useMarketplaceValidation` (the deferred field validator) is not part of this model. The modals see only what `validateAll` returns.
- PromptModal.AddPromptModal.FinishUsdToSol: requires a positive quote. A zero or negative quote would give Infinity or a negative price in JavaScript.
- PromptModal.AddPromptModal.UpdateLink: requires an index in range. Out of range, JavaScript throws a TypeError.
- PromptModal.AddPromptModal.UpdateLink: `updateLink` copies the array but mutates the shared link object in place. The model treats links as values, so that aliasing is not modelled.
- The placeholder `useCases` and `requirements` sent with each request are constants and are not part of the modelled requests.
- Image upload and deletion, `onClose`, `onAddSuccessfully`, `router.push` (returned as a path), the `reset()` calls on the mutations and the validator, and the effects that reset a modal when it closes are not modelled.
- The timers are not modelled. The 8-second redirect timeout is the separate method `RedirectTimedOut`, and the debounced remote checks are left out.
- Overlapping price conversions can finish out of order; the model runs each conversion's start and finish in sequence.
- Field setters (`onChange` handlers) are plain assignments and are not modelled as methods. The rendering and the submit button's label and disabled state are not modelled.
- React batches `useState` updates; the model applies them in order. That gives the same final state because no handler reads a field after writing it.
