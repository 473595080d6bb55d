# Mohaeng-AI itinerary core, modelled in Dafny

Mohaeng-AI is the AI service of a travel-planning product. It builds a
day-by-day roadmap for a trip, edits an existing itinerary through a chat,
and recommends destinations. This project models the deterministic core of
that service in Dafny and proves properties of the model. The language
models, the Places search, the database, the HTTP posts and the
trigonometry are parameters, so the model captures what the code does with
their answers.

The model follows the program's structure, one module per source file:

- **Roadmap generation.** `RoadmapSkeleton` covers the current and the older skeleton node:
  - the slot ranges and per-day slot targets;
  - plan validation and area warnings;
  - the tiling check of the destination segments;
  - the mapping of segment days to trip days, with the proof that a fully valid run covers days 1..N.

  The other roadmap modules:
  - `RoadmapPlaces` and `RoadmapFetch`/`RoadmapFetchProps` cover the per-slot Places search. Each slot walks a five-stage fallback chain with a hard bounding-box filter; an optional rerank then moves the selected candidate first.
  - `RoadmapFinalize` covers the final roadmap: the visit numbering, the fallback times and descriptions, and the merge of the model's details.
  - `RoadmapUtils` covers the code-fence, slot-key and search-query helpers.
- **Itinerary chat.** `ChatWorkflow` is the graph: analyze, then mutate, then cascade, then respond. Its nodes:
  - `AnalyzeIntent` turns the classification and draft into the next chat state, through its decision table, its heuristics and its JSON recovery.
  - `ChatMutate` applies REPLACE, ADD, REMOVE and MOVE with the 1..10 place bounds, dense renumbering and diff keys.
  - `ChatCascade` re-runs the visit-time policy on every edited day.
  - `ChatRespond` builds the reply.

  `ProposeVisitTime`, `VisitTimeLlm` and `VisitTimePolicy` hold the visit-time logic. `VisitTimePolicy` walks a day from its anchor time with stays, transit estimates, half-hour rounding and the midnight stop.
- **The older edit graph.** `ModifyMutate`, `ModifyCascade` and `ModifyUtils` cover the older edit graph. It allows cross-day moves, picks the search hit nearest the day's centre, and restarts an hour/minute clock at 09:00.
- **Destination recommendation.** The region graph is `RecommendTransform`, `RecommendSearch`, `RecommendRerank` and `RecommendGenerate`. `RecommendTransform` and `RecommendSearch` also cover the older nodes of `app/graph/nodes.py`. `RecommendService` is the survey worker. It normalises the model's picks to exactly five distinct candidates and posts one callback through `CallbackDelivery`.
- **Shared services.** `Config` holds the clamped settings, `TimeoutPolicy` the timeout bounds, `Geo` the bounding rectangles, `LlmRouter` the stage routing with a single fallback, and `PlaceRerank` the rerank whose returned ids always come from the candidates. `CourseSchema` and `ChatSchema` are the validators of the request and response models.
- **Helper modules.** `Wrappers`, `PyText`, `PyList` and `Itinerary` model the Python strings, lists and dicts the code relies on.

Imperative code is modelled as methods with loops. These include the policy walk, renumbering, the retry loop, result normalisation, slot targets, segment walks and the rerank application. Each method is proved equal to a specification function, and the properties are proved about that function as lemmas.

## Model

| member | source | states |
|---|---|---|
| Config.MinRating | app/core/config.py:63-70 | the rating minimum always lies in [0, 5]; a missing or unreadable value gives 4.0, an in-range value is kept, values above or below are clamped to 5 or 0 |
| Config.IntOf | app/core/config.py:74-78 | `int()` of an integer is that integer and of a float is its truncation toward zero |
| Config.MaxCandidates | app/core/config.py:72-79 | the rerank candidate limit always lies in [1, 10]; missing or unreadable input gives 5, anything else is clamped into range |
| Config.MaxCandidatesClamp | app/core/config.py:72-79 | an in-range limit is kept, and clamping a clamped limit changes nothing |
| Config.MaxCandidatesText | app/core/config.py:74-78 | a text that `int()` parses to a number in [1, 10] gives that number |
| TimeoutPolicy.NormalizeTimeout | app/core/timeout_policy.py:14-24 | the timeout is at least one second without a bound and never above the bound with one; a value already within the bounds is kept |
| TimeoutPolicy.BuildTimeoutPolicy | app/core/timeout_policy.py:39-71 | the policy nests: LLM, recommend and external timeouts never exceed the request timeout, callback and Places timeouts never exceed the external one; the request timeout is the setting (default 60) raised to one second |
| TimeoutPolicy.SettingsWithinBoundsKept | app/core/timeout_policy.py:39-71 | request and LLM settings that already respect the bounds are kept unchanged |
| TimeoutPolicy.RequestTimeoutCaps | app/core/timeout_policy.py:39-71 | a 20-second request timeout caps all the larger settings to 20 |
| TimeoutPolicy.ToRequestsTimeout | app/core/timeout_policy.py:80-85 | the connect timeout lies in [1, 5] and the read timeout is positive; above the connect time the read time is the rest of the total; a total of one second or less gives (1.0, 0.5) |
| TimeoutPolicy.SplitAddsUp | app/core/timeout_policy.py:80-85 | for two seconds or more the connect and read timeouts add up to the total |
| TimeoutPolicy.TenSeconds | app/core/timeout_policy.py:80-85 | ten seconds split into 3 for connecting and 7 for reading |
| Geo.Clamp | app/core/geo.py:18-19 | the result lies in [lo, hi], equals the value inside the range and the nearer bound outside it |
| Geo.ClampMonotone | app/core/geo.py:18-19 | clamping preserves order |
| Geo.NormaliseAxis | app/core/geo.py:31-45 | the normalised bounds are ordered and within the axis range; distinct in-range bounds are just sorted; equal bounds are widened by epsilon each way and clamped |
| Geo.NormaliseAxisSymmetric | app/core/geo.py:32-33 | the order in which the two bounds are given does not matter |
| Geo.NormaliseAxisCovers | app/core/geo.py:31-45 | every in-range value between the two given bounds is inside the normalised span |
| Geo.NewRect | app/core/geo.py:23-50 | a constructed rectangle is always normal (ordered and in range), each axis being normalised on its own |
| Geo.NewRectSymmetric | app/core/geo.py:31-33 | swapping the two corners gives the same rectangle |
| Geo.NewRectPoint | app/core/geo.py:40-45 | a point rectangle becomes the epsilon box around the point, clamped |
| Geo.ContainsCorners | app/core/geo.py:52-56 | a normal rectangle contains its four corners, boundary included |
| Geo.ToRestrictionPayload | app/core/geo.py:58-65 | the payload's low and high corners describe exactly the points the rectangle contains |
| Geo.LatMarginDeg | app/core/geo.py:83-84 | the latitude margin is never negative and is 0 for a margin of 0 km or less |
| Geo.LngMarginDeg | app/core/geo.py:83-87 | the longitude margin is never negative and is 0 for a margin of 0 km or less |
| Geo.CosLat | app/core/geo.py:85-86 | the cosine factor is never below epsilon, so the division is defined |
| Geo.FromPointsWithMarginKm | app/core/geo.py:68-94 | no points give None; otherwise the result is a normal rectangle |
| Geo.FromPointsContains | app/core/geo.py:68-94 | every valid input point lies in the rectangle built from the points |
| Geo.NegativeMarginIsZero | app/core/geo.py:83 | a negative margin builds the same rectangle as no margin |
| LlmRouter.QualityStages | app/core/llm_router.py:43-60 | exactly intent structuring, the roadmap skeleton and the roadmap summary run on the quality tier |
| LlmRouter.ResolveModel | app/core/llm_router.py:75-87 | with routing off, the stripped model name and no tier; with it on, the stage's tier, and that tier's model unless it is blank, in which case the fallback model |
| LlmRouter.ResolveTimeout | app/core/llm_router.py:109-112 | the timeout is at least one second and defaults to the policy's LLM timeout |
| LlmRouter.Invoke | app/core/llm_router.py:168-255 | one or two model calls, the first with the resolved model |
| LlmRouter.InvokeFallback | app/core/llm_router.py:184-255 | a second call happens iff the first failed with routing on and a model other than the fallback; it uses the fallback model with the same settings and its reply or failure is the outcome; otherwise the first call's outcome stands |
| LlmRouter.NoRoutingNoRetry | app/core/llm_router.py:201-213 | with routing off there is exactly one call, with the base model, and no retry |
| LlmRouter.ClientsTimeout | app/core/llm_router.py:90-118 | every client gets the resolved timeout (at least one second), the temperature (default 0) and the API key |
| VisitTimeLlm.LastWinsSpec | app/core/visit_time_llm.py:74-84 | in a dict built by later-wins assignment, a key is present iff some kept item has it, and it holds the last such item's value |
| VisitTimeLlm.LastWinsValues | app/core/visit_time_llm.py:74-84 | every value in the dict comes from a kept item with that key |
| VisitTimeLlm.SlotTime | app/core/visit_time_llm.py:79 | a slot's time is stripped, and a missing time reads as blank |
| VisitTimeLlm.DayMapSpec | app/core/visit_time_llm.py:77-81 | a visit sequence is in the day map iff some slot with it has a non-blank time, and it maps to the last such slot's stripped time |
| VisitTimeLlm.DayMapTimes | app/core/visit_time_llm.py:79-81 | every time in a day map is non-blank and stripped |
| VisitTimeLlm.PlanMapSpec | app/core/visit_time_llm.py:74-84 | a day is in the proposal map iff some day with that number has a non-empty day map, and then it maps to the last such day's map |
| VisitTimeLlm.BuildDayMap | app/core/visit_time_llm.py:77-81 | the inner loop computes the day map |
| VisitTimeLlm.ToProposalMap | app/core/visit_time_llm.py:74-84 | the outer loop computes the proposal map of the plan |
| VisitTimeLlm.HintOf | app/core/visit_time_llm.py:61 | the section hint is the place's non-empty section, else its section hint |
| VisitTimeLlm.InputPlaceOf | app/core/visit_time_llm.py:58-66 | the prompt record of a place carries its sequence, name, hint, time, address and coordinates |
| VisitTimeLlm.InputDayOf | app/core/visit_time_llm.py:53-69 | the prompt record of a day keeps its number, date and every place in order |
| VisitTimeLlm.BuildInputDays | app/core/visit_time_llm.py:50-71 | one prompt record per day, in order |
| VisitTimeLlm.ProposeVisitTimes | app/core/visit_time_llm.py:87-143 | no days, no places, a failed call or an unparsable reply all give `{}` |
| VisitTimeLlm.NoCallWithoutPlaces | app/core/visit_time_llm.py:94-97 | without a day that has places, the reply and the parser play no part and the result is `{}` |
| VisitTimeLlm.ProposalsWellFormed | app/core/visit_time_llm.py:74-84 | every proposal is for a day with a non-empty map whose times are non-blank and stripped |
| CallbackDelivery.RetryConfigOf | app/services/callback_delivery.py:38-42 | at least one attempt (1 + max(0, retries)); 0 <= base delay <= max delay, each setting kept when it already satisfies that |
| CallbackDelivery.BackoffBounds | app/services/callback_delivery.py:90 | each back-off lies between the base and the maximum delay and never shrinks from one attempt to the next |
| CallbackDelivery.DeliverFromSpec | app/services/callback_delivery.py:46-106 | the attempt loop from a given attempt posts at most up to the last attempt; each earlier post failed retryably and was followed by its back-off; delivery iff the last post succeeded; a failed run ended on the last attempt or a permanent error |
| CallbackDelivery.DeliverSpec | app/services/callback_delivery.py:29-106 | a whole delivery makes between 1 and max-attempts posts and one sleep fewer, with the same success and failure characterisation |
| CallbackDelivery.NoRetryOnPermanentError | app/services/callback_delivery.py:75-88 | a first post failing permanently is the only post and nothing is slept |
| CallbackDelivery.ClientErrorsPermanent | app/services/callback_delivery.py:17-26 | a 400 and other errors are permanent; 429, 5xx and an HTTP error without status are retryable |
| CallbackDelivery.SucceedsAfterRetries | app/services/callback_delivery.py:46-104 | two connection failures then a success, with two retries from 0.5 s: three posts and sleeps of 0.5 s and 1.0 s |
| CallbackDelivery.PostCallbackWithRetry | app/services/callback_delivery.py:29-106 | the loop posts with the `to_requests_timeout` pair and behaves as the delivery specification |
| PlaceRerank.TrimRoadmapSlots | app/services/place_rerank_service.py:40-53 | every slot is kept with its other fields, its candidates cut to a prefix of at most `max_candidates` |
| PlaceRerank.TrimChatCandidates | app/services/place_rerank_service.py:56-57 | the result is a prefix of the candidates, of length `max_candidates` when there are that many |
| PlaceRerank.IdsBySlot | app/services/place_rerank_service.py:108-119 | every key is non-blank and maps to a non-empty id set |
| PlaceRerank.IdsBySlotFrom | app/services/place_rerank_service.py:108-119 | each id set is that of a slot carrying the key |
| PlaceRerank.SelectedValid | app/services/place_rerank_service.py:121-130 | every selected pair names an offered slot and one of its ids |
| PlaceRerank.SelectedComplete | app/services/place_rerank_service.py:121-130 | the slot of every valid choice is selected |
| PlaceRerank.BuildCandidateIds | app/services/place_rerank_service.py:108-119 | the loop computes the id sets by slot |
| PlaceRerank.SelectChoices | app/services/place_rerank_service.py:121-130 | the loop computes the validated selection |
| PlaceRerank.SelectPlaceIdsForDay | app/services/place_rerank_service.py:60-131 | no slots give `{}`; a failed call or reply gives None; a result, when there is one, is non-empty |
| PlaceRerank.SlotIdsMember | app/services/place_rerank_service.py:113-117 | a slot id is the stripped id of one of its candidates |
| PlaceRerank.DaySelectionOffered | app/services/place_rerank_service.py:73-131 | every id returned for a day is the stripped id of a trimmed candidate of a slot with that key |
| PlaceRerank.SelectPlaceIdForChat | app/services/place_rerank_service.py:134-204 | no candidates give None; one candidate gives its id when non-empty; with more, the stripped reply is returned iff it is a trimmed candidate's id |
| PlaceRerank.ChatSelectionNeedsNoReply | app/services/place_rerank_service.py:143-146 | with at most one candidate the reply plays no part |
| PlaceRerank.ChatSelectionOffered | app/services/place_rerank_service.py:134-204 | the chosen id is always the id, or stripped id, of a candidate |
| VisitTimePolicy.ParseTimeToMinutes | app/core/visit_time_policy.py:48-75 | a parsed time is a minute of the day in [0, 1440); a missing or blank text gives None |
| VisitTimePolicy.ParseClock | app/core/visit_time_policy.py:61-75 | a cleaned `H:M` text parses only to a minute of the day |
| VisitTimePolicy.ClockFromParts | app/core/visit_time_policy.py:61-75 | hour and optional minute (default 0) give a minute of the day or None |
| VisitTimePolicy.AdjustHour | app/core/visit_time_policy.py:68-71 | PM adds twelve hours except to 12, 12 AM becomes 0, and without a marker the hour is unchanged |
| VisitTimePolicy.FormatHHMM | app/core/visit_time_policy.py:78-83 | the text is five characters with a colon in the middle |
| VisitTimePolicy.FormatShape | app/core/visit_time_policy.py:78-83 | the two digit pairs are the clock hour and minute |
| VisitTimePolicy.FormatIsPadded | app/core/visit_time_policy.py:81-83 | the text is the zero-padded hour, a colon and the zero-padded minute |
| VisitTimePolicy.ClockTextParses | app/core/visit_time_policy.py:48-75 | a two-digit `HH:MM` text of a valid hour and minute parses to hour * 60 + minute |
| VisitTimePolicy.ParseDigitsColonDigits | app/core/visit_time_policy.py:48-75 | `digits:digits` without AM/PM parses to hour * 60 + minute when both are in range |
| VisitTimePolicy.FormatParses | app/core/visit_time_policy.py:48-83 | parsing what the formatter wrote gives back max(0, t) modulo 1440 |
| VisitTimePolicy.FormattedParses | app/core/visit_time_policy.py:48-83 | a formatted minute of the day parses back to itself |
| VisitTimePolicy.ClockMinute | app/core/visit_time_policy.py:82 | the minute lies in [0, 60) |
| VisitTimePolicy.ClockHour | app/core/visit_time_policy.py:81 | the hour lies in [0, 24) |
| VisitTimePolicy.SectionEnMonotone | app/core/visit_time_policy.py:86-99 | a later time of the day never gets an earlier section label, and every label is a key of the section map |
| VisitTimePolicy.ParseStartMinutes | app/core/visit_time_policy.py:102-106 | the start is a minute of the day, the configured one when it parses |
| VisitTimePolicy.NormalizeOutputMode | app/core/visit_time_policy.py:109-115 | the mode is SECTION_EN iff the stripped, upper-cased text says so; anything else is HHMM |
| VisitTimePolicy.BuildConfig | app/core/visit_time_policy.py:118-134 | the configuration is always valid, and each setting already in range is kept |
| VisitTimePolicy.TransitBounds | app/core/visit_time_policy.py:148-158 | a transit between identical coordinates costs exactly the base minutes, any other at least the base |
| VisitTimePolicy.SectionMinutes | app/core/visit_time_policy.py:161-165 | a label has a time iff its stripped, upper-cased form is a section key |
| VisitTimePolicy.SectionTimesParse | app/core/visit_time_policy.py:11-18 | every time of the section map parses |
| VisitTimePolicy.ResolveAnchorMinutes | app/core/visit_time_policy.py:168-182 | without a proposal, an anchor is a minute of the day |
| VisitTimePolicy.AnchorPriority | app/core/visit_time_policy.py:168-182 | a proposal wins, then a parsable visit time, then a section label in the visit time, then the section or section hint |
| VisitTimePolicy.CeilToStep | app/core/visit_time_policy.py:191-197 | the result is the least multiple of 30 at or above max(0, t) |
| VisitTimePolicy.CeilIdempotent | app/core/visit_time_policy.py:191-197 | rounding up twice is rounding up once |
| VisitTimePolicy.StampOverflow | app/core/visit_time_policy.py:264-267 | every visit from the overflowing one on gets the overflow text and loses its section fields; the earlier ones are unchanged |
| VisitTimePolicy.NextTime | app/core/visit_time_policy.py:219-260 | one loop step computes the visit's time by the recurrence and the warnings that step adds |
| VisitTimePolicy.WalkDay | app/core/visit_time_policy.py:219-279 | the loop stamps every visit as the recurrence says and collects exactly the day's warnings |
| VisitTimePolicy.ApplyVisitTimePolicy | app/core/visit_time_policy.py:200-279 | the places and warnings after the policy are those of the recurrence |
| VisitTimePolicy.PolicyEmpty | app/core/visit_time_policy.py:209-210 | an empty day comes back unchanged without warnings |
| VisitTimePolicy.StopFromSpec | app/core/visit_time_policy.py:262-268 | the walk stops at the first visit whose time reaches midnight; every visit before it fits the day |
| VisitTimePolicy.AssignedBounds | app/core/visit_time_policy.py:219-260 | each assigned time is the least non-negative multiple of 30 at or above both the base and the anchor |
| VisitTimePolicy.NoCoordinatesNoTransit | app/core/visit_time_policy.py:225-248 | without all four coordinates the base is the previous time plus the stay |
| VisitTimePolicy.TransitAtLeastBase | app/core/visit_time_policy.py:232-240 | a transit estimate is at least the base minutes |
| VisitTimePolicy.TimesAdvance | app/core/visit_time_policy.py:219-260 | each visit starts at least a stay after the one before it |
| VisitTimePolicy.TimesIncrease | app/core/visit_time_policy.py:219-260 | the times of a day strictly increase |
| VisitTimePolicy.PolicyStamps | app/core/visit_time_policy.py:262-272 | each visit before the stop gets its formatted time, each from it on the overflow text; sections are dropped and nothing else changes |
| VisitTimePolicy.PolicyTimesParse | app/core/visit_time_policy.py:270 | in HHMM mode every stamped time parses back to the assigned minute |
| VisitTimePolicy.StepWarningsCases | app/core/visit_time_policy.py:241-275 | a step warns about a long transit iff the transit exceeds the threshold, naming both places and the minutes, and about midnight iff its time reaches 1440 |
| VisitTimePolicy.MidnightWarnedOnce | app/core/visit_time_policy.py:262-268 | a run warns about midnight at most once, exactly when it stops early, and that warning is the last |
| ProposeVisitTime.TargetDaysOf | app/graph/chat/nodes/propose_visit_time.py:31-35 | only named days are sent, at most one per itinerary day, without a date |
| ProposeVisitTime.TargetDaysAppend | app/graph/chat/nodes/propose_visit_time.py:31-35 | the selection keeps itinerary order: selecting from a concatenation concatenates the selections |
| ProposeVisitTime.NamedDaySent | app/graph/chat/nodes/propose_visit_time.py:32-35 | every named day of the itinerary is sent with all its places |
| ProposeVisitTime.TargetDaysPlaces | app/graph/chat/nodes/propose_visit_time.py:32-35 | each sent day carries the places of an itinerary day with its number |
| ProposeVisitTime.TargetDays | app/graph/chat/nodes/propose_visit_time.py:31-35 | the loop computes the target days |
| ProposeVisitTime.ProposeNode | app/graph/chat/nodes/propose_visit_time.py:21-38 | without an itinerary only the error is set; otherwise only the proposals change |
| ProposeVisitTime.ProposeVisitTimeNode | app/graph/chat/nodes/propose_visit_time.py:21-38 | the node with its loops computes the specification |
| ProposeVisitTime.NoPlacesNoProposals | app/graph/chat/nodes/propose_visit_time.py:27-37 | when no itinerary day has places the stored proposal map is empty |
| CourseSchema.MemberOf | app/schemas/course.py:40-51 | an enumeration field validates iff it is present and a member |
| CourseSchema.PeopleCount | app/schemas/course.py:43 | the party size validates iff it lies in [1, 20], and is then kept |
| CourseSchema.TravelThemes | app/schemas/course.py:45 | the theme list validates iff it has at least one element |
| CourseSchema.EndDate | app/schemas/course.py:53-59 | the end date validates iff it is not before a start date that validated |
| CourseSchema.ValidateCourseRequest | app/schemas/course.py:21-67 | a validated request has ordered dates, 1 to 20 people and at least one theme |
| CourseSchema.ValidateCourseRequestSpec | app/schemas/course.py:21-67 | validation accepts exactly the raw requests whose fields pass all constraints, and the result carries the raw values |
| CourseSchema.DumpValidateRoundTrip | app/schemas/course.py:21-67 | a request satisfying the constraints survives a dump and a validation unchanged |
| CourseSchema.RejectedRequests | app/schemas/course.py:43-59 | an end before the start, or a party of 0 or 21, is rejected |
| CourseSchema.ValidateCoursePlace | app/schemas/course.py:70-77 | a place validates iff name, category, a visit sequence of at least 1 and a visit time are present; the place id is optional and kept |
| CourseSchema.ValidateDailyItinerary | app/schemas/course.py:80-85 | a day validates iff its number is at least 1, it has a date and every place validates; the places keep their order |
| CourseSchema.ValidatePlaces | app/schemas/course.py:85 | a place list validates iff every place does, pointwise |
| ChatSchema.ValidateMoveDestination | app/schemas/chat.py:104-116 | the validator objects iff the intent is a MOVE that needs no clarification and lacks a destination day or index |
| ChatSchema.ValidMoveHasDestination | app/schemas/chat.py:89-116 | a valid MOVE without clarification names a 1-based destination day and index |
| ChatSchema.ValidatorOnlyGuardsMove | app/schemas/chat.py:104-116 | under clarification, and for every operation but MOVE, the field bounds alone decide validity |
| ChatSchema.DefaultChatResponse | app/schemas/chat.py:119-132 | a response built from a status has no itinerary, an empty message and no diff keys |
| Itinerary.FindDay | app/graph/chat/nodes/mutate.py:56-61 | the position found is the first day with that number; None only when no day has it |
| ChatRespond.ReplyText | app/graph/chat/nodes/respond.py:84-89 | when the LLM fails the reply is never empty |
| ChatRespond.RespondNode | app/graph/chat/nodes/respond.py:53-93 | only the status and the message change, and the status is always set |
| ChatRespond.RespondMasksError | app/graph/chat/nodes/respond.py:63-70 | an error gives REJECTED with one fixed message, whatever the error text; the other fields pass through |
| ChatRespond.RespondErrorIndependent | app/graph/chat/nodes/respond.py:63-70 | the message does not depend on the error text, so it never leaks |
| ChatRespond.RespondStatusDefault | app/graph/chat/nodes/respond.py:91 | without an error the status is the incoming one, or SUCCESS when there is none |
| ChatRespond.RespondLlmFailure | app/graph/chat/nodes/respond.py:87-89 | a failed LLM call gives the change summary, or the fixed fallback when that is empty |
| ChatRespond.RespondLlmReply | app/graph/chat/nodes/respond.py:84-86 | a successful call gives its stripped text and the state keeps everything else |
| AnalyzeIntent.AddressTokens | app/graph/chat/nodes/analyze_intent.py:180-181 | every token before the first comma is non-empty and stripped |
| AnalyzeIntent.FirstEnding | app/graph/chat/nodes/analyze_intent.py:188-189 | the position found is the first token with one of the suffixes, or the end |
| AnalyzeIntent.LocalOrFirst | app/graph/chat/nodes/analyze_intent.py:194-198 | the fallback token is one of the tokens |
| AnalyzeIntent.ExtractKoreanRegionHint | app/graph/chat/nodes/analyze_intent.py:178-198 | the two scans compute the Korean hint |
| AnalyzeIntent.ScanLocalSuffix | app/graph/chat/nodes/analyze_intent.py:194-198 | the scan over the first four tokens returns the first local-suffix token, else the first token |
| AnalyzeIntent.KoreanHintShape | app/graph/chat/nodes/analyze_intent.py:178-198 | the Korean hint exists iff the address has a token, and it is non-empty and stripped |
| AnalyzeIntent.KoreanHintPrefersCity | app/graph/chat/nodes/analyze_intent.py:188-192 | when some token has a city suffix, the hint is the first such token, alone or joined with the next token |
| AnalyzeIntent.NonBlank | app/graph/chat/nodes/analyze_intent.py:215 | the pieces kept are non-blank and stripped, in order |
| AnalyzeIntent.LastCityPart | app/graph/chat/nodes/analyze_intent.py:223-235 | the city part found, scanning from the end, is one of the parts and passes every filter |
| AnalyzeIntent.FirstGeneric | app/graph/chat/nodes/analyze_intent.py:247-254 | the generic hint is one of the tokens |
| AnalyzeIntent.EnglishHintStripped | app/graph/chat/nodes/analyze_intent.py:213-237 | an English hint is non-empty and stripped |
| AnalyzeIntent.GenericHintStripped | app/graph/chat/nodes/analyze_intent.py:240-254 | a generic hint is non-empty and stripped |
| AnalyzeIntent.RegionHintStripped | app/graph/chat/nodes/analyze_intent.py:257-272 | every region hint is non-empty and stripped |
| AnalyzeIntent.FirstPlaceHintSpec | app/graph/chat/nodes/analyze_intent.py:283-287 | a day's hint is that of its first place with a hint; there is none iff no place has one |
| AnalyzeIntent.BuildDayRegionHints | app/graph/chat/nodes/analyze_intent.py:275-288 | the loop with its break computes the day hints |
| AnalyzeIntent.DayRegionHintsSpec | app/graph/chat/nodes/analyze_intent.py:275-288 | with distinct day numbers, a day has a hint iff one of its places has one, and it is the first such place's hint |
| AnalyzeIntent.DayRegionHintsKeys | app/graph/chat/nodes/analyze_intent.py:278-286 | every key is the number of some day |
| AnalyzeIntent.DayRegionHintsStripped | app/graph/chat/nodes/analyze_intent.py:284-286 | every stored hint is non-empty and stripped |
| AnalyzeIntent.EnsureSearchKeywordContainsRegion | app/graph/chat/nodes/analyze_intent.py:299-317 | only the search keyword can change |
| AnalyzeIntent.KeywordChangedOnlyWhen | app/graph/chat/nodes/analyze_intent.py:303-317 | only a REPLACE or ADD whose day has a hint not already in the keyword changes, to "hint keyword" |
| AnalyzeIntent.KeywordHasRegion | app/graph/chat/nodes/analyze_intent.py:299-317 | afterwards a non-blank REPLACE/ADD keyword of a day with a hint contains that hint, ignoring case |
| AnalyzeIntent.KeywordGuardIdempotent | app/graph/chat/nodes/analyze_intent.py:299-317 | applying the guard twice is applying it once |
| AnalyzeIntent.AnyContained | app/graph/chat/nodes/analyze_intent.py:338 | true iff some word occurs in the text |
| AnalyzeIntent.HasModificationKeyword | app/graph/chat/nodes/analyze_intent.py:320-338 | true iff one of the listed keywords occurs in the lower-cased query |
| AnalyzeIntent.LowerContains | app/graph/chat/nodes/analyze_intent.py:337-338 | lower-casing keeps an occurrence |
| AnalyzeIntent.ModificationKeywordAnyCase | app/graph/chat/nodes/analyze_intent.py:320-338 | a keyword written in any letter case is found |
| AnalyzeIntent.ClassifyIntentRoute | app/graph/chat/nodes/analyze_intent.py:411-451 | a parsed classifier reply is used as it is |
| AnalyzeIntent.FallbackOrder | app/graph/chat/nodes/analyze_intent.py:426-451 | when the classifier fails the heuristics apply in order: day or date change rejected, whole-day delete rejected, ambiguous delete asked about, keyword, general chat |
| AnalyzeIntent.FirstAt | app/graph/chat/nodes/analyze_intent.py:466 | the position is the first `{` or the end |
| AnalyzeIntent.LastAt | app/graph/chat/nodes/analyze_intent.py:466 | the position is the last `}` or -1 |
| AnalyzeIntent.BraceSpan | app/graph/chat/nodes/analyze_intent.py:466 | a match starts with `{` and ends with `}` |
| AnalyzeIntent.BraceSpanSpec | app/graph/chat/nodes/analyze_intent.py:466 | the regex matches iff some `{` precedes some `}`, and the match runs from the first `{` to the last `}` |
| AnalyzeIntent.ExtractJsonObject | app/graph/chat/nodes/analyze_intent.py:454-474 | only a JSON object is ever returned |
| AnalyzeIntent.ExtractJsonObjectOrder | app/graph/chat/nodes/analyze_intent.py:454-474 | a blank reply gives nothing; a reply that parses whole is used (if an object); the brace span is only tried after that fails |
| AnalyzeIntent.ParseModificationIntent | app/graph/chat/nodes/analyze_intent.py:477-506 | a failed model call gives no draft |
| AnalyzeIntent.OrDefault | app/graph/chat/nodes/analyze_intent.py:563-570 | with a non-empty default the result is non-empty |
| AnalyzeIntent.Decide | app/graph/chat/nodes/analyze_intent.py:523-583 | the itinerary, query, modified itinerary, diff keys and warnings are left as they were |
| AnalyzeIntent.DraftPath | app/graph/chat/nodes/analyze_intent.py:551-583 | the same fields are left as they were |
| AnalyzeIntent.AnalyzeIntentNode | app/graph/chat/nodes/analyze_intent.py:509-583 | the same fields are left as they were by the whole node |
| AnalyzeIntent.AnalyzeIntentStep | app/graph/chat/nodes/analyze_intent.py:509-583 | the node builds the hints by its loop and computes the specification |
| AnalyzeIntent.AnalyzeMissingInput | app/graph/chat/nodes/analyze_intent.py:515-516 | a missing itinerary or query sets only the error |
| AnalyzeIntent.AnalyzeRouteRows | app/graph/chat/nodes/analyze_intent.py:523-549 | general chat sets only the intent type; a whole-day delete is rejected; an unscoped delete is asked about; a day-level or date-change request is rejected |
| AnalyzeIntent.AnalyzeDraftRows | app/graph/chat/nodes/analyze_intent.py:551-583 | no draft is an error; a clarification or invalid draft is stored and asked about with its reasoning; any other is stored as the validated intent after the keyword guard |
| AnalyzeIntent.AnalyzeStoresValidIntent | app/graph/chat/nodes/analyze_intent.py:563-583 | an intent the node newly stores is either asked about with a non-empty message or valid, final and stored with status and error unchanged |
| AnalyzeIntent.DecideStoresValidIntent | app/graph/chat/nodes/analyze_intent.py:523-583 | the same holds for the route-and-draft step |
| AnalyzeIntent.DraftOutcomeStoresValidIntent | app/graph/chat/nodes/analyze_intent.py:563-583 | the same holds for the draft rows |
| ChatMutate.DayPoints | app/graph/chat/nodes/mutate.py:25-34 | the loop collects the day's points |
| ChatMutate.DayPointsOfSpec | app/graph/chat/nodes/mutate.py:25-34 | every place with both coordinates contributes its point; there are none iff no place has both |
| ChatMutate.DayBbox | app/graph/chat/nodes/mutate.py:37-38 | the day has no box iff no place has coordinates |
| ChatMutate.DayBboxContainsDay | app/graph/chat/nodes/mutate.py:37-38 | every place of the day with valid coordinates lies in the day's box |
| ChatMutate.PlaceToCoursePlace | app/graph/chat/nodes/mutate.py:41-53 | the new visit carries the hit's id, name, address, URL and coordinates, the given sequence, a blank time, no section, and a description starting with the name |
| ChatMutate.FirstIndexOf | app/graph/chat/nodes/mutate.py:65-68 | the position found is the first result with the id; None only when no result has it |
| ChatMutate.ReorderResultsByPlaceId | app/graph/chat/nodes/mutate.py:64-71 | the result is a permutation that moves the first result with the id to the front, the others in order; unchanged when absent or already first |
| ChatMutate.InBox | app/graph/chat/nodes/mutate.py:75 | the kept results are exactly those inside the box, with their multiplicities |
| ChatMutate.InBoxAppend | app/graph/chat/nodes/mutate.py:75 | filtering a concatenation concatenates the filtered parts, so the order is kept |
| ChatMutate.HardFilterByBbox | app/graph/chat/nodes/mutate.py:74-76 | the kept results are the in-box ones and the count dropped makes up the rest |
| ChatMutate.SuggestAlternativeKeyword | app/graph/chat/nodes/mutate.py:287-298 | a suggestion is non-empty and differs from the keyword; a failed call gives none |
| ChatMutate.Ranked | app/graph/chat/nodes/mutate.py:265-274 | applying the rerank choice only permutes the results |
| ChatMutate.SearchPlace | app/graph/chat/nodes/mutate.py:184-284 | no keyword fails at once; a found place is the first of non-empty results; a suggestion differs from the keyword |
| ChatMutate.SearchNoResultsExhausted | app/graph/chat/nodes/mutate.py:203-263 | asking for clarification comes only after both unrestricted searches, with and without the rating, came back empty |
| ChatMutate.SearchFoundFromResults | app/graph/chat/nodes/mutate.py:203-284 | a found place is one of the fallback chain's results, inside the day's box when the boxed search had in-box hits |
| ChatMutate.SearchHonoursRerank | app/graph/chat/nodes/mutate.py:265-284 | a valid rerank choice naming one of the results is the place taken |
| ChatMutate.MoveDestination | app/graph/chat/nodes/mutate.py:150-155 | the clamped destination is a valid slot |
| ChatMutate.MutateNode | app/graph/chat/nodes/mutate.py:79-181 | the current itinerary, intent, query, warnings and intent type are never changed |
| ChatMutate.ApplyReplace | app/graph/chat/nodes/mutate.py:107-112 | the REPLACE branch on the copied day computes the replace step |
| ChatMutate.ApplyAdd | app/graph/chat/nodes/mutate.py:114-129 | the ADD branch computes the add step |
| ChatMutate.ApplyRemove | app/graph/chat/nodes/mutate.py:131-140 | the REMOVE branch computes the remove step |
| ChatMutate.ApplyMove | app/graph/chat/nodes/mutate.py:142-158 | the MOVE branch computes the move step |
| ChatMutate.MovePlace | app/graph/chat/nodes/mutate.py:150-157 | pop, clamped insert and renumbering give the moved list at the clamped destination |
| ChatMutate.Mutate | app/graph/chat/nodes/mutate.py:79-181 | the node, editing the copied day step by step, computes the specification |
| ChatMutate.ReplaceOutcome | app/graph/chat/nodes/mutate.py:107-112 | a replace step either stops untouched or edits exactly the named day |
| ChatMutate.AddOutcome | app/graph/chat/nodes/mutate.py:114-129 | an add step either stops untouched or edits exactly the named day |
| ChatMutate.RemoveOutcome | app/graph/chat/nodes/mutate.py:131-140 | a remove step either stops untouched or edits exactly the named day |
| ChatMutate.MoveOutcome | app/graph/chat/nodes/mutate.py:142-158 | a move step either stops untouched or edits exactly the named day |
| ChatMutate.NodeSteps | app/graph/chat/nodes/mutate.py:84-158 | a targeted request with a usable index goes to its operation's step |
| ChatMutate.MutateOutcome | app/graph/chat/nodes/mutate.py:79-181 | every run either stops with the itinerary untouched or edits exactly the named day |
| ChatMutate.EditedRequest | app/graph/chat/nodes/mutate.py:84-101 | an edit happens only for a targeted request whose index names a place (any position for ADD) |
| ChatMutate.AddEdit | app/graph/chat/nodes/mutate.py:114-129 | an ADD that edited had room and a position in 1..N+1, and inserted the top result there |
| ChatMutate.MutateAdd | app/graph/chat/nodes/mutate.py:114-129 | a completed ADD puts the searched place at the position, keeps the others in order and renumbers the day |
| ChatMutate.RemoveEdit | app/graph/chat/nodes/mutate.py:131-140 | a REMOVE that edited had more than one place and dropped the named one, renumbered |
| ChatMutate.MutateRemove | app/graph/chat/nodes/mutate.py:131-140 | a completed REMOVE leaves one place fewer, the others in order and numbered 1..N |
| ChatMutate.MoveEdit | app/graph/chat/nodes/mutate.py:142-158 | a MOVE that edited stayed in the day and moved the place to the clamped destination |
| ChatMutate.MutateMove | app/graph/chat/nodes/mutate.py:142-158 | a completed same-day MOVE keeps the day's places, the moved one at the clamped destination and the others in order, renumbered |
| ChatMutate.ReplaceEdit | app/graph/chat/nodes/mutate.py:107-112 | a REPLACE that edited overwrote the named slot with the top result |
| ChatMutate.MutateReplace | app/graph/chat/nodes/mutate.py:107-112 | a completed REPLACE changes only the named slot, to the top result numbered with the target index |
| ChatMutate.MutateRejections | app/graph/chat/nodes/mutate.py:114-149 | a full day for ADD, a last place for REMOVE and a cross-day MOVE are rejected with their summaries and leave the itinerary and diff keys alone |
| ChatMutate.MutateErrors | app/graph/chat/nodes/mutate.py:84-101 | a missing intent or itinerary, a missing day and a missing index each set only their error |
| ChatMutate.MutateNeedsKeyword | app/graph/chat/nodes/mutate.py:186-188 | a REPLACE or ADD without a keyword fails before searching, with no results |
| ChatMutate.MutateKeepsDaySizes | app/graph/chat/nodes/mutate.py:115-138 | an edit keeps every day between 1 and 10 places |
| ChatCascade.DaysNamedSpec | app/graph/chat/nodes/cascade.py:18-28 | a day is collected iff some key names it |
| ChatCascade.ModifiedDaysOfSpec | app/graph/chat/nodes/cascade.py:18-28 | a day is modified iff some diff key names it as `day<N>_…` |
| ChatCascade.ExtractModifiedDays | app/graph/chat/nodes/cascade.py:18-28 | the loop computes the modified days |
| ChatCascade.DiffKeyDay | app/graph/modify/utils.py:25-27 | the key an edit writes names its day |
| ChatCascade.ModifiedDaysOfDiffKey | app/graph/chat/nodes/cascade.py:18-28 | the modified days of one built diff key are exactly its day |
| ChatCascade.ModifiedDaysIgnoresMalformed | app/graph/chat/nodes/cascade.py:23-27 | a key naming no day adds nothing |
| ChatCascade.ResolveOutputMode | app/graph/chat/nodes/cascade.py:31-36 | an invalid preference gives none; PLANNED gives HH:MM and every other preference section labels |
| ChatCascade.CascadedDay | app/graph/chat/nodes/cascade.py:61-77 | a day keeps its number, date and place count, and a day not due is unchanged |
| ChatCascade.DayWarningTexts | app/graph/chat/nodes/cascade.py:61-78 | a day not due adds no warnings |
| ChatCascade.CascadedDays | app/graph/chat/nodes/cascade.py:61-78 | every day, in order, is the cascaded day |
| ChatCascade.CascadeOneDay | app/graph/chat/nodes/cascade.py:62-78 | one pass computes the day's new places and warnings |
| ChatCascade.CascadeLoop | app/graph/chat/nodes/cascade.py:61-78 | the loop computes all cascaded days and appends their warnings to the earlier ones |
| ChatCascade.CascadeNode | app/graph/chat/nodes/cascade.py:39-91 | diff keys, intent and current itinerary never change; no modified itinerary is an error; without an error the itinerary is present and status and error are kept |
| ChatCascade.Cascade | app/graph/chat/nodes/cascade.py:39-91 | the node, writing into the itinerary in place, computes the specification |
| ChatCascade.CascadeStops | app/graph/chat/nodes/cascade.py:44-54 | no itinerary sets only the error; an invalid preference is rejected with its error and nothing recomputed |
| ChatCascade.CascadeRecomputes | app/graph/chat/nodes/cascade.py:56-91 | days not named or empty are kept, named ones are recomputed by the policy, and the policy's warnings follow the earlier ones; a schema failure is a rejection that still carries them |
| ChatCascade.CascadeWarningsAppend | app/graph/chat/nodes/cascade.py:61-78 | the loop's warnings are the recomputed days' warnings in day order |
| ChatCascade.CascadeOneKey | app/graph/chat/nodes/cascade.py:56-67 | a single diff key recomputes exactly the day it names, when it has places |
| ChatWorkflow.RouteAfterIntent | app/graph/chat/workflow.py:10-16 | to `respond` iff there is an error or a clarification question, else to `mutate` |
| ChatWorkflow.RouteAfterMutate | app/graph/chat/workflow.py:19-25 | to `respond` iff there is an error or a clarification question, else to `cascade` |
| ChatWorkflow.EdgesGoForward | app/graph/chat/workflow.py:37-41 | every edge goes forward in the node order and END has no successor |
| ChatWorkflow.NoCycle | app/graph/chat/workflow.py:37-41 | no path leads from a node back to itself |
| ChatWorkflow.InitialState | app/services/chat_service.py:15-20 | a fresh request sets only the itinerary and the query |
| ChatWorkflow.AnalyzeKeepsMoveIndex | app/graph/chat/workflow.py:38 | unless intent analysis asks a question, the state it hands to `mutate` has a destination index for a same-day MOVE |
| ChatWorkflow.RunChat | app/graph/chat/workflow.py:28-46 | a run starts at `analyze_intent`, ends at `respond`, follows the edges and visits 2 to 4 nodes |
| ChatWorkflow.Invoke | app/graph/chat/workflow.py:28-46 | running the nodes one after another along the edges computes the specification |
| ChatWorkflow.RunVisitsOnce | app/graph/chat/workflow.py:37-41 | a run ends at END right after `respond` and never visits a node twice |
| ChatWorkflow.RejectionsAreMasked | app/graph/chat/workflow.py:28-46 | for a fresh request the reply is REJECTED iff some node set an error, and then with the fixed generic message |
| ChatWorkflow.MutateThenCascade | app/graph/chat/workflow.py:39-40 | after `mutate` without an error, a REJECTED `cascade` has set an error |
| ChatWorkflow.GeneralChatRejected | app/graph/chat/workflow.py:38 | a GENERAL_CHAT classification is routed to `mutate`, fails for the missing intent, and is answered with the generic rejection |
| ChatWorkflow.SuccessIsAnEdit | app/graph/chat/workflow.py:28-46 | SUCCESS comes only after all four nodes ran and `mutate` edited the itinerary with one diff key naming the target day |
| ChatWorkflow.MutateThenSuccess | app/graph/chat/workflow.py:39-40 | a `cascade` without error follows an edit |
| ModifyUtils.ReorderVisitSequence | app/graph/modify/utils.py:18-22 | every place gets its position + 1 as visit sequence and nothing else changes |
| ModifyUtils.RenumberedVisits | app/graph/modify/utils.py:18-22 | renumbering makes the numbering dense and changes nothing else |
| ModifyUtils.VisitsInsert | app/graph/modify/utils.py:18-22 | inserting then ignoring numbers is inserting among the visits |
| ModifyUtils.VisitsRemoveAt | app/graph/modify/utils.py:18-22 | popping then ignoring numbers is popping from the visits |
| ModifyUtils.RenumberedIdempotent | app/graph/modify/utils.py:18-22 | renumbering twice is renumbering once |
| ModifyUtils.RenumberedRemove | app/graph/modify/utils.py:18-22 | after a pop the others keep their order and are numbered 1..N-1 |
| ModifyUtils.DiffKeyParts | app/graph/modify/utils.py:25-27 | a diff key starts with "day" and splits at `_` into `day<d>` and `place<m>` |
| ModifyUtils.InsertedPlaces | app/graph/modify/utils.py:18-22 | inserting and renumbering puts the new place at the position and keeps the others in order |
| ModifyUtils.MovedPlaces | app/graph/modify/utils.py:18-22 | popping and reinserting puts the moved place at the destination and keeps the others in order |
| ModifyUtils.MovedIsPermutation | app/graph/modify/utils.py:18-22 | a move keeps the day's places as a permutation |
| ModifyCascade.ParseTime | app/graph/modify/nodes/cascade.py:18-40 | a blank text gives no time |
| ModifyCascade.FormatTime | app/graph/modify/nodes/cascade.py:43-45 | a clock at or past midnight is written with at least five characters |
| ModifyCascade.FormatShape | app/graph/modify/nodes/cascade.py:43-45 | the text is the padded hour and minute around a single colon |
| ModifyCascade.ParseJoined | app/graph/modify/nodes/cascade.py:18-40 | two integers around a colon are read as hour and minute |
| ModifyCascade.FormatParses | app/graph/modify/nodes/cascade.py:18-45 | what the formatter writes is read back as the same clock |
| ModifyCascade.Transit | app/graph/modify/nodes/cascade.py:106-114 | a transit exists iff both places have all coordinates |
| ModifyCascade.TransitBounds | app/graph/modify/nodes/cascade.py:48-51 | a transit is at least 10 minutes, and exactly 10 between two places at one point |
| ModifyCascade.LegTransit | app/graph/modify/nodes/cascade.py:106 | only a place with a next place has a transit after it |
| ModifyCascade.Advance | app/graph/modify/nodes/cascade.py:102-104 | moving the clock carries whole hours: the minute stays below 60 and the total grows by the minutes |
| ModifyCascade.AfterPlace | app/graph/modify/nodes/cascade.py:102-125 | the clock after a place grows by the 90-minute stay plus the transit to the next place |
| ModifyCascade.PlaceWarnings | app/graph/modify/nodes/cascade.py:99-121 | a place never adds the overage warning |
| ModifyCascade.PlaceWarningsSpec | app/graph/modify/nodes/cascade.py:99-121 | a late warning iff the hour is at least 23, a transit warning iff the transit exceeds 30 minutes |
| ModifyCascade.StartClock | app/graph/modify/nodes/cascade.py:90-94 | the day starts at the first place's parsed time, else 09:00 |
| ModifyCascade.WalkOnce | app/graph/modify/nodes/cascade.py:96-129 | one pass stamps the place, adds its warnings, and either stops with the overage warning or goes on with the next clock |
| ModifyCascade.FirstClock | app/graph/modify/nodes/cascade.py:90-94 | the start clock is computed |
| ModifyCascade.WalkDay | app/graph/modify/nodes/cascade.py:96-129 | the place loop computes the day's places and warnings |
| ModifyCascade.Visits | app/graph/modify/nodes/cascade.py:96-129 | the clocks visited begin with the start clock and cover at most the remaining places |
| ModifyCascade.VisitsChain | app/graph/modify/nodes/cascade.py:102-129 | consecutive clocks are a stay and a transit apart and none after the first reached hour 24 |
| ModifyCascade.VisitsEnd | app/graph/modify/nodes/cascade.py:127-129 | the walk overflows iff the clock after the last visited place reached hour 24 |
| ModifyCascade.VisitsShort | app/graph/modify/nodes/cascade.py:127-129 | the walk stops short of the last place only by overflowing |
| ModifyCascade.DayWalkSpec | app/graph/modify/nodes/cascade.py:90-129 | the places reached get their clock's time, later places keep theirs and nothing else changes; the warnings are the visited places' in order, then one overage warning exactly on overflow |
| ModifyCascade.StampsReadBack | app/graph/modify/nodes/cascade.py:97 | a stamped time is read back as the clock it was stamped at |
| ModifyCascade.OverageOnce | app/graph/modify/nodes/cascade.py:127-129 | the overage warning appears iff the walk overflows, once, and last |
| ModifyCascade.ClockAdvances | app/graph/modify/nodes/cascade.py:102-125 | between two visits the clock moves by 90 minutes plus the transit, at least 100 between places with coordinates |
| ModifyCascade.CascadedDay | app/graph/modify/nodes/cascade.py:81-129 | a day keeps its number, date and place count, and a day not walked is unchanged |
| ModifyCascade.DayWarnings | app/graph/modify/nodes/cascade.py:81-129 | a day not walked adds no warnings |
| ModifyCascade.CascadedDays | app/graph/modify/nodes/cascade.py:81-129 | every day, in order, is the cascaded day |
| ModifyCascade.CascadeOneDay | app/graph/modify/nodes/cascade.py:82-129 | one pass of the day loop computes the day and its warnings |
| ModifyCascade.CascadeLoop | app/graph/modify/nodes/cascade.py:81-129 | the day loop computes all days and appends the warnings |
| ModifyCascade.CascadeNode | app/graph/modify/nodes/cascade.py:67-131 | no itinerary sets only the error; otherwise only the itinerary and the warnings change |
| ModifyCascade.Cascade | app/graph/modify/nodes/cascade.py:67-131 | the node computes the specification |
| ModifyCascade.NoModifiedDayUnchanged | app/graph/modify/nodes/cascade.py:75-77 | when no diff key names a day the state comes back as it was |
| ModifyCascade.CascadeWalksNamedDays | app/graph/modify/nodes/cascade.py:79-131 | days not walked are kept, walked days get their walk, and the walks' warnings follow the earlier ones |
| ModifyCascade.CascadeWarningsAppend | app/graph/modify/nodes/cascade.py:81-129 | the loop's warnings are the walked days' warnings in day order |
| ModifyMutate.DayCenter | app/graph/modify/nodes/mutate.py:23-35 | a day without coordinates has the centre (0, 0) |
| ModifyMutate.DayCenterBetween | app/graph/modify/nodes/mutate.py:23-35 | the centre lies between the smallest and largest latitude and longitude of the day's places |
| ModifyMutate.DayCenterOfOnePoint | app/graph/modify/nodes/mutate.py:23-35 | the centre of places all at one point is that point |
| ModifyMutate.WithinRadius | app/graph/modify/nodes/mutate.py:177-183 | the filtered hits are a subsequence of the hits, each within 10 km of the centre |
| ModifyMutate.FirstNear | app/graph/modify/nodes/mutate.py:177-186 | the first hit within the radius, or none when no hit is near |
| ModifyMutate.WithinRadiusFirst | app/graph/modify/nodes/mutate.py:177-186 | the filtered list is empty exactly when no hit is near, and otherwise starts with the first near one |
| ModifyMutate.RadiusFiltered | app/graph/modify/nodes/mutate.py:177-185 | a non-empty hit list never filters down to nothing |
| ModifyMutate.SearchPlace | app/graph/modify/nodes/mutate.py:144-186 | a missing or empty keyword fails with the keyword error; failures carry one of the two error texts; a suggestion differs from the keyword |
| ModifyMutate.SearchChoosesNearest | app/graph/modify/nodes/mutate.py:144-186 | the hit taken is the first within 10 km of a non-zero centre, else the first hit, and every hit is reported |
| ModifyMutate.PlaceToCoursePlace | app/graph/modify/nodes/mutate.py:38-50 | the new visit carries the hit's id, name, address, url and coordinates, the given sequence and a blank visit time |
| ModifyMutate.CrossDayDays | app/graph/modify/nodes/mutate.py:120-131 | a cross-day move keeps the number of days |
| ModifyMutate.ModifyMutateNode | app/graph/modify/nodes/mutate.py:61-141 | the node never changes the current itinerary, the intent or the warnings |
| ModifyMutate.ModifyMutate | app/graph/modify/nodes/mutate.py:61-141 | the step-by-step node computes exactly the node's specification |
| ModifyMutate.ApplyReplace | app/graph/modify/nodes/mutate.py:89-95 | the REPLACE branch computes its step |
| ModifyMutate.ApplyAdd | app/graph/modify/nodes/mutate.py:96-104 | the ADD branch computes its step |
| ModifyMutate.ApplyRemove | app/graph/modify/nodes/mutate.py:105-109 | the REMOVE branch computes its step |
| ModifyMutate.ApplyMove | app/graph/modify/nodes/mutate.py:110-131 | the MOVE branch computes its step |
| ModifyMutate.ApplySameDayMove | app/graph/modify/nodes/mutate.py:115-121 | the same-day MOVE computes its step |
| ModifyMutate.MovePlace | app/graph/modify/nodes/mutate.py:116-119 | pop, clamp, insert and renumber give the same-day place list |
| ModifyMutate.ApplyCrossDayMove | app/graph/modify/nodes/mutate.py:122-131 | the cross-day MOVE computes its step |
| ModifyMutate.TargetPos | app/graph/modify/nodes/mutate.py:53-58 | the found day is a position of the itinerary |
| ModifyMutate.ReplaceOutcome | app/graph/modify/nodes/mutate.py:89-95 | REPLACE either stops untouched or is an edit |
| ModifyMutate.AddOutcome | app/graph/modify/nodes/mutate.py:96-104 | ADD either stops untouched or is an edit |
| ModifyMutate.RemoveOutcome | app/graph/modify/nodes/mutate.py:105-109 | REMOVE is always an edit |
| ModifyMutate.SameDayOutcome | app/graph/modify/nodes/mutate.py:115-121 | a same-day MOVE is always an edit |
| ModifyMutate.CrossDayOutcome | app/graph/modify/nodes/mutate.py:122-131 | a cross-day MOVE either stops untouched or is an edit |
| ModifyMutate.NodeSteps | app/graph/modify/nodes/mutate.py:81-109 | a targeted request with a usable index goes to its operation's step |
| ModifyMutate.NodeMovesWithinDay | app/graph/modify/nodes/mutate.py:110-121 | a MOVE to its own day takes the same-day step |
| ModifyMutate.NodeMovesAcrossDays | app/graph/modify/nodes/mutate.py:110-131 | a MOVE to another day takes the cross-day step |
| ModifyMutate.ModifyOutcome | app/graph/modify/nodes/mutate.py:61-141 | every run stops with the state untouched but for its error or is an edit of one itinerary copy with renumbered days |
| ModifyMutate.ModifyErrors | app/graph/modify/nodes/mutate.py:66-83 | the missing-input, missing-day and missing-index errors, each leaving the rest of the state alone |
| ModifyMutate.ModifyNeedsKeyword | app/graph/modify/nodes/mutate.py:151-152 | REPLACE or ADD without a keyword fails before any search |
| ModifyMutate.ModifyAdd | app/graph/modify/nodes/mutate.py:96-104 | ADD grows the day by one at the clamped slot, keeps the others in order, renumbers, and keys the inserted slot |
| ModifyMutate.ModifyRemove | app/graph/modify/nodes/mutate.py:105-109 | REMOVE always drops the named place, even the last one, and renumbers |
| ModifyMutate.ModifyReplace | app/graph/modify/nodes/mutate.py:89-95 | REPLACE changes only the named slot, to the chosen hit with the target's number |
| ModifyMutate.ModifyMoveSameDay | app/graph/modify/nodes/mutate.py:115-121 | a same-day MOVE edits the target day only and keys the clamped destination |
| ModifyMutate.SameDayPlacesMoved | app/graph/modify/nodes/mutate.py:116-119 | the same visits, the moved one at the insert slot, the others in order, renumbered |
| ModifyMutate.ModifyMoveDefaults | app/graph/modify/nodes/mutate.py:112-119 | a MOVE without destination stays in its day and moves the place to the front |
| ModifyMutate.CrossDayPlaces | app/graph/modify/nodes/mutate.py:122-131 | the total number of places is kept; the source loses the place and the destination gains it at the clamped slot |
| ModifyMutate.ModifyMoveCrossDay | app/graph/modify/nodes/mutate.py:122-131 | a MOVE to another existing day edits into the cross-day days and keys the destination day |
| RoadmapUtils.UpToFence | app/graph/roadmap/utils.py:8-10 | the piece before the first fence is a prefix of the text |
| RoadmapUtils.StripCodeFence | app/graph/roadmap/utils.py:4-13 | the result never has surrounding whitespace |
| RoadmapUtils.UnfencedStripped | app/graph/roadmap/utils.py:4-13 | a reply without a fence comes back stripped and otherwise unchanged |
| RoadmapUtils.StripCodeFenceIdempotent | app/graph/roadmap/utils.py:4-13 | stripping the fence twice is the same as once |
| RoadmapUtils.FencedJsonBody | app/graph/roadmap/utils.py:4-13 | a fence-free stripped body wrapped in a json-tagged fence comes back exactly |
| RoadmapUtils.BuildSlotKeySplit | app/graph/roadmap/utils.py:16-18 | a slot key splits at its one underscore into its day part and slot part |
| RoadmapUtils.SlotKeyInjective | app/graph/roadmap/utils.py:16-18 | distinct day and slot pairs get distinct keys |
| RoadmapUtils.BuildSearchQuery | app/graph/roadmap/utils.py:21-25 | the query is stripped |
| RoadmapUtils.SearchQueryParts | app/graph/roadmap/utils.py:21-25 | "area keyword" when both are given, else the one that is given |
| RoadmapPlaces.PriceLevels | app/graph/roadmap/nodes/places.py:53-63 | a price level exactly for a known budget, one level named PRICE_LEVEL_… |
| RoadmapPlaces.PriceLevelsInjective | app/graph/roadmap/nodes/places.py:57-62 | distinct budgets ask for distinct price levels |
| RoadmapPlaces.IsFoodKeyword | app/graph/roadmap/nodes/places.py:66-70 | true exactly when the stripped, lower-cased keyword is non-empty and holds a food hint |
| RoadmapPlaces.FoodKeywordStripped | app/graph/roadmap/nodes/places.py:66-70 | stripping the keyword first does not change the answer |
| RoadmapPlaces.BlankNotFood | app/graph/roadmap/nodes/places.py:67-69 | a blank keyword is never a food keyword |
| RoadmapPlaces.CafeIsFood | app/graph/roadmap/nodes/places.py:24-50 | a keyword starting with "cafe" is a food keyword |
| RoadmapPlaces.MatjipIsFood | app/graph/roadmap/nodes/places.py:24-50 | a keyword starting with "맛집" is a food keyword |
| RoadmapPlaces.NoLeadingSpace | app/graph/roadmap/nodes/places.py:66-70 | a keyword led by a lower-case hint is a food keyword |
| RoadmapPlaces.PriceLevelsForSlot | app/graph/roadmap/nodes/places.py:73-79 | levels exactly for a food slot when the budget has levels, and then the budget's own |
| RoadmapPlaces.FirstStrippedIndex | app/graph/roadmap/nodes/places.py:83-86 | the first candidate whose stripped id is the selection, or none when no candidate has it |
| RoadmapPlaces.MoveSelectedFirst | app/graph/roadmap/nodes/places.py:82-90 | a permutation that puts the first selected candidate in front and keeps the others in order; it reports a change exactly when that candidate was not already first |
| RoadmapPlaces.MoveSelectedFirstStable | app/graph/roadmap/nodes/places.py:82-90 | moving the same selection twice changes nothing the second time |
| RoadmapPlaces.InRegion | app/graph/roadmap/nodes/places.py:93-102 | every kept candidate lies in the box |
| RoadmapPlaces.InRegionInOrder | app/graph/roadmap/nodes/places.py:93-102 | the kept candidates are the in-box ones at increasing positions, and every in-box candidate is kept |
| RoadmapPlaces.InRegionAppend | app/graph/roadmap/nodes/places.py:93-102 | filtering a concatenation filters each part |
| RoadmapPlaces.HardFilterInOrder | app/graph/roadmap/nodes/places.py:93-102 | the hard filter keeps the in-box candidates in order and reports how many it dropped |
| RoadmapPlaces.HardFilter | app/graph/roadmap/nodes/places.py:93-102 | the filter loop keeps exactly the in-box candidates |
| RoadmapPlaces.SearchStages | app/graph/roadmap/nodes/places.py:173-236 | a slot has between three and five search stages |
| RoadmapPlaces.StageStep | app/graph/roadmap/nodes/places.py:173-262 | a raising search ends the chain empty, a search that keeps candidates or is the last ends it, and an empty one passes to the next stage |
| RoadmapPlaces.StageRunSpec | app/graph/roadmap/nodes/places.py:173-262 | every search before the last returned and kept nothing; the result is what the last stage kept, or nothing when it raised |
| RoadmapPlaces.SlotSearchSpec | app/graph/roadmap/nodes/places.py:154-262 | a slot makes one to all of its searches, each only after the earlier found nothing, and keeps what its last search kept |
| RoadmapPlaces.NoBoxStages | app/graph/roadmap/nodes/places.py:169-236 | without a region box the chain is the priced search and the two unrestricted ones |
| RoadmapPlaces.BiasWithoutPriceOnlyWhenPriced | app/graph/roadmap/nodes/places.py:186-212 | the price-less biased stage exists exactly for a priced search in a region with a box, and the second stage is the biased one |
| RoadmapPlaces.RaisingSearchGivesNothing | app/graph/roadmap/nodes/places.py:260-262 | a search that raises at once leaves the slot empty after one call |
| RoadmapPlaces.TryStage | app/graph/roadmap/nodes/places.py:173-236 | one stage adds one search and its outcome agrees with the chain |
| RoadmapPlaces.SearchForSlot | app/graph/roadmap/nodes/places.py:154-262 | the staged searches give the candidates and number of calls of the chain's specification |
| RoadmapFetch.CollectTasks | app/graph/roadmap/nodes/places.py:140-152 | the loop over days and slots builds the search tasks and the empty entries of the specification |
| RoadmapFetch.CollectDay | app/graph/roadmap/nodes/places.py:145-152 | one day's slots are collected onto what the earlier days gave |
| RoadmapFetch.SearchAll | app/graph/roadmap/nodes/places.py:264-269 | the searches' results are stored in task order |
| RoadmapFetch.BuildPayload | app/graph/roadmap/nodes/places.py:274-289 | the payload of a day is its specification |
| RoadmapFetch.MoveSelections | app/graph/roadmap/nodes/places.py:312-323 | each selected id is moved first, in payload order |
| RoadmapFetch.RerankForDay | app/graph/roadmap/nodes/places.py:273-334 | the day's rerank is its specification |
| RoadmapFetch.RerankAll | app/graph/roadmap/nodes/places.py:271-336 | all days are reranked in order |
| RoadmapFetch.FetchPlacesFromSlots | app/graph/roadmap/nodes/places.py:105-343 | the node computes its specification |
| RoadmapFetchProps.ResolveTask | app/graph/roadmap/nodes/places.py:264-269 | a task added at the end stores its result over what the earlier tasks left |
| RoadmapFetchProps.SearchedStoreFresh | app/graph/roadmap/nodes/places.py:152-269 | an empty entry under a key no task has survives the searches |
| RoadmapFetchProps.DayHit | app/graph/roadmap/nodes/places.py:145-152 | collecting a day's slots gives each slot key that slot's value |
| RoadmapFetchProps.DaysMiss | app/graph/roadmap/nodes/places.py:140-152 | a key that is no slot key of the plan has no task and no entry |
| RoadmapFetchProps.MissAllOtherDays | app/graph/roadmap/nodes/places.py:141-146 | a slot key of a day number the plan lacks is missed by all days |
| RoadmapFetchProps.DaysHit | app/graph/roadmap/nodes/places.py:140-269 | with distinct day numbers every slot of every day gets its value |
| RoadmapFetchProps.ApplySelectionReorders | app/graph/roadmap/nodes/places.py:312-323 | moving selections first keeps every key and, under each, the same candidates |
| RoadmapFetchProps.PayloadKeysStored | app/graph/roadmap/nodes/places.py:276-289 | every payload slot has candidates stored under its key |
| RoadmapFetchProps.RerankDayReorders | app/graph/roadmap/nodes/places.py:273-334 | one day's rerank keeps every key and the same candidates under each |
| RoadmapFetchProps.RerankDaysReorders | app/graph/roadmap/nodes/places.py:271-336 | the reranks keep every key and the same candidates under each |
| RoadmapFetchProps.FetchedSlots | app/graph/roadmap/nodes/places.py:138-343 | with distinct day numbers each slot holds its fallback chain's result, as a permutation, and exactly that without rerank |
| RoadmapFetchProps.FetchedOnlySlots | app/graph/roadmap/nodes/places.py:138-343 | the fetched places have no key but the plan's slot keys |
| RoadmapSkeleton.SlotRange | app/graph/roadmap/nodes/skeleton.py:21-27 | two consecutive counts between 4 and 7: (6, 7) exactly for a dense pace and (4, 5) exactly for a relaxed one |
| RoadmapSkeleton.SlotTargetsShape | app/graph/roadmap/nodes/skeleton.py:34-47 | one target per day within the range: the minimum for one day, maximum then minimum for two, the minimum at both ends and the maximum inside for longer segments, the minimum everywhere for an empty range |
| RoadmapSkeleton.BuildSlotTargets | app/graph/roadmap/nodes/skeleton.py:34-47 | the loop raising the inner days gives the targets of the specification |
| RoadmapSkeleton.IntervalMembers | app/graph/roadmap/nodes/skeleton.py:68-70 | the expected day set holds exactly the numbers of the range |
| RoadmapSkeleton.DayNumbersMembers | app/graph/roadmap/nodes/skeleton.py:69 | the actual day set holds exactly the plan's day numbers |
| RoadmapSkeleton.ValidatePlan | app/graph/roadmap/nodes/skeleton.py:56-82 | the validation loop reports the errors of the specification |
| RoadmapSkeleton.DaysErrorsEmpty | app/graph/roadmap/nodes/skeleton.py:73-81 | no day error exactly when every day meets its target and lies within the range |
| RoadmapSkeleton.ValidPlanIff | app/graph/roadmap/nodes/skeleton.py:56-82 | a plan passes exactly when it has the expected number of days numbered 1..N and every day fits; a wrong day count is the first error |
| RoadmapSkeleton.NoTargetsNoTargetErrors | app/graph/roadmap/nodes.py:52-68 | without targets, as in the older node, no target error is reported |
| RoadmapSkeleton.ValidPlanMeetsTargets | app/graph/roadmap/nodes/skeleton.py:56-82 | a plan that passes has every day within the segment with exactly its target's slots |
| RoadmapSkeleton.AreaWarnings | app/graph/roadmap/nodes/skeleton.py:85-91 | the loop over the days gives the warnings of the specification |
| RoadmapSkeleton.AreaWarningsSpec | app/graph/roadmap/nodes/skeleton.py:85-91 | a warning exactly for each day with more than three distinct stripped lower-cased areas, with their number |
| RoadmapSkeleton.NormalizeRegionRanges | app/graph/roadmap/nodes/skeleton.py:94-117 | sorting and the walk give the sorted regions and errors of the specification |
| RoadmapSkeleton.ScanRegions | app/graph/roadmap/nodes/skeleton.py:106-113 | the walk gives the gap and overlap errors and the day after the last segment |
| RoadmapSkeleton.ScanTiles | app/graph/roadmap/nodes/skeleton.py:106-116 | the walk finds no problem and ends the day after the trip exactly when the segments tile the trip |
| RoadmapSkeleton.RegionRangesSpec | app/graph/roadmap/nodes/skeleton.py:94-117 | empty regions give one error; otherwise the result is a sorted permutation of the regions, without errors exactly when it tiles the trip |
| PyList.SortByStable | app/graph/roadmap/nodes/skeleton.py:104 | `sorted` by an integer key is stable: the elements with any one key, such as segments starting on the same day, come out in their input order |
| RoadmapSkeleton.MapDay | app/graph/roadmap/nodes/skeleton.py:259-269 | the local day is shifted by the segment's offset into the trip and keeps its region and slots |
| RoadmapSkeleton.StepErrors | app/graph/roadmap/nodes/skeleton.py:224-247 | each planned segment carries its plan's validation errors against the segment's targets |
| RoadmapSkeleton.StepsOfIndex | app/graph/roadmap/nodes/skeleton.py:223-247 | the k-th turn of the loop is the k-th segment's, answered by the k-th reply |
| RoadmapSkeleton.AppendGlobalDays | app/graph/roadmap/nodes/skeleton.py:259-269 | the segment's days with trip-global numbers are appended |
| RoadmapSkeleton.PlanSegment | app/graph/roadmap/nodes/skeleton.py:224-247 | one turn of the segment loop computes its specification |
| RoadmapSkeleton.RunSegments | app/graph/roadmap/nodes/skeleton.py:223-271 | the segment loop stops at the first failure or rejected plan, as its specification says |
| RoadmapSkeleton.GenerateSkeleton | app/graph/roadmap/nodes/skeleton.py:193-293 | the node computes its specification |
| RoadmapSkeleton.GenerateForRequest | app/graph/roadmap/nodes/skeleton.py:205-293 | the rest of the node computes its specification |
| RoadmapSkeleton.GenerateForRanges | app/graph/roadmap/nodes/skeleton.py:209-293 | segment errors are reported, else the loop's outcome is stored |
| RoadmapSkeleton.StoreSkeleton | app/graph/roadmap/nodes/skeleton.py:271-293 | the loop's outcome is stored in the state as the specification says |
| RoadmapSkeleton.MapDaysNumbers | app/graph/roadmap/nodes/skeleton.py:259-269 | a segment plan numbered 1..n maps to the trip's days of that segment |
| RoadmapSkeleton.ExtendCoverage | app/graph/roadmap/nodes/skeleton.py:259-269 | a validated segment starting on the next uncovered day extends the covered days to its last day |
| RoadmapSkeleton.RunCoverage | app/graph/roadmap/nodes/skeleton.py:223-269 | a walk over a tiling in which every plan validates covers exactly days 1..N with slot counts in range |
| RoadmapSkeleton.SortedDays | app/graph/roadmap/nodes/skeleton.py:271 | sorting the days keeps their numbers and slot counts |
| RoadmapSkeleton.AfterValidRun | app/graph/roadmap/nodes/skeleton.py:271-293 | a fully valid run leaves the error alone and stores the days sorted and covering the trip |
| RoadmapSkeleton.AfterFailedRun | app/graph/roadmap/nodes/skeleton.py:241-257 | a failed call or rejected plan sets the error |
| RoadmapSkeleton.UntiledRegionsFail | app/graph/roadmap/nodes/skeleton.py:209-215 | segments that do not tile the trip only set the error |
| RoadmapSkeleton.TiledRegionsRun | app/graph/roadmap/nodes/skeleton.py:209-223 | segments that tile the trip lead to the loop over the sorted segments |
| RoadmapSkeleton.ValidRunCovers | app/graph/roadmap/nodes/skeleton.py:223-275 | over a tiling a fully valid run covers the trip, so the final day-set check never fires |
| RoadmapSkeleton.TiledOutcome | app/graph/roadmap/nodes/skeleton.py:223-293 | over a tiling a fully valid run stores the sorted covering days; any other run sets the error |
| RoadmapSkeleton.SkeletonOutcome | app/graph/roadmap/nodes/skeleton.py:193-293 | on a validated request the date error never arises; untiled segments only set the error; a tiled, fully valid run stores a sorted plan covering every day |
| RoadmapSkeleton.RunAndStore | app/graph/roadmap/nodes/skeleton.py:220-293 | the segment loop over the sorted segments and the storing of its outcome |
| RoadmapFinalize.PlaceUrlPresent | app/graph/roadmap/nodes/finalize.py:86-93 | a payload has a URL exactly when its candidate has a URL or a place id; an own URL is kept, otherwise it is the Maps search prefix followed by the place id |
| RoadmapFinalize.FilledSlots | app/graph/roadmap/nodes/finalize.py:75-78 | the filled slot positions, in increasing order, and every filled slot is among them |
| RoadmapFinalize.SlotPlacesFromFilled | app/graph/roadmap/nodes/finalize.py:74-108 | the j-th place of a day is the first candidate of the j-th filled slot numbered j + 1: empty slots are skipped, the rest keep their order |
| RoadmapFinalize.SlotPlacesStep | app/graph/roadmap/nodes/finalize.py:75-108 | one more slot adds its first candidate exactly when it is filled |
| RoadmapFinalize.DailyPlacesAt | app/graph/roadmap/nodes/finalize.py:68-112 | day d of the prepared days is the one written for plan day d |
| RoadmapFinalize.ContextDays | app/graph/roadmap/nodes/finalize.py:44-114 | the context is refused exactly for a missing plan, missing candidates, a missing or invalid request, in that order; otherwise one numbered day per plan day |
| RoadmapFinalize.PrepareDay | app/graph/roadmap/nodes/finalize.py:74-108 | the slot loop with its running counter builds the day of the specification |
| RoadmapFinalize.PrepareFinalContext | app/graph/roadmap/nodes/finalize.py:44-114 | the checks and the day loop give the specification's outcome |
| RoadmapFinalize.FallbackHour | app/graph/roadmap/nodes/finalize.py:149-151 | the fallback hour is odd and between 9 and 23 |
| RoadmapFinalize.FallbackHourMonotone | app/graph/roadmap/nodes/finalize.py:149-151 | later visits never get an earlier hour, and before the cap each is two hours after the previous |
| RoadmapFinalize.SectionTimeClock | app/graph/roadmap/nodes/finalize.py:136-141 | each section time is a whole hour from 09:00 to 22:00 |
| RoadmapFinalize.FallbackVisitTimeParses | app/graph/roadmap/nodes/finalize.py:136-152 | every fallback visit time parses as a whole hour from 09:00 to 23:00, the sequence's hour when the section is unknown |
| RoadmapFinalize.FallbackDescriptionShape | app/graph/roadmap/nodes/finalize.py:154-156 | a fallback description ends in the fixed suffix and starts with the place's name, or the unnamed text |
| RoadmapFinalize.FallbackDays | app/graph/roadmap/nodes/finalize.py:158-166 | every day's places are given their fallbacks, one for one |
| RoadmapFinalize.ApplyFallbackDay | app/graph/roadmap/nodes/finalize.py:159-165 | the loop over one day's places gives their fallbacks |
| RoadmapFinalize.ApplyFallback | app/graph/roadmap/nodes/finalize.py:158-166 | the loop over the days gives the fallbacks of every day |
| RoadmapFinalize.DetailMapLast | app/graph/roadmap/nodes/finalize.py:234 | the detail map holds a key exactly when some detail has it, and then the last such detail |
| RoadmapFinalize.MergedDaysAt | app/graph/roadmap/nodes/finalize.py:236-262 | every day's places are merged, one for one |
| RoadmapFinalize.MergeDay | app/graph/roadmap/nodes/finalize.py:238-260 | the merge loop over one day's places |
| RoadmapFinalize.MergeDetails | app/graph/roadmap/nodes/finalize.py:236-262 | the merge loop over all days |
| RoadmapFinalize.MergeEmptyIsFallback | app/graph/roadmap/nodes/finalize.py:236-262 | without any detail the merge does exactly what the fallback does |
| RoadmapFinalize.FillPlaceDetails | app/graph/roadmap/nodes/finalize.py:117-262 | the detail step computes its specification |
| RoadmapFinalize.MergePlaceFinished | app/graph/roadmap/nodes/finalize.py:239-260 | a merged place keeps the model's stripped description or a non-empty one; in planned mode a blank model time becomes the fallback time |
| RoadmapFinalize.FilledDetailsFinished | app/graph/roadmap/nodes/finalize.py:117-262 | whatever the reply, every day keeps its number, date and place count, and every place is finished |
| RoadmapFinalize.NoPlacesUnchanged | app/graph/roadmap/nodes/finalize.py:168-169 | with no place at all the detail step changes nothing |
| RoadmapFinalize.SynthesizeFinalRoadmap | app/graph/roadmap/nodes/finalize.py:265-336 | the node computes its specification, meeting its failures in the source's order: the summary call, then the missing `trip_days`, then the parser |
| RoadmapFinalize.SummaryFailureOrder | app/graph/roadmap/nodes/finalize.py:316-336 | a failed summary call is reported whatever the state holds; a missing `trip_days` is reported as `'trip_days'` before the reply is parsed; the parser's message only when the trip days are there; the error is left alone exactly when the reply parsed and the trip days are there, and then a roadmap is stored |
| RoadmapFinalize.FinalizeOutcome | app/graph/roadmap/nodes/finalize.py:265-336 | a state with an error is returned as is; otherwise only the final roadmap is stored, or only an error with the fixed prefix |
| RoadmapFinalize.FinalizeRoadmap | app/graph/roadmap/nodes/finalize.py:265-332 | a stored roadmap has the trip days, nights one fewer (0 for none), the request's dates and one finished day per plan day |
| RoadmapFinalize.FallbackClock | app/graph/roadmap/nodes/finalize.py:136-152 | every fallback visit time is the clock text of a whole hour from 9 to 23, the sequence's fallback hour when the section is unknown |
| RecommendTransform.Labels | app/graph/recommendation/nodes/transform.py:24 | one label per interest, the code itself when it is unknown |
| RecommendTransform.TransformQuery | app/graph/recommendation/nodes/transform.py:13-54 | the field-by-field appends build the query of the specification |
| RecommendTransform.TransformInput | app/graph/recommendation/nodes/transform.py:9-58 | only the transformed query is added to the state |
| RecommendTransform.PartsCount | app/graph/recommendation/nodes/transform.py:13-52 | there is no part exactly when no field is present |
| RecommendTransform.QueryMentions | app/graph/recommendation/nodes/transform.py:54 | the default query exactly when no field is present; otherwise the fixed prefix and every present field's part |
| RecommendTransform.InterestMentioned | app/graph/recommendation/nodes/transform.py:15-25 | every interest's label, or its code when unknown, appears in the query |
| RecommendTransform.VariantsAgree | app/graph/nodes.py:15-64 | the older and current nodes agree whenever some field is present and no interest is FOOD or ACTIVITY |
| RecommendTransform.EmptyPreferenceQuery | app/graph/nodes.py:60 | an empty preference gives the default query, "인기 있는 여행지 추천" in the older node |
| RecommendTransform.CodeMentioned | app/graph/recommendation/nodes/transform.py:27-52 | a known environment, weather or range code appears as its label |
| RecommendTransform.LegacyExamples | app/graph/nodes.py:21-60 | concrete preferences give queries mentioning their codes' labels |
| RecommendSearch.Candidates | app/graph/nodes.py:85-92 | one candidate per row |
| RecommendSearch.CandidatesAt | app/graph/nodes.py:85-92 | the i-th candidate has the i-th row's id and name and the score of rank i |
| RecommendSearch.SearchOutcome | app/graph/nodes.py:67-96 | without an embedding the candidates are empty and the error set; otherwise one candidate per row up to top_k, in order, the first scored 1, nothing else changed |
| RecommendSearch.ScoresByRank | app/graph/nodes.py:89 | older scores fall by 0.05 a rank; clamped scores never rise, stay in [0, 1], equal the older ones to rank 20 and are 0 after |
| RecommendSearch.LegacyScoreNegative | app/graph/nodes.py:89 | the older score is negative at rank 21, where the clamped one is 0 |
| RecommendSearch.CandidateScoresFall | app/graph/nodes.py:85-92 | candidate scores never rise along the list, and strictly fall in the older node |
| RecommendRerank.RegionMapSpec | app/graph/recommendation/nodes/rerank.py:64 | a name is a key exactly when a candidate has it, and it maps to the last such candidate |
| RecommendRerank.KeptRankedFrom | app/graph/recommendation/nodes/rerank.py:67-79 | each region comes from a kept evaluation with the stored candidate's id and the evaluation's score and flag, or 0.5 and true |
| RecommendRerank.SortRanked | app/graph/recommendation/nodes/rerank.py:81 | the sort is a permutation |
| RecommendRerank.SortRankedSorted | app/graph/recommendation/nodes/rerank.py:81 | the sort puts met constraints first and then descending scores |
| RecommendRerank.SortRankedStable | app/graph/recommendation/nodes/rerank.py:81 | regions with the same key keep their relative order |
| RecommendRerank.FallbackAt | app/graph/recommendation/nodes/rerank.py:89-98 | the i-th fallback entry is the i-th candidate's |
| RecommendRerank.CollectRanked | app/graph/recommendation/nodes/rerank.py:67-81 | the loop raises exactly when an element is not an object or a kept one has no usable sort key, and otherwise collects the kept regions |
| RecommendRerank.RerankRegions | app/graph/recommendation/nodes/rerank.py:12-99 | only the ranked regions change |
| RecommendRerank.RerankEmpty | app/graph/recommendation/nodes/rerank.py:17-18 | no candidates give no ranked regions |
| RecommendRerank.RerankFailure | app/graph/recommendation/nodes/rerank.py:87-99 | on failure every candidate comes back in order with its id, name and score, the fixed reason and met constraints |
| RecommendRerank.RerankSuccess | app/graph/recommendation/nodes/rerank.py:53-85 | on success exactly the kept regions, sorted by the key, equal keys in the model's order |
| RecommendRerank.RerankFromCandidates | app/graph/recommendation/nodes/rerank.py:64-98 | every ranked region has a candidate's name and id |
| RecommendGenerate.Met | app/graph/recommendation/nodes/recommendations.py:18 | the filter is no longer than the ranked list |
| RecommendGenerate.MetSpec | app/graph/recommendation/nodes/recommendations.py:18 | exactly the ranked regions meeting the constraints, empty only when none does |
| RecommendGenerate.SelectedSpec | app/graph/recommendation/nodes/recommendations.py:18-21 | the first top_k meeting the constraints when some do, else the first top_k ranked; at most top_k, empty only for no regions or top_k 0 |
| RecommendGenerate.ReasonMapSpec | app/graph/recommendation/nodes/recommendations.py:50 | a name has a reason exactly when an entry names it, and it is the last such entry's |
| RecommendGenerate.WithReasonsAt | app/graph/recommendation/nodes/recommendations.py:52-59 | the merge keeps regions and order and changes only reasons: the model's for named regions, unchanged otherwise |
| RecommendGenerate.MergeReasons | app/graph/recommendation/nodes/recommendations.py:52-59 | the loop builds the merged list |
| RecommendGenerate.GenerateRecommendations | app/graph/recommendation/nodes/recommendations.py:12-67 | the node computes its specification |
| RecommendGenerate.GenerateOutcome | app/graph/recommendation/nodes/recommendations.py:12-67 | nothing to recommend gives the empty list and the error; otherwise the error is kept; only the result and the error change |
| RecommendGenerate.GenerateFailure | app/graph/recommendation/nodes/recommendations.py:65-67 | a failed call or reply returns the selection unchanged |
| RecommendGenerate.GenerateSuccess | app/graph/recommendation/nodes/recommendations.py:40-63 | on success the selection in order, each with the model's last reason for its name or its own |
| RecommendService.StripMarkdownFence | app/services/recommend_service.py:92-101 | the result is stripped, and an unfenced reply is only stripped |
| RecommendService.FencedReply | app/services/recommend_service.py:92-101 | a fenced reply with any tag gives back the stripped body |
| RecommendService.DescribeSingle | app/services/recommend_service.py:104-108 | the placeholder exactly for a missing or empty answer, else the code followed by its description |
| RecommendService.DescribeMulti | app/services/recommend_service.py:111-115 | a missing or empty list gives the placeholder |
| RecommendService.DescribeAgree | app/services/recommend_service.py:104-115 | one answer reads the same either way, an unknown code is marked undescribed, and each further answer adds ", " and its description |
| RecommendService.DistinctSpec | app/services/recommend_service.py:218-233 | the scan keeps each new name exactly once, in order |
| RecommendService.LlmPicksShape | app/services/recommend_service.py:206-224 | the model's picks are at most five distinct candidates |
| RecommendService.LlmPicksComplete | app/services/recommend_service.py:206-224 | with fewer than five picks every candidate the reply named is among them |
| RecommendService.NormalizedSpec | app/services/recommend_service.py:196-238 | a result exists exactly with five distinct candidates: five distinct candidates, starting with the model's own picks |
| RecommendService.PickFromReply | app/services/recommend_service.py:206-224 | phase one takes the reply's valid new names up to five |
| RecommendService.FillFromCandidates | app/services/recommend_service.py:226-233 | phase two adds unused candidates in order up to five |
| RecommendService.NormalizeResult | app/services/recommend_service.py:196-238 | both phases and the final check give the specification |
| RecommendService.CallbackUrlShape | app/services/recommend_service.py:255-266 | without placeholders the endpoint ends in the job's result path and is the trimmed base or a piece of it followed by that path |
| RecommendService.CallbackUrlIdempotent | app/services/recommend_service.py:255-266 | building the endpoint again changes nothing |
| RecommendService.RunPipelineAsWritten | app/services/recommend_service.py:196-252 | as written no run finishes |
| RecommendService.PayloadOf | app/services/recommend_service.py:292-308 | as written: success exactly for a finished run; LLM_TIMEOUT exactly for the deadline; PIPELINE_ERROR with the exception's text otherwise, whatever `EXPOSE_INTERNAL_ERRORS` says |
| RecommendService.AsWrittenLeaksErrorText | app/services/recommend_service.py:303-308 | as written an exception's text, such as "sensitive: internal detail", is the failure message instead of the fixed one |
| RecommendService.PayloadFor | app/services/recommend_service.py:292-308 | the payload with `EXPOSE_INTERNAL_ERRORS` honoured: success exactly for a finished run, with its destinations; LLM_TIMEOUT exactly for the deadline; PIPELINE_ERROR for every exception |
| RecommendService.PayloadHidesErrorText | app/core/config.py:44 | with the setting off, the failure message is the fixed "추천 처리 중 내부 오류가 발생했습니다." whatever the exception's text; with it on, the payload is the as-written one |
| RecommendService.HeadersOf | app/services/recommend_service.py:276 | the secret header exactly when a secret is configured |
| RecommendService.SuccessCarriesFive | app/services/recommend_service.py:286-316 | corrected pipeline: a success carries five distinct candidates, and a full run succeeds exactly with five distinct candidates |
| RecommendService.TooFewCandidates | app/services/recommend_service.py:235-236 | fewer than five distinct candidates fail with PIPELINE_ERROR, whose message is INSUFFICIENT_DESTINATIONS when internal errors are exposed and the fixed message otherwise |
| RecommendService.AsWrittenNeverSucceeds | app/services/recommend_service.py:238 | as written every callback reports a failure |
| RecommendService.ProcessRecommendRequest | app/services/recommend_service.py:286-316 | the worker with both defects under "## Findings" corrected: the callback for the corrected pipeline's outcome, with `EXPOSE_INTERNAL_ERRORS` honoured, is delivered once with the policy's timeout |

## Left out

- Language-model calls, prompt texts and output parsers are left out. Each reply, or each parse of a reply, is an input; `None` stands for the call or parser raising.
- The Google Places client, the embedding service, the vector database query and every HTTP post are left out. Their answers are inputs: search hits, nearest-first rows, or the outcome of each attempt.
- Concurrency (`asyncio.gather`, `wait_for`, `to_thread`) is left out. The per-slot searches and per-day reranks run one after another, and a deadline is a flag saying whether it fired.
- Floating-point arithmetic is left out. Coordinates, scores and distances are `real`, so rounding is not modelled.
- The haversine distance and `math.cos` are function parameters. The model relies only on a point being at distance zero from itself, on distances not being negative, and on the cosine bound the code clamps to.
- The regex request heuristics of the intent node (day or date change, explicit day delete, ambiguous delete, postal code) are boolean inputs. Their patterns are not modelled.
- `ChatRoadmap.model_validate`, the Pydantic whole-document check in the chat cascade, is a boolean input.
- Unicode case folding is left out. `lower()` and `upper()` are modelled on ASCII letters only.
- Logging, log texts and metrics are left out. Some warning and error texts are datatype constructors carrying their parameters rather than the exact Korean wording.
- The candidate shuffle and variation hint of the survey worker are random. The candidate list is an input.
- The web framework, routers, dependency wiring, JWT handling, readiness checks, crawlers and service glue are not part of this model. The exception is the initial chat state that the chat service hands the graph.
- `app/graph/chat/utils.py`, `app/graph/chat/llm.py`, `app/schemas/enums.py` and `app/core/region_bbox_data.py` are not part of this model. The enumerations the code reads are declared where they are used, and the region bounding box is an input.
- `app/graph/modify/state.py`, `app/graph/recommendation/state.py` and `app/schemas/place.py` are not part of this model. Their fields are the keys the nodes read and write.
- `general_chat.py` and the older edit graph's `analyze_intent` are not part of this model. The first is not wired into the chat graph and the second is only a language-model call. The older edit graph's MOVE defaults follow from `ModifyIntent` carrying no destination.
- RecommendRerank.SortRanked: Python's in-place `list.sort` is modelled on values, as a stable insertion sort with the same key. Evaluations whose `region_name` is not a string are not modelled.
- RecommendService.ProcessRecommendRequest: the worker is modelled with both defects under "## Findings" corrected. Its pipeline finishes with the five destinations (`RunPipeline`), although recommend_service.py:238 as written always raises and posts PIPELINE_ERROR (`RunPipelineAsWritten`). Its payload hides the exception's text unless `EXPOSE_INTERNAL_ERRORS` is set (`PayloadFor`), although recommend_service.py:307 as written always sends it (`PayloadOf`).
- ChatMutate: the chat edit node imports `build_diff_key` and `reorder_visit_sequence` from `app/graph/chat/utils.py` (chat/nodes/mutate.py:13), which is not part of this model. The two helpers are taken to be the same as those of `app/graph/modify/utils.py` and are modelled by `ModifyUtils`. The renumbering lemmas of `ChatMutate` and `ChatCascade.DiffKeyDay` and `ChatCascade.ModifiedDaysOfDiffKey` rest on that.
- RecommendSearch.SearchOutcome: a negative `top_k` is excluded by its precondition. The database rejects such a query and the node does not catch the error.
- ChatMutate.MutateNode: a same-day MOVE without a destination index is excluded by its precondition. There `max(1, None)` would raise, and the strict intent validation never lets such an intent through (`ChatWorkflow.AnalyzeKeepsMoveIndex`).
- Where the code and the written design disagree, the model follows the code:
  - A cross-day MOVE in the chat edit node is rejected before the cross-day branch at mutate.py:159-171, so that branch is never reached and is not modelled.
  - A GENERAL_CHAT classification is routed to `mutate`, which fails, and the reply is the generic rejection (`ChatWorkflow.GeneralChatRejected`).
  - `CoursePlace` requires a `category` that the chat edit node never writes.
  - `app/schemas/course.py` has no region segments, although the skeleton node reads them. The segments are modelled as the node uses them.

## Findings

| source | as written | input that shows it | evidently intended | confidence | as-written member | corrected member |
|---|---|---|---|---|---|---|
| app/services/recommend_service.py:238 | `_normalize_result` builds `RecommendResultData` without its required `analysis_summary` field (app/schemas/recommend.py:65), so validation raises and the worker posts a PIPELINE_ERROR failure | any survey whose reply names five valid candidates, or any run with at least five candidates | a SUCCESS callback carrying the five normalised destinations | not executed; high, from the schema text | RecommendService.AsWrittenNeverSucceeds | RecommendService.SuccessCarriesFive |
| app/services/recommend_service.py:307 | the failure callback always carries `str(exc)`, ignoring `EXPOSE_INTERNAL_ERRORS` (default False, app/core/config.py:44), which the application's other exception handler honours (app/main.py:115) | the pipeline raises `RuntimeError("sensitive: internal detail")` with the setting off: that text is posted, where tests/test_recommend_service.py:19-39 expects "추천 처리 중 내부 오류가 발생했습니다." | the fixed message unless the setting is on | not executed; high, from the test text | RecommendService.AsWrittenLeaksErrorText | RecommendService.PayloadHidesErrorText |
| app/graph/nodes.py:89 | the older search node scores rank `i` as `1.0 - 0.05 * i`, which is negative from rank 21 on | `top_k` of 22 or more with at least 22 embedded regions: the candidate at rank 21 gets score -0.05 | scores clamped to [0, 1], as the current node does at app/graph/recommendation/nodes/search.py:38 | not executed; medium | RecommendSearch.LegacyScoreNegative | RecommendSearch.ScoresByRank |
