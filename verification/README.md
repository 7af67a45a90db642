# Planning Precedent AI — a Dafny model of its core

The Planning Precedent AI backend helps applicants in the London Borough of
Camden with householder planning applications. It scrapes Camden's decision
notices, extracts and cleans their text (digital extraction, or OCR when a PDF
is a scan), splits officer reports into token-bounded chunks, and stores them
with SHA-256-keyed embeddings. Over that store it runs precedent search and
ward statistics. It also provides LLM-assisted analysis and reasoning,
approval predictions, appeal strategies, generated application documents and
statements, map layers, alerts for new applications, a monitoring scheduler,
real-time rooms and collaboration sessions, and tiered authentication.

This project models the deterministic core of that system in Dafny, one
module per source file:

- **Pure rules** are datatypes, functions and lemmas. These cover the
  validators, classifiers, scoring clamps and tiers, fee and document tables,
  GeoJSON export and the text-cleaning pipeline.
- **State that the source updates in place** is modelled as classes with
  `modifies` clauses. These cover the embedding cache, the alert registry,
  the scheduler's job registry, the WebSocket connection manager, the
  collaboration sessions, the scraper's rate-limit counter, the prediction
  cache, the reasoning steps and the decision store.
- **Loops** are methods with invariants. Each is proved equal to a
  specification function, and the lemmas beside it state what the source
  promises about that function.
- **Outside effects** are parameters. These are the clock, the language
  model, the embedding API, the tokeniser, the database, the sockets and the
  regular expressions that are not modelled by hand.

Shared pieces:

- `Common` holds `Option` and `Result`.
- `PyStr` holds Python's string operations (`strip`, `split`, `lower`,
  `replace`, `join`, substring tests).
- `StrOrder` and `StableSort` hold the ordering used by Python's stable
  `sorted`.
- `Sha256` is FIPS 180-4 SHA-256 over the UTF-8 bytes of a text, rendered as
  a lower-case hex digest.

## Model

| member | source | states |
|---|---|---|
| AlertRecord.UpdatedIgnoresOthers | backend/app/services/monitoring/alert_service.py:374-376 | update keys that name no attribute of an alert (the `hasattr` test) leave it as it was |
| AlertRecord.UpdatedIdempotent | backend/app/services/monitoring/alert_service.py:374-376 | applying the same update dictionary twice gives what applying it once gives |
| AlertRecord.Alert.constructor | backend/app/services/monitoring/alert_service.py:38-54 | a new alert carries the given identity, type, value and delivery settings, is active, is not similarity-matching and has never been triggered |
| AlertRecord.Alert.SetMatched | backend/app/services/monitoring/alert_service.py:374-376 | setting the matched attributes (id, owner, name, type, value, radius) changes those and nothing else |
| AlertRecord.Alert.SetDelivery | backend/app/services/monitoring/alert_service.py:374-376 | setting the activity flag and the delivery settings changes those and nothing else |
| AlertRecord.Alert.SetHistory | backend/app/services/monitoring/alert_service.py:374-376 | setting the similarity flag, the history and the metadata changes those and nothing else |
| AlertRecord.Alert.SetFields | backend/app/services/monitoring/alert_service.py:374-376 | after it, every attribute of the alert is the one given |
| AlertRecord.Alert.Apply | backend/app/services/monitoring/alert_service.py:373-376 | the update loop leaves the alert equal to its old attributes overridden by every key that names an attribute, later keys winning |
| AlertMatch.Share | backend/app/services/monitoring/alert_service.py:157 | a share of at most its whole is at most 1.0, and a positive share is positive |
| AlertMatch.SharedWordsBound | backend/app/services/monitoring/alert_service.py:151-157 | the words two addresses share are no more than the words of the longer one, so the overlap score never exceeds 1.0 |
| AlertMatch.MatchAddress | backend/app/services/monitoring/alert_service.py:132-159 | 1.0 (exact address) when the normalised addresses are equal; otherwise 0.9 when the alert's address is contained in the application's; otherwise the word-overlap score; nothing when none applies |
| AlertMatch.WordOverlap | backend/app/services/monitoring/alert_service.py:151-159 | a word-overlap match needs at least three shared words and scores strictly above 0.5 and at most 1.0 |
| AlertMatch.FirstThree | backend/app/services/monitoring/alert_service.py:170-176 | the "outcode" taken is the first three characters of the compacted postcode (all of it when shorter) |
| AlertMatch.MatchPostcode | backend/app/services/monitoring/alert_service.py:161-181 | a score of 1.0 exactly when the compacted postcodes are equal; a match at all exactly when their first three characters agree, scoring 0.8 with the area reason otherwise |
| AlertMatch.AreaMatchCrossesDistricts | backend/app/services/monitoring/alert_service.py:170-179 | an alert on N1 2AB area-matches an application at N12 3CD, although they are different postal districts |
| AlertMatch.Outward | backend/app/services/monitoring/alert_service.py:170-176 | the outward code is the compacted postcode without its three-character inward code |
| AlertMatch.MatchPostcodeByOutward | backend/app/services/monitoring/alert_service.py:161-181 | corrected postcode rule: 1.0 exactly for the same compacted postcode, a match exactly when the outward codes agree |
| AlertMatch.OutwardMatchIsDistrictMatch | backend/app/services/monitoring/alert_service.py:161-181 | for full postcodes (outward code plus inward code) the corrected rule matches exactly when the postcodes or their districts are equal |
| AlertMatch.Likeness | backend/app/services/monitoring/alert_service.py:183-198 | a name likeness is 1.0 exactly when the normalised names are equal, and exists exactly when they are equal or the target contains the alert's value; it is then 1.0 or 0.8 |
| AlertMatch.LikenessSymmetric | backend/app/services/monitoring/alert_service.py:193-196 | the containment test looks both ways, so swapping the two names gives the same likeness |
| AlertMatch.MatchWard | backend/app/services/monitoring/alert_service.py:183-198 | a ward alert matches exactly when the ward names are alike, with the likeness as the score |
| AlertMatch.MatchApplicant | backend/app/services/monitoring/alert_service.py:257-275 | no match for an application without an applicant; otherwise a match exactly when the names are alike, with the likeness as score |
| AlertMatch.MatchAgent | backend/app/services/monitoring/alert_service.py:277-295 | no match for an application without an agent; otherwise a match exactly when the names are alike, with the likeness as score |
| AlertMatch.MatchDevelopmentType | backend/app/services/monitoring/alert_service.py:237-255 | no match without a development type; otherwise 1.0 exactly for equal normalised types and a match exactly when the application's type contains the alert's |
| AlertMatch.KeywordList | backend/app/services/monitoring/alert_service.py:202 | splitting the alert's keyword value on commas always gives at least one entry |
| AlertMatch.MatchKeyword | backend/app/services/monitoring/alert_service.py:200-218 | the keywords found are the listed ones contained in the lowercased description, in order; there is a match exactly when one is found, scoring found over listed, in (0, 1] |
| AlertMatch.EmptyKeywordMatchesAll | backend/app/services/monitoring/alert_service.py:202-208 | a keyword alert with an empty entry (empty value or trailing comma) matches every application |
| AlertMatch.PolicyList | backend/app/services/monitoring/alert_service.py:222 | splitting the alert's policy value on commas always gives at least one entry |
| AlertMatch.MatchPolicy | backend/app/services/monitoring/alert_service.py:220-235 | the shared policies are those named by both the alert and the upper-cased application list; a match exactly when one is shared, scoring shared over listed, in (0, 1] |
| AlertMatch.MatchAlert | backend/app/services/monitoring/alert_service.py:99-130 | an inactive alert never matches; otherwise the result is the rule of the alert's type, with a score in (0, 1] |
| AlertMatch.CaseDataOf | backend/app/services/monitoring/alert_service.py:476-482 | the case data of a trigger copies the location fields and keeps at most the first 500 characters of the description, as a prefix |
| AlertMatch.TriggerOf | backend/app/services/monitoring/alert_service.py:455-478 | an alert yields at most one trigger per application: one exactly when it is active and matches, naming the alert and the case, not yet notified |
| AlertMatch.AppTriggers | backend/app/services/monitoring/alert_service.py:455-484 | one application raises at most one trigger per alert |
| AlertMatch.MatchAlertHit | backend/app/services/monitoring/alert_service.py:456-461 | with `match_alert` as the rule, the activity test before matching changes nothing: it is a hit exactly when it matches |
| AlertMatch.AppTriggersSound | backend/app/services/monitoring/alert_service.py:455-484 | every trigger names an active alert that matched the application, with that match's score and reason |
| AlertMatch.AppTriggersCount | backend/app/services/monitoring/alert_service.py:455-484 | the number of triggers one application raises is the number of active alerts it matches |
| AlertMatch.BatchTriggersAppend | backend/app/services/monitoring/alert_service.py:455-484 | two batches processed in turn raise the triggers of the joined batch, in order |
| AlertMatch.HitsAppend | backend/app/services/monitoring/alert_service.py:455-488 | two batches processed in turn hit an alert as often as the joined batch |
| Alerts.WithoutId | backend/app/services/monitoring/alert_service.py:399 | the kept alerts are exactly those of the list whose id differs, with no duplicates added |
| Alerts.WithoutOwnId | backend/app/services/monitoring/alert_service.py:388-403 | the kept alerts are exactly those whose id differs or whose owner is another user |
| Alerts.WithoutIdMembers | backend/app/services/monitoring/alert_service.py:399 | an alert survives the delete comprehension exactly when it was in the list and its id differs |
| Alerts.WithoutOwnIdMembers | backend/app/services/monitoring/alert_service.py:388-403 | an alert survives the owner-restricted delete exactly when it was in the list and is not the user's alert with that id |
| Alerts.FirstById | backend/app/services/monitoring/alert_service.py:405-412 | the cache lookup returns an alert of the list with the id, and nothing only when no alert has it |
| Alerts.ActiveOnly | backend/app/services/monitoring/alert_service.py:443-445 | the active filter keeps exactly the active alerts of the list |
| Alerts.DropOwnAgrees | backend/app/services/monitoring/alert_service.py:388-403 | dropping a user's own alert from both caches keeps the per-user cache and the list of all alerts agreeing |
| Alerts.DeleteAgreement | backend/app/services/monitoring/alert_service.py:388-403 | the source's delete keeps the two caches agreeing exactly when no other user owns an alert with that id |
| Alerts.DropIdAgrees | backend/app/services/monitoring/alert_service.py:388-403 | when only the user owns the id, the source's delete keeps the caches agreeing |
| Alerts.DropForeignDisagrees | backend/app/services/monitoring/alert_service.py:388-403 | when another user owns an alert with the id, the source's delete leaves that alert in its owner's cache but not in the list of all |
| Alerts.CountedCompose | backend/app/services/monitoring/alert_service.py:487-488 | two rounds of triggering add their hits to the count and keep the latest trigger time |
| Alerts.CountsMovedCompose | backend/app/services/monitoring/alert_service.py:455-488 | counts moved on by one batch and then by another have moved on by the joined batch |
| Alerts.HitsStep | backend/app/services/monitoring/alert_service.py:453-488 | one more application adds its hit, if any, to an alert's count |
| Alerts.TriggerAlert | backend/app/services/monitoring/alert_service.py:455-488 | an inactive alert is skipped; an active one that matches yields its trigger, counts one more hit and records the time; what matching reads is unchanged |
| Alerts.TriggerAlerts | backend/app/services/monitoring/alert_service.py:455-488 | one application yields the triggers of the matched active alerts, in order, and each alert's count grows by its hit |
| Alerts.TriggerNextAlert | backend/app/services/monitoring/alert_service.py:455-488 | one round of the inner loop matches alert `j` and extends the swept prefix by one |
| Alerts.TriggerBatch | backend/app/services/monitoring/alert_service.py:453-493 | the batch's triggers are those of each application in turn, and each alert's count grows by the number of applications it matched |
| Alerts.TriggerNext | backend/app/services/monitoring/alert_service.py:453-488 | one round of the outer loop appends the next application's triggers and adds its hits to the counts |
| Alerts.AlertService.constructor | backend/app/services/monitoring/alert_service.py:300-307 | a new service starts with both caches empty and agreeing |
| Alerts.AlertService.CreateAlert | backend/app/services/monitoring/alert_service.py:310-360 | a fresh, active, never-triggered alert with the given values is appended to its owner's list and to the list of all; the caches keep agreeing |
| Alerts.AlertService.GetAlert | backend/app/services/monitoring/alert_service.py:405-422 | returns one of the user's alerts with the id, and nothing only when the user has none with it |
| Alerts.AlertService.GetUserAlerts | backend/app/services/monitoring/alert_service.py:424-446 | the user's cached alerts, only the active ones when asked, and none for an unknown user |
| Alerts.AlertService.UpdateAlert | backend/app/services/monitoring/alert_service.py:362-386 | returns what `get_alert` returns; when found, that alert's attributes are updated as the loop does, the lists are unchanged, no other alert changes, and the caches keep agreeing unless the owner is updated |
| Alerts.AlertService.DeleteAlert | backend/app/services/monitoring/alert_service.py:388-403 | as written: the id is dropped from the user's list and from the list of all alerts whoever owns it; it always reports success, and the caches keep agreeing exactly when no other user owns that id |
| Alerts.AlertService.DeleteOwnAlert | backend/app/services/monitoring/alert_service.py:388-403 | corrected: only the user's own alert is dropped from both lists, and the caches keep agreeing |
| Alerts.AlertService.ProcessNewApplications | backend/app/services/monitoring/alert_service.py:448-493 | the triggers of the batch, application by application and alert by alert; what matching reads is unchanged and each alert's count grows by the applications it matched |
| Alerts.AlertService.CountNewTriggers | backend/app/services/monitoring/alert_service.py:448-493 | the number of triggers the batch returns under the service's matcher; what matching reads is unchanged and, the alerts being distinct, each alert's count grows by its hits and its last trigger time becomes now exactly when it was hit |
| AnalysisApi.YearOfExamples | backend/app/api/v1/analysis.py:257-260 | the day numbering used for decision dates puts the first recent year, 2022, where the calendar does |
| AnalysisApi.AssessAppealStrength | backend/app/api/v1/analysis.py:247-279 | weak at 0.2 with no precedents; otherwise strong exactly when the mean similarity exceeds 0.8 and at least three precedents are from 2022 on, moderate exactly when not strong and the mean exceeds 0.7 or two are recent, weak otherwise; a strong reason names the number of recent precedents |
| AnalysisApi.StrongReasonNamesCount | backend/app/api/v1/analysis.py:262-267 | the number of recent precedents can be read back from a strong rating's reason |
| AnalysisApi.StrongNeedsRecentCases | backend/app/api/v1/analysis.py:256-266 | a strong rating needs at least three precedents and a recent one, and any precedent scores above the empty case |
| AnalysisApi.AnalyseSearch | backend/app/api/v1/analysis.py:73-90 | the search asks for ten results at similarity 0.65, includes refused cases exactly when counter-arguments are wanted, and filters on the given ward and conservation area only |
| AnalysisApi.AnalyseSearchParams | backend/app/api/v1/analysis.py:84-90 | the search sent asks the database for twenty rows at 0.65, carries the ward exactly when one is given and the outcome filter exactly when counter-arguments are not wanted, and no date or type filter |
| AnalysisApi.AnalyseOutcome | backend/app/api/v1/analysis.py:92-101 | 404 exactly when no precedent was found, otherwise the analysis of the precedents |
| AnalysisApi.QuickRequest | backend/app/api/v1/analysis.py:131-142 | a query under twenty characters is refused with 400; otherwise the request keeps the query and ward and asks for no counter-arguments |
| AnalysisApi.QuickSearchGrantedOnly | backend/app/api/v1/analysis.py:131-150 | a quick analysis always sends the outcome filter, so it never searches refused decisions |
| AnalysisApi.QuickSummary | backend/app/api/v1/analysis.py:157-161 | the quick answer keeps the first five precedents and the first three risks, in order |
| AnalysisApi.BatchGuard | backend/app/api/v1/analysis.py:294-298 | more than ten queries is refused with 400; otherwise the queries pass unchanged |
| AnalysisApi.AppealSearch | backend/app/api/v1/analysis.py:196-207 | the appeal search asks for ten granted decisions at 0.6, in the refused case's ward when it has one |
| AnalysisApi.AppealOutcome | backend/app/api/v1/analysis.py:188-244 | 404 exactly for an unknown case; a warning instead of an argument exactly when fewer than two approved precedents are found; otherwise the argument with the strength assessment of those precedents |
| AnalysisService.StrongPrecedentsSpec | backend/app/services/llm/analysis_service.py:133-135 | the strong precedents counted are exactly those scoring above 0.8 |
| AnalysisService.DetermineRecommendation | backend/app/services/llm/analysis_service.py:362-373 | confidence exactly for a high likelihood with at least three strong precedents; caution exactly when not that and the likelihood is medium or some precedent is strong; amendments exactly otherwise |
| AnalysisService.HighWithoutStrongPrecedents | backend/app/services/llm/analysis_service.py:368-373 | a "High" likelihood without strong precedents is advised amendments, below the caution given to a "Medium" one |
| AnalysisService.RecommendationMonotone | backend/app/services/llm/analysis_service.py:362-373 | more strong precedents never weaken the advice for the same likelihood |
| AnalysisService.ContextParts | backend/app/services/llm/analysis_service.py:167 | one block for each of the first ten precedents |
| AnalysisService.BuildPrecedentContext | backend/app/services/llm/analysis_service.py:160-184 | the context is the blocks of the first ten precedents joined by newlines |
| AnalysisService.ContextNumbering | backend/app/services/llm/analysis_service.py:167-183 | at most ten blocks; block k is numbered k + 1 and describes the k-th precedent, so no two share a number |
| AnalysisService.ToArgument | backend/app/services/llm/analysis_service.py:245-251 | a reply entry's missing heading or content becomes the empty text and its missing lists become empty |
| AnalysisService.GenerateArguments | backend/app/services/llm/analysis_service.py:186-254 | fails exactly when the reply fails; otherwise one section per reply entry, in order |
| AnalysisService.GrantedByValue | backend/app/services/llm/analysis_service.py:266-269 | comparing an outcome's value with "Granted" is comparing the outcome with Granted |
| AnalysisService.RiskStats | backend/app/services/llm/analysis_service.py:264-273 | the mean similarity and the granted share are both 0 with no precedents, and the share is always in [0, 1] |
| AnalysisService.RiskStatsBounds | backend/app/services/llm/analysis_service.py:264-265 | when every score is in [0, 1], so is the mean similarity |
| AnalysisService.ToRiskAssessment | backend/app/services/llm/analysis_service.py:318-326 | missing fields become "Medium", 0.5 and empty lists; the assessment exists exactly when its confidence is in [0, 1], which the record enforces |
| AnalysisService.EmptyRiskReply | backend/app/services/llm/analysis_service.py:318-326 | an empty reply gives a valid medium-likelihood assessment with confidence 0.5 |
| AnalysisService.Elements | backend/app/services/llm/analysis_service.py:382-383 | the set of a list holds exactly the list's elements |
| AnalysisService.ExtractAllPolicies | backend/app/services/llm/analysis_service.py:375-398 | the references of every argument and every pattern hit in the context, once each, sorted |
| AnalysisService.ArgumentPoliciesSpec | backend/app/services/llm/analysis_service.py:382-383 | a reference is collected from the arguments exactly when some argument lists it |
| AnalysisService.ContextPoliciesSpec | backend/app/services/llm/analysis_service.py:386-395 | a reference is collected from the context exactly when some pattern finds it there |
| AnalysisService.ExtractAllPoliciesSpec | backend/app/services/llm/analysis_service.py:375-398 | the policy list is ascending, hence free of repeats, and holds exactly the references some argument gives and the hits of some pattern |
| AnalysisService.AnalysePrecedents | backend/app/services/llm/analysis_service.py:93-158 | fails exactly when a reply fails or the risk confidence is out of range; otherwise the assessment is the reply's, the advice follows its likelihood and the number of precedents above 0.8, the policies are the extracted list and the summary is the stripped reply |
| AppealStrategist.DetermineGrounds | backend/app/services/ai/appeal_strategist.py:369-406 | policy compliance is primary exactly when some reason is weak or nothing else applies; inconsistent decisions are primary exactly with a strong finding, secondary exactly with only weaker findings; insufficient reasons and material considerations are secondary exactly when some reason calls for them; no ground is repeated or in both lists, there is at least one and at most two are primary |
| AppealStrategist.RecommendAppealType | backend/app/services/ai/appeal_strategist.py:408-438 | never a public inquiry; an informal hearing exactly when neither the few-reasons-with-a-weak-one rule nor the two-strong-findings rule applies and there are more than three grounds or a strong reason |
| AppealStrategist.HearingNeedsStrongReason | backend/app/services/ai/appeal_strategist.py:172-175 | called with the primary grounds (at most two), the ground count never decides, so a hearing is recommended only for a strong reason |
| AppealStrategist.EstimateSuccessRate | backend/app/services/ai/appeal_strategist.py:502-528 | the estimate always lies in [0.15, 0.80] |
| AppealStrategist.SuccessRateBase | backend/app/services/ai/appeal_strategist.py:502-528 | with no reasons and no findings the estimate is the 35% base rate |
| AppealStrategist.SuccessRateMonotone | backend/app/services/ai/appeal_strategist.py:502-528 | another weak reason never lowers the estimate and another strong one never raises it |
| AppealStrategist.SuccessRateFindingMonotone | backend/app/services/ai/appeal_strategist.py:502-528 | another strong finding never lowers the estimate |
| AppealStrategist.IdentifyRisks | backend/app/services/ai/appeal_strategist.py:530-554 | the risk list has the count risk exactly when some reason is strong, first; the missing-precedent, heritage and neighbour risks when they apply; and the two cost risks always last |
| AppealStrategist.RisksCounted | backend/app/services/ai/appeal_strategist.py:536-552 | only the first risk can be the count of strong reasons |
| AppealStrategist.RisksUnprecedented | backend/app/services/ai/appeal_strategist.py:541-543 | the missing-precedent risk is listed exactly when there are no findings |
| AppealStrategist.RisksMentioned | backend/app/services/ai/appeal_strategist.py:545-549 | the heritage and neighbour risks are listed exactly when some reason's text mentions them |
| AppealStrategist.GenerateRecommendations | backend/app/services/ai/appeal_strategist.py:556-578 | one opening line from 0.6 up, two from 0.4 up and two others below; always followed by the procedure, the six-month deadline and the consultant |
| AppealStrategist.IdentifyEvidenceNeeds | backend/app/services/ai/appeal_strategist.py:470-500 | the evidence is the four base items, the two comparison items exactly when inconsistent decisions is a ground, and what each key issue calls for, without repeats |
| AppealStrategist.AddIssueEvidence | backend/app/services/ai/appeal_strategist.py:488-498 | one reason's key issues add exactly the evidence each calls for |
| AppealStrategist.EvidenceFromIssues | backend/app/services/ai/appeal_strategist.py:488-492 | a key issue that mentions design, in any case, brings the design and access statement |
| AppealStrategist.InconsistencySearch | backend/app/services/ai/appeal_strategist.py:300-307 | the search for inconsistent approvals asks for the ward's granted cases, ten at 0.65 |
| AppealStrategist.FindInconsistencies | backend/app/services/ai/appeal_strategist.py:309-367 | the findings are the cases at 0.7 or above rated strong or moderate, sorted by strength and cut to five |
| AppealStrategist.CandidatesShape | backend/app/services/ai/appeal_strategist.py:309-358 | every candidate finding comes from a case of the search at 0.7 or above and is rated strong or moderate |
| AppealStrategist.TopFindingsSpec | backend/app/services/ai/appeal_strategist.py:361-367 | at most five findings, each qualifying, every strong one ahead of every moderate one, and the strong ones kept in search order (the sort is stable) |
| AppealStrategist.CalculateAppealTimeline | backend/app/services/ai/appeal_strategist.py:651-698 | the deadline is 180 days after the decision and submission four weeks before it; nine milestones in strictly increasing date order, only the first complete, the expected decision the procedure's weeks after submission; two critical dates and a nine-item unchecked checklist |
| AppealStrategist.GenerateKeyArguments | backend/app/services/ai/appeal_strategist.py:440-468 | the key arguments are the first two counter-arguments of each analysed reason, reason by reason, followed by the first three findings |
| AppealStrategist.CounterArgumentsFrom | backend/app/services/ai/appeal_strategist.py:450-457 | each counter argument is one of the first two counter-arguments of an analysed reason and cites that reason's number and policies; at most two per reason |
| AppealStrategist.KeyArgumentsSpec | backend/app/services/ai/appeal_strategist.py:449-468 | the counters come first and the inconsistency arguments after them, exactly the first three findings in order |
| AppealStrategist.AssembleStrategy | backend/app/services/ai/appeal_strategist.py:140-215 | never a public inquiry, a hearing only for a strong reason, the weeks and costs of the recommended procedure, the estimate of the reasons and findings, at least one ground, the key arguments of the reasons and findings, the cost risks last and four or five recommendations |
| ApplicationGenerator.TableFee | backend/app/services/generator/application_generator.py:129-137 | the 2024 fee table; a type absent from it (outline, tree works) costs 0 |
| ApplicationGenerator.CalculateFee | backend/app/services/generator/application_generator.py:644-659 | never below the table fee, and exactly the table fee unless the application is full with a given area above 40 square metres |
| ApplicationGenerator.FullFeeAbove40 | backend/app/services/generator/application_generator.py:653-657 | above 40 square metres a full application pays 528 plus 528 per 75 square metres over 40, pro rata, truncated to within one pound below the exact amount |
| ApplicationGenerator.FeeMonotone | backend/app/services/generator/application_generator.py:644-659 | a larger floor area never lowers the fee |
| ApplicationGenerator.UntabledFree | backend/app/services/generator/application_generator.py:650 | outline and tree-works applications cost nothing whatever the area |
| ApplicationGenerator.GetRequiredDocuments | backend/app/services/generator/application_generator.py:609-642 | the list built is the required list of the type and site |
| ApplicationGenerator.RequiredForHeritage | backend/app/services/generator/application_generator.py:615-632 | the list starts with the six base documents and holds the heritage statement exactly in a conservation area, the listed-building items exactly for a listed building |
| ApplicationGenerator.RequiredForFullAndTrees | backend/app/services/generator/application_generator.py:634-642 | the planning statement and CIL form are required exactly for a full application, the arboricultural assessment exactly under a tree preservation order |
| ApplicationGenerator.RequiredForOrder | backend/app/services/generator/application_generator.py:609-642 | the documents follow the council's list order |
| ApplicationGenerator.RequiredDocumentsDistinct | backend/app/services/generator/application_generator.py:609-642 | a list in that order has no repeats, so no document is asked for twice |
| ApplicationGenerator.FormDataOf | backend/app/services/generator/application_generator.py:564-593 | the form carries the table fee, and an agent block exactly when there is an agent, holding the agent's name and email |
| ApplicationGenerator.FormFeeIgnoresArea | backend/app/services/generator/application_generator.py:590 | the form's fee ignores floor area: a 190 square metre full application is charged 1584 by the fee rule but its form says 528 |
| ApplicationGenerator.GenerateFormData | backend/app/services/generator/application_generator.py:564-607 | the form document is JSON of the form data, typed as the application form |
| ApplicationGenerator.ApplicationTypesSpec | backend/app/services/generator/application_generator.py:139-168 | three to five documents: covering letter and design statement first, the heritage statement exactly in a conservation area, the planning statement exactly for full or outline, the form last, no kind twice |
| ApplicationGenerator.GenerateApplication | backend/app/services/generator/application_generator.py:139-168 | one document per kind of the list, in order; every one but the last is the markdown rendered for its kind, the last is the form data |
| Auth.CheckUsageLimit | backend/app/services/auth/auth_service.py:292-324 | for searches, analyses and exports it reports the month's count and the tier's limit and allows exactly when the count is below the limit; any other type passes with 0 and 0 |
| Auth.IncrementUsage | backend/app/services/auth/auth_service.py:326-345 | a known usage type's monthly counter goes up by one; an unknown type changes nothing |
| Auth.IncrementThenCheck | backend/app/services/auth/auth_service.py:292-345 | one use raises what the check reports for that type by one and leaves other types alone, so a user at the limit stays refused |
| Auth.UserScopes | backend/app/services/auth/auth_service.py:347-361 | "read" first; "write" and "export" exactly for admins and professionals; "admin" exactly for admins; "api" exactly for tiers with API access; no scope twice |
| Auth.RegisterUser | backend/app/services/auth/auth_service.py:28-104 | unaccepted terms fail first, then an existing email; otherwise success exactly unless the insert returned no rows, giving an active, unverified free-tier homeowner with zero usage |
| Auth.Authenticate | backend/app/services/auth/auth_service.py:106-146 | an unknown email and a wrong password give the same error; success exactly for a found, matching, active user, with that user's scopes |
| Auth.AuthenticateHidesAccounts | backend/app/services/auth/auth_service.py:117-123 | a caller cannot tell an unknown email from a wrong password: the answers are equal |
| Auth.BearerToken | backend/app/api/v1/auth.py:100-106 | a token exactly when the header splits on whitespace into two parts whose first is "bearer" in any case; the token is the second part |
| Auth.BearerRoundTrip | backend/app/api/v1/auth.py:100-108 | a header made of "bearer" in any case, one space and a non-empty space-free token gives that token back |
| Auth.CurrentUser | backend/app/api/v1/auth.py:95-108 | no user without a bearer token; otherwise the user the token resolves to |
| Auth.RequireAuth | backend/app/api/v1/auth.py:111-121 | passes exactly when someone is signed in; otherwise 401 with a Bearer challenge |
| Auth.RequireAdmin | backend/app/api/v1/auth.py:124-133 | passes exactly for a signed-in admin; 401 when nobody is signed in, else 403 without a challenge |
| Auth.RequireProfessional | backend/app/api/v1/auth.py:136-145 | passes exactly for a signed-in admin or professional; 401 when nobody is signed in, else 403 without a challenge |
| Auth.GatesNested | backend/app/api/v1/auth.py:111-145 | whoever passes the admin gate passes the professional gate, whoever passes that is signed in and holds the "write" scope |
| Cases.TotalPages | backend/app/api/v1/cases.py:161 | the ceiling division gives the least number of pages of the given size that holds every row |
| Cases.ExtractPolicies | backend/app/api/v1/cases.py:255-273 | the loop collects every capture of every pattern written into its template, then keeps the twenty least in order |
| Cases.RefsFormatted | backend/app/api/v1/cases.py:268-271 | every collected reference is some pattern's capture written into that pattern's template |
| Cases.PolicyListSpec | backend/app/api/v1/cases.py:273 | the list is ascending (so free of repeats), holds min(found, 20) references, all collected ones, every one when at most twenty were found, and when cut keeps only references below every dropped one |
| Cases.FirstCapture | backend/app/api/v1/cases.py:287-295 | nothing exactly when no pattern matches; otherwise the capture of one of the patterns |
| Cases.ExtractConclusions | backend/app/api/v1/cases.py:276-295 | a conclusion exactly when some conclusion pattern matches |
| Cases.TidyShape | backend/app/api/v1/cases.py:290-293 | a conclusion is at most 500 characters, empty only for a blank capture, starts with a non-space and holds no whitespace but single plain spaces |
| Cases.TidyKeepsText | backend/app/api/v1/cases.py:290-293 | below the cut, tidying keeps every non-whitespace character of the capture, in order |
| Cases.OtherCases | backend/app/api/v1/cases.py:67-70 | at most five related cases, each from the listing and none the requested case |
| Cases.OtherMatches | backend/app/api/v1/cases.py:84 | at most five similar cases, each from the search and none the requested case |
| Cases.OtherCasesFull | backend/app/api/v1/cases.py:67-70 | the related list is as long as the other cases allow, up to five |
| Cases.RelatedFilter | backend/app/api/v1/cases.py:65 | the related-case filter sets only a postcode prefix, and that prefix is a prefix of the postcode four characters long, or the whole of a shorter postcode |
| Cases.GetCaseDetail | backend/app/api/v1/cases.py:34-99 | 404 for an unknown case; otherwise the decision, its chunk texts joined by blank lines, at most five related cases at the postcode prefix and at most five similar cases (none the case itself, none without a postcode or chunks), the policies and the conclusions of the text |
| Cases.ListFilters | backend/app/api/v1/cases.py:121-147 | 400 exactly for an unknown outcome or development type; otherwise the dates and listed flag as given, the ward, outcome and type exactly when given, and no other filter |
| Cases.ListFiltersAcceptOutcomes | backend/app/api/v1/cases.py:131-133 | every outcome's own value is accepted and becomes the filter's outcome |
| Cases.ListFiltersIgnoreConservationArea | backend/app/api/v1/cases.py:109-126 | the conservation-area flag is accepted but changes no filter |
| Cases.ListCases | backend/app/api/v1/cases.py:149-162 | fails exactly when the filters fail; otherwise the listing's page and total, with the least page count that holds the total |
| Cases.SiteHistorySpec | backend/app/api/v1/cases.py:180-193 | the timeline holds exactly the listed decisions at the same site (address containment either way, or the same postcode), oldest first, with same-day decisions in listing order |
| Cases.GetCaseTimeline | backend/app/api/v1/cases.py:166-209 | 404 exactly for an unknown case; otherwise one entry per decision of the site's history, in order, each description at most 200 characters, and the count of entries |
| Cases.GetCaseDocuments | backend/app/api/v1/cases.py:213-252 | 404 exactly for an unknown case; otherwise the decision notice and the officer report when their links are known, in that order, and always the council-portal link for the reference last |
| Chunker.OverlapLen | backend/app/services/embeddings/embedding_service.py:384-393 | the overlap never keeps more sentences than there are |
| Chunker.OverlapIsLongestSuffix | backend/app/services/embeddings/embedding_service.py:378-395 | the overlap is a suffix of the chunk's sentences within the token target, and the longest one: every longer suffix exceeds the target |
| Chunker.GetOverlapSentences | backend/app/services/embeddings/embedding_service.py:378-395 | the backward walk returns exactly the longest suffix of the sentences within the target |
| Chunker.OverlapLenLast | backend/app/services/embeddings/embedding_service.py:387-393 | one step of the backward walk keeps the next sentence exactly when it still fits the budget |
| Chunker.SplitLongText | backend/app/services/embeddings/embedding_service.py:355-376 | the loop packs the words into the pieces of the greedy packing rule |
| Chunker.GroupsFlatten | backend/app/services/embeddings/embedding_service.py:362-374 | the packed groups hold exactly the words, in order |
| Chunker.GroupsAdmissible | backend/app/services/embeddings/embedding_service.py:362-374 | every group is non-empty and within the token limit unless it is a single word |
| Chunker.SplitLongTextKeepsWords | backend/app/services/embeddings/embedding_service.py:355-376 | splitting the pieces again gives back the text's words in order; each piece is non-empty and within chunk_size - 50 tokens unless it is a single word |
| Chunker.RawSentences | backend/app/services/embeddings/embedding_service.py:352 | splitting at sentence breaks always gives at least one piece |
| Chunker.SentencesStripped | backend/app/services/embeddings/embedding_service.py:349-353 | every sentence returned is non-empty and has no surrounding whitespace |
| Chunker.SplitChunks | backend/app/services/embeddings/embedding_service.py:293-303 | one "split_sentence" chunk per piece of a hard-split sentence |
| Chunker.AppendSplitChunks | backend/app/services/embeddings/embedding_service.py:293-303 | the inner loop appends the pieces as split-sentence chunks numbered on from the chunks so far |
| Chunker.AddSentence | backend/app/services/embeddings/embedding_service.py:271-332 | one turn of the sentence loop does what the step rule says for that sentence |
| Chunker.AddLongSentence | backend/app/services/embeddings/embedding_service.py:275-304 | a sentence over chunk_size flushes the current chunk and appends its own pieces |
| Chunker.AddOverflowingSentence | backend/app/services/embeddings/embedding_service.py:307-329 | a sentence that does not fit flushes the current chunk and starts the next from its overlap plus the sentence |
| Chunker.ChunkSection | backend/app/services/embeddings/embedding_service.py:257-347 | the section's chunks are those of the sentence loop over its sentences |
| Chunker.ChunkSentences | backend/app/services/embeddings/embedding_service.py:264-347 | the loop and its final flush give the chunks of the step rule folded over the sentences |
| Chunker.SeededBound | backend/app/services/embeddings/embedding_service.py:321-329 | a chunk started from an overlap is a suffix of the previous chunk's sentences plus one sentence, and holds at most chunk_size + max(chunk_overlap, 0) tokens |
| Chunker.ChunkSectionGood | backend/app/services/embeddings/embedding_service.py:257-347 | a section's chunks are numbered from the start index without gaps, carry the section number, and every regular chunk holds at most chunk_size + max(chunk_overlap, 0) tokens |
| Chunker.LongSections | backend/app/services/embeddings/embedding_service.py:250 | every kept section is longer than 100 characters once stripped and comes from the split |
| Chunker.SectionsShape | backend/app/services/embeddings/embedding_service.py:236-255 | the sections are never empty: either the whole text or the long sections of the first pattern that splits the text in more than one piece |
| Chunker.ChunkDocument | backend/app/services/embeddings/embedding_service.py:168-221 | the loop gives the chunks of the document rule; blank text gives none |
| Chunker.SectionsChunksStops | backend/app/services/embeddings/embedding_service.py:198-213 | the section loop stops after the first section that brings the total to max_chunks or more, and earlier prefixes stay below it |
| Chunker.SectionsChunksStep | backend/app/services/embeddings/embedding_service.py:198-205 | one more section appends its chunks, numbered from the total so far |
| Chunker.DocumentStopsAfterLimit | backend/app/services/embeddings/embedding_service.py:198-213 | whole sections are processed in order and the loop stops right after the first one that reaches max_chunks, so the total can exceed max_chunks by that section's chunks |
| Chunker.DocumentIndicesContiguous | backend/app/services/embeddings/embedding_service.py:195-205 | chunk indices run 0, 1, 2, ... across all sections with no gaps |
| Collaboration.SessionId | backend/app/services/realtime/collaboration_service.py:79 | the session key is a fixed prefix followed by the project id, so distinct projects get distinct keys |
| Collaboration.CommentId | backend/app/services/realtime/collaboration_service.py:227-229 | the comment number reads back from its id, so distinct numbers give distinct ids |
| Collaboration.NewCollaborator | backend/app/services/realtime/collaboration_service.py:26-34 | a new collaborator has the given id and role, no cursor, and is active |
| Collaboration.NewSession | backend/app/services/realtime/collaboration_service.py:84-96 | a new session sits under its project's key, has the owner as its only collaborator with the OWNER role, and no comments |
| Collaboration.FirstWithId | backend/app/services/realtime/collaboration_service.py:281-290 | the position found holds the id and no earlier comment has it; nothing only when no comment has it |
| Collaboration.FirstIsOnly | backend/app/services/realtime/collaboration_service.py:227-229 | comment ids in a session are unique, so the first comment with an id is the only one |
| Collaboration.NumberedAppend | backend/app/services/realtime/collaboration_service.py:227-258 | a comment numbered beyond every stored one may be appended and the session stays numbered in increasing order |
| Collaboration.NumberedResolve | backend/app/services/realtime/collaboration_service.py:281-290 | marking a comment resolved keeps the comments' ids and their order |
| Collaboration.ByType | backend/app/services/realtime/collaboration_service.py:396-397 | the first filter keeps, in order, the comments of the target type when one is given |
| Collaboration.ById | backend/app/services/realtime/collaboration_service.py:399-400 | the second filter keeps, in order, the comments of the target id when one is given |
| Collaboration.ByResolved | backend/app/services/realtime/collaboration_service.py:402-403 | the third filter drops resolved comments unless they are asked for |
| Collaboration.SelectCommentsSpec | backend/app/services/realtime/collaboration_service.py:394-403 | the filter chain keeps, in order, exactly the comments that pass all three tests |
| Collaboration.NotePreview | backend/app/services/realtime/collaboration_service.py:348 | the preview is the note itself up to 200 characters, otherwise its first 200 |
| Collaboration.CollaborationService.constructor | backend/app/services/realtime/collaboration_service.py:66-69 | a new service has no sessions and a zero comment counter |
| Collaboration.CollaborationService.StartSession | backend/app/services/realtime/collaboration_service.py:71-100 | an existing session is returned unchanged; otherwise a new one with the owner as only collaborator is stored under the project's key; every stored session stays well formed |
| Collaboration.CollaborationService.JoinSession | backend/app/services/realtime/collaboration_service.py:102-143 | nothing without a session; otherwise the user is added, or replaced, with the given role and only that session changes |
| Collaboration.CollaborationService.LeaveSession | backend/app/services/realtime/collaboration_service.py:145-178 | the user is removed if present, the session is deleted once nobody is left, and nothing changes for an absent session or user |
| Collaboration.CollaborationService.UpdateCursor | backend/app/services/realtime/collaboration_service.py:180-212 | for a collaborator of an existing session the cursor and both last-activity times change and nothing else; otherwise nothing changes |
| Collaboration.CollaborationService.AddComment | backend/app/services/realtime/collaboration_service.py:214-265 | the counter goes up whether or not the project has a session; the comment, numbered by it, is appended only when it has, and its number exceeds every stored comment's |
| Collaboration.CollaborationService.ResolveComment | backend/app/services/realtime/collaboration_service.py:267-302 | the first comment of the session with the id is marked resolved and nothing else changes; false when there is no session or no such comment |
| Collaboration.CollaborationService.GetSession | backend/app/services/realtime/collaboration_service.py:356-359 | a session exactly when one is stored under the project's key, and a stored one belongs to that project and has collaborators |
| Collaboration.CollaborationService.ActiveCollaborators | backend/app/services/realtime/collaboration_service.py:361-381 | none without a session; otherwise every collaborator of the session, each under its own id |
| Collaboration.CollaborationService.GetComments | backend/app/services/realtime/collaboration_service.py:383-420 | none without a session; otherwise, in order, exactly the session's comments that pass the type, id and resolved filters |
| Collaboration.CommentIdsDistinct | backend/app/services/realtime/collaboration_service.py:227-229 | two different counter values give two different comment ids |
| Config.ValidateAppEnv | backend/app/core/config.py:97-104 | accepted exactly when the lowercased value is one of the four environments, and the lowercased value is stored |
| Config.ValidateAppEnvIdempotent | backend/app/core/config.py:97-104 | the validator accepts its own output unchanged |
| Config.OriginsList | backend/app/core/config.py:127-129 | splitting on commas always gives at least one entry |
| Config.FirstBadOrigin | backend/app/core/config.py:113-115 | the position found holds the first entry that is neither "*" nor an http(s) URL; nothing when every entry is acceptable |
| Config.ValidateCorsOrigins | backend/app/core/config.py:106-116 | accepted exactly when every stripped entry is "*" or an http(s) URL, and then the value is kept unchanged |
| Config.OriginsListShape | backend/app/core/config.py:111-112 | the raw pieces rejoin at the commas to the value, each entry is its piece stripped, and no entry holds a comma |
| Config.TargetWardsList | backend/app/core/config.py:132-134 | the ward list is split exactly as the origins are |
| Config.ValidateTemperature | backend/app/core/config.py:118-124 | accepted exactly for a temperature in [0.0, 2.0], kept unchanged |
| Config.EmbeddingDimensions | backend/app/core/config.py:142-149 | 3072 for the large embedding model, 1536 for any other model |
| Config.LoadSettings | backend/app/core/config.py:12-124 | the settings load exactly when all three validators accept, and then only the environment is replaced by its lowercased form |
| Config.DefaultOriginAccepted | backend/app/core/config.py:78 | the default origin is an http URL |
| Config.SingleOriginValid | backend/app/core/config.py:106-116 | an acceptable single origin without commas or surrounding whitespace passes unchanged |
| Config.DefaultOriginsValid | backend/app/core/config.py:78 | the default origins pass the origin validator |
| Config.DefaultAppEnvValid | backend/app/core/config.py:24 | the default environment passes its validator unchanged |
| Config.DefaultsLoad | backend/app/core/config.py:24-78 | the defaults pass every validator and load unchanged: chunks of 500 tokens, overlap 50, at most 100 chunks per document, the large model at 3072 dimensions |
| DocumentAnalyzer.TotalWeight | backend/app/services/ai/document_analyzer.py:407-443 | each statement weighs one, a conclusion two, so the weight lies between the count and twice the count |
| DocumentAnalyzer.CalculateOverallSentiment | backend/app/services/ai/document_analyzer.py:407-443 | the accumulation loop computes the bucketed weighted mean of the statements' scores, neutral for no statements |
| DocumentAnalyzer.TotalScoreBounds | backend/app/services/ai/document_analyzer.py:407-443 | the weighted score stays between -2 and +2 times the weight |
| DocumentAnalyzer.OverallSentimentIntegers | backend/app/services/ai/document_analyzer.py:432-443 | the mean is at least 1.5 exactly when 2s >= 3w, and likewise for each lower bucket, in integers |
| DocumentAnalyzer.UnanimousSentiment | backend/app/services/ai/document_analyzer.py:407-443 | when every statement has the same level, so has the document |
| DocumentAnalyzer.ConclusionCountsTwice | backend/app/services/ai/document_analyzer.py:427-430 | a concluding statement counts as the same statement made twice without being a conclusion |
| DocumentAnalyzer.ExtractOutcome | backend/app/services/ai/document_analyzer.py:451-464 | the outcome, when there is one, is one of the four decision values |
| DocumentAnalyzer.OutcomeSpec | backend/app/services/ai/document_analyzer.py:451-464 | granted exactly when a grant phrase occurs; refused exactly when none does and "refused" does (so "permission is refused" never decides on its own); then appeal allowed, appeal dismissed, or nothing, each exactly when the earlier tests fail |
| DocumentAnalyzer.OutcomeIgnoresCase | backend/app/services/ai/document_analyzer.py:453 | the outcome does not depend on letter case |
| DocumentAnalyzer.Categorise | backend/app/services/ai/document_analyzer.py:328-332 | the category loop with its early exit picks the first category in table order one of whose keywords occurs, else "general" |
| DocumentAnalyzer.ConditionFrom | backend/app/services/ai/document_analyzer.py:325-345 | the loop body cuts, categorises and flags one condition as the condition rule says |
| DocumentAnalyzer.ConditionsOf | backend/app/services/ai/document_analyzer.py:324-345 | one condition per match, in order |
| DocumentAnalyzer.ExtractConditions | backend/app/services/ai/document_analyzer.py:316-347 | the conditions are those of every match the pattern finds, in order |
| DocumentAnalyzer.ConditionSpec | backend/app/services/ai/document_analyzer.py:325-338 | a condition's text is the stripped body cut to 500 characters; its category is "general" exactly when no keyword occurs, else the first category in table order whose keyword occurs; it needs a submission exactly when one of the four phrases occurs |
| DocumentAnalyzer.MentionsOf | backend/app/services/ai/document_analyzer.py:311-312 | one "source match" mention per match, in order |
| DocumentAnalyzer.Deduplicate | backend/app/services/ai/document_analyzer.py:314 | the result has no repeats and holds exactly the entries of the input |
| DocumentAnalyzer.ExtractPolicies | backend/app/services/ai/document_analyzer.py:305-314 | the references have no repeats and are exactly the "source match" mentions of every pattern's matches |
| DocumentAnalyzer.PoliciesSpec | backend/app/services/ai/document_analyzer.py:309-312 | a reference is reported exactly when some pattern matched it, prefixed by that pattern's source |
| DocumentAnalyzer.CompareDocuments | backend/app/services/ai/document_analyzer.py:466-541 | common policies are exactly those cited by both, divergent ones exactly those cited by one; the model's fields with their defaults on success, and empty lists, "Comparison failed" and 0.0 on failure |
| DocumentAnalyzer.ComparisonPartitions | backend/app/services/ai/document_analyzer.py:480-485 | common and divergent policies never overlap and together are every policy either document cites |
| DocumentAnalyzer.ComparisonSymmetric | backend/app/services/ai/document_analyzer.py:480-485 | swapping the documents leaves both policy sets as they were |
| DocumentAnalyzer.SectionEnd | backend/app/services/ai/document_analyzer.py:250-260 | a section's end never passes the end of the text |
| DocumentAnalyzer.FindSectionEnd | backend/app/services/ai/document_analyzer.py:250-260 | the loop over the other types' patterns finds the end the end rule gives |
| DocumentAnalyzer.SectionEndSpec | backend/app/services/ai/document_analyzer.py:250-260 | the end is the end of the text or at least 100 characters on, and no later than the first match of any other type's pattern found from there |
| DocumentAnalyzer.ExtractSections | backend/app/services/ai/document_analyzer.py:239-279 | the sections are the first matches of the patterns with long enough text, stably sorted by start position |
| DocumentAnalyzer.CandidatesSpec | backend/app/services/ai/document_analyzer.py:243-274 | a section is a candidate exactly when it is the long-enough first match of one of the patterns |
| DocumentAnalyzer.SectionsSpec | backend/app/services/ai/document_analyzer.py:239-279 | the reported sections are sorted by start, a permutation of the candidates, exactly the first matches whose stripped text is over 50 characters, each holding at most 5000 characters of the text between its start and end |
| DocumentTemplates.Find | backend/app/services/generator/document_templates.py:165-167 | the template found has the id asked for; nothing exactly when no template has it |
| DocumentTemplates.RegistryIdsDistinct | backend/app/services/generator/document_templates.py:38-163 | the registry holds six templates with distinct ids |
| DocumentTemplates.GetTemplate | backend/app/services/generator/document_templates.py:165-167 | a registered template with the id, and nothing exactly when no template has it |
| DocumentTemplates.GetTemplateRoundTrip | backend/app/services/generator/document_templates.py:165-167 | every registered template is found under its own id |
| DocumentTemplates.ListTemplatesSpec | backend/app/services/generator/document_templates.py:169-179 | all templates without a category; otherwise exactly the registered templates of that category |
| DocumentTemplates.ListTemplatesOrder | backend/app/services/generator/document_templates.py:169-179 | the listed templates come in registry order |
| DocumentTemplates.SiteLine | backend/app/services/generator/document_templates.py:198 | the site line shows the supplied address, even an empty one, else the placeholder |
| DocumentTemplates.SectionBody | backend/app/services/generator/document_templates.py:208-212 | a section shows its supplied content when that is non-empty, else a placeholder naming the section |
| DocumentTemplates.RenderSections | backend/app/services/generator/document_templates.py:204-214 | the section loop emits the body lines of the sections in order |
| DocumentTemplates.RenderTemplate | backend/app/services/generator/document_templates.py:181-216 | nothing exactly for an unknown id; otherwise the rendered lines joined with newlines |
| DocumentTemplates.BodyLayout | backend/app/services/generator/document_templates.py:204-214 | section k occupies lines 4k to 4k + 4 of the body and is numbered k + 1 |
| DocumentTemplates.RenderedLayout | backend/app/services/generator/document_templates.py:195-214 | seven header lines (title, site, date, rule) then four lines per section: the numbered heading, a blank, the body and a blank |
| DocumentTemplates.PromptAndCountTablesAgree | backend/app/services/generator/document_templates.py:218-254 | whatever the template, the prompts and the word counts cover the same section ids |
| DocumentTemplates.WordCountsInRange | backend/app/services/generator/document_templates.py:237-254 | every recommended word count lies between 150 and 800 |
| DocumentTemplates.RearExtensionCovered | backend/app/services/generator/document_templates.py:38-254 | every section of the rear-extension template has a prompt and a word count |
| MapService.MarkerColour | backend/app/services/geo/map_service.py:136-139 | a recognised lower-cased outcome (missing counts as "pending") picks its colour from the table, any other outcome grey |
| MapService.MarkerIcon | backend/app/services/geo/map_service.py:141-142 | a recognised lower-cased development type picks its icon, any other the pin |
| MapService.MarkerColourDefaults | backend/app/services/geo/map_service.py:136-139 | a case without an outcome is drawn in the pending colour; an unrecognised outcome in grey |
| MapService.CreatePlanningLayer | backend/app/services/geo/map_service.py:123-168 | the layer holds exactly the markers of the positioned cases, in case order |
| MapService.MarkersSpec | backend/app/services/geo/map_service.py:130-160 | marker k is built from the k-th case with both coordinates non-zero; cases missing either are skipped, so there are never more markers than cases and no marker sits at zero |
| MapService.HeatWeight | backend/app/services/geo/map_service.py:186-190 | a case's weight is its named numeric field when present, otherwise 1.5 when granted, otherwise 1.0 |
| MapService.CreateHeatmapLayer | backend/app/services/geo/map_service.py:170-203 | the heat-map layer holds exactly the heat points of the positioned cases, in order |
| MapService.HeatPointsSpec | backend/app/services/geo/map_service.py:177-196 | point k sits at the k-th positioned case's coordinates with that case's weight, one point per positioned case |
| MapService.CreateWardBoundariesLayer | backend/app/services/geo/map_service.py:205-228 | with no boundary data for any ward the layer carries no polygons |
| MapService.Latitudes | backend/app/services/geo/map_service.py:272 | the list holds one entry per case with a truthy latitude, every such latitude, and only recorded latitudes |
| MapService.Longitudes | backend/app/services/geo/map_service.py:273 | the list holds one entry per case with a truthy longitude, every such longitude, and only recorded longitudes |
| MapService.SeqMin | backend/app/services/geo/map_service.py:286-288 | the minimum is an element of the list and no larger than any element |
| MapService.SeqMax | backend/app/services/geo/map_service.py:286-289 | the maximum is an element of the list and no smaller than any element |
| MapService.GetMapBoundsDefault | backend/app/services/geo/map_service.py:275-281 | without any recorded latitude or any recorded longitude the fixed Camden box is returned |
| MapService.GetMapBoundsContain | backend/app/services/geo/map_service.py:283-290 | otherwise every recorded coordinate lies strictly inside the box and each edge is exactly 0.01 beyond a recorded coordinate |
| MapService.MarkerFeatures | backend/app/services/geo/map_service.py:373-387 | one point feature per marker, in marker order, each decoding back to its marker's latitude and longitude |
| MapService.ExportToGeoJson | backend/app/services/geo/map_service.py:368-411 | the collection lists the marker features then the polygon features |
| MapService.ExportSpec | backend/app/services/geo/map_service.py:368-411 | each marker's point decodes back to the marker's own latitude and longitude (longitude first), and each polygon's ring is its stored coordinates unchanged |
| MapService.PolygonLatitudeInLongitudeSlot | backend/app/services/geo/map_service.py:395 | as written, a polygon stored as [lat, lon] pairs is exported with the latitude in the GeoJSON longitude slot |
| MapService.LonLatRing | backend/app/services/geo/map_service.py:55 | each stored [lat, lon] pair is rewritten as a [lon, lat] position |
| MapService.PolygonFeatureLonLatSpec | backend/app/services/geo/map_service.py:389-405 | corrected export: every position decodes back to the stored latitude and longitude |
| Planning.OutcomeFromValue | backend/app/models/planning.py:13-20 | a text is mapped to the outcome whose value it is, or to nothing (Python raises) |
| Planning.OutcomeRoundTrip | backend/app/models/planning.py:13-20 | every outcome is found again from its own value: the values are distinct |
| Planning.DevelopmentTypeFromValue | backend/app/models/planning.py:23-39 | a text is mapped to the development type whose value it is, or to nothing |
| Planning.DevelopmentTypeRoundTrip | backend/app/models/planning.py:23-39 | every development type is found again from its own value |
| Planning.ValidateCaseReferenceSpec | backend/app/models/planning.py:96-103 | a reference is accepted exactly when its upper-cased, stripped text has the Camden pattern, and then that text is the value; otherwise the format error |
| Planning.CaseReferenceNormal | backend/app/models/planning.py:77 | a text with the case-reference pattern is already upper-case and stripped |
| Planning.ValidateCaseReferenceIdempotent | backend/app/models/planning.py:96-103 | validating an accepted reference again gives the same reference |
| Planning.CaseReferenceFieldExact | backend/app/models/planning.py:74-78 | the declared field accepts exactly the texts that already match the pattern, unchanged |
| Planning.CaseReferenceFieldRefusesLowerCase | backend/app/models/planning.py:74-103 | as written, "2023/1234/p" is refused by the field pattern though the validator would upper-case it |
| Planning.CaseReferenceFieldNormalising | backend/app/models/planning.py:96-103 | corrected order (normalise, then check): accepted exactly when the normalised text has the pattern, and the value always has it |
| Planning.CaseReferenceFieldNormalisingAcceptsLowerCase | backend/app/models/planning.py:96-103 | the corrected order accepts "2023/1234/p" as "2023/1234/P" |
| Planning.ValidatePostcode | backend/app/models/planning.py:105-115 | a missing postcode stays missing and a present one stays present |
| Planning.CompactShape | backend/app/models/planning.py:112 | the compacted postcode holds no spaces, only upper-case-fixed characters and no whitespace at either end |
| Planning.NormalisePostcodeShape | backend/app/models/planning.py:112-115 | the result is the compacted text with exactly one space inserted three characters from the end when it has at least five characters |
| Planning.RemoveInsertedSpace | backend/app/models/planning.py:112-114 | removing spaces undoes the inserted space |
| Planning.InsertedSpaceCompacts | backend/app/models/planning.py:112-114 | compacting the text with the inserted space gives back the compacted text |
| Planning.NormalisePostcodeIdempotent | backend/app/models/planning.py:112-115 | normalising a normalised postcode changes nothing |
| Planning.ValidatePostcodeIdempotent | backend/app/models/planning.py:105-115 | the postcode validator is idempotent |
| Planning.PostcodeNormal | backend/app/models/planning.py:84 | a text with the postcode pattern is already upper-case and stripped |
| Planning.RemoveGap | backend/app/models/planning.py:84 | removing the spaces of outward code, gap, inward code leaves the two codes joined |
| Planning.PostcodeFieldCanonical | backend/app/models/planning.py:81-115 | an accepted postcode whose gap is spaces comes out as outward code, one space, inward code |
| Planning.SearchQueryErrors | backend/app/models/planning.py:171-190 | a search request is free of errors exactly when the query has 10 to 2000 characters, the limit is 1 to 50 and the threshold lies in [0, 1] |
| Planning.DefaultSearchQueryValid | backend/app/models/planning.py:171-190 | with the defaults (limit 10, threshold 0.7) a request is valid exactly when its query has an allowed length |
| PlanningAgent.ValueInjective | backend/app/services/ai/planning_agent.py:29-41 | no two actions share a value |
| PlanningAgent.FindActionSound | backend/app/services/ai/planning_agent.py:29-41 | a name is only ever mapped to the action whose value it is |
| PlanningAgent.ActionValueRoundTrip | backend/app/services/ai/planning_agent.py:29-41 | every action is found again from its value |
| PlanningAgent.ParseResponseFields | backend/app/services/ai/planning_agent.py:224-255 | no thought gives ""; no action word, or a word naming no action, gives FINISH; a recognised lower-cased word gives that action; the input is the decoded object, `{"raw": text}` when it does not decode, `{}` when there is none |
| PlanningAgent.ParseRecognisesAction | backend/app/services/ai/planning_agent.py:238-245 | a reply whose action word is an action's value in any letter case is parsed as that action |
| PlanningAgent.ExecuteActionReports | backend/app/services/ai/planning_agent.py:257-272 | an unregistered tool is reported as not available, a registered tool's text is cut to 3000 characters, a failing tool's error is reported |
| PlanningAgent.ObservationBounded | backend/app/services/ai/planning_agent.py:257-272 | a registered tool's observation never exceeds 3000 characters |
| PlanningAgent.SourcesFromLookups | backend/app/services/ai/planning_agent.py:194-198 | every recorded source comes from a precedent search or a case-detail step |
| PlanningAgent.CalculateConfidence | backend/app/services/ai/planning_agent.py:274-300 | no steps give 0.0; any run with steps scores within the clamp [0.1, 0.95] |
| PlanningAgent.ConfidenceRange | backend/app/services/ai/planning_agent.py:274-300 | the unclamped score already lies in [0.4, 0.95], so the clamp never binds; a run that only finishes scores exactly 0.5 |
| PlanningAgent.OpeningReplies | backend/app/services/ai/planning_agent.py:134-142 | the conversation opens with a system and a task message and no reply of the model |
| PlanningAgent.RoundSize | backend/app/services/ai/planning_agent.py:146-207 | one round adds at most one step and two messages; a round that does not finish adds its reply or error message plus one observation per recorded step |
| PlanningAgent.RoundSteps | backend/app/services/ai/planning_agent.py:175-191 | a round either ends on a FINISH step that ran no tool or leaves every recorded step with its tool's observation |
| PlanningAgent.RoundTraced | backend/app/services/ai/planning_agent.py:146-207 | a round keeps the recorded steps equal, one for one, to the parses of the model's replies in the conversation |
| PlanningAgent.RoundObserved | backend/app/services/ai/planning_agent.py:188-190 | a round records only the observation its own tool call returned |
| PlanningAgent.RunFromSize | backend/app/services/ai/planning_agent.py:146-207 | the remaining rounds add at most one step and two messages each; without success every round was used |
| PlanningAgent.RunFromSteps | backend/app/services/ai/planning_agent.py:146-207 | the remaining rounds end on a FINISH step that ran no tool after steps that all ran theirs, or leave every step having run its tool |
| PlanningAgent.RunFromTraced | backend/app/services/ai/planning_agent.py:146-207 | the remaining rounds keep the steps the parses of the conversation's replies |
| PlanningAgent.RunFromObserved | backend/app/services/ai/planning_agent.py:146-207 | the remaining rounds record only observations their tool calls returned |
| PlanningAgent.TraceResult | backend/app/services/ai/planning_agent.py:175-221 | the result reads success exactly when one of the model's replies asked to FINISH, and then answers with that reply's "answer" input |
| PlanningAgent.RunOutcome | backend/app/services/ai/planning_agent.py:115-222 | the steps are the parses of the model's replies in order, at most one a round; the run succeeds exactly when a reply asks to FINISH and answers with its "answer" input; every observation is its tool's output; a failed run used all its rounds, fifteen for a new agent |
| PlanningAgent.RunShape | backend/app/services/ai/planning_agent.py:146-221 | at most one step a round, fifteen for a new agent, and two messages a step beyond the opening two; a success ends on a FINISH step that ran no tool, every earlier step having run its tool; a failure ran every step's tool |
| PlanningAgent.Run | backend/app/services/ai/planning_agent.py:115-222 | the loop computes exactly the round-by-round run specification: its result and conversation are those of RunTrace, about which RunOutcome and RunShape state what run promises |
| PlanningAgent.IdentifyPoliciesFor | backend/app/services/ai/planning_agent.py:397-421 | the policies are those of every table key contained in the lower-cased type, plus D2 and section 72 with a conservation area |
| PlanningAgent.ConservationPolicies | backend/app/services/ai/planning_agent.py:418-419 | section 72 is reported exactly when a conservation area other than "None" is given, and D2 with it |
| PredictionEngine.BaseRate | backend/app/services/ai/prediction_engine.py:91-105 | every development type's base rate, 0.70 when unlisted, lies in [0.55, 0.90] |
| PredictionEngine.ConservationPenalty | backend/app/services/ai/prediction_engine.py:164-167 | no area (or an empty one) counts as "None" with no penalty; an area the table does not name costs 0.05; every penalty lies in [0, 0.15] |
| PredictionEngine.RestrictiveAreas | backend/app/services/ai/prediction_engine.py:108-116 | only the Hampstead, Belsize and Redington Frognal areas bring the conservation modifier below 0.9 |
| PredictionEngine.PrecedentStrength | backend/app/services/ai/prediction_engine.py:174-181 | 1.15 exactly with five precedents of mean similarity 0.8, 1.08 exactly for three at 0.7 otherwise, 0.90 exactly with none |
| PredictionEngine.PrecedentStrengthMonotone | backend/app/services/ai/prediction_engine.py:174-181 | more precedents, or more similar ones, never weaken the multiplier |
| PredictionEngine.SeasonalModifier | backend/app/services/ai/prediction_engine.py:185-190 | the modifier lies in [0.98, 1.02] and is below 1 exactly from January to March |
| PredictionEngine.ComplexityModifier | backend/app/services/ai/prediction_engine.py:197-202 | the modifier lies in [0.90, 1.05] and is below 1 exactly for a complex proposal |
| PredictionEngine.Confidence | backend/app/services/ai/prediction_engine.py:488-499 | the confidence never exceeds 0.9 and, with non-negative counts, is at least 0.5 |
| PredictionEngine.ConfidenceMonotone | backend/app/services/ai/prediction_engine.py:488-499 | more precedents never lower the confidence; thirty precedents reach the cap |
| PredictionEngine.BaseDays | backend/app/services/ai/prediction_engine.py:511-520 | a development type's base time is 56, 70 or 91 days |
| PredictionEngine.TimelineShape | backend/app/services/ai/prediction_engine.py:501-527 | the standard estimate is the base, simple is quicker and complex slower, all estimates run from 50 to 118 days |
| PredictionEngine.CacheKeyInjective | backend/app/services/ai/prediction_engine.py:414 | distinct wards have distinct cache keys |
| PredictionEngine.Engine.constructor | backend/app/services/ai/prediction_engine.py:118-121 | the cache starts empty |
| PredictionEngine.Engine.GetWardStats | backend/app/services/ai/prediction_engine.py:412-432 | a cached ward is answered from the cache; otherwise a successful lookup (found ward or defaults) is cached, and a failed one answered with the defaults and not cached |
| PredictionEngine.Engine.PredictScenario | backend/app/services/ai/prediction_engine.py:388-404 | a scenario's result is the prediction from its ward's figures, and no ward's figures change |
| PredictionEngine.Engine.CompareScenarios | backend/app/services/ai/prediction_engine.py:376-410 | the result is the scenario results ranked by probability, and no ward's figures change |
| PredictionEngine.CacheTransparent | backend/app/services/ai/prediction_engine.py:412-432 | filling the cache from the lookup never changes the figures any ward gets |
| PredictionEngine.OutlookMonotone | backend/app/services/ai/prediction_engine.py:252-259 | a higher probability never gets a more cautious recommendation |
| PredictionEngine.Positives | backend/app/services/ai/prediction_engine.py:226-233 | strong precedent support is listed exactly with three precedents of mean similarity 0.7 (the multiplier above 1.05), a high ward rate exactly above 0.8; the trend, always 0, is never listed |
| PredictionEngine.Negatives | backend/app/services/ai/prediction_engine.py:235-242 | limited precedent support exactly below two precedents, a listed building exactly when listed, complexity exactly for a complex proposal, conservation restrictions exactly for a penalty above 0.1 |
| PredictionEngine.Predict | backend/app/services/ai/prediction_engine.py:123-273 | the probability lies in [0.1, 0.95], the recommendation is its tier, the comparable cases are the precedents plus the type's data points |
| PredictionEngine.Resolve | backend/app/services/ai/prediction_engine.py:390-398 | a scenario without a type, ward or complexity gets "Other", "Unknown" or "standard" |
| PredictionEngine.ScenarioResults | backend/app/services/ai/prediction_engine.py:386-404 | one result per scenario, in scenario order |
| PredictionEngine.RankDescending | backend/app/services/ai/prediction_engine.py:406 | the ranking is a permutation of the results with the highest probability first |
| PredictionEngine.RankStable | backend/app/services/ai/prediction_engine.py:406 | results with the same probability keep their scenario order |
| PredictionEngine.CompareScenariosInRange | backend/app/services/ai/prediction_engine.py:376-410 | the comparison holds one result per scenario, every probability within [0.1, 0.95] |
| PredictionEngine.AnalyseTrends | backend/app/services/ai/prediction_engine.py:275-330 | the direction follows the 0.05 dead band, the strength lies in [-1, 1] with the sign of the change, the prediction is the momentum value clamped to [0.3, 0.95], notable changes exactly when the change or the volume moves enough |
| PredictionEngine.StubTrendsStable | backend/app/services/ai/prediction_engine.py:456-468 | with the fixed period figures every analysis is stable with nothing notable and predicts 0.75 |
| ReasoningEngine.TraceSteps | backend/app/services/ai/reasoning_engine.py:41-58 | a trace records one step per entry, in order |
| ReasoningEngine.TraceStepsAppend | backend/app/services/ai/reasoning_engine.py:41-58 | appending a trace entry appends its step |
| ReasoningEngine.StepValues | backend/app/services/ai/reasoning_engine.py:27-37 | one completed-step name per step |
| ReasoningEngine.StepOrderShape | backend/app/services/ai/reasoning_engine.py:187-240 | the run performs each of its six steps once and never the context-gathering, precedent-finding or synthesis steps |
| ReasoningEngine.Completed | backend/app/services/ai/reasoning_engine.py:207-240 | the number of completed steps is the index of the first failing reply, or all six |
| ReasoningEngine.ReasoningContext.constructor | backend/app/services/ai/reasoning_engine.py:41-58 | the context holds the request and the precedents, with nothing understood and no policies yet |
| ReasoningEngine.StepUnderstand | backend/app/services/ai/reasoning_engine.py:242-256 | a successful reply becomes the understood requirements; a failing one leaves the context untouched |
| ReasoningEngine.StepIdentifyPolicies | backend/app/services/ai/reasoning_engine.py:258-280 | a successful reply becomes the relevant policies; a failing one leaves the context untouched |
| ReasoningEngine.StepAnalyseSimilarities | backend/app/services/ai/reasoning_engine.py:282-318 | a successful reply records the similarity step; a failing one leaves the context untouched |
| ReasoningEngine.StepAssessRisks | backend/app/services/ai/reasoning_engine.py:320-354 | a successful reply becomes the risk factors; a failing one leaves the context untouched |
| ReasoningEngine.StepGenerateArguments | backend/app/services/ai/reasoning_engine.py:356-392 | a successful reply becomes the arguments; a failing one leaves the context untouched |
| ReasoningEngine.StepVerifyCitations | backend/app/services/ai/reasoning_engine.py:394-430 | the verification reply is returned and the step recorded; a failing one leaves the context untouched |
| ReasoningEngine.RunSteps | backend/app/services/ai/reasoning_engine.py:207-225 | the chain stops at the first failing reply, so exactly the steps before it have completed, each with one trace entry |
| ReasoningEngine.RunLaterSteps | backend/app/services/ai/reasoning_engine.py:218-225 | steps 4 to 6 on top of the first three, with the same stop-at-first-failure outcome |
| ReasoningEngine.CitationFactor | backend/app/services/ai/reasoning_engine.py:443 | the share of verified citations lies in [0, 1], dividing by at least one |
| ReasoningEngine.CitationFactorSpec | backend/app/services/ai/reasoning_engine.py:443 | the factor is 0 without citations and 1 exactly when there are some and all are verified |
| ReasoningEngine.ConfidenceBounds | backend/app/services/ai/reasoning_engine.py:439-446 | with a risk score in [0, 1] and at most ten precedents the confidence lies in [0.2, 1] |
| ReasoningEngine.ConfidenceMonotone | backend/app/services/ai/reasoning_engine.py:439-446 | more precedents, a higher risk score or more verified citations never lower the confidence |
| ReasoningEngine.ConfidenceFactors | backend/app/services/ai/reasoning_engine.py:439-446 | each precedent adds 0.025, and an unset area scores like a conservation area, 0.05 below "None" |
| ReasoningEngine.RecommendationFor | backend/app/services/ai/reasoning_engine.py:464-469 | proceed exactly from 0.7, caution exactly from 0.5 below 0.7, amendments exactly below 0.5 |
| ReasoningEngine.RecommendationMonotone | backend/app/services/ai/reasoning_engine.py:464-469 | higher confidence never gives a weaker recommendation |
| ReasoningEngine.EntryRefs | backend/app/services/ai/reasoning_engine.py:488-492 | a reference is collected exactly when some entry supplies it |
| ReasoningEngine.PolicyRefsSpec | backend/app/services/ai/reasoning_engine.py:484-493 | a reference is extracted exactly when it is non-empty and one of the three categories supplies it |
| ReasoningEngine.PolicyRefsOnlyCategories | backend/app/services/ai/reasoning_engine.py:484-493 | only the primary, secondary and heritage categories are read |
| ReasoningEngine.WrapRisk | backend/app/services/ai/reasoning_engine.py:476 | a text risk becomes the record holding just that text under "risk" |
| ReasoningEngine.WrapRisks | backend/app/services/ai/reasoning_engine.py:476 | each risk is wrapped in place, one record per risk |
| ReasoningEngine.PrecedentsCited | backend/app/services/ai/reasoning_engine.py:477 | the references of the first ten precedents, "" where one has none |
| ReasoningEngine.SynthesizeOutput | backend/app/services/ai/reasoning_engine.py:432-482 | the output exists exactly when the summary call succeeds; its summary is the stripped reply and its confidence the computed one |
| ReasoningEngine.Reason | backend/app/services/ai/reasoning_engine.py:187-240 | a run succeeds exactly when every reply does; its trace then records the six steps in order and the output cites the first ten precedents |
| Retriever.DevelopmentValues | backend/app/db/supabase_client.py:252-254 | the development-type filter is sent as the types' values, one per type, in order |
| Retriever.AreaValues | backend/app/db/supabase_client.py:256-258 | the conservation-area filter is sent as the areas' values, one per area, in order |
| Retriever.SearchParamsBase | backend/app/db/supabase_client.py:238-265 | the request over-fetches twice the limit at the caller's threshold, sends only known keys, and carries the outcome filter "Granted" exactly when refused decisions are not wanted |
| Retriever.FilterParamsSpec | backend/app/db/supabase_client.py:245-259 | each filter parameter is present exactly when its filter is set and carries that filter's values; the base parameters are kept |
| Retriever.NoFiltersAddNothing | backend/app/db/supabase_client.py:238-265 | with no filter set, only the three base parameters and the outcome default are sent |
| Retriever.SearchIgnoresOtherFilters | backend/app/db/supabase_client.py:244-259 | the outcome, property-type, listed-building and postcode filters never reach the search request |
| Retriever.Candidates | backend/app/db/supabase_client.py:277-291 | only rows whose decision record exists can become matches |
| Retriever.CandidatesGrow | backend/app/db/supabase_client.py:277-300 | the candidates of a prefix of the rows begin the candidates of all the rows |
| Retriever.PickedAtCap | backend/app/db/supabase_client.py:285-286 | once the limit is reached the later rows change nothing |
| Retriever.PickedBelowCap | backend/app/db/supabase_client.py:277-300 | before the limit is reached every candidate so far is picked, and so is the next one |
| Retriever.RenderSnoc | backend/app/db/supabase_client.py:293-300 | a resolvable row with a valid score extends the matches by that row's match |
| Retriever.DedupMatches | backend/app/db/supabase_client.py:273-300 | the loop over the search rows yields exactly the specified matches |
| Retriever.CandidatesOrdered | backend/app/db/supabase_client.py:277-291 | the candidates are in row order and each is the first row of its decision, so a missing record also suppresses that decision's later rows |
| Retriever.IdsMember | backend/app/db/supabase_client.py:280-283 | a decision is marked seen before row m exactly when some earlier row carries it |
| Retriever.CandidatesDistinct | backend/app/db/supabase_client.py:280-283 | no two candidates belong to the same decision |
| Retriever.CandidatesComplete | backend/app/db/supabase_client.py:277-291 | every decision of the rows whose record exists has a candidate |
| Retriever.PickedOrdered | backend/app/db/supabase_client.py:277-300 | at most the limit is picked, in row order without re-sorting, one per decision and that decision's first row |
| Retriever.PickedComplete | backend/app/db/supabase_client.py:277-300 | when fewer than the limit are picked, every decision of the rows whose record exists is among them |
| Retriever.SearchSpecMatches | backend/app/db/supabase_client.py:267-300 | at most the limit of matches, one per picked row in order, with the row's similarity unchanged, the first 500 characters of its chunk and its chunk id; no rows give no matches; a similarity outside [0, 1] fails the record's validation |
| Retriever.SearchMatchesDistinct | backend/app/db/supabase_client.py:277-300 | no two matches share a decision |
| Retriever.ChunksNotOfSpec | backend/app/db/supabase_client.py:122-125 | exactly the chunks of other decisions survive the chunk deletion |
| Retriever.SupabaseDB.constructor | backend/app/db/supabase_client.py:48-51 | the client starts over the given tables with nothing sent |
| Retriever.SupabaseDB.DeleteDecision | backend/app/db/supabase_client.py:120-135 | the chunk deletion is sent before the decision deletion; the decision's chunks and row are gone, everything else is kept, and the answer is true exactly when the row existed |
| Retriever.SupabaseDB.SearchSimilar | backend/app/db/supabase_client.py:228-308 | the matches are those the specification picks from the rows the search returns for the request built |
| Retriever.DeleteLeavesNoOrphans | backend/app/db/supabase_client.py:120-135 | after deleting a decision no chunk refers to it, and every chunk of another decision is kept |
| Retriever.ListWithoutFilters | backend/app/db/supabase_client.py:155-172 | without filters the listing has no condition |
| Retriever.ListWardOutcome | backend/app/db/supabase_client.py:156-159 | the ward and outcome conditions are present exactly when their filters are set |
| Retriever.ListTypesAreas | backend/app/db/supabase_client.py:160-165 | the development-type and conservation-area conditions are present exactly when their filters are set |
| Retriever.ListListedDates | backend/app/db/supabase_client.py:166-171 | the listed-building and each date condition are present exactly when set, with the given date |
| Retriever.PagesAdjacent | backend/app/db/supabase_client.py:174-178 | consecutive pages ask for adjacent inclusive ranges of page_size rows, the first page starting at row 0 |
| Retriever.RowOnOnePage | backend/app/db/supabase_client.py:174-178 | with a positive page size every row lies on exactly one page, page row / page_size + 1 |
| WardStats.GrantedCount | backend/app/db/supabase_client.py:427 | the granted count never exceeds the number of rows |
| WardStats.TallyKeys | backend/app/db/supabase_client.py:429-436 | the type order lists each counted type once, and only counted types |
| WardStats.TallyCounts | backend/app/db/supabase_client.py:433-435 | every non-empty type is counted exactly as often as it occurs, and only such types |
| WardStats.TallyAreas | backend/app/db/supabase_client.py:436-437 | the areas are exactly the non-empty names other than "None" that some row carries |
| WardStats.TallyRows | backend/app/db/supabase_client.py:433-437 | the counting loop produces the specified tally |
| WardStats.InsertPermutes | backend/app/db/supabase_client.py:440 | inserting adds exactly the new element |
| WardStats.InsertKeepsOrder | backend/app/db/supabase_client.py:440 | inserting keeps the sequence ordered by falling frequency |
| WardStats.InsertStable | backend/app/db/supabase_client.py:440 | inserting keeps the order among equally frequent elements and puts the new one last among them |
| WardStats.SortPermutes | backend/app/db/supabase_client.py:440 | the sort returns a permutation of its input |
| WardStats.SortOrders | backend/app/db/supabase_client.py:440 | the sort puts more frequent types first |
| WardStats.SortStable | backend/app/db/supabase_client.py:440 | the sort is stable: equally frequent types keep their first-seen order |
| WardStats.CommonTypesMostFrequent | backend/app/db/supabase_client.py:440-441 | at most five types are kept, each a counted type, and no type left out is more frequent than one kept |
| WardStats.ParseAll | backend/app/db/supabase_client.py:443-449 | every name is converted, failing on the first rejected one |
| WardStats.ParseAllFails | backend/app/db/supabase_client.py:443-449 | the conversion fails exactly when some name is rejected |
| WardStats.ParseTypes | backend/app/db/supabase_client.py:443-449 | each kept type name becomes the development type with that value |
| WardStats.GetWardStats | backend/app/db/supabase_client.py:412-450 | the method computes the specified statistics of the ward's rows |
| WardStats.WardStatsNone | backend/app/db/supabase_client.py:422-423 | a ward without rows has no statistics, and only such a ward |
| WardStats.WardStatsFails | backend/app/db/supabase_client.py:443-449 | the statistics fail exactly when a kept type name is not a development type |
| WardStats.WardStatsInfo | backend/app/db/supabase_client.py:425-447 | the statistics carry the ward, its row count and the granted share, which lies in [0, 1] |
| WardStats.WardStatsTypesAreas | backend/app/db/supabase_client.py:439-449 | at most five types, those the sort ranks first, and never the area "None" or "" |
| Scheduler.StampOrder | backend/app/services/monitoring/monitoring_scheduler.py:136 | a date-time on an earlier day, or in an earlier hour of the same day, compares earlier |
| Scheduler.Weekday | backend/app/services/monitoring/monitoring_scheduler.py:95-102 | the weekday lies in 0 (Monday) to 6 (Sunday) |
| Scheduler.PlusHour | backend/app/services/monitoring/monitoring_scheduler.py:203-204 | adding an hour moves the instant forward by exactly one hour |
| Scheduler.PlusFiveMinutes | backend/app/services/monitoring/monitoring_scheduler.py:289 | adding five minutes moves the instant forward by exactly five minutes |
| Scheduler.AtHour | backend/app/services/monitoring/monitoring_scheduler.py:207-213 | the given day offset at the given hour with minutes and seconds cleared; the microseconds are kept |
| Scheduler.DaysAhead | backend/app/services/monitoring/monitoring_scheduler.py:95-102 | the next such weekday is one to seven days ahead, and seven exactly when today is that weekday |
| Scheduler.NextWeekday | backend/app/services/monitoring/monitoring_scheduler.py:95-102 | the next given weekday strictly after today, at the given hour exactly, within seven days |
| Scheduler.NextRun | backend/app/services/monitoring/monitoring_scheduler.py:200-219 | the next run is always strictly after now: an hour later, 08:00 or 18:00 next, 06:00 tomorrow, or next Monday 09:00 by frequency |
| Scheduler.AfterRunCounters | backend/app/services/monitoring/monitoring_scheduler.py:148-168 | a run changes exactly one counter by one, never the active flag, and schedules the next run after now; the error count grows exactly when the Camden fetch fails |
| Scheduler.RunNotDueAgain | backend/app/services/monitoring/monitoring_scheduler.py:132-137 | a job that has just run, successfully or not, is not due again at the same instant |
| Scheduler.MonitoringJob.constructor | backend/app/services/monitoring/monitoring_scheduler.py:27-38 | a new job has never run, is active and has no errors |
| Scheduler.MonitoringJob.SetState | backend/app/services/monitoring/monitoring_scheduler.py:157-168 | the job's changing fields take the given values |
| Scheduler.Without | backend/app/services/monitoring/monitoring_scheduler.py:274 | deleting a key keeps every other key, in order, without repeats |
| Scheduler.UniqueCard | backend/app/services/monitoring/monitoring_scheduler.py:302 | a key order without repeats has as many keys as positions |
| Scheduler.LatestRun | backend/app/services/monitoring/monitoring_scheduler.py:309-312 | the latest last run among the jobs, none exactly when no job has run |
| Scheduler.MonitoringScheduler.constructor | backend/app/services/monitoring/monitoring_scheduler.py:55-93 | the scheduler starts with the Camden job, twice daily and due in an hour, and the weekly summary due next Monday 09:00 |
| Scheduler.MonitoringScheduler.Start | backend/app/services/monitoring/monitoring_scheduler.py:104-112 | the scheduler is running; a second start keeps the first start time |
| Scheduler.MonitoringScheduler.Stop | backend/app/services/monitoring/monitoring_scheduler.py:114-123 | the scheduler is stopped and nothing else changes |
| Scheduler.MonitoringScheduler.AddJob | backend/app/services/monitoring/monitoring_scheduler.py:265-268 | the job is stored under its id, a replaced job keeps its place in the order, and the registry stays consistent |
| Scheduler.MonitoringScheduler.RemoveJob | backend/app/services/monitoring/monitoring_scheduler.py:270-276 | true exactly when the id was there; the other jobs keep their order |
| Scheduler.MonitoringScheduler.PauseJob | backend/app/services/monitoring/monitoring_scheduler.py:278-283 | true exactly when the id is there, and then only that job becomes inactive |
| Scheduler.MonitoringScheduler.ResumeJob | backend/app/services/monitoring/monitoring_scheduler.py:285-291 | true exactly when the id is there, and then that job is active again and due five minutes from now |
| Scheduler.MonitoringScheduler.RunJob | backend/app/services/monitoring/monitoring_scheduler.py:148-168 | the job's state becomes its state after the run; a successful Camden fetch hands the batch to the alert service |
| Scheduler.MonitoringScheduler.CheckCamden | backend/app/services/monitoring/monitoring_scheduler.py:170-192 | the totals grow by the applications and by the alerts they trigger; an empty batch changes nothing |
| Scheduler.MonitoringScheduler.RunJobNow | backend/app/services/monitoring/monitoring_scheduler.py:293-298 | true exactly when the id is there, and then that job has run; the totals grow by the applications it hands over and the triggers they raise, each alert's count and last trigger time move on by its hits, the alert views, key order, running flag and start time are unchanged |
| Scheduler.MonitoringScheduler.Tick | backend/app/services/monitoring/monitoring_scheduler.py:127-137 | one pass runs every active job that is due and leaves the others untouched; the running flag, start time and alert views are unchanged |
| Scheduler.MonitoringScheduler.TickOne | backend/app/services/monitoring/monitoring_scheduler.py:132-137 | the loop body touches only the job at its position; the totals grow by the applications that job hands over if due and by the triggers they raise, and the running flag, start time and alert views are unchanged |
| Scheduler.MonitoringScheduler.StatesOf | backend/app/services/monitoring/monitoring_scheduler.py:300-316 | the states of the named jobs, in order |
| Scheduler.MonitoringScheduler.ActiveJobs | backend/app/services/monitoring/monitoring_scheduler.py:310 | the number of active jobs, never more than the number of jobs |
| Scheduler.MonitoringScheduler.LastRun | backend/app/services/monitoring/monitoring_scheduler.py:313-316 | the latest last run among the jobs, none exactly when no job has run |
| Scheduler.MonitoringScheduler.Stats | backend/app/services/monitoring/monitoring_scheduler.py:300-316 | the number of jobs, the number of active jobs, the two totals as they stand, the uptime since the start time (0 when never started), and the latest last run among the jobs, none exactly when no job has run |
| Scheduler.ActiveCount | backend/app/services/monitoring/monitoring_scheduler.py:310 | counting active states along a key order without repeats counts the active jobs |
| Scheduler.PassTotals | backend/app/services/monitoring/monitoring_scheduler.py:132-137 | summed job by job, what a pass hands over and the triggers it raises equal those of the whole pass taken as one batch |
| Scraper.OrDefault | backend/app/services/scraper/camden_scraper.py:179-180 | an absent or empty list falls back to the default, a non-empty one is kept |
| Scraper.DateWindows | backend/app/services/scraper/camden_scraper.py:189-214 | the loop visits exactly the specified windows |
| Scraper.WindowsConsecutive | backend/app/services/scraper/camden_scraper.py:189-214 | each window spans at most 31 days, the next begins the day after one ends, the first at the start, none past the end; no windows when start is not before end |
| Scraper.WindowsCoverBeforeEnd | backend/app/services/scraper/camden_scraper.py:189-214 | every day from the start up to the day before the end is searched |
| Scraper.LastDayMissed | backend/app/services/scraper/camden_scraper.py:190 | as written, days 0 to 31 search only days 0 to 30, and a one-day range searches nothing |
| Scraper.WindowsThroughCover | backend/app/services/scraper/camden_scraper.py:190 | corrected loop (while start <= end): every day of the range, the last included, is searched |
| Scraper.WindowsThroughDisjoint | backend/app/services/scraper/camden_scraper.py:190-214 | the corrected windows do not overlap, so no day is searched twice |
| Scraper.WindowsThroughStart | backend/app/services/scraper/camden_scraper.py:190-214 | every corrected window starts at or after the start and is non-empty |
| Scraper.PeriodQueries | backend/app/services/scraper/camden_scraper.py:196-212 | one search per window, ward and outcome, window outermost |
| Scraper.WardQueries | backend/app/services/scraper/camden_scraper.py:197-198 | within a window one search per ward and outcome, each from the given lists |
| Scraper.ScrapeDefaults | backend/app/services/scraper/camden_scraper.py:179-180 | without ward or outcome lists a scrape searches all twelve target wards for granted and refused decisions in each window |
| Scraper.RequiredPause | backend/app/services/scraper/camden_scraper.py:151-158 | the pause is never negative, and a request never follows the previous one by less than the two-second delay |
| Scraper.RateLimiter.constructor | backend/app/services/scraper/camden_scraper.py:102-107 | no request counted and none recorded |
| Scraper.RateLimiter.RateLimit | backend/app/services/scraper/camden_scraper.py:151-158 | each call counts exactly one request and records its time after the pause |
| Scraper.RequestsSpaced | backend/app/services/scraper/camden_scraper.py:151-158 | recorded request times are at least the delay apart, and a call at least the delay after the last one does not wait |
| Scraper.FirstHit | backend/app/services/scraper/camden_scraper.py:438-441 | the first rule, in table order, with a keyword in the text; none exactly when no rule fires |
| Scraper.ContainsTrans | backend/app/services/scraper/camden_scraper.py:438-441 | a text containing a phrase contains everything the phrase contains |
| Scraper.Shadowed | backend/app/services/scraper/camden_scraper.py:438-441 | a rule whose every keyword contains an earlier rule's keyword never fires first |
| Scraper.ParseOutcome | backend/app/services/scraper/camden_scraper.py:396-406 | the outcome is "Granted" exactly when the lower-cased text mentions grant or approve, and always one of "Granted", "Refused", "Withdrawn" and "Pending" |
| Scraper.ParseOutcomeSpec | backend/app/services/scraper/camden_scraper.py:396-406 | granted exactly on grant or approve; refused exactly on refuse or reject without those; withdrawn exactly on withdraw without the others; otherwise pending; never an appeal outcome |
| Scraper.WestHampsteadUnreachable | backend/app/services/scraper/camden_scraper.py:425-441 | as written, no address is ever placed in West Hampstead, because "hampstead" comes first |
| Scraper.WestHampsteadOnlyRule | backend/app/services/scraper/camden_scraper.py:425-437 | only the West Hampstead indicator yields that ward |
| Scraper.ExtractWardSpecificFirstSpec | backend/app/services/scraper/camden_scraper.py:421-443 | corrected order: West Hampstead addresses get their ward and every other address keeps its ward |
| Scraper.FirstHitSkip | backend/app/services/scraper/camden_scraper.py:438-441 | moving a rule that does not fire to the front leaves the rule that fires first unchanged |
| Scraper.SouthHampsteadUnreachable | backend/app/services/scraper/camden_scraper.py:579-610 | as written, no address is ever placed in the South Hampstead conservation area, because "hampstead" comes first |
| Scraper.IdentifyConservationAreaSpecificFirstSpec | backend/app/services/scraper/camden_scraper.py:579-610 | corrected order: South Hampstead addresses get their conservation area and every other address keeps its area |
| Scraper.ClassifyDefault | backend/app/services/scraper/camden_scraper.py:445-466 | every first-match classifier (application type, development type, conservation area) falls back to its default exactly when none of its rules fires |
| Scraper.ClassifyFirstMatch | backend/app/services/scraper/camden_scraper.py:550-577 | otherwise it answers with the value of the first rule, in table order, that fires |
| Scraper.SpaceRun | backend/app/services/scraper/camden_scraper.py:411 | the whitespace run at a position is maximal |
| Scraper.InwardAtComplete | backend/app/services/scraper/camden_scraper.py:411 | giving back whitespace never helps: the inward code matches after the whole run or not at all |
| Scraper.AfterDigit | backend/app/services/scraper/camden_scraper.py:411 | the optional character is tried present, then absent, and what is found fits the pattern |
| Scraper.MatchAt | backend/app/services/scraper/camden_scraper.py:411 | whatever the regex engine matches at a start has the postcode shape |
| Scraper.MatchAtComplete | backend/app/services/scraper/camden_scraper.py:411 | the engine finds a match at a start whenever the pattern matches there in any shape |
| Scraper.SearchFrom | backend/app/services/scraper/camden_scraper.py:412 | the search reports the leftmost start where the engine matches, none exactly when it matches nowhere |
| Scraper.CompactMatch | backend/app/services/scraper/camden_scraper.py:416-418 | with its spaces removed a match keeps the characters before the whitespace run and the three inward characters |
| Scraper.PostcodeGuardPasses | backend/app/services/scraper/camden_scraper.py:416 | the length guard always passes: a match has at least five characters that are not spaces |
| Scraper.SearchFindsAny | backend/app/services/scraper/camden_scraper.py:412-413 | the search fails exactly when the pattern matches nowhere |
| Scraper.ExtractPostcodeFound | backend/app/services/scraper/camden_scraper.py:408-419 | a postcode is extracted exactly when the pattern matches somewhere in the upper-cased address |
| Scraper.FormatMatchShape | backend/app/services/scraper/camden_scraper.py:416-418 | a formatted match has the form of a full postcode |
| Scraper.MatchTextLeftmost | backend/app/services/scraper/camden_scraper.py:412-414 | no stretch to the left of the matched one matches |
| Scraper.ExtractPostcodeValidated | backend/app/services/scraper/camden_scraper.py:408-419 | a found postcode is what the model's postcode validator makes of the matched text, and that validator leaves it unchanged |
| Sha256.Utf8Char | backend/app/services/embeddings/embedding_service.py:399 | one character encodes to one to four bytes |
| Sha256.Utf8 | backend/app/services/embeddings/embedding_service.py:399 | a text encodes to between one and four bytes per character |
| Sha256.ZeroPad | backend/app/services/embeddings/embedding_service.py:399 | the zero padding is under 64 bytes and completes the 64-byte block after the marker byte and the length |
| Sha256.PadShape | backend/app/services/embeddings/embedding_service.py:399 | the padded message is whole 64-byte blocks that begin with the message and the 0x80 marker, then zeros, and end with its bit length |
| Sha256.Digest | backend/app/services/embeddings/embedding_service.py:399 | the digest is 32 bytes |
| Sha256.Hex | backend/app/services/embeddings/embedding_service.py:399 | two lowercase hexadecimal digits per byte |
| Sha256.HexDigest | backend/app/services/embeddings/embedding_service.py:397-399 | the digest of a text's UTF-8 bytes is 64 lowercase hexadecimal digits |
| Vectorizer.CacheKey | backend/app/services/embeddings/embedding_service.py:397-399 | the cache key is 64 lowercase hexadecimal digits |
| Vectorizer.Blanks | backend/app/services/embeddings/embedding_service.py:134-136 | one empty vector per input |
| Vectorizer.NonBlankIdxSound | backend/app/services/embeddings/embedding_service.py:131 | every listed position holds a text that is neither empty nor whitespace |
| Vectorizer.NonBlankIdxIncreasing | backend/app/services/embeddings/embedding_service.py:131 | the positions are listed in increasing order |
| Vectorizer.NonBlankIdxComplete | backend/app/services/embeddings/embedding_service.py:131 | every position holding a non-blank text is listed |
| Vectorizer.Pick | backend/app/services/embeddings/embedding_service.py:141 | the texts at the given positions, in order |
| Vectorizer.ScatterAt | backend/app/services/embeddings/embedding_service.py:146-148 | with distinct positions each reply lands in its own input's slot and every other slot stays empty |
| Vectorizer.SubBatch | backend/app/services/embeddings/embedding_service.py:127-128 | a sub-batch holds at most batch_size texts |
| Vectorizer.PickNonBlank | backend/app/services/embeddings/embedding_service.py:131-141 | the texts sent are the sub-batch's non-blank texts, in order |
| Vectorizer.BlankSlotsFrom | backend/app/services/embeddings/embedding_service.py:125-166 | one slot per input, and an empty vector for every blank input wherever it sits |
| Vectorizer.SentFrom | backend/app/services/embeddings/embedding_service.py:127-143 | every upstream call carries between one and batch_size texts, none of them blank |
| Vectorizer.NoneSentFrom | backend/app/services/embeddings/embedding_service.py:133-136 | no upstream call is made when every remaining input is blank |
| Vectorizer.BlankInputsGetEmpty | backend/app/services/embeddings/embedding_service.py:110-166 | the batch result has one slot per input, in input order, and an empty vector for every blank input |
| Vectorizer.RequestsNonBlank | backend/app/services/embeddings/embedding_service.py:127-143 | each call carries one to batch_size non-blank texts; all-blank input makes no call |
| Vectorizer.BatchesSplit | backend/app/services/embeddings/embedding_service.py:127-128 | the loop from a sub-batch start is its passes up to any later sub-batch start followed by the loop from there, slots and calls alike |
| Vectorizer.BeforeLength | backend/app/services/embeddings/embedding_service.py:133-136 | when every pass yields one slot per input, the passes before sub-batch start `t` yield exactly `t` slots |
| Vectorizer.PassInPlace | backend/app/services/embeddings/embedding_service.py:125-150 | each pass's slots sit at its own input positions of the whole result, and its call, if any, comes right after the calls of the passes before it |
| Vectorizer.PlacedSlots | backend/app/services/embeddings/embedding_service.py:146-148 | the slots of one pass, wherever they sit in a longer list, hold reply `m` at the `m`-th non-blank position, or are all empty after a failed or short reply |
| Vectorizer.ReplyInPlace | backend/app/services/embeddings/embedding_service.py:125-150 | in the batch result, the input at the `m`-th non-blank position of the sub-batch starting at `t` holds vector `m` of the reply to that sub-batch's call, the call numbered after those of the earlier sub-batches |
| Vectorizer.FailedReplyInPlace | backend/app/services/embeddings/embedding_service.py:138-161 | when that call raises or returns too few vectors, every slot of the sub-batch is empty in the batch result |
| Vectorizer.CallOfSubBatch | backend/app/services/embeddings/embedding_service.py:127-143 | the call made for a sub-batch with a non-blank text is the one after the earlier sub-batches' calls, and carries that sub-batch's non-blank texts in order |
| Vectorizer.SubBatchStart | backend/app/services/embeddings/embedding_service.py:127 | every value of `range(0, len(texts), batch_size)` is a sub-batch start the placement lemmas apply to |
| Vectorizer.ScatterReply | backend/app/services/embeddings/embedding_service.py:145-148 | the loop places the replies exactly as the scatter specification says |
| Vectorizer.EmbeddingService.constructor | backend/app/services/embeddings/embedding_service.py:45-59 | the cache and the request log start empty |
| Vectorizer.EmbeddingService.GenerateEmbedding | backend/app/services/embeddings/embedding_service.py:61-108 | blank text fails before any lookup or call; a cached text is answered from the cache with no call; otherwise one call is made and, with caching, its vector stored under the text's key |
| Vectorizer.EmbeddingService.EmbedSubBatch | backend/app/services/embeddings/embedding_service.py:128-163 | one sub-batch appends its slots and makes at most one call, and a failed call gives empty slots |
| Vectorizer.EmbeddingService.GenerateEmbeddingsBatch | backend/app/services/embeddings/embedding_service.py:110-166 | the slots and the calls made are exactly those of the batch specification, and the cache is untouched |
| StatementGenerator.ContextResponse | backend/app/services/generator/statement_generator.py:185-199 | a named conservation area is quoted; otherwise the host-building paragraph is used |
| StatementGenerator.ScaleResponseFor | backend/app/services/generator/statement_generator.py:201-210 | the stated depth and height are quoted, a missing one as 3.0 m |
| StatementGenerator.MaterialsResponseFor | backend/app/services/generator/statement_generator.py:212-225 | the first three materials are named, in the conservation-area wording exactly when the site has an area |
| StatementGenerator.GatherContextEvidence | backend/app/services/generator/statement_generator.py:328-344 | the loop produces exactly the specified context evidence |
| StatementGenerator.CitedSpec | backend/app/services/generator/statement_generator.py:336-342 | one citation per granted precedent, and a citation exactly for each granted precedent |
| StatementGenerator.ContextEvidenceSpec | backend/app/services/generator/statement_generator.py:328-344 | at most three citations, one per granted precedent among the first three, and every such precedent is cited |
| StatementGenerator.GatherScaleEvidence | backend/app/services/generator/statement_generator.py:346-362 | the depth and height notes appear exactly when that measurement is given, non-zero and at most 3 m, depth first |
| StatementGenerator.GenerateDesignJustification | backend/app/services/generator/statement_generator.py:85-123 | context, scale, materials only when any are given, then sustainability: three or four justifications with distinct principles |
| StatementGenerator.PolicyInfo | backend/app/services/generator/statement_generator.py:256-301 | a known code gives the policy with that code |
| StatementGenerator.PolicyInfoRoundTrip | backend/app/services/generator/statement_generator.py:256-301 | every known policy is found again from its code |
| StatementGenerator.PolicyInfoKnownCodes | backend/app/services/generator/statement_generator.py:256-301 | exactly the five codes D1, D2, A1, A2 and A3 are known |
| StatementGenerator.PolicyReference | backend/app/services/generator/statement_generator.py:251 | the reference is the Local Plan prefix followed by the code |
| StatementGenerator.GeneratePolicyArgument | backend/app/services/generator/statement_generator.py:238-254 | an argument exactly for a known code, carrying that policy's name, reference, argument and supporting points and no precedents |
| StatementGenerator.GeneratePolicyArguments | backend/app/services/generator/statement_generator.py:125-143 | the loop produces exactly the arguments for the effective policy list |
| StatementGenerator.ArgumentsForSpec | backend/app/services/generator/statement_generator.py:138-141 | the k-th argument belongs to the k-th known code: unknown codes are dropped and the order of the rest is kept |
| StatementGenerator.ArgumentsForKnown | backend/app/services/generator/statement_generator.py:138-141 | appending a known code appends its argument |
| StatementGenerator.DefaultArguments | backend/app/services/generator/statement_generator.py:133-135 | with no policies given, the arguments are those of D1, D2 and A1, in that order |
| StatementGenerator.GenerateNeighbourImpact | backend/app/services/generator/statement_generator.py:145-183 | the four assessments do not depend on the proposal or the neighbours |
| StatementGenerator.StandardAssessmentsShape | backend/app/services/generator/statement_generator.py:303-326 | daylight, sunlight, privacy and outlook in that order; only daylight and privacy carry a mitigation; every conclusion is non-empty |
| TextExtractor.RunSpec | backend/app/services/ocr/text_extractor.py:280 | every character of a greedy run satisfies the class, and the character after it does not |
| TextExtractor.LiteralAt | backend/app/services/ocr/text_extractor.py:331-335 | a literal header pattern only removes text, never longer than the input |
| TextExtractor.PageNumberAt | backend/app/services/ocr/text_extractor.py:330 | the page-footer pattern only removes text, never longer than the input |
| TextExtractor.LineAt | backend/app/services/ocr/text_extractor.py:333-334 | a line pattern only removes text, never longer than the input |
| TextExtractor.BlankLinesAt | backend/app/services/ocr/text_extractor.py:289 | a blank-line match never reaches past the input |
| TextExtractor.CaseReferenceAt | backend/app/services/ocr/text_extractor.py:346-350 | a case-reference match never reaches past the input |
| TextExtractor.PolicyReferenceAt | backend/app/services/ocr/text_extractor.py:353-358 | a policy-reference match never reaches past the input |
| TextExtractor.MatchAt | backend/app/services/ocr/text_extractor.py:329-336 | a pattern's match at the head of a text never reaches past that text |
| TextExtractor.ApplyCorrectionsIn | backend/app/services/ocr/text_extractor.py:322-323 | the replacement loop yields the text with every correction applied in table order |
| TextExtractor.FixOcrErrorsIn | backend/app/services/ocr/text_extractor.py:296-325 | the OCR correction step yields the text with the nineteen corrections applied in dictionary order |
| TextExtractor.CorrectionsKeepCleanText | backend/app/services/ocr/text_extractor.py:322-323 | a text holding none of the misreadings (nor creating any) passes through the corrections unchanged |
| TextExtractor.RemoveHeadersFootersIn | backend/app/services/ocr/text_extractor.py:327-341 | the header loop removes the six patterns one after the other, ignoring case |
| TextExtractor.CleanTextShape | backend/app/services/ocr/text_extractor.py:274-294 | empty text cleans to empty text, and a cleaned text never begins or ends with whitespace |
| TextExtractor.CaseReferenceRewritten | backend/app/services/ocr/text_extractor.py:346-350 | a case reference with spaces around its slashes is matched whole and rewritten as year/serial/suffix |
| TextExtractor.PolicyReferenceStages | backend/app/services/ocr/text_extractor.py:353-358 | the policy matcher's result is the word `Policy `, the letter and the digits, covering the whole reference |
| TextExtractor.PolicyReferenceRewritten | backend/app/services/ocr/text_extractor.py:353-358 | a policy reference with any spacing and either case of `policy` is rewritten as `Policy ` plus its letter and number |
| TextExtractor.PageNumberRemoved | backend/app/services/ocr/text_extractor.py:330 | a `Page n of m` footer, in any case, is matched from its first letter to its last digit and removed |
| TextExtractor.LineNeverMatches | backend/app/services/ocr/text_extractor.py:333-334 | a line pattern needs a line break, so it never matches text that has none |
| TextExtractor.MatchKeepsNoNewline | backend/app/services/ocr/text_extractor.py:329-358 | no pattern introduces a line break, and the line and blank-line patterns never match a text without one |
| TextExtractor.FixOcrErrorsKeepsNoNewline | backend/app/services/ocr/text_extractor.py:296-325 | the OCR corrections introduce no line break |
| TextExtractor.CleanTextLinePatternsInert | backend/app/services/ocr/text_extractor.py:280-289 | as written: after whitespace is collapsed, the `Document Reference:` and `Printed on:` patterns and the blank-line rule cannot change the text |
| TextExtractor.LineDropped | backend/app/services/ocr/text_extractor.py:333-334 | a tagged line at the head of a text is dropped together with its line break |
| TextExtractor.CleanTextLinesFirstDropsReference | backend/app/services/ocr/text_extractor.py:327-341 | with the header patterns applied before the collapse, a leading `Document Reference:` line is gone from the cleaned text |
| TextExtractor.PagesOf | backend/app/services/ocr/text_extractor.py:129-146 | one page record per PDF page, each built from that page alone |
| TextExtractor.ExtractDigital | backend/app/services/ocr/text_extractor.py:122-179 | an unreadable PDF gives no result; otherwise the page loop yields the digital document specified from the pages |
| TextExtractor.TextDensityRange | backend/app/services/ocr/text_extractor.py:151-152 | the text density is a fraction between 0 and 1, and 1 when every page is a text page |
| TextExtractor.PagesImages | backend/app/services/ocr/text_extractor.py:158 | the document has significant images exactly when some page reported an image |
| TextExtractor.DigitalDocumentSpec | backend/app/services/ocr/text_extractor.py:150-175 | no result exactly for a likely scan (density under 0.5 with images); otherwise one page per PDF page, the density as confidence, and page tallies within the page count |
| TextExtractor.TextDocumentIsDigital | backend/app/services/ocr/text_extractor.py:141-163 | a document whose every page holds more than 100 stripped characters is never taken for a scan and has confidence 1 |
| TextExtractor.CollectLineTexts | backend/app/services/ocr/text_extractor.py:201-204 | the block loop collects exactly the LINE texts in order |
| TextExtractor.LineTextsSpec | backend/app/services/ocr/text_extractor.py:201-204 | the collected texts are, position by position, the texts of exactly the LINE blocks |
| TextExtractor.LineConfidences | backend/app/services/ocr/text_extractor.py:210-214 | one confidence per LINE block |
| TextExtractor.TesseractDocument | backend/app/services/ocr/text_extractor.py:237-272 | an OCR failure propagates; otherwise the document has one page per image, confidence 0.8 and images |
| TextExtractor.MeanConfidenceRange | backend/app/services/ocr/text_extractor.py:209-215 | Textract percentages between 0 and 100 give a mean confidence between 0 and 1 |
| TextExtractor.ExtractText | backend/app/services/ocr/text_extractor.py:86-120 | the extraction returns the result specified for the forced-OCR flag, the Textract setting and what each route sees |
| TextExtractor.ExtractTextChoice | backend/app/services/ocr/text_extractor.py:103-229 | the digital result is returned exactly when OCR is not forced and its confidence exceeds 0.7; a Textract result needs a small file and a successful call; only a Tesseract failure makes extraction fail |
| TextExtractor.SectionValue | backend/app/services/ocr/text_extractor.py:403-404 | a section is empty without a match, and otherwise the stripped group cut to 2000 characters |
| TextExtractor.SectionKeysDistinct | backend/app/services/ocr/text_extractor.py:380-388 | the seven section keys are distinct and are the dictionary's keys |
| TextExtractor.FilledSectionsSpec | backend/app/services/ocr/text_extractor.py:401-404 | after each key in order, the keys seen hold their section values and the rest are still empty |
| TextExtractor.ExtractSections | backend/app/services/ocr/text_extractor.py:378-406 | the dictionary has exactly the seven keys, each holding the value of its own pattern's first match |
| TextExtractor.SectionsBounded | backend/app/services/ocr/text_extractor.py:404 | no section value exceeds 2000 characters |
| TextExtractor.ExtractOfficerQuotes | backend/app/services/ocr/text_extractor.py:408-425 | the quotes are the first ten of the per-pattern quotes, each pattern contributing its first three matches |
| TextExtractor.QuotesFromSpec | backend/app/services/ocr/text_extractor.py:421-423 | at most three quotes per pattern, each among its own pattern's first three matches |
| TextExtractor.OfficerQuotesSpec | backend/app/services/ocr/text_extractor.py:408-425 | at most ten quotes, a prefix of the per-pattern quotes in pattern order, each found by some pattern |
| Websocket.LeaveOwnRooms | backend/app/services/realtime/websocket_manager.py:130-138 | in a consistent state, leaving every room on one's own record removes the user from every room |
| Websocket.DropKeepsConsistent | backend/app/services/realtime/websocket_manager.py:128-209 | disconnecting the users whose sends failed keeps room membership and connection records in agreement |
| Websocket.DropTwice | backend/app/services/realtime/websocket_manager.py:128-141 | disconnecting one group of users and then another is the same as disconnecting both at once |
| Websocket.AfterSendsStep | backend/app/services/realtime/websocket_manager.py:200-209 | the effect of a round of sends is built up one user at a time, by outcome |
| Websocket.ReconnectStrandsMember | backend/app/services/realtime/websocket_manager.py:106-138 | as written: a connected user who connects again gets a record with no rooms while the rooms still list the user, so the two views disagree |
| Websocket.DropAbsent | backend/app/services/realtime/websocket_manager.py:130 | disconnecting a user who is not connected changes no room |
| Websocket.WalkStep | backend/app/services/realtime/websocket_manager.py:222-225 | each walked member other than the excluded one ends up reached or failing |
| Websocket.WalkOne | backend/app/services/realtime/websocket_manager.py:222-225 | after one more member is walked, the state is the one specified by that member's send outcome |
| Websocket.NoneFailing | backend/app/services/realtime/websocket_manager.py:222-225 | when no send fails, every addressed member is reached |
| Websocket.DropShrinks | backend/app/services/realtime/websocket_manager.py:136-138 | removing a member from its room makes the room smaller or deletes it |
| Websocket.DropNobody | backend/app/services/realtime/websocket_manager.py:134-138 | removing nobody changes no room, because no room is stored empty |
| Websocket.AddUnlisted | backend/app/services/realtime/websocket_manager.py:106-112 | a newly connected user with no rooms, not yet listed in any room, keeps the state consistent |
| Websocket.JoinKeepsConsistent | backend/app/services/realtime/websocket_manager.py:148-152 | adding the user to the room and the room to the user keeps the state consistent |
| Websocket.LeaveKeepsConsistent | backend/app/services/realtime/websocket_manager.py:170-176 | removing the user from the room (deleting it when empty) and the room from the user keeps the state consistent |
| Websocket.ConnectionManager.constructor | backend/app/services/realtime/websocket_manager.py:89-95 | a new manager has no connections, no rooms and a zero counter, and is consistent |
| Websocket.ConnectionManager.LeaveRooms | backend/app/services/realtime/websocket_manager.py:134-138 | the user is removed from each listed room and emptied rooms are deleted; connections and the counter are unchanged |
| Websocket.ConnectionManager.Disconnect | backend/app/services/realtime/websocket_manager.py:128-141 | the connection is dropped and the user leaves every room its record lists; nothing changes for a user who is not connected; consistency is kept |
| Websocket.ConnectionManager.SendToUser | backend/app/services/realtime/websocket_manager.py:191-209 | false for an unknown user with no change; a successful send records the time; a failed one disconnects the user |
| Websocket.ConnectionManager.Connect | backend/app/services/realtime/websocket_manager.py:97-126 | a fresh record with no rooms replaces any earlier one, the counter goes up by one, rooms are untouched, and a failed greeting disconnects the user again |
| Websocket.ConnectionManager.ConnectAfresh | backend/app/services/realtime/websocket_manager.py:97-141 | corrected connect: disconnect first, so consistency is kept even for a user who was already connected |
| Websocket.ConnectionManager.SendOne | backend/app/services/realtime/websocket_manager.py:222-225 | one send of a broadcast adds the member to the reached ones exactly when the socket takes the message |
| Websocket.ConnectionManager.SkipOne | backend/app/services/realtime/websocket_manager.py:223 | walking past the excluded user changes nothing |
| Websocket.ConnectionManager.StartWalk | backend/app/services/realtime/websocket_manager.py:221 | before the first send nothing has been walked and nothing has changed |
| Websocket.ConnectionManager.SendEach | backend/app/services/realtime/websocket_manager.py:221-241 | every user but the excluded one is sent the message; the count is the successful sends and exactly the failing users are disconnected |
| Websocket.ConnectionManager.SendLive | backend/app/services/realtime/websocket_manager.py:222-225 | in a consistent state, a send changes the size of the live member set exactly when it fails |
| Websocket.ConnectionManager.WalkLive | backend/app/services/realtime/websocket_manager.py:222-225 | the walk over the live set raises exactly when some addressed member's send fails, and otherwise counts every successful send |
| Websocket.ConnectionManager.BroadcastToRoom | backend/app/services/realtime/websocket_manager.py:211-227 | as written: 0 for an unknown room; for a known room the result is an error exactly when some send fails, and otherwise the number of members other than the excluded one |
| Websocket.ConnectionManager.BroadcastToRoomCopy | backend/app/services/realtime/websocket_manager.py:211-227 | corrected broadcast over a copy of the members: the count of successful sends to members other than the excluded one, with the failing members disconnected |
| Websocket.ConnectionManager.BroadcastToAll | backend/app/services/realtime/websocket_manager.py:229-241 | every connected user but the excluded one is sent the message; the count is the successful sends and the failing users are disconnected |
| Websocket.ConnectionManager.JoinRoom | backend/app/services/realtime/websocket_manager.py:143-166 | nothing for an unconnected user; otherwise the user is in the room and the room in the user's record, and the other members are notified |
| Websocket.ConnectionManager.LeaveRoom | backend/app/services/realtime/websocket_manager.py:168-189 | both directions of membership are removed, an emptied room is deleted, and the remaining members are notified |
| Websocket.ConnectionManager.GetUserPresence | backend/app/services/realtime/websocket_manager.py:261-273 | none exactly for an unconnected user; otherwise the presence names the user and lists its rooms |
| Websocket.MembershipAgrees | backend/app/services/realtime/websocket_manager.py:243-273 | in a consistent manager a user is in a room's members exactly when the room is in the user's rooms, no stored room is empty, every member is connected, and an unknown room has no users and an unconnected user no rooms and no presence |

## Left out

- Input and output are not modelled. The database, the language model, the OpenAI embedding API, the sockets, uuid generation, the clock and logging become parameters or inputs of the operations that use them.
- Floating-point numbers are exact reals. Integer results such as the fee and the timeline use the exact floor.
- Regular expressions that are not written out as matchers are oracle parameters that return their matches or captures. This covers the heading split, the text preprocessing, and the section, quote, policy and conclusion patterns.
- Pydantic models are plain datatypes. Only the field constraints and validators the core relies on are modelled.
- Embedding service: `embed_chunks`, `count_tokens` and `truncate_to_tokens` are left out. They are thin wrappers around the tokeniser and the batch call, and the tokeniser is itself a parameter.
- Database client: the single-row calls are left out because each is one database request. These are `create_decision`, `get_decision_by_reference`, `get_decision_by_id`, `update_decision`, `decision_exists`, `create_chunks`, `get_chunks_for_decision` and `get_stats`.
- Database client: `_extract_policies` is a regular expression, so its result is the `policies` parameter.
- Settings: `get_settings` (a cached constructor) and `is_production` (a single comparison) are left out.
- Scraper: the browser and HTTP work is left out. This covers `_init_driver`, `_scrape_period`, `_fill_search_form`, `_parse_results_page`, `_parse_result_row`, `_get_document_urls`, `_go_to_next_page`, `download_pdf`, `convert_to_decision_create` and the context-manager hooks.
- Scraper: the rate limiter does not sleep. It returns the pause it would take, and the clock read after the sleep is taken to be `now` plus that pause.
- Text extraction: PyMuPDF, Textract and Tesseract are parameters, and so is the lazily built Textract client.
- Text extraction: `_textract_async` always raises, so the model takes it as the failure that falls back to Tesseract.
- Text extraction: `extract_from_bytes` only writes a temporary file and calls `extract_text`, so it is left out.
- Connection manager: the message types, the JSON encoding of a message and the `WebSocketManager` wrapper are left out. The wrapper covers the heartbeat task, the receive loop, the message dispatch and the notification helpers.
- Connection manager: a send either reaches its user or raises, and the `delivers` input decides which. Sets are walked in an arbitrary order.
- Collaboration: the websocket notifications the operations send are left out. This includes `notify_case_saved` and `_broadcast_presence`.
- Collaboration.CollaborationService.ActiveCollaborators: the result is a set of collaborators, so the order of the list built at collaboration_service.py:361-381 (the session's insertion order) is not kept. The dictionary rendering of each collaborator is also left out.
- Alerts: the dict conversions, the trigger store and the user notification are left out, because they are database and messaging I/O. These are `get_alert_triggers`, `_save_trigger`, `_notify_user`, `_dict_to_alert` and `_dict_to_trigger`.
- Alerts: the text of a match reason is left out. The model keeps the reason's kind and its matched value.
- AlertRecord.Updated: a key naming an attribute but holding an explicit null, or a value of another type, is ignored. The `setattr` of alert_service.py:375-376 stores any such value as it is.
- Monitoring scheduler: `get_job_status` (formatting) and `_convert_to_application` (a field copy) are left out.
- Monitoring scheduler: `_generate_demo_applications` is left out. Without a scraper it hands over two fixed records, 2024/0001/P and 2024/0002/P (monitoring_scheduler.py:240-261); the model takes whatever the fetch input gives, which includes that batch.
- Scheduler.MonitoringScheduler.Tick: what a whole pass adds to the two totals, and to each alert's trigger count and last trigger time, is not stated. TickOne states the totals job by job, and `PassTotals` shows that those per-job amounts add up to the pass taken as one batch. The per-alert counts and times are stated per run, by RunJob, RunJobNow, CheckCamden and `Alerts.AlertService.CountNewTriggers`; `Alerts.CountsMovedCompose` shows that consecutive runs compose. Folding either over the loop made the proof too costly.
- Scheduler.MonitoringScheduler.TickOne: the trigger counts and last trigger times of the alerts are not stated for one loop step. RunJob, which the step calls, states them.
- Monitoring scheduler: `_run_internal_job` only logs, so it is left out.
- Monitoring scheduler: one `now` input stands for the separate clock reads of a run.
- Document analyser: `analyse_document`, `_extract_key_points` and `_extract_key_statements` are left out. They orchestrate and call the language model.
- Document analyser: `_extract_case_reference` is a single regular-expression search, so it is left out.
- Appeal strategist: `_analyse_refusal_reasons` and `generate_statement_of_case` are left out, because they return language-model prose. The rules take the reason analyses as inputs.
- Appeal strategist: `_extract_section` is a single regular-expression search, cut to 2000 characters. Its only caller is `generate_statement_of_case`, which applies it to the language model's draft, so it is left out with that method.
- Analysis service: `_generate_summary`, `generate_counter_arguments` and `generate_appeal_argument` are left out, because they return language-model prose.
- Prediction engine: `get_ward_insights` and its helpers are left out. These helpers are `_get_all_type_rates`, `_compare_conservation_areas` and `_get_monthly_distribution`, and all of them return fixed demonstration data.
- Prediction engine: the fixed `_get_type_stats` and `_get_recent_trend` values are constants.
- Planning agent: the text formatting of the toolkit tools other than `identify_policies` is left out, and the tools' results are inputs.
- Planning agent: the sources of a run are a set. The order that `list(set(...))` produces is not modelled.
- PlanningAgent.Run: the sources list is not grown inside the loop. The reported set is computed from the recorded steps when the run ends. This is the same set, because each source is appended exactly when its step is recorded.
- Planning agent: the step cap is a field of the agent. `__init__` sets it to fifteen, and the proofs hold for any cap.
- Planning agent: the system prompt is shortened to its opening sentence. No rule depends on its text.
- Reasoning engine: `_call_model` is the language-model call, and each step's decoded reply is an input.
- Generators: the prose bodies of the covering letter, the design, heritage and planning statements, and the sustainability paragraph are left out. The model keeps which documents and sections appear, in which order, and the values they interpolate.
- Map service: the conservation-area layer, the map configuration, the HTML popup and the loading of the conservation-area file are left out. These are `create_conservation_areas_layer`, `create_map_config`, `_create_popup_content` and `_load_conservation_areas`.
- Authentication service and routes: `refresh_tokens`, `verify_email`, the password reset and change flows, the user lookups and the route handlers are left out. They are JWT, bcrypt and database calls around the modelled rules.
- AnalysisService.ToArgument: a JSON `null` heading or content is read like a missing one and becomes "". In the source, `ArgumentSection(heading=None)` at analysis_service.py:247 fails validation. The model keeps a reply field only as present or absent.
- AnalysisService.ToRiskAssessment: a `confidence_score` that is `null` or not a number is read as missing and becomes 0.5. In the source, `float(...)` at analysis_service.py:322 raises.
- AnalysisService.AnalysePrecedents: it succeeds where its risk reply has a `null` or non-numeric confidence score, as ToRiskAssessment does. The source raises there.
- MapService.HeatWeight: a `null` outcome is read as "" and gives weight 1.0. In the source, `.lower()` on `None` at map_service.py:189 raises. A weight field holding something other than a number is treated as absent and falls back to the outcome rule. In the source, `float(...)` at map_service.py:188 raises.
- MapService.CreateHeatmapLayer: it builds a point for every positioned case, including the cases where HeatWeight differs from the source. The source raises on those cases.
- MapService.HeatPointsSpec: one point per positioned case is stated also for the cases on which the source raises, as under MapService.HeatWeight.
- MapService.CreatePlanningLayer: a positioned case whose outcome or description is `null` still gets a marker. In the source, the popup built at map_service.py:294-301 calls `.lower()` and `[:100]` on `None` and raises. The popup itself is not modelled.
- MapService.MarkersSpec: one marker per positioned case is stated also for the cases with a `null` outcome or description, on which the source raises.
- Websocket.ConnectionManager.JoinRoom: it notifies the room through the corrected broadcast, Websocket.ConnectionManager.BroadcastToRoomCopy (see Findings). At websocket_manager.py:155 the source calls the as-written `broadcast_to_room`, which raises once a member's send fails. The model drops that member and returns normally.
- Websocket.ConnectionManager.LeaveRoom: it notifies through Websocket.ConnectionManager.BroadcastToRoomCopy, like JoinRoom. The source's call at websocket_manager.py:179 raises where the model drops the failing member.
- PyStr.Lower: case mapping is ASCII-only, while Python's `str.lower` also maps non-ASCII letters. The case-insensitive comparisons and `re.IGNORECASE` searches are modelled by lowering both sides, so they are ASCII-only too.
- PyStr.Upper: case mapping is ASCII-only. Python's `str.upper` also maps non-ASCII letters and can change the length: 'ß'.upper() is "SS". The postcode and case-reference validators and the alert policy lists therefore differ from the source on non-ASCII input.
- PyStr.UpperChar: ASCII-only, like PyStr.Upper. A character outside A-Z and a-z is left as it is.
- PyStr.IsDigit: only '0' to '9' count as digits. Python's `\d` and `str.isdigit` also accept other Unicode decimal digits, such as the Arabic-Indic digits, and the model rejects those.

## Findings

| source | as written | input that shows it | evidently intended | confidence | as-written member | corrected member |
|---|---|---|---|---|---|---|
| backend/app/models/planning.py:74-103 | the case-reference field pattern is checked on the raw text before the validator upper-cases it, so lower-case suffixes are rejected | "2023/1234/p" | lower-case references are normalised to upper case and accepted | not executed | Planning.CaseReferenceFieldRefusesLowerCase | Planning.CaseReferenceFieldNormalisingAcceptsLowerCase |
| backend/app/services/scraper/camden_scraper.py:190 | the windows loop runs while the window start is before the end date, so a window that starts on the end date is skipped, and an empty range searches nothing | days 0 to 31 with 30-day windows: day 31 is never searched | every day from start to end inclusive is searched | not executed | Scraper.LastDayMissed | Scraper.WindowsThroughCover |
| backend/app/services/scraper/camden_scraper.py:425-441 | the "hampstead" ward rule comes before "west hampstead", so the later rule can never fire | "1 West Hampstead Lane" is placed in Hampstead | the more specific name wins | not executed | Scraper.WestHampsteadUnreachable | Scraper.ExtractWardSpecificFirstSpec |
| backend/app/services/scraper/camden_scraper.py:579-610 | the "hampstead" conservation-area rule comes before "south hampstead", so the later rule can never fire | "2 South Hampstead Road" is placed in the Hampstead area | the more specific name wins | not executed | Scraper.SouthHampsteadUnreachable | Scraper.IdentifyConservationAreaSpecificFirstSpec |
| backend/app/services/realtime/websocket_manager.py:222 | the room broadcast iterates the live member set, and a failed send disconnects that member, which removes it from the set during the iteration and raises | a room with two members where one send fails | the broadcast walks a copy of the members, as the broadcast to all users does | not executed | Websocket.ConnectionManager.BroadcastToRoom | Websocket.ConnectionManager.BroadcastToRoomCopy |
| backend/app/services/realtime/websocket_manager.py:106-113 | connecting a user who is already connected replaces the record with one that lists no rooms, while the rooms still list the user | user u in room r connects again | the earlier connection is closed first, so rooms and records agree | not executed | Websocket.ReconnectStrandsMember | Websocket.ConnectionManager.ConnectAfresh |
| backend/app/services/monitoring/alert_service.py:170-179 | the postcode area is the first three characters of the compacted postcode, which crosses outward codes | alert "N1 2AB" matches an application at "N12 3CD" | the outward code is compared | not executed | AlertMatch.AreaMatchCrossesDistricts | AlertMatch.OutwardMatchIsDistrictMatch |
| backend/app/services/monitoring/alert_service.py:400 | deleting an alert filters the list of all alerts by id alone, so another user's alert with that id leaves the global list but stays in its owner's list | user a deletes id "x" while user b also owns an alert "x" | only the caller's own alert is removed | not executed | Alerts.AlertService.DeleteAlert | Alerts.AlertService.DeleteOwnAlert |
| backend/app/services/geo/map_service.py:395 | polygons stored as [lat, lon] pairs are exported unchanged, but GeoJSON positions are [lon, lat] | a ring [[51.55, -0.17]] exports 51.55 as the longitude | each position is written as [lon, lat] | not executed | MapService.PolygonLatitudeInLongitudeSlot | MapService.PolygonFeatureLonLatSpec |
| backend/app/services/ocr/text_extractor.py:280-289 | all whitespace, line breaks included, is collapsed before the header patterns run, so the `Document Reference:` and `Printed on:` line patterns and the blank-line rule can never match | "Document Reference: 123\nBody" keeps its reference text | header lines are removed before whitespace is collapsed | not executed | TextExtractor.CleanTextLinePatternsInert | TextExtractor.CleanTextLinesFirstDropsReference |
