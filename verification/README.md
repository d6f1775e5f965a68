# HireAssist: a verified model of its screening handover, sessions, limits and guides

This project models the parts of HireAssist whose correctness depends on order, failure and
interleaving, and proves what they promise over every run.

- **Screening handover.** Hiring saves a batch, a relay publishes each waiting resume and marks it
  once the broker confirms; Resume Processing claims a candidate, screens, and publishes an answer, a
  retry copy or a dead letter before it acknowledges; Hiring's consumer records the first answer. The
  modules `Protocol`, `ProtocolInvariant`, `ProtocolTheorems`, `RetryBudget`, `Runs`, `Asking`,
  `Screenable`, `ReplayFinding`, `Copies` and `Uploads` treat this as one transition system over bags of copies, with every
  publish, confirm, write and acknowledgement able to fail to happen. Below them stands the code they rest
  on, in its own form: `Screening`, `Openings`, `Ranking`, `RankedResults`, `Handover`, `CriterionIds`,
  `Scoring`, `Pipeline`, `HiringService`, `Relay` and `ResultService`.
- **Two stores.** `MemoryRepository` and `PostgresRepository` meet one specification, `Archive`;
  `StoresAgree` proves they cannot be told apart, and `StoreCalls` ties that to the two classes. `Tables`
  is what an ordered cursor gives back, and `OpeningRows` is the job-opening repository with its
  row-grouping loop.
- **Sign-ins.** `Identity` is the Identity Service's store, one transaction per operation; `SignIns`
  proves what chains of refresh tokens keep over any run (the reuse detection of section 5.2.2.3 of
  RFC 6819), the two statements that end a member's sessions apart from each other; `Membership`
  splits the membership changes into statements under an advisory lock, and shows each still acts as one
  step; `Browser` adds the web client, the gateway's cookie and the Identity Service's clock.
- **Rate limiter.** `RateLimiter` compares lazy eviction with never evicting.
- **Interview guides.** `InterviewGuides` is the mutable guide with its notes.

`Prelude` holds the two wrapper types. `dafny verify dfyconfig.toml` checks the whole project.

## What turned out otherwise

Each of these is a theorem with its exact condition, or a concrete run:

- An honest answer *is* refused when its row has no candidate id, and only then
  (`Screenable.AnswerIsRecordableIff`; `ReplayFinding.AnHonestAnswerRefused` is a run, for any retry
  limit). Such rows come from recording a failure after allocating or claiming a candidate failed:
  `markFailed` creates the row, and the resuming branch never stores the id it allocates
  (`services/resume-processing/src/pipeline.js:83-97` and `167-184`).
- Replaying a dead letter does not bring a score to Hiring once the failed answer was recorded there
  (`ReplayFinding.ReplayedScoreNeverReachesHiring`): the first answer stands. It is worth it exactly while
  Hiring's entry is pending and the resume has no row, or one with a candidate that is not unparsable
  (`Screenable.ReplayScreensIff`). A replay scores the resume in Resume Processing, as
  `services/resume-processing/README.md:89` says, but only there.
- A refresh whose rotation of the cookie's own token is committed and then fails leaves a used token in
  the browser, whose next refresh ends its own sign-in; nothing else that goes wrong with a rotation
  does (`Browser.TheCookieIsHarmlessIff`, `Browser.ASpentCookieEndsTheSignIn`).
- Signing out lasts exactly while nothing on its way can bring a token back: no answer of a sign-in or
  renewal, and no refresh with a token that is current, before its cap and of a member not removed
  (`Browser.SigningOutLastsIff`). Otherwise a usable cookie can return, although
  `services/gateway/session_cookie.go:116-118` says no browser holds the token any more.
- Setting a password or removing a member ends the sessions its UPDATE sees. A sign-in of that member
  that commits before the DELETE is left open with no token, and its first refresh is refused; one
  that commits after it outlives the change, although `services/identity/store.go:128-129` says every
  session ends (`SignIns.EndedAtCommitIff`, `SignIns.StrandedIff`,
  `SignIns.AnInterruptingSignInIsStranded`). A removed member can refresh neither.
- Eviction can be observed when a bucket does not refill within the time to live
  (`RateLimiter.EvictionInvisibleIff`).
- An interval is not stored exactly below a microsecond (`OpeningRows.IntervalExactIff`), and a
  shorter expected time to fill is refused by the table.
- Two questions with the same text lose a note when the set is replaced, if their notes differ
  (`InterviewGuides.ReplacingKeepsNotesIff`).

## Choices the code forces

- Hiring has one result consumer; its load and its save are separate steps, interleaved with any
  number of Recruiter requests that also load and save separately.
- A pass of the relay takes the oldest 500 waiting resumes in submission order. A publish the pass stopped
  waiting for may still reach the queue, once.
- One delivery in Resume Processing is handled in one step with any outcome of its file fetch,
  extraction, AI calls and candidate allocation; settling it follows in separate steps that can fail.
- Ending a member's sessions is two READ COMMITTED statements: each sees what was committed before it, the
  rows it wrote stay locked until the commit, and the foreign-key lock of a new session does not wait for
  an update of the member's other columns. Everything else in the Identity Service is one step.
- Times are nanoseconds since Go's zero time, which no clock reads. Identifiers and tokens a generator
  draws are new.
- The overall score, the token bucket and the retry delay are exact arithmetic instead of floats.

## Model

| member | source | states |
|---|---|---|
| `ProtocolTheorems.NoResumeLost` | services/hiring/internal/usecase/screening_service.go:182-213 | in every state any run can reach, whatever crashed, was nacked or went unconfirmed, a pending entry is still unrequested, or has a request copy (requested queue, retry queue, dead letters, or a delivery not handled or with more than a failure to publish) or a final answer, scored or unparsable (completed queue, consumer, Hiring's dead letters); an answer that it failed is never all there is |
| `ProtocolTheorems.ServicesAgree` | services/resume-processing/src/pipeline.js:70-154 | whenever Hiring has an answer, Resume Processing has a row: a screened entry carries exactly the scored row's candidate, score, verdict and unmet must-haves, and one that needs review has an unparsable row and gives its reason |
| `ProtocolTheorems.FirstAnswerStands` | services/hiring/internal/usecase/screening_service.go:215-235 | over any continuation of any reachable run, with loads and saves of the consumer and of Recruiters interleaved: an answered entry keeps status and result, never returns to pending, a finished row never changes, a row keeps its candidate and a batch its snapshot |
| `ProtocolTheorems.RepeatsChangeNothing` | services/hiring/internal/usecase/screening_service.go:215-235 | no step of the result consumer changes an answered entry in any field, so a late duplicate wipes no override and no shortlist mark |
| `ProtocolTheorems.LateDecisionsKeepTheAnswer` | services/hiring/internal/usecase/screening_service.go:315-327 | a Recruiter's save, however late, finds a screened entry and changes its override and shortlist mark only |
| `ProtocolTheorems.OnlyCandidatelessAnswersRefused` | services/hiring/internal/adapter/rabbitmq/broker.go:251-302 | everything in Hiring's dead letters is the answer of a scored row that has no candidate id |
| `ProtocolTheorems.NothingRefusedWithCandidates` | services/hiring/internal/adapter/rabbitmq/broker.go:251-302 | while every row has a candidate id, Hiring's dead-letter queue is empty |
| `ProtocolTheorems.CandidatelessRowsComeFromFailures` | services/resume-processing/src/pipeline.js:167-184 | a row without a candidate id is only ever created by recording a failure after allocating or claiming failed |
| `ProtocolTheorems.CandidatesAreDistinct` | services/resume-processing/src/db.js:90-112 | two resumes never share a candidate id |
| `ProtocolTheorems.ScoredAnswersAreOne` | services/resume-processing/src/pipeline.js:50-64 | all scored or unparsable answers around for one resume are the same answer apart from the correlation id |
| `ProtocolTheorems.RetriesAreBounded` | services/resume-processing/src/queue.js:104-118 | no request copy anywhere carries a retry count above the maximum |
| `ProtocolTheorems.DeliveredRequestValid` | services/resume-processing/src/pipeline.js:20-29 | every request delivered to Resume Processing passes its validation: Hiring produces no malformed one |
| `ProtocolTheorems.RequestsAskForTheirOwn` | services/hiring/internal/adapter/rabbitmq/messages.go:70-81 | every request copy of a reachable state, queued, delayed, dead-lettered or just received, asks for its own entry's object in the system's bucket, for its own batch's opening, with the text, must-have flag and weight of each criterion of the snapshot in order |
| `ProtocolTheorems.AnsweredAsItArrives` | services/hiring/internal/usecase/screening_service.go:218-235 | saving an answer to a pending entry stamps it with that moment, shows it screened or for review exactly as the answer says, and changes nothing else of the entry |
| `ProtocolTheorems.OnlySavingAnswers` | services/hiring/internal/usecase/screening_service.go:218-235 | no other step changes an entry's status |
| `Copies.TheBooksBalance` | services/resume-processing/src/queue.js:51-135 | over any run and for any message: how many copies the requested queue, the retry queue, either service's dead letters, the completed queue with the consumer's hands, and the publishes given up on hold, is what they held, and what the run's steps put there, less what its steps took from there; no other step touches a copy |
| `Copies.DeadLettersStay` | services/resume-processing/scripts/replay-dlq.js:18-32 | a dead letter is still there after any run in which no replay of it was acknowledged |
| `Uploads.WhatWasUploadedIsAskedFor` | services/hiring/internal/usecase/screening_service.go:159-213 | once a batch is saved, every request copy for one of its resumes in any continuation asks for the object that was uploaded, for the batch's opening, by the criteria of the snapshot taken then |
| `Uploads.OldestFirst` | services/hiring/internal/usecase/screening_service.go:182-198 | a pass works through at most 500 resumes, in the order of their submission, and leaves one out only behind 500 it takes |
| `Uploads.TheLineGrowsBehind` | services/hiring/internal/adapter/memory/screening_repository.go:86-109 | over any run, whoever was submitted earlier stays ahead |
| `ProtocolInvariant.NextKeeps` | services/resume-processing/src/queue.js:51-135 | each of the twenty-two steps, possible at any moment, keeps the whole invariant and never takes back an entry, a snapshot, an answer, a candidate or a finished row |
| `ProtocolInvariant.RunKeeps` | services/resume-processing/src/queue.js:51-135 | so does every run |
| `RetryBudget.HandledAtMostMaxRetriesPlusOne` | services/resume-processing/src/queue.js:94-134 | over any run, a lone copy of a request is handled at most maxRetries + 1 times and what the run's publishes, replays and returned deliveries of that resume grant besides |
| `RetryBudget.HandledOnlyAsGranted` | services/resume-processing/src/queue.js:94-134 | from an empty system a resume is never handled more often than its publishes, replays and returned deliveries grant: no other step leads to a handling |
| `RetryBudget.RunDraws` | services/resume-processing/src/queue.js:94-134 | over any run, handlings and what is left of a resume's budget never exceed what it was and what the run's steps granted |
| `RetryBudget.ReplayGrants` | services/resume-processing/scripts/replay-dlq.js:18-32 | replaying a dead letter grants its resume exactly maxRetries + 1 further handlings, and no other resume any |
| `RetryBudget.GrantsAreExact` | services/resume-processing/src/queue.js:51-134 | a grant is no estimate: the budget grows by just that much, less what a returned delivery had left to publish |
| `RetryBudget.RelayPublishGrants` | services/hiring/internal/usecase/screening_service.go:182-213 | so does every publish by the relay, the first and each repeat |
| `RetryBudget.LatePublishGrants` | services/hiring/internal/adapter/rabbitmq/broker.go:193-233 | so does a publish that was given up on and still reaches the queue |
| `RetryBudget.RequeueGrants` | services/resume-processing/src/queue.js:51-65 | handing a delivery back trades what it had left to publish for what its own request can be handled; before it was handled, that is nothing |
| `Screenable.ScreenableIff` | services/hiring/internal/usecase/screening_service.go:182-235 | from any reachable state, some continuation shows a resume as screened if and only if it is screened already, or it is pending and Resume Processing has no row of it or one with a candidate that is not unparsable; the run is built from the copy or answer the state holds, or the relay's own passes |
| `Screenable.ReplayScreensIff` | services/resume-processing/scripts/replay-dlq.js:18-32 | after replaying a dead letter, a run that brings no other copy back shows its resume as screened under exactly that condition: the replayed copy is enough |
| `Asking.RelayReaches` | services/hiring/internal/usecase/screening_service.go:182-213 | from any reachable state with the relay at rest, passes over the oldest 500 waiting resumes come to any waiting resume and publish its request |
| `Asking.BroughtBack` | services/resume-processing/src/queue.js:51-135 | a request copy queued, delayed, dead-lettered or in flight can be brought before Resume Processing again, rows and entries unchanged |
| `Screenable.ScoreReachesHiringIff` | services/hiring/internal/usecase/screening_service.go:215-235 | of a resume scored for a candidate, the score can reach Hiring if and only if Hiring's entry is still pending or already screened |
| `Screenable.AnswerIsRecordableIff` | services/hiring/internal/adapter/rabbitmq/messages.go:70-116 | in any reachable state the answer of a scored row reads as screened, and Hiring can record it if and only if the row has a candidate |
| `ReplayFinding.ReplayedScoreNeverReachesHiring` | services/resume-processing/scripts/replay-dlq.js:18-32 | a concrete reachable state: the failure was answered and recorded, the replayed dead letter was scored, and in no continuation does Hiring's entry leave failed |
| `ReplayFinding.AnHonestAnswerRefused` | services/hiring/internal/adapter/rabbitmq/broker.go:251-302 | whatever the retry limit, a concrete reachable state in which Hiring has refused an honest answer: the resume was scored, its entry is pending, and no continuation shows it screened |
| `Handover.NewRequested` | services/hiring/internal/adapter/rabbitmq/messages.go:70-81 | the request names the resume by batch and id, its object in the given bucket, the opening, the correlation id, and every criterion of the snapshot in order: its id, name, must-have flag and weight as it is |
| `Handover.RequestSays` | services/hiring/internal/adapter/rabbitmq/messages.go:70-81 | the same of the request the handover's steps speak of: what is in which part |
| `Handover.ArrivesAsSent` | services/resume-processing/src/pipeline.js:31-37 | on arrival each criterion has its id, text and flag; its weight is what it was if and only if it fits 32 bits, and otherwise differs by a multiple of 2^32 |
| `Handover.AnswerSays` | services/resume-processing/src/pipeline.js:50-64 | an answer has the row's key, opening and candidate, a score and a verdict only when scored, the row's unmet ids and error, and the request's correlation id |
| `Handover.ToDomain` | services/hiring/internal/adapter/rabbitmq/messages.go:86-116 | reads an answer exactly when it has both ids, a known status and, if scored, a score, a verdict and only ids of criteria |
| `Handover.UnmetIdsReadBack` | services/hiring/internal/adapter/rabbitmq/messages.go:103-114 | every unmet must-have id the AI Service can answer reads back as the position of a must-have of the snapshot, each position once |
| `Handover.HonestAnswerAcceptedIffCandidate` | services/hiring/internal/adapter/rabbitmq/messages.go:70-116 | for any criteria list and any assessments: request, its weights as uint32, scoring, row, answer and reading compose to an answer Hiring can record, if and only if the row has a candidate id |
| `Handover.UnscoredAnswerAccepted` | services/hiring/internal/adapter/rabbitmq/messages.go:86-116 | the answer of an unparsable or failed row is always recordable, and keeps its candidate |
| `Handover.HonestRequestIsValid` | services/resume-processing/src/pipeline.js:20-29 | a request made for a batch with scorable criteria passes validation |
| `CriterionIds.ParseUndoesCriterionID` | services/hiring/internal/domain/screening.go:236-248 | parsing undoes printing for exactly the positions whose number fits an int |
| `CriterionIds.CriterionIDIsInjective` | services/hiring/internal/domain/screening.go:236-239 | different positions never share an id |
| `CriterionIds.CriterionIDSpells` | services/hiring/internal/domain/screening.go:236-239 | an id is the letter c and the decimal numeral, without leading zeros, of the position counted from one |
| `CriterionIds.ParsedIDsAreSpellingsOfThePosition` | services/hiring/internal/domain/screening.go:242-248 | an id that parses is the one printed for that position, or a spelling of its number with a plus sign or leading zeros |
| `CriterionIds.NumberOfItoa` | services/hiring/internal/domain/screening.go:239 | a printed number denotes the number it was printed from |
| `CriterionIds.ItoaOfNumber` | services/hiring/internal/domain/screening.go:239 | a numeral without leading zeros is the one printed for its number |
| `Scoring.TotalIsTheRoundedMean` | services/ai-service/src/ai_service/answers.py:83-101 | the total is the weighted mean rounded half up, and lies between the least and greatest counted score, so the clamp never changes it |
| `Scoring.TotalIgnoresOrder` | services/ai-service/src/ai_service/answers.py:83-101 | the order of the assessments does not matter |
| `Scoring.TotalIgnoresScale` | services/ai-service/src/ai_service/answers.py:83-101 | multiplying every weight by the same factor does not matter |
| `Scoring.TotalIsMonotone` | services/ai-service/src/ai_service/answers.py:83-101 | raising scores never lowers the total |
| `Scoring.TotalIgnoresUnweighted` | services/ai-service/src/ai_service/answers.py:83-101 | while some weight is positive, what an unweighted criterion (a must-have) scored does not matter |
| `Scoring.AcceptedAnswer` | services/ai-service/src/ai_service/service.py:206-241 | an accepted answer names each unmet must-have once and nothing else, qualifies exactly when none is named, and scores on the scale |
| `Scoring.AcceptedExactlyWhenOneAssessmentEach` | services/ai-service/src/ai_service/service.py:206-222 | for every request and answer: accepted if and only if there are criteria and it assesses every one asked about, once, and nothing else; refused for want of criteria if and only if there are none |
| `Scoring.ScoreIsTheNiceMean` | services/ai-service/src/ai_service/service.py:206-241 | an accepted answer's score is the half-up rounding of sum(score * weight) / sum(weight) over the nice-to-haves asked about, and of the plain mean of all scores when no nice-to-have has a weight |
| `Scoring.MustHavesDoNotCount` | services/ai-service/src/ai_service/service.py:206-241 | two accepted answers to one request that score its nice-to-haves alike have the same score, as soon as one nice-to-have has a weight |
| `Scoring.UnmetAre` | services/ai-service/src/ai_service/service.py:224-241 | an accepted answer names as unmet exactly the must-haves it judged not met, each once, in the order of their ids |
| `Pipeline.CandidateIds.Next` | services/resume-processing/src/db.js:96-112 | never hands out an id twice; gives up exactly when the next twenty are all taken; while the counter leads, the first try succeeds |
| `Pipeline.CandidateIdIsInjective` | services/resume-processing/src/db.js:96-112 | different counter values print different candidate ids |
| `Pipeline.CandidateIdSpells` | services/resume-processing/src/db.js:96-112 | an id is cand- and the counter's value in decimal, with zeros in front up to three digits |
| `Pipeline.ResumeProcessing.ProcessScreeningRequest` | services/resume-processing/src/pipeline.js:70-164 | one request's work on the stored row: replay of a finished row, resumption with its candidate, claim, then every way screening can end |
| `Pipeline.ResumeProcessing.Screen` | services/resume-processing/src/pipeline.js:99-164 | fetch, extract, profile and score: what row each outcome leaves and which failures are permanent |
| `Pipeline.ResumeProcessing.Handle` | services/resume-processing/src/queue.js:67-135 | one delivery: the row, the publications and whether it is acknowledged, for every outcome of the work and of the confirms |
| `Pipeline.WorkOnText` | services/resume-processing/src/pipeline.js:114-164 | with the file's text in hand the first thing to go wrong decides - profiling, scoring, an unusable answer, saving: a call refused for good is given up at any attempt (dead letter, failed row and answer), any other is tried again while tries are left; with nothing wrong the row is scored as the AI Service answered and answered from |
| `Pipeline.TriedAgainIff` | services/resume-processing/src/queue.js:94-134 | such a delivery leaves exactly one copy with attempt + 1 if and only if attempt < maxRetries and the first error met is uncoded, coded transient or an unusable answer; a coded one that is not transient starts with a dead letter at any attempt |
| `Pipeline.WorkOnFile` | services/resume-processing/src/pipeline.js:99-112 | a missing file is given up at once, storage that is down is tried again, a file without text becomes an unparsable row and its answer |
| `Pipeline.NoClaim` | services/resume-processing/src/pipeline.js:82-97 | without an id or a claim the resume is tried again while tries are left, its row as it was |
| `Pipeline.TheClaimStays` | services/resume-processing/src/pipeline.js:82-97 | what a delivery tried again leaves: a new row in its first attempt under a fresh candidate, or the known one with one attempt more and its candidate and score kept |
| `Pipeline.TheRowAfterwards` | services/resume-processing/src/pipeline.js:82-97 | whatever becomes of a delivery, a row it changes counts one attempt more exactly when it got to work, keeps the candidate it had or takes the one just allocated, and moves to the request's opening only by recording a failure |
| `Pipeline.IdsAreDrawn` | services/resume-processing/src/pipeline.js:82-83 | an id is drawn exactly for a valid request of an unfinished resume without a candidate |
| `Pipeline.MalformedIsGivenUp` | services/resume-processing/src/pipeline.js:20-29 | a body that is no JSON, or lacks an id, a bucket, a key, the criteria or a criterion's id or text, is dead-lettered at any attempt, and answered only when it says whose it is |
| `Pipeline.LackingIff` | services/resume-processing/src/pipeline.js:20-29 | a request is invalid if and only if it lacks one of those |
| `Pipeline.RetryIsDelayed` | services/resume-processing/src/queue.js:136-141 | a retry's delay is the base, doubled once for each earlier retry, within a fifth either way |
| `Pipeline.CandidateStays` | services/resume-processing/src/pipeline.js:83-97 | a row keeps its key and candidate whatever happens; only a missing row gets a candidate, and a new one |
| `Pipeline.CandidatelessOnlyWhenUnclaimed` | services/resume-processing/src/pipeline.js:167-184 | a row is stored without a candidate only when allocating or claiming failed and the failure was then recorded |
| `Pipeline.AnswersComeFromTheRow` | services/resume-processing/src/queue.js:67-135 | a published answer is made from the row the delivery leaves, never a row still processing |
| `Pipeline.NothingHandledVanishes` | services/resume-processing/src/queue.js:67-135 | every delivery leaves an answer, a retry copy or a dead letter of the same request, and a retry only within the limit |
| `Pipeline.TotalDelay` | services/resume-processing/src/queue.js:136-141 | n retries wait between 0.8 and 1.2 times base * (2^n - 1) in all, give or take half a millisecond each |
| `Screening.CheckScreened` | services/hiring/internal/domain/screening.go:198-222 | accepts exactly a result with a candidate, a score on the scale, distinct must-have positions, and a verdict that matches them |
| `Screening.RecordableIff` | services/hiring/internal/domain/screening.go:171-222 | what can be recorded: review, failure, or a candidate with a score from 0 to 100 whose unmet positions are must-haves, none twice, and none at all exactly when the verdict says so |
| `Screening.VerdictIs` | services/hiring/internal/domain/screening.go:171-193 | an answer counts as a repeat if and only if the first entry of its resume is not pending, and is taken if and only if that entry is pending and it can be recorded |
| `Screening.ScreeningBatch.RecordResult` | services/hiring/internal/domain/screening.go:171-193 | records the first recordable answer of a pending resume; any other call names its error and changes nothing; every entry stays consistent |
| `Screening.ScreeningBatch.OverrideScore` | services/hiring/internal/domain/screening.go:286-295 | overrides only a screened entry, only on the scale, and changes nothing otherwise |
| `Screening.ScreeningBatch.Shortlist` | services/hiring/internal/domain/screening.go:299-308 | marks a screened entry once, and changes nothing otherwise |
| `Screening.ScreeningBatch.Find` | services/hiring/internal/domain/screening.go:149-156 | the first entry of a resume, or none |
| `Screening.ScreeningBatch.Complete` | services/hiring/internal/domain/screening.go:159-166 | whether no entry is pending |
| `Screening.NewScreeningBatch` | services/hiring/internal/domain/screening.go:121-146 | accepts resumes against an open opening only, each pending, judged by the opening's criteria of that moment |
| `Openings.ValidateCriteria` | services/hiring/internal/domain/job_opening.go:139-155 | accepts exactly a non-empty list of named, classified criteria with positive weights |
| `Openings.ScorableCriteriaIff` | services/hiring/internal/domain/job_opening.go:139-155 | those are the lists with at least one criterion, each with a character other than a space in its name, a must-have or nice-to-have, of weight one or more |
| `Openings.JobOpening.ReviseCriteria` | services/hiring/internal/domain/job_opening.go:127-136 | revises an opening that is not closed, with valid criteria only; a refused revision changes nothing |
| `Openings.JobOpening.Pause` | services/hiring/internal/domain/job_opening.go:95-101 | pauses an open opening only |
| `Openings.JobOpening.Resume` | services/hiring/internal/domain/job_opening.go:104-110 | resumes a paused opening only |
| `Openings.JobOpening.Close` | services/hiring/internal/domain/job_opening.go:113-124 | closes an opening once, with a known outcome |
| `Openings.NewJobOpening` | services/hiring/internal/domain/job_opening.go:73-92 | a new opening satisfies every rule of an opening, or is refused |
| `Openings.TrimSpaceIs` | services/hiring/internal/domain/job_opening.go:139-155 | trimming leaves nothing exactly of a blank text, and trimming again changes nothing |
| `Openings.TrimSpaceCuts` | services/hiring/internal/domain/job_opening.go:139-155 | trimming takes the spaces at both ends, all of them, and nothing else |
| `Openings.IsSpaceIff` | services/hiring/internal/domain/job_opening.go:139-155 | which characters are spaces, one by one |
| `Ranking.Rank` | services/hiring/internal/domain/screening.go:326-354 | returns exactly the screened entries that pass the filter, each once, by must-have gate, score with override, answer time and then submission order |
| `Ranking.SortStable` | services/hiring/internal/domain/screening.go:340-353 | the sorted list has the same members and is ordered, ties by their order before |
| `Ranking.RankingIsUnique` | services/hiring/internal/domain/screening.go:326-354 | only one list can be a ranking |
| `Ranking.RankingOrder` | services/hiring/internal/domain/screening.go:340-353 | nobody who fails a must-have precedes somebody who meets all, then no lower score, then no later answer |
| `Ranking.ListedIff` | services/hiring/internal/domain/screening.go:251-338 | listed are exactly the screened entries whose shown score, the override where there is one, reaches the least asked for and, under a named criterion, that the name belongs to a must-have they were not found to miss |
| `Ranking.ListedInOrder` | services/hiring/internal/domain/screening.go:274-353 | of two listed, the must-have verdict, then the shown score, then the answer's time, then the place in the submission decides |
| `Ranking.OverridingLifts` | services/hiring/internal/domain/screening.go:274-353 | an entry overridden above another with the same verdict stands ahead of it |
| `Ranking.FoldIs` | services/hiring/internal/domain/screening.go:251-259 | folding changes capital ASCII letters only, each to its own small one |
| `Ranking.FilteringCommutesWithRanking` | services/hiring/internal/domain/screening.go:326-338 | ranking under a filter equals filtering the unfiltered ranking |
| `Ranking.RaisingNeverMovesLater` | services/hiring/internal/domain/screening.go:274-354 | raising an override never moves the entry later in the list |
| `RankedResults.EveryResumeIsShownOnce` | services/hiring/internal/usecase/screening_service.go:248-273 | without a filter each resume of the opening is ranked, to review or pending, exactly one of them, and the three counts add up |
| `RankedResults.GetRankedResults` | services/hiring/internal/usecase/screening_service.go:252-273 | for a known opening: the ranking of its batches, exactly the resumes needing a person in submission order, and how many are pending |
| `RankedResults.Sort` | services/hiring/internal/usecase/screening_service.go:261-272 | the two loops compute exactly that |
| `Archive.UnrequestedIsThePrefix` | services/hiring/internal/adapter/memory/screening_repository.go:86-109 | the batches read for the relay, flattened, are exactly the first `limit` of all waiting entries, oldest first, and none of them is empty |
| `Archive.WaitingOnlyIs` | services/hiring/internal/adapter/memory/screening_repository.go:94-96 | the entries kept are exactly the pending ones never requested |
| `Archive.WaitingInOrder` | services/hiring/internal/adapter/memory/screening_repository.go:94-96 | and they keep their order, each one as often as it is there |
| `Archive.UnrequestedAreBatches` | services/hiring/internal/adapter/memory/screening_repository.go:86-109 | every batch read for the relay is a stored one with only its entries cut down |
| `Archive.OfInOrder` | services/hiring/internal/adapter/memory/screening_repository.go:67-77 | an opening's batches are all of them, in submission order |
| `Archive.ReplacedSays` | services/hiring/internal/adapter/memory/screening_repository.go:119-131 | replacing an entry changes the resume's first entry in the last batch that holds it and no other place |
| `Archive.ClipIs` | services/hiring/internal/adapter/memory/screening_repository.go:97-104 | clipping keeps as much as the limit allows, from the start |
| `MemoryRepository.Repository.SaveBatch` | services/hiring/internal/adapter/memory/screening_repository.go:29-41 | adds a batch at the end of the submission order, and a resume it repeats is then found in it; a known id is refused and changes nothing |
| `MemoryRepository.Repository.FindBatch` | services/hiring/internal/adapter/memory/screening_repository.go:44-53 | the batch with this id, or not found |
| `MemoryRepository.Repository.FindBatchOfResume` | services/hiring/internal/adapter/memory/screening_repository.go:56-64 | the batch that holds the resume, through the index, or not found |
| `MemoryRepository.Repository.ListBatches` | services/hiring/internal/adapter/memory/screening_repository.go:67-77 | an opening's batches in submission order |
| `MemoryRepository.Repository.Unrequested` | services/hiring/internal/adapter/memory/screening_repository.go:88-109 | the specification of the relay's reading |
| `MemoryRepository.Repository.SaveEntry` | services/hiring/internal/adapter/memory/screening_repository.go:80-84 | replaces one resume's entry in its place, and nothing else |
| `MemoryRepository.Repository.MarkRequested` | services/hiring/internal/adapter/memory/screening_repository.go:112-116 | changes one entry's request time, and nothing else |
| `MemoryRepository.Repository.Update` | services/hiring/internal/adapter/memory/screening_repository.go:119-131 | changes the stored entry of a resume, found through the index, in place |
| `Tables.OrderByPosition` | services/hiring/internal/adapter/postgres/screening_repository.go:213-219 | a cursor over a table's matching rows: each once, a batch's in position order |
| `Tables.Regrouped` | services/hiring/internal/adapter/postgres/screening_repository.go:192-251 | appending a cursor's rows batch by batch gives back the lists they were written from |
| `PostgresRepository.RoundTripIff` | services/hiring/internal/adapter/postgres/screening_repository.go:101-136 | saving an entry over its row and loading it gives the entry, with the row's own request time, if and only if it has the row's submission fields and fits the columns (NULLs, int4, whole microseconds) |
| `PostgresRepository.UpdateSays` | services/hiring/internal/adapter/postgres/screening_repository.go:101-136 | which part of an answered entry goes into which column, what becomes NULL, and that the submission's columns stay |
| `PostgresRepository.InsertSays` | services/hiring/internal/adapter/postgres/screening_repository.go:46-54 | a new entry's row holds its submission and NULL for everything an answer brings |
| `PostgresRepository.DecodeSays` | services/hiring/internal/adapter/postgres/screening_repository.go:222-250 | which column each part of an entry is read from, and what NULL stands for |
| `PostgresRepository.RefusedIff` | services/hiring/internal/adapter/postgres/schema.sql:48-71 | the rows the table's checks refuse: a negative size, a score or override off the scale, a score without screening or the other way round, an override without its time or the other way round |
| `PostgresRepository.StampIs` | services/hiring/internal/adapter/postgres/screening_repository.go:272-286 | a stored time is the last whole microsecond not after it |
| `PostgresRepository.ToInt32Is` | services/hiring/internal/adapter/postgres/screening_repository.go:114-116 | narrowing a position keeps it if and only if it fits 32 bits, and otherwise wraps |
| `PostgresRepository.DomainEntriesFit` | services/hiring/internal/adapter/postgres/screening_repository.go:101-136 | every entry the domain can produce fits its row and passes the table's checks |
| `PostgresRepository.NewBatchesFit` | services/hiring/internal/adapter/postgres/screening_repository.go:29-57 | a batch the domain has just accepted is inserted, and loaded as it was |
| `PostgresRepository.Repository.SaveBatch` | services/hiring/internal/adapter/postgres/screening_repository.go:29-57 | inserts batch, snapshot and entries, or nothing when any key or check is violated |
| `PostgresRepository.Repository.Load` | services/hiring/internal/adapter/postgres/screening_repository.go:163-251 | three cursors rebuild exactly the stored batches among these ids, in submission order, criteria and entries in theirs |
| `PostgresRepository.LoadCriteria` | services/hiring/internal/adapter/postgres/screening_repository.go:192-211 | appends each snapshot row to its batch |
| `PostgresRepository.LoadEntries` | services/hiring/internal/adapter/postgres/screening_repository.go:213-251 | appends each decoded entry to its batch |
| `PostgresRepository.Repository.FindBatch` | services/hiring/internal/adapter/postgres/screening_repository.go:60-62 | the same answer the archive gives |
| `PostgresRepository.Repository.FindBatchOfResume` | services/hiring/internal/adapter/postgres/screening_repository.go:65-68 | the same answer the archive gives |
| `PostgresRepository.Repository.ListBatches` | services/hiring/internal/adapter/postgres/screening_repository.go:71-73 | an opening's batches in submission order |
| `PostgresRepository.Repository.Unrequested` | services/hiring/internal/adapter/postgres/screening_repository.go:77-98 | selecting batches by NULL request times and filtering their entries meets the same specification as the in-memory scan |
| `PostgresRepository.Repository.SaveEntry` | services/hiring/internal/adapter/postgres/screening_repository.go:101-136 | stores what the columns keep of the entry and leaves requested_at alone; an unknown resume or a violated check changes nothing |
| `PostgresRepository.Repository.MarkRequested` | services/hiring/internal/adapter/postgres/screening_repository.go:139-148 | sets one row's requested_at |
| `StoresAgree.RunsAgree` | services/hiring/internal/adapter/postgres/screening_repository.go:19-292 | for every sequence of calls the service makes, both stores give the same answers and end up showing the same; the relay's answers are equal to the last field |
| `StoreCalls.RunBoth` | services/hiring/internal/adapter/postgres/screening_repository.go:19-292 | so do the two repositories themselves, made to answer one sequence of calls: equal views, equal answers |
| `StoreCalls.RunMemory` | services/hiring/internal/adapter/memory/screening_repository.go:29-131 | a run of calls on the in-memory repository is the specification's run |
| `StoreCalls.RunPostgres` | services/hiring/internal/adapter/postgres/screening_repository.go:19-292 | a run of calls on the PostgreSQL repository is its specification's run |
| `StoresAgree.SaveEntryAgreesIff` | services/hiring/internal/adapter/postgres/screening_repository.go:101-136 | one save leaves both stores showing the same if and only if the columns can hold the entry and a pending one keeps its request time |
| `StoresAgree.CallsKeepWellFormed` | services/hiring/internal/adapter/memory/screening_repository.go:29-131 | whatever the service calls, every resume stays in one batch, under that batch's id |
| `OpeningRows.RegroupingUndoesJoining` | services/hiring/internal/adapter/postgres/job_opening_repository.go:99-140 | flattening openings into join rows and regrouping adjacent rows gives the same openings in order if and only if no two neighbours share an id |
| `OpeningRows.Regroup` | services/hiring/internal/adapter/postgres/job_opening_repository.go:114-139 | the grouping loop computes that regrouping |
| `OpeningRows.IntervalExactIff` | services/hiring/internal/adapter/postgres/job_opening_repository.go:142-150 | a duration survives the interval column exactly when it is whole microseconds |
| `OpeningRows.DomainOpeningsFit` | services/hiring/internal/adapter/postgres/job_opening_repository.go:43-79 | an opening of the domain passes the table's checks exactly when it expects at least a microsecond and its weights fit int4, and is loaded unchanged exactly when its times are whole microseconds |
| `OpeningRows.StorableIff` | services/hiring/internal/adapter/postgres/schema.sql:5-25 | which openings the tables refuse: a title of spaces, less than a microsecond to fill, an outcome without closing or the other way round, an unknown outcome, or a criterion without a name, a class or a positive int4 weight |
| `OpeningRows.HeaderSays` | services/hiring/internal/adapter/postgres/job_opening_repository.go:43-79 | which part of an opening is in which column and read back from there; the interval drops what is below a microsecond, towards zero |
| `OpeningRows.SavedSays` | services/hiring/internal/adapter/postgres/job_opening_repository.go:43-79 | saving replaces the opening with that id in its place, or adds it behind all others |
| `OpeningRows.Repository.Save` | services/hiring/internal/adapter/postgres/job_opening_repository.go:43-79 | a known id keeps its place in the order, a new one comes last, a violated check changes nothing |
| `OpeningRows.Repository.FindByID` | services/hiring/internal/adapter/postgres/job_opening_repository.go:82-91 | the stored opening with this id, or none |
| `OpeningRows.Repository.List` | services/hiring/internal/adapter/postgres/job_opening_repository.go:94-96 | every opening in creation order |
| `HiringService.Service.PublishPendingRequests` | services/hiring/internal/usecase/screening_service.go:182-213 | one pass sends a prefix of the oldest 500 waiting entries, each with its own batch's snapshot, marks exactly the confirmed ones, stops at the first failure and leaves the rest as they were |
| `HiringService.Queue.RequestScreening` | services/hiring/internal/adapter/rabbitmq/broker.go:193-233 | succeeds exactly when the broker confirmed and had not handed the message back; reports no queue exactly when the message was among those handed back, and unavailable otherwise; what the queue gained, whatever was answered |
| `HiringService.Queue.Returned` | services/hiring/internal/adapter/rabbitmq/broker.go:235-246 | drains the handed-back messages and says whether this one was among them |
| `HiringService.MessagesSay` | services/hiring/internal/usecase/screening_service.go:199-211 | message by message: the pass asks for each item's own object, with its batch's opening and criteria and a correlation id of its own |
| `HiringService.PublishedSays` | services/hiring/internal/usecase/screening_service.go:199-211 | what reached the queue is the confirmed prefix and, of the failed one, a message only if it reached the queue all the same |
| `HiringService.RunPasses` | services/hiring/internal/usecase/screening_service.go:182-213 | running passes one after another with the broker up computes the passes' specification, and leaves none of n waiting entries if and only if there were at least ceil(n / 500) passes |
| `HiringService.FullProgressIsAPass` | services/hiring/internal/usecase/screening_service.go:182-213 | a pass that got through its whole reading is one pass of the line |
| `HiringService.OneMore` | services/hiring/internal/usecase/screening_service.go:199-211 | the entry the pass has come to is still the head of the line, and confirming and marking it is progress |
| `Relay.MarkingDrains` | services/hiring/internal/usecase/screening_service.go:199-211 | marking the first n of the line in order leaves exactly the rest waiting |
| `Relay.MarkSays` | services/hiring/internal/adapter/memory/screening_repository.go:112-116 | marking sets the request time of that resume's entry and no other part of the store |
| `Relay.MarkedAtItsTurn` | services/hiring/internal/usecase/screening_service.go:199-211 | after n marks each of the first n carries the time of its own turn |
| `Relay.ItemsAreTheStores` | services/hiring/internal/usecase/screening_service.go:182-213 | every item of a pass is a stored entry, with the opening and the snapshot of its own batch |
| `Relay.PassesDrain` | services/hiring/internal/usecase/screening_service.go:182-213 | with the broker up and n waiting, ceil(n / 500) passes leave none, and no fewer do |
| `Relay.HeadOfTheLine` | services/hiring/internal/adapter/memory/screening_repository.go:88-116 | marking the oldest waiting entry takes it out of the line and nothing else |
| `ResultService.Service.RecordScreeningResult` | services/hiring/internal/usecase/screening_service.go:218-235 | an answer is kept, ignored as a repeat or refused as the protocol's rule says for the stored entry; only a kept one that is saved changes anything |
| `ResultService.Service.Decide` | services/hiring/internal/usecase/screening_service.go:300-338 | a Recruiter's decision is saved only if the domain allows it, for a resume of that opening |
| `ResultService.Service.Handle` | services/hiring/internal/adapter/rabbitmq/broker.go:248-302 | acknowledged when recorded or repeated, dead-lettered when it can never be accepted, put back on any other failure, including that of the dead-letter copy |
| `Identity.Store.StartSession` | services/identity/sessions.go:51-67 | sweeps sessions ended over a day ago and adds one session with its first token, or rolls back |
| `Identity.StartedSays` | services/identity/sessions.go:51-67 | sessions that ended within a day stay with their tokens, older ones go with theirs, and the new session has this member, this end and one unused token; it fails only for an unknown member or an id or token already there |
| `Identity.Store.RotateRefreshToken` | services/identity/sessions.go:82-147 | one exchange: which token, session and member are refused and how, and what each refusal still commits |
| `Identity.ExchangedSays` | services/identity/sessions.go:129-147 | an exchange marks the presented token used at that moment, adds the next one to the same session, answers with its member, role and end, and touches no other row |
| `Identity.RefusedSays` | services/identity/sessions.go:106-147 | a used token is reuse and ends its session, even of a removed member; then a revoked or over session; then a removed member, whose session is ended; only a generator's repeat fails otherwise |
| `Identity.Store.EndSessions` | services/identity/sessions.go:167-182 | the UPDATE: ends the unrevoked ones among these sessions and keeps earlier revocations |
| `Identity.Store.DeleteUnusedTokens` | services/identity/sessions.go:172-200 | the DELETE: deletes exactly the unused tokens of these sessions |
| `Identity.Store.Revoke` | services/identity/sessions.go:164-200 | both, when no other transaction comes between them |
| `Identity.RevokedSays` | services/identity/sessions.go:164-200 | ending sessions stamps the open ones with time and reason, keeps the used tokens of every one of them and takes the unused, and leaves the rest |
| `Identity.Store.LockActiveMember` | services/identity/store.go:201-216 | the member, or that it is missing or removed |
| `Identity.ActiveIff` | services/identity/store.go:201-216 | who is found, who is removed and who can be changed |
| `Identity.Store.EnsureAnotherAdmin` | services/identity/store.go:219-231 | whether another active admin exists |
| `Identity.Store.ChangeRole` | services/identity/store.go:104-126 | changes one active member's role, unless that would demote the last admin |
| `Identity.RoleSays` | services/identity/store.go:104-126 | changes the role alone, unless it would demote the only active admin |
| `Identity.Store.SetPassword` | services/identity/store.go:128-173 | sets the hash and the flag and ends every session of the member, in one transaction |
| `Identity.PasswordSays` | services/identity/store.go:128-173 | afterwards the member has the new hash and flag and the email and role of before, every sign-in of theirs is over, and nobody else's row or session changed |
| `Identity.Store.Remove` | services/identity/store.go:178-197 | removes an active member who is not the last admin and ends their sessions |
| `Identity.RemovedSays` | services/identity/store.go:178-197 | marks the member removed and nothing else of the row, ends their sign-ins and nobody else's, unless they are the only active admin |
| `Identity.Store.Create` | services/identity/store.go:89-101 | adds a member with a temporary password, unless an active one has the email |
| `Identity.CreatedSays` | services/identity/store.go:89-101 | the new member has the email, hash and role given, a temporary password and is active; it fails exactly for an id there is or an email an active member has |
| `Identity.EmailsStayApart` | services/identity/store.go:89-197 | no change of members lets two active ones share an email |
| `SignIns.EveryReachableChainIsLinear` | services/identity/sessions.go:51-200 | in every state reachable from an empty store, with other transactions between the two revoking statements: a revoked session has no unused token; an open one has none if some commit of the run stranded it, and exactly one otherwise |
| `SignIns.StrandedIff` | services/identity/sessions.go:177-200 | after any transaction an open session has no unused token if and only if it had none before, or the transaction is the commit of a change of its member's that began before it, and whose DELETE took its token |
| `SignIns.DeadForGood` | services/identity/sessions.go:51-200 | over every run a sign-in that is over or without a token stays over or without a token |
| `SignIns.AnInterruptingSignInIsStranded` | services/identity/sessions.go:177-200 | whatever the store and the change, a sign-in of the member that commits between the two statements is left open without the token it was answered with |
| `SignIns.AStrandedSignInIsReachable` | services/identity/sessions.go:177-200 | a concrete run from an empty store that strands a sign-in |
| `SignIns.AloneItIsAtomic` | services/identity/store.go:128-197 | with no transaction in between, UPDATE, DELETE and commit are the one atomic step of the store's method |
| `SignIns.ChainsStayLinear` | services/identity/sessions.go:51-200 | every run of transactions and statements keeps that, every reference resolving, and everything the change under way has locked |
| `SignIns.ExchangedAtMostOnce` | services/identity/sessions.go:76-81 | over a whole run each token is exchanged successfully at most once |
| `SignIns.RefreshSucceedsIff` | services/identity/sessions.go:106-141 | a refresh succeeds if and only if the token is its sign-in's one current token, before the cap, for a member not removed |
| `SignIns.ReuseEndsTheSignIn` | services/identity/sessions.go:118-123 | presenting a retired token is refused and still commits the revocation of that sign-in, and touches no other |
| `SignIns.OverForGood` | services/identity/sessions.go:118-147 | no token descended from a sign-in that is over, or stranded, is ever exchanged again |
| `SignIns.FirstRevocationStands` | services/identity/sessions.go:164-188 | later revocations keep the first one's time and reason |
| `SignIns.RemovedMembersNeverRefresh` | services/identity/sessions.go:126-128 | after a removal no refresh ever succeeds for that member, not even on a session started after it |
| `SignIns.EndedAtCommitIff` | services/identity/store.go:128-197 | a removal or a new password ends, of the member's sign-ins, exactly those its UPDATE saw and those already over; one begun since keeps its token unless the DELETE saw it; a removed member is gone |
| `SignIns.TheCapIsFixedAtSignIn` | services/identity/auth.go:85-97 | every refresh of a chain answers with the member and the end time fixed at sign-in, happens before it, and carries the role of that moment |
| `Membership.AnAdminAlwaysRemains` | services/identity/store.go:35-37 | from any state with an active admin, every interleaving of the statements of ChangeRole, Remove, SetPassword and Create leaves one |
| `Membership.EveryAnswerIsAtomic` | services/identity/store.go:104-231 | a transaction that answers gives the answer and the effect it would have had as one atomic step at that moment; one that does not changes nothing |
| `Membership.WithoutTheLockNoneMayRemain` | services/identity/store.go:35-37 | without the advisory lock a run exists in which two admins demote each other and none is left |
| `Browser.AnsweredWith` | services/identity/auth.go:123-140 | a refresh is answered 401 exactly without a cookie or for a token that is missing, used, or of a session or member that is over; 500 for any other error, also after the commit; and else with the next token |
| `Browser.CookieChangesIff` | services/gateway/session_cookie.go:84-122 | only a renewal or a sign-in's answer puts a token into the cookie, and only the Identity Service's refusal or a clearing takes it out: a 500, or the gateway's own 401, leaves it alone |
| `Browser.TheTabNeverTripsReuse` | services/web/src/api/client.ts:48-71 | with one tab, and no rotation of the cookie's own token whose answer is lost: whenever no refresh is in flight the cookie is absent, the current token of its sign-in, or of a sign-in that is over or stranded; no rotation is ever asked for with a used token |
| `Browser.RotatingKeepsInvIff` | services/identity/auth.go:123-140 | a rotation, with any trouble around it, keeps the tab's invariant if and only if it is not committed for the cookie's own token and then answered 500 |
| `Browser.TheCookieIsHarmlessIff` | services/identity/auth.go:123-140 | once the tab has the answer to a rotation its cookie is harmless, if and only if that rotation was not committed for the cookie's own token with the answer lost to a later error |
| `Browser.ASpentCookieEndsTheSignIn` | services/gateway/session_cookie.go:84-88 | the tab's next refresh then ends its own sign-in and clears the cookie |
| `Browser.SigningOutLastsIff` | services/gateway/session_cookie.go:116-122 | a browser without a cookie stays without one over every continuation without a sign-in, if and only if no sign-in's answer and no renewal is on its way and the refresh on its way, if any, carries a token that cannot be exchanged |
| `Browser.NotExchangeableIff` | services/identity/sessions.go:106-141 | a token cannot be exchanged if and only if it was used or deleted, its member was removed, or its sign-in's end time is not after the Identity Service's clock |
| `Browser.NotExchangeableStays` | services/identity/sessions.go:106-141 | no transaction, and no time going by, makes it exchangeable again |
| `Browser.DeletedWithItsSignIn` | services/identity/sessions.go:164-200 | a token's row disappears only because its sign-in was revoked, swept or stranded |
| `RateLimiter.Limiter.Allow` | services/gateway/ratelimit.go:43-58 | takes one token if the bucket has one, after adding perSecond tokens for each second since its last use up to the burst, and records the use; a new key sweeps idle buckets first, so every other bucket was used within 600 seconds |
| `RateLimiter.Limiter.EvictIdle` | services/gateway/ratelimit.go:62-68 | drops exactly the idle buckets |
| `RateLimiter.EvictionInvisibleIff` | services/gateway/ratelimit.go:43-68 | for every sequence of keys and non-decreasing times the limiter answers like one that never evicts, if and only if a bucket left alone for just over the time to live refills (or nothing is ever granted) |
| `RateLimiter.GrantsBounded` | services/gateway/ratelimit.go:43-58 | while that holds, one key is granted at most burst + perSecond * (end - start) / 1e9 in any window of nanoseconds, whatever came before and whoever calls in between |
| `RateLimiter.GrantedOnceEarned` | services/gateway/ratelimit.go:43-68 | a caller last asked at t is granted at t' when perSecond * (t' - t) / 1e9 >= 1 and the burst is at least one, whatever was evicted meanwhile; so is one who never asked |
| `RateLimiter.OneRequest` | services/gateway/ratelimit.go:43-68 | one request is answered alike by both and leaves them matching |
| `InterviewGuides.GuidesStayInOrder` | services/hiring/internal/domain/interview_guide.go:107-179 | over every run of a guide: ids are exactly q1..qn, an edited guide names no model, each accepted change counts one revision, the identity is fixed |
| `InterviewGuides.NotesDoNotComeBack` | services/hiring/internal/domain/interview_guide.go:107-179 | over every run, a note not on the guide - overwritten, dropped with its question, or gone with a generation - is there again only if it was written against the same text again |
| `InterviewGuides.OverwrittenIff` | services/hiring/internal/domain/interview_guide.go:141-150 | recording over a note takes it off the guide, unless another question with the same text carries the same note, or it is the same note |
| `InterviewGuides.ReplacingKeepsNotesIff` | services/hiring/internal/domain/interview_guide.go:162-179 | replacing by any set with the same texts and no notes of its own keeps every note if and only if no two questions share a text with different notes |
| `InterviewGuides.NewGuidesAreInOrder` | services/hiring/internal/domain/interview_guide.go:86-105 | a new guide satisfies the same rules and carries exactly the notes its questions bring |
| `InterviewGuides.InterviewGuide.Regenerate` | services/hiring/internal/domain/interview_guide.go:109-122 | replaces questions, emphasis and attribution; a refused set alters nothing |
| `InterviewGuides.GenerateSays` | services/hiring/internal/domain/interview_guide.go:109-122 | a generation has the questions given, under new ids, the trimmed emphasis and the model's attribution, one revision more, and the identity of before |
| `InterviewGuides.InterviewGuide.ReplaceQuestions` | services/hiring/internal/domain/interview_guide.go:127-137 | takes the Recruiter's set with notes carried over and no attribution; a refused set alters nothing |
| `InterviewGuides.EditSays` | services/hiring/internal/domain/interview_guide.go:127-137 | an edit names no model and has the questions given, each with its own note or, without one, the last note of that text |
| `InterviewGuides.InterviewGuide.RecordNote` | services/hiring/internal/domain/interview_guide.go:141-150 | stores a note on the question with that id and touches no other; an unknown id alters nothing |
| `InterviewGuides.NotedSays` | services/hiring/internal/domain/interview_guide.go:141-150 | afterwards that question carries the note, whatever it carried before, and every other is as it was |
| `InterviewGuides.NewInterviewGuide` | services/hiring/internal/domain/interview_guide.go:86-105 | made exactly for a named candidate and opening with valid questions |
| `InterviewGuides.FirstSays` | services/hiring/internal/domain/interview_guide.go:86-105 | a new guide is the first revision of a generated set, made and changed at the same time |
| `InterviewGuides.ValidateQuestions` | services/hiring/internal/domain/interview_guide.go:182-202 | accepts exactly a non-empty list of questions with text, criterion and a known kind |
| `InterviewGuides.ValidQuestionsIff` | services/hiring/internal/domain/interview_guide.go:182-202 | those are the sets with at least one question, each with a character other than a space in its text and its criterion, and of one of the three kinds |
| `InterviewGuides.CarryNotes` | services/hiring/internal/domain/interview_guide.go:166-179 | a question without a note gets the last note written against the same text |
| `InterviewGuides.NoteForIsLast` | services/hiring/internal/domain/interview_guide.go:166-179 | the note carried over is that of the last question of that text which has one, and none when no question has |
| `InterviewGuides.AssignIds` | services/hiring/internal/domain/interview_guide.go:153-160 | q1..qn in order, nothing else changed |
| `InterviewGuides.QuestionIDSpells` | services/hiring/internal/domain/interview_guide.go:153-160 | an id is the letter q and the decimal numeral of the position counted from one |

## Left out

- Two copies of one request handled at the same moment in Resume Processing, several Hiring replicas, two browser tabs, page reloads in mid-refresh: the code does not promise the properties above there.
- Resume Processing's database writes failing other than at allocation, claim and recording a failure.
- A profile cached on the candidate, so that a retry skips extraction: it changes how much work is done, not which row results.
- `RevokeSessions` (services/identity/sessions.go:151-162): two separate transactions without a caller, which would strand a sign-in as the two statements of one do.
- The password check before a session starts: a session may start for any member at any moment, also while that member's password is being changed.
- StartSession, RotateRefreshToken and ChangeRole are one step each: the rows they read are locked, new, or members' rows of which one column is read.
- The foreign keys from batches to job openings, and text collation in ORDER BY batch_id; only the order within a batch matters.
- The in-memory job-opening repository, two fields of the same shape as the screening one.
- The browser's own clock: a cookie may expire at any moment, or stay; what a token is worth is judged by the Identity Service's clock.
- The other checks of `signIn`, and the one resend in the web client's `api`: a refresh may be wanted at any moment, which is more than the code allows.
- File checks and storage in `SubmitScreeningBatch`; the batch it saves is modelled by `Screening.NewScreeningBatch`.
- Unicode: spaces are Latin-1's, and the case-insensitive criterion filter folds ASCII letters only.
- Weights above 2^53, which JavaScript rounds before they are encoded as uint32; below that they wrap as modelled.
- `slices.SortStableFunc` is modelled as an insertion sort proved stable.
- Slices shared between copies: batches, snapshots and stored entries are values, so what cloning secures (a snapshot that outlives a revision, services/hiring/internal/domain/screening.go:119-146) holds by construction and is no result here.
- HTTP, JSON, gRPC, JWT, bcrypt, hashing of tokens, object storage, PDF extraction, providers and prompts: parameters or nondeterministic outcomes.
- Real time-to-live of the retry queue: a delayed copy may come back at any moment; only the assigned delays are bounded.
- Progress: that a waiting resume is eventually answered depends on workers and the broker being up; the theorems are about safety.
- Justifications, routing, role checks, the web pages beyond the API client, and document builders: no state that outlives a request, or no hard property.
