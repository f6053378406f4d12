# The orchestrator, verified

This project models an issue/PR orchestrator that runs as a Cloudflare Worker,
and proves what holds of it over whole runs. The orchestrator keeps its state
in GitHub labels: a webhook becomes an event, a table of rules says what the
event does to the item's one tracked label, and the rule's label calls and its
agent routine follow. One Durable Object per issue or PR serialises all of it
and owns the alarm of the routine it fired. A scheduler sweeps for fires that
were lost.

How it is modelled:

- **The table** (`Graph.dfy`) is a sequence of rules and a first-match reducer.
- **One item** (`Item.dfy`) is its live labels on GitHub, the durable storage
  behind it, its clock, and a history of what it really wrote, fired and
  matched. Every call out of it is answered by `Ctx.world`, an arbitrary
  function of the number of calls made: any call may succeed, fail, fail having
  taken effect all the same, take time, or find that other people have edited
  the labels meanwhile; a fire may also be rate-limited. A statement about all
  `Ctx` is a statement about all environments.
- **The handlers** are given twice. As functions from an item to a `Step` (the
  item it leaves, and a result unless it threw): `Apply.dfy`, `Webhook.dfy`,
  `Watchdog.dfy`. And as they are written, working on a `Deps` object field by
  field: `Deps.dfy`, `Coordinate.dfy`, `CoordinateWebhook.dfy`,
  `CoordinateWatchdog.dfy`. Each method of the second kind is proved to do
  exactly what the function does, on every path, throws included.
- **What handlers keep** is proved once for all facts together. `Kinds.dfy`
  lists the kinds of fact (a budget of hand-outs, an armed alarm, a return
  address, a remembered outcome, ...); `Keeps.dfy`, `GateKeeps.dfy`,
  `StageKeeps.dfy`, `WebhookKeeps.dfy` and `WatchdogKeeps.dfy` prove, one
  handler at a time, that every kind is kept. `Runs.dfy` puts the handlers, the
  alarm going off, people's edits and time together into arbitrary runs.
- **The theorems** then each take one kind over a run: `Theorems.dfy`,
  `Carriers.dfy`, `Alarms.dfy`, `Deferral.dfy`, `Addresses.dfy`, `HandOuts.dfy`,
  `GateAnswers.dfy`, `Stuck.dfy`, `Trust.dfy`.
- **What each act comes to**, in labels, fires, what is pending and what is
  recorded, is stated of whole deliveries, alarms, signals and sweeps, without the
  handlers' own helpers: `Fires.dfy` (what a fire leaves by the API's answer),
  `Delivered.dfy` (from a payload to the item it leaves), `Reports.dfy` (the
  outcomes), `Triggers.dfy` (label edits), `Verdicts.dfy` (the two gates, over the
  facts' own fields), `ReleaseSplit.dfy`, `LiveRuns.dfy` (signals, the timeout, the
  one retry, recovery), `LeftBehind.dfy` (the sweep), `Crossing.dfy` (hand-offs
  and closes). They take the labels as nobody else edits them while the handler
  runs, and every answer of every call as it comes.
- **Concurrency** is a state machine cut at the awaits: `Requests.dfy` (the
  serial queue, delivery ids) and `Scheduler.dfy` (`alarm()` against `/ensure`,
  and the sweep's budget).
- **Codecs**: `Envelope.dfy` (the outcome comment, its JSON and its fence),
  `Der.dfy` (the PKCS#8 wrapping), `Token.dfy` (base64url and the log token).

Where the code and its prose disagree, the code is followed: the rule table, not
the repository's own introduction, says which labels are watched (`pr-open` is
not).

## Model

| member | source | states |
|---|---|---|
| Graph.ReduceIsDecide | graph/graph.ts:43-567 | The table, searched for its first match, and a decision written event by event give the same rule for every state and event: no row is shadowed by an earlier one, and none is missing. |
| Labels.ReadingMeans | worker/src/coordinate/apply.ts:299-317 | What a reading says of the labels behind it: no label, exactly the one read, or one of the two expected pairs. |
| Labels.PairReading | worker/src/coordinate/apply.ts:299-317 | Any two labels are ambiguous but for ai-stuck with another, and auto-merging with merge-blocked. |
| Labels.OpsReachAfter | graph/github/to-github.ts:42-57 | A rule's label calls, made on the labels they were computed from, reach the labels the rule means. |
| Labels.MatchedRuleLeavesItsTarget | graph/github/to-github.ts:42-57 | On an item with at most one tracked label besides the one the event added, a matched rule leaves exactly its target: that label alone, none for unlabel, the same for noop and close. |
| LateOutcomes.LateOutcomeLeavesOne | worker/src/coordinate/apply.ts:303-312 | For ai-stuck beside another label, a late outcome leaves one label if and only if it leads to that label or only takes ai-stuck off. |
| LateOutcomes.TwoLabelsLeft | worker/src/coordinate/apply.ts:303-312 | The other half happens: a delivery that carries review_passed, once it returns, has left ready-for-review beside whatever label was on beside ai-stuck, ai-reviewing for one. |
| Keeps.KeepApply | worker/src/coordinate/apply.ts:128-226 | Applying any event keeps every kind of fact, or turns it into the one the matched rule leaves. |
| GateKeeps.KeepHandedToRework | worker/src/coordinate/merge-gate.ts:14-44 | The merge gate's hand-out is paid for by its counter, on every path, and takes merge-blocked off a retry. |
| GateKeeps.KeepReviewGate | worker/src/coordinate/review-gate.ts:20-74 | The review's gate keeps every kind: waiting, green, red within the cap, red past it. |
| GateKeeps.KeepTakeFindings | worker/src/coordinate/review-gate.ts:77-94 | A counted round of findings keeps every kind, up to the cap and past it. |
| StageKeeps.KeepReleaseApproved | worker/src/coordinate/release.ts:22-75 | The release split keeps every kind, whether the merge is refused, made, or found made. |
| WebhookKeeps.KeepReturn | worker/src/coordinate/webhook.ts:132-172 | A return address lasts exactly until the rule that ends its rework: the push's own event always has a rule there. |
| WebhookKeeps.KeepOnEvent | worker/src/coordinate/webhook.ts:122-410 | An event against the labels just read keeps every kind: the push's classification, the caps, the retries, the gates. |
| WebhookKeeps.KeepDelivery | worker/src/coordinate/webhook.ts:33-94 | A whole delivery, claimed or repeated, returning or thrown, keeps every kind that fits its payload. |
| WatchdogKeeps.KeepAlarm | worker/src/coordinate/watchdog.ts:36-155 | The alarm keeps every lasting kind: deferred sends, recovery, the one retry, the expiry. |
| WatchdogKeeps.TryNotesStay | worker/src/coordinate/watchdog.ts:206-277 | Recovery that finds nothing to apply leaves the fire it looked for pending. |
| SignalKeeps.KeepSignal | worker/src/coordinate/routine-signal.ts:39-183 | A routine's signal keeps every lasting kind. |
| SweepKeeps.KeepReconcile | worker/src/coordinate/reconcile.ts:63-195 | The sweep's question, its gate and its re-fire keep every lasting kind. |
| RunKeeps.KeepHandle | worker/src/issue-coordinator.ts:130-185 | Each thing that can happen to an item keeps every kind it fits. |
| RunKeeps.KeepRun | worker/src/issue-coordinator.ts:130-185 | So does every run of them, by induction. |
| Termination.ReworkTerminates | worker/src/coordinate/merge-gate.ts:20-33 | In any enforced run in which only the Worker moves labels, not starting from the merge-blocked and auto-merging pair, the applied hand-outs to rework-loop number at most what the two counters still allowed. |
| Termination.NothingAfterReviewPassed | worker/src/coordinate/webhook.ts:360-368 | An applied review_passed, which resets both counters, is followed by no hand-out at all. |
| Termination.OneLabelKept | worker/src/coordinate/apply.ts:179-205 | The Worker's own steps, however its calls fail, never leave two tracked labels where there was at most one. |
| Releases.ReleaseNotRepeated | worker/src/coordinate/release.ts:59-75 | While a merged release is on record, no handler in any run, calls throwing as they like, fires auto-release-loop for the item, and none is pending. |
| Shadow.ShadowWritesNothing | worker/src/coordinate/types.ts:343-360 | With nothing enforced, no run writes a label, closes, comments, fires or merges, and no deferred fire ever comes to be. |
| Shadow.ShadowExpiryWritesNothing | worker/src/coordinate/types.ts:334-341 | With only the watchdog shadowed, no expiry writes: not the alarm's, and not the one a routine's own ended signal asks for. |
| Carriers.AppliedIsRemembered | worker/src/coordinate/outcome-dedupe.ts:39-44 | An outcome that applied while its routine's own fire was pending is remembered against that fire, unless applying it started a newer one. |
| Carriers.NewerRunIsNotSpent | worker/src/coordinate/outcome-dedupe.ts:39-44 | One whose applying started a newer run of its routine is not remembered. |
| Carriers.RememberedIsDeduped | worker/src/coordinate/outcome-dedupe.ts:28-67 | A remembered outcome's next carrier, comment or signal, is a logged no-op. |
| Carriers.AppliedOnce | worker/src/coordinate/outcome-dedupe.ts:28-44 | A comment came first and ended its fire: through any later events, until the routine is next started, every later carrier of that outcome, comment or signal, moves no label, counter or pending fire, and fires nothing. |
| Carriers.SignalledOnce | worker/src/coordinate/routine-signal.ts:104-133 | The same where the routine's own signal came first, from the item as the signal's own ending of the fire leaves it. |
| Expiries.AlarmIsNotSilent | worker/src/coordinate/watchdog.ts:163-196 | With the watchdog enforced, and its retry off or used up, an alarm attempt never makes an undeferred fire disappear unless the alert was posted or a recovered outcome had matched a rule. |
| Expiries.AttemptsAreNotSilent | worker/src/coordinate/watchdog.ts:115-155 | So through any number of attempts, each free to throw anywhere. |
| Expiries.RefusedRetryIsSilent | worker/src/coordinate/watchdog.ts:290-301 | With the retry on, a refused re-fire and labels that cannot then be read lose the fire in silence. |
| Expiries.SilentOnlyByRetry | worker/src/coordinate/watchdog.ts:128-142 | So for a due and undeferred fire, silence is impossible in every world if and only if the fire may not be retried. |
| Agreement.AlarmMoves | worker/src/coordinate/watchdog.ts:36-155 | An alarm run that returns, and did not find the fire early, has ended it, replaced it or armed it again. |
| Agreement.AlarmRestores | worker/src/issue-coordinator.ts:178-185 | Every alarm run that returns normally leaves the pending fire and the alarm in agreement, also one invoked before its time, within the margin. |
| Agreement.MarginIsExact | worker/src/coordinate/watchdog.ts:31-45 | With its alarm gone, a returning run restores the agreement if and only if the fire was due within the margin. |
| Agreement.FireAndAlarmAgree | worker/src/issue-coordinator.ts:259-269 | In every reachable state, alarms going off at their time or within the margin before it, the alarm is set for when the pending fire is due, both absent together, except while an alarm invocation waits or runs. |
| Agreement.FreshArmOutlivesAlarm | worker/src/coordinate/watchdog.ts:39-45 | A waiting alarm never expires a watched fire or heartbeat that armed less than half a timeout before its turn. |
| Fires.Defers | worker/src/coordinate/apply.ts:99-123 | A fire limited until a time is pending, due and armed for that time plus the item's number modulo thirty in seconds; said on the item unless it was deferred already. |
| Fires.WatchedFire | worker/src/coordinate/apply.ts:35-61 | A watched fire is one call, and its last run's outcome is forgotten; the API's answer decides what is pending: the run with a full timeout, its deferral to the time given, or nothing. |
| Fires.UnwatchedFire | worker/src/coordinate/apply.ts:73-84 | So for an unwatched one, which leaves nothing pending once it went out. |
| Fires.RefusalIsSaid | worker/src/coordinate/apply.ts:238-279 | A refused fire is a row in the log, and a comment for a delivery only, each if its own call had its effect. |
| Fires.WatchedByLabel | graph/graph.ts:443-465 | A rule's fire is watched exactly where the label the rule leads to, or stays in, is ai-ready, auto-releasing, auto-reworking, auto-merging or ai-reviewing. |
| Fires.EventFires | worker/src/coordinate/apply.ts:128-226 | Every event: no rule, nothing fired and the pending fire stands; a rule that runs nothing ends it; one that runs something tries it once, only with its labels written, and leaves by the API's answer the run undeferred with a full timeout, watched by those labels, or its deferral to the nudged time, or nothing, whatever throws after. |
| Deferral.FireSends | worker/src/coordinate/apply.ts:35-123 | A fire of a run, watched or not, is tried once: accepted it is sent with no deferral left, limited it waits for the time the API gave, or it is refused. |
| Deferral.AlarmSendsOrWaits | worker/src/coordinate/watchdog.ts:51-113 | A deferred fire's alarm finds it early and leaves it, or sends it once, or defers it again, and says which; only an outright refusal throws. |
| Deferral.DeferredFireIsKept | worker/src/coordinate/apply.ts:99-123 | Through any re-deferrals, heartbeats, signals, comments, pushes, review hand-offs and sweeps, whatever other calls fail, a rate-limited fire stays pending with its alarm at the time the API last gave, and nothing is tried but the run itself, at its alarm, until it is accepted, once, and no deferral is left; unless another event's rule matches first or it is refused outright. |
| Deferral.DeferralStarts | worker/src/coordinate/apply.ts:35-123 | That life starts wherever a matched rule's fire is rate-limited, on an item with at most one tracked label besides the one its event added: the fire waits, its alarm at the time given plus the item's number modulo thirty in seconds, and the labels ask for it. |
| Deferral.FiredAsItWas | worker/src/coordinate/watchdog.ts:92-97 | Come due and still wanted, it is fired as it was first: watched or not, a retry still a retry. |
| Deferral.UnwantedIsDropped | worker/src/coordinate/watchdog.ts:60-91 | One its labels no longer ask for is dropped, unfired. |
| Deferral.NotTriedBeforeItsTime | worker/src/coordinate/apply.ts:99-123 | In any run without a close, people editing labels as they like, that ends more than a minute or half a timeout before the nudged time, a limited fire is not tried and nothing else is fired; it stays pending and armed unless an event's rule has matched. |
| Watchdog.StillWantedIsTheTables | worker/src/coordinate/watchdog.ts:281-285 | A deferred fire is still wanted exactly when some rule of the table that runs it leads to, or stays in, the item's state. |
| Addresses.MergeGateAddresses | worker/src/coordinate/merge-gate.ts:14-44 | A rework the merge gate hands out is due back at auto-merging, whatever throws after: from a person's retry beside merge-blocked too, unless the removal of that label threw. |
| Addresses.ReviewCiAddresses | worker/src/coordinate/review-gate.ts:49-74 | One the review's CI gate hands out is due back at ai-reviewing, whatever throws after, if and only if no other label is on. |
| Addresses.FindingsAddress | worker/src/coordinate/review-gate.ts:77-94 | One the review's findings hand out is due back at ai-reviewing, whatever throws after, if and only if no fix of the merge gate's is still pending. |
| Addresses.ShadowExpiryStands | worker/src/coordinate/watchdog.ts:163-196 | With the watchdog in shadow, no alarm and no ended run moves the PR or its address, its expiry matching or not. |
| Addresses.AddressStands | worker/src/coordinate/webhook.ts:132-172 | The address stands through every run in which no rule matches but a shadow expiry's. |
| Addresses.PushReturns | worker/src/coordinate/webhook.ts:132-172 | The push takes the PR to its return address alone once its labels were read and written, whatever fails after; and a push whose delivery returns has applied. |
| HandOuts.HandOutIsAddressed | worker/src/coordinate/webhook.ts:122-513 | Whatever delivery, signal or sweep a hand-out applied in, whatever labels and counters it starts from and whatever throws after it (but the removal of a retry's merge-blocked), the PR is then in rework alone, due back at the label it was handed out from, if and only if ai-reviewing was not added beside ai-stuck and its review's own label, and, for findings, no fix of the merge gate's was pending. |
| GoneAstray.FindingsGoToMerging | worker/src/coordinate/webhook.ts:142-172 | That condition is needed: a delivery of findings on a PR whose merge gate's fix is pending hands it out with auto-merging as its address. |
| GoneAstray.ExpiryKeepsTheFix | worker/src/coordinate/watchdog.ts:163-196 | How a fix comes to stay pending outside its rework: the expiry to ai-stuck leaves it so. |
| GoneAstray.CrowdedGoesNowhere | worker/src/coordinate/webhook.ts:290-310 | And so is the other: there the label's delivery, CI red, hands the PR out with the review's own label left on beside auto-reworking. |
| GoneAstray.RowDecides | worker/src/coordinate/apply.ts:188-226 | A hand-out whose label calls and fire went through is due back if and only if its row goes through too: if that throws, rework-loop runs on the PR with the address as it was. |
| GoneAstray.RemovalDecides | worker/src/coordinate/merge-gate.ts:26-35 | So for a retry's hand-out that applied, and the removal of its merge-blocked. |
| GoneAstray.LostAddressUnlabels | worker/src/coordinate/webhook.ts:132-172 | With nothing pending before, the push of such a rework then only takes auto-reworking off. |
| HandOuts.ReworkComesHome | worker/src/coordinate/webhook.ts:132-172 | The whole way: from any such act that hands a rework out, which may then have thrown, through any run of the Worker's own in which no rule matches but a shadow expiry's, and back on its push to the label it was handed out from. |
| GateAnswers.RetryEndsWithOneLabel | worker/src/coordinate/webhook.ts:375-387 | auto-merging re-added to a merge-blocked PR: its delivery, once it returns, has left exactly one label: merge-blocked on a conflict or requested changes, auto-reworking on a red check, auto-merging otherwise. |
| GateAnswers.SweptRetryEndsWithOneLabel | worker/src/coordinate/reconcile.ts:63-195 | The sweep that finds that retry, its delivery lost, leaves it as it is or ends it on that one label. |
| GateAnswers.CappedAnswer | worker/src/coordinate/merge-gate.ts:20-24 | Past the cap, which only CI finishing can find under a retry, the same pair ends as merge-blocked alone. |
| GateAnswers.ChecksAnswer | worker/src/coordinate/webhook.ts:493-513 | CI finishing under a retry whose own label was never handled: an answer that applied leaves one label, and which, if and only if the settled facts hold a conflict, requested changes or a red check. |
| GateAnswers.GreenSuiteKeepsBoth | worker/src/coordinate/webhook.ts:486-513 | The failing half at its input: the delivery of a green suite for a head merge-flow was not fired for applies merge_gate_passed and leaves auto-merging beside merge-blocked. |
| GateAnswers.ExpiryLeavesTwo | worker/src/coordinate/watchdog.ts:163-196 | That run's expiry then leaves merge-blocked beside ai-stuck. |
| GateAnswers.FailingGateAnswersOnlyRetries | worker/src/coordinate/webhook.ts:381-384 | A failing gate has a rule for auto-merging beside another label if and only if that label is merge-blocked. |
| Stuck.ExpiryClaimIsNeverStale | worker/src/coordinate/watchdog.ts:178-190 | In enforced runs without failed calls in which nobody touches ai-stuck by hand, between handlers or while one runs, and other labels are edited freely, a standing expiry claim on an item in ai-stuck means its latest entry there was a rework-loop expiry. |
| Stuck.PersonsPushStaysStuck | worker/src/coordinate/webhook.ts:174-196 | A push with no rework pending or expired leaves ai-stuck on, whatever other labels are edited meanwhile. |
| Stuck.PushUnsticksOnlyLateResults | worker/src/coordinate/webhook.ts:137-196 | So in such a run a push takes ai-stuck off only as a handed-out rework's late result, or an expired one's. |
| Stuck.NewItemHasNoClaim | worker/src/issue-coordinator.ts:313-317 | An item nothing has happened to has no such claim, so every run from a new one is covered. |
| Delivering.EventMoves | worker/src/coordinate/apply.ts:128-226 | An enforced event that has a rule moves the item to the labels the rule means, fires exactly what the rule runs, and moves no counter or record. |
| Delivering.Delivers | worker/src/coordinate/webhook.ts:33-122 | A delivery is its event against the labels just read, unless a call before that threw; then nothing has moved. |
| Steps.UnmatchedIsLogged | worker/src/coordinate/apply.ts:143-177 | An event with no rule is one row and nothing else, unless it is one the table ignores by design. |
| Reports.OutcomeMovesItsItem | graph/github/from-github.ts:153-196 | Each outcome, delivered on each single label: build_succeeded takes ai-ready to pr-open, build_blocked to ai-blocked, review_passed ai-reviewing to ready-for-review, a trusted merge_blocked auto-merging to merge-blocked, and so on through the table, ai-stuck included; nothing is fired and nothing is pending; and on a label where the outcome means nothing its delivery moves nothing. |
| Reports.SignalMovesItsItem | worker/src/coordinate/routine-signal.ts:104-133 | The same outcome by the live run's own signal does the same, trusted as it is, and marks the run completed. |
| Reports.PublishedClosesTheIssue | worker/src/coordinate/webhook.ts:329-339 | A trusted release_published closes its issue and clears the record of the merge. |
| Reports.PassedStartsAfresh | worker/src/coordinate/webhook.ts:360-368 | review_passed clears both counts and the claim of an expiry. |
| Reports.SilentCommentMovesNothing | graph/github/from-github.ts:153-196 | The discussion loop's own comment, or one that reports nothing, moves nothing. |
| Reports.ReplyIsARound | graph/github/from-github.ts:85-102 | A reply starts the next round in ai-discussing, unwatched, and moves nothing elsewhere. |
| Reports.NoChangeEndsTheFix | worker/src/coordinate/webhook.ts:132-172 | rework_no_change clears the flag its push would have gone by. |
| Reports.LateOutcomeEndsTheClaim | worker/src/coordinate/webhook.ts:388-394 | A late outcome that takes ai-stuck off ends an expiry's claim on the next push. |
| Reports.LatePushIsNotLost | worker/src/coordinate/webhook.ts:137-172 | A rework's late push takes ai-stuck off and then clears what it went by; if its delivery throws, all of that still stands for the redelivery. |
| Triggers.TriggerStartsItsRoutine | graph/github/from-github.ts:112-137 | A person's ai-ready, auto-releasing or ai-discussing leaves that label alone, ai-stuck off, and fires exactly its routine; after a recorded merge auto-releasing fires release-publish. |
| Triggers.EchoMovesNothing | graph/github/from-github.ts:112-121 | The Worker's own label event, and any label put on a closed issue, moves and fires nothing. |
| Triggers.OverrideIsLogged | worker/src/coordinate/webhook.ts:451-478 | A person's edit of a tracked label that no event reads is one row. |
| Triggers.BuildsOwnLabel | graph/github/from-github.ts:128-134 | pr-open or ai-blocked put on by the build itself ends the run and leaves that label alone, ai-stuck off. |
| Triggers.TakingOffEndsTheRun | graph/github/from-github.ts:139-226 | A trigger label taken off, nothing else on but perhaps ai-stuck, ends its run, and the fix a rework was out for; in ai-stuck an expiry's claim stands. |
| Triggers.ReworkIsCounted | worker/src/coordinate/webhook.ts:202-235 | A person's auto-reworking is counted and fired within the cap, afresh from ai-stuck; a PR in the review's hands is due back there; past the cap it goes to ai-stuck, unfired, and says so. |
| GateFacts.FactsMean | graph/github/merge-gate.ts:56-98 | The gate's verdicts over the facts' own fields: red is a completed check ended failure, cancelled, timed_out, action_required or with no conclusion; blocked is a conflict or requested changes. |
| GateFacts.SettledMeans | worker/src/coordinate/merge-gate.ts:50-57 | The facts a gate goes by are the first of up to three readings with mergeable known, or the third. |
| Gatekeeping.CiDecidesTheMerge | worker/src/coordinate/webhook.ts:486-513 | CI finishing under auto-merging: nothing while a check runs; merge-blocked, and why, on a conflict or requested changes; on a red check the counted rework due back there, or merge-blocked past the cap; on green checks merge-flow, once a head commit. |
| Gatekeeping.OnlyGreenMerges | worker/src/coordinate/webhook.ts:493-513 | So finished CI fires merge-flow only with at least one check, every check success, neutral or skipped, and nothing blocking. |
| Gatekeeping.MergeLabelIsGated | worker/src/coordinate/webhook.ts:375-387 | auto-merging added, alone or beside merge-blocked, ready-for-review or ai-stuck: what its delivery leaves and fires by the same facts; a retry of a block starts the count afresh; from ready-for-review and ai-stuck a failing gate moves nothing. |
| ReviewKeeping.CiDecidesTheReview | worker/src/coordinate/review-gate.ts:20-74 | CI finishing under ai-reviewing: a review already out is left alone; no or running checks wait; a red check is the counted rework due back there, or ai-stuck past the cap; green checks fire the review. |
| ReviewKeeping.OnlyGreenIsReviewed | worker/src/coordinate/review-gate.ts:20-44 | So finished CI fires the review only with at least one check and every check success, neutral or skipped. |
| ReviewKeeping.ReviewIsAskedFor | worker/src/coordinate/webhook.ts:290-310 | ai-reviewing added, alone or beside ai-stuck, ai-blocked or ready-for-review: it is left alone on the PR and the same gate decides, with a fresh count from ai-stuck. |
| ReviewKeeping.HandOffIsTaken | worker/src/coordinate/webhook.ts:251-288 | A build's hand-off: an open PR with no label gets ai-reviewing and its gate; one closed, gone or carrying another label is left as it is, and only a failed read other than a missing PR fails the delivery. |
| ReviewKeeping.FindingsAreARound | worker/src/coordinate/review-gate.ts:77-111 | review_findings is a counted round handed to rework within the cap, ai-stuck past it, said either way. |
| ReviewKeeping.CiElsewhereMovesNothing | worker/src/coordinate/webhook.ts:486-491 | A suite still running, or on an item under neither gate, moves nothing. |
| ReleaseSplit.ApprovalSplits | worker/src/coordinate/release.ts:22-75 | A trusted release_approved on auto-releasing, enforced: the release is put on record and release-publish fired if and only if the calls up to the PR's read went through and the PR was read merged at the reviewed commit, or the merge call returned, or it threw and the second read shows it merged there; in every other case nothing is recorded or fired, and once it returns auto-releasing is off and why is said. |
| ReleaseSplit.SignalSplits | worker/src/coordinate/routine-signal.ts:104-133 | The same if and only if for the run's own signal. |
| LiveRuns.StepExtends | worker/src/coordinate/routine-signal.ts:74-81 | A heartbeat of the live run arms a full timeout from now and marks it stepped, which bars the retry; nothing else moves. |
| LiveRuns.CompletionEnds | worker/src/coordinate/routine-signal.ts:82-86 | An acknowledged completion leaves no pending fire and no alarm, and the run marked completed. |
| LiveRuns.BlockedIsSaidOnce | worker/src/coordinate/routine-signal.ts:141-160 | A blocked signal extends the run and is said on the item at most once a fire. |
| LiveRuns.SignalOfAnotherRun | worker/src/coordinate/routine-signal.ts:58-71 | A signal of a run that is not out, or that waits out a limit, moves nothing. |
| LiveRuns.NewestCommentIsRecovered | worker/src/coordinate/watchdog.ts:206-277 | The run's newest comment since its fire, its webhook lost, takes the item where its own delivery would have, and ends the run. |
| LiveRuns.TimedOut | worker/src/coordinate/watchdog.ts:36-155 | A due run with no comment of its own: sent again, once, watched and marked as retried, if it may be; otherwise to ai-stuck, claiming the next push if it was a rework, with nothing fired or pending. |
| LiveRuns.OnlyOnce | worker/src/coordinate/watchdog.ts:128-142 | A run sent again, or that reported a step, is never sent again by its alarm. |
| LiveRuns.EndedExpiresAtOnce | worker/src/coordinate/routine-signal.ts:167-183 | An ended signal expires the run at once, unless a comment of its own is recovered, and never sends it again. |
| LeftBehind.SweepFindsTheLost | worker/src/coordinate/reconcile.ts:63-195 | The sweep, on an unwatched item with one trigger label: nothing if it was active within twice the timeout, to the tenth of a minute, or its last run is done since; the review's gate or the merge's; the label's own lost routine once, watched; and a row once an idle stretch where it is not to act. |
| LeftBehind.SweepFindsTheLostRetry | worker/src/coordinate/reconcile.ts:134-168 | A person's lost retry of a block gets from the sweep what its own delivery would have done. |
| LeftBehind.WatchedIsLeft | worker/src/coordinate/reconcile.ts:68-76 | An item whose alarm is armed, or whose fire is less than fifteen minutes past due, is left to its watchdog. |
| Crossing.MergeTellsItsIssues | worker/src/coordinate/stages.ts:19-63 | A merged PR tells each issue it closes, once, if the merge has a commit; from auto-merging, ready-for-review and ai-stuck it is closed off with nothing pending. |
| Crossing.UnmergedCloseDrops | worker/src/coordinate/webhook.ts:73-92 | A PR closed unmerged tells nobody and moves nothing but a limited fire, which is dropped. |
| Crossing.ClosedIssueDropsWhatWaits | worker/src/coordinate/webhook.ts:73-92 | A closed issue fires nothing and leaves no limited fire; a release's run is no longer watched, any other's is. |
| Crossing.MergedIssueWaits | worker/src/coordinate/stages.ts:78-82 | An issue whose PR merged goes from pr-open, or no label, to ready-for-release with its commit on record. |
| Crossing.ReleaseClosesWhatItShips | worker/src/coordinate/stages.ts:86-92 | A waiting issue closes if and only if the tag is known, its own commit is, and GitHub says the one contains the other. |
| Crossing.BuildHandsItsPullOver | worker/src/coordinate/webhook.ts:351-358 | A build's PR is handed its review, once, if and only if the report is trusted and names another item. |
| Trust.UntrustedReportMovesNothing | worker/src/coordinate/release.ts:77-88 | A report by someone without write access of a release, a merge block, a rework with nothing to push or a full discussion moves nothing and writes nothing. |
| Attempts.CompletionClaims | worker/src/coordinate/webhook.ts:39-53 | A delivery that completes keeps its claim; one that throws gives it back. |
| Attempts.OneCompletion | worker/src/coordinate/webhook.ts:33-53 | Over any run each non-empty delivery id has at most one attempt that processes to completion. |
| Attempts.FailedAttemptIsRetried | worker/src/coordinate/webhook.ts:39-53 | After a failed attempt, whatever comes between, the redelivery is processed and not taken for a duplicate. |
| Serial.StepsStayOrderly | worker/src/issue-coordinator.ts:130-135 | Every arrival, start, resumption, settling and catch keeps the queue in order. |
| Serial.ScheduleIsSerial | worker/src/issue-coordinator.ts:130-135 | Whatever the schedule, once every request has settled the item is as if each had run alone, whole, in order of arrival. |
| Serial.NeverBlocked | worker/src/issue-coordinator.ts:132-134 | A rejected request never blocks the next: the first unsettled one can always go on. |
| Serial.OneAtATime | worker/src/issue-coordinator.ts:130-135 | At most one request is at work. |
| Serial.Queue.Serial | worker/src/issue-coordinator.ts:130-135 | A request joins the chain; the queue stays in order. |
| Serial.Queue.Begin | worker/src/issue-coordinator.ts:132 | A request starts once the one before has settled, either way. |
| Serial.Queue.Finish | worker/src/issue-coordinator.ts:132-134 | A request settles, and the works done so far are the first ones, in order. |
| Serial.Queue.Resume | worker/src/issue-coordinator.ts:130-135 | A request at work runs to its next await, and nothing else does. |
| Serial.Queue.Swallow | worker/src/issue-coordinator.ts:133 | A settled request's failure is swallowed: what the next one waits for. |
| Pace.StepKeeps | worker/src/scheduler.ts:87-118 | Each segment between awaits of alarm() and /ensure keeps the pace's invariant. |
| Pace.NeverLeftIdle | worker/src/scheduler.ts:73-118 | For every interleaving, sweeps that throw included: an alarm stays armed, and once calls are done an /ensure that began after the sweep started has left the alarm within the normal interval of the last /ensure. |
| Pace.AloneKeepsItsBound | worker/src/scheduler.ts:87-118 | An /ensure during which no other begins keeps its own bound: from its end until the next alarm goes off, whatever else is in flight or follows, the alarm is set no later than the normal interval after it. |
| Pace.OverlapUsesTheLast | worker/src/scheduler.ts:89-96 | Of two overlapping /ensure calls the later one's time is the bound: whenever the alarm they found leaves room, the earlier one's own is passed. |
| Pace.OwnBoundIsExact | worker/src/scheduler.ts:87-118 | An /ensure's own bound holds whatever overlaps it if and only if, when it begins, no alarm has gone off without having begun and the one armed is at most a millisecond past that bound. |
| SchedulerObject.Scheduler.BeginEnsure | worker/src/scheduler.ts:87-94 | /ensure notes its time and reads the alarm. |
| SchedulerObject.Scheduler.EndEnsure | worker/src/scheduler.ts:92-95 | A missing or slowed alarm is brought back to the normal interval. |
| SchedulerObject.Scheduler.BeginAlarm | worker/src/scheduler.ts:105-108 | The next alarm is set before any work. |
| SchedulerObject.Scheduler.EndAlarm | worker/src/scheduler.ts:109-117 | Slowed only after a quiet sweep with no /ensure meanwhile. |
| SchedulerObject.Scheduler.Sweep | worker/src/scheduler.ts:133-190 | The summary is the one the repos and candidates give, and reports at most the budget of re-fires. |
| Sweeps.SweepStaysInBudget | worker/src/scheduler.ts:149-190 | Over any repos and candidates a sweep reports at most maxRefires re-fires; unreadable switches sweep nothing. |
| Sweeps.SweepRefiresTheFirst | worker/src/scheduler.ts:133-190 | The re-fires a sweep reports are, of all the candidates of the repos it may sweep, each asked once, the first that would be acted on, in order, up to the budget; none where the switches cannot be read. |
| Sweeps.NoBudgetNoAct | worker/src/coordinate/reconcile.ts:119-133 | Without budget the sweep's question makes no label write, comment or fire, and never says it acted. |
| Sweeps.RefireIsForLostFires | worker/src/coordinate/reconcile.ts:63-195 | On any labels, a re-fire happens only with no pending fire, or with its alarm gone fifteen minutes past due, and only where neither the log nor GitHub shows activity for twice the timeout of the routine fired; it is one fire, and ends pending and armed. |
| Envelope.EnvelopeRoundTrip | worker/src/coordinate/routine-signal.ts:109-111 | The comment printed for any outcome and routine, whatever backticks, quotes, backslashes and newlines it holds, reads back as that outcome and names that routine. |
| Envelope.ShapeBack | graph/outcomes.ts:43-86 | Every outcome's fields are a shape the catalog accepts, and give that outcome. |
| JsonRoundTrip.CharBack | worker/src/coordinate/routine-signal.ts:109-110 | Each character, escaped by JSON and its backtick replaced, parses back as itself, next to anything. |
| JsonRoundTrip.ObjectBack | worker/src/coordinate/routine-signal.ts:109-110 | So for whole objects of strings and integers, by RFC 8259's grammar. |
| Text.FencedHolds | graph/github/from-github.ts:47-48 | Text with no backtick, fenced on its own lines, is what the fence pattern captures. |
| Text.MarkerOf | worker/src/coordinate/outcome-dedupe.ts:12 | The marker pattern names the routine it was printed for. |
| Der.DerLength | worker/src/github-app.ts:29-34 | The loop's bytes are the length's encoding. |
| Der.LengthRoundTrip | worker/src/github-app.ts:29-34 | Decoding an encoded length gives it, and leaves what followed. |
| Der.LengthIsUnique | worker/src/github-app.ts:29-34 | It is the only encoding DER allows, so the shortest (ITU-T X.690, sections 8.1.3 and 10.1). |
| Der.Pkcs8IsNested | worker/src/github-app.ts:49-54 | The wrapping is one SEQUENCE around version, algorithm and key, both nested lengths right. |
| Der.Pkcs8RoundTrip | worker/src/github-app.ts:49-54 | Unwrapping it as a PrivateKeyInfo (RFC 5208, section 5) yields exactly the PKCS#1 bytes, version 0 and rsaEncryption. |
| Base64.Base64RoundTrip | worker/src/work-log.ts:23-28 | Unpadded base64url (RFC 4648, section 5) decodes to what was encoded, for every byte sequence, and never contains a dot. |
| Token.SameBytes | worker/src/work-log.ts:60-63 | Or-ing the differing bits finds a difference exactly when there is one. |
| Token.VerifyLogToken | worker/src/work-log.ts:49-72 | The loop and its early returns decide what the checks together say. |
| Token.MintedTokenVerifies | worker/src/work-log.ts:36-72 | A minted token gives its claims exactly when they name an owner, a repo, a routine and an id and have not expired. |
| Token.FireTokenLivesItsTime | worker/src/work-log.ts:36-47 | A fire's token is good for exactly its time to live. |
| Token.OnlySignedVerifies | worker/src/work-log.ts:49-72 | A token verifies as given claims if and only if it is a payload and a signature around one dot, the signature the secret's own of that payload, and the payload those claims, complete and not yet expired. |
| Storage.Deps.SetPendingFire | worker/src/issue-coordinator.ts:259-264 | The fire, when it is due and its alarm are written together, the completion mark gone. |
| Storage.Deps.ClearPendingFire | worker/src/issue-coordinator.ts:265-268 | The fire and its alarm go together. |
| Storage.Deps.FireRoutine | worker/src/coordinate/types.ts:343-360 | A shadow fire is not made; a real one is accepted, rate-limited or refused. |
| CoordinateApply.DeferFire | worker/src/coordinate/apply.ts:99-123 | Pending again with its alarm at the nudged time the API gave, said once. |
| CoordinateApply.FireWatched | worker/src/coordinate/apply.ts:35-54 | Armed before the fire; deferred if rate-limited, disarmed if refused. |
| CoordinateApply.FireUnwatched | worker/src/coordinate/apply.ts:73-84 | Disarmed before the fire; deferred if rate-limited. |
| CoordinateApply.LabelOpsOf | graph/github/to-github.ts:42-57 | The pushes onto the list are the rule's label calls. |
| CoordinateApply.WriteOps | worker/src/coordinate/apply.ts:179-186 | The calls one by one, stopping where one throws. |
| CoordinateApply.ReportRefusedFire | worker/src/coordinate/apply.ts:238-279 | A refusal is logged, and said on the item for a delivery; its own errors are swallowed. |
| CoordinateApply.FireOrClear | worker/src/coordinate/apply.ts:188-205 | The rule's fire, watched where the table says what its expiry means, or the end of the pending one. |
| CoordinateApply.ApplyEvent | worker/src/coordinate/apply.ts:128-226 | Ambiguous, ignored, dropped or applied, with exactly the writes of each. |
| CoordinateGates.SettledGateFacts | worker/src/coordinate/merge-gate.ts:50-57 | Read again while mergeable is unknown, at most twice. |
| CoordinateGates.BlockMerge | worker/src/coordinate/merge-gate.ts:65-83 | The block, then why. |
| CoordinateGates.HandToRework | worker/src/coordinate/merge-gate.ts:14-44 | The hand-out within the cap, with its count, or the block. |
| CoordinateGates.CapRework | worker/src/coordinate/review-gate.ts:98-111 | To ai-stuck for a person, the expiry's claim ended. |
| CoordinateGates.HandReviewToRework | worker/src/coordinate/review-gate.ts:49-74 | The review's CI hand-out within the cap. |
| CoordinateGates.ReviewGate | worker/src/coordinate/review-gate.ts:20-44 | Skipped, waiting, red or green. |
| CoordinateGates.TakeFindings | worker/src/coordinate/review-gate.ts:77-94 | A counted round, or the cap. |
| CoordinateStages.ForwardEach | worker/src/coordinate/stages.ts:19-41 | One hand-off to each item, in order, stopping where one throws. |
| CoordinateStages.ExportWorkLog | worker/src/coordinate/stages.ts:48-63 | A merged PR's log as a comment, never failing the delivery. |
| CoordinateStages.PrMergedStage | worker/src/coordinate/stages.ts:78-82 | The stage, and the commit a release is checked against. |
| CoordinateStages.ReleasedStage | worker/src/coordinate/stages.ts:86-92 | Closed only if the tag contains the issue's own merge. |
| CoordinateStages.TrustedAuthor | worker/src/coordinate/release.ts:77-88 | The signal's bearer, the Worker's bot, or someone who may write. |
| CoordinateStages.MergeReviewed | worker/src/coordinate/release.ts:43-58 | Merged at the reviewed commit, before or here; a lost answer is looked at again. |
| CoordinateStages.AfterMerge | worker/src/coordinate/release.ts:59-75 | The merge is on record before the after part fires. |
| CoordinateStages.Approved | worker/src/coordinate/release.ts:22-75 | Trusted, applied, merged or refused. |
| CoordinateStages.RetryReleasePublish | worker/src/coordinate/release.ts:95-100 | The after part again, ai-stuck taken off first. |
| CoordinateStages.Published | worker/src/coordinate/webhook.ts:329-339 | The record cleared once it applied, then released handed on. |
| CoordinateStages.Built | worker/src/coordinate/webhook.ts:351-358 | The issue's move, then its PR's review if the author is trusted. |
| CoordinateDelivery.AlreadyApplied | worker/src/coordinate/outcome-dedupe.ts:28-33 | Applied for this fire, and no newer fire of the routine since. |
| CoordinateDelivery.RememberApplied | worker/src/coordinate/outcome-dedupe.ts:39-44 | Remembered against the fire it ended, unless it started a newer one. |
| CoordinateDelivery.LogDeduped | worker/src/coordinate/outcome-dedupe.ts:47-67 | A row, nothing else. |
| CoordinateDelivery.EndRework | worker/src/coordinate/webhook.ts:132-172 | Whose rework a push ends, what event that makes it, and which flag it clears now or once the label is off. |
| CoordinateDelivery.OnReworkLabel | worker/src/coordinate/webhook.ts:202-235 | A review round, counted, capped or restarted. |
| CoordinateDelivery.ReviewLabelOn | worker/src/coordinate/webhook.ts:290-310 | The label's rule with fresh counts from ai-stuck, then the gate. |
| CoordinateDelivery.AcceptReview | worker/src/coordinate/webhook.ts:251-288 | A hand-off only to an open PR with nothing tracked. |
| CoordinateDelivery.OnReviewLabel | worker/src/coordinate/webhook.ts:240-310 | A person's label, or a hand-off's. |
| CoordinateDelivery.OnReviewPassed | worker/src/coordinate/webhook.ts:360-368 | The verdict, and fresh counts. |
| CoordinateDelivery.OnMergeLabel | worker/src/coordinate/webhook.ts:375-387 | Checked before merge-flow is fired. |
| CoordinateDelivery.Plain | worker/src/coordinate/webhook.ts:387-410 | The event, what its rule ends, and a person's edit noted. |
| CoordinateDelivery.OnMergeChecks | worker/src/coordinate/webhook.ts:493-513 | Block, rework, or merge-flow again once per head commit. |
| CoordinateDelivery.HandleCheckSuite | worker/src/coordinate/webhook.ts:486-513 | The gate the item's label is under, if any. |
| CoordinateDelivery.OnEvent | worker/src/coordinate/webhook.ts:122-410 | A push to ai-stuck with no rework behind it is dropped; everything else is routed. |
| CoordinateDelivery.ProcessEvent | worker/src/coordinate/webhook.ts:96-122 | Translated, or a person's edit, or nothing. |
| CoordinateDelivery.AfterClose | worker/src/coordinate/webhook.ts:73-92 | The hand-offs and the log of a merge; a close drops a deferred fire. |
| CoordinateDelivery.ProcessWebhook | worker/src/coordinate/webhook.ts:55-94 | Deduped, or processed, remembered and closed off. |
| CoordinateDelivery.CoordinateWebhook | worker/src/coordinate/webhook.ts:33-53 | Claimed before it is processed, the claim released if that throws. |
| CoordinateWatchdog.SendDeferred | worker/src/coordinate/watchdog.ts:51-113 | Sent, deferred again, or dropped as no longer wanted. |
| CoordinateWatchdog.TryNotes | worker/src/coordinate/watchdog.ts:217-277 | The newest of the run's own comments that applies, as a delivery of its own. |
| CoordinateWatchdog.MaybeRecover | worker/src/coordinate/watchdog.ts:115-126 | Recovery only where expiries are real. |
| CoordinateWatchdog.MaybeRetry | worker/src/coordinate/watchdog.ts:128-142 | The one re-fire of a run that never reported a step. |
| CoordinateWatchdog.ExpirePendingFire | worker/src/coordinate/watchdog.ts:163-196 | The alert, the claim, the event, then the fire cleared last. |
| CoordinateWatchdog.CoordinateWatchdogExpired | worker/src/coordinate/watchdog.ts:36-155 | The alarm's whole decision. |
| CoordinateSignals.ApplyOutcome | worker/src/coordinate/routine-signal.ts:104-133 | The explicit outcome as the comment it stands for. |
| CoordinateSignals.NoteBlocked | worker/src/coordinate/routine-signal.ts:141-160 | Armed again, and said once per fire. |
| CoordinateSignals.EndFire | worker/src/coordinate/routine-signal.ts:167-183 | Recovered, or expired at once. |
| CoordinateSignals.CoordinateRoutineSignal | worker/src/coordinate/routine-signal.ts:39-93 | Invalid, deduped, refused, or the live run's own. |
| CoordinateReconcile.SweepMerge | worker/src/coordinate/reconcile.ts:134-168 | A lost auto-merging fire through the gate a fresh label goes through. |
| CoordinateReconcile.ReportLeft | worker/src/coordinate/reconcile.ts:172-180 | Shadow: one row per idle stretch. |
| CoordinateReconcile.CoordinateReconcile | worker/src/coordinate/reconcile.ts:63-195 | Watched, not triggered, recent, completed, gated, re-fired or reported. |

## Left out

- Two storage writes of one setPendingFire or clearPendingFire are one step: a process dying between them is not modelled.
- The status table (recordStatus), the dashboard, the item summaries and the words of comments and rows: only that a comment or a row was written is kept.
- GitHub's REST calls, webhook signatures, HTTP routing and the routines API: each is an arbitrary answer of the world.
- The parsing of a webhook's JSON into a payload, and of closing references: the parsed payload is the input. Labels the table does not track are not in it.
- Configuration parsing (resolveMode, capsFor, watchdogOverrideFor, watchdogMinutesFor): the switches, caps and timeouts are arbitrary values; caps are at least one, as capsFor makes them.
- Cryptography: HMAC is any function, and RSA and the JWT are not modelled; nor is the PEM text a key is unwrapped from.
- Hand-offs between items are calls that succeed or throw: what the other item's queue then does, and two items waiting on each other, are not modelled.
- An alarm whose retries are spent: a waiting invocation is tried until it returns. The sweep's fifteen minutes, which exist for that case, are in Sweeps.RefireIsForLostFires.
- Deferral.DeferredFireIsKept: a sweep that comes more than fifteen minutes after a rung alarm's due time is outside the promise, as is a close and anyone else's label edit.
- Delivering.Delivers: what an act comes to is stated where nobody else edits the labels while its handler runs; runs in which people do are the kinds' and the theorems' over runs.
- Reports.OutcomeMovesItsItem: an item that carries one label; ai-stuck beside another is LateOutcomes', which speaks of the labels only.
- ReviewKeeping.HandOffIsTaken: not stated for a PR whose review is out although it carries no label.
- HandOuts.HandOutIsAddressed: a hand-out by a comment that the alarm, or an ended run, recovers is stated of that comment's own delivery, not of the act around it.
- GateAnswers.ChecksAnswer: no promise that a retry ends with one label when CI finishes green under it, because the code leaves both on.
- Pace.NeverLeftIdle: its bound is the last /ensure's; an earlier call's own bound is Pace.OwnBoundIsExact's, and fails outside that condition.
- Termination: a run of the Worker's own knows the Worker's labels by its App's login; without an App its own label events arrive as anyone's, and such runs are not spoken of.
- Termination.ReworkTerminates: no bound from the merge-blocked and auto-merging pair, where the sweep and the label start the count afresh; once the pair is gone the bound is the counters' own.
- Serial.ScheduleIsSerial: a request's work is a fixed list of segments between awaits; one that awaits less often has segments that do nothing.
- Text is a sequence of Unicode scalar values: JSON's escapes for lone surrogates, and surrogate pairs written as two escapes, are not read. Numbers with a fraction or an exponent read as no integer.
- A reason that quotes the discussion loop's signature makes the comment read as that loop's own: the model keeps it as a flag of the payload.
- Letter case outside ASCII in a token's owner and repo.
