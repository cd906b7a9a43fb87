# vmfactory, modelled and proved

vmfactory turns a repository, an image or a Dockerfile into a disposable microVM. It plans several ways to run the
source, races them, verifies the survivor and promotes it. This project models the parts of it that hold state, branch,
or translate something with a meaning to preserve, and proves what they promise on all inputs and over all runs.

- **The race** (`Race`, `RaceProofs`, `RaceTheorems`, `RaceEnd`, `RaceCrown`, `RaceOrder`, `RaceLimits`, `RaceLoop`):
  the staggered scheduler of install approaches. Candidates move from band groups or the scout's feed to a queue, to
  runners, to verdicts. A tick is a function of the state and of what the environment answered (clock, runner exits,
  marker files, feed file, scout liveness); `RaceLoop` is the same loop as objects whose fields change in place, proved
  equal to those functions.
- **The hold loop** (`VerifyHold`, `VerifyProofs`, `VerifyPass`, `VerifyEnd`, `VerifyLoop`): the verify runner polls
  until every check has passed, arms, sweeps once more and lets the hold time go by. Checks and clock are arbitrary.
- **The fan-out** (`Fanout`, `FanoutPlans`, `FanoutRun`): five planner lanes land in any order; per lane a plan file and
  a blocked file carry the spec fingerprint; the run record classifies what was replayed.
- **The target spec** (`SpecClamp`, `SpecFields`, `SpecProofs`, `SpecHandOff`, `SpecPhrase`): the clamp whose result is
  fingerprinted, and the hand-over of a clamped spec from the preview to its fan-out.
- **Compose** (`Translate`, `Loopback`, `Flatten`, `FlattenRun`, `FlattenForwards`): dependency graph and primary,
  replica expansion, static addresses, host tables and the rewriting of loopback endpoints.
- **Provisioning** (`Quote`, `Paths`, `DockerRead`, `EnvLines`, `Provision`, `ProvisionParse`, `ProvisionMachine`,
  `ProvisionProofs`, `ProvisionCases`, `ProvisionPlain`, `ProvisionLimits`, `ProvisionRun`): a Dockerfile subset becomes
  a shell script. The script is read by the shell's rules and the Dockerfile by those of the Dockerfile reference; both
  run over directories that are there or not, and what they do is compared.
- **Events** (`Events`): numbered envelopes fanned out over bounded queues that drop when full.
- **The blocked line** (`BlockedLine`, `BlockedRun`, `BlockedScreen`): printed by one package, taken apart by another.
- **Shared** (`Text`, `Utf8`, `Decimal`, `Dict`): strings, bytes and characters, numerals and insertion-ordered
  dictionaries.

Where the source updates state, a class or a looping method does the same and is proved equal to a specification
function; the promises are lemmas about those functions. Clocks, sleeps, model replies, marker contents, exit codes and
lane schedules are parameters that range over everything. Every lemma carries `{:induction false}`: no proof relies on
automatic induction.

Results at odds with what the code suggests or its comments say:

- The band clock starts at zero, so the first tick of a tranche race finds band 0 lapsed and fails every route the feed
  hands over in it (`RaceLimits.FirstTickFailsStreamed`). With a live feed the bands promise no order: for every tranche
  configuration, one cheaper route handed over late breaks it (`RaceOrder.StreamedRoutesBreakOrder`), and one dearer
  route handed over early does (`RaceOrder.StreamedDearRoutesOvertake`). A route is lost
  exactly when it was appended after the last read of the feed (`RaceEnd.LostIffAppendedLater`), and that happens
  (`RaceLimits.LateRouteIsLost`).
- The 120-second grace verdict can never fire, because the 30-second rule retires the runner first
  (`RaceTheorems.GraceIsNeverReached`).
- The verify loop need not end: it goes on for ever exactly when it arms again and again without end
  (`VerifyEnd.EndlessIffRearming`), and a check that flaps for ever makes it (`VerifyEnd.FlappingNeverEnds`). A hold of 0
  is said to restore a single sweep; the code still sweeps twice, and `VerifyProofs.ZeroMeansHeld` covers that case too.
- A blocked reply without a reason is not stored and is asked again (`Fanout.ReasonlessBlockIsTransient`). A reason is cut
  after 40 bytes, which can be inside a character: then the rerun returns another reason than the first run, and the
  screen shows it (`Fanout.CutReasonChanges`); `Fanout.RerunReplays` and `BlockedLine.RoundTrip` say exactly when. Plan
  notes, cut after 120, behave alike.
- Loss of events is said to show in gaps; a loss that nothing later follows does not (`Events.UnseenLosses`).
- A stored intent of more than 200 characters is cut, and the cut phrase can name another port
  (`SpecHandOff.StraddledPortChanges`); `SpecProofs.EmbeddedIff` says exactly when clamping again changes the spec. A
  saved spec is reused by its cut intent, so the fan-out can end up with another spec, and another fingerprint, than the
  preview (`SpecHandOff.SavedCutChangesSpec`); `SpecHandOff.HandOff` says exactly when.
- A loopback to a service's own port is said to stay; it is re-pointed when an earlier service declares the same port
  (`Loopback.OwnPortStays`).
- The replicas of two services can be given the same host port; `FlattenForwards.HostPortsIff` says exactly when.
- With every service profile-gated, the refusal still blames a dependency of every service
  (`Translate.AllGatedIsRefused`).
- A WORKDIR makes its directory; the script only changes to it, and ends there if the base image has it not
  (`ProvisionLimits.MissingWorkdirEnds`). A quoted ENV value keeps its quotation marks, and is cut at its spaces, which
  ends the script (`ProvisionLimits.QuotedEnvEnds`); `EnvLines.EnvLineIff` says which ENV lines are read as they are
  meant. A file copied to a place that ends in a slash lands under its number, or ends the script
  (`ProvisionLimits.IntoDirectoryIff`, `ProvisionLimits.SlashCopyEnds`), and a relative destination starts from where the
  script does (`ProvisionLimits.RelativeTreeIff`).
- A COPY after a RUN, an ENV after a RUN and shell state left behind by a RUN show in the script but not in the
  Dockerfile's meaning; `ProvisionProofs.ScriptMeansDockerfile`, `ProvisionCases.LateEnvShows` and
  `ProvisionCases.RunsShareAShell` say exactly when the two agree. A continuation left open at the end of the file is
  dropped with the lines it gathered (`ProvisionRun.OpenEndIsDropped`).
- A blocked reason with a line break is cut at it on the screen, even when its parentheses balance
  (`BlockedScreen.Reprint`).

## Model

| member | source | states |
|---|---|---|
| RaceTheorems.RaceIsSafe | scripts/vmf_race.py:908-1086 | for every field, configuration and environment: at every loop head each kept candidate is in exactly one of groups, queue, running and decided, at most PARALLEL run and nobody has passed yet; to the very end nobody is booted twice and consecutive boots are STAGGER apart |
| RaceTheorems.TranchesBootInOrder | scripts/vmf_race.py:877-1078 | with tranches on and no feed, when a candidate boots every candidate of a cheaper band already has a verdict that is not a pass |
| RaceTheorems.RunFull | scripts/vmf_race.py:908-1086 | every loop head of every run keeps all the race's invariants together, and no crown is taken yet |
| RaceTheorems.CrownNeedsPass | scripts/vmf_race.py:981-1043 | a polling pass crowns only a runner it found exited with a marker that reads "pass" |
| RaceCrown.PollCrowns | scripts/vmf_race.py:981-1043 | and crowns somebody whenever a runner has exited with a passing marker: the first such runner |
| RaceCrown.PollTells | scripts/vmf_race.py:981-1041 | a polling pass that crowns nobody says of every runner what its exit and marker say: a marker other than "pass" is its verdict, a failing exit without one is, half a minute after a clean exit without one is; and everybody else runs on without a verdict |
| RaceCrown.BlankIsNoPass | scripts/vmf_race.py:989-1000 | a blank marker reads as a failure |
| RaceCrown.TickBoots | scripts/vmf_race.py:956-980 | a tick boots the head of the queue exactly when there is one, a place is free and the stagger has passed, and nobody else |
| RaceCrown.TickTells | scripts/vmf_race.py:1044-1065 | whom the race deadline and the band deadline fail in a tick, and with which verdict: runners and, for the band, the queue; nobody else |
| RaceCrown.BandTells | scripts/vmf_race.py:829-844 | the band is that of the cost word, or else of the kind, or else the last |
| RaceEnd.CrownIsEarned | scripts/vmf_race.py:981-1043 | the crowned candidate was booted in this race; in the tick that crowned it and ended the loop its runner had exited with "pass"; nobody else passed; with tranches and no feed nothing dearer was ever booted |
| RaceCrown.PassedIsCrowned | scripts/vmf_race.py:981-1043 | over every run: a tick that polls a runner that has exited with "pass" ends the race with a winner |
| RaceCrown.BootedIsPolled | scripts/vmf_race.py:981-1041 | and every booted candidate without a verdict is polled in every tick |
| RaceCrown.NoWinnerNoPass | scripts/vmf_race.py:908-1100 | a race that ends without a winner never polled a runner that had passed |
| RaceCrown.FieldBootsInOrder | scripts/vmf_race.py:908-980 | without tranches, who has booted and who is queued, in this order, are the whole field in its order |
| RaceEnd.GivesUpHonestly | scripts/vmf_race.py:1044-1086 | a race ends without a winner only when no verdict is a pass and, in the tick that ended it, the deadline had passed or every candidate had a verdict and the scout was gone |
| RaceEnd.StepAdvances | scripts/vmf_race.py:1044-1086 | a tick that lives on pops a group or sleeps two seconds, and began inside the deadline |
| RaceEnd.RaceEnds | scripts/vmf_race.py:908-1086 | whatever runners, markers, clock and scout do, the loop makes at most 5 + deadline / 2 trips |
| RaceEnd.FeedIsReadOnce | scripts/vmf_race.py:285-305 | at every loop head, if the feed file only gains whole lines, the routes drained so far are exactly those of the file as last read: none skipped, none repeated |
| RaceEnd.FeedReadToTheEnd | scripts/vmf_race.py:908-932 | the same in every state, the one the race ends in included: the routes drained are those of the lines that the last tick to read the feed had found |
| RaceEnd.LostIffAppendedLater | scripts/vmf_race.py:908-1085 | of the final feed file the race has the routes up to that read, in order, and none of the later ones; so some route is lost exactly when one was appended after it |
| RaceEnd.FieldFollowsFeed | scripts/vmf_race.py:912-932 | in every state, to the very end: streamed candidates enter in emission order under the next free number; a filtered route uses up none |
| RaceTheorems.GraceIsNeverReached | scripts/vmf_race.py:1007-1041 | in every run the grace branch never records a verdict: its window trails the exit by 120 seconds and the 30-second rule comes first |
| RaceLimits.FirstTickFailsStreamed | scripts/vmf_race.py:897-1065 | in the first tick of a tranche race every streamed route gets a verdict that is not a pass, and one that this tick did not boot is failed as not started in band 0; without tranches a streamed route not booted in it has no verdict |
| RaceOrder.StreamedRoutesBreakOrder | scripts/vmf_race.py:912-980 | for every tranche configuration with a feed, every start time and stagger: if the deadline leaves time for the cheaper bands to lapse, one admissible route cheaper than some kept candidate lets an environment boot a dearer candidate while that route is still undecided |
| RaceOrder.StreamedDearRoutesOvertake | scripts/vmf_race.py:912-980 | the other half: with room for two runners, one admissible route dearer than some kept candidate lets an environment boot it while a candidate of that cheaper band is undecided, if the band has the time to boot its members |
| RaceLimits.LateRouteIsLost | scripts/vmf_race.py:908-1085 | such a loss happens at every start time: a race that ends without the one route its feed got |
| RaceLoop.ScoutFeed.Drain | scripts/vmf_race.py:285-305 | returns the routes of exactly the unread lines and moves its mark to the end of the file |
| RaceLoop.Scheduler.constructor | scripts/vmf_race.py:872-898 | the state before the first trip |
| RaceLoop.Scheduler.DrainFeed | scripts/vmf_race.py:912-932 | the whole new state after a drain |
| RaceLoop.Scheduler.StartNext | scripts/vmf_race.py:956-980 | the whole new state after the stagger rule |
| RaceLoop.Scheduler.PollOne | scripts/vmf_race.py:982-1041 | one runner's turn, and which runner is next |
| RaceLoop.Scheduler.PollRunners | scripts/vmf_race.py:981-1041 | the whole new state after all runners were polled, or after the crown |
| RaceLoop.Scheduler.CheckBand | scripts/vmf_race.py:1054-1065 | the whole new state after the band deadline |
| RaceLoop.Scheduler.Escalate | scripts/vmf_race.py:1054-1086 | popping the next band, sleeping, or ending |
| RaceLoop.Scheduler.Trip | scripts/vmf_race.py:908-1086 | one trip in place is one step of the specification, and says whether the loop goes on |
| RaceLoop.Scheduler.Loop | scripts/vmf_race.py:908-1086 | the loop terminates, in the end state of the specified run |
| RaceLoop.Scheduler.Reap | scripts/vmf_race.py:1088-1132 | the sequence of terminations, stops and the promotion |
| RaceLoop.PromotionIsLast | scripts/vmf_race.py:1107-1132 | promotion is the last act and the only one that touches the winner |
| RaceLoop.LosersStopFirst | scripts/vmf_race.py:1107-1126 | every other kept candidate is stopped before the promotion, after its runner is terminated if it was registered, and is not terminated again later |
| RaceLoop.NoWinnerStopsAll | scripts/vmf_race.py:1088-1105 | without a winner every kept candidate is stopped and nothing else is done |
| VerifyProofs.ZeroMeansHeld | scripts/vmf_verify.py:530-620 | exit 0 means: every check passed before the last arming, after it came exactly one full sweep and all of it passed, and at least the hold time went by since |
| VerifyPass.ZeroIffHeld | scripts/vmf_verify.py:530-624 | for every ended run the exit code is 0 if and only if that is so |
| VerifyPass.PassIsReached | scripts/vmf_verify.py:530-624 | if every check always passes and nothing dawdles between two sweeps for more than ten seconds, the loop ends with exit code 0 |
| VerifyProofs.RunKeeps | scripts/vmf_verify.py:542-591 | the loop-head invariant over every run: searching with passes on record, or holding with at most one full passing sweep since the arming |
| VerifyEnd.DeadlineSlides | scripts/vmf_verify.py:542-591 | the deadline is never later than the first one or the last arming + hold + 10 (and the time between two adjacent clock readings) |
| VerifyEnd.EndsInTime | scripts/vmf_verify.py:542-591 | the loop ends no later than that deadline, or its own start if that is later, plus one trip |
| VerifyEnd.TripsAreBounded | scripts/vmf_verify.py:542-591 | at most one trip per arming and one per two seconds, each begun before the deadline |
| VerifyEnd.DeadlineStandsStill | scripts/vmf_verify.py:542-591 | over any stretch of trips without an arming the deadline does not move, every trip takes two seconds and the last one began before that deadline |
| VerifyEnd.EndlessIffRearming | scripts/vmf_verify.py:542-591 | the loop is live after every number of trips if and only if its armings exceed every number |
| VerifyEnd.FlappingNeverEnds | scripts/vmf_verify.py:568-585 | a check that passes and fails in turn keeps the loop alive for ever |
| VerifyLoop.HoldLoop.constructor | scripts/vmf_verify.py:510-541 | the state before the first trip |
| VerifyLoop.HoldLoop.SweepAll | scripts/vmf_verify.py:543-567 | asks exactly the checks that have not passed, and what the array then holds |
| VerifyLoop.HoldLoop.Rearm | scripts/vmf_verify.py:568-579 | the whole new state after arming |
| VerifyLoop.HoldLoop.OneTrip | scripts/vmf_verify.py:542-591 | one trip over the array is one step of the specification |
| VerifyLoop.HoldLoop.Poll | scripts/vmf_verify.py:542-591 | any number of trips is the specified run |
| VerifyLoop.HoldLoop.Verdict | scripts/vmf_verify.py:599-620 | the exit code says whether everything has passed |
| Fanout.AnyOrder | internal/generate/generate.go:218-264 | every interleaving of the lanes' critical sections gives the same result maps and the same files |
| Fanout.OneDisposition | internal/generate/generate.go:127-265 | each of the five methods is in exactly one of plans, blocked, skipped and transient; the model is called once more than the lanes to do, or not at all; a lane is marked cached exactly when it was replayed |
| Fanout.FanLane | internal/generate/generate.go:127-302 | where each lane ends up and what its two files hold afterwards |
| FanoutPlans.AskedIff | internal/generate/generate.go:127-177 | a lane asks the model exactly when the repository has what it needs and neither of its files carries this fingerprint; without what it needs it is skipped |
| FanoutPlans.CommandComesBack | internal/generate/clamp.go:65-79 | a pkg or source lane that asked and was not refused returns and files a plan with the first sixteen words of the command, unless that is empty or, under a web target, a keep-alive; then it returns and files that reason |
| FanoutPlans.DeclaredComesBack | internal/generate/clamp.go:23-64 | the prebuilt, compose and build lanes return and file a plan exactly when there is an image, a compose file, a Dockerfile, and otherwise that reason |
| FanoutPlans.RefusalComesBack | internal/generate/generate.go:230-262 | a refusal returns and files its reason cut after 40 bytes; a failed call or an unreadable reply returns as transient and leaves the files alone |
| FanoutPlans.KeepaliveIff | internal/validate/validate.go:286-314 | which commands are keep-alives: an idle word whatever follows it, a shell unless it carries a payload, and then as the first word of the payload is |
| FanoutPlans.WebIff | internal/generate/clamp.go:74-79 | a web target is the word web in either case |
| Fanout.NeverAmbiguous | internal/generate/generate.go:144-302 | over every history of runs with any specs, no lane's plan file and blocked file carry the same fingerprint |
| Fanout.RerunTodo | internal/generate/generate.go:146-302 | the lanes a same-spec rerun must ask are exactly the first run's transients |
| Fanout.RerunReplays | internal/generate/generate.go:146-302 | after any history a same-spec rerun makes zero calls exactly when the first run had no transient; it then leaves the files alone, decides every lane alike, and returns the same blocked verdicts exactly when no reason was cut inside a character, the same plans exactly when no note or other text of a plan was |
| Fanout.CutReasonChanges | internal/generate/generate.go:318-323 | 39 letters and an accented one: the first run keeps half a character, and the file gives back the replacement character |
| Fanout.ReasonStands | internal/generate/generate.go:235-302 | a reason is filed as it stands exactly when the byte after its cut starts a character; the clamp's own reasons always are |
| Utf8.CutIff | internal/generate/generate.go:318-323 | valid text cut at n bytes is valid exactly when the byte at n starts a character |
| Utf8.CoerceIff | internal/render/render.go:120-143 | reading bytes as characters leaves exactly the valid texts alone |
| Utf8.RuneIsEncoded | internal/render/render.go:120-143 | what is read as one character is exactly an encoded scalar value of section 3 of RFC 3629 |
| Utf8.EncodedIsRune | internal/render/render.go:120-143 | and every encoded scalar value is |
| Fanout.WebPlansServe | internal/generate/clamp.go:65-79 | with an injective fingerprint, after any history no plan returned under a web spec, fresh or replayed, has a keep-alive command |
| Fanout.ReasonlessBlockIsTransient | internal/generate/generate.go:235-261 | a blocked reply is stored exactly when it gives a reason; otherwise the lane is transient and asked again |
| FanoutRun.Lanes.constructor | internal/generate/generate.go:100-113 | a run starts with empty maps on the files it finds |
| FanoutRun.Lanes.LookUp | internal/generate/generate.go:127-177 | one lane's prefilter and cache lookup, and whether it must ask |
| FanoutRun.Lanes.LoadAll | internal/generate/generate.go:127-193 | the result after all lookups and the draft call, and exactly the lanes to do |
| FanoutRun.Lanes.TakeTurn | internal/generate/generate.go:225-262 | one critical section of one lane: counting its call or landing it |
| FanoutRun.Lanes.Run | internal/generate/generate.go:100-278 | the fan-out in place, under any complete schedule, is the specified one |
| FanoutRun.FromOutcome | internal/store/store.go:230-285 | the candidate rows and the provenance word of a result |
| FanoutRun.LaneRows | internal/store/store.go:244-266 | one row per method in lane order; a row's flag says replayed exactly when the lane was |
| FanoutRun.RecordTells | internal/store/store.go:244-266 | a lane's row says plan, blocked, skipped or transient as the lane came out, with its plan or its reason |
| FanoutRun.ProvenanceTellsCalls | internal/store/store.go:267-283 | provenance is cached_replay exactly when the fan-out called the model zero times, fresh exactly when no lane was replayed, mixed otherwise |
| SpecClamp.ClampEnv | scripts/vmf_plan.py:2341-2345 | the loop that keeps distinct upper-case names of at most 60 characters |
| SpecProofs.ClampBounds | scripts/vmf_plan.py:2315-2356 | whatever came in, every field of a clamped spec is inside its vocabulary and bounds |
| SpecFields.WordsDegrade | scripts/vmf_plan.py:2315-2356 | deliverable and protocol: one of the allowed words in either case, or the default |
| SpecFields.UserDegrades | scripts/vmf_plan.py:2345-2348 | the user: an account, non-root in any of its spellings, or nothing |
| SpecFields.NumbersDegrade | scripts/vmf_plan.py:2319-2353 | the phrase is authoritative for the port, else a number that is one is taken; the hold is brought to 1 to 120, 25 if missing |
| SpecFields.TextsDegrade | scripts/vmf_plan.py:2319-2355 | the intent, note and reason are cut at 200, 120 and 60 characters; a path has to start with a slash |
| SpecFields.NamesDegrade | scripts/vmf_plan.py:2341-2346 | of the first ten names exactly those are required that have an upper-case letter, no lower-case one and at most sixty characters |
| SpecFields.RaisesIff | scripts/vmf_plan.py:2315-2346 | when there is no spec at all, and when the clamp raises |
| SpecProofs.ClampOnce | scripts/vmf_plan.py:2315-2356 | with a fixed non-empty intent, clamping twice is clamping once |
| SpecProofs.EmbeddedIff | scripts/vmf_plan.py:2315-2356 | clamping again with the intent taken from the spec itself is clamping once exactly when the phrase first clamped under, embedded or given, is at most 200 characters or its cut ends in no white space and names no other port |
| SpecHandOff.CutBetweenWords | scripts/vmf_plan.py:2288-2293 | cutting a phrase between words never changes which port it names, unless it names none any more |
| SpecPhrase.PhraseNames | scripts/vmf_plan.py:2288-2293 | the first place where the phrase says "port", white space and one to five digits, with no word character on either side, names the port if that is one; a phrase that says it nowhere names none |
| SpecHandOff.CleanCutClampsOnce | scripts/vmf_plan.py:2315-2356 | a long embedded phrase cut right after a whole word is clamped once for all |
| SpecHandOff.StraddledPortChanges | scripts/vmf_plan.py:2315-2356 | a concrete phrase naming port 8080 that is stored as naming port 80 |
| SpecHandOff.DerivedDelivers | scripts/vmf_plan.py:2359-2412 | deriving always ends in a clamped spec with a deliverable |
| SpecHandOff.DerivedTells | scripts/vmf_plan.py:2359-2412 | a reply that names a deliverable is taken; without a reply the fallback's deliverable, port and reason are |
| SpecHandOff.HandOff | scripts/vmf_plan.py:2455-2480 | with an intent, the spec the preview hands over is what its fan-out loads, whatever the saved file and the model say by then, so the fingerprints agree; except when a saved spec is reused, and then exactly when the phrase it was saved under, at any earlier time, survives the cut |
| SpecHandOff.SavedCutChangesSpec | scripts/vmf_plan.py:2455-2480 | the exception happens: saved under a phrase naming port 8080, reused under its cut that names port 80, and clamped to port 80 by the fan-out |
| SpecHandOff.HandOffWithout | scripts/vmf_plan.py:3941-3959 | without an intent, that holds exactly when the override's own phrase survives the cut |
| Translate.NoPrimaryMeansCycle | scripts/vmf_plan.py:918-924 | refused for want of a primary, with a service left, means the services left have a dependency cycle |
| Translate.AllGatedIsRefused | scripts/vmf_plan.py:711-924 | with every service gated the refusal is the same |
| Translate.PrimaryIsFree | scripts/vmf_plan.py:909-925 | the primary is a kept service that no kept service depends on, among at most twelve |
| Translate.DependenciesSurvive | scripts/vmf_plan.py:909-914 | no kept dependency names a dropped service, and no other dependency is lost or added |
| Translate.PlannedIff | scripts/vmf_plan.py:699-925 | translation succeeds exactly when every kept service has a build or an image, at most twelve are kept and one of them is depended on by none |
| Translate.EveryUngatedKept | scripts/vmf_plan.py:707-914 | every service that is not gated is in the plan, in its order, and nothing else is; its dependencies are as declared if none was dropped |
| Translate.RefusalTells | scripts/vmf_plan.py:703-917 | which refusal is given when: no services, the first that can be neither built nor pulled, more than twelve |
| Translate.TranslateCompose | scripts/vmf_plan.py:699-925 | the loops over services, dependencies and candidates compute that outcome |
| Translate.PickPrimary | scripts/vmf_plan.py:918-925 | the first service that no service depends on |
| Loopback.PointedIsRead | scripts/vmf_plan.py:1284-1288 | the pattern matches exactly the endpoints whose host is 127.0.0.1 or localhost |
| Loopback.PrintReads | scripts/vmf_plan.py:1289-1294 | a printed endpoint reads back as itself |
| Loopback.RewriteRepoints | scripts/vmf_plan.py:1263-1294 | a loopback on a port some other service declares first is re-pointed at that service with scheme, port number and path kept; every other value is left alone |
| Loopback.RewriteSettles | scripts/vmf_plan.py:1273-1294 | rewriting again changes nothing, whatever the services are called |
| Loopback.OwnPortStays | scripts/vmf_plan.py:1263-1294 | a service's loopback to its own port stays exactly when no earlier service declares that port |
| Flatten.OverlayIsValidated | scripts/vmf_plan.py:1014-1023 | whatever the model answers, only known services get replicas, 2 to 12 each |
| Flatten.OverlayIff | scripts/vmf_plan.py:1019-1023 | and exactly those are taken over |
| Flatten.CopiesAre | scripts/vmf_plan.py:1297-1298 | one instance, unless the overlay asks for more |
| Flatten.DistinctIffNoClash | scripts/vmf_plan.py:1296-1302 | instance names are distinct exactly when no service bears the name of another's replica |
| Flatten.AddressesAreDistinct | scripts/vmf_plan.py:1296-1303 | at most twelve services and a validated overlay give distinct addresses with last octet 10 to 153 |
| Flatten.MeshIffLoyal | scripts/vmf_plan.py:1304-1342 | every instance's table maps every other instance's name to its address exactly when each instance name that some service declares as an alias is declared last by the service of that name, or at most two instances exist |
| Flatten.DisjointAliasesMesh | scripts/vmf_plan.py:1304-1342 | in particular when no alias is an instance's name |
| Flatten.RepointedResolves | scripts/vmf_plan.py:1328-1342 | a re-pointed loopback names a sibling that declares the port and that the instance's own table resolves to the sibling's address |
| FlattenRun.SiblingPorts | scripts/vmf_plan.py:1263-1271 | the table built by the loops answers every port with its first declarer |
| FlattenRun.RewriteLoopback | scripts/vmf_plan.py:1273-1294 | the early returns compute the rewrite |
| FlattenRun.MergeEnv | scripts/vmf_plan.py:1328-1332 | overlay over declared values, then every value rewritten |
| FlattenRun.EnvironmentIs | scripts/vmf_plan.py:1328-1332 | each variable holds the overlay's value, or else the declared one, with its loopback re-pointed |
| FlattenRun.HostTable | scripts/vmf_plan.py:1338-1341 | the table as built by the loops |
| FlattenRun.HostsAgree | scripts/vmf_plan.py:1338-1342 | that table resolves every name as specified |
| FlattenRun.ExpandAll | scripts/vmf_plan.py:1296-1302 | the expansion loops |
| FlattenRun.Addresses | scripts/vmf_plan.py:1303 | the address dictionary |
| FlattenRun.AliasAddresses | scripts/vmf_plan.py:1304-1307 | the alias dictionary, later declarations winning |
| FlattenRun.FlattenAll | scripts/vmf_plan.py:1296-1343 | all entries and all forwards of the flattened file, which the next rows describe |
| FlattenForwards.ForwardedIff | scripts/vmf_plan.py:1326-1327 | what is forwarded is exactly every port of every instance: protocol and guest port as declared, the host port moved on by the instance's index |
| FlattenForwards.ForwardsInOrder | scripts/vmf_plan.py:1308-1327 | one line per instance and port, in that order |
| FlattenForwards.ForwardsLeadHome | scripts/vmf_plan.py:1308-1327 | every line leads to a guest port that the instance's service declares, and a first instance keeps the declared host port |
| FlattenForwards.HostPortsIff | scripts/vmf_plan.py:1296-1327 | no host port is forwarded twice in one protocol if and only if no two declared ports reach into each other with their replicas |
| FlattenRun.WrittenEntry | scripts/vmf_plan.py:1308-1343 | the entry of each instance has its service's dependencies and, for every variable, the overlay's or the declared value with its loopback re-pointed |
| FlattenRun.FlattenedMesh | scripts/vmf_plan.py:1296-1343 | in what is written, each instance has its own address and its table resolves every other instance to the address written for that one |
| Quote.QuoteReadsBack | scripts/vmf_lib.py:34-36 | under the quoting rules of sections 2.2.1 to 2.2.3 of the POSIX.1-2017 Shell Command Language, a quoted string reads back as one word equal to it, and reading goes on right after it |
| Quote.QuoteInjective | scripts/vmf_lib.py:34-36 | different values never quote alike |
| Quote.AssignIff | scripts/generate.py:121-123 | `export key=quoted` binds that key to that value exactly when the key is a shell name that can be set |
| Provision.WorkdirAbsolute | scripts/vmf_lib.py:99-151 | once set the working directory stays set and absolute, for every RUN too |
| ProvisionParse.PathJoined | scripts/vmf_lib.py:150-151 | a relative WORKDIR is put behind the directory with one slash between the two, behind the root at first, and an absolute one stands for itself |
| ProvisionParse.LineReads | scripts/vmf_lib.py:89-172 | a keyword in either case and what follows is read as that directive, the words of COPY and ADD parted into arguments and flags, and any other keyword is ignored or refused |
| ProvisionParse.AcceptedIff | scripts/vmf_lib.py:89-172 | a Dockerfile is accepted exactly when it has one and only one FROM, with a pinned image, no RUN in exec form, one source and one destination for every COPY and none from another stage, root alone as USER, and no unknown directive |
| EnvLines.EnvLineIff | scripts/vmf_lib.py:141-148 | the parser reads an ENV line as the Dockerfile reference does exactly when nothing in it is a quotation mark, a backslash or a reference, and either every word has a key or the first word is one with a plain space after it; in a line with a dollar sign, as long as no variable holds such characters |
| EnvLines.WordIff | scripts/vmf_lib.py:120-151 | the same for a word of a COPY or WORKDIR line |
| ProvisionCases.ResolveMeans | scripts/vmf_lib.py:150-151 | the text that the parser joins for a WORKDIR names the directory that the path comes to from the one before |
| ProvisionProofs.RunsMeanDockerfile | scripts/generate.py:103-141 | for every Dockerfile in the subset that can be built, and whatever its commands do to their shell and the directories: the script comes to its end with the same commands in the same order, directories and environments if and only if every export binds, every copy succeeds, and each RUN finds the environment meant and, where a `cd` is due, its directory there |
| ProvisionProofs.ScriptMeansDockerfile | scripts/generate.py:103-141 | script and Dockerfile both come to their end with the same trace if and only if the Dockerfile can be built, that holds, every copy lands where it is meant to, and no COPY follows a RUN |
| ProvisionCases.SameCommands | scripts/generate.py:118-138 | if no command moves its directory and the WORKDIR lines are plain, the script runs the commands meant in the order meant, each in the WORKDIR then in force, until it breaks off, and all of them exactly when it does not, wherever ENVs and COPYs stand |
| ProvisionProofs.RunsRun | scripts/generate.py:132-138 | `cd` is emitted only on change, and that runs every command as its step says: where the one before left the shell if the directory is the same, else in its own, ending the script if that is not there |
| ProvisionCases.RunsShareAShell | scripts/generate.py:132-138 | with the environment settled before the RUNs and plain WORKDIR lines, the two have the same trace if and only if exports bind, copies land, no COPY follows a RUN, each command but the last leaves the environment alone, and the directory too unless a WORKDIR moves the next to one that is there by then |
| ProvisionCases.LateEnvShows | scripts/generate.py:103-141 | with commands that leave their shells alone and plain WORKDIR lines, the two have the same trace if and only if the Dockerfile can be built, exports bind, copies land, no COPY follows a RUN, every RUN already sees the environment the exports make, and every directory a RUN is to start in is in the base image or made by a copy |
| ProvisionPlain.EnvsFirst | scripts/generate.py:118-124 | plain lines, keys that can be set and no ENV after a RUN: the Dockerfile can be built, the exports bind, and every RUN sees the environment they make |
| ProvisionPlain.LaterShellsSee | scripts/generate.py:117-122 | a script that comes to its end leaves a profile from which every later shell has the ENVs, the last value of each, if their keys can be set |
| ProvisionPlain.TreesLand | scripts/generate.py:125-129 | directories copied to absolute places land where they are meant to |
| ProvisionPlain.CopyMakesDir | scripts/generate.py:125-129 | and are there for the RUNs |
| ProvisionPlain.PlainDockerfile | scripts/generate.py:103-141 | for a plain Dockerfile with ENVs before RUNs and such copies, script and Dockerfile have the same trace if and only if no COPY follows a RUN and every directory that a WORKDIR gives a RUN is in the base image or made by a copy |
| ProvisionLimits.MissingWorkdirEnds | scripts/generate.py:132-138 | FROM, WORKDIR, RUN with a directory the base image has not: the build runs the command there, the script ends before it |
| ProvisionLimits.QuotedEnvEnds | scripts/vmf_lib.py:141-148 | FROM, ENV A="x y", RUN: accepted, built with A bound to both words, and the script breaks off before the command |
| ProvisionLimits.IntoDirectoryIff | scripts/generate.py:125-131 | a file copied to a place that ends in a slash lands as meant exactly when that directory is there and the one meant and the file is named by its number |
| ProvisionLimits.SlashCopyEnds | scripts/generate.py:125-131 | FROM, COPY of a file into a directory of the root that the base image has not: built, and the script breaks off |
| ProvisionLimits.RelativeTreeIff | scripts/generate.py:125-129 | a directory copied to a relative place without `..` lands as meant exactly when the script starts in the WORKDIR then in force |
| ProvisionRun.LogicalLines | scripts/vmf_lib.py:39-50 | the joining loop |
| ProvisionRun.ContinuedIsOne | scripts/vmf_lib.py:39-50 | a continued line and the next read as one line, the text before the backslash, a space and the next line, whatever comes before and after |
| ProvisionRun.LineStands | scripts/vmf_lib.py:39-50 | a line of its own is yielded as its trimmed text unless it is blank or a comment |
| ProvisionRun.LinesAreClean | scripts/vmf_lib.py:39-50 | every logical line is trimmed, not blank, not a comment and ends in no backslash |
| ProvisionRun.JoinInParts | scripts/vmf_lib.py:39-50 | where no continuation is open, a Dockerfile reads in two independent parts |
| ProvisionRun.OpenEndIsDropped | scripts/vmf_lib.py:39-50 | a file whose last continuation stays open reads as though it ended at an earlier line: from there on every line ends in a backslash or is blank, each was gathered, and none is yielded; when the last line has text, that is so exactly if it ends in a backslash |
| ProvisionRun.ParseDockerfile | scripts/vmf_lib.py:70-172 | the parsing loop computes runs, copies, environment, errors and working directory as specified |
| ProvisionRun.EmitProvision | scripts/generate.py:103-141 | the emitting loops, with one remembered directory, write the specified script: opening lines, profile, exports, directories and copies, commands |
| Events.LossIsVisible | internal/events/events.go:27-86 | in every run a subscriber's numbers rise strictly, and there is a gap between two neighbours exactly when an event between them met a full queue |
| Events.UnseenLosses | internal/events/events.go:14-23 | a subscriber's first event is never lost; a lost event falls into a gap exactly when a later one got through, and after the last that did everything was lost and no gap shows it |
| Events.MissingMetFullQueue | internal/events/events.go:67-86 | an event emitted while subscribed is missing exactly when the queue held 256 |
| Events.RunKeeps | internal/events/events.go:27-93 | numbers go 1, 2, 3 and every subscriber's account follows the log from its subscription on |
| Events.LogTells | internal/events/events.go:67-86 | the events are those emitted, in order, each with its number, type, candidate and data |
| Events.GoneIsGone | internal/events/events.go:56-65 | after a subscriber has gone nothing is offered to it, and what it still takes is what its queue held |
| Events.Channel.Send | internal/events/events.go:67-86 | a send never blocks: it queues, or drops at 256 |
| Events.Emitter.Subscribe | internal/events/events.go:45-54 | a new handle and channel, nothing else changed |
| Events.Emitter.Unsubscribe | internal/events/events.go:56-65 | the subscriber is closed, nothing else changed |
| Events.Emitter.Emit | internal/events/events.go:67-86 | the stamped envelope and every subscriber's new queue |
| Events.Emitter.Sequence | internal/events/events.go:89-93 | the number of events emitted so far |
| BlockedLine.RoundTrip | internal/render/render.go:98-143 | the printed line parses back to its entries if and only if no reason upsets the scan or ends inside a character; balanced reasons never upset it, commas included |
| BlockedRun.SortStrings | internal/plan/plan.go:498-504 | the insertion sort leaves the array sorted and a permutation of what it was |
| BlockedRun.OneOrder | internal/plan/plan.go:319-325 | there is only one sorted listing, so the line does not depend on map order |
| BlockedRun.JoinBlocked | internal/plan/plan.go:319-329 | one entry per blocked lane, in sorted order |
| BlockedRun.SplitBlocked | internal/render/render.go:120-143 | the scanning loop cuts at exactly the commas at depth zero |
| BlockedRun.BlockedRows | internal/render/render.go:98-117 | the rows of a line, its prefix dropped if it is there |
| BlockedScreen.Reprint | internal/render/render.go:36-72 | print, split into lines, then read: one row per blocked lane, in sorted order and with its reason intact, if and only if no reason upsets the scan, holds a line break or ends inside a character; balanced reasons of whole characters on one line always come back |
| BlockedScreen.Styled | internal/render/render.go:36-72 | the loop over the lines lifts the rows of every blocked line and of no other |
| BlockedScreen.LiftedAtBreak | internal/render/render.go:37-40 | a text lifts into the rows of its lines, so what stands above and below a blocked line does not change its rows |

## Left out

- VerifyLoop.HoldLoop.Poll: follows a given number of trips, because the loop may never end.
- FanoutRun.Lanes.LoadAll: looks each lane up right after its prefilter; the source filters all lanes first. The two orders touch different lanes only.
- SpecHandOff.HandOff: JSON text itself is not modelled, a spec is its parsed object; the saved file is one that some derivation wrote.
- RaceEnd.CrownIsEarned: a runner's poll and its marker are read as one atomic answer; the source polls a second time after reading the marker.
- RaceEnd.FeedIsReadOnce: appends to the feed file are whole lines.
- Fanout.WebPlansServe: the eight-hex-digit fingerprint is taken to be injective.
- ProvisionProofs.ScriptMeansDockerfile: commands succeed and return to their shell, and what `set -euo pipefail` and bash in the place of `sh` change inside one is not modelled; nor are references with a modifier (taken to be refused), SHELL, flags of COPY, unpacking by ADD, symbolic links, and a file in a directory's place. The comparison starts from the logical lines.
- ProvisionMachine.RunLine: an `export` line that the shell reads as anything but one plain assignment or a comment is taken to end the script, though a key with an operator or an expansion may not.
- ProvisionRun.EmitProvision: the fixed opening lines are one line here.
- BlockedScreen.Styled: the colours of the other lines are not modelled, and the blocked line is printed for an empty map too; it lifts into no row.
- Case folding, white space and digits beyond ASCII are not modelled. Go texts are bytes, Python texts characters. Numbers in a spec are whole.
- Fanout.RerunReplays: the texts of a plan other than its notes are taken as their own clamps leave them, and a file's numbers and lists come back as equal ones.
- The wider clamps (images, checks, ports, memory, direct payloads) and the derivation of the check list: each lane's payload is opaque here beyond its command.
- The Go twin of the spec clamp: it follows the same table with other defaults for missing values.
- Splitting a compose file's ports, volumes and environment into plan fields, and the memory estimate.
- Model calls, documentation lookups, git, container builds, ssh, hashing, SQLite and YAML: parameters or opaque functions.
- The guest agent, the winner cache, promotion itself, boards, previews and status lines.
