# kamiroh: a model of the conversation engine

kamiroh lets named actors on different endpoints hold *conversations*: strictly alternating exchanges
of turns, each side running its own turn machine and its own patience. This project models that
engine in Dafny and proves what it promises: nothing waits without a deadline, a stale timer never
kills a live exchange, a revocation cuts a peer off, a peer that died and came back is not failed for
its old death, no exchange splices into another, and the two runtimes tell one story.

`dafny verify dfyconfig.toml` checks the whole project.

## How it is laid out

- `Vocabulary`, `Protocol`, `Inbound`: the values on the wire, the turn machine, the admission choke
  point with its allowlist. `Grammar`, `Duel`, `Splicing`: the turn machine alone, two of them over
  faithful channels, two of them over a network that loses, delays, duplicates and reorders.
- `Engine`: what one actor does with each thing that can happen to it, as a function from an actor and
  an input to an actor and its effects. An effect is a turn let in, a party consulted, a send tried, a
  party told of a failure, or an observer event, so an equation between effect sequences fixes what is
  sent, in which order, and what the party and the observer see. An armed wait carries a stamp, so
  that one description serves both runtimes: in the reference runtime the instant it falls due, in
  the Kameo host the number of its timer task. `Reactions` says what each input does in terms of the
  message alone; `EngineTheorems` holds what is true of an actor over every run.
- `Wait`, `LocalRuntime`, `LocalRuntimeTheorems`, `LocalSteps`: the race, the reference runtime as a
  class, and what its steps do, case by case. `KameoHost`, `KameoTimers`, `KameoWrap`: the Kameo host as a class, the same host with
  its mailbox and timer tasks in every interleaving, and the exact bound on the mailbox. `Inheritance`
  shows that every run of either runtime is, for each hosted actor, a run of the engine; `Agreement`
  that stamps make no difference to anything anybody can see.
- `MemoryNet`, `MemoryNetTheorems`, `MemoryNetRuns`: the in-process network with kills, partitions,
  batches and death watches.
  `Resurrection` puts the reference runtime on it.
- `Phone`, `FanOut`, `Parties`, `PartyTheorems`, `Countdown`, `TestClock`: the app's handle, opening
  many exchanges in one send, the stock parties behind their actors, one whole exchange over the wire,
  and the hand-cranked timer.

A class method is proved equal to a function of the state before it; the lemmas speak of those
functions. Ghost fields and history variables (`log`, `rounds`, `place`, `heard`, `tombs`, and the
`task` and `round` of a timer report) record what happened and decide nothing.

Inputs the code cannot choose are parameters: whether a send or a bind is accepted, what a party or
the harness answers, what a poll finds, the clock's reading, the order in which a hash map is walked.
A theorem about a run holds for all of them.

## Where code and documentation part

- `CountdownParty` is documented to produce an exchange of `2n + 1` turns
  (crates/kamiroh-app/src/parties.rs:85-89). It does exactly when the peer closes on the last question;
  a peer that closes on the `j`-th gets `2j + 1`, and one that always asks again `2n + 2`
  (`Countdowns.CountdownConcludes`, `Countdowns.DocumentedCount`).
- A refused `Close` leaves the machine `Idle`, not `Failed`, and is still reported as a failure
  (crates/kamiroh-app/src/runtime.rs:279-284). The model follows the code: after a reported failure a
  conversation is at rest, `Idle` or `Failed`.
- The comment on the stale-report check calls an aborted task's report recognisable. It is, exactly as
  long as there are never more than 2^64 mails, the waiting ones and the one in hand together: `KameoWrap.JudgesExactlyUpToTheEpochs`.

## Model

| member | source | states |
|---|---|---|
| Protocol.TurnMachine.constructor | crates/kamiroh-domain/src/protocol.rs:93-97 | a fresh machine has no exchange under way |
| Protocol.TurnMachine.Fail | crates/kamiroh-domain/src/protocol.rs:155-163 | the verdict of death fails a live exchange, says whether there was one, and leaves any other state alone |
| Protocol.TurnMachine.OnOutgoing | crates/kamiroh-domain/src/protocol.rs:166-203 | the machine rules on a turn about to be sent by whether it speaks to what is outstanding; a refusal changes nothing |
| Protocol.TurnMachine.OnIncoming | crates/kamiroh-domain/src/protocol.rs:205-247 | the same for a turn arriving |
| Protocol.HearingMirrorsSaying | crates/kamiroh-domain/src/protocol.rs:82-85 | the machine is symmetric: hearing a turn is the other side saying it, in legality, resulting state and, but for the name of speaking out of turn, error |
| Protocol.CompletesIsOneRound | crates/kamiroh-domain/src/protocol.rs:56-76 | `completes` agrees with the machine: a pair of turns completes exactly when the opener's machine is at rest again after saying the one and hearing the other |
| Protocol.RepliesNameTheirOpening | crates/kamiroh-domain/src/protocol.rs:40-76 | a message opens a run exactly when some reply completes it, no reply opens one, and but for a report of failure a reply completes only the opening it names |
| Grammar.EveryRunIsAConversation | crates/kamiroh-domain/src/protocol.rs:78-92 | whatever is said, heard or failed, the calls that take effect form exchanges, one after another: each opens, alternates sides, answers the question just posed, and ends in a close, in death, or is the last and still live; refused calls leave no mark |
| Grammar.ExactlyTheConversations | crates/kamiroh-domain/src/protocol.rs:149-247 | and from either resting state a word is taken whole if and only if it is such a conversation |
| Duel.EveryRunIsOrderly | crates/kamiroh-domain/src/protocol.rs:78-106 | two machines over first-in-first-out channels: in every run at most two turns are in flight, every answer is accepted, and the one refusal there is, is `MustAnswerFirst` to an opening that crossed another |
| Duel.StuckExactlyByGlare | crates/kamiroh-domain/src/protocol.rs:166-247 | such a run is stuck exactly when two openings crossed and the channels have drained, and crossed openings never recover by themselves |
| Splicing.AcceptedAnswersAreCurrent | crates/kamiroh-domain/src/protocol.rs:205-247 | under loss, delay, duplication, reordering and unilateral failure, if a side never reuses an id, each answer it accepts is to the question it posed last, posed in the exchange now under way, which had reached the peer; and no question is ever answered twice |
| Splicing.ReusedIdsSplice | crates/kamiroh-domain/src/protocol.rs:155-163 | with one id reused, a straggler from a dead exchange concludes the live one |
| Inbounds.OnlyTheAdmitted | crates/kamiroh-app/src/inbound.rs:51-81 | nothing passes from an endpoint that is not admitted; what passes is the very message that came, with the ack that completes it, addressed to its sender; a close gets none |
| Inbounds.Allowlist.Empty | crates/kamiroh-domain/src/allowlist.rs:25-27 | nobody is admitted by default |
| Inbounds.Allowlist.Admit | crates/kamiroh-domain/src/allowlist.rs:29-31 | exactly that endpoint is added |
| Inbounds.Allowlist.Revoke | crates/kamiroh-domain/src/allowlist.rs:33-35 | exactly that endpoint is removed |
| Waits.NextOrDeadline | crates/kamiroh-app/src/wait.rs:30-47 | the race ends in the first round that finds somebody ready, where an elapsed deadline outranks the inbox |
| Waits.NextOrDeadlineOrDeath | crates/kamiroh-app/src/wait.rs:53-88 | the same with deaths outranking both, a watch that closes dropping out for good, and a deadline that may be absent |
| Waits.VerdictIsUnique | crates/kamiroh-app/src/wait.rs:49-52 | the poll order makes the race deterministic |
| Waits.FirstRoundDecides | crates/kamiroh-app/src/wait.rs:66-85 | a contestant ready in the first round settles the race there: the watch, else the clock, else the inbox |
| Waits.RaceGoesOn | crates/kamiroh-app/src/wait.rs:53-88 | a round that finds nobody ready leaves the verdict to the rounds after it, in which a watch that closed is not asked |
| EngineTheorems.AlwaysSound | crates/kamiroh-app/src/runtime.rs:464-603 | in every reachable state of an actor, `AwaitingTheirTurn` holds exactly when a turn wait is armed, an armed ack wait names the outstanding request, nothing else waits, and every peer of a live exchange is on the allowlist |
| EngineTheorems.ElapseFailsALiveExchange | crates/kamiroh-app/src/runtime.rs:436-441 | a deadline that may elapse fails a live exchange, that one and no other |
| EngineTheorems.RevokedUntilAdmitted | crates/kamiroh-app/src/runtime.rs:228-239 | from a revocation until the next admission, whatever happens, no conversation with that endpoint changes and all that concerns it, on the wire, at the party or at the observer, is one denial for each of its deliveries |
| EngineTheorems.FailureIsToldOnce | crates/kamiroh-app/src/runtime.rs:285-315 | over every run and for every conversation, each failure the observer sees is the very one the party was told of just before, the party is told of no other, and between two failures of one conversation an opening from that peer was let in |
| EngineTheorems.FailureLeavesRest | crates/kamiroh-app/src/runtime.rs:274-284 | whatever failed is left with no live exchange and nothing waited for |
| Reactions.AcksSettleTheirWait | crates/kamiroh-app/src/runtime.rs:464-476 | from an admitted sender, an ack ends the wait that names its id, leaving state and turn wait alone; any other ack changes nothing; neither has any effect |
| Reactions.RequestsAreAcked | crates/kamiroh-app/src/runtime.rs:458-463 | a request has one effect, the ack of its own id to its sender, and changes nothing |
| Reactions.HarnessIsAnswered | crates/kamiroh-app/src/runtime.rs:477-490 | a harness message gets the harness's answer, or the report that this is no harness actor, and nothing else |
| Reactions.StrangersAreDenied | crates/kamiroh-app/src/runtime.rs:451-457 | a delivery from an endpoint not admitted is reported as denied and does nothing else |
| Reactions.StrayTurnsAreDropped | crates/kamiroh-app/src/runtime.rs:500-526 | a turn out of place leaves its conversation as it was, waits and all; the observer is told why it was dropped, and nobody else anything |
| Reactions.RepliesArmTheirWaits | crates/kamiroh-app/src/runtime.rs:549-603 | for a turn in place and a reply in place: the receipt, the party, the reply, in that order; what the reply asks is waited for, and a refused reply leaves nothing waited for |
| Reactions.StrayRepliesFailTheExchange | crates/kamiroh-app/src/runtime.rs:581-588 | a reply out of place is never sent: the exchange fails and the party and the observer are told |
| Reactions.NewsEndsWhatIsThere | crates/kamiroh-app/src/runtime.rs:240-272 | a death or a revocation ends every exchange under way at that endpoint, with nothing waited for, and leaves every other conversation alone |
| Reactions.AdmittedAreLetIn | crates/kamiroh-app/src/runtime.rs:220-227 | an admission adds exactly that endpoint, and none of its deliveries is denied from then on |
| LocalRuntimes.LocalRuntime.constructor | crates/kamiroh-app/src/runtime.rs:120-138 | a new runtime hosts nobody and remembers no death |
| LocalRuntimes.LocalRuntime.Install | crates/kamiroh-app/src/runtime.rs:186-214 | a name in use or a refused bind installs nothing; otherwise the actor starts without conversations |
| LocalRuntimes.LocalRuntime.AdmitEndpoint | crates/kamiroh-app/src/runtime.rs:220-227 | one endpoint joins one actor's allowlist; an unknown actor is an error |
| LocalRuntimes.LocalRuntime.RevokeEndpoint | crates/kamiroh-app/src/runtime.rs:240-272 | the endpoint leaves the allowlist and precisely the live exchanges there fail, each once, in some order, and the answer is their number |
| LocalRuntimes.LocalRuntime.FailExchange | crates/kamiroh-app/src/runtime.rs:285-315 | the machine fails, the waits clear, the party and then the observer hear of it |
| LocalRuntimes.LocalRuntime.SweepDead | crates/kamiroh-app/src/runtime.rs:320-357 | all live exchanges at one tombstoned endpoint fail; none only if no tombstone touches a live exchange |
| LocalRuntimes.LocalRuntime.EarliestDue | crates/kamiroh-app/src/runtime.rs:360-376 | an armed wait that no other precedes; none only if nothing is armed |
| LocalRuntimes.LocalRuntime.Step | crates/kamiroh-app/src/runtime.rs:383-449 | one step sweeps what is known dead, or else does what the verdict of the race over the earliest wait calls for |
| LocalRuntimes.LocalRuntime.Bury | crates/kamiroh-app/src/runtime.rs:423-435 | a reported death is remembered and what it touches fails, none of this actor's if none was live |
| LocalRuntimes.LocalRuntime.Receive | crates/kamiroh-app/src/runtime.rs:446-499 | a delivery, even a denied one, clears its endpoint's tombstone, and is handled as the engine handles it |
| LocalRuntimes.LocalRuntime.TakeTurn | crates/kamiroh-app/src/runtime.rs:491-603 | a turn is validated, acknowledged, handed to the party and answered, in that order, and what the step answers tells how it fared |
| LocalRuntimes.LocalRuntime.Validate | crates/kamiroh-app/src/runtime.rs:500-526 | a legal turn moves the machine and settles every wait; an illegal one is dropped and reported |
| LocalRuntimes.LocalRuntime.Acknowledge | crates/kamiroh-app/src/runtime.rs:527-554 | the receipt of a turn's question goes out before the party is consulted, and a refused receipt is ignored |
| LocalRuntimes.LocalRuntime.SendReply | crates/kamiroh-app/src/runtime.rs:555-601 | an illegal reply fails the exchange unsent, a refused one after having been tried, and one that leaves arms its waits from now |
| LocalRuntimeTheorems.StepsAreReactions | crates/kamiroh-app/src/runtime.rs:383-605 | every step leaves all as it was or is one reaction of one actor, to something its polls and ports called for: a delivery that a poll of the inbox brought, a wait that a reading of the clock found overdue, a death remembered or reported; never an admission or a revocation |
| LocalRuntimeTheorems.StepKeepsAllSound | crates/kamiroh-app/src/runtime.rs:383-605 | no step leaves a wait unarmed or a live peer unadmitted, in any actor |
| LocalRuntimeTheorems.SweepsAreExact | crates/kamiroh-app/src/runtime.rs:240-272 | a death or a revocation fails precisely the live conversations at that endpoint, with that exact count and one event each, leaves every other untouched, and doing it again finds nothing |
| LocalRuntimeTheorems.UrgentFirst | crates/kamiroh-app/src/runtime.rs:378-449 | as long as a tombstone touches a live exchange, a death is queued or a wait is overdue, a step takes no delivery, sends nothing, and leaves fewer live exchanges and queued deaths |
| LocalRuntimeTheorems.DeliveryLast | crates/kamiroh-app/src/wait.rs:66-85 | and when nothing outranks it, the queued delivery is taken |
| LocalRuntimeTheorems.ReachedWithin | crates/kamiroh-app/src/runtime.rs:383-449 | with time and network frozen, the queued delivery is reached within as many steps as there were live exchanges and queued deaths |
| LocalRuntimeTheorems.DeliveryCanBeTaken | crates/kamiroh-app/src/runtime.rs:387-449 | a step that takes the queued delivery exists whenever nothing outranks it |
| LocalRuntimeTheorems.UrgentCanBeTaken | crates/kamiroh-app/src/runtime.rs:383-443 | and whatever outranks a delivery, a step that deals with it exists |
| LocalSteps.TombstonesComeFirst | crates/kamiroh-app/src/runtime.rs:320-357 | as long as a live exchange of the actor's is with a peer at an endpoint remembered dead, every step of that actor gives up all it has at such an endpoint, answers with it and the exact number, and takes no delivery |
| LocalSteps.DeathsComeNext | crates/kamiroh-app/src/runtime.rs:423-435 | otherwise news of a death is remembered and its exchanges fail at once, with the exact number, which may be none |
| LocalSteps.LateWaitsComeNext | crates/kamiroh-app/src/runtime.rs:436-441 | otherwise, if any wait is late, the one that falls due first ends its exchange and only that |
| LocalSteps.DeliveriesComeLast | crates/kamiroh-app/src/runtime.rs:443-449 | only then the queued delivery is put to the actor, and its sender's tombstone goes |
| LocalSteps.CallersAreTold | crates/kamiroh-app/src/runtime.rs:451-490 | the caller gets an error exactly when the one send that a request or a harness message calls for is refused |
| LocalSteps.CallersAreToldOfTurns | crates/kamiroh-app/src/runtime.rs:491-603 | and of a turn, that the exchange failed exactly when the reply was out of place or would not leave; a refused receipt is not reported |
| LocalSteps.OtherwiseTheStepWaits | crates/kamiroh-app/src/wait.rs:53-88 | with nothing at hand a step goes on to the next round, and after the last it has changed nothing |
| KameoHosts.KameoHost.constructor | crates/kamiroh-adapter-kameo/src/lib.rs:210-219 | a new host has no conversations and no tasks |
| KameoHosts.KameoHost.SettleAckOf | crates/kamiroh-adapter-kameo/src/lib.rs:372-379 | the ack wait of that id is settled and its task aborted; a stray ack changes nothing |
| KameoHosts.KameoHost.SettleAll | crates/kamiroh-adapter-kameo/src/lib.rs:381-388 | both waits are settled and both tasks aborted |
| KameoHosts.KameoHost.OnStop | crates/kamiroh-adapter-kameo/src/lib.rs:405-418 | every wait of every conversation is settled and exactly their tasks aborted |
| KameoHosts.KameoHost.FailExchange | crates/kamiroh-adapter-kameo/src/lib.rs:598-619 | the machine fails, the waits are settled, the epoch is bumped, the party and then the observer hear of it |
| KameoHosts.KameoHost.AdmitHere | crates/kamiroh-adapter-kameo/src/lib.rs:625-627 | one endpoint joins the allowlist |
| KameoHosts.KameoHost.RevokeHere | crates/kamiroh-adapter-kameo/src/lib.rs:634-652 | the endpoint leaves and precisely the live exchanges there fail; the answer is their number |
| KameoHosts.KameoHost.HandlePeerDied | crates/kamiroh-adapter-kameo/src/lib.rs:764-787 | precisely the live exchanges at the dead endpoint fail |
| KameoHosts.KameoHost.HandleDeadlineElapsed | crates/kamiroh-adapter-kameo/src/lib.rs:720-747 | a report is acted on when the wait it speaks of is pending in its epoch, and is otherwise ignored |
| KameoHosts.KameoHost.HandleDeliver | crates/kamiroh-adapter-kameo/src/lib.rs:432-584 | one delivery, through the choke point, to its effects and the new state of waits, tasks and epochs |
| KameoHosts.KameoHost.HandleTurn | crates/kamiroh-adapter-kameo/src/lib.rs:470-582 | a turn is validated, acknowledged, handed to the party and answered, in that order |
| KameoHosts.KameoHost.Validate | crates/kamiroh-adapter-kameo/src/lib.rs:478-497 | a legal turn moves the machine and aborts every guard; an illegal one is dropped and reported |
| KameoHosts.KameoHost.Acknowledge | crates/kamiroh-adapter-kameo/src/lib.rs:498-507 | the receipt of a turn's question goes out before the party is consulted, and a refused receipt is ignored |
| KameoHosts.KameoHost.SendReply | crates/kamiroh-adapter-kameo/src/lib.rs:508-580 | an illegal reply fails the exchange unsent, a refused one after having been tried, and one that leaves arms its waits |
| KameoHosts.KameoHost.Bump | crates/kamiroh-adapter-kameo/src/lib.rs:539-541 | the epoch is the number of bumps, wrapped at 2^64 |
| KameoHosts.KameoHost.Arm | crates/kamiroh-adapter-kameo/src/lib.rs:534-579 | arming finds both slots empty, so no handle is overwritten; the epoch is bumped and each wait gets a task of its own |
| KameoHosts.HostReacts | crates/kamiroh-adapter-kameo/src/lib.rs:432-584 | whatever its tasks and epochs do meanwhile, the host does to its actor what the engine does; a stale report does nothing |
| KameoHosts.MailsReachTheActor | crates/kamiroh-adapter-kameo/src/lib.rs:424-787 | every mail but a timer's report reaches the actor as what it is: a delivery as that delivery, news of an endpoint as a sweep there |
| KameoTimers.AlwaysGuarded | crates/kamiroh-adapter-kameo/src/lib.rs:353-389 | in every interleaving of mails, firings and handlers the guard invariant stands |
| KameoTimers.AcceptedReportsAreCurrent | crates/kamiroh-adapter-kameo/src/lib.rs:730-747 | with at most 2^64 mails waiting or in hand, in every interleaving, a report is accepted if and only if its task is the one guarding the wait armed now: none settled, failed or re-armed since is ever taken for it, and no live one is ignored |
| KameoTimers.ReportsAreActedOn | crates/kamiroh-adapter-kameo/src/lib.rs:720-747 | in every interleaving the report being served ends the exchange whose armed wait it belongs to, and otherwise does nothing |
| KameoTimers.EveryWaitHasOneGuard | crates/kamiroh-adapter-kameo/src/lib.rs:346-369 | between handlers every armed wait has exactly one running task or exactly one queued report, every running task guards an armed wait, a turn is awaited exactly when a turn wait is armed, and stopping leaves no task running |
| KameoWrap.Delayed | crates/kamiroh-adapter-kameo/src/lib.rs:533-535 | a report can be made to wait for any number of bumps that the mailbox has room for |
| KameoWrap.OneMailTooMany | crates/kamiroh-adapter-kameo/src/lib.rs:730-736 | with one mail more than 2^64, waiting or in hand, there is a run in which the wrapped epoch makes the host accept the report of a wait long settled: the bound is exact |
| KameoWrap.JudgesExactlyUpToTheEpochs | crates/kamiroh-adapter-kameo/src/lib.rs:730-747 | the two halves in one: reports are judged rightly in every interleaving if and only if there are never more than 2^64 mails, waiting or in hand |
| Inheritance.KameoRunsTheEngine | crates/kamiroh-adapter-kameo/src/lib.rs:432-787 | every schedule of the host is a run of the engine, with the same effects in the same order |
| Inheritance.KameoTellsFailuresOnce | crates/kamiroh-adapter-kameo/src/lib.rs:598-619 | in the Kameo host, too, each failure is told once, an opening let in lies between two failures, whoever is live is admitted, and nothing waits without a deadline |
| Inheritance.KameoRevocationCutsOff | crates/kamiroh-adapter-kameo/src/lib.rs:634-652 | in the Kameo host, from a served revocation until the next served admission, no conversation with that endpoint changes and all that concerns it is one denial for each of its deliveries |
| Inheritance.KameoShadowsNeverDiverge | crates/kamiroh-app/src/parties.rs:59-73 | a stock party behind a Kameo host has every shadow equal to the host's machine, over every schedule |
| Inheritance.LocalRunsTheEngine | crates/kamiroh-app/src/runtime.rs:220-605 | every history of the reference runtime is, for each actor it hosts throughout, a run of the engine, deed for deed: an order to the actor is that input, a step of it the input its polls and ports called for, anything else none; and the effects are the same in the same order |
| Inheritance.LocalTellsFailuresOnce | crates/kamiroh-app/src/runtime.rs:285-315 | the same promises over every history of the reference runtime, from an actor's installation on |
| Inheritance.LocalRevocationCutsOff | crates/kamiroh-app/src/runtime.rs:228-272 | in the reference runtime, from a revocation until the next admission, no conversation with that endpoint changes and all that concerns it is one denial for each delivery that a step took from it |
| Inheritance.LocalShadowsNeverDiverge | crates/kamiroh-app/src/parties.rs:59-73 | a stock party hosted by the reference runtime has every shadow equal to its actor's machine, over every history, and no illegal reply is ever reported |
| Inheritance.LocalWaitsRunFromTheReply | crates/kamiroh-app/src/runtime.rs:562-577 | over every history of the reference runtime, whenever an actor awaits the peer's turn it is because of one step that sent a reply which asks: the turn falls due the turn patience after that step read the clock, the ack the ack patience after, and nothing has ended the wait since |
| Agreement.RunsAlike | crates/kamiroh-app/src/runtime.rs:383-605 | over whole runs, the same happenings have the same effects in the same order whatever the waits are stamped with, and leave the same states, armed waits and allowlist |
| Agreement.RuntimesAgree | crates/kamiroh-adapter-kameo/src/lib.rs:432-787 | a Kameo handler and the matching action of the reference runtime attempt the same sends in the same order, tell the party and the observer the same, and leave actors alike |
| MemoryNets.MemoryNet.constructor | crates/kamiroh-adapter-memory/src/lib.rs:66-68 | a new network is empty |
| MemoryNets.MemoryNet.RegisterAddress | crates/kamiroh-adapter-memory/src/lib.rs:72-82 | a free address gets an empty mailbox; a bound one is refused |
| MemoryNets.MemoryNet.DropInbox | crates/kamiroh-adapter-memory/src/lib.rs:376-382 | dropping an inbox unbinds its address, whoever bound it, and loses what is queued there |
| MemoryNets.MemoryNet.KillEndpoint | crates/kamiroh-adapter-memory/src/lib.rs:91-124 | every mailbox at the endpoint vanishes and every watch has the death queued last |
| MemoryNets.MemoryNet.PartitionPair | crates/kamiroh-adapter-memory/src/lib.rs:131-135 | both directions are parted |
| MemoryNets.MemoryNet.HealPair | crates/kamiroh-adapter-memory/src/lib.rs:139-167 | what was held between the two flows on in order, to whichever mailboxes still exist; the rest stays held |
| MemoryNets.MemoryNet.SendMessage | crates/kamiroh-adapter-memory/src/lib.rs:207-240 | held across a partition, refused without a mailbox, else queued last |
| MemoryNets.MemoryNet.OpenManyAt | crates/kamiroh-adapter-memory/src/lib.rs:242-322 | refused where nobody lives; else the receipt and then each opening are held, queued, or dropped without a word |
| MemoryNets.MemoryNet.DeathWatch | crates/kamiroh-adapter-memory/src/lib.rs:171-180 | a new watch starts with nothing queued |
| MemoryNets.MemoryNet.PollInbox | crates/kamiroh-adapter-memory/src/lib.rs:391-403 | the oldest delivery is taken; a mailbox that is gone reads as closed |
| MemoryNets.MemoryNet.PollDeath | crates/kamiroh-adapter-memory/src/lib.rs:425-434 | the oldest death of that watch is taken, and no other watch's |
| MemoryNetTheorems.AlwaysSound | crates/kamiroh-adapter-memory/src/lib.rs:126-167 | through any mix of operations, on every route from an endpoint to an address, what was received, then what is queued, then what is held is in send order; what is held is held across a partition; every delivery is where it is addressed |
| MemoryNetTheorems.EachExactlyOnce | crates/kamiroh-adapter-memory/src/lib.rs:207-322 | every accepted delivery is exactly one of received, queued, held or lost, and occurs there exactly once; and if it is lost, the operation that lost it left its address without a mailbox |
| MemoryNetTheorems.EachGoesRightly | crates/kamiroh-adapter-memory/src/lib.rs:126-167 | whatever happens next, each delivery goes exactly where it is destined: held only across a partition, out of the hold when its own partition heals and only then, into its mailbox if that is bound, out of it by a poll that finds it first; received or lost for good |
| MemoryNetTheorems.LostOnlyUnbound | crates/kamiroh-adapter-memory/src/lib.rs:149-160 | a delivery is lost only by an operation after which its address is unbound: to an absent mailbox or with a removed one |
| MemoryNetRuns.WatchesAreTold | crates/kamiroh-adapter-memory/src/lib.rs:91-124 | over every run, what a watch has answered and then what is queued at it are exactly the endpoints killed since it was attached, each kill once, in order |
| MemoryNetRuns.PollTellsTheNext | crates/kamiroh-adapter-memory/src/lib.rs:425-434 | a poll answers with the earliest kill its watch has not been told of, and with nothing only if there is none |
| MemoryNetRuns.PartedUntilHealed | crates/kamiroh-adapter-memory/src/lib.rs:131-145 | two endpoints are partitioned exactly when the last operation on the pair parted them, whichever way round it named them |
| MemoryNetRuns.CallersAreTold | crates/kamiroh-adapter-memory/src/lib.rs:207-322 | a send or a batch is reported accepted exactly when it puts something on the wire, and what it puts there is spelled out, the receipt under the id of the batch's request; an address is bound for the first comer only |
| MemoryNetRuns.ReceiversAreTold | crates/kamiroh-adapter-memory/src/lib.rs:391-403 | a poll answers with the delivery first in the mailbox and takes out that one, or says that there is none or that the mailbox is gone |
| Resurrection.NeverForAnEarlierDeath | crates/kamiroh-app/src/runtime.rs:414-449 | with the watch there from the start, in every run on the network, an exchange is failed as disconnected only for a kill that came after the last turn admitted in it was sent |
| Resurrection.AlwaysFair | crates/kamiroh-app/src/wait.rs:66-85 | at every moment each death queued or remembered is later than the last turn of every live exchange it would fail |
| Resurrection.EveryKillIsActedOn | crates/kamiroh-app/src/runtime.rs:423-435 | in every run each kill stands in the watch's queue until a step polls it, and that step remembers it and fails what its actor has under way there; nothing else takes it from the queue |
| Resurrection.TombstonesStand | crates/kamiroh-app/src/runtime.rs:446-449 | what is remembered dead stays so until a delivery from there is taken |
| Phones.Phone.Converse | crates/kamiroh-app/src/phone.rs:53-70 | a new handle is idle, waits for nothing and has sent nothing |
| Phones.Phone.Open | crates/kamiroh-app/src/phone.rs:85-87 | opening is sending the opening turn |
| Phones.Phone.SendTurn | crates/kamiroh-app/src/phone.rs:168-189 | a turn out of place is not sent and changes nothing; a send that is refused ends the exchange there and then; a send that leaves arms exactly the waits it creates |
| Phones.Phone.OnIncoming | crates/kamiroh-app/src/phone.rs:197-202 | a legal turn settles every wait; an illegal one changes nothing |
| Phones.Phone.NoteAck | crates/kamiroh-app/src/phone.rs:206-214 | the awaited ack settles its wait; the answer says whether anything changed |
| Phones.Phone.NextDue | crates/kamiroh-app/src/phone.rs:218-225 | the earliest armed wait, the ack when both fall due together |
| Phones.Phone.OnDeadlineElapsed | crates/kamiroh-app/src/phone.rs:234-240 | the earliest wait's kind is the cause; with nothing pending the exchange stands |
| Phones.Phone.OnPeerDeath | crates/kamiroh-app/src/phone.rs:247-254 | a live exchange with a peer at that endpoint fails; nothing else does |
| Phones.Phone.OnRevoked | crates/kamiroh-app/src/phone.rs:266-273 | the same, for a revocation |
| Phones.Phone.OpenMany | crates/kamiroh-app/src/phone.rs:107-149 | one batch is put to the transport and nothing else; a handle for each name, each as after a successful open at that instant, or none when the batch is refused |
| Phones.NeverStuck | crates/kamiroh-app/src/phone.rs:218-240 | in every reachable state there is a wait to race exactly when the peer's turn is awaited, and a deadline that elapses fails a live exchange, after which a fresh opening is legal |
| Phones.WaitsRunFromTheSend | crates/kamiroh-app/src/phone.rs:161-189 | whenever the peer's turn is awaited, it is because of one accepted send, the waits fall due exactly this side's patience after it, and no legal turn has been said since |
| Phones.FirstToRunOut | crates/kamiroh-app/src/phone.rs:218-225 | in every run the wait to race is the one that runs out first after the accepted send: the ack's if it has not come and its patience is not the longer, else the turn's |
| Phones.EachActDoes | crates/kamiroh-app/src/phone.rs:168-273 | what each act makes of a handle in any reachable state; a turn out of place, heard or said, and an ack not awaited change nothing |
| Phones.EndsExactlyBy | crates/kamiroh-app/src/phone.rs:168-273 | a live exchange ends if and only if the question awaited is closed, this side says a close or has a legal send refused, a wait elapses, or there is news of the peer's own endpoint |
| Phones.EndedForCause | crates/kamiroh-app/src/phone.rs:168-273 | over every run, an exchange that was under way and is no more was ended by one of those acts since |
| Phones.CallersAreTold | crates/kamiroh-app/src/phone.rs:168-202 | the caller is told whether the exchange continues or is concluded, that the transport refused, or why the turn is out of place |
| Phones.RefusedSendReopens | crates/kamiroh-app/src/phone.rs:157-167 | a refused send leaves nothing waited for, the state `Failed`, or `Idle` if it was the close, and a fresh opening legal at once |
| Phones.AsARuntimeWould | crates/kamiroh-app/src/phone.rs:168-202 | a handle keeps its conversation as a hosted actor does, turn for turn, but for an illegal turn of its own, which it declines and a runtime takes for the exchange's failure |
| FanOuts.BatchIsItsSends | crates/kamiroh-adapter-memory/src/lib.rs:242-322 | in every reachable network a batch to an inhabited endpoint leaves the traffic that its receipt and then each opening would have left, sent one by one, partition or not; where nobody lives it is refused and changes nothing |
| FanOuts.UnboundNamesAreSilent | crates/kamiroh-adapter-memory/src/lib.rs:302-312 | what the batch drops without a word is exactly what a single send would have refused |
| FanOuts.OpenManyOver | crates/kamiroh-app/src/phone.rs:107-149 | over the memory network the batch itself decides: the network is left as its own batch leaves it, and there are handles exactly when it was accepted |
| FanOuts.OpenEachOver | crates/kamiroh-app/src/phone.rs:85-87 | opening one by one over the memory network, at one instant: the traffic is that of the openings, a handle within reach is what fanning out would have given, and any other has failed |
| FanOuts.FanOutIsItsOpens | crates/kamiroh-app/src/phone.rs:89-149 | fanning out is opening one by one, traffic and handles alike: the network would accept a single opening exactly across a partition or at a bound name, and there opening on its own would leave the very handle fanned out, elsewhere a failed one |
| FanOuts.ReceiptNamesTheRequest | crates/kamiroh-adapter-memory/src/lib.rs:266-280 | an accepted batch puts one receipt on the wire, for the opener and under the id of the request that every opening carries; each handle is born waiting for that ack, and it settles the wait |
| FanOuts.ReceiptSettlesOnce | crates/kamiroh-app/src/phone.rs:89-103 | the one receipt settles the ack wait of every fanned conversation, and until the id is posed again no further ack of it settles anything |
| Parties.EchoParty.OnTurn | crates/kamiroh-app/src/parties.rs:40-57 | the body comes back in a close, which it is always this side's turn to say; a refused turn or a close gets nothing |
| Parties.EchoParty.OnExchangeFailed | crates/kamiroh-app/src/parties.rs:64-73 | that peer's shadow fails and no other's |
| Parties.CountdownParty.OnTurn | crates/kamiroh-app/src/parties.rs:106-140 | an answer, with a fresh question while any are left to this peer; the reply is always legal |
| Parties.CountdownParty.OnExchangeFailed | crates/kamiroh-app/src/parties.rs:144-153 | that peer's shadow fails, its countdown stands, and no other is touched |
| Parties.RepliesAreLegal | crates/kamiroh-app/src/parties.rs:52-56 | neither party's reply to a turn it takes in can be refused, so its `expect` never panics |
| PartyTheorems.ShadowsNeverDiverge | crates/kamiroh-app/src/parties.rs:59-73 | over every run of an actor hosting a stock party, each shadow equals the actor's own machine, no illegal reply is ever reported, and no conversation is left owing an answer |
| PartyTheorems.NoQuestionTwice | crates/kamiroh-app/src/parties.rs:122-132 | however it is called back, a countdown never asks one peer two questions with one id, for all that its byte counter wraps |
| PartyTheorems.EchoSaysItBack | crates/kamiroh-app/src/parties.rs:48-56 | echo answers every question in place with the very body that was asked, in a close |
| PartyTheorems.CountdownSaysItBack | crates/kamiroh-app/src/parties.rs:109-139 | however it was called back, a countdown answers with the body asked; having asked that peer `k` questions it asks the next under sixteen bytes `100 + k`, wrapped, with the rounds left as its body, or closes when none is left |
| PartyTheorems.SilentParties | crates/kamiroh-app/src/parties.rs:114-117 | a turn out of place and a close get no reply, and only a turn in place moves the shadow |
| Countdowns.CountdownConcludes | crates/kamiroh-app/src/parties.rs:85-140 | against a fresh countdown of `n` behind the reference runtime on a faultless network, in whatever order deliveries are taken: an app that closes on the `j`-th question is done after exactly `3j + 1` of them, with `2j + 1` turns and `j` acks; one that always asks again after `3n + 3`, with `2n + 2` turns and `n + 1` acks; each ack the one awaited, both machines idle and nothing left on the wire |
| Countdowns.DocumentedCount | crates/kamiroh-app/src/parties.rs:85-89 | the documented `2n + 1` turns come about if and only if the app closes on the last question |
| Countdowns.SomebodyCanMove | crates/kamiroh-app/src/runtime.rs:383-449 | until then one side can always take its next delivery |
| TestClocks.TestTimer.Advance | crates/kamiroh-adapter-memory/src/testing.rs:121-134 | the clock moves, exactly the sleeps now due are woken, in their order, and the others stay |
| TestClocks.TestTimer.Poll | crates/kamiroh-adapter-memory/src/testing.rs:160-174 | a due sleep is ready; one that is not parks its waker |
| TestClocks.NobodyOversleeps | crates/kamiroh-adapter-memory/src/testing.rs:121-134 | nobody is ever left asleep past its time |
| TestClocks.NoWakeupLost | crates/kamiroh-adapter-memory/src/testing.rs:144-174 | a sleep that was parked is still parked before its time, or an advance that reached its time has woken it |
| TestClocks.ClockReadsTheSpans | crates/kamiroh-adapter-memory/src/testing.rs:121-125 | the clock reads the sum of the spans by which it was moved |
| TestClocks.AdvancesInOrder | crates/kamiroh-adapter-memory/src/testing.rs:126-129 | an advance wakes exactly the sleeps whose time has come and keeps the others, each in the order in which they were parked |

## Left out

- The QUIC adapter (sockets, encoding, peer book, accept loop): its fan-in and batch receipt are those of the memory adapter; the rest belongs to its libraries.
- Harness commands: what `Spawn`, `Stop` and `Ping` do to the roster and registry, an actor stopping itself included; the harness's answer is any value. Replies, refusals and admission around it are modelled.
- LocalRuntimes.LocalRuntime.Receive: does not say what a harness command does to the roster, for the reason above.
- KameoHosts.KameoHost.HandleDeliver: does not say what a harness command does to the roster, for the reason above.
- LocalRuntimeTheorems.StepsAreReactions: a step that carries out a harness command is that step without its effect on the roster, so other actors come and go only between steps.
- Futures, pins, locks, wakers of the network, `block_on`, observer locking: one round of polls is one step, one Kameo handler is one step, and a task that fires while a handler awaits counts as having fired before it.
- Kameo's own machinery (spawning, pump tasks, the fan-out of a death to all hosts and its freshness): a host is given its mails in any order, and the claim about deaths is what the handler does when it runs.
- Time in the Kameo host: a running timer task may fire at any moment, which covers every duration.
- Records held by value: an actor of the reference runtime with its allowlist, and one conversation's state and waits in either runtime, are values in the owning object's maps that its methods replace, not objects updated through references; the Kameo host's allowlist and a handle's turn machine are objects.
- `Hex`, `Secret`, name validation, `Conversation`, error texts and `Display`: names, endpoints and bodies are values with equality; a request id's sixteen bytes matter only to the countdown.
- Resurrection.NeverForAnEarlierDeath: a step that waits through several rounds is taken as several steps, each but the last finding nobody ready; only what is killed through this network is a death.
- KameoTimers.AcceptedReportsAreCurrent: a task that fires during a handler counts as having fired before it, so the mail in hand counts towards the 2^64; a bounded mailbox may therefore hold 2^64 - 1, and an unbounded one is the case that `KameoWrap.OneMailTooMany` settles.
- Agreement.RuntimesAgree: the two runtimes arm a reply's waits on different sides of the send; what is compared is what each leaves behind, not the state in the middle of a handler.
- Countdowns.CountdownConcludes: the two sides and their network are alone, no wait is overdue when the runtime steps, and the app admits the countdown's endpoint.
- EngineTheorems.AlwaysSound: `OweThem` carries no deadline, in the code as in the model; an actor without a party, or whose party stays silent, can rest there.
