# Verification of the LRAUV simulation

A Dafny model of the parts of the LRAUV simulation in which state, order or arithmetic
decide correctness, with proofs of what those parts promise.

- **Acoustic network and two-way ranging.** `CommsPacket` (packets and their messages),
  `AcousticModel` (one vehicle's channel and the plugin that steps it), `RangeBearing` (the
  ranging plugin and its client), `Network` (all vehicles together, with messages
  delivered in any order), `RangeAccuracy` (the network under a simulation clock),
  `RangeAnswers` (that answers come).
  `Counting` counts elements of a sequence by a key.
- **Doppler velocity log.** `DvlRequests` (the system's methods), `DvlThreads` (simulation
  thread and rendering thread interleaved step by step), `DvlWorlds` (what the sensors read
  on such a run), `DvlScan` (ray layout and the search of a depth frame).
- **Lint tool.** `LintBrackets` (bracket matching over several lines, both ways),
  `LintAngles` (angle brackets read backward), `LintTemplates` (the look-ahead that tells a
  class declaration from a template argument),
  `LintBlocks` (what one line does to the block stack), `LintNesting` (the tracker with its
  preprocessor checkpoints), `LintBranches` (the branches of a conditional), `LintRegions`
  (whole files and their #else regions),
  `LintElseText` (a file whose #else text matters), `LintComments` (removal of multi-line
  comments).
- **Science data and observation.** `ScienceData` (table, time index, interpolation in
  time), `ModelObserver` (five deques over a time window), both by way of `Columns`.

Objects that change in place are classes whose methods are proved equal to functions on
values; runs, interleavings and whole networks are stated on those functions. A method
that a state machine uses as a step (`Step`, `OnRangeRequest`, `Handle`, `Collect`, ...) is
tied to the function that the state machine applies, so a change of either breaks a proof.
Times are integers in nanoseconds, lengths and speeds are reals, addresses and request ids
are 32-bit.

## What does not hold everywhere

Where the code falls short of what one would expect, the exact condition is proved,
mostly beside an input at which it fails.

- A client's ids repeat after 2^32 requests; a request keeps the books balanced exactly when
  its id is not pending (`AskKeepsBooksIffFresh`, `NextIdIsFresh`, `IdsComeAround`).
- A timestep that is not positive makes `AcousticCommsPlugin::PreUpdate` loop for ever
  (`NonPositiveTimestepNeverEnds`).
- The spacing of the DVL's rays stays within the configured resolution exactly when the
  rounded-up number of resolution steps is even (`StepKeepsResolutionIffEven`,
  `ThreeStepsAreTooWide`), although the comment at DopplerVelocityLog.cc:545-546 promises it always.
- A beam's scan patch ends a whole step before the footprint's upper edge
  (`ScannedIffAngle`), so the last ray row and column are never scanned
  (`LastRayIsNotScanned`).
- The time index of the science data moves by one slice an update; it keeps up exactly when
  time does not reach the slice after next (`AdvanceBracketsIff`, `StepOverTwoStamps`), and
  catches up at one slice an update (`IndexCatchesUp`). The value jumps at a hand-over
  exactly when two stamps are closer than the tolerance and disagree
  (`HandOverIsContinuousIff`, `CloseStampsJump`).
- Text after `#else` can decide what the lint tool makes of a class declared before it,
  since `InTemplateArgumentList` reads on into it. The text does not matter when every class
  declaration is settled, that is, when the look-ahead is decided before the next region
  (`FileWithoutRegions`, `ElseTextIsIrrelevant`); a declaration that is not settled is
  judged both ways by two texts, and the first such changes the state
  (`UnsettledDependsOnElse`, `UnsettledChangesStack`, `ElseTextCanMatter`).
  `SkippedTracks` and `ElseRegionsDoNotCount` are about something else: not calling `Update`
  for the lines of a region, with the text left in the file.
- The observer's deques fall out of step exactly when the model is found without its base
  link (`ModelObserver.Update`).

## Model

| member | source | states |
|---|---|---|
| CommsPacket.PacketSurvives | lrauv_ignition_plugins/src/comms/CommsPacket.cc:116-243 | a packet comes back unchanged from the internal message, time stamp and unsigned addresses included, also for times before the epoch; an external message comes back from the packet made of it |
| CommsPacket.MessagesSay | lrauv_ignition_plugins/src/comms/CommsPacket.cc:88-173 | both messages carry the packet's payload and kind, the external one its addresses, the internal one its position and its addresses up to multiples of 2^32 |
| CommsPacket.ReqIdReadsBack | lrauv_ignition_plugins/src/RangeBearingPlugin.cc:128-131 | a ranging payload reads back its request id, any other payload zero |
| CommsPacket.StampIsNormalised | lrauv_ignition_plugins/src/comms/CommsPacket.cc:165-200 | the seconds and nanoseconds of the stamp add up to the time, the nanoseconds are below one second, and both have the sign of the time |
| AcousticModel.SimpleAcousticModel.Step | lrauv_ignition_plugins/src/comms/models/SimpleAcousticModel.cc:94-123 | in-place compaction: what stays are the packets that sound, at speedOfSound metres a second for the nanoseconds since they were sent, has not yet brought here, in their order; what is handed over, in queue order, are those it has brought whose distance is within the range |
| AcousticModel.StepSorts | lrauv_ignition_plugins/src/comms/models/SimpleAcousticModel.cc:94-123 | the same of the values the channel's runs are stated on, with speed times time written out |
| AcousticModel.QueueIsOpenFates | lrauv_ignition_plugins/src/comms/models/SimpleAcousticModel.cc:73-123 | after any run of the channel the queue is exactly the accepted packets whose own fate is still open, in order of acceptance: nothing is lost, doubled, overtaken or affected by other packets |
| AcousticModel.HandedOverIsSettled | lrauv_ignition_plugins/src/comms/models/SimpleAcousticModel.cc:94-123 | each step hands over exactly the packets whose fate that step settles as delivered, so each is delivered at most once |
| AcousticModel.FateIsFirstArrival | lrauv_ignition_plugins/src/comms/models/SimpleAcousticModel.cc:85-123 | a fate is settled by the first step at which speed times the time since transmission, written out in metres a second and nanoseconds, is the distance or more, never earlier; it is a loss exactly when the packet is then beyond the maximum range |
| AcousticModel.SurvivorsOfSurvivors | lrauv_ignition_plugins/src/AcousticCommsPlugin.cc:342-352 | two steps at one place leave the same queue as the later one alone |
| AcousticModel.DeliveredInTwoSteps | lrauv_ignition_plugins/src/AcousticCommsPlugin.cc:342-352 | two steps at one place hand over, between them, the same packets as the later one alone |
| AcousticModel.ClockOvershoots | lrauv_ignition_plugins/src/AcousticCommsPlugin.cc:342-352 | with h the lesser of timestep and dt: the clock ends a multiple of h on, in [simTime + dt, simTime + dt + h), at simTime + dt exactly when h divides dt, and the last substep runs before the end |
| AcousticModel.NonPositiveTimestepNeverEnds | lrauv_ignition_plugins/src/AcousticCommsPlugin.cc:342-352 | the loop reaches its end exactly for a positive timestep |
| AcousticModel.AcousticCommsPlugin.OnMessageSendReq | lrauv_ignition_plugins/src/AcousticCommsPlugin.cc:107-136 | what is put on the bus reads back as the message stamped with this vehicle's position and clock |
| AcousticModel.AcousticCommsPlugin.PreUpdate | lrauv_ignition_plugins/src/AcousticCommsPlugin.cc:302-354 | nothing happens when paused or without a pose; otherwise clock and position are taken over and the channel is stepped, once or in substeps, with the same queue and the same packets handed over as one step at the last substep time |
| RangeBearing.RangeBearingPlugin.OnRangeRequest | lrauv_ignition_plugins/src/RangeBearingPlugin.cc:148-164 | the request is sent under this vehicle's address and its id is noted with the current time |
| RangeBearing.RangeBearingPlugin.OnReceiveCommsMsg | lrauv_ignition_plugins/src/RangeBearingPlugin.cc:121-145 | a request is queued as a ping with the time of reception, a response is answered once, other kinds change nothing |
| RangeBearing.RangeBearingPlugin.PublishResponse | lrauv_ignition_plugins/src/RangeBearingPlugin.cc:167-178 | the range is half the distance sound covers in the time since the request less the processing delay, and the id is forgotten |
| RangeBearing.AnswerIsHalfWay | lrauv_ignition_plugins/src/RangeBearingPlugin.cc:173-178 | with the arithmetic written out: half of speedOfSound times the nanoseconds since the request less the processing delay, over 10^9; an id that is not noted counts from the epoch |
| RangeBearing.RangeBearingPlugin.PreUpdate | lrauv_ignition_plugins/src/RangeBearingPlugin.cc:288-341 | nothing happens when paused or without a pose; otherwise the clock is taken over and the pings at the front that are due are answered, in order |
| RangeBearing.QueueStaysInOrder | lrauv_ignition_plugins/src/RangeBearingPlugin.cc:121-178 | no callback breaks the order of the ping queue by time of reception |
| RangeBearing.NoPingWaitsInLine | lrauv_ignition_plugins/src/RangeBearingPlugin.cc:312-340 | with the queue in order, a ping is answered in an update if and only if its reception lies the processing delay or more before the clock |
| RangeBearing.LatePingHoldsUpEarlyOne | lrauv_ignition_plugins/src/RangeBearingPlugin.cc:312-340 | out of order, a due ping behind one that is not due is held up |
| RangeBearing.NextIdIsFresh | lrauv_system_tests/include/lrauv_system_tests/Client.hh:61-76 | up to the 2^32-th request the next id has no pending promise |
| RangeBearing.IdsComeAround | lrauv_system_tests/include/lrauv_system_tests/Client.hh:61-90 | a new client whose first request is never answered, and each later one before the next, asks with a pending id after exactly 2^32 requests and not before |
| RangeBearing.Client.Request | lrauv_system_tests/include/lrauv_system_tests/Client.hh:61-76 | the id published is the old counter, which is stepped, and its promise is pending |
| RangeBearing.Client.OnResponse | lrauv_system_tests/include/lrauv_system_tests/Client.hh:78-90 | a promise is fulfilled exactly when it was pending, and is then gone |
| Network.AskKeepsBooksIffFresh | lrauv_system_tests/include/lrauv_system_tests/Client.hh:61-76 | asking keeps the books of its id balanced exactly when no promise with that id is pending |
| Network.StepKeepsBooks | lrauv_ignition_plugins/src/RangeBearingPlugin.cc:121-178 | every event of the network keeps the books balanced for every request: tokens on their way plus losses equal what is waited for; promises equal requests not taken up, waited for, or answers not delivered; requests made equal those not taken up, waited for, or answered |
| Network.BooksBalanceAlways | lrauv_ignition_plugins/src/RangeBearingPlugin.cc:121-341 | the books balance in every state of every run with fresh ids, messages being delivered in any order |
| Network.OneTokenPerRequest | lrauv_ignition_plugins/src/RangeBearingPlugin.cc:161-178 | in every such state an id that is waited for has exactly one token on its way or one loss, an id that is not has none, and answers never outnumber requests |
| Network.NoLookUpMisses | lrauv_ignition_plugins/src/RangeBearingPlugin.cc:173-176 | in every such state a response on its way finds its id in the transmission times, and an answer on its way its pending promise |
| Network.FewAskedIsFresh | lrauv_system_tests/include/lrauv_system_tests/Client.hh:61-76 | runs from new clients that ask at most 2^32 times each have fresh ids throughout |
| RangeAccuracy.AlwaysGood | lrauv_ignition_plugins/src/RangeBearingPlugin.cc:121-341 | the time windows, the books and the order of the ping queues hold in every state of every scheduled run |
| RangeAccuracy.PublishedRangeIsAccurate | lrauv_ignition_plugins/src/RangeBearingPlugin.cc:161-178 | on every scheduled run with standing vehicles a published range comes from the vehicle that was asked, is never below the distance to it and never more than one and a half ticks of sound above it |
| RangeAnswers.AnswerComesInTime | lrauv_ignition_plugins/src/RangeBearingPlugin.cc:161-178 | on every scheduled run with standing vehicles, at the end of every tick, a request within range is still waited for only while sound has covered, since it was sent and less the processing delay, at most twice the distance and two ticks more; so where sound moves it is answered by then |
| RangeAnswers.NotWaitedForIsAnswered | lrauv_ignition_plugins/src/RangeBearingPlugin.cc:161-178 | at the end of a tick a client's promise is pending exactly when its vehicle still waits for that id, and every other request with the id has been answered |
| RangeAnswers.DeliveriesRunOut | lrauv_ignition_plugins/src/RangeBearingPlugin.cc:121-178 | each delivery leaves fewer deliveries to come, so the callbacks of a tick end and the next tick can begin |
| DvlRequests.DopplerVelocityLogSystem.DoPreUpdate | lrauv_ignition_plugins/src/DopplerVelocityLogSystem.cc:217-273 | each new DVL sensor adds a creation request, in order, and becomes known |
| DvlRequests.DopplerVelocityLogSystem.DoPostUpdate | lrauv_ignition_plugins/src/DopplerVelocityLogSystem.cc:276-336 | earlier requests, a removed known sensor or a due update make a batch that ends with the world state that follows from the report, and raise the flag; otherwise nothing is queued |
| DvlRequests.CollectedFollows | lrauv_ignition_plugins/src/DopplerVelocityLogSystem.cc:280-312 | the world state after a report: a reported entity that is not removed has exactly the reported kinematics, an unreported one keeps its own, a removed one is absent, and there is no other |
| DvlRequests.DestructionsAt | lrauv_ignition_plugins/src/DopplerVelocityLogSystem.cc:294-305 | the destructions are those of the known sensors among the removed ones, in the order visited, each once |
| DvlRequests.CreationSays | lrauv_ignition_plugins/src/DopplerVelocityLogSystem.cc:362-406 | HandleCreateSensor sensor by sensor and entry by entry: what a creation adds, that it never overwrites an entry, and that one that fails changes nothing |
| DvlRequests.DestructionSays | lrauv_ignition_plugins/src/DopplerVelocityLogSystem.cc:409-433 | HandleDestroySensor sensor by sensor and entry by entry: a destruction takes the entity's entry and the sensor named there |
| DvlRequests.WorldStateSays | lrauv_ignition_plugins/src/DopplerVelocityLogSystem.cc:435-445 | HandleSetWorldState: every sensor the index names holds the world state, every other is as before, and an update is asked for |
| DvlRequests.BatchAsksForUpdate | lrauv_ignition_plugins/src/DopplerVelocityLogSystem.cc:448-473 | after a batch that ends with a world state the sensors are due to be updated |
| DvlRequests.DopplerVelocityLogSystem.OnPreRender | lrauv_ignition_plugins/src/DopplerVelocityLogSystem.cc:448-473 | with the flag up, the whole queue is taken and handled in order; with the flag down, nothing changes |
| DvlRequests.DopplerVelocityLogSystem.OnRender | lrauv_ignition_plugins/src/DopplerVelocityLogSystem.cc:476-506 | when an update is needed and the scene is ready, the sensors that fire are noted in the order visited and the need is cleared |
| DvlRequests.FiredAt | lrauv_ignition_plugins/src/DopplerVelocityLogSystem.cc:484-497 | the sensors noted are those visited that fire, in the order visited |
| DvlRequests.FiredIff | lrauv_ignition_plugins/src/DopplerVelocityLogSystem.cc:484-497 | an id is noted exactly when the index names it and it fires |
| DvlRequests.FiredOnce | lrauv_ignition_plugins/src/DopplerVelocityLogSystem.cc:484-497 | where no two entities share a sensor none is noted twice |
| DvlRequests.RenderingSays | lrauv_ignition_plugins/src/DopplerVelocityLogSystem.cc:476-506 | rendering notes what fires once after each request for an update, if the scene is ready, and otherwise changes nothing |
| DvlRequests.DopplerVelocityLogSystem.OnPostRender | lrauv_ignition_plugins/src/DopplerVelocityLogSystem.cc:509-520 | every noted sensor reads the state of its own entity, and no sensor stays noted |
| DvlRequests.PublishingSays | lrauv_ignition_plugins/src/DopplerVelocityLogSystem.cc:509-520 | no sensor stays noted; looking up targets changes nothing that a world state holds and adds an unknown state for what it does not, in the updated sensors only |
| DvlRequests.DopplerVelocityLogSystem.OnRenderTeardown | lrauv_ignition_plugins/src/DopplerVelocityLogSystem.cc:523-545 | all indexed sensors are removed and the index is empty |
| DvlThreads.PreRenderIsSteps | lrauv_ignition_plugins/src/DopplerVelocityLogSystem.cc:448-473 | OnPreRender, when nothing comes in between, is the steps of taking the flag, draining the queue and handling every request in order |
| DvlThreads.PhasesGoRound | lrauv_ignition_plugins/src/DopplerVelocityLogSystem.cc:448-520 | which step follows which on the rendering thread, and that OnPreRender does nothing with the flag down |
| DvlThreads.StepKeepsCoherent | lrauv_ignition_plugins/src/DopplerVelocityLogSystem.cc:217-545 | every step of either thread keeps: no request lost, doubled or reordered; a queued request is signalled or about to be; batches whole; snapshots covering the known sensors; index, log and live sensors in agreement |
| DvlThreads.AlwaysCoherent | lrauv_ignition_plugins/src/DopplerVelocityLogSystem.cc:217-545 | that holds in every state of every interleaving |
| DvlThreads.BatchStaysLinked | lrauv_ignition_plugins/src/DopplerVelocityLogSystem.cc:448-473 | in a coherent state, handling any part of the queue with fresh sensor ids leaves no index entry dangling, which is what OnPreRender requires of its queue |
| DvlThreads.NewIsNotIndexed | lrauv_ignition_plugins/src/DopplerVelocityLogSystem.cc:401-402 | the entity about to be inserted has no entry yet, so the insertion that would not overwrite never meets an old one |
| DvlThreads.SensorFindsItself | lrauv_ignition_plugins/src/DopplerVelocityLog.cc:986-987 | whenever no batch is half handled, every live sensor's entity is in the world state that sensor holds |
| DvlThreads.NothingDangles | lrauv_ignition_plugins/src/DopplerVelocityLogSystem.cc:435-506 | every sensor the index names is live, so is every one that fires |
| DvlThreads.UpdatedSensorsCanPublish | lrauv_ignition_plugins/src/DopplerVelocityLog.cc:986-987 | on every interleaving, when updated sensors publish, each is live and finds its own entity in its world state |
| DvlWorlds.AlwaysDated | lrauv_ignition_plugins/src/DopplerVelocityLogSystem.cc:276-336 | on every interleaving the world state of the simulation thread, and every one ever requested, is the last word on each entity of all the reports made by then |
| DvlWorlds.ReadingIsLastReport | lrauv_ignition_plugins/src/DopplerVelocityLogSystem.cc:276-520 | on every interleaving an updated sensor reads the last word on its entity of all the reports made when the last request handled by its thread was made |
| DvlScan.FieldOfViewFits | lrauv_ignition_plugins/src/DopplerVelocityLog.cc:104-118 | the field of view contains every beam's footprint and is its own mirror image |
| DvlScan.FieldOfViewIsLeast | lrauv_ignition_plugins/src/DopplerVelocityLog.cc:537-544 | no smaller patch is both |
| DvlScan.RayCountIsLeast | lrauv_ignition_plugins/src/DopplerVelocityLog.cc:556-570 | the number of rays is the least odd number of resolutions that is not below the size of the field of view |
| DvlScan.TruncatedDropsFraction | lrauv_ignition_plugins/src/DopplerVelocityLog.cc:80-88 | a patch's integer corners drop the fraction towards zero |
| DvlScan.MiddleRayIsAtZero | lrauv_ignition_plugins/src/DopplerVelocityLog.cc:534-577 | wherever the beams point, in a field of view wider than the resolution the middle ray of an odd number looks along the main axis, horizontally and vertically |
| DvlScan.StepKeepsResolutionIffEven | lrauv_ignition_plugins/src/DopplerVelocityLog.cc:546-577 | the rays are as close as the configured resolution exactly when the rounded-up number of resolution steps is even |
| DvlScan.ThreeStepsAreTooWide | lrauv_ignition_plugins/src/DopplerVelocityLog.cc:546-577 | a field of view three resolutions wide gets three rays, one and a half resolutions apart |
| DvlScan.ScannedIffAngle | lrauv_ignition_plugins/src/DopplerVelocityLog.cc:579-585 | the rays scanned for a footprint are exactly those above its lower edge less a step and at most a step below its upper edge |
| DvlScan.LastRayIsNotScanned | lrauv_ignition_plugins/src/DopplerVelocityLog.cc:579-585 | the last ray of a field of view lies in every footprint that reaches its edge, and is not scanned for it |
| DvlScan.PatchScansFootprint | lrauv_ignition_plugins/src/DopplerVelocityLog.cc:537-585 | in a field of view wider than the resolution a pixel is in a footprint's scan patch exactly when its ray is scanned on both axes |
| DvlScan.DopplerVelocityLog.LayOutRays | lrauv_ignition_plugins/src/DopplerVelocityLog.cc:534-585 | for any beams with positive apertures, rays and scan patches are laid out so that every scanned pixel is in the image, and the last row and column are not even reached |
| DvlScan.ScanBeam | lrauv_ignition_plugins/src/DopplerVelocityLog.cc:832-882 | the nested loops find the nearest finite in-aperture point of the patch, the first in row order among equals, or none if there is none |
| DvlScan.DopplerVelocityLog.OnNewFrame | lrauv_ignition_plugins/src/DopplerVelocityLog.cc:811-883 | after a frame every beam's target is right for that frame alone: stale targets do not survive |
| DvlScan.RightIsUnique | lrauv_ignition_plugins/src/DopplerVelocityLog.cc:862-880 | there is only one right target |
| LintBrackets.PrimeIsPrimeBack | tools/cpplint.py:1525-1721 | read forwards, the first closer that empties the stack ends the text that, read backwards, the first opener that empties the stack begins |
| LintBrackets.MatchIsUnique | tools/cpplint.py:1603-1759 | a bracket has at most one partner |
| LintBrackets.SkippedIsNoBracket | tools/cpplint.py:1673-1688 | the character the backward scanner skips is never a bracket |
| LintBrackets.OperatorEndsIff | tools/cpplint.py:1546-1552 | a text is taken to end in an operator's name exactly when it ends, white space apart, in the word operator |
| LintBrackets.SpacedIff | tools/cpplint.py:1669-1671 | a text is taken for a spaced comparison exactly when it begins with white space, >= and white space |
| LintBrackets.CharactersAre | tools/cpplint.py:1546-1671 | which characters are white space and which are of words |
| LintBrackets.FindEndOfExpressionInLine | tools/cpplint.py:1525-1600 | one line of the forward search finds the plain match, gets stuck, or goes on, as plain matching does |
| LintBrackets.FindStartOfExpressionInLine | tools/cpplint.py:1647-1721 | one line of the backward search likewise |
| LintBrackets.CloseExpression | tools/cpplint.py:1603-1644 | for (, [ and { in any text the position returned is that of the partner under plain matching, and failure means there is none |
| LintBrackets.ReverseCloseExpression | tools/cpplint.py:1724-1759 | for ), ] and } likewise backwards |
| LintBrackets.ReopenAfterClose | tools/cpplint.py:1603-1759 | closing a bracket and reopening the closer found leads back to the same line and column, whenever there is a closer |
| LintBrackets.CloseAfterReopen | tools/cpplint.py:1603-1759 | and conversely |
| LintBrackets.GetTextInside | tools/cpplint.py:4588-4641 | the text returned is what lies between the bracket that ends the pattern's match and its partner under plain matching, and nothing is returned exactly when there is no match or no partner |
| LintBrackets.TextInsideIsClosed | tools/cpplint.py:1603-4641 | on one line it agrees with CloseExpression: there is a text exactly when a closer is found, and it is what lies before that |
| LintNesting.NestingState.UpdatePreprocessor | tools/cpplint.py:2525-2579 | the stacks after a directive line, checkpoints included, of which the lemmas of LintBranches and LintNesting speak |
| LintNesting.NestingState.Update | tools/cpplint.py:2582-2744 | the tracker's state after a line is what the lemmas below speak of: directive, parentheses, namespaces, class declaration with its look-ahead over the following lines, colon, access keyword and tokens, in the order of the method |
| LintBranches.ElseGoesBack | tools/cpplint.py:2525-2579 | in any file, at an #else or #elif of any depth, the stack is what that line makes of the stack from before the #if it belongs to |
| LintBranches.BranchStandsAlone | tools/cpplint.py:2525-2579 | and at every line of the branch, with whatever conditionals inside, it is what the branch alone makes of the stack from before that #if |
| LintNesting.SkippedTracks | tools/cpplint.py:2525-2744 | on any file the tracker that is updated with every line relates to the one that is not updated in #else regions: equal outside them, checkpointed inside them |
| LintNesting.ElseRegionsDoNotCount | tools/cpplint.py:2525-2744 | where no #else region is open the two have the same block stack and the same preprocessor stack, to any depth and for any nesting |
| LintTemplates.InTemplateArgumentList | tools/cpplint.py:2473-2523 | the loop over the following lines returns true exactly for the verdict Inside of the look-ahead on values, which the lemmas below are about |
| LintTemplates.FirstTokenDecides | tools/cpplint.py:2484-2523 | over any number of lines the first of {};=[].<> decides: {, } and ; against a template, >, =, [, ] and . for one, and < sends the look-ahead on behind what closes it, or to no if nothing does |
| LintTemplates.AngleCloses | tools/cpplint.py:1525-1600 | an angle bracket in text in which all four kinds of brackets nest, on any number of lines, closes where it does |
| LintTemplates.OperatorsPass | tools/cpplint.py:1525-1600 | arrows, shifts and the names of comparison operators are no angle brackets |
| LintTemplates.ClosingEnds | tools/cpplint.py:1560-1590 | a closing bracket ends the angle brackets begun last and then the bracket below, if that is its own, or the search |
| LintAngles.AngleOpens | tools/cpplint.py:1647-1721 | a closing angle bracket in text in which all four kinds of brackets nest, on any number of lines, opens where it does |
| LintAngles.OperatorsPassBack | tools/cpplint.py:1666-1688 | read backward, arrows, spaced comparisons, the operator's name and shifts are passed over whole |
| LintTemplates.LookAheadGoesOn | tools/cpplint.py:2473-2523 | the look-ahead over a text and more lines is what it finds in the text, or, if that decides nothing, what it finds when resumed in the rest with the brackets then open |
| LintTemplates.IndependentIffDecided | tools/cpplint.py:2473-2523 | the verdict is the same whatever lines follow exactly when the text decides it |
| LintBlocks.LineIsEvents | tools/cpplint.py:2606-2744 | up to what changes while a block is innermost, a line does to the block stack exactly what its declarations and tokens do, one after the other |
| LintBlocks.NamespacesSay | tools/cpplint.py:2629-2647 | each namespace of a line is one more block on what was there, its brace seen if it is on the line |
| LintBlocks.ClassSays | tools/cpplint.py:2649-2689 | a class opens a block exactly if the innermost block has no open parentheses after the line is counted and the look-ahead does not refuse it; with default access public for a struct and private for a class |
| LintBlocks.ClosingSays | tools/cpplint.py:2728-2744 | a closing brace drops one block if there is one; a semicolon or a closing parenthesis drops a waiting declaration and nothing else |
| LintBlocks.OpeningSays | tools/cpplint.py:2707-2727 | an opening brace is the waiting declaration's; otherwise it opens a linkage block for an extern, an assembly block, or a plain one |
| LintBlocks.TokensInTurn | tools/cpplint.py:2707-2744 | the tokens of a line act one after the other |
| LintBlocks.DepthIsBraces | tools/cpplint.py:2707-2744 | the depth that the theorems below speak of is the number of opening braces less that of closing ones |
| LintBlocks.StackIsOpenBraces | tools/cpplint.py:2629-2744 | when declarations are followed by their braces and no brace is closed that was not opened, the stack is what was there, the block of each brace still open at its depth, with what was declared before it, and the declaration that waits for a brace |
| LintBlocks.TokensKeepStack | tools/cpplint.py:2707-2744 | tokens whose braces, counted on the tokens, never close more than they open leave the stack below untouched and one open block a brace still open; balanced ones leave the stack unchanged |
| LintBlocks.QuietLinesChangeTop | tools/cpplint.py:2606-2689 | lines without declarations and tokens change no block but the innermost |
| LintBlocks.QuietLinesAddUp | tools/cpplint.py:2606-2689 | over any number of such lines the innermost block gathers all their parentheses; a class has the access of the last access keyword, and is derived exactly if it was or a bare colon came before its brace |
| LintBlocks.InAsmIff | tools/cpplint.py:2617-2627 | over such lines a block is inside an assembly statement exactly if a line entered one and the parentheses have been open since, and leaves it with the line that closes them |
| LintRegions.FileWithoutRegions | tools/cpplint.py:2525-2744 | a file whose class declarations are settled, that is, decided before the next #else region, ends in the state that the file without the text of its #else regions ends in, the lines' numbers aside |
| LintRegions.ElseTextIsIrrelevant | tools/cpplint.py:2525-2744 | two settled files that differ only in the text of such regions, of whatever length, end in the same state, the lines' numbers aside |
| LintRegions.UnsettledDependsOnElse | tools/cpplint.py:2473-2675 | a declaration that is not settled is judged a class with one text in the next #else region and a template argument with another, with nothing changed outside |
| LintRegions.UnsettledChangesStack | tools/cpplint.py:2525-2744 | where the first such declaration opens a class, the two texts leave stacks of different height right after its line |
| LintElseText.ElseTextCanMatter | tools/cpplint.py:2473-2675 | six lines in which one character of #else text decides whether the file ends in a class or in a plain block |
| LintRegions.StackIsOpenBlocks | tools/cpplint.py:2525-2744 | after any line of a file outside #else regions the stack is as high as braces are open, plus a declaration that waits, and is the blocks of the braces still open in the lines that count, each with what was declared before it, and the declaration that waits |
| LintRegions.FileDepthIsBraces | tools/cpplint.py:2606-2744 | the depth of a file is the number of braces opened less those closed on the lines that count, namespaces included |
| LintRegions.BalancedLeavesNothing | tools/cpplint.py:2525-2744 | a file that closes what it opens leaves an empty stack, whatever its conditionals |
| LintComments.OpensIffOpening | tools/cpplint.py:1373-1377 | a line is taken to open a comment that goes on exactly when, behind white space, it begins with a comment's opening and holds no end of one after that |
| LintComments.ClosesIffClosing | tools/cpplint.py:1384-1385 | a line is taken to close one exactly when it ends with a comment's end, white space apart |
| LintComments.FindNextMultiLineCommentStart | tools/cpplint.py:1370-1378 | the next line that begins a comment it does not end, or the number of lines |
| LintComments.FindNextMultiLineCommentEnd | tools/cpplint.py:1381-1387 | the next line that ends with a comment's end, or the number of lines |
| LintComments.RemoveMultiLineComments | tools/cpplint.py:1398-1411 | the lines after the pass, and the unterminated comment reported, are those of the value-level pass; the loop ends and the number of lines stays |
| LintComments.PassIsOneReading | tools/cpplint.py:1398-1411 | the pass is one reading from top to bottom: every line from a comment's opening to its end becomes /**/, every other stays, and a comment that goes on to the end of the file is kept and reported by its first line |
| LintComments.CleaningIsIdempotent | tools/cpplint.py:1398-1411 | a second pass changes nothing and reports the same, also when the pass stops at an unterminated comment |
| LintComments.NoTerminatedCommentIsLeft | tools/cpplint.py:1398-1411 | after the pass a comment that still begins has no end |
| LintComments.OnlyCommentsChange | tools/cpplint.py:1398-1411 | a line that changed lies in a comment that begins and ends in the text |
| ScienceData.ScienceSensorsSystem.ReadData | lrauv_ignition_plugins/src/ScienceSensorsSystem.cc:389-609 | after the first load the time stamps and the seven arrays are the columns of one table, and every place is the local position of its coordinates with the depth negated |
| ScienceData.StampsAreFirstAppearances | lrauv_ignition_plugins/src/ScienceSensorsSystem.cc:481-512 | the time stamps are the distinct times of the file in order of first appearance |
| ScienceData.ReadGroups | lrauv_ignition_plugins/src/ScienceSensorsSystem.cc:435-600 | each slice holds exactly the located rows of its time, in file order, and no datum has an unlisted time |
| ScienceData.ArraysHoldRows | lrauv_ignition_plugins/src/ScienceSensorsSystem.cc:435-600 | after reading, index i of slice k is the i-th located row of time k, in every array |
| ScienceData.RowAddsDatumIff | lrauv_ignition_plugins/src/ScienceSensorsSystem.cc:555-600 | a row adds a datum exactly if it has a time and none of its three coordinates is NaN |
| ScienceData.ScienceSensorsSystem.FollowTime | lrauv_ignition_plugins/src/ScienceSensorsSystem.cc:751-757 | the time index moves on by one slice exactly when the next stamp is reached |
| ScienceData.ReachedSays | lrauv_ignition_plugins/src/ScienceSensorsSystem.cc:751-757 | a time has reached the numbers not above it and minus infinity, never infinity or what is no number |
| ScienceData.AdvanceBracketsIff | lrauv_ignition_plugins/src/ScienceSensorsSystem.cc:751-757 | the index still brackets the time after an update exactly when the slice after next has not been reached |
| ScienceData.StepOverTwoStamps | lrauv_ignition_plugins/src/ScienceSensorsSystem.cc:751-757 | a step over two stamps, after which the index is behind |
| ScienceData.IndexAlwaysBrackets | lrauv_ignition_plugins/src/ScienceSensorsSystem.cc:751-757 | so it brackets the time after every update of a run whose steps are no longer than any gap between stamps |
| ScienceData.IndexCatchesUp | lrauv_ignition_plugins/src/ScienceSensorsSystem.cc:718-757 | from any index behind the time it gains one slice an update while time stays in one slice, and brackets the time once it has gained them all |
| ScienceData.ScienceSensorsSystem.InterpolateInTime | lrauv_ignition_plugins/src/ScienceSensorsSystem.cc:326-386 | the value is that of the current index, and when the index brackets the time it is between the current slice and the next, or the last slice's own |
| ScienceData.InterpolatedAlwaysBetween | lrauv_ignition_plugins/src/ScienceSensorsSystem.cc:326-386 | so on every such run the value at every update lies between those of the two slices around the time, or is the last slice's own |
| ScienceData.InterpolationIsContinuous | lrauv_ignition_plugins/src/ScienceSensorsSystem.cc:326-386 | on every such run, at a fixed point where slices differ by at most a slope times their gap, and not at all if closer than the tolerance, the values at any two updates differ by at most that slope times the time between, hand-overs included |
| ScienceData.InterpolatedIsKnownIff | lrauv_ignition_plugins/src/ScienceSensorsSystem.cc:326-386 | exactly when there is a value: the current slice is known and, if there is a next one, it has interpolators there and is known too unless the stamps nearly coincide; the last slice, and a slice at its own stamp, give their own value |
| ScienceData.InterpolatedIsWeighted | lrauv_ignition_plugins/src/ScienceSensorsSystem.cc:326-386 | between two known slices the value times their distance in time is the sum of their values, each times the time to the other's stamp |
| ScienceData.CloserSays | lrauv_ignition_plugins/src/ScienceSensorsSystem.cc:365-369 | when stamps count as closer than the tolerance, infinities and what is no number included |
| ScienceData.HandOverIsContinuousIff | lrauv_ignition_plugins/src/ScienceSensorsSystem.cc:326-386 | at the moment the index moves on, both slices give the same value exactly when the stamps are the tolerance apart or the slices agree |
| ScienceData.CloseStampsJump | lrauv_ignition_plugins/src/ScienceSensorsSystem.cc:326-386 | two stamps closer than the tolerance, with different estimates: the value jumps |
| ModelObserver.ModelObserver.Update | lrauv_system_tests/src/ModelObserver.cc:44-74 | the five deques stay the columns of the same observations, trimmed to the window; they fall out of step exactly when the model is there without its base link |
| ModelObserver.DequesMatch | lrauv_system_tests/src/ModelObserver.cc:44-74 | index i of each deque is its field of the i-th observation |
| ModelObserver.AllIsKept | lrauv_system_tests/src/ModelObserver.cc:62-72 | without a window every observation is kept |
| ModelObserver.KeptIsWindow | lrauv_system_tests/src/ModelObserver.cc:44-74 | with times in order and a fixed positive window, what is kept after any update is exactly the observations no older than the latest minus the window |
| ModelObserver.TrimmingEmptiesIffNegative | lrauv_system_tests/src/ModelObserver.cc:64-72 | the loop keeps the latest observation; with times in order it would empty the deques exactly for a negative window |

## Left out

- AcousticModel.AcousticCommsPlugin.PreUpdate: requires a positive timestep when there is one and dt is positive; for others the loop does not end, as stated by NonPositiveTimestepNeverEnds.
- AcousticModel.DeliveredInTwoSteps: the order in which packets of different substeps are handed over is not that of a single step; only the multiset is claimed.
- Network.BooksBalanceAlways: each callback is one step; the race that the temporary lock at AcousticCommsPlugin.cc:113 and the missing lock of OnReceiveCommsMsg allow is not modelled.
- RangeAccuracy.PublishedRangeIsAccurate: vehicles stand still, there is no timestep, speed of sound and processing delay are the same everywhere, and callbacks run between the updates of one tick and the next; ids are fresh.
- RangeAnswers.AnswerComesInTime: says what holds at the end of a tick; that every plugin is updated in every tick, so that ticks do end, is up to the simulator.
- RangeBearing.RangeBearingPlugin.PublishResponse: bearing, elevation and azimuth are not modelled, nor is the position a response carries.
- DvlThreads.StepKeepsCoherent: nextUpdateTime, which one thread writes and the other reads without a lock, is an arbitrary "due" flag; simTime, likewise shared, is not modelled.
- DvlThreads.UpdatedSensorsCanPublish: relies on the entity manager reporting a new sensor once, a tracked entity until it is removed, and a removed sensor among the removed custom sensors.
- DvlRequests.DopplerVelocityLogSystem.OnPreRender: requires that handling the queue meets no dangling index entry, which the original would dereference; BatchStaysLinked proves it of every state that can be reached.
- DvlRequests.DopplerVelocityLogSystem.DoPostUpdate: whether an update is due is a flag, not a comparison of times, and the forced render that follows is not modelled.
- DvlRequests.DopplerVelocityLogSystem.OnRender: which sensors fire is an input, and the next update time the loop computes is not modelled.
- DvlRequests.DopplerVelocityLogSystem.HandleCreateSensor: the sensor's description, its parent visual and the rendering sensors are reduced to an outcome.
- DvlScan.DopplerVelocityLog.LayOutRays: requires a positive resolution, at least one beam and footprints of positive size; a footprint's trigonometry is an input; arithmetic is real.
- DvlScan.DopplerVelocityLog.OnNewFrame: noise and the in-aperture test are functions of the beam, the pixel and the sample; a sensor configured without noise, whose noise model stays null, is not modelled.
- LintBrackets.GetTextInside: where the start pattern matches is an input; matching a regular expression is not modelled.
- LintTemplates.AngleCloses: for `<` as the starting bracket, and for `>` backward (LintAngles.AngleOpens), the partner is characterised where the text between nests; where it does not, what single characters do is stated, but no partner.
- LintNesting.NestingState.Update: apart from the look-ahead, which reads the lines' text, a line is what the regular expressions find in it, as inputs independent of its text, and so is the column at which the look-ahead begins, which the original counts behind the namespaces but uses in the whole line; previous_stack_top (a reference to a block that the same update changes), class indentation, last lines of classes, the namespace indentation check and error reports are not modelled.
- ScienceData.ScienceSensorsSystem.ReadData: the first load only, since a reload clears neither the time stamps nor the time index; a row with more parsable words than columns is excluded, since it would be read past the header.
- ScienceData.ReadGroups: times that are NaN are excluded; such a row opens a slice of its own every time.
- LintBlocks.StackIsOpenBraces: files in which a declaration is not followed by its brace, or a brace is closed that was not opened, get no closed form of their stack; every other result about the tracker covers them.
- LintRegions.UnsettledChangesStack: the state right after the declaration differs, not always that at the end of the file; a later line can hide the difference.
- ScienceData.InterpolatedAlwaysBetween: the estimate of a slice at a point is an input; spatial interpolation and the octree are not modelled.
- ModelObserver.ModelObserver.Update: requires a window that is not negative, since a negative one would read from an empty deque.
- Transport, serialisation of payloads, launch files, SDF text, GUI panels, plotting, process control and example programs: plumbing without a property of its own.
- Non-broadcast acoustic mode: its sender and receivers use different topic names.
- Distances are a function of two positions, required symmetric and non-negative where that matters; square roots are not modelled.
- Floating point: arithmetic is over reals, so rounding and overflow are not modelled; NaN and infinities are, for the values read from a file.
- Hydrodynamics, vehicle control, actuators, battery and environment plugins: numeric models of their own.
- The rest of the lint tool: style checks, file reading, options and reports.
