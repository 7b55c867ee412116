# Z/IP gateway: verified model

This project models the event-driven core of a Z-Wave/IP gateway in Dafny and proves what holds over its
whole runs. The gateway is written as C state machines whose state is a handful of static structures,
intrusive lists and fixed pools, and whose reactions call each other back, sometimes at once and sometimes
much later. The model keeps that form: objects with fields that are updated in place, methods per event,
nested callbacks, and loops over the lists being changed. Each is proved against a specification on plain
values, and the laws of the subsystem are proved about the specification.

| module | what it models |
|---|---|
| `NetworkManagement`, `UpdateLatch`, `NetworkLaws`, `NetworkManager` | the network management state machine: the reactions state by state, the laws they obey question by question, and the code that posts events to itself |
| `SecureLearn` | the S0 secure inclusion statechart, with its one timer and the poll loop that drives it |
| `IpAssociations`, `Lists` | mark-and-sweep removal of IP associations |
| `TempAssociations` | the allocator that lends virtual node ids to Z/IP clients |
| `Mailbox` | the wake-up sweep that delivers queued frames to a sleeping node |
| `CommandQueue` | network management commands waiting for sleeping nodes |
| `InclusionController` | the hand-over protocol between including controllers |
| `VersionProbe` | the recursive probe for command class versions |
| `StatusFrame` | list insertion and the 256-byte node add status frame |
| `ProvisioningTlvs` | printing, parsing and storing provisioning list options |
| `NodeDatabase` | device specific keys in the node database |

`dafny verify dfyconfig.toml` checks everything.

## Reading the main results

* **Probe lock.** `NetworkManagement.IdleMeansUnlocked`: after every run in which callbacks come only through
  registered slots, answers come once and timers fire while armed, an idle machine has released the probe lock,
  unless a completion was still to come while a session could take the lock. What counts as a completion is
  whatever ends in ResetState without asking which session it ends: a reply not yet acknowledged; an answer
  owed for a network update, a deleted return route or sent node information; an answer that will find a
  command's callback in a slot other parties use too (return route assignment, failed node removal); a
  registered node removal; its timer; and the timers of earlier removals whose handle was overwritten.
  ResetState forgets the session it finds but not the lock. The exception is exact: `OverlapLeaks` shows that
  from every such state the lock can be left taken in an idle machine, and `CarelessLeaks` that every run
  outside the condition passes such a state. Whenever something will not call back after all (the radio has
  no more to report, another module empties the slot, a DTLS session is closed) that is an event of its own,
  `Silent`, after which it no longer counts. Four ways into the exception are spelled out: `LateReplyLeaks`,
  `NodeInformationLeaks`, `StrayTimerLeaks` and `TakenSlotLeaks`; only the first needs a late reply.
* **Course of a session.** `NetworkLaws` answers one question at a time for all states: how the security of an
  inclusion turns out, where a session goes, what is said and when, who takes and releases the lock, which flags
  a session carries, what is registered with the radio. `NetworkLaws.Course` and `CourseOutside` prove that the
  reactions, which follow the code state by state, agree with all of these tables for every state, event and
  behaviour of the surroundings.
* **Outcome of an inclusion.** `NetworkLaws.InclusionEnds`: a node is made to destroy itself exactly when a smart
  start inclusion fails, by a bootstrapping that fails, is stopped or times out or by a node on record as bad;
  every other outcome, and nothing else, leads to the interview, with the lock released and the key reported
  exactly for a good S2 outcome. `SelfDestructIsEarned` carries it over runs: whenever a machine is destroying a
  node, an input of the same session found that node by smart start and a later one decided badly.
* **Update latch.** `NetworkLaws.ReleaseIsEarned`: in every run since boot, at every input that reports on the
  network update or begins to wait for it, the reply is released exactly when the last arming or reset among the
  inputs before was an arming and each of the three flags came in with that input or a later one, as a parameter
  or by what the surroundings answered. `UpdateReleases` is the one-step form, flag by flag.
* **S0 sessions.** `SecureLearn.LearnOutcome` and `InclusionOutcome`: which input decided a session, by which
  verdict, and what it then completes with; frames, keys and registrations included.
* **Mailbox sweeps.** `Mailbox.Box.WholeSweep`: what a wake-up offers, frees, delays and sends, by whether the
  node is known, what the transport answered and which frames announced more.
* **Conservation laws.** Statechart sessions against completions, queued commands against final answers,
  hand-overs against callbacks, mailbox frames against deliveries, associations unlinked against associations
  freed: each is an invariant of every run, by content and order and not only by count.
* **Refinement.** `NetworkManager.Machine.PostEvent` and `SecureLearn.Handle.RunCycle` prove that the
  self-posting code computes the flat specification, and terminates; `NetworkManager.Machine.Handle` and
  `Drive` carry the laws over to the machine and its runs.

Where code and comment disagree the code is followed:

* src/CC_NetworkManagement.c:1915-1920 fears a LEARN_MODE_STARTED queued when learn mode is cancelled. The
  cancellation registers a null callback (src/CC_NetworkManagement.c:1929, src/serialapi/Serialapi.c:2449), and
  the serial interface drops a learn report while the callback is null (src/serialapi/Serialapi.c:1135), so it
  never arrives (`NetworkManagement.CancelledLearnIsOver`). A stopped add keeps its callback
  (src/CC_NetworkManagement.c:837), so there a queued report does arrive, and the model lets it; so does a
  learn mode the radio itself reports as failed, unless the radio has no more to report.
* src/CC_NetworkManagement.c:2854-2859 takes a refusal of node information as final, but the serial interface
  returns 0 also when it sends it (src/serialapi/Serialapi.c:1365-1379): the callback still comes, later, and
  resets whatever runs by then.
* src/Bridge_ip_assoc.c:1160-1165 says a second marking with the same request counts zero entries; the code
  counts all matches again (`IpAssociations.Bridge.FindAndMark`).
* src/CC_InclusionController.c:192-208 reports an inclusion step as complete also when the session was a
  replacement (`InclusionController.Handler.SendReport`).
* src/Bridge_temp_assoc.c:391-412 compares the classic index with the maximum of four rather than with the
  number of ids loaded, so with fewer ids a new classic client gets no entry
  (`TempAssociations.CreateFailsExactly` gives the exact condition).
* src/RD_internal.c:409-428 compares only as many bytes as the key asked for has; with keys of unequal length
  two nodes can end up with the same key (`NodeDatabase.GivenIsUnique` gives the exact condition). The one
  caller here passes 16 bytes (src/CC_NetworkManagement.c:1069), for which it cannot happen.
* src/CC_provisioning_list.c:221-224 reads a boot mode also from an option of length 0
  (`ProvisioningTlvs.Parse`).

* src-gen/Secure_learn.c:496-505: a slave that hears no scheme get completes with the scheme left from before; after
  a failed session that is -1, and the new session is taken for a failure although nothing failed
  (`SecureLearn.StaleFailure`; `LearnOutcome` gives the exact condition). The gateway is a controller, for which
  it cannot happen.

## Model

| member | source | states |
|---|---|---|
| NetworkManagement.IdleMeansUnlocked | src/CC_NetworkManagement.c:557-1731 | after every run with no completion to come while a session can take the lock, idle means unlocked, and a held lock belongs to a session no outstanding completion can end |
| NetworkManagement.RunKeepsLock | src/CC_NetworkManagement.c:557-1731 | the lock is so held at every point of such a run |
| NetworkManagement.StepKeepsLock | src/CC_NetworkManagement.c:557-1731 | one top-level event of any kind, including every callback in every state, keeps that |
| NetworkManagement.AnswerKeeps | src/CC_NetworkManagement.c:1986-2565 | the answers that test no state, in whatever state they find the machine: while one is to come the lock is free |
| NetworkManagement.DirectKeeps | src/CC_NetworkManagement.c:1937-2044 | the same for removal timers, forgotten ones included, for the start of a removal, and for slots taken or silenced by others |
| NetworkManagement.FailedAnswerKeeps | src/serialapi/Serialapi.c:2187-2202 | an answer to a failed node removal goes to whichever callback took the slot last, and either way keeps the lock in order |
| NetworkManagement.RemovalForgets | src/CC_NetworkManagement.c:1937-1949 | ending a removal cancels its timer and deregisters its callback; forgotten timers stay armed |
| NetworkManagement.ForgottenTimerEndsBoth | src/CC_NetworkManagement.c:1937-1949 | a forgotten timer that fires ends the removal under way with it |
| NetworkManagement.AddKeeps | src/CC_NetworkManagement.c:761-1092 | the add, replace and proxy states |
| NetworkManagement.ProxyKeeps | src/CC_NetworkManagement.c:1492-1540 | proxy inclusion, although it plays the radio's part itself |
| NetworkManagement.SelfDestructKeeps | src/CC_NetworkManagement.c:1578-1669 | a self-destructing node keeps the lock through first try and retry, and every way out releases it |
| NetworkManagement.LearnKeeps | src/CC_NetworkManagement.c:1358-1478 | learn mode and factory reset, up to the update-driven reply |
| NetworkManagement.ReplyWhenUpdatedKeeps | src/CC_NetworkManagement.c:1843-1868 | whatever the machine was doing, waiting for the network update releases the lock |
| NetworkManagement.UpdateKeeps | src/CC_NetworkManagement.c:1810-1830 | a status update never ends a session that holds the lock |
| NetworkManagement.ResetKeeps | src/CC_NetworkManagement.c:1878-1896 | a reset leaves the machine in order exactly when the lock is free: it forgets the session and not the lock |
| NetworkManagement.IdleKeeps | src/CC_NetworkManagement.c:582-760 | what an idle machine starts or answers |
| NetworkManagement.BeginKeeps | src/CC_NetworkManagement.c:2636-3033 | the commands that wait for one answer, including those answered at once |
| NetworkManagement.BusyKeeps | src/CC_NetworkManagement.c:1671-1704 | what the machine does while it waits for one answer |
| NetworkManagement.CancelledLearnIsOver | src/CC_NetworkManagement.c:1922-1932 | a cancelled learn mode can no longer take the lock: a queued report is dropped |
| NetworkManagement.OverlapLeaks | src/CC_NetworkManagement.c:1878-1896 | from every state with a completion to come and a session able to lock, some continuation with prompt replies ends idle with the lock taken |
| NetworkManagement.CarelessLeaks | src/CC_NetworkManagement.c:1878-1896 | every fair run outside the condition passes such a state, so the condition is exact run by run |
| NetworkManagement.LateReplyLeaks | src/DTLS_server.c:336-346 | it happens from every booted state: a list acknowledged late, and an add |
| NetworkManagement.StrayTimerLeaks | src/CC_NetworkManagement.c:1994-1998 | it happens with prompt replies and ordinary commands: a removal started twice and stopped leaves the first timer armed, and an add |
| NetworkManagement.TakenSlotLeaks | src/serialapi/Serialapi.c:2187-2202 | it happens with prompt replies: an answer owed to a self-destruct removal or to another module, a refused command that takes the slot, and an add |
| NetworkManagement.NodeInformationLeaks | src/CC_NetworkManagement.c:2854-2859 | it happens with prompt replies too: node information sent, and an add |
| NetworkLaws.Course | src/CC_NetworkManagement.c:557-1731 | every event in every state: where the session goes, what is said, the lock, the flags, the command, the peer, the latch and the radio's registrations are as the tables say, part by part |
| NetworkLaws.CourseOutside | src/CC_NetworkManagement.c:1937-2565 | the same for the callbacks and timers that do not go through the event function, in whatever state they come |
| NetworkLaws.InclusionEnds | src/CC_NetworkManagement.c:1013-1092 | self-destruct exactly for a failed smart start inclusion; every other outcome, and nothing else, leads to the interview, unlocked, with the key reported exactly for a good S2 outcome |
| NetworkLaws.TreatedPosted | src/CC_NetworkManagement.c:897-1092 | that law for each state in which an outcome is decided |
| NetworkLaws.SelfDestructIsEarned | src/CC_NetworkManagement.c:1047-1057 | in every run, a session that destroys its node began with a smart start and was decided badly, at an input that is found |
| NetworkLaws.SmartSession | src/CC_NetworkManagement.c:655-692 | the smart start flag is held exactly by the session that a smart start began, until it ends |
| NetworkLaws.StepFlag | src/CC_NetworkManagement.c:655-692 | one input sets the flag exactly when a smart start begins and drops it exactly when the session ends |
| NetworkLaws.PeerIsFixed | src/CC_NetworkManagement.c:3162-3198 | no event changes the peer of a session, and another client's command changes nothing |
| NetworkLaws.PeerIsChosen | src/CC_NetworkManagement.c:3162-3198 | an idle machine takes the client whose command it is given as its peer |
| NetworkLaws.SessionPeer | src/CC_NetworkManagement.c:3162-3198 | the peer is the same from the start of a session to its end |
| NetworkLaws.UpdateReleases | src/CC_NetworkManagement.c:1810-1830 | a status update or-s in each flag and releases the reply exactly when all three are held and the latch is not disabled |
| NetworkLaws.Releases | src/CC_NetworkManagement.c:1810-1868 | the latch takes in what an input brings, and the reply is released exactly when it is then complete |
| NetworkLaws.StepLatch | src/CC_NetworkManagement.c:1810-1896 | one input's effect on the latch, the reset that a reply brings included |
| NetworkLaws.RunLatch | src/CC_NetworkManagement.c:1810-1896 | the latch is what the inputs of the run made of it |
| NetworkLaws.ReleaseIsEarned | src/CC_NetworkManagement.c:1810-1868 | in every run since boot, the reply is released exactly when the last arming or reset among the inputs was an arming and all three flags came in since |
| UpdateLatch.LatchMeans | src/CC_NetworkManagement.c:1810-1829 | a flag is held exactly when brought in since boot, the last arming or the last reset; disabled exactly when a reset came last |
| UpdateLatch.DueIsEarned | src/CC_NetworkManagement.c:1824-1828 | the comparison with the full flag set is true exactly when the reply is earned |
| NetworkManager.Machine.Handle | src/CC_NetworkManagement.c:557-1731 | every way into the module is one specified step and keeps the lock, the peer, the outcome law of inclusions and the latch law |
| NetworkManager.Machine.Drive | src/CC_NetworkManagement.c:557-1731 | a whole run of the machine is the specified run: the lock is free when it ends idle, a session keeps its peer, a node is destroyed only after a failed smart start, and the latch is what the inputs made of it |
| NetworkManager.Machine.RemovalAnswered | src/CC_NetworkManagement.c:2112-2123 | the answer to a failed node removal, to the command or posted to the self-destruct sequence |
| NetworkManager.Machine.PostEvent | src/CC_NetworkManagement.c:557-1731 | the self-posting event function terminates and computes the specified reaction |
| NetworkManager.Machine.WhenReplaceFailedReq | src/CC_NetworkManagement.c:761-832 | a finished replacement joins through the posted security outcome |
| NetworkManager.Machine.WhenNodeFound | src/CC_NetworkManagement.c:848-896 | an unusable node posts the failure to the machine itself |
| NetworkManager.Machine.WhenWaitForProtocol | src/CC_NetworkManagement.c:897-1003 | a known node, a node for the SUC, a node to bootstrap, or a failure, with the posted outcomes flattened |
| NetworkManager.Machine.Join | src/CC_NetworkManagement.c:940-989 | the lock is taken and the security outcome posted when there is nothing to bootstrap |
| NetworkManager.Machine.WhenSucInclusion | src/CC_NetworkManagement.c:1004-1012 | the hand-over to the SUC, which may be refused from inside the call |
| NetworkManager.Machine.WhenWaitForSecureAdd | src/CC_NetworkManagement.c:1013-1092 | a timeout posts a stop to the machine itself |
| NetworkManager.Machine.WhenProxyWaitNif | src/CC_NetworkManagement.c:1492-1540 | the simulated add or replace, posted event by event |
| NetworkManager.Machine.WhenSelfDestruct | src/CC_NetworkManagement.c:1578-1669 | transmission and removal, either of which may fail inside the call |
| NetworkManager.Machine.LearnModeDone | src/CC_NetworkManagement.c:2304-2394 | the three outcomes of learn mode, two of which simulate the security outcome |
| NetworkManager.Machine.CommandHandler | src/CC_NetworkManagement.c:3162-3198 | an idle machine takes any client as its peer; a session listens to its peer only |
| SecureLearn.RunInvariant | src-gen/Secure_learn.c:468-1000 | over every run: sessions = completions + the one in progress; only the state's own timer is armed, and a timed state has it armed or expired |
| SecureLearn.CycleKeepsInv | src-gen/Secure_learn.c:220-303 | one cycle keeps conservation and timers |
| SecureLearn.ExpiryLeaves | src-gen/Secure_learn.c:468-976 | a pending time event forces the next cycle out of the state |
| SecureLearn.SessionIsShort | src-gen/Secure_learn.c:468-1000 | a session takes at most six state changes, whatever the environment does |
| SecureLearn.EndCompletes | src-gen/Secure_learn.c:879-937 | what the end of a session reports agrees with what was registered and sent |
| SecureLearn.LearnOutcome | src-gen/Secure_learn.c:468-705 | every learn session: -1 for a failure, 0 for a controller that heard nothing, otherwise the scheme; the network scheme is the same, the state is saved last, and frames, inclusion key and registration are as the deciding state tells |
| SecureLearn.LearnBegan | src-gen/Secure_learn.c:468-628 | the frames since the learn request are a prefix of scheme report, key verify, scheme report to the node that asked, the last only by a controller; the inclusion key is set once |
| SecureLearn.SessionDecided | src-gen/Secure_learn.c:468-976 | the cycle that decided a session, and that its status and calls stand since |
| SecureLearn.CycleMoves | src-gen/Secure_learn.c:468-976 | a session goes on exactly when what it awaits has come, ends where its verdict says and otherwise waits |
| SecureLearn.IdleServes | src-gen/Secure_learn.c:707-751 | one request a cycle, learn before inclusion before commands supported |
| SecureLearn.StaleFailure | src-gen/Secure_learn.c:496-505 | a slave that hears nothing completes with the -1 of an earlier failure |
| SecureLearn.InclusionOutcome | src-gen/Secure_learn.c:707-976 | status -1 exactly when the deciding cycle saw a failure and exactly when the last registration is 0, otherwise both agree and carry the S0 bit and the network key is back in place; the frames are a prefix of scheme get, key, inherit, to one node |
| SecureLearn.RunKeepsInclusionInv | src-gen/Secure_learn.c:707-976 | the invariant behind it, over every run in which the glue keeps its promises |
| SecureLearn.NegativeSchemeRegisters | src-gen/Secure_learn.c:753-794 | what happens without the glue's promise: exactly the odd negative schemes are registered as successes |
| SecureLearn.CycleSettles | src/transport/security_layer.c:174-184 | a cycle without events either changes nothing or brings a transient state closer to rest |
| SecureLearn.Handle.EnterChart | src-gen/Secure_learn.c:59-68 | entering an initialised handle gives the chart every run starts from; in general the chart is in order exactly when no timer is armed and no session is open |
| SecureLearn.Handle.ExitChart | src-gen/Secure_learn.c:70-195 | leaving the chart leaves no timer armed |
| SecureLearn.Handle.LearnStart | src-gen/Secure_learn.c:468-507 | the reaction of the learning node before the scheme is known |
| SecureLearn.Handle.LearnSchemeReport | src-gen/Secure_learn.c:509-552 | the reaction while the report is sent and the key awaited |
| SecureLearn.Handle.LearnNewKey | src-gen/Secure_learn.c:565-604 | the reaction to key verification |
| SecureLearn.Handle.LearnInherited | src-gen/Secure_learn.c:606-628 | the reaction while the inherited scheme is reported |
| SecureLearn.Handle.LearnEnd | src-gen/Secure_learn.c:641-705 | completion of a learn session |
| SecureLearn.Handle.MainIdle | src-gen/Secure_learn.c:707-751 | the start of either kind of session, or of a report |
| SecureLearn.Handle.InclusionSchemeRequest | src-gen/Secure_learn.c:753-794 | the reaction to the scheme report |
| SecureLearn.Handle.InclusionSendKey | src-gen/Secure_learn.c:796-826 | the reaction while the key is sent |
| SecureLearn.Handle.InclusionSendInherit | src-gen/Secure_learn.c:828-866 | the reaction to the inherited scheme |
| SecureLearn.Handle.InclusionEnd | src-gen/Secure_learn.c:879-937 | completion of an inclusion session |
| SecureLearn.Handle.InclusionWaitVerify | src-gen/Secure_learn.c:939-977 | the reaction to key verification by the included node |
| SecureLearn.Handle.RunCycle | src-gen/Secure_learn.c:220-303 | exactly one reaction runs although reactions reset the loop index; the cycle is the specified one |
| SecureLearn.Handle.RaiseTimeEvent | src-gen/Secure_learn.c:305-310 | an expired timer raises its event |
| SecureLearn.Handle.Poll | src/transport/security_layer.c:174-184 | the poll loop terminates in a state that needs an event, completing at most one session |
| IpAssociations.Bridge.BulkRemove | src/Bridge_ip_assoc.c:201-216 | an entry stays exactly if it is another node's or differs in an endpoint, grouping or address that the request names; the others are unlinked once each in order and freed, the rest keep their order, the counter is 0, one done event; a node in the database is sent one command per entry, and the virtual nodes of the permanent ones are released in order |
| IpAssociations.WildcardIsUnion | src/Bridge_ip_assoc.c:1183-1189 | a request without endpoint removes what the requests for single endpoints remove, and the entries of the node itself; likewise for groupings |
| IpAssociations.AnyAddress | src/Bridge_ip_assoc.c:1183-1189 | no address and the address 0 stand for all addresses |
| IpAssociations.SameFate | src/Bridge_ip_assoc.c:1183-1189 | entries that agree in node, endpoint, grouping and address go or stay together |
| IpAssociations.Bridge.FindFirstMarked | src/Bridge_ip_assoc.c:1028-1042 | the first marked entry in table order, or none |
| IpAssociations.Bridge.RemoveAllMarked | src/Bridge_ip_assoc.c:1053-1074 | never reaches the asserting branch; removal advances to rest |
| IpAssociations.Bridge.ContinueWithNext | src/Bridge_ip_assoc.c:1089-1109 | counts down, goes on or announces the end exactly once |
| IpAssociations.Bridge.Remove | src/Bridge_ip_assoc.c:1117-1145 | unlinks before recursing and frees after, keeping order and conservation |
| IpAssociations.Bridge.TakeOut | src/Bridge_ip_assoc.c:1124-1142 | the entry leaves the table before anything recurses, and a permanent one's virtual node the radio |
| IpAssociations.Bridge.FindAndMark | src/Bridge_ip_assoc.c:1173-1200 | marks exactly the matches and counts them |
| IpAssociations.Bridge.RemoveCallback | src/Bridge_ip_assoc.c:1202-1220 | OK and NO_ACK go on; any other status stops with everything as it was |
| IpAssociations.Bridge.SendRemoveCommand | src/Bridge_ip_assoc.c:1392-1443 | a missing node completes at once, as nested recursion |
| IpAssociations.Bridge.FindByGrouping | src/Bridge_ip_assoc.c:529-551 | count and pick with the 8-bit counter and index of the code, for tables of any length |
| IpAssociations.Bridge.LookUpInGroup | src/Bridge_ip_assoc.c:529-551 | for tables within the bound: the exact count and the index-th match, or null |
| IpAssociations.WrapIsHarmless | src/Bridge_ip_assoc.c:529-551 | the wrapping index picks correctly for every index exactly when there are fewer than 256 matches |
| TempAssociations.RunInvariant | src/Bridge_temp_assoc.c:113-152 | over every run of creations and locks: class counts equal the indices, ids and clients are distinct, length equals pool use |
| TempAssociations.CreateKeeps | src/Bridge_temp_assoc.c:113-152 | one creation keeps that |
| TempAssociations.PoolNeverExhausted | src/Bridge_temp_assoc.c:427-493 | table length = classic index + LR index = pool use, so allocation never fails |
| TempAssociations.CreateFailsExactly | src/Bridge_temp_assoc.c:391-412 | a valid client is left without an entry exactly when new, classic, and fewer than four ids are loaded and all lent |
| TempAssociations.CreateIsIdempotent | src/Bridge_temp_assoc.c:507-551 | repeating a creation returns the same entry and changes nothing |
| TempAssociations.SameClient | src/Bridge_temp_assoc.c:536-545 | two packets are one client's exactly if address, port, endpoint, DTLS and Long Range class agree |
| TempAssociations.UnsolicitedIsApart | src/Bridge_temp_assoc.c:513-534 | the unsolicited destination is known by address and port and served outside the table with the gateway's own id |
| TempAssociations.IdFitsDestination | src/Bridge_temp_assoc.c:391-412 | an entry's id is of the destination's class |
| TempAssociations.OneToOne | src/Bridge_temp_assoc.c:193-207 | clients and virtual ids correspond; an entry's id looks that entry up |
| TempAssociations.LockedSurvives | src/Bridge_temp_assoc.c:155-191 | a locked entry survives every creation |
| TempAssociations.LockedSurvivesRun | src/Bridge_temp_assoc.c:155-191 | as long as the lock is held, the entry survives every run of creations |
| TempAssociations.LockKeeps | src/Bridge_temp_assoc.c:155-191 | taking and releasing the lock keeps the table's invariant |
| TempAssociations.RecycleKeeps | src/Bridge_temp_assoc.c:471-492 | recycling keeps the invariant, the entry becoming the newest |
| TempAssociations.Oldest | src/Bridge_temp_assoc.c:471-492 | the oldest entry of the class that is not locked |
| TempAssociations.TempTable.LookupByClient | src/Bridge_temp_assoc.c:507-551 | finds the client's entry, or serves the unsolicited destination |
| TempAssociations.TempTable.GetNewOrReuseOldest | src/Bridge_temp_assoc.c:427-493 | a new id below the class maximum, the oldest unlocked entry at it |
| TempAssociations.TempTable.AddToTable | src/Bridge_temp_assoc.c:371-389 | the duplicate branch is not taken under the invariant |
| TempAssociations.TempTable.SetupAndSave | src/Bridge_temp_assoc.c:569-608 | fills in the client, or gives an element without id back |
| TempAssociations.TempTable.CreateTemp | src/Bridge_temp_assoc.c:113-152 | computes the specified creation |
| TempAssociations.TempTable.LookupByVirtualNodeId | src/Bridge_temp_assoc.c:193-207 | the search in table order |
| Mailbox.Box.WholeSweep | src/Mailbox.c:869-1172 | a wake-up driven by its own events ends: a known node is offered exactly its frames in order up to the first one refused and those sent are freed, an unknown node none; the end is delayed exactly if no frame was refused and one announced more; one No More Information, none after a broadcast |
| Mailbox.Box.RunToIdle | src/Mailbox.c:843-957 | whatever the mix of immediate and later completions, the sweep's own events bring it to its end |
| Mailbox.Box.FinishedSweep | src/Mailbox.c:1089-1172 | a sweep that ran out of frames offered exactly the node's frames once each in order, freed exactly those sent, and left the others in order |
| Mailbox.OffersExactly | src/Mailbox.c:1109-1131 | faithful visits offer the node's frames, in queue order |
| Mailbox.KeptAndFreed | src/Mailbox.c:1091-1104 | frames visited = frames kept + frames freed, freed exactly when sent |
| Mailbox.PassOne | src/Mailbox.c:1091-1115 | passing a frame moves the split between visited and unvisited by one |
| Mailbox.Box.WakeupEvent | src/Mailbox.c:747-910 | starts a sweep unless busy; an unknown node is offered nothing, a known one with an unexpected wake-up is first asked for its interval |
| Mailbox.Box.StartSending | src/Mailbox.c:1105-1107 | the sweep starts at the head of the list |
| Mailbox.Box.RunOut | src/Mailbox.c:1132-1144 | the visits end at the last frame that has arrived, and the node is put to sleep later exactly if a frame offered announced more |
| Mailbox.Box.Offer | src/Mailbox.c:1117-1126 | the frame at the cursor is offered; its more-information bit delays the end |
| Mailbox.Box.GiveUp | src/Mailbox.c:1126-1130 | a refused frame ends the visits |
| Mailbox.NextOffer | src/Mailbox.c:1109-1126 | the frame at the cursor is the next of the node's frames |
| Mailbox.Box.SendNext | src/Mailbox.c:1109-1144 | offers the next frame or ends the visits; nested completions terminate |
| Mailbox.Box.PassCursor | src/Mailbox.c:1091-1104 | moves past the frame, freeing it if it was sent |
| Mailbox.Box.FrameDone | src/Mailbox.c:785-791 | a completion, later or from inside the offer |
| Mailbox.Box.FindNext | src/Mailbox.c:1109-1115 | skips exactly the other nodes' frames |
| Mailbox.Box.ProbeDone | src/Mailbox.c:794-811 | the answer to the interval request leads to the sweep |
| Mailbox.Box.SendNoMoreInformation | src/Mailbox.c:702-725 | one No More Information, none after a broadcast wake-up |
| Mailbox.Box.NoMoreTimerExpires | src/Mailbox.c:1145-1157 | the delayed No More Information, put off while the node is probed |
| Mailbox.Box.Post | src/Mailbox.c:549-664 | refused exactly when the pool is used up, otherwise it joins the end of the queue and the sweep in progress |
| Mailbox.Box.FreeEntry | src/Mailbox.c:214-248 | exactly that entry leaves the list |
| CommandQueue.FifoConserves | src/CC_NetworkManagement_queue.c:78-118 | each accepted command has exactly one final answer or is still queued |
| CommandQueue.AnswerKeepsFifo | src/CC_NetworkManagement_queue.c:106-112 | answering a node's oldest command keeps answers + queue = accepted, per node and in order |
| CommandQueue.AcceptKeepsFifo | src/CC_NetworkManagement_queue.c:78-94 | queueing keeps it too |
| CommandQueue.TakeFirst | src/CC_NetworkManagement_queue.c:96-112 | removing a node's first command removes the head of its line and touches no other line |
| CommandQueue.OthersStay | src/CC_NetworkManagement_queue.c:96-112 | and leaves the other nodes' commands as they were |
| CommandQueue.NmQueue.QueueCommand | src/CC_NetworkManagement_queue.c:78-94 | accepted exactly while fewer than ten are queued |
| CommandQueue.NmQueue.FindElement | src/CC_NetworkManagement_queue.c:96-104 | the node's oldest command |
| CommandQueue.NmQueue.RemoveElement | src/CC_NetworkManagement_queue.c:106-112 | one final answer, and the element gone |
| CommandQueue.NmQueue.PurgeAll | src/CC_NetworkManagement_queue.c:114-118 | every queued command refused once, in order |
| CommandQueue.NmQueue.PurgeNode | src/CC_NetworkManagement_queue.c:164-173 | exactly the node's commands refused, in order, the others left in theirs |
| CommandQueue.NmQueue.WakeupEvent | src/CC_NetworkManagement_queue.c:176-188 | starts the node's oldest command exactly when no other node is served and the handler takes it |
| CommandQueue.NmQueue.NmDoneEvent | src/CC_NetworkManagement_queue.c:190-205 | starts the same node's oldest command and answers it, or hands the node on and leaves the queue; one node at a time |
| InclusionController.Handler.RequestHandover | src/CC_InclusionController.c:299-308 | accepted only when idle, refused at once otherwise; a refused send completes at once |
| InclusionController.Handler.ReceiveInitiate | src/CC_InclusionController.c:122-169 | accepted exactly when idle with a proxy step, or as S0 request to a waiting hand-over; the peer is fixed at the start |
| InclusionController.Handler.ReceiveComplete | src/CC_InclusionController.c:146-151 | ends a hand-over or an S0 request of the matching step, with its own callback |
| InclusionController.Handler.S0InclusionDone | src/CC_InclusionController.c:171-190 | reports to the peer of the session and resumes the hand-over |
| InclusionController.Handler.SendDone | src/CC_InclusionController.c:152-154 | only a failure ends a hand-over |
| InclusionController.Handler.Timeout | src/CC_InclusionController.c:152-154 | ends a hand-over or an S0 request with failure |
| InclusionController.Handler.YouDoIt | src/CC_InclusionController.c:210-228 | asks the peer for S0 and registers the caller's callback |
| InclusionController.Handler.SendReport | src/CC_InclusionController.c:191-209 | one COMPLETE report per accepted INITIATE |
| InclusionController.Handler.FinishHandover | src/CC_InclusionController.c:148-154 | idle before the callback, which is the request's own |
| InclusionController.Handler.FinishS0 | src/CC_InclusionController.c:230-241 | back to waiting before the callback, which is the S0 request's own |
| VersionProbe.Probe.Run | src/RD_probe_cc_version.c:97-113 | for all answers: one callback, at most 9 requests, exactly the requests due, status 1 exactly when a class or capabilities request failed, versions, capabilities and software as reported, known versions untouched |
| VersionProbe.Probe.PostEvent | src/RD_probe_cc_version.c:115-251 | terminates with a request in the air or the probe over; the sentinel is never passed |
| VersionProbe.Probe.OnSendCcGet | src/RD_probe_cc_version.c:130-158 | asks exactly for supported classes of unknown version |
| VersionProbe.Probe.OnLastStates | src/RD_probe_cc_version.c:186-246 | capabilities, software and the final callback |
| VersionProbe.Probe.OnSendSoftwareGet | src/RD_probe_cc_version.c:204-228 | the software is asked for exactly if all three report bits are set and it was not probed |
| VersionProbe.BitByBit | src/RD_probe_cc_version.c:207-209 | the three bit tests together are the three lowest bits |
| VersionProbe.ExtrasSnoc | src/RD_probe_cc_version.c:57-95 | capabilities and software are recorded exactly as reported |
| VersionProbe.Probe.CcVersionCallback | src/RD_probe_cc_version.c:22-52 | a good report is entered, any other marks the probe failed, and the next class follows |
| VersionProbe.Probe.CapabilitiesCallback | src/RD_probe_cc_version.c:57-73 | a failure ends the probe with status 1 |
| VersionProbe.Probe.SoftwareCallback | src/RD_probe_cc_version.c:78-95 | a failure does not count |
| VersionProbe.ReportRecorded | src/RD_probe_cc_version.c:27-34 | entering a version keeps those entered before and all that were known |
| VersionProbe.VersionGet | src/RD_internal.c:64-91 | the version of the first entry of the class, 0 for a deleted node or none |
| VersionProbe.VersionSet | src/RD_internal.c:93-116 | sets one class's version and no other's |
| VersionProbe.Due | src/RD_probe_cc_version.c:130-158 | only controlled classes, at most one request each |
| StatusFrame.MemInsert | src/CC_NetworkManagement.c:3237-3265 | equals insert-after-each-match cut off at max, and writes nothing else |
| StatusFrame.InsertedDropped | src/CC_NetworkManagement.c:3237-3265 | the insertion can be undone |
| StatusFrame.InsertedAt | src/CC_NetworkManagement.c:3237-3265 | where each element and its insertion stand |
| StatusFrame.ShownRecovers | src/CC_NetworkManagement.c:1256-1280 | a client that leaves out the insertions has the node's own classes back, all of them if they fit, and the list is cut only if it has to be |
| StatusFrame.ShownAt | src/CC_NetworkManagement.c:1256-1280 | where each class stands, with IP association behind each association class |
| StatusFrame.Assemble | src/CC_NetworkManagement.c:1226-1331 | the frame never exceeds 256 bytes, reaches 256 exactly when the class part is full, and a client parses back what went in |
| StatusFrame.PutNodeInfo | src/CC_NetworkManagement.c:1226-1290 | device and class bytes and their length byte, which does not overflow |
| StatusFrame.PutTrailer | src/CC_NetworkManagement.c:1302-1331 | keys, KEX failure and DSK behind the classes; the DSK always fits |
| ProvisioningTlvs.RoundTrip | src/CC_provisioning_list.c:75-151 | parsing what was printed recovers the entry, wherever the section stands |
| ProvisioningTlvs.RecoveredIsExact | src/CC_provisioning_list.c:75-126 | that is boot mode, status and every stored option, and nothing else |
| ProvisioningTlvs.StoreRoundTrip | src/CC_provisioning_list.c:323-365 | storing it in an empty entry gives every option the value it had |
| ProvisioningTlvs.Parse | src/CC_provisioning_list.c:202-282 | the loop ends, stays inside the frame and computes the specified parse |
| ProvisioningTlvs.ParseErrorExactly | src/CC_provisioning_list.c:202-282 | the command is rejected exactly if some option is too short for its kind, or unknown and critical |
| ProvisioningTlvs.ParsedLast | src/CC_provisioning_list.c:202-282 | otherwise a kind has a value exactly if an option of it can be stored, that of the last such option |
| ProvisioningTlvs.ReadMeans | src/CC_provisioning_list.c:208-279 | what one option contributes, by kind and length |
| ProvisioningTlvs.ParsePrinted | src/CC_provisioning_list.c:202-282 | a sequence of printed options is parsed option by option |
| ProvisioningTlvs.PrintTlv | src/CC_provisioning_list.c:116-125 | an option's type byte carries its kind, and the critical bit exactly for the advanced joining keys |
| ProvisioningTlvs.PutTlvs | src/CC_provisioning_list.c:116-125 | writes exactly the printed options through the pointer |
| ProvisioningTlvs.PutTlv | src/CC_provisioning_list.c:117-123 | one option, and nothing else in the buffer |
| ProvisioningTlvs.TlvSetGet | src/provisioning_list.c:903-947 | setting an option changes that option only |
| ProvisioningTlvs.StoredGet | src/CC_provisioning_list.c:343-365 | what the set command stores, option by option |
| NodeDatabase.GivenIsUnique | src/RD_internal.c:320-357 | for keys of any length, with the slot the lookup finds: the table stays unique exactly when no longer key beginning with the same bytes stands before the holder |
| NodeDatabase.PrefixBreaksUniqueness | src/RD_internal.c:409-428 | a table of unequal keys for which it does not |
| NodeDatabase.FullLengthIsEnough | src/RD_internal.c:409-428 | with 16-byte keys the slot found is the only holder |
| NodeDatabase.GivenIsFound | src/RD_internal.c:320-357 | after the move the lookup finds the new node, or nobody without memory |
| NodeDatabase.Database.Alloc | src/RD_internal.c:118-148 | a new node has no key; uniqueness is kept |
| NodeDatabase.Database.Free | src/RD_internal.c:156-162 | the slot is empty; uniqueness is kept |
| NodeDatabase.Database.LookupByDsk | src/RD_internal.c:409-428 | the first node whose key begins with the bytes given |
| NodeDatabase.Database.AddDsk | src/RD_internal.c:320-357 | the key moves to the node, from whoever held it, and lookup finds it there; no two nodes share a key |

## Left out

- NetworkManagement.IdleMeansUnlocked: starts after the boot reply; a queued network management command started from inside ResetState is not modelled here (the queue has its own module), nor are reply contents and the replies to a client that is turned away, which do not touch the state. The control interface of src/SerialApiCustom, which uses the same callback slots, is not part of this model; other modules are taken to empty slots, to assign return routes and to stop timers, and to register nothing else there.
- NetworkManagement.BeginKeeps: the radio's acceptance, the cache's freshness and the list contents are given by the environment.
- IpAssociations.Bridge.BulkRemove: frames end in OK or NO_ACK and no entry is of the proxy kind, as the code asserts; RemoveCallback states what another status does.
- Mailbox.Box.Post: a frame for a failing node also drops that node's frames older than eleven minutes, which is not modelled, during a sweep or otherwise; nor are the checks on the packet before it is queued.
- Mailbox.Box.FinishedSweep: covers sweeps driven by their own events; the proxy modes, pings, a sleep asked for by other modules and expiry of old frames are not modelled.
- CommandQueue.NmQueue.WakeupEvent: the command completes after the handler returned; completion from inside the handler is not modelled, nor are the periodic "waiting" notices.
- InclusionController.Handler.ReceiveInitiate: while S0 is performed only its completion is delivered, because the code's test there is constant; the sender checks happen before the event.
- InclusionController.Handler.RequestHandover: a null callback is modelled as a number that is called; what calling it does to the process is not.
- VersionProbe.Probe.Run: every request is accepted and answered once; a refused request leaves the probe waiting for good.
- ProvisioningTlvs.Parse: the section behind the DSK; the header, and the check of names and locations against mDNS rules, are not modelled.
- NodeDatabase.Database.AddDsk: 16-byte keys, given to a node that has none or the same; names and locations copied from the provisioning list are not modelled, nor is import from storage.
- SecureLearn.InclusionOutcome: holds for glue that writes the scheme as src/transport/security_layer.c does; NegativeSchemeRegisters shows where it is needed.
- SecureLearn.LearnOutcome: holds for the same glue, which also writes a scheme before it passes a scheme get on and runs a decided session to its end.
- DTLS, JNI, SQLite and serial bindings, the firmware update machine (which refuses every request), process wiring and packet buffers.
- Creation of IP associations, virtual node requests in overlap, the mailbox proxy modes.
- Single-branch report builders, name tables and logging.
- Time: timers may expire at any moment after they are armed.
