# Stander, verified

Stander forwards ports. A controller keeps rules, chains, plans and traffic rows in a database; agents hold the
listeners and relay the bytes. This project models the parts of Stander whose behaviour is hard to read off the code
and proves what they keep, over every input and every run; for the controller's actions, the relay's session table and
the traffic counter, over every interleaving of their steps. Where the code does not keep what one would expect, a
lemma gives a concrete run that shows it, and another says exactly when it happens.

- **Billing calendar** (`Calendar`, `Billing`, `Coverage`, `TrafficWorker`): the Gregorian calendar with Go's
  overflowing `AddDate`; how far plan ends, reset marks and billing windows drift apart; which daily rows a whole run
  of roll-overs bills once, twice or not at all; and the worker's pass over all users. When rolls are due, rows go
  unbilled exactly in the gap after a roll that spills into the next month or comes more than a day late, which is
  given to the day. Association sets expiry and mark to the same moment, so no due roll is made before the user
  renews, and a renewal more than a day late loses rows. A pass that read a user before the user's expiry was cut can
  roll the mark past it.
- **Controller and agents** (`PortTable`, `Deployment`, `Controller`, `Refinement`, `InFlight`, `StepEffects`,
  `Overlap`, `Mishaps`, `Undisturbed`, `Results`): the six actions on rules and chains, each of which touches both the
  rows and an agent's listeners. `Results` says what each leaves in the rows and in the agent's table when
  undisturbed. Nothing is locked, so an action is its reads, a call and a write, between which other actions, crashes
  and restarts take their turn and after which a reply may be lost. An agent that is up serves exactly the rows as the
  actions in flight will leave them, until a step that the theorem names: for each kind of step there is the exact
  condition under which it ends the match, and for seven of the ways it happens a run from an empty controller to a
  quiet, mismatched one.
- **UDP relay** (`AddressCodec`, `ProxyPair`, `Sessions`, `Sweeps`, `Shutdown`, `Forwarder`): the address header as a
  printer and a parser; client-mode proxies in front of a server-mode one; and the session table as a concurrent
  system of a packet loop, return loops, a sweeper and `Close`. Sessions are deleted by client and not by session, so
  a late delete can take a newer session out of the map; a sweep closes clients it has found idle even if they are
  used again before it gets to them; and the wait group does not count the packet loop, so it can rise again after
  `Close` has returned, and the socket opened then stays open. Each is pinned down exactly and shown to happen.
- **Traffic accounting** (`Relay`, `TrafficCounter`, `TrafficLedger`, `Observer`, `Sums`): bytes from the relay loop
  through the agent's counter to the controller's rows, conserved up to named terms: bytes added between the counter's
  snapshot and its reset, replies lost after booking, the unscaled first report of a day, and daily rows whose write
  fails after the counter's.
- **Install command** (`Shell`, `InstallCommand`): POSIX token recognition and quote removal (sections 2.2.1 to 2.2.3,
  2.3 and 2.6.7 of the Shell Command Language volume of POSIX.1-2017), and the proof that they undo the quoting.

Objects that the source updates in place are classes whose methods are proved against functions on values; runs and
interleavings are sequences of events over those functions. Dial, bind, write and request outcomes, clock readings,
the order in which a map is visited and the moments other goroutines take their turn are parameters of the events, and
every theorem holds for all of them. `dafny verify dfyconfig.toml` checks the project.

## Model

| member | source | states |
|---|---|---|
| Calendar.AddMonths | internal/service/plan.go:218-233 | adding months lands on the same day of the target month when it exists there, and otherwise on one of the first three days of the month after |
| Calendar.FebruaryLength | internal/service/plan.go:218-233 | February has 29 days in the years divisible by 4, but of the centuries only in those divisible by 400, and 28 in all others |
| Calendar.YearStart | internal/service/plan.go:218-233 | before the first day of any year lie 365 days a year and one for every multiple of 4, less those of 100, plus those of 400 |
| Calendar.FourCenturies | internal/service/plan.go:218-233 | the calendar repeats after 400 years, which are 146097 days |
| Calendar.InNanoseconds | internal/worker/traffic.go:68-72 | moments are ordered as their nanoseconds are, and an hour is 3600 seconds of them |
| Billing.StepIsMonths | internal/worker/traffic.go:81-93 | the worker's advance and the plan's end are the same step, and the billing window is that step back and one day more |
| Billing.JanuaryPlanEndsInMarch | internal/service/plan_test.go:45-58 | a monthly plan from 31 January ends on 3 March, or on 2 March when the year is divisible by 4 and, if by 100, by 400 |
| Billing.UnknownPeriodsStandStill | internal/service/plan.go:218-233 | a missing period, or one that is none of the four, moves neither plan end nor mark |
| Billing.Advance | internal/worker/traffic.go:81-93 | the advance is a whole number of days that depends on the month alone, within 28-31, 89-92, 181-184 or 365-366 days for the four periods |
| Billing.WindowStart | internal/service/traffic.go:46-66 | the window up to a plan's end starts one day before the plan when its day exists in the target month, and otherwise late by the difference of the months' lengths less one, 0 to 2 days |
| Billing.WindowStartsTwoDaysLate | internal/service/traffic.go:46-66 | the two-day bound is met by a plan of 31 January in a common year |
| Billing.MarksOutOfOrder | internal/worker/traffic.go:58-93 | a later roll writes an earlier mark if and only if the earlier one spills and the later one falls in the next month before the spilled day and time |
| Billing.MarksNearlyMonotone | internal/worker/traffic.go:58-93 | marks never go back by three days, and not at all when the earlier roll does not spill |
| Billing.MarksDoGoBack | internal/worker/traffic.go:58-93 | rolled on 31 January and on 1 February of a common year, the second monthly mark is two days earlier than the first |
| Coverage.OneRoll | internal/service/traffic.go:46-66 | a due roll joins the old window to the new one if and only if it comes within a day and its day exists in the target month; they overlap by less than a day, and the new one starts a day before the roll or, spilled, up to two days after |
| Coverage.OneMidnightPerHandover | internal/service/traffic.go:27-37 | the two windows around a due roll share at most one day's rows |
| Coverage.NoGapsExactly | internal/worker/traffic.go:43-77 | a run of due rolls leaves no gap if and only if none comes more than a day late and none spills |
| Coverage.GapsExactly | internal/worker/traffic.go:58-77 | for any roll at all, a moment lies in the gap after it if and only if it lies after the old mark and before the day before the roll or, if the roll spills, before the roll plus the months' difference in length less one |
| Coverage.SpillLosesRows | internal/worker/traffic.go:43-77 | a mark of 30 January rolled on the 31st of a common year leaves the rows of that day and the first two of February to no window |
| Coverage.LateRollLosesRows | internal/worker/traffic.go:43-77 | a mark rolled three days later, on a day that exists in the target month, leaves two days' rows to no window |
| Coverage.PunctualRun | internal/worker/traffic.go:43-77 | runs of due, timely rolls exist from every mark and of every length |
| Coverage.BilledAtLeastOnce | internal/worker/traffic.go:43-77 | over any run of timely, non-spilling rolls, quota rolls included, every moment up to the last mark is billed |
| Coverage.DueIsCalm | internal/worker/traffic.go:43-77 | a run of due rolls, however late, is calm: each roll follows the one before, and by three days at least when that one spilled |
| Coverage.BilledExactly | internal/worker/traffic.go:43-77 | over any calm run, rolls due or made because the quota is used up, late or spilling, every moment from the first window's start to the last mark is billed once, and once more for every handover it lies in, but not at all if and only if it lies in a gap |
| Coverage.HastyRollBillsPastTheMark | internal/worker/traffic.go:43-77 | a run that is not calm does bill otherwise: rolled on 31 January and again a day later, a row dated past the last mark is billed |
| Coverage.BilledOnceOrTwice | internal/worker/traffic.go:43-77 | with due rolls only no moment is billed more than twice, and when none is late or spills every moment is billed |
| Coverage.RunBillsEveryRow | internal/service/traffic.go:19-41 | the usages of a whole calm run add up to every row of the user dated in its span once, plus the rows as often as their midnights lie in handovers, less the rows whose midnights lie in gaps |
| TrafficWorker.RolledMark | internal/worker/traffic.go:58-77 | a written mark is at least 28 days ahead and under five hours past the expiry, and nothing else of the user changes |
| TrafficWorker.PassWrites | internal/worker/traffic.go:23-77 | a user the pass reaches is rolled if and only if the mark has passed or the window's rows total more than the quota, and the next mark is under five hours past the expiry; the new mark is one period from the roll |
| TrafficWorker.QuotaRolls | internal/worker/traffic.go:43-47 | before the mark has passed, rows totalling at most the quota leave it, and rows totalling more move it when the subscription is paid up |
| TrafficWorker.PassLeaves | internal/worker/traffic.go:29-41 | a user not reached, or without mark or period, or whose usage or write fails, is left alone, as are all plans and rows |
| TrafficWorker.UsedInWindow | internal/service/traffic.go:19-41 | what counts as used is the total of the rows in the user's window, and nothing without a mark or a period |
| TrafficWorker.CreatedAsNamed | internal/service/plan.go:42-153 | a plan is stored under the very name it is given, less white space around it, unless the name is empty, over 255 characters or taken, the quota not positive, the period none of the four, the owner unknown or a write fails |
| TrafficWorker.AssociatedAsTold | internal/service/plan.go:164-184 | association gives the user the plan and the same new expiry and mark; with the plan or the user missing nothing changes |
| Text.TrimTakesSpace | internal/service/plan.go:43 | trimming takes white space off both ends and nothing else |
| Text.SpacesInFigures | internal/service/plan.go:43 | white space is, code point by code point, what Go and JavaScript each take it to be |
| TrafficWorker.StepKeepsMarksPaidUp | internal/service/user.go:140-156 | every step keeps all marks paid up, except an edit that moves an expiry five hours or more before the mark and a late visit of a pass that rolls past the expiry there is by then: if and only if |
| TrafficWorker.ExtensionExtends | internal/service/user.go:140-156 | moving an expiry forward is never that exception |
| TrafficWorker.LateVisitExtends | internal/worker/traffic.go:23-77 | nor is a late visit when the expiry has only moved forward since the pass read the user |
| TrafficWorker.LateVisitStrands | internal/worker/traffic.go:23-77 | a pass that read the user before an expiry was cut short does roll the mark past it |
| TrafficWorker.RunKeepsMarksPaidUp | internal/worker/traffic.go:23-77 | reset < expiry + 5h for every user after any run of associations, plan creations, passes, late visits, recorded rows and edits without such an exception |
| TrafficWorker.HistoryIsARun | internal/worker/traffic.go:23-52 | while a user keeps their plan their marks form a run of rolls ending at the stored mark, whatever passes are made and whatever happens to expiries, other users and other plans |
| TrafficWorker.WorkerBillsEveryRow | internal/worker/traffic.go:23-77 | the same sum for the marks the worker itself writes, due rolls and quota rolls, with the last window ending at the stored mark |
| TrafficWorker.DueRollNeedsRenewal | internal/worker/traffic.go:43-77 | a due roll is made only with an expiry paid up to 28 days past the mark |
| TrafficWorker.NoRollBeforeRenewal | internal/service/plan.go:164-184 | as association leaves a user, no due visit rolls the mark |
| TrafficWorker.LateRenewalLosesRows | internal/worker/traffic.go:33-77 | after an association, passes past the mark, a renewal and the first pass after it, every day from the mark to a day before that pass is left to no window |
| TrafficWorker.Store.AssociatePlan | internal/service/plan.go:164-184 | expiry and mark both become the end of one period from now; an unknown plan is refused and an unknown user changes nothing |
| TrafficWorker.Store.CreatePlan | internal/service/plan.go:42-153 | the name is trimmed; an invalid or duplicate plan, an unknown owner or a failing write leaves the books as they were; otherwise the plan is stored and the owner gets it with fresh marks |
| TrafficWorker.Store.EditUser | internal/service/user.go:140-156 | only the expiry changes, and only when one is given |
| TrafficWorker.Store.PeriodTrafficUsage | internal/service/traffic.go:19-41 | the loop's total is the sum of the user's rows dated inside the window, and zero without a mark or a period |
| TrafficWorker.Store.RollTrafficPeriod | internal/worker/traffic.go:58-78 | the mark moves one period on from now if and only if there is an expiry, the new mark is under five hours past it and the write succeeds |
| TrafficWorker.Store.ReconcileUser | internal/worker/traffic.go:33-48 | one turn of the pass's loop changes this user alone, as the step function says |
| TrafficWorker.Store.ReconcileTrafficPlans | internal/worker/traffic.go:23-50 | a pass handles each user up to cancellation once, each by their own state at its start, and touches nobody after it |
| PortTable.KeyNamesDistinct | internal/forward/manager/mgr.go:506-540 | a port's plain, `udp#` and `udpV2#` keys never collide, with each other or with another port's |
| PortTable.RunsArePaired | internal/forward/manager/mgr.go:176-480 | after any run of operations a UDP entry exists only beside its port's entry and belongs to the same rule or chain |
| PortTable.DeleteIsExact | internal/forward/manager/mgr.go:489-541 | deleting a port removes every entry of that port and none of another |
| PortTable.DeletedPortReopens | internal/forward/manager/mgr.go:489-541 | after any run, a deleted port can be opened again and every other port is untouched |
| PortTable.DeletedFromAny | internal/forward/manager/mgr.go:489-541 | in any table at all, a deletion needs the port's own entry and takes one companion with it, the `udp#` one first |
| PortTable.OpensAsAsked | internal/forward/manager/mgr.go:176-480 | a rule's listener forwards where it is told and has a UDP companion if and only if it is plain TCP and the agent relays UDP; a chain's if and only if the agent does; a closed port has nothing left, and no other port changes |
| PortTable.MovesAsAsked | internal/service/rule.go:271-281 | a change opens the new port as asked if it can be bound and is free or the old one; the old port is closed either way |
| PortTable.ChainsOpen | internal/forward/manager/mgr.go:133-143 | chains open, repeated ports included, if and only if none of their ports is held by another process |
| PortTable.RulesOpen | internal/forward/manager/mgr.go:144-154 | rules open on top of a table if and only if their ports are distinct, free in it and not held elsewhere |
| PortTable.AgentStarts | internal/forward/manager/mgr.go:133-154 | an agent comes up if and only if no port is held elsewhere and rule ports are distinct and none is a chain's; then exactly the snapshot's ports are open with their remotes |
| PortTable.AllServed | internal/forward/manager/mgr.go:133-154 | every rule of the snapshot is then open under its own protocol, with a companion or without, and every chain |
| PortTable.Manager.AddRule | internal/forward/manager/mgr.go:176-400 | one table step; refused if and only if the port is taken or cannot be bound |
| PortTable.Manager.AddChain | internal/forward/manager/mgr.go:402-480 | one table step; refused if and only if the port is taken or cannot be bound |
| PortTable.Manager.DelPort | internal/forward/manager/mgr.go:489-541 | one table step: the port's entry and its UDP companion go, or nothing does |
| PortTable.Manager.InitAgent | internal/forward/manager/mgr.go:133-154 | panics if and only if the snapshot cannot be opened, and otherwise ends with the table opened from it |
| Refinement.ChainRemoved | internal/service/chain.go:143-161 | removing a chain row closes its port in the projection if and only if it was the only row on the port |
| Refinement.RegisterNodeKeeps | internal/service/node.go:180-257 | the snapshot handed to a starting agent lists exactly its node's rules and chain ports |
| Refinement.InitAgentKeeps | internal/forward/manager/mgr.go:133-154 | opening the snapshot, or panicking over it, keeps agents and rows matched |
| Refinement.RestartSucceeds | internal/service/node.go:211-241 | an agent started from a snapshot comes up if and only if no other process holds one of its ports |
| Refinement.RestartRestores | internal/service/node.go:180-257 | a crash, a registration and a start restore what the agent served |
| InFlight.PerformedIsARun | internal/service/rule.go:153-171 | an action's task left alone is its call and its write, one after the other |
| InFlight.AloneIsARun | internal/service/rule.go:110-348 | an action nobody disturbs is a run of the steps: its reads, then its call and its write |
| InFlight.BulkIsARun | internal/service/rule.go:356-394 | so is the bulk change, its tasks following one another |
| StepEffects.AddingRuleCall | internal/service/rule.go:153-156 | the call for a new rule keeps the match, its row to come, if and only if the agent has not opened the port for a reply that is lost |
| StepEffects.AddingChainCall | internal/service/chain.go:91-106 | so does the call for a first chain row |
| StepEffects.AddingChainUncalled | internal/service/chain.go:87-106 | a further chain row fits if and only if its port is a chain's and no rule's by the time it is written, and its address is not taken |
| StepEffects.DeletingRuleCall | internal/service/rule.go:199-211 | the call for a deletion keeps the match if and only if the rule is still on the port that was read, or is gone with nothing on that port; a lost reply, if and only if nothing was open there |
| StepEffects.DeletingRuleRefused | internal/service/rule.go:201-206 | a refused deletion keeps it if and only if the agent is down, or the rule is gone already |
| StepEffects.DeletingChainCall | internal/service/chain.go:171-186 | the call for the last chain row keeps it if and only if the row is still the last, or is gone with nothing on its port |
| StepEffects.MovedTable | internal/service/rule.go:267-282 | the agent's half of a change succeeds if and only if the port can be opened, and otherwise leaves the old port closed |
| StepEffects.ChangingRuleCall | internal/service/rule.go:267-282 | the call for a change keeps it if and only if the rule is still where it was read and the row will have the address the agent got, or the call changes nothing; a failed or unanswered call, if and only if it left the port as it was |
| StepEffects.UncalledKeeps | internal/service/chain.go:87-106 | a row written without a call keeps it if and only if it still goes with what the agent serves |
| Overlap.WriteOutOfTurn | internal/service/rule.go:343-347 | rows that do not conflict may land in any order |
| Overlap.OneOrderBreaks | internal/service/rule.go:343-347 | two changes of one rule that disagree let an agent that is up down in one of the two orders |
| Overlap.EarlierIsPast | internal/service/chain.go:82-92 | an action's reads and a registration's may be taken from any states that have been, each its own |
| Overlap.RegisterStep | internal/service/node.go:211-241 | a registration keeps the match if and only if the rules and the chains it has read are those the actions in flight will leave, each rule port once |
| Overlap.QuietRegistration | internal/service/node.go:211-241 | so it keeps the match when nothing is waiting to be written for its node |
| Overlap.StepKeepsExactly | internal/service/rule.go:110-394 | of all calls, writes, registrations, starts and crashes of any overlapping actions, whatever each has read before, a step ends the match if and only if it is one of those named |
| Overlap.RunsKeepMatched | internal/service/rule.go:110-394 | after any run of overlapping actions without such a step agents and rows are matched |
| Overlap.AgentsServeTheirRows | internal/service/chain.go:82-106 | an agent that is up then serves exactly its rules with their remotes, and listens on a chain port if and only if a chain row has it, counting the rows still to be written and, where there are none, as the tables stand |
| Mishaps.ReplyToAdditionLost | internal/service/rule.go:153-156 | a run in which the reply to a new rule is lost: a listener without a row |
| Mishaps.RestartDuringAddition | internal/service/rule.go:153-165 | a run in which the agent restarts between a new rule's call and its insert: a row without a listener |
| Mishaps.DeletionUnderStart | internal/service/rule.go:199-215 | a run in which a rule is deleted while its agent starts: an agent told of a rule that is gone |
| Mishaps.MoveToBusyPort | internal/service/rule.go:270-282 | a run in which a rule is moved to a held port: a row without a listener |
| Mishaps.ChangesOverlap | internal/service/rule.go:284-348 | a run in which two changes read one row: two ports open for one rule |
| Mishaps.WritesOvertake | internal/service/rule.go:338-347 | a run in which two changes call in one order and write in the other: a listener to an address the row does not have |
| Mishaps.TwoDeletions | internal/service/chain.go:167-186 | a run in which the IPv4 and the IPv6 row of a port are deleted at once: a listener without a row |
| Undisturbed.AddRuleKeeps | internal/service/rule.go:110-172 | adding a rule with nothing in between keeps agents and rows matched, refused or lost on the way or not |
| Undisturbed.DelRuleKeeps | internal/service/rule.go:174-216 | undisturbed, deleting a rule keeps them matched if and only if the agent is not between registration and start, or the call is lost |
| Undisturbed.ModifyRuleKeeps | internal/service/rule.go:267-348 | undisturbed, changing a rule keeps them matched if and only if the call is not made to an agent that can only close the old port |
| Undisturbed.ModifyRulesKeeps | internal/service/rule.go:356-394 | undisturbed, the bulk loop succeeds if and only if every selected rule's agent answers and can open the port and, when a host is given, every address has a colon; it breaks the match if and only if it reaches a rule whose port cannot be opened again |
| Undisturbed.AddChainKeeps | internal/service/chain.go:48-122 | undisturbed, adding a chain row keeps listener and row count matched and the (node, port, ip) triples distinct |
| Undisturbed.DelChainKeeps | internal/service/chain.go:124-193 | so does deleting one, by whoever, with the call lost or not |
| Undisturbed.AddThenDelete | internal/service/rule.go:110-216 | deleting a rule just added restores every row, every table and every agent |
| Results.AddedRule | internal/service/rule.go:110-172 | the row has the request's fields and the agent serves the port as the request says, or nothing changes; which of the two, exactly |
| Results.DeletedRule | internal/service/rule.go:174-216 | the row goes, and everything on its port at the agent, unless the call is lost |
| Results.ChangedRule | internal/service/rule.go:284-348 | the fields given are written and no others, name and chain included but not the protocol, while the agent serves the port under the new chain's protocol; a name alone needs no agent |
| Results.NotChanged | internal/service/rule.go:288-321 | a rule that does not exist, or one to be moved to a chain that does not, is left alone and so is the agent |
| Results.RehostedRow | internal/service/rule.go:371-391 | a selected rule the bulk change gets to has the new host in front of what stood after the first colon, up to a second |
| Results.RowKept | internal/service/rule.go:371-391 | a rule not selected, or after the first failure, keeps its row, and so does every rule when no host is given |
| Results.BulkRehosts | internal/service/rule.go:356-394 | after a bulk change that succeeds with a host, every selected rule forwards to that host and the port it had, on its row and on its agent, under the protocol it had |
| Results.BulkWithoutHost | internal/service/rule.go:356-394 | without a host all rows stay and every selected rule is opened anew |
| Results.AddedChain | internal/service/chain.go:48-122 | the row has the node's address of the kind asked for, refused if that address is on the port already, and the agent opens the port for its first row only |
| Results.DeletedChain | internal/service/chain.go:124-193 | the last row on a port closes it at the agent; another is deleted by administrators only, without the agent |
| Results.RuleReads | internal/service/rule.go:174-216 | a deletion looks for the node after it has found the rule |
| Results.ChangeReads | internal/service/rule.go:288-337 | a change judges the rule by its first read and the chains by its second |
| Results.AdditionReads | internal/service/chain.go:60-100 | a chain's addition sees its node first, then whether the address is free, then whether the port has rows |
| Results.DeletionReads | internal/service/chain.go:130-165 | a chain's deletion finds its row first and counts the rows on the port after |
| Results.RegisteredNode | internal/service/node.go:180-257 | the address stored is the one the agent names, of the kind it prefers, or the one it called from; the manager address defaults to it and the port to 8123 |
| Results.RegisteredAgent | internal/service/node.go:211-241 | what the agent is handed are its rules and chains as read, each with its protocol, and no others |
| Results.StartedAgent | internal/forward/manager/mgr.go:133-154 | it opens all it was handed, or panics and is down |
| Results.AddedNode | internal/service/node.go:112-137 | a new node cannot be used until its agent registers, and other nodes stay as they are |
| Controller.Service.AddRule | internal/service/rule.go:110-172 | the guards, the agent's call and the insert come to the action's read, call and write with nothing in between, success included |
| Controller.Service.DelRule | internal/service/rule.go:174-216 | likewise, with a refused connection deleting the row all the same |
| Controller.Service.AgentModify | internal/service/rule.go:267-282 | the agent closes first and opens second, so a failure leaves the port closed |
| Controller.Service.ChangeOf | internal/service/rule.go:284-337 | field by field, the request to the agent and the fields to write are what the action reads them to be |
| Controller.Service.ModifyRule | internal/service/rule.go:284-348 | the agent is called only if one of them needs it, and the row written only if it agrees |
| Controller.Service.ModifyOne | internal/service/rule.go:366-392 | one turn of the bulk loop, with the new host in front of the old port |
| Controller.Service.ModifyRules | internal/service/rule.go:356-394 | the loop stops at the first failure and leaves the rules after it alone |
| Controller.Service.AddChain | internal/service/chain.go:48-122 | the agent is called only for the first row on a port |
| Controller.Service.DelChain | internal/service/chain.go:124-193 | the agent is called only for the last row on a port, and only an administrator deletes another |
| Controller.Service.RegisterNode | internal/service/node.go:180-257 | the two loops list the node's rows in order, and the addresses stored are the agent's own or, failing that, the one it called from |
| AddressCodec.PackAddress | internal/forward/connector/udp_chain_connector/udp_chain_connector.go:188-209 | the buffer filled byte by byte holds version, length, IP, port and payload |
| AddressCodec.UnpackPacked | internal/forward/connector/udp_chain_connector/udp_chain_connector.go:188-241 | every 4- or 16-byte IP, port and payload comes back unchanged, IPv4-mapped addresses in 4-byte form |
| AddressCodec.Ipv4InBytes | internal/forward/connector/udp_chain_connector/udp_chain_connector.go:188-241 | a 4-byte IP, in Go's 4-byte or 16-byte form, is sent as 0x00, 4, the four bytes and the port high byte first, and read back as it is |
| AddressCodec.Ipv6InBytes | internal/forward/connector/udp_chain_connector/udp_chain_connector.go:188-241 | any other 16-byte IP is sent as 0x80, 16, the IP and the port, and read back as it is |
| AddressCodec.AcceptedBytes | internal/forward/connector/udp_chain_connector/udp_chain_connector.go:212-241 | a packet is accepted if and only if it has four bytes and all that its length byte asks for, and the length agrees with a version 0x00 or 0x80 |
| AddressCodec.OddAddressRefused | internal/forward/connector/udp_chain_connector/udp_chain_connector.go:188-241 | an IP of any other length packs into a packet that is refused |
| AddressCodec.PackedInjective | internal/forward/connector/udp_chain_connector/udp_chain_connector.go:188-209 | equal packets have the same address and payload |
| AddressCodec.PackUnpacked | internal/forward/connector/udp_chain_connector/udp_chain_connector.go:212-241 | packing an accepted packet's parse gives it back if and only if its version is 0x00 or 0x80 and its IP is not IPv4-mapped |
| ProxyPair.ProxyServer.HandleClientPacket | internal/forward/connector/udp_chain_connector/udp_chain_connector.go:253-291 | a packet goes out with the proxy's target in front, over the client's session or a new one; a failed write drops the session |
| ProxyPair.ProxyServer.HandleServerPacket | internal/forward/connector/udp_chain_connector/udp_chain_connector.go:294-337 | a payload goes to the address the session was first connected to; packets too short or malformed go nowhere |
| ProxyPair.StepKeepsInv | internal/forward/connector/udp_chain_connector/udp_chain_connector.go:253-337 | every step of the composed system keeps sessions pinned to their proxy's target and the wire genuine |
| ProxyPair.EmissionsFaithful | internal/forward/connector/udp_chain_connector/udp_chain_connector.go:253-337 | over every run everything the server emits for a proxy's source goes to that proxy's target and is a payload it received |
| ProxyPair.GenuineDelivered | internal/forward/connector/udp_chain_connector/udp_chain_connector.go:212-337 | a genuine datagram is never dropped for its contents and yields exactly one emission |
| ProxyPair.ServerTurn | internal/forward/connector/udp_chain_connector/udp_chain_connector.go:162-337 | a packet of four bytes or fewer, or with no header, goes nowhere; any other over its source's session, or a new one to the address it names; a failed write ends the session |
| ProxyPair.ClientTurn | internal/forward/connector/udp_chain_connector/udp_chain_connector.go:253-291 | a client's packets go out over the client's one socket, a failed write ends it, and no other proxy is touched |
| ProxyPair.KeepsSocket | internal/forward/connector/udp_chain_connector/udp_chain_connector.go:253-291 | a client keeps its socket through any step but the end of its own session |
| ProxyPair.SentWhilePinned | internal/forward/connector/udp_chain_connector/udp_chain_connector.go:294-337 | over any run, until a source's session ends all its payloads go to the address it was first connected to, whatever they name |
| Sessions.StepKeepsInv | internal/forward/connector/udp_connector.go:570-750 | every step of every goroutine keeps the session table's invariant |
| Sessions.SessionsServed | internal/forward/connector/udp_connector.go:628-671 | under every interleaving the wait group equals the loops it counts and is never negative; before `Close` each mapped client has an open socket and a return loop of its own |
| Sessions.StepMakesOrphan | internal/forward/connector/udp_connector.go:712-715 | a step leaves an open session nobody will find if and only if it deletes a client's entry that belongs to another session |
| Sessions.HarmlessRunLeavesNoOrphans | internal/forward/connector/udp_connector.go:712-715 | without such a delete every open socket is mapped or being set up or closed |
| Sessions.DropsTheNewSession | internal/forward/connector/udp_connector.go:660-715 | a concrete interleaving in which a failed session's late delete takes its successor out of the map |
| Sessions.OrphanStays | internal/forward/connector/udp_connector.go:718-750 | a session out of the map is never mapped again, so no later sweep closes it |
| Sessions.LoopGoesOn | internal/forward/connector/udp_connector.go:674-709 | a return loop waits on through any number of timeouts; it stops waiting if and only if a read or passing a reply on fails, or it sees the shutdown |
| Sweeps.ActiveIsLastUse | internal/forward/connector/udp_connector.go:656-709 | the time kept for a session is that of its dial, its last write or its last reply, under every interleaving |
| Sweeps.ClosesWhatItFoundIdle | internal/forward/connector/udp_connector.go:728-748 | under every interleaving, what a sweep has still to close are the last of the clients whose sessions it found unused for longer than the timeout, in the order it found them |
| Sweeps.ComesByAll | internal/forward/connector/udp_connector.go:731-738 | by the time a sweep starts to close sessions it has come by every client there was when it started |
| Sweeps.ClosesUsedAgain | internal/forward/connector/udp_connector.go:728-748 | a run in which it closes a session that has been used since |
| Sessions.ListensUntilRanged | internal/forward/connector/udp_connector.go:609-625 | packets are received until `Close` has gone through all sessions |
| Sessions.ReturnsWhenStopped | internal/forward/connector/udp_connector.go:609-625 | over any run `Close` returns only when every return loop and the sweeper have stopped |
| Sessions.UsesOpenSockets | internal/forward/connector/udp_connector.go:664-709 | over any run only open sockets are written to or deliver |
| Sessions.Drains | internal/forward/connector/udp_connector.go:609-625 | after `Close` is called only a bounded number of steps remain, beyond an allowance for each late sweep that its range of keys fixes |
| Sessions.HaltedMeansDone | internal/forward/connector/udp_connector.go:609-625 | then no step is left if and only if all loops and the sweeper have stopped and `Close` has returned, with the group at zero |
| Sessions.ReopensAfterClose | internal/forward/connector/udp_connector.go:570-625 | the group can rise after `Close` has returned if and only if the packet loop was then setting up a session |
| Shutdown.ReopensFromStart | internal/forward/connector/udp_connector.go:583-625 | a run from the start in which `Close` returns and the group can still rise |
| Shutdown.LeftOpen | internal/forward/connector/udp_connector.go:609-625 | once everyone has stopped a socket is open if and only if no step closed it and it is the session being set up when `Close` was called, or one dropped by another's delete before or after |
| Shutdown.SocketLeftOpen | internal/forward/connector/udp_connector.go:609-693 | a run from the start that ends with everyone stopped and such a socket open |
| Forwarder.UdpForwarder.HandlePacket | internal/forward/connector/udp_connector.go:628-671 | a packet goes out over its client's one session, a new one if need be; a failed write closes and forgets the session |
| Forwarder.UdpForwarder.CloseClient | internal/forward/connector/udp_connector.go:712-715 | the entry goes and the socket closes |
| Forwarder.UdpForwarder.ExpiredKeys | internal/forward/connector/udp_connector.go:731-738 | collects exactly the keys idle for longer than the timeout |
| Forwarder.UdpForwarder.CleanupExpiredClients | internal/forward/connector/udp_connector.go:718-750 | a sweep left undisturbed closes exactly the idle sessions and keeps every other |
| Relay.CopyConn | internal/forward/connector/connector.go:32-52 | for every chunking the bytes delivered are a prefix of the bytes passed, the callback counts exactly those, and a failed write loses at most one buffer |
| TrafficCounter.SnapshotPlusAdded | internal/forward/connector/tcp_connector.go:110-131 | while a request is out the counter is its snapshot plus what was added since |
| TrafficCounter.Conservation | internal/forward/connector/tcp_connector.go:110-131 | in every state of every run booked + current + lost = counted + booked twice + awaiting the reset, lost being the bytes added between snapshot and reset of successful rounds |
| TrafficCounter.NeverOverbooked | internal/forward/connector/tcp_connector.go:110-131 | if no reply is lost after booking, the controller never books more than was counted |
| TrafficCounter.NeverReportsZero | internal/forward/connector/tcp_connector.go:110-131 | every request carries at least one byte |
| TrafficCounter.Connector.Count | internal/forward/connector/tcp_connector.go:168-215 | the callbacks add their bytes and nothing else happens |
| TrafficCounter.Connector.ReportCurTraffic | internal/forward/connector/tcp_connector.go:110-131 | one turn of the loop is a run of the steps, and a successful one loses exactly the bytes added after its snapshot |
| TrafficLedger.BookedOnce | internal/service/data.go:54-104 | an accepted report adds the scaled amount to its user's counters once, and to the user's rows the scaled or, on a new row, the raw amount, or nothing when the second write fails |
| TrafficLedger.BookedFromTables | internal/service/data.go:54-104 | a report is booked if and only if there is a rule on the node's port, on no chain or one that exists, and the counter's write succeeds; counter and daily row then change as stated and nothing else does |
| TrafficLedger.CountersAgainstRows | internal/service/data.go:64-102 | over any reports a user's counters gain more than the user's rows by exactly scaled less raw of the reports that start a row, and all of those whose row fails |
| TrafficLedger.UnscaledAgrees | internal/service/data.go:64-102 | at a combined rate of 1, and when no row fails after its counter, both gain the same |
| TrafficLedger.Tables.ReportNetworkTraffic | internal/service/data.go:54-104 | the action performs exactly one booking, either write failing or not, and reports failure if and only if the rule or its chain is missing or a write fails |
| Observer.ObserveNetworkTraffic | internal/service/data.go:25-52 | the loop sends the reports in order, up to the first that is refused |
| Observer.NameRoundTrip | internal/forward/manager/mgr.go:181-219 | for every listen address and port the observer recovers the port from a TCP service's name and skips every UDP and chain name |
| Observer.PortOfAnyName | internal/service/data.go:37-43 | any other name reports port 0 if its last part is no number, and otherwise the low 32 bits of the number, or of the nearest that fits 64 bits |
| Observer.SkippedAnywhere | internal/service/data.go:28-32 | a name with `udp` or `chain` anywhere in it is not reported |
| Observer.BatchReportsTcp | internal/service/data.go:25-52 | a batch reports each TCP event's own port with input + output bytes, in order, and nothing else |
| InstallCommand.ShellQuoteAdds | web/src/lib/install-command.ts:42-46 | anywhere in a line, a quoted value adds exactly itself to the word being read |
| InstallCommand.QuotedIsOneWord | web/src/lib/install-command.ts:42-46 | for every value its quoting is one word equal to it |
| InstallCommand.QuotedWhenNeeded | web/src/lib/install-command.ts:31-46 | a value is quoted unless it is made up of letters, digits and the twelve safe characters |
| InstallCommand.CommandReadsAsIntended | web/src/lib/install-command.ts:53-70 | whatever the three values contain the shell reads the intended words and one pipe; a blank value gives no command |
| InstallCommand.CommandKeepsValues | web/src/lib/install-command.ts:53-70 | three values without white space at their ends are read as those very values, in their places |
| InstallCommand.PaddingIsIgnored | web/src/lib/install-command.ts:59-61 | white space around any of the three makes no difference |

## Left out

- PortTable.Manager.AddRule: a chain address or UDP address that cannot be resolved is not told from a port that cannot be bound.
- PortTable.Manager.AddChain: a UDP proxy that cannot be created after the TCP entry is stored; its address is the port's, which has been resolved by then.
- PortTable.Manager.InitAgent: the branch that goes on after an `already exists` error, which outside gost mode no error of `AddRule` or `AddChain` meets.
- Controller.Service.AddChain: the creator's grant, written after the chain row.
- Controller.Service.RegisterNode: the rules' chain addresses in the response.
- Controller.Service.DelChain: a user's grant is looked up before the row and deleted after it; the model has a flag for administrators instead.
- Overlap.StepKeepsExactly: an agent's handling of one call is one step, so two calls on one agent do not interleave; a new row's id is fixed when its call succeeds.
- Overlap.AgentsServeTheirRows: covers ports and remote addresses; a chain address or protocol on the agent may differ from the row's, as the bulk change sends no chain address, a chain switch leaves the row's protocol, and deleting a chain leaves rules running on it.
- TrafficWorker.HistoryIsARun: passes that nobody disturbs; a visit that comes after other actions is a step of its own in `RunKeepsMarksPaidUp` and not part of a user's run.
- TrafficWorker.WorkerBillsEveryRow: takes the marks to be calm, as due rolls always are; of rolls made because the quota is used up it leaves out one within three days after a roll that spilled and one before the first window is a day old.
- TrafficLedger.Tables.ReportNetworkTraffic: takes the scaled amount as given, so `float32` rounding of the rates is not modelled; byte counters do not overflow.
- Forwarder.UdpForwarder.CleanupExpiredClients: describes a sweep nobody disturbs; sweeps among other goroutines are in `Sessions`.
- Sessions.Drains: bounds the steps and does not model the scheduler, so it says nothing of fairness; each late sweep has an allowance instead of a bound on how many ticks arrive.
- Sockets, TLS, HTTP and MySQL: a dial, bind, call or request succeeds or fails. Writes of rule, chain and node rows, plan associations and expiry edits succeed; the worker's, plan creation's and traffic's may fail.
- `manager.Init`, which a controller that relays runs when it starts: it replays every chain and rule row to the agents and deletes a port that is in use first.
- Gost mode, apart from the names of its services.
- Port 0, UDP addresses that cannot be bound, and a port lost between the agent's probe and its listen.
- Time zones and daylight saving: one fixed-offset clock. Unknown plan periods appear in the code's functions and are excluded where a theorem needs a length.
- Nodes that are deleted, and users' and chains' grants.
- `UDPConnector`, `UDPConnectorV2` and the TLS connection handler, which repeat what is modelled or are not started.
- Expansions in the shell: a line that asks for a parameter or command expansion has no reading here, and pathname expansion of unquoted words is not performed. JavaScript strings are sequences of characters, so lone surrogates do not occur.
- The chain proxy's own `Close`, which closes the main socket before the sessions' sockets; its session table is otherwise the forwarder's.
- Authorization, redaction, request ids, configuration, the console's components, generated data access and commands.
