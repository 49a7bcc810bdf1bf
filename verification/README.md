# Verified models of the Incudal host agent, browser client and invite bot

This project models the stateful parts of Incudal in Dafny and proves what they keep over whole runs. Each module
follows one component. Code that changes state is a class or a method with the loops of the original, proved against
a specification function or relation; the guarantees are lemmas about those, over every input, every run or every
interleaving.

| file | component |
|---|---|
| `Text.dfy`, `Decimal.dfy` | the string and number operations of the Go library that several components use |
| `NetworkPolicy.dfy`, `PolicyTable.dfy` | translating a policy bundle into nftables rules, and what the rules mean for a packet |
| `DnsProfiles.dfy`, `PortAllocator.dfy` | the dnsmasq profile and the local port of each instance |
| `RolloutHost.dfy`, `PolicyRollout.dfy`, `PolicyGuarantees.dfy` | the generational rollout, with a failure or an interruption possible at every system call |
| `BridgeDetection.dfy` | choosing the bridge from `bridge fdb show` |
| `AuditScanner.dfy`, `AgentLoop.dfy` | the round-robin scanner, the audit queue and the policy backoff of the heartbeat loop |
| `PpsConfig.dfy` | the PPS configuration normaliser and the two programs that read its output |
| `SelfUpgrade.dfy` | the self-upgrade with backup, rollback and lock |
| `IncusReport.dfy` | the report workers and the billed traffic |
| `TokenRefresh.dfy`, `RequestDedup.dfy` | the browser client's token refresh, retry loop and GET de-duplication |
| `InviteBot.dfy` | the invite-code ledger |

`dafny verify dfyconfig.toml` checks everything.

## How failures, time and concurrency are modelled

- The answers of the operating system, the network and other programs are parameters (`World` in `PolicyRollout`
  and `SelfUpgrade`, arguments elsewhere), so contracts say exactly when a call succeeds and what each failure leaves.
- The rollout records its system calls in a log. Every prefix of the log is a state in which the agent may be stopped;
  `Apply` requires nothing of the host but that such a log leads to it.
- The rollout assumes that a port held by a daemon does not probe as free, that new directories and processes get new
  names, that `nft -f` is all or nothing and reports which, and that a daemon ends when, and only when, it is killed
  through its pid file. `nft list` may fail although the table exists.
- The browser client, the workers and concurrent upgrades are step systems. One step is a stretch of code between two
  awaits, one channel or wait-group operation, or one file-system change.
- The guard script is taken to find a valid `BRIDGE_NAME` and to inherit no `PPS_` variable from its environment.
- Clock readings do not decrease; those of the browser client are positive.
- The theorems on token refresh are about the two entry points in `client/src/api/index.ts`; the six-day timer in
  `client/src/App.vue` posts to the same address without the lock and is not part of this model.

## Where the code differs from what it says of itself

- The rollout takes any failure of `nft list` for the absence of a table; `nft -f` then appends to the old chains and
  succeeds. Old redirects stay first while their daemons are killed, and old block rules stay in force
  (`PolicyGuarantees.RedirectedDnsIsAnsweredIff`, `PolicyGuarantees.InstalledTableEnforcesIff`,
  `PolicyGuarantees.UnlistedCallStrands`). The next successful call whose listing succeeds
  sets it right (`PolicyGuarantees.ListedCallRepairs`).
- `normalizeConfig` is not idempotent on every file: a CR that is not directly followed by a line feed can survive a
  pass and be removed by the next (`PpsConfig.IdempotentIff`, `PpsConfig.NotAlwaysIdempotent`). The rewriting still stops.
- If a file sets a limit twice, the report shows the first line and the guard enforces the last
  (`PpsConfig.ReadersAgreeIff`, `PpsConfig.ReadersCanDisagree`).
- A failed upgrade keeps the old program only if `os.Stat` saw it: otherwise no backup is made and a rollback installs
  whatever older backup exists (`SelfUpgrade.FailureKeepsOldIff`, `SelfUpgrade.StaleBackupComesBack`).
- An `ip_block` entry of the form `::ffff:a.b.c.d` is written with the IPv4 selector; nft refuses the table, so the
  whole bundle fails (`PolicyTable.LoadableIff`, `PolicyTable.MappedLiteralRefused`).
- The bridge detection counts a `dev` name also when a `master` follows it on the line; the comment describes `dev` as
  a fallback only (`BridgeDetection.CommentHoldsIff`). So a port can be chosen although its bridge is named: exactly
  when fewer than half of its entries name the bridge, or just half and the port's name is the lesser
  (`BridgeDetection.PortOrBridge`, `BridgeDetection.PortIsChosen`). The model follows the code.
- The comment on the keys of GET requests, that they never share a response between sessions, holds for every token
  that the server issues, as JSON web tokens hold no colon (`RequestDedup.TokensWithoutColonSeparate`). The key format
  itself does not give it (`RequestDedup.SessionsShareIff`, `RequestDedup.KeysCanCoincide`).

## Model

| member | source | states |
|---|---|---|
| NetworkPolicy.CheckTargets | agent/internal/policy/policy.go:72-79 | true exactly when every target of every policy has a MAC that is valid once trimmed and lower-cased; otherwise nothing of the bundle is used |
| NetworkPolicy.ValidMacIff | agent/internal/policy/policy.go:75-77 | a MAC is valid iff it is six pairs of lower-case hexadecimal digits with colons between them |
| NetworkPolicy.AppendBlocks | agent/internal/policy/policy.go:92-100 | the rules of one ip_block list: one for each literal that parses with its prefix, in order, in the IPv4 or the IPv6 group by `To4` |
| NetworkPolicy.AppendOverrides | agent/internal/policy/policy.go:127-147 | the override lines of one policy, domain by domain in order; which lines these are is `DnsProfiles.OverrideLinesIff` |
| DnsProfiles.OverrideLinesIff | agent/internal/policy/policy.go:127-147 | a line is among them iff the policy is a dns_override that lists a domain which is valid once `*.` is stripped and it is lower-cased, and the line names the domain and no address for nxdomain, 0.0.0.0 or :: for zero, and a listed valid address for any other action |
| NetworkPolicy.AddTarget | agent/internal/policy/policy.go:89-149 | the switch on the policy type extends exactly the rule group or profile of one (policy, MAC) pair |
| NetworkPolicy.Compile | agent/internal/policy/policy.go:72-152 | the nested loops compute the draft that is a fold over all (policy, target) pairs in bundle order, or nothing if a MAC is missing |
| PolicyTable.BuildTable | agent/internal/policy/policy.go:184-216 | the three chains of the installed table, from the draft and the staged profiles |
| PolicyTable.LoadableIff | agent/internal/policy/policy.go:93-99 | nft refuses the table for a family mismatch if and only if an ip_block policy with a target lists a usable literal of the form ::ffff:a.b.c.d |
| PolicyTable.MappedLiteralRefused | agent/internal/policy/policy.go:93-93 | a policy with any ::ffff:a.b.c.d literal, whatever its prefix and target, is refused |
| PolicyTable.ForwardMeaning | agent/internal/policy/policy.go:184-216 | meaning preservation: first-match evaluation of the forward chain drops a packet iff some policy covers it, else rejects it iff it is TCP 853 from a MAC with a blockDot DNS policy, else accepts |
| PolicyTable.LiteralCovers | agent/internal/policy/policy.go:92-96 | an address literal covers itself alone, or with a prefix length the addresses of its family that begin with the same bits |
| PolicyTable.InputMeaning | agent/internal/policy/policy.go:192-204 | the input chain accepts a packet iff it comes from lo or the bridge, or is for no dnsmasq port |
| PolicyTable.RedirectMeaning | agent/internal/policy/policy.go:184-188 | exactly the UDP and TCP port 53 packets of MACs named by a DNS policy are redirected, each to the port of its own MAC's profile |
| DnsProfiles.Unique | agent/internal/policy/policy.go:474-484 | first occurrences of the non-empty values, in order |
| DnsProfiles.FirstOccurrenceOrder | agent/internal/policy/policy.go:474-484 | each kept value is the first occurrence of its text, and before it stand exactly the distinct values of the part before |
| DnsProfiles.NoRepeats | agent/internal/policy/policy.go:474-484 | no value is kept twice |
| DnsProfiles.ProfileIsUnion | agent/internal/policy/policy.go:113-149 | a profile's distinct upstreams and lines are those of the policies that name the MAC, in bundle order and each policy once, however often one policy lists the MAC |
| DnsProfiles.LinesOfPolicies | agent/internal/policy/policy.go:113-149 | an override line is in the union iff a policy that names the MAC asks for it |
| DnsProfiles.UpstreamsOfPolicies | agent/internal/policy/policy.go:119-123 | an upstream is in the union iff it is a valid address that a DNS policy naming the MAC lists |
| PortAllocator.FindPort | agent/internal/policy/policy.go:247-253 | the inner search loop finds the least free port from the start on, and ends |
| PortAllocator.AllocatedPorts | agent/internal/policy/policy.go:243-255 | the handed-out ports are free, strictly increasing and at most 65535 |
| PortAllocator.AllocationSucceedsIff | agent/internal/policy/policy.go:243-255 | the search succeeds exactly when no more ports are asked for than there are free ones up to 65534, plus 65535 if it and 65534 are free |
| RolloutHost.AllowedKeepsTracked | agent/internal/policy/policy.go:376-457 | each allowed system call, an appending swap included, keeps: pid files name the daemons they were written for, their directories exist, and no port is shared |
| RolloutHost.SoundIffClean | agent/internal/policy/policy.go:405-425 | a system call keeps every redirect in force served by the table's own generation iff it is not a swap that appends to a table with redirects |
| RolloutHost.ListedSwapRepairs | agent/internal/policy/policy.go:409-414 | a swap whose `nft list` succeeds makes the host sound whatever an older appending swap has left |
| RolloutHost.EveryStateSoundIff | agent/internal/policy/policy.go:175-223 | over every run: all states are sound iff each swap listed the table, found none, or found one without redirects |
| PolicyRollout.SortedMacs | agent/internal/policy/policy.go:230-234 | the sorted MAC list does not depend on the order in which the map is walked |
| PolicyRollout.CheckUpstreams | agent/internal/policy/policy.go:235-239 | staging is refused iff some profile has no distinct upstream |
| PolicyRollout.StageAll | agent/internal/policy/policy.go:245-277 | one profile for each MAC in order, each with the next port and its distinct servers and lines; succeeds iff ports suffice and every file is written |
| PolicyRollout.ChooseBridge | agent/internal/policy/policy.go:158-174 | configured bridge first, then the detected one, then the default; none when no DNS policy exists |
| PolicyRollout.NetworkHost.Perform | agent/internal/policy/policy.go:399-457 | one system call on the host: allowed where it is made, with exactly its effect, and entered in the log |
| PolicyRollout.NetworkHost.Prepare | agent/internal/policy/policy.go:225-280 | succeeds exactly under `CanStage`; on failure the host is as before, apart from a new directory that cannot be removed, on success it has one new empty generation directory |
| PolicyRollout.NetworkHost.StartRollout | agent/internal/policy/policy.go:376-397 | daemons are started in order up to the first failure, which may leave a daemon with or without a pid file; older daemons, table and directories are untouched |
| PolicyRollout.NetworkHost.StopRollout | agent/internal/policy/policy.go:399-404 | all pid files of the new generation are worked off and only daemons whose kill failed remain |
| PolicyRollout.NetworkHost.StopOldExcept | agent/internal/policy/policy.go:437-457 | pid files of all other generations go, with every daemon whose kill works and every directory that can be removed |
| PolicyRollout.NetworkHost.Replace | agent/internal/policy/policy.go:405-425 | the load succeeds iff nft accepts the document, and then replaces the table if it was listed or absent and appends to it otherwise; afterwards the old generations are cleared away, or else the rollout is undone; the run stays clean iff the swap is |
| PolicyRollout.NetworkHost.Apply | agent/internal/policy/policy.go:63-223 | the whole of `apply` from any reachable host: exactly when it succeeds, the exact host after success, what a failure leaves, that every system call on the way is allowed, and that it keeps the run clean iff it fails or its swap leaves no old redirect in force |
| PolicyRollout.StagedPorts | agent/internal/policy/policy.go:234-255 | MACs and ports of a generation both ascend strictly; ports probe as free and are at most 65535 |
| PolicyGuarantees.RedirectedDnsIsAnsweredIff | agent/internal/policy/policy.go:175-223 | at every moment of a run, failures and interruptions included, all redirected DNS reaches exactly one running daemon, of the installed table's generation and for the sender's MAC, iff each swap of the run listed the table, found none, or found one without redirects |
| RolloutHost.CutShort | agent/internal/policy/policy.go:175-223 | a rollout interrupted after any system call leaves a run that the next call may continue |
| PolicyGuarantees.FailureChangesNothing | agent/internal/policy/policy.go:175-183 | if kills and removals work and no start leaves an untracked daemon, a failed call leaves the host exactly as it was |
| PolicyGuarantees.OnlyTheNewGeneration | agent/internal/policy/policy.go:217-223 | if all old daemons have pid files and kills work, after a success exactly the new generation's daemons run |
| PolicyGuarantees.InstalledTableEnforcesIff | agent/internal/policy/policy.go:63-223 | after a successful call the installed forward chain does to a packet what the bundle asks for iff the old table was listed or absent, or its chain accepts the packet or does the same to it |
| PolicyGuarantees.InstalledTableLetsIn | agent/internal/policy/policy.go:192-204 | after a successful call the input chain lets in what comes from lo or the bridge or is for no dnsmasq port, except where rules of an unlisted old table match first |
| PolicyGuarantees.DnsIsAnsweredAsConfiguredIff | agent/internal/policy/policy.go:113-149 | after a successful call from a sound host, DNS of a named instance goes to a running daemon with the distinct upstreams and lines of the policies that name it in their order, and with exactly the ones these ask for, iff the old table was listed or absent or did not redirect that DNS |
| PolicyGuarantees.DaemonsBindToBridge | agent/internal/policy/policy.go:158-204 | every daemon of a successful call binds to the chosen bridge, the interface from which the input chain lets in its port |
| PolicyGuarantees.StrandedIff | agent/internal/policy/policy.go:409-414 | DNS that an unlisted old table redirects reaches a process after the call iff the old daemon could not be killed |
| PolicyGuarantees.ListedCallRepairs | agent/internal/policy/policy.go:405-425 | a successful call whose `nft list` succeeds leaves a sound host, whatever redirects an older call has left in force |
| PolicyGuarantees.UnlistedCallStrands | agent/internal/policy/policy.go:409-414 | for every valid MAC: a sound host with that one instance and a call in which only `nft list` fails; it succeeds, and the instance's DNS is sent to a port where nothing runs |
| BridgeDetection.IsSaneInterfaceName | agent/internal/policy/policy.go:360-374 | 1 to 15 of the listed ASCII characters |
| BridgeDetection.FieldsAre | agent/internal/policy/policy.go:325-325 | the fields of a line are what stands between white space |
| BridgeDetection.AddLine | agent/internal/policy/policy.go:324-341 | one line adds 2 to the name after each `master` and 1 to the name after each `dev` that no `master` precedes |
| BridgeDetection.PickBridge | agent/internal/policy/policy.go:322-358 | the lexicographically least sane name of maximal accumulated weight, or the empty name iff no sane name has weight |
| BridgeDetection.BestUnique | agent/internal/policy/policy.go:344-358 | that name is determined by the lines |
| BridgeDetection.OrderDoesNotMatter | agent/internal/policy/policy.go:318-358 | the choice is invariant under permuting the lines |
| BridgeDetection.CommonBridgeWins | agent/internal/policy/policy.go:318-358 | if every wanted line is `mac dev D master M` with one sane M, followed by no further keyword, M is chosen |
| BridgeDetection.CommentHoldsIff | agent/internal/policy/policy.go:318-341 | a line is counted as the comment says, `dev` only where there is no `master`, iff no `dev` stands before its first `master` |
| BridgeDetection.PortOrBridge | agent/internal/policy/policy.go:322-358 | if all wanted lines are of one port of one bridge, with or without its master, the bridge is chosen iff more than half of them name it, or just half do and its name is the lesser; otherwise the port is |
| BridgeDetection.PortIsChosen | agent/internal/policy/policy.go:322-358 | `M dev vethabc123 master vmbr0 permanent` and `M dev vethabc123 permanent`: the port is chosen, for every MAC M |
| AgentLoop.Agent.SendHeartbeat | agent/cmd/incudal-agent/main.go:101-136 | sends the first 32 of the queue and removes exactly those on acknowledgement, also when more arrive in between |
| AgentLoop.DeliveryConserved | agent/cmd/incudal-agent/main.go:106-132 | for every pattern of failures and scans the accepted batches followed by the queue are all collected snapshots in order, and no batch exceeds 32 |
| AgentLoop.UnacknowledgedIsSentAgain | agent/cmd/incudal-agent/main.go:106-118 | after a failed heartbeat the next batch begins with the same snapshots |
| AgentLoop.DrainsExactly | agent/cmd/incudal-agent/main.go:106-132 | with nothing new the queue is empty exactly from ceil(len/32) accepted heartbeats on |
| AgentLoop.Agent.ShouldApplyNetworkPolicies | agent/cmd/incudal-agent/main.go:173-181 | decides whether an instruction leads to an attempt |
| AgentLoop.Agent.ProcessPolicies | agent/cmd/incudal-agent/main.go:138-163 | the retry variables after an instruction, whether attempted or not |
| AgentLoop.Agent.ProcessMonitoring | agent/cmd/incudal-agent/main.go:164-170 | what a scan finds joins the end of the queue |
| AgentLoop.BackoffClosedForm | agent/cmd/incudal-agent/main.go:149-160 | over every run the retry variables are a function of the attempts: after the k-th failure in a row of one revision the next wait is min(5 s * 2^(k-1), 300 s) |
| AgentLoop.AttemptedExactlyWhen | agent/cmd/incudal-agent/main.go:173-181 | an attempt is made exactly if the revision changed, or the last attempt failed and its wait is over; an applied revision is left alone, the empty revision included |
| AgentLoop.AttemptsNeedTime | agent/cmd/incudal-agent/main.go:138-181 | n attempts for one revision take at least the sum of the first n-1 waits |
| AgentLoop.AttemptsBounded | agent/cmd/incudal-agent/main.go:138-181 | a stretch of W milliseconds of one revision holds at most 7 + W/300000 attempts |
| AuditScanner.ScanBatch | agent/internal/audit/audit.go:41-48 | the loop reports the first b running rows in cyclic order from the cursor |
| AuditScanner.Scanner.Scan | agent/internal/audit/audit.go:21-52 | a scan that is not due or finds no rows changes nothing; otherwise it reports the picked rows and moves the cursor on by the clamped batch modulo the list length |
| AuditScanner.EachScan | agent/internal/audit/audit.go:41-48 | a scan yields min(b, number running) distinct running rows in cyclic order |
| AuditScanner.ClampIsNearest | agent/internal/audit/audit.go:31-37 | the batch size is the number from 1 to 32 nearest to the configured one |
| AuditScanner.WhenDue | agent/internal/audit/audit.go:22-28 | a forced scan is always due, another one only when scanning is enabled and the interval is over |
| AuditScanner.Fairness | agent/internal/audit/audit.go:31-51 | from any cursor a row that runs at each scan is picked within any ceil(n/b) consecutive effective scans of n rows, whatever the other rows do in between |
| AuditScanner.FairReports | agent/internal/audit/audit.go:31-51 | the same of the results and cursors of consecutive scans: the row's snapshot is in one of them |
| TokenRefresh.ApiClient.ProactiveRefreshToken | client/src/api/index.ts:444-460 | the proactive entry point up to its first await: join, decline, or start a refresh |
| TokenRefresh.ApiClient.HandleUnauthorized | client/src/api/index.ts:592-643 | the 401 branch up to its first await: give up, join, wait a second, or start the request's own refresh |
| TokenRefresh.ApiClient.ProcessQueue | client/src/api/index.ts:396-405 | every waiter is settled in order and the queue is emptied; what that does to the requests is `TokenRefresh.FinishedRequestsGoOn` |
| TokenRefresh.ApiClient.FinishRefresh | client/src/api/index.ts:645-718 | what either entry point does in one stretch once its refresh has been answered |
| TokenRefresh.ApiClient.ClearSession | client/src/api/index.ts:594-609 | the stored session is cleared and the time noted iff the cooldown since the last clearing is over |
| TokenRefresh.StepKeeps | client/src/api/index.ts:382-718 | every step of every interleaving keeps the protocol invariant |
| TokenRefresh.OneRefreshAtATime | client/src/api/index.ts:382-388 | of the refreshes that the two entry points start at most one is in flight, and the lock is taken while one is |
| TokenRefresh.NobodyWaitsUnlocked | client/src/api/index.ts:396-405 | the queue is empty whenever the lock is free, and then no refresh is in flight |
| TokenRefresh.EveryWaiterSettledOnce | client/src/api/index.ts:396-405 | every waiter is settled exactly once and by the refresh it joined, or still stands in the queue of the refresh in flight |
| TokenRefresh.RefreshesPaced | client/src/api/index.ts:452-460 | refreshes start at least 5000 ms apart, whichever of the two entry points starts them |
| TokenRefresh.SessionClearsPaced | client/src/api/index.ts:594-609 | over every run, clearings of the stored session are more than 10000 ms apart |
| TokenRefresh.ResendsBounded | client/src/api/index.ts:592-641 | a request is sent again at most once from the queue and five times after a wait for each refresh started, and once in all after its own: at most 6 * refreshes + 1 times |
| TokenRefresh.NextUnauthorizedIsFinal | client/src/api/index.ts:592-611 | once a request has run its own refresh its next 401 ends it and starts nothing |
| TokenRefresh.FinishedRequestsGoOn | client/src/api/index.ts:613-715 | over every run, at the end of a refresh each waiting request and the one that ran it is sent again, once, iff there is a token, and is given up otherwise; no other request changes |
| TokenRefresh.FinishSettlesQueue | client/src/api/index.ts:396-405 | over every run, the end of a refresh settles the waiters in order, resolved iff there is a token, and opens the lock; the session is cleared iff the refresh of a request was refused and the cooldown is over |
| TokenRefresh.RefreshStartsIff | client/src/api/index.ts:444-460 | over every run, a refresh starts iff none runs, none started in the last 5000 ms, and a proactive call or the 401 of a request that has run none comes |
| TokenRefresh.WaiterJoinsIff | client/src/api/index.ts:444-450 | over every run, somebody joins the queue iff a refresh runs and a proactive call or such a 401 comes |
| TokenRefresh.UnauthorizedRequestGoesOn | client/src/api/index.ts:592-643 | over every run, what a 401 does to its request and when it clears the session |
| TokenRefresh.WokenRequestIsSent | client/src/api/index.ts:627-635 | over every run, a wait ends, after its second, by sending the request again |
| RequestDedup.HttpClient.Get | client/src/api/index.ts:749-767 | shares the pending promise of the key or sends a request and enters it |
| RequestDedup.HttpClient.OnSettled | client/src/api/index.ts:757-764 | removes the entry only if it is still this request's |
| RequestDedup.HttpClient.CancelAllPendingRequests | client/src/api/index.ts:369-380 | forgets all entries |
| RequestDedup.StepKeeps | client/src/api/index.ts:749-767 | every entry is the newest request for its key, unsettled and sent since the last cancellation |
| RequestDedup.SharedRequestIsTheOnlyOne | client/src/api/index.ts:749-767 | in every run an unsettled request sent since the last cancellation is the entry of its key and the only such request |
| RequestDedup.OlderSettleKeepsNewer | client/src/api/index.ts:757-764 | the end of an older request leaves a newer entry alone |
| RequestDedup.GetSendsIff | client/src/api/index.ts:749-767 | over every run, a get sends a request iff no unsettled one for its key has been sent since the last cancellation |
| RequestDedup.SettledIsForgotten | client/src/api/index.ts:757-764 | over every run, the end of a request settles it and no get shares it any more |
| RequestDedup.CancelForgets | client/src/api/index.ts:369-380 | over every run, after a cancellation nothing sent before is shared |
| RequestDedup.SessionsShareIff | client/src/api/index.ts:739-746 | for URLs that begin with a slash, as all do, keys of two sessions can coincide exactly when one session's context followed by `:/` is a prefix of the other's |
| RequestDedup.KeysCanCoincide | client/src/api/index.ts:739-746 | the limit of the key format: two different tokens, one with a colon and a slash, and two paths with one key |
| RequestDedup.TokensWithoutColonSeparate | client/src/api/index.ts:740-745 | sessions whose tokens hold no colon never share a response unless their contexts are equal |
| RequestDedup.KeysTellRequestsApart | client/src/api/index.ts:739-746 | within a session, keys of paths without a query of their own are equal iff path and parameters are |
| RequestDedup.KeysWritten | client/src/api/index.ts:739-746 | how keys are written with and without a token |
| PpsConfig.WrittenSetting | agent/internal/pps/pps.go:156-188 | the written file holds, in the place of a line that sets a limit to a readable n, max(20000, min(n, 500000)), and 20000 for an unreadable one; PPS_OBSERVE_SECONDS keeps every n >= 1 and is 120 otherwise; PPS_MIN_LIMIT is 20000 |
| PpsConfig.WrittenDefaults | agent/internal/pps/pps.go:189-196 | the input lines are followed by PPS_MIN_LIMIT=20000 and PPS_OBSERVE_SECONDS=120, each iff no line sets the key |
| PpsConfig.WrittenOut | agent/internal/pps/pps.go:142-197 | one whole file before and after, with a limit of 600000 and an observation time of 60 |
| PpsConfig.RewriteLine | agent/internal/pps/pps.go:157-187 | a line that sets a key is replaced by the key and its stored number, any other is kept; the defaults survive for keys not seen |
| PpsConfig.NormalizeConfig | agent/internal/pps/pps.go:142-197 | the loops, maps and joins compute the normalised text |
| PpsConfig.CarriesOne | agent/internal/pps/pps.go:158-162 | no line matches two keys, so the order of the keys does not matter |
| PpsConfig.LinesKept | agent/internal/pps/pps.go:156-188 | lines that set no key keep content and place; the others keep key and place |
| PpsConfig.WrittenLines | agent/internal/pps/pps.go:190-196 | the written text splits back into the output lines |
| PpsConfig.IdempotentIff | agent/internal/pps/pps.go:142-197 | normalising twice is normalising once iff no line that sets no key ends in CR |
| PpsConfig.IdempotentOnTextFiles | agent/internal/pps/pps.go:142-197 | idempotent on every text in which each CR is directly followed by LF |
| PpsConfig.NotAlwaysIdempotent | agent/internal/pps/pps.go:143-145 | CR CR LF is a text on which the second pass changes something |
| PpsConfig.StrayCrShrinks | agent/internal/pps/pps.go:143-145 | while a stray CR is left, every further pass has strictly fewer CRs |
| PpsConfig.RewritingStops | agent/internal/pps/pps.go:46-52 | from any content, after more passes than it has CRs the repeated rewrite leaves the file alone |
| PpsConfig.ReadGuardInteger | agent/internal/report/security.go:73-88 | the number of the first readable line with the key, or the fallback |
| PpsConfig.ReadersSee | agent/internal/pps/guard.sh:12-48 | on the written text the report (security.go:63-88) shows the number of the first line with the key, brought into 20000..500000, and the guard script enforces that of the last; 20000 if there is none or it cannot be read |
| PpsConfig.ReadersAgreeIff | agent/internal/pps/guard.sh:12-48 | report and guard script agree on a limit iff the first and the last line that set it have the same clamped value |
| PpsConfig.TwoLimitsSeen | agent/internal/pps/guard.sh:12-48 | for every two numbers in range: a file that sets a limit to the one and then to the other is reported as the one and enforced as the other |
| PpsConfig.ReadersCanDisagree | agent/internal/pps/guard.sh:12-48 | a file on which the report says 30000 and the guard script enforces 40000 |
| SelfUpgrade.TouchesFilesIff | agent/internal/upgrade/upgrade.go:84-107 | a run changes the file system at all iff it has an offer of another version, with a URL that is allowed and a checksum, and gets the lock |
| SelfUpgrade.NothingToDoIff | agent/internal/upgrade/upgrade.go:84-92 | a run reports that there is nothing to do iff no upgrade is available or it is to the running version |
| SelfUpgrade.InProgressIff | agent/internal/upgrade/upgrade.go:103-106 | a run reports one in progress iff it has an offer and finds the lock taken |
| SelfUpgrade.DoneIff | agent/internal/upgrade/upgrade.go:83-150 | a run succeeds iff it has an offer, gets the lock, can verify what it downloads, and every step works; then that program is installed |
| SelfUpgrade.BackupAfterRun | agent/internal/upgrade/upgrade.go:229-252 | the backup after every run: the old program, unless the copy failed or was used up, and untouched if no program was staged |
| SelfUpgrade.Runner.AcquireLock | agent/internal/upgrade/upgrade.go:300-314 | creates the lock file unless it exists or cannot be created |
| SelfUpgrade.Runner.ReplaceBinary | agent/internal/upgrade/upgrade.go:229-244 | back up the binary if stat sees it, then rename the new one over it |
| SelfUpgrade.Runner.Rollback | agent/internal/upgrade/upgrade.go:246-252 | rename the backup back, if it is there |
| SelfUpgrade.Runner.Apply | agent/internal/upgrade/upgrade.go:83-150 | the run ends, and passes through file systems, exactly as the step function says, for every combination of failures; what that means is `SelfUpgrade.DoneIff` and the lemmas below |
| SelfUpgrade.MutualExclusion | agent/internal/upgrade/upgrade.go:300-314 | in every interleaving of any number of runs at most one holds the lock, and a free run leaves it free unless its removal failed |
| SelfUpgrade.OthersLeaveFilesAlone | agent/internal/upgrade/upgrade.go:103-107 | while one run holds the lock no other changes a file |
| SelfUpgrade.InterleavedRunIsUndisturbed | agent/internal/upgrade/upgrade.go:103-150 | in every interleaving a run that gets past the lock turns the files it finds there into those it would leave alone, with the same result |
| SelfUpgrade.PayloadIsVerified | agent/internal/upgrade/upgrade.go:109-131 | a run stages exactly a response within its limit whose hash is the instruction's up to letter case, or what it unpacks to, if that is within its limit and executable |
| SelfUpgrade.BinaryAlwaysGood | agent/internal/upgrade/upgrade.go:109-150 | in every interleaving the binary path holds at every step the first program or one so verified, if stat sees the binary |
| SelfUpgrade.BinaryHasKnownOrigin | agent/internal/upgrade/upgrade.go:109-150 | in every interleaving, whatever stat sees, binary and backup are a program that was there at first or was verified, or the beginning of one that a failed copy left |
| SelfUpgrade.FinalFromBegin | agent/internal/upgrade/upgrade.go:103-150 | the binary after each outcome: the payload after success or a failed rollback, the backup after a rollback, the old bytes otherwise; the lock is released unless its removal fails |
| SelfUpgrade.FailureKeepsOldIff | agent/internal/upgrade/upgrade.go:139-148 | a failure other than of the rollback leaves the old bytes, unless stat misses the binary, a different older backup exists, and everything up to the rollback works but the restart |
| SelfUpgrade.StaleBackupComesBack | agent/internal/upgrade/upgrade.go:233-252 | every run in which stat misses the binary, an older backup exists and the restart fails installs that older backup |
| InviteBot.Bot.HandleMessage | invite-bot/bot.js:82-135 | every command and the submission, on the ledger and in the reply |
| InviteBot.CodeAddedIff | invite-bot/bot.js:98-124 | over every run, a message puts a code in the inventory iff the administrator sends it, of at least 4 characters, after /su or as a line in the adding mode |
| InviteBot.ApplicationAddedIff | invite-bot/bot.js:117-135 | over every run, a message is an application iff it is plain, its sender has not applied and it is not the administrator's in the adding mode |
| InviteBot.SessionIff | invite-bot/bot.js:99-116 | over every run, the administrator's bare /su and /done or /cancel, and nothing else, turn the adding mode on and off |
| InviteBot.WordThenRest | invite-bot/bot.js:103-103 | codes after /su are what stands between white space, commas and semicolons |
| InviteBot.Bot.Push | invite-bot/bot.js:103-105 | codes are added in order unless already there, and counted |
| InviteBot.Bot.HandleCallbackQuery | invite-bot/bot.js:150-178 | each press on the ledger and in the reply; which press does what is stated by the next five |
| InviteBot.GrantIff | invite-bot/bot.js:158-167 | over every run, a code is given out iff the administrator presses approve for a pending application while there is an unused code |
| InviteBot.ApprovePressGrants | invite-bot/bot.js:161-167 | over every run, that press gives the first unused code to that applicant and changes nothing else |
| InviteBot.RejectedIff | invite-bot/bot.js:172-175 | over every run, an application becomes rejected iff the administrator presses reject for it while it is pending |
| InviteBot.RejectPressRejects | invite-bot/bot.js:172-175 | over every run, that press changes the status and nothing else |
| InviteBot.OtherPressesDoNothing | invite-bot/bot.js:150-160 | over every run, every other press leaves the ledger as it is |
| InviteBot.EveryStateSound | invite-bot/bot.js:82-178 | in every state reachable from an empty database codes are unique, used codes are a prefix in the order of the approvals, users apply once, and exactly the approved hold one code each |
| InviteBot.IthApprovalGetsIthCode | invite-bot/bot.js:161-167 | the i-th approval gives out the i-th code, to one approved applicant who holds no other |
| InviteBot.OnlyTheApprovedHoldCodes | invite-bot/bot.js:161-173 | an applicant holds a code iff approved |
| InviteBot.DecisionsAreFinal | invite-bot/bot.js:155-173 | approved and rejected statuses, `usedBy` and the codes never change again |
| IncusReport.StepKeepsPool | agent/internal/report/incus.go:100-114 | every step of a worker keeps the counts of the semaphore and the wait group and the filled slots, and brings the end one step nearer |
| IncusReport.AtMostEight | agent/internal/report/incus.go:102-110 | in every interleaving at most 8 workers hold the semaphore |
| IncusReport.NeverStuck | agent/internal/report/incus.go:104-114 | no reachable state is deadlocked before the wait returns |
| IncusReport.EverySlotFilled | agent/internal/report/incus.go:95-121 | the wait returns after exactly five steps for each instance, and then slot i holds the report of instance i for every i below min(n, 1000) |
| IncusReport.NormalizeItems | agent/internal/report/incus.go:116-121 | the items that are present, in order |
| IncusReport.TotalWithout | agent/internal/report/incus.go:269-279 | the sums of received and of sent bytes over a set of interfaces do not depend on the order they are taken in |
| IncusReport.TrafficCounters | agent/internal/report/incus.go:262-288 | modulo 2^64 the totals are the sums over the strictly billable interfaces if there are any, otherwise over the external-looking ones, each once, for every order of the map |
| IncusReport.OneInterface | agent/internal/report/incus.go:310-313 | with one billed interface its received and sent bytes are reported, each as what it is |
| IncusReport.CounterReads | agent/internal/report/incus.go:315-325 | a counter is read as its number if that fits into 64 bits, and as zero otherwise |
| IncusReport.BilledIff | agent/internal/report/incus.go:262-304 | an interface is billed iff it is the instance's own, by name or hardware address, or looks external and there is none of its own |
| IncusReport.ExternalIff | agent/internal/report/incus.go:306-308 | what looks external: eth and digits, or eno, enp, ens or enx and letters or digits |
| IncusReport.LoopbackNeverBilled | agent/internal/report/incus.go:290-308 | lo is in neither group |

## Left out

- Text that other programs parse: nft, dnsmasq and systemd syntax, JSON, JWT, HTTP, ELF, gzip and SHA-256 are parameters or values that are already parsed. Whether nft accepts the wording of each rule is not part of this model, apart from the family of address literals.
- Address literals and the domain pattern: `cidrs` entries are modelled as parsed literals with an optional prefix, and the validity of upstreams, addresses and domains is a parameter.
- Bytes that are not UTF-8: configuration texts and names are sequences of characters.
- PolicyRollout.NetworkHost.Apply: a dnsmasq that was started without leaving a pid file, or whose kill failed, may go on running; the contract says which ones, and does not promise that none does.
- PolicyRollout.NetworkHost.StopOldExcept: leftover files in the state directory other than pid files and directories are not modelled, and finding and removing a pid file are taken to succeed.
- AgentLoop.DeliveryConserved: accepted means acknowledged to the agent; a batch whose acknowledgement was lost can reach the panel twice.
- SelfUpgrade.BinaryAlwaysGood: a run killed inside the critical section leaves its lock file, so that later runs report an upgrade in progress; the model has no step that removes such a file.
- InviteBot.EveryStateSound: about the ledger in memory; a database file that could not be saved, and a restart from it, are not modelled.
- RequestDedup.HttpClient.CancelAllPendingRequests: the abort controllers, and which requests are still tracked for cancellation, are not modelled; the contract is about the map of shared promises.
- The contents of audit snapshots and instance reports, host metrics, configuration loading, request signing and the download URL check, which would only add easy members.
- The server, the API endpoint table, the user interface, seed and backfill scripts and the service worker.
