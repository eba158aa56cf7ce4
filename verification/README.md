# astropath: a verified model

astropath is one asyncio process that accepts TSIG-signed DNS UPDATEs for ACME challenges and
turns them into writes at a DNS provider. This project models the parts of it that change state
at await points, keep time windows, or walk raw bytes, and proves what they keep over every run.
`dafny verify dfyconfig.toml` checks all of it.

| file | models |
|---|---|
| `Wrappers.dfy`, `Names.dfy` | results; domain names as label sequences, canonical form |
| `Routing.dfy` | the zone table and its longest-suffix walk |
| `Dispatch.dfy` | authentication gate, write-surface allowlist, TXT normalization |
| `Dispatcher.dfy` | concurrent dispatch: tasks, per-owner locks, provider calls, metrics, audit |
| `NameText.dfy` | the text a lock is keyed by against the text Route 53 is written under |
| `Route53.dfy` | read-modify-write of one TXT record set in a hosted zone |
| `Wire.dfy`, `Protocol.dfy` | recovering id, opcode, key and MAC from bytes; the error replies built from them |
| `Framing.dfy`, `Shutdown.dfy` | the TCP message loop; stop, drain and close of the listener |
| `SlidingWindow.dfy`, `LoginLimiter.dfy`, `Supervisor.dfy` | the pruned deque and the two limiters on it |
| `RoutingCache.dfy`, `Assembly.dfy` | the refresh protocol; building providers and routes from configuration |
| `Rotation.dfy` | key list, bulk rotation, and the prepend / rotate / drop procedure as runs |

How the pieces fit. An object whose methods change its fields is a class, and each method is
proved against a function of the old state. What interleaves at await points is a state machine:
a step is the code between two awaits of one task, or one answer of the outside world; `Legal`
runs are any enabled sequences of steps and `After` is the state they lead to (`Reaches` says both
at once), so what is proved of that state holds at every moment of every run. The classes
`ChallengeDispatcher`, `Rfc2136Server` and `Cache` perform those steps on real fields.

Five properties that one might expect turn out false of the code. Each is stated with the exact
condition under which it holds and a run or a call that fails it.

* "A drain waits for the UDP handlers." Exactly unless `close` has run while one was running:
  `close` drops the reference to the UDP protocol (`Shutdown.DrainCoversUdpIffNotClosed`,
  `Shutdown.ClosedDrainIsReachable`).
* "A rotation keeps what was last written." Exactly unless it commits over a row whose secret
  changed between the query of its table and the flush of that table, which the next query
  triggers, or the commit for the last table (`Rotation.LastPlaintextSurvives`,
  `Rotation.StepKeepsFaithfulIff`, `Rotation.PassCanRevertAWrite`).
* "A snapshot shows one committed database." Whatever the commits hold, exactly when none falls
  between the first and the last query of its load (`RoutingCache.SnapshotIsOneStateIff`,
  `RoutingCache.InterruptedLoadCanTear`); it is exact again once a refresh called after the last
  commit has returned (`RoutingCache.QuiescentCacheIsExact`).
* "A zone gets a provider of its own type and configuration." Exactly when no two zones ask for
  different ones under one key (`Assembly.ServedAsAskedIff`, `Assembly.BuildCollidingZones`).
* "A provider call that returned took effect." Exactly for Route 53 and for presents: a Hurricane
  Electric cleanup also returns for `noipv4` and `noipv6`, which promise nothing
  (`Dispatcher.OkMeansAppliedIff`, `Dispatcher.CleanupIgnored`).

`retry_after` truncates, so it can be 0 while the source is still locked out; the contract of
`RetryAfter` says by how much.

## Model

| member | source | states |
|---|---|---|
| Dispatcher.EveryInterleavingIsSerial | src/astropath/data_plane/dispatcher.py:288-319 | For any interleaving and any faults, every record is at every moment what the started operations make of it run one at a time in lock order; that order is arrival order per owner; two tasks past one owner's queue are the same task |
| Dispatcher.StepKeepsLocks | src/astropath/data_plane/dispatcher.py:281-286 | Every step keeps the lock discipline: a held lock names its holder, a queue holds its waiting tasks once each, every task past the queue holds its owner's lock |
| Dispatcher.PresentedTokenStays | src/astropath/data_plane/dispatcher.py:309-345 | Once a Route 53 present of a token is answered NOERROR, the token is in that record set at every later moment of every continuation, unless a cleanup of that record that took its lock later and took effect names it or names nothing |
| Dispatcher.TokensAreExact | src/astropath/providers/route53.py:224-258 | At every moment of every run a Route 53 record holds exactly the tokens that a present which took effect has added, or that were there to begin with, and that no cleanup which took effect later has removed |
| Dispatcher.HurricaneKeepsLastWrite | src/astropath/providers/hurricane.py:118-130 | At every moment of every run the one value of a Hurricane Electric record is that of the last operation on it that took effect: the token of a present, the zone's placeholder for a cleanup; before any it is as it was |
| Dispatcher.TokenCanBePresented | src/astropath/data_plane/dispatcher.py:288-345 | Such runs exist for every token: the signed UPDATE that adds it is admitted, and alone and without faults is answered NOERROR |
| Dispatcher.EveryTaskCanBeAnswered | src/astropath/data_plane/dispatcher.py:309-319 | From every state of every run each queued or active task can still be answered, by a continuation without new requests: no interleaving or fault leaves a lock held for ever or a queue unserved |
| Dispatcher.ChangesInFlightStillFit | src/astropath/providers/route53.py:224-258 | Under the lock a change in flight still fits the record: a DELETE echoes what is stored, and Route 53 accepts the creation or the change of a plain record set |
| Dispatcher.AccountsBalance | src/astropath/data_plane/dispatcher.py:346-423 | Finished calls are counted calls plus those not yet counted; each label counts the calls whose provider type, action and result it names; with a sink counted calls are rows plus lost rows plus audits in progress, without one there are no rows; each row counts the calls whose zone, record, action, provider type and real outcome it names |
| Dispatcher.ResultsAreExact | src/astropath/data_plane/dispatcher.py:366-375 | Over all labels, "ok" totals the counted calls that returned, "error" the presents that raised, "suppressed" the cleanups that raised, and nothing else is counted |
| Dispatcher.AnswersAreRight | src/astropath/data_plane/dispatcher.py:346-363 | A cleanup is always answered NOERROR, a present NOERROR exactly when the provider returned and SERVFAIL otherwise; an answered operation sits decided in the serial order, and as one that took effect when the provider returned and it is a present or for Route 53 |
| Dispatcher.AnswersFollowFaults | src/astropath/data_plane/dispatcher.py:343-363 | Over the steps of a run: a call is recorded as ok exactly when neither its listing nor its change nor its confirmation went wrong, also when there was nothing to submit; a present is then answered NOERROR and otherwise SERVFAIL, a cleanup always NOERROR |
| Dispatcher.OkMeansAppliedIff | src/astropath/providers/hurricane.py:145-176 | For any admitted request: in all runs a returned provider call means that the operation took effect, if and only if the request is a present or for Route 53 |
| Dispatcher.CleanupIgnored | src/astropath/providers/hurricane.py:53-59 | For any admitted Hurricane Electric cleanup, a run in which it is answered NOERROR and counted as ok without having taken effect |
| Dispatcher.TurnedAwayNeverCalls | src/astropath/data_plane/dispatcher.py:288-306 | A request turned away never had a provider call |
| Dispatcher.EveryCallIsEntitled | src/astropath/data_plane/dispatcher.py:288-319 | Every provider call of every run comes from a verified UPDATE with one TXT rrset owned by its route's record, with exactly that rrset's tokens: good ones, at most one for a single-value provider, none only for cleanup |
| Dispatcher.ChallengeDispatcher.LockOn | src/astropath/data_plane/dispatcher.py:281-286 | The lock of an owner is the existing one or a new free one, stored for the next task |
| Dispatcher.ChallengeDispatcher.Dispatch | src/astropath/data_plane/dispatcher.py:288-319 | The synchronous part of dispatch makes a call or answers REFUSED, as `Admit` decides, and moves the shared locks as the arrival step: turned away, lock taken, or queued |
| Dispatcher.ChallengeDispatcher.RecordOutcome | src/astropath/data_plane/dispatcher.py:346-393 | One label is added, with the provider type, the action and the result: ok, error for a failed present, suppressed for a failed cleanup; SERVFAIL exactly for a failed present; without a sink the lock is released |
| Dispatcher.ChallengeDispatcher.AuditEnds | src/astropath/data_plane/dispatcher.py:395-423 | An audit write that ends adds the row with zone, record, action, provider type and the real outcome, or counts a failure, never both, and then the lock is released |
| Dispatch.NormalizeValues | src/astropath/data_plane/dispatcher.py:173-209 | The loop over the rdatas gives all tokens or the violation of the first bad rdata |
| Dispatch.NormalizeEachExact | src/astropath/data_plane/dispatcher.py:196-208 | Normalization succeeds exactly when every rdata is TXT, ASCII, non-empty and at most 255 long, and then yields the joined strings in order |
| Dispatch.JoinConcats | src/astropath/data_plane/dispatcher.py:199 | The token of a TXT rdata is its character-strings one after the other |
| Dispatch.AdmitsExactlyPermitted | src/astropath/data_plane/dispatcher.py:127-209 | A message leads to a provider call exactly when it is a verified UPDATE (opcode 5) for a configured zone with one TXT (16) rrset of the route's record, added or deleted with class 254 or 255, whose values are ASCII of 1 to 255 octets, several only for Route 53 and none only for a deletion |
| Dispatch.AdmittedIsEntitled | src/astropath/data_plane/dispatcher.py:288-319 | An admitted call has its message, the route of the longest configured zone, that route's record and TTL, and exactly the tokens named |
| Names.CanonicalIff | src/astropath/data_plane/dispatcher.py:76 | Canonical names are equal exactly for names that are equal label by label up to the case of ASCII letters |
| NameText.LockKeyMatchesRecord | src/astropath/data_plane/dispatcher.py:307-311 | Two requests share a lock exactly when Route 53 would write them to the same record, which is exactly when their owners are equal up to letter case, escapes and trailing dots included |
| NameText.TextsReadBack | src/astropath/providers/route53.py:107-109 | The lock text and the normalized Route 53 name both read back as the canonical owner |
| Routing.RoutingTable.constructor | src/astropath/data_plane/dispatcher.py:91-92 | The table holds the last route of each zone |
| Routing.RoutingTable.Match | src/astropath/data_plane/dispatcher.py:94-105 | The walk over parents, root included, ends and returns what the table maps the first configured ancestor to |
| Routing.MatchIsLongestSuffix | src/astropath/data_plane/dispatcher.py:94-105 | The route found is that of the longest configured suffix; none is found exactly when no suffix is configured |
| Routing.MatchServesLongest | src/astropath/data_plane/dispatcher.py:88-105 | The same said of the list of routes with distinct zones |
| Routing.LastRouteCounts | src/astropath/data_plane/dispatcher.py:91-92 | Of several routes for one zone the last counts |
| Route53.QuoteInjective | src/astropath/providers/route53.py:112-119 | Distinct tokens are stored as distinct quoted values |
| Route53.QuoteIsCharacterString | src/astropath/providers/route53.py:112-119 | A stored value begins and ends with a quote, has every quote and backslash inside escaped, and reads back as its token |
| Route53.PresentIsUnion | src/astropath/providers/route53.py:224-236 | Present keeps the old values in place and appends the missing new ones, none twice |
| Route53.PresentedTokens | src/astropath/providers/route53.py:224-236 | After a present exactly the old and the named tokens are held; nothing is submitted exactly when all are there already |
| Route53.CleanupIsDifference | src/astropath/providers/route53.py:238-258 | Cleanup removes exactly the named values; naming none, or all that is left, deletes the record set |
| Route53.RepeatingIsSilent | src/astropath/providers/route53.py:224-258 | Repeating an operation submits no change |
| Route53.ChangesAreWellFormed | src/astropath/providers/route53.py:231-258 | An UPSERT is never empty, a DELETE carries the stored values and TTL, and Route 53 rejects a change exactly when it deletes an alias record set |
| Route53.HostedZone.ListOne | src/astropath/providers/route53.py:281-287 | A one-item listing is the first record set at or after the start key |
| Route53.Route53Provider.ReadRrset | src/astropath/providers/route53.py:271-294 | The record set is found if and only if it exists |
| Route53.Route53Provider.WaitInsync | src/astropath/providers/route53.py:329-349 | Polling succeeds exactly when INSYNC is seen before a failed poll and within the attempt bound |
| Route53.Route53Provider.SubmitChange | src/astropath/providers/route53.py:296-327 | A change is applied or lost as a whole, and acknowledged exactly when it was applied, answered and, if asked for, seen to propagate |
| Route53.Route53Provider.MergeValues | src/astropath/providers/route53.py:231-234 | The in-place append loop computes `Merge`, whose union laws are proved |
| Route53.Route53Provider.RemainingValues | src/astropath/providers/route53.py:247-248 | The filter computes `Without`, whose difference laws are proved |
| Route53.Route53Provider.PresentValues | src/astropath/providers/route53.py:224-236 | With every network fault: the record set becomes what the operation makes of it alone or stays, nothing else in the zone is touched, and the call fails only for a fault or a rejection |
| Route53.Route53Provider.CleanupValues | src/astropath/providers/route53.py:238-258 | The same for cleanup |
| Wire.ExtractTsigContext | src/astropath/data_plane/protocol.py:79-109 | On any bytes the walk ends, every read is in bounds, and the result is that of `Extract` |
| Wire.ExtractRoundTrip | src/astropath/data_plane/protocol.py:79-109 | For every message with uncompressed names the walk over its encoding recovers id, opcode and the owner and MAC of its last TSIG record, or none when it has none, exactly when every TSIG error field is an rcode |
| Wire.CompressedNameIsRead | src/astropath/data_plane/protocol.py:88-95 | Labels followed by a pointer to an earlier name are read as the labels and that name, and reading goes on after the pointer |
| Wire.TsigFillsRdata | src/astropath/data_plane/protocol.py:96-99 | On any bytes a TSIG rdata is accepted exactly when its fields fill it to the last byte and its error is an extended rcode; the MAC is then the bytes its length says |
| Wire.NamesAreShort | src/astropath/data_plane/protocol.py:88-95 | On any bytes a name read has labels of 1 to 63 octets and at most 255 in all |
| Wire.OpcodeIsItsBits | src/astropath/data_plane/protocol.py:109 | The opcode is bits 1 to 4 of the flags word |
| Wire.MostSignificantFirst | src/astropath/data_plane/protocol.py:85-87 | Two-byte fields are in network order |
| Protocol.ProcessQuery | src/astropath/data_plane/protocol.py:208-263 | The pipeline answers as `Gate` and moves exactly the counter of the failure: unknown key, bad signature, bad time (also its own), bad key with bad algorithm, absent |
| Protocol.FailureRepliesEchoRequest | src/astropath/data_plane/protocol.py:121-159 | The reply to a failed TSIG echoes id and opcode with NOTAUTH, is signed with the server's key of that name over the request's own MAC with the right error code, unsigned without such a key or when verification reported it unknown, absent exactly when the request cannot be read back |
| Protocol.HandleUntilLock | src/astropath/data_plane/protocol.py:208-263 | From a parsed message to its wait for the lock on the real objects: the dispatcher's locks move as the machine's arrival step; a malformed message is dropped, an unsigned query gets an unsigned NOTAUTH, a verified message that is no UPDATE, names no configured zone or breaks the allowlist gets a signed REFUSED, every other one goes on to its call |
| Protocol.TsigMetrics.RecordFailure | src/astropath/observability.py:134-138 | One failure of one reason, and clock skew also counted apart |
| Framing.FramingRoundTrip | src/astropath/data_plane/server.py:264-266 | Deframing a framed list gives the list back, also with an unfinished frame behind |
| Framing.StreamIsFrames | src/astropath/data_plane/server.py:264-266 | Every stream is the framing of its complete frames and an unfinished rest |
| Framing.HandleTcp | src/astropath/data_plane/server.py:259-286 | The read, handle, write loop computes `Serve` |
| Framing.ServeIsFramed | src/astropath/data_plane/server.py:259-286 | What is handled is a prefix of the frames, also when shutdown begins between messages, and what is written is the framing of the replies |
| Framing.HandledIsExact | src/astropath/data_plane/server.py:264-283 | Without shutdown the handled messages are the complete frames in order, up to and including the first without a reply |
| Framing.HandledUntilDraining | src/astropath/data_plane/server.py:264-283 | With a shutdown at any moment the loop stops only at the end of the frames, after a message without a reply, or after the first reply that found the server draining |
| Framing.PeerSeesReplies | src/astropath/data_plane/server.py:279-283 | A peer that deframes the output gets the replies to the handled messages in order |
| Shutdown.AtMostOneFurtherAnswer | src/astropath/data_plane/server.py:202-211 | After `stop_accepting` no UDP handler is created, no connection joins the registered ones, an unregistered connection is never answered and a registered one at most once more |
| Shutdown.AtMostOneReplyAfterStop | src/astropath/data_plane/server.py:202-211 | Counted over the run: after the stop at most one reply is written on a connection registered by then, none on any other |
| Shutdown.DrainedMeansIdle | src/astropath/data_plane/server.py:213-232 | When a drain begun after the stop returns, and ever after, no registered TCP handler runs, and no UDP handler if the server was still open when it began |
| Shutdown.DrainCoversUdpIffNotClosed | src/astropath/data_plane/server.py:213-238 | Every return of a drain leaves no UDP handler running if and only if `close` has not run before it or none was running |
| Shutdown.ClosedDrainIsReachable | src/astropath/data_plane/server.py:187-191 | A run from a serving listener gets there: `serve` ends and closes, and the drain after the stop returns with a UDP handler running |
| Shutdown.UdpProtocol.DatagramReceived | src/astropath/data_plane/server.py:107-114 | A datagram is dropped while draining, else its handler joins the running ones |
| Shutdown.Rfc2136Server.StopAccepting | src/astropath/data_plane/server.py:202-211 | Both flags go down, the UDP one through the reference the server still has |
| Shutdown.Rfc2136Server.StartConnection | src/astropath/data_plane/server.py:249-258 | A connection that starts while draining is refused, any other registered |
| Shutdown.Rfc2136Server.Inflight | src/astropath/data_plane/server.py:219-227 | What a drain captures: all registered connections, and the UDP handlers only while the server is open |
| Shutdown.Rfc2136Server.Close | src/astropath/data_plane/server.py:234-242 | Closing drops the reference to the UDP protocol, whose handlers run on |
| SlidingWindow.Prune | src/astropath/api/ratelimit.py:65-68 | The popping loop computes `DropOld` |
| SlidingWindow.DropOldIsRecent | src/astropath/api/ratelimit.py:65-68 | On an ascending deque popping from the left is filtering by time |
| SlidingWindow.PruneRefinesHistory | src/astropath/api/ratelimit.py:81-84 | Appending and pruning a deque that was pruned before equals filtering the whole history |
| LoginLimiter.LoginRateLimiter.IsAllowed | src/astropath/api/ratelimit.py:70-75 | Allowed exactly when now is at or after the later of the source's and the global lockout |
| LoginLimiter.LoginRateLimiter.RecordFailure | src/astropath/api/ratelimit.py:77-92 | The whole new state: both deques pruned, exponential capped lockout of the source, flat global lockout |
| LoginLimiter.LoginRateLimiter.RecordSuccess | src/astropath/api/ratelimit.py:94-97 | A success clears the source alone; the global deque and lockout stay |
| LoginLimiter.LoginRateLimiter.RetryAfter | src/astropath/api/ratelimit.py:99-103 | While locked the answer is at most the remaining time and less than a second short of it; 0 otherwise |
| LoginLimiter.HandleLogin | src/astropath/api/routes_auth.py:76-105 | The login route on the real limiter: refused with nothing changed unless both lockouts are over, else recorded as the password decides |
| LoginLimiter.FailureLocksExactly | src/astropath/api/ratelimit.py:77-92 | After any run, counted over the full histories: past the threshold a source is locked for exactly base * 2^over up to the cap, below it its lockout stays; the same for the flat global lockout; no other source is touched |
| LoginLimiter.RefusalAndSuccess | src/astropath/api/ratelimit.py:70-97 | A refused login changes nothing; a success wipes its source's failures and lockout and nothing else |
| LoginLimiter.DefaultLockouts | src/astropath/api/ratelimit.py:44-52 | With the shipped settings lockouts last 1, 2, 4, 8, 16, 32 minutes and then one hour |
| LoginLimiter.DequeRefinesHistory | src/astropath/api/ratelimit.py:77-84 | After any run the deques are the full histories since the last success, and ever, filtered to the window |
| LoginLimiter.PerSourceBound | src/astropath/api/ratelimit.py:70-92 | Any window holds at most max_attempts + k failures of a source since its last success, where base * (2^(k+1) - 1) reaches the window |
| LoginLimiter.PerSourceBoundIsReached | src/astropath/api/ratelimit.py:70-92 | That bound is attained: while base * (2^k - 1) is shorter than the window some well-timed run has exactly max_attempts + k |
| LoginLimiter.GlobalBound | src/astropath/api/ratelimit.py:70-92 | Any window holds at most global_max_attempts + k failures over all sources, successes included, where (k+1) * base reaches the window |
| LoginLimiter.GlobalBoundIsReached | src/astropath/api/ratelimit.py:70-92 | That bound is attained too: while k * base is shorter than the window some well-timed run over new sources has exactly global_max_attempts + k |
| LoginLimiter.DefaultBounds | src/astropath/api/ratelimit.py:44-52 | With the shipped settings: 7 of one source, 24 in all, per five minutes |
| LoginLimiter.LockoutNeverShortens | src/astropath/api/routes_auth.py:89-103 | Under check-then-record, however a run goes on without a success of that source, neither its own lockout nor the global one ever moves to an earlier time |
| Supervisor.RestartLimiter.TryRestart | src/astropath/supervisor.py:68-77 | `allow`: the verdict and the whole new deque |
| Supervisor.RestartLimiter.Backoff | src/astropath/supervisor.py:79-83 | For the n-th restart of the window the delay is the jitter plus base * 2^(n-1) while that is within the cap, and plus the cap from there on |
| Supervisor.ForgivenCrashWaits | src/astropath/supervisor.py:79-113 | In any run a forgiven crash is followed by exactly that delay for the crashes of the window that ends with it |
| Supervisor.CrashesSpreadOut | src/astropath/supervisor.py:100-115 | In a crash loop within one window and below the cap, crash i (from 0) comes no earlier than base * (2^i - 1) after the first |
| Supervisor.DefaultBackoffs | src/astropath/supervisor.py:52-60 | With the shipped settings the restarts of a window wait 0.5, 1, 2, 4, 8 seconds |
| Supervisor.CleanEndIsFinal | src/astropath/supervisor.py:100-115 | A plane that finishes or is cancelled is not counted, marked or restarted any more |
| Supervisor.OthersShutdownEnds | src/astropath/supervisor.py:100-115 | A shutdown asked for elsewhere ends the supervision without marking the plane unhealthy |
| Supervisor.NoWindowExceedsMax | src/astropath/supervisor.py:68-77 | However often it is asked, no window ever holds more than max grants |
| Supervisor.RefusesExactlyWhenFull | src/astropath/supervisor.py:68-77 | A request is refused if and only if the window that ends with it holds max grants already |
| Supervisor.Supervise | src/astropath/supervisor.py:86-115 | The loop computes `Supervised` for every script of incarnations, sleeps and outside shutdowns |
| Supervisor.SupervisorAsksPerCrash | src/astropath/supervisor.py:100-115 | One request per crash, one counted restart per crash; unhealthy exactly when it gave up, and then shutdown is set |
| Supervisor.GivesUpAtCrashMaxPlusOne | src/astropath/supervisor.py:100-115 | A crash loop with base * (2^max - 1 + max) + R shorter than the window is given up exactly at crash max+1, with max+1 restarts, unhealthy and shutdown, and at no earlier moment |
| Supervisor.DefaultsGiveUpAtCrashSix | src/astropath/supervisor.py:49-64 | With the shipped settings a plane that spends less than 42 seconds outside its backoffs over six crashes is given up exactly at the sixth |
| Supervisor.NeverGivesUpOnRareCrashes | src/astropath/supervisor.py:100-115 | A plane whose crashes are at least window/max apart is never given up |
| RoutingCache.Cache.Refresh | src/astropath/cache.py:201-211 | From where the loader ends, the object moves as the machine does: a normal return swaps the loaded snapshot in, a raise keeps the last good one, and either releases the lock |
| RoutingCache.Cache.TsigKeyIdFor | src/astropath/cache.py:230-235 | When the snapshot's ids were loaded from some rows, a request's key name in any letter case gets the id of the last row of that name, and none exactly when no row with an id has that name |
| RoutingCache.LoadTsigKeyIds | src/astropath/cache.py:134-147 | Exactly the canonical names of rows with an id, each with the id of its last row |
| RoutingCache.SnapshotNeverGoesBack | src/astropath/cache.py:201-211 | In every interleaving of commits and refreshes no table version in the snapshot goes backwards |
| RoutingCache.ReadYourWrites | src/astropath/api/deps.py:138-155 | A refresh that returned leaves, then and later, a snapshot at least as new in every table as the commits before its call |
| RoutingCache.QuiescentCacheIsExact | src/astropath/cache.py:174-211 | If the refresh was called after the last commit, the snapshot is exactly the committed database |
| RoutingCache.FailureKeepsLastGood | src/astropath/cache.py:201-211 | In every run whatever is in force at any moment was loaded by a refresh that returned, so one that raised never contributed the snapshot, earlier or later |
| RoutingCache.LoadingLeavesSnapshot | src/astropath/cache.py:201-211 | Whatever happens between taking the lock and raising, a refresh that raises leaves in force what was in force when it took the lock |
| RoutingCache.SnapshotIsOneStateIff | src/astropath/cache.py:82-131 | For a load whose four queries saw given commits: in every run its snapshot is one committed database if and only if no commit falls between its first and its last query |
| RoutingCache.StampsAreNondecreasing | src/astropath/cache.py:174-179 | The queries of every load of every run see ever later commits, so the condition above covers every reachable snapshot |
| RoutingCache.SnapshotHangsTogether | src/astropath/cache.py:82-131 | In every run, torn or not, every domain of the snapshot in force names a backend of that same snapshot, and each of its tables is the committed one at its own query |
| RoutingCache.LoadRaisesIffDangling | src/astropath/cache.py:103-128 | A load raises at its third query exactly when a domain committed by then names a backend that the second query did not see, and then leaves the snapshot |
| RoutingCache.InterruptedLoadCanTear | src/astropath/cache.py:174-179 | For any load with a commit between its first and last query, a run whose snapshot shows no committed state: a key id without its keyring entry |
| Assembly.BuildDataPlane | src/astropath/assembly.py:118-170 | Assembly succeeds exactly when every provider to be built can be, reports the first zone's error otherwise, and yields one new object per key, made from the first zone with that key, with the record keys of all, and one route per zone to its key's object |
| Assembly.ProviderFor | src/astropath/assembly.py:139-159 | One zone: reuse or build, register the HE key; other providers keep their state |
| Assembly.AssembleExact | src/astropath/assembly.py:139-159 | From any point of the loop, what success means for the rest and what the providers then are |
| Assembly.RefusalIsFirst | src/astropath/assembly.py:152-153 | The error reported is that of the first zone whose provider cannot be built: an unregistered type, or a registered one that rejects the configuration |
| Assembly.ServedAsAskedIff | src/astropath/assembly.py:139-168 | Every zone is served by an object of the type and configuration it asks for itself if and only if no two zones ask for different ones under one key |
| Assembly.ZonesReachTheirBackends | src/astropath/assembly.py:139-168 | With distinct backend names and every zone naming a listed backend, each zone is served from its own backend's type and configuration, and two zones share an object exactly when they share a backend |
| Assembly.NameReachesLongestZone | src/astropath/assembly.py:161-170 | A name is routed to its longest configured zone: that zone's record, on that zone's backend |
| Assembly.LastRecordKeyWins | src/astropath/assembly.py:156-159 | The provider holds each zone's own HE key for its record unless a later zone of the same provider has one for the same record |
| Assembly.RecordKeysComeFromZones | src/astropath/assembly.py:156-159 | A provider holds no other HE keys than those of its zones, and none unless it is HE's |
| Assembly.WithoutBackendSharedByType | src/astropath/assembly.py:140 | Zones that name no backend share an object exactly when they are of one provider type |
| Assembly.BuildCollidingZones | src/astropath/assembly.py:140-151 | Any two distinct zones, one without a named backend, that are built into one object, so that names of the second reach a provider of the wrong type; only a direct caller gets there, since the loader (src/astropath/cache.py:114-128) names a backend for every zone |
| Rotation.BuildFernets | src/astropath/crypto.py:75-88 | The key list is accepted exactly when non-empty and all well formed; else the first bad key is named by position |
| Rotation.KeylistIsExact | src/astropath/crypto.py:101-135 | After any run the key prepended last is the primary, under which every write is made, and exactly the keys since the last drop are read |
| Rotation.RotateRows | src/astropath/rotation.py:92-96 | Rows rotate in place exactly if all are readable, each keeping plaintext and timestamp |
| Rotation.RotateNullableRows | src/astropath/rotation.py:98-104 | The same with NULLs kept and the non-null ones counted |
| Rotation.NonNullsCounts | src/astropath/rotation.py:98-102 | The count of rotated domains is the number of non-null secrets |
| Rotation.RotateStoredSecrets | src/astropath/rotation.py:86-115 | Commits if and only if every token is readable: then all are under the primary with plaintext, timestamp and NULLs kept and the counts exact; otherwise nothing is committed; either way the rows are what the machine's pass makes of them when nothing comes between its steps |
| Rotation.PassAloneRotates | src/astropath/rotation.py:86-115 | After begin, three queries and commit without anything in between every row is rotated, if all were readable, or none is |
| Rotation.PassAloneIsRun | src/astropath/rotation.py:86-115 | That pass is a run of the machine from any reachable state without a pass |
| Rotation.NothingBecomesUnreadable | docs/kek-rotation-runbook.md:1-96 | Over any run of prepends, writes, passes and permitted drops, every stored token is readable at every moment, and by the primary alone once a pass has committed under it |
| Rotation.StepKeepsUpToDateIff | src/astropath/rotation.py:86-115 | Every step keeps "each row decrypts to what was last written to it", except a commit that holds another plaintext than the row: exactly then it fails |
| Rotation.StepKeepsFaithfulIff | src/astropath/rotation.py:92-110 | A pass comes to hold an outdated plaintext exactly by a write between its query of the row's table and the flush of that table, which is the next query, or the commit for the last table |
| Rotation.CarefulWritesAreQuiet | src/astropath/rotation.py:86-115 | In a run without such a write every pass commits what the rows still hold |
| Rotation.LastPlaintextSurvives | docs/kek-rotation-runbook.md:1-96 | At every moment of a run each stored secret decrypts to the plaintext last written, if and only if every pass of the run commits what the rows still hold |
| Rotation.PassCanRevertAWrite | src/astropath/rotation.py:86-115 | A concrete run in which a pass puts an old secret back |

## Left out

- Floating point: times, delays and windows are exact reals; the overflow that `2.0 ** n` raises for very large n is not modelled.
- Overlapping logins: the login bounds hold for logins that run one at a time as check, then record; the password check runs in a thread, so logins can overlap in the program.
- LoginLimiter.PerSourceBound: assumes max_lockout is at least the window, without which lockouts stop growing before the bound is reached.
- Dispatcher.PresentedTokenStays: for Route 53 only; Hurricane Electric keeps one value per record, so a later operation overwrites a token (`Dispatcher.HurricaneKeepsLastWrite`).
- Dispatcher.EveryInterleavingIsSerial: a failing change is applied or not by the time its call ends; a change that the service applies after reporting failure is not modelled, nor are cancellation in the middle of a call, exceptions other than provider errors, and other writers of the same hosted zone.
- Concurrency: the schedule itself, task objects and cancellation delivery are steps of the machines; a class method is one uninterrupted stretch of code.
- Dispatcher.ChallengeDispatcher.RecordOutcome: leaves out the latency histogram, the per-zone success time and the log line, which only record.
- Dispatcher.ChallengeDispatcher.AuditEnds: leaves out latency, error text, source address and key id, and records the canonical owner where the program records the owner as it came in.
- Dispatcher.AnswersAreRight: does not promise that a returned Hurricane Electric cleanup took effect, because the provider does not (`Dispatcher.OkMeansAppliedIff`).
- Hurricane Electric's HTTP exchange: a present or cleanup is one overwrite that is applied or not, and succeeds or fails; of the reply codes only the benign ones of a cleanup are told apart.
- AWS, HTTP, Postgres and sockets: each call is a step that succeeds or fails; alias record sets appear only as the record sets that cannot be deleted, weighted ones not at all.
- Message parsing, TSIG verification and HMAC: an oracle outcome per message; dnspython's cursor is modelled in `Wire` from its documented behaviour and is not part of this model's source.
- Wire.ExtractRoundTrip: about uncompressed names; a pointer is covered where it leads to an uncompressed name (`Wire.CompressedNameIsRead`), chains of pointers only by what holds on any bytes.
- Reply bytes of `Protocol`: id, opcode, rcode and what is signed with which key, not the encoded message.
- Shutdown.AtMostOneFurtherAnswer: `serve` is entered once; a restart of the listener by the supervisor after the stop is not modelled.
- Backpressure and write errors inside the TCP loop of `Framing`; `Shutdown` has them as a step that breaks the connection.
- Fernet, HMAC and base64: a token is its key, timestamp and plaintext, readable by that key only; the syntax of the comma-separated key list is not modelled.
- Rotation.StepKeepsFaithfulIff: the flush before each query is SQLAlchemy's default session behaviour, which is not part of this repository; a writer of a flushed row waits for the pass to end.
- Rotation.NothingBecomesUnreadable: a change of the key list is a restart, which abandons a pass in flight; two processes with different key lists at once are not modelled, nor are two overlapping passes.
- `build_keyring`, settings, startup checks, the periodic refresher and the read-only properties of the cache: single reads or single branches.
- The management API, sessions, CSRF, the web frontend, log redaction, correlation ids and migrations: plumbing without a deep property.
