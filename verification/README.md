# Verification of BeaconMCP's sign-in, sessions, limits, updates and ledgers

A model of the stateful parts of BeaconMCP, with proofs about whole runs. Each class
follows the object of the same name in the source: its fields are the dictionaries and
tables that the Python methods change, and each method is proved to do what a function on
values says. The theorems are about those functions. `dafny verify dfyconfig.toml` checks
everything.

| file | models |
|---|---|
| `TokenTypes`, `TokenModel`, `TokenStore` | `TokenStore`: bearers, refresh families, the SQLite mirror |
| `TokenHistory`, `TokenInvariant`, `TokenTheorems` | runs of the token store with a history of what was issued, exchanged and revoked |
| `TokenAnswers` | what the token store answers, written out, and that tokens live as long as they should |
| `LegacySessions` | the migration of rows written before families had an end |
| `OneShotStores`, `Totp`, `SignIn` | tickets, codes and challenges, TOTP replay memory, the pipeline from second factor to family |
| `SignInAnswers` | when each step of the pipeline succeeds, and that a sign-in in time goes through |
| `RateLimiter`, `TotpLockout` | the sliding window and the lockout, against their full histories |
| `ClientStore`, `DynReg` | the client file, delegation, and registration through bootstrap slugs |
| `Usage`, `BudgetRuns` | the ledger with its 5 h row, and concurrent turns against the budget |
| `UploadModel`, `Uploads` | one-shot upload links and the upload request |
| `Updates`, `Watchdog`, `WatchdogLife` | the self-update transaction, updates racing their restart watchdogs, and how long a watchdog lives |

## Conventions

- A locked method, and a handler that does not await, is one step; everything else interleaves.
- Clock readings are parameters of type `real`, and several readings in one method are several
  parameters. They are required to be in order only where a theorem needs it.
- Random tokens, ids and states are parameters that were never used before. SHA-256 and the S256
  digest are constructors, so two inputs never share a digest. The TOTP algorithm is an arbitrary
  function, and signature and WebAuthn verdicts are parameters.
- Writes to the database and to the status file succeed. `_db_write` swallows errors
  (src/beaconmcp/auth.py:871-880), so the theorems about restarts assume that none was swallowed.

## What the proofs found

- Ending a session does not revoke every bearer of its family: bearers from before the last
  rotation live on until their own expiry (`OlderBearerOutlivesSession`), although the comment at
  src/beaconmcp/auth.py:219-221 says that they go; `EndSessionEndsFamilyIff` says when they do go.
- The spent TOTP steps are forgotten on restart, so a code can be spent once per boot while it is in
  its window (`AcceptedIff`, `SpentTwice`).
- `create_dynamic` accepts an owner that is itself derived; the resulting client can never pass
  TOTP and is left without an owner when the root is revoked (`SecondHop`).
- A known good mark is lost when 4096 later marks exist (`MarkLost`).
- The window in which a watchdog holds updates off is not the longest time it can act. It budgets 135 s
  for a health wait, but the settle loop counts only its sleeps and not its probes, so with 3 s probes
  (the timeout that the script gives each socket operation) one wait can take almost 173 s and a status
  be almost 1250 s old at the watchdog's last word (`TimeoutsTooLong`).
- It also runs from the whole second in the status file, so being done within a window of one's own
  launch is not enough (`TruncatedSecond`).
- A watchdog that overruns has normally reset long before; the harm is done by its last word. It can
  be false of a checkout that an update has moved on (`FalseReport`), and it can replace the pending
  status of the next watchdog, so that a third update is undone by that one (`StrayReset`). `OwnIff`,
  `HonestIff` and `ScriptSoundIff` give the exact conditions.
- When the row of a claimed slug cannot be read back, the registration is rolled back and the slug stays
  claimed for a client that is gone (`ClaimedForNothing`).

## Model

| member | source | states |
|---|---|---|
| `SignIn.Lineage` | src/beaconmcp/__main__.py:858-1230 | over every run, each refresh family descends from exactly one second factor of its own client, different families from different factors, no TOTP step of a boot and no passkey challenge is the evidence of two factors, and every factor is genuine: a code of the client's seed owner in its window, or a signed answer, by a credential of that owner, to a challenge issued for that owner to sign in |
| `SignIn.FactorIsRequest` | src/beaconmcp/__main__.py:1056-1106 | a factor is recorded only for a request, with its client, clock reading, client records and code or response; a code request that is locked out records none |
| `SignIn.RunGenuine` | src/beaconmcp/dashboard/passkeys.py:558-592 | every step keeps all recorded factors genuine: the challenge, the credential and the client of a passkey sign-in belong to one owner |
| `SignIn.FamiliesCounted` | src/beaconmcp/__main__.py:1355-1369 | refresh families never outnumber the second factors passed |
| `SignIn.EndToEndBound` | src/beaconmcp/auth.py:975-988 | whatever refreshes and restarts happen, a bearer of a family is accepted no later than its second factor plus 600 + 60 + 86400 s (plus the clock slack of three handlers), and only as the client that passed it, which did so genuinely |
| `SignIn.ExchangeNeedsVerifier` | src/beaconmcp/auth.py:1257-1277 | a family is opened only by the client, at the redirect URI and with the PKCE verifier that the authorization request named |
| `SignIn.RunInv` | src/beaconmcp/__main__.py:858-1230 | every legal run of the pipeline keeps the stage invariant and the token store invariant |
| `OneShotStores.TicketSpent` | src/beaconmcp/__main__.py:873-879 | a ticket that was presented is refused whenever it is presented again, whatever else is issued, popped or swept in between, until it is issued again |
| `OneShotStores.CodeSpent` | src/beaconmcp/auth.py:1257-1268 | the same of an authorization code, whoever presents it |
| `OneShotStores.ChallengeSpent` | src/beaconmcp/dashboard/passkeys.py:326-334 | the same of a passkey challenge, whatever purposes the two requests named |
| `OneShotStores.IssuePending` | src/beaconmcp/__main__.py:866-871 | prunes, then files the ticket for 600 s |
| `OneShotStores.ConsumePending` | src/beaconmcp/__main__.py:873-879 | prunes, pops the ticket and answers its parameters while it is in time |
| `OneShotStores.AddCode` | src/beaconmcp/auth.py:1238-1255 | files the code for 60 s, then prunes |
| `OneShotStores.ConsumeCode` | src/beaconmcp/auth.py:1257-1277 | the code is popped whatever comes of it, and accepted exactly when it is in time and client, redirect and S256 verifier match |
| `OneShotStores.AddChallenge` | src/beaconmcp/dashboard/passkeys.py:306-324 | prunes, then files the challenge for its ttl |
| `OneShotStores.TakeChallenge` | src/beaconmcp/dashboard/passkeys.py:326-334 | prunes, pops the challenge and answers it only for its own purpose and in time |
| `OneShotStores.Store.Prune` | src/beaconmcp/dashboard/passkeys.py:336-339 | removes exactly the entries that have expired |
| `Totp.ClaimIsCode` | src/beaconmcp/auth.py:523-552 | a matched code is the code of the seed owner for the earliest matching step of the three-step window |
| `Totp.NoReplay` | src/beaconmcp/auth.py:554-562 | under any interleaving of callers the steps accepted for one seed owner strictly increase within a boot, derived clients included |
| `Totp.AcceptanceBound` | src/beaconmcp/auth.py:540-562 | between two clock readings of one boot at most floor(t2/30) - floor(t1/30) + 3 codes are accepted for one seed |
| `Totp.AcceptedIff` | src/beaconmcp/auth.py:497-562 | after any run, a found claim is accepted if and only if every step accepted for its holder since the last restart is earlier; `InvalidIff` says when one is found |
| `Totp.ReplayNeedsRestart` | src/beaconmcp/auth.py:554-562 | a code accepted in this boot is a replay whenever it is presented again, and the same request is accepted again right after a restart |
| `Totp.SpentTwice` | src/beaconmcp/auth.py:554-562 | a concrete run accepts one step twice: present a good code, restart, present it again |
| `TokenTheorems.LinearRotation` | src/beaconmcp/auth.py:937-1035 | in every reachable state a family has at most one unused refresh token, and all its tokens share its client and its absolute end, which no expiry exceeds |
| `TokenTheorems.SignInsFixed` | src/beaconmcp/auth.py:226-241 | the client and the absolute end of a family never change over a run |
| `TokenTheorems.NoBearerPastEnd` | src/beaconmcp/auth.py:1134-1157 | no bearer of a family is accepted after its end |
| `TokenTheorems.ExchangedOnce` | src/beaconmcp/auth.py:990-1035 | over a whole run, all successful replies to one refresh token carry the same pair |
| `TokenTheorems.RepliesRecorded` | src/beaconmcp/auth.py:990-1035 | every pair handed out over a run stays on record, unchanged, for the token that bought it |
| `TokenTheorems.RetryChangesNothing` | src/beaconmcp/auth.py:1012-1018 | a retry while the pair is held returns the recorded pair and leaves memory and file as they were |
| `TokenTheorems.RetryGetsSamePair` | src/beaconmcp/auth.py:1012-1035 | presenting the same token again within 60 s of its rotation, whatever other requests came between, returns the first pair, unless the family was revoked or the server restarted |
| `TokenTheorems.ReuseDetected` | src/beaconmcp/auth.py:1009-1030 | in any reachable state, presenting a rotated-out token before the family end and outside the grace is answered as reuse and empties the family in memory and in the file |
| `TokenTheorems.ClosedForever` | src/beaconmcp/auth.py:1051-1061 | once no usable refresh token of a family is left, no later step of any run, restarts included, creates or extends a token of it |
| `TokenTheorems.GoneForever` | src/beaconmcp/auth.py:1051-1061 | an emptied family stays empty, in memory and in the file, for the rest of every run |
| `TokenTheorems.EndSession` | src/beaconmcp/auth.py:1185-1208 | ending a session stops the presented bearer within 8 s and closes its family, and changes the answer for no other bearer |
| `TokenTheorems.OlderBearerOutlivesSession` | src/beaconmcp/auth.py:1194-1207 | after one rotation, ending the session with the new bearer leaves the older bearer of the family accepted until its own expiry, against the comment on `family_id` |
| `TokenTheorems.EndSessionEndsFamilyIff` | src/beaconmcp/auth.py:1185-1208 | ending a session ends every other bearer of its family after the grace if and only if each of them expires by then anyway |
| `TokenTheorems.FirstBearerSurvives` | src/beaconmcp/auth.py:1185-1208 | a concrete run: sign in, refresh at 10 s, end the session at 20 s; the first bearer is still accepted after an hour |
| `TokenTheorems.FileIsMirror` | src/beaconmcp/auth.py:846-897 | at every point of every run the file holds exactly memory without unnamed bearers and without bearers inside their revocation grace |
| `TokenTheorems.RestartAccepts` | src/beaconmcp/auth.py:739-814 | what is accepted after a restart at any moment is what was accepted before, less the unnamed, the revoked and the expired bearers |
| `TokenTheorems.RestartKeepsUsed` | src/beaconmcp/auth.py:800-807 | a restart makes no refresh token usable again and forgets no rotated-out token before its family end |
| `TokenTheorems.NamedCap` | src/beaconmcp/auth.py:908-914 | at every point of every run a client has at most 3 named tokens, in memory and in the file |
| `TokenInvariant.RunInv` | src/beaconmcp/auth.py:659-1227 | every operation in any order, restarts included, keeps the token store invariant |
| `TokenInvariant.RestartSurvivors` | src/beaconmcp/auth.py:739-814 | the migration and reload of a file written by this store give back exactly the unexpired, unrevoked rows with their used marks |
| `TokenStores.TokenStore.Open` | src/beaconmcp/auth.py:739-814 | migrating, loading and deleting row by row leave memory and file exactly as the restart specification says |
| `TokenStores.TokenStore.BoundLegacySessions` | src/beaconmcp/auth.py:816-844 | the three updates, row by row, reach the bounded tables |
| `TokenStores.TokenStore.GiveEnds` | src/beaconmcp/auth.py:829-835 | every row without an end gets one session lifetime after the first token of its family |
| `TokenStores.TokenStore.CapAccess` | src/beaconmcp/auth.py:839-843 | every access row is cut at the earliest end of its family, if it has one |
| `TokenStores.TokenStore.LoadRefresh` | src/beaconmcp/auth.py:798-807 | exactly the unexpired rows are loaded, with their used marks and no retry pair |
| `TokenStores.TokenStore.Cleanup` | src/beaconmcp/auth.py:1210-1227 | removes exactly what has expired, from memory and file, and drops pairs past the retry grace |
| `TokenStores.TokenStore.Issue` | src/beaconmcp/auth.py:899-933 | issues within the cap, with the lifetime of its kind, persisting named tokens only |
| `TokenStores.TokenStore.MintOAuth` | src/beaconmcp/auth.py:937-973 | mints a bearer and, inside a family, a refresh token; the lifetimes of the pair are written out in `SignInPair` and `RotatedPair` |
| `TokenStores.TokenStore.IssueOAuth` | src/beaconmcp/auth.py:975-988 | opens a family that ends one session lifetime from now |
| `TokenStores.TokenStore.RefreshGrant` | src/beaconmcp/auth.py:990-1035 | answers and changes the store as the specification does; `RefreshAnswer`, `RotationIsExchanged` and `RetryEnds` write its answers out |
| `TokenStores.TokenStore.RevokeFamily` | src/beaconmcp/auth.py:1051-1061 | drops exactly the family, from memory and file |
| `TokenStores.TokenStore.RevokeClient` | src/beaconmcp/auth.py:1063-1079 | drops exactly the OAuth tokens of the client and counts its bearers |
| `TokenStores.TokenStore.PruneUnknown` | src/beaconmcp/auth.py:1081-1094 | drops exactly the OAuth tokens of clients outside the known set and counts those clients |
| `TokenStores.TokenStore.Revoke` | src/beaconmcp/auth.py:1163-1183 | leaves a bearer 8 s at most and takes it out of the file at once |
| `TokenStores.TokenStore.RevokeOAuth` | src/beaconmcp/auth.py:1185-1208 | the same for an OAuth bearer, with the refresh tokens of its family |
| `TokenStores.TokenStore.RevokeNamed` | src/beaconmcp/auth.py:1115-1132 | revokes only when a prefix of at least 6 characters singles out one named token of the client |
| `TokenStores.TokenStore.Validate` | src/beaconmcp/auth.py:1134-1157 | answers the client of an unexpired bearer and removes an expired one, as `TokenAnswers.AcceptedIff` writes out |
| `LegacySessions.BoundedRefresh` | src/beaconmcp/auth.py:829-838 | every refresh row gets an end that bounds its expiry, kept if it had one, else a session lifetime after the first token of the family; no expiry is extended |
| `LegacySessions.BoundedFamilyAgrees` | src/beaconmcp/auth.py:829-835 | rows of a family that had no end all get the same one |
| `LegacySessions.BoundedAccess` | src/beaconmcp/auth.py:839-844 | an access row stops at the earliest end of its family, gains no time, and is left alone when the family has no refresh row |
| `LegacySessions.BoundedIdempotent` | src/beaconmcp/auth.py:816-844 | running the migration again changes nothing |
| `RateLimiters.WindowBound` | src/beaconmcp/ratelimit.py:56-74 | no window of the configured length ever holds more than `limit` allowed events of a key |
| `RateLimiters.PrunedMeaning` | src/beaconmcp/ratelimit.py:45-48 | pruning keeps exactly the events after the cutoff |
| `RateLimiters.CollectionForgetsNothing` | src/beaconmcp/ratelimit.py:50-54 | garbage collection changes no count that a later call can ask for |
| `RateLimiters.OldestLeaves` | src/beaconmcp/ratelimit.py:81-91 | a pruned bucket keeps its count until its first event leaves the window, and falls then |
| `RateLimiters.RetryReaches` | src/beaconmcp/ratelimit.py:91 | the announced wait reaches the expiry of the oldest event and overshoots it by at most one second |
| `RateLimiters.WaitSucceeds` | src/beaconmcp/ratelimit.py:56-91 | once the oldest event of the window has left, or when there is none, a check succeeds if and only if the limit is at least 1, as it is for both limiters the server builds (30 and 10) |
| `RateLimiters.RejectedThenRetried` | src/beaconmcp/ratelimit.py:56-91 | rejected, told how long to wait, and back at that moment or later, whenever the three clock readings fall: the second check succeeds if and only if the limit is at least 1 |
| `RateLimiters.RateLimiter.Check` | src/beaconmcp/ratelimit.py:56-74 | decides exactly as counting every allowed event of the key in the last window, and records what it allows |
| `RateLimiters.RateLimiter.RetryAfter` | src/beaconmcp/ratelimit.py:76-91 | 0 when the window is empty, else the seconds to the moment the oldest event leaves, at most one too many |
| `RateLimiters.RateLimiter.Collect` | src/beaconmcp/ratelimit.py:50-54 | prunes every bucket and drops the empty ones |
| `RateLimiters.RateLimiter.PruneBucket` | src/beaconmcp/ratelimit.py:45-48 | pops the events up to the cutoff |
| `TotpLockouts.SourceBound` | src/beaconmcp/ratelimit.py:158-177 | any stretch of events shorter than the lockout holds at most `per_source` wrong codes of a source without a success in it |
| `TotpLockouts.ClientBound` | src/beaconmcp/ratelimit.py:158-177 | and at most `per_client` wrong codes from all sources not known good together |
| `TotpLockouts.StrangersBound` | src/beaconmcp/ratelimit.py:149-177 | counted by the history alone: at most `per_client` wrong codes, over an owner and its derived clients, from all sources without a success in the known good period before they asked |
| `TotpLockouts.FailureAgrees` | src/beaconmcp/ratelimit.py:168-177 | after a failure the counters, collected or not, answer like the full history |
| `TotpLockouts.SuccessAgrees` | src/beaconmcp/ratelimit.py:179-184 | after a success they still do: only the counter of that source is cleared |
| `TotpLockouts.KnownGoodNotLockedByOthers` | src/beaconmcp/ratelimit.py:149-191 | over every run of wrong codes, right codes and questions of other sources, a known good source below its own cap is not locked out while its mark lasts and fewer than 4096 other marks can outlast it |
| `TotpLockouts.KnownGoodNotLockedByFailures` | src/beaconmcp/ratelimit.py:149-177 | and for wrong codes and questions alone always: the cap on marks, which every method keeps, leaves the room |
| `TotpLockouts.ForeignCount` | src/beaconmcp/ratelimit.py:158-191 | no call of another source raises the count of a source |
| `TotpLockouts.ForeignMark` | src/beaconmcp/ratelimit.py:179-191 | no call of another source costs a source its mark while there is room, and each adds at most one mark that outlasts it |
| `TotpLockouts.MarkSurvives` | src/beaconmcp/ratelimit.py:185-191 | a mark outlives the trimming when fewer than 4096 other marks end no earlier |
| `TotpLockouts.MarkLost` | src/beaconmcp/ratelimit.py:189-191 | and is lost when 4096 marks end later |
| `TotpLockouts.TotpLockout.Locked` | src/beaconmcp/ratelimit.py:158-166 | locks exactly when the source has its fill of wrong codes or, unless it is known good, the client has; answers as the full history does, and forgets only expired entries |
| `TotpLockouts.TotpLockout.RecordFailure` | src/beaconmcp/ratelimit.py:168-177 | moves both counters forward, and only these |
| `TotpLockouts.TotpLockout.RecordSuccess` | src/beaconmcp/ratelimit.py:179-191 | clears the counter of the caller only, marks the source, and trims the marks of earliest end |
| `TotpLockouts.TotpLockout.Attempt` | src/beaconmcp/__main__.py:1077-1104 | a handler asks, checks and records against the seed owner: wrong codes count, replays do not, a locked source is not checked |
| `ClientStores.RevokeOrphans` | src/beaconmcp/auth.py:591-613 | revoking leaves no client without its owner if and only if nobody delegates to a client that goes without its own clients |
| `ClientStores.RevokeKeeps` | src/beaconmcp/auth.py:591-613 | under single-hop delegation a revocation removes the client and at most its derived clients, and keeps both delegation rules |
| `ClientStores.CreateDynamicKeeps` | src/beaconmcp/auth.py:615-648 | a registration keeps single-hop delegation if and only if its owner is itself a root, which the code does not check |
| `ClientStores.SecondHop` | src/beaconmcp/auth.py:627-648 | a client registered under a derived client can never pass TOTP and is orphaned when the root is revoked |
| `ClientStores.PruneOnlyUnknown` | src/beaconmcp/auth.py:1081-1094 | pruning keeps every OAuth token of a known client and none of any other |
| `ClientStores.PruneFile` | src/beaconmcp/auth.py:1081-1094 | the same of the file, when memory knows its clients |
| `ClientStores.PruneFileInRuns` | src/beaconmcp/auth.py:1081-1094 | as it does at every point of every run of the token store |
| `ClientStores.ClientStore.MaybeReload` | src/beaconmcp/auth.py:344-371 | serves the current file, keeps the old set when it is missing or broken, and reports the survivors exactly when a client is gone |
| `ClientStores.ClientStore.Revoke` | src/beaconmcp/auth.py:591-613 | removes the client, cascades from a root, and writes the file |
| `ClientStores.ClientStore.CreateDynamic` | src/beaconmcp/auth.py:615-648 | adds the derived client and writes the file when the owner exists, and reports the survivors of the reload it starts with |
| `ClientStores.ClientStore.Exists` | src/beaconmcp/auth.py:488-490 | answers from the file as it now is |
| `ClientStores.Register` | src/beaconmcp/auth.py:615-648 | the same, with the tokens of clients the reload dropped pruned |
| `ClientStores.AuthMiddleware` | src/beaconmcp/__main__.py:1498-1512 | a bearer passes only if its client is in the set just re-read, and tokens of vanished clients are pruned on the way |
| `ClientStores.ConnectorsRevoke` | src/beaconmcp/dashboard/app.py:924-950 | a dashboard session removes a client it owns and exactly the tokens of that client; of any other client it removes nothing, beyond what the reload check prunes |
| `DynReg.OneWinner` | src/beaconmcp/__main__.py:1630-1650 | under any interleaving, database faults included, at most one registration of a slug claims it, and the slug records its client |
| `DynReg.ClaimIsFinal` | src/beaconmcp/dashboard/dyn_reg.py:97-161 | a consumed slug is never consumed again, deleted or pruned |
| `DynReg.AfterTheRace` | src/beaconmcp/__main__.py:1628-1650 | once all requests are over, the only client left from a slug is the recorded one, owned by whoever minted the slug, unless an operator revoked it or its request could not read its claim back; every loser left none |
| `DynReg.FaultlessClaimsHold` | src/beaconmcp/dashboard/dyn_reg.py:140-161 | no claim is taken back unless the claimed row fails to be read back |
| `DynReg.ClaimedForNothing` | src/beaconmcp/dashboard/dyn_reg.py:157-161 | a concrete run in which that happens: the slug stays claimed for a client that was rolled back |
| `DynReg.RunInv` | src/beaconmcp/dashboard/dyn_reg.py:58-161 | every step of requests, deletions, prunes and operators keeps the race invariant |
| `DynReg.DcrRegister` | src/beaconmcp/__main__.py:1572-1650 | one undisturbed registration claims the slug for its client, or leaves both stores as they were; tokens change only by the reload check |
| `DynReg.DynamicSlugStore.Mint` | src/beaconmcp/dashboard/dyn_reg.py:58-83 | files the slug, unclaimed, for 900 s |
| `DynReg.DynamicSlugStore.Consume` | src/beaconmcp/dashboard/dyn_reg.py:129-161 | claims a slug if and only if it is there, unclaimed and before its expiry; nothing else changes |
| `DynReg.DynamicSlugStore.DeleteUnused` | src/beaconmcp/dashboard/dyn_reg.py:97-106 | removes a slug if and only if it is there, unclaimed and the owner's |
| `DynReg.DynamicSlugStore.PruneExpired` | src/beaconmcp/dashboard/dyn_reg.py:108-115 | removes exactly the unclaimed slugs past their expiry and counts them |
| `Usage.RowFollows` | src/beaconmcp/dashboard/usage.py:223-254 | the session row is always the last window of the greedy 5 h segmentation of the ledger |
| `Usage.SegmentsTile` | src/beaconmcp/dashboard/usage.py:223-254 | the windows tile the ledger in order and their costs sum to its total |
| `Usage.SegmentsSpaced` | src/beaconmcp/dashboard/usage.py:239-254 | with non-decreasing timestamps window starts are at least 5 h apart and every event is within 5 h of its start |
| `Usage.WeekCovers5h` | src/beaconmcp/dashboard/usage.py:258-299 | the weekly figure is never below the 5 h figure |
| `Usage.LastWindowSince` | src/beaconmcp/dashboard/usage.py:284-289 | the last window costs no more than all events since it opened |
| `Usage.UsageStore.RecordTurn` | src/beaconmcp/dashboard/usage.py:185-254 | appends the event and updates the row, keeping row and ledger in agreement |
| `Usage.UsageStore.WeekTotal` | src/beaconmcp/dashboard/usage.py:284-289 | sums the events of the last seven days |
| `Usage.UsageStore.Check` | src/beaconmcp/dashboard/usage.py:303-333 | blocks on the 5 h cap first, then on the weekly one, and never when both are off |
| `BudgetRuns.OvershootBound` | src/beaconmcp/dashboard/app.py:1456-1592 | for any interleaving of turns, recorded spend of a capped window stays below its limit plus the turns in flight when the latest admitted one was checked |
| `BudgetRuns.SequentialBound` | src/beaconmcp/dashboard/app.py:1456-1592 | turns run one at a time overshoot by less than one turn |
| `BudgetRuns.RunInv` | src/beaconmcp/dashboard/usage.py:198-333 | every admission, billing and abandonment keeps the bound for now and for any later moment |
| `UploadModel.SpentOnce` | src/beaconmcp/transfers.py:128-162 | over every interleaving a token is spent at most once and at most 50 links wait |
| `UploadModel.OnlyForward` | src/beaconmcp/transfers.py:77 | a status only moves pending to expired, or pending to uploading to success or error; a settled link never changes and a forgotten one never returns |
| `UploadModel.OutcomeKept` | src/beaconmcp/transfers.py:104-115 | the outcome of an upload can be read for an hour after it ended |
| `UploadModel.UploadNotForgotten` | src/beaconmcp/transfers.py:104-115 | an upload in progress is never pruned |
| `UploadModel.ClaimWindow` | src/beaconmcp/transfers.py:128-162 | a link is claimed within an hour of being minted, if at all |
| `UploadModel.StaysOpen` | src/beaconmcp/transfers.py:104-162 | an unclaimed link can be claimed until it expires |
| `UploadModel.RunInv` | src/beaconmcp/transfers.py:96-173 | every operation keeps the link table consistent |
| `Uploads.UploadLinkStore.Prune` | src/beaconmcp/transfers.py:104-115 | expires and forgets exactly what is due, keeping the token index equal to the pending links |
| `Uploads.UploadLinkStore.Issue` | src/beaconmcp/transfers.py:117-151 | mints a link in both indexes unless 50 wait |
| `Uploads.UploadLinkStore.Claim` | src/beaconmcp/transfers.py:153-162 | returns and starts the one pending link of the token, or says that there is none |
| `Uploads.UploadLinkStore.Finish` | src/beaconmcp/transfers.py:164-168 | settles that link and touches no other |
| `Uploads.UploadLinkStore.Get` | src/beaconmcp/transfers.py:170-173 | prunes, then answers exactly when the id is known |
| `Uploads.WholeBody` | src/beaconmcp/transfers.py:279-292 | a body is whole exactly when every chunk arrived, was stored and together they fit, and then no byte is missing |
| `Uploads.SuccessMeansWhole` | src/beaconmcp/transfers.py:261-301 | success is reported only for a non-empty body that arrived whole within the cap |
| `Uploads.Receive` | src/beaconmcp/transfers.py:279-288 | streams the body, never storing more than `max_bytes` |
| `Uploads.ReceiveAndPush` | src/beaconmcp/transfers.py:261-301 | whatever fails, neither staged file is left, and the guest is handed the whole body or nothing |
| `Uploads.UploadEndpoint` | src/beaconmcp/transfers.py:221-252 | 404 exactly when the token opens nothing; otherwise that link, and no other, is settled by what was answered |
| `Updates.FastForwardIsExact` | src/beaconmcp/updates.py:1110-1146 | a checkout counted as behind and fast-forwarded stands at exactly the resolved commit and loses none of its own |
| `Updates.UpToDateMeansContained` | src/beaconmcp/updates.py:1110-1124 | nothing to do means that the target is already contained |
| `Updates.Updater.ApplyLocked` | src/beaconmcp/updates.py:1073-1250 | whichever commands fail, the run ends as `EndedExactly` says, and every step it records is true |
| `Updates.Updater.Prepare` | src/beaconmcp/updates.py:1081-1134 | nothing moves before every preliminary check has passed |
| `Updates.Updater.Advance` | src/beaconmcp/updates.py:1136-1208 | merge, install and check, or undo |
| `Updates.Updater.RollBack` | src/beaconmcp/updates.py:1151-1184 | back to the starting revision and its dependencies, or telling which failed |
| `Updates.Updater.ScheduleRestart` | src/beaconmcp/updates.py:986-1032 | watched exactly when the unit was started, else unwatched, else not at all |
| `Updates.Updater.ApplyUpdate` | src/beaconmcp/updates.py:1053-1070 | a second update is refused and changes nothing; any other ends as `ApplyLocked` promises |
| `Watchdog.OwnIff` | src/beaconmcp/updates.py:669-678 | in every interleaving of updates and watchdogs a hard reset runs only at the revision its own update installed, if and only if no watchdog outlives the window counted from the whole second of its launch |
| `Watchdog.HonestIff` | src/beaconmcp/updates.py:669-678 | and under the same condition, and no other, every status a watchdog writes names the outcome reached |
| `Watchdog.OneAtATime` | src/beaconmcp/updates.py:893-960 | in time, no two watchdogs are ever alive together, none is alive beside an update under way, and none finds the checkout moved on |
| `Watchdog.FalseReport` | src/beaconmcp/updates.py:940-956 | every overrunning watchdog has a run in which an update merges just before its last word, which is then false |
| `Watchdog.StatusWipedOut` | src/beaconmcp/updates.py:1230-1234 | or in which that word replaces the pending status of the next watchdog |
| `Watchdog.StrayReset` | src/beaconmcp/updates.py:940-948 | so that a third update slips in between the next watchdog's look at HEAD and its reset, and is undone |
| `Watchdog.RunInv` | src/beaconmcp/updates.py:893-960 | every step of updates and watchdogs keeps the checkout guarded |
| `WatchdogLife.WaitBound` | src/beaconmcp/updates.py:911-926 | one health wait ends less than 32 s and 17 probes after the last moment a turn may start |
| `WatchdogLife.WaitHealthy` | src/beaconmcp/updates.py:911-926 | the two nested loops do what the wait specification says, and end before 122 s and 17 probes |
| `WatchdogLife.LifeBound` | src/beaconmcp/updates.py:930-960 | the steps of the script come in order, and neither its age nor that of its launching second reaches a bound computed from the longest probe, restart and git commands |
| `WatchdogLife.LongLife` | src/beaconmcp/updates.py:930-960 | some watchdog that rolls back comes as close to that bound as one likes |
| `WatchdogLife.FitsIff` | src/beaconmcp/updates.py:80-84 | no watchdog of the script outlives its window if and only if the bound does not |
| `WatchdogLife.ScriptSoundIff` | src/beaconmcp/updates.py:893-960 | updates and the watchdogs of the script never undo or misreport one another if and only if it does not |
| `WatchdogLife.QuickEnough` | src/beaconmcp/updates.py:80-84 | they never do when 34 probes, two restarts and the git commands together take at most 80 s |
| `WatchdogLife.TimeoutsTooLong` | src/beaconmcp/updates.py:80-84 | they can when probes may take 3 s, however quick the rest: a status can be almost 1250 s old when its watchdog has its last word, against a window of 1230 s |
| `WatchdogLife.TruncatedSecond` | src/beaconmcp/updates.py:1230-1234 | they can even when every watchdog is done within a window of its own launch, because the status keeps whole seconds |
| `TokenAnswers.AcceptedIff` | src/beaconmcp/auth.py:1134-1157 | a bearer is accepted if and only if it is held and the clock is not past its expiry, and as the client it was issued to |
| `TokenAnswers.RefusedIff` | src/beaconmcp/auth.py:908-916 | issuing is refused if and only if the bearer is named and its client has three unexpired named ones; otherwise the lifetime is answered |
| `TokenAnswers.IssuedBearer` | src/beaconmcp/auth.py:915-933 | an issued bearer is held for 24 h unnamed and for the configured lifetime named, 0 meaning for ever; a named one is in the file |
| `TokenAnswers.BearerEnds` | src/beaconmcp/auth.py:1134-1143 | over every run, a dashboard or named bearer is never accepted past the lifetime it was issued with, nor as another client |
| `TokenAnswers.BearerStays` | src/beaconmcp/auth.py:1134-1143 | and until then it stays accepted whatever happens that is not aimed at it; a named one through restarts |
| `TokenAnswers.RevokedBearer` | src/beaconmcp/auth.py:1163-1183 | revoking a bearer leaves it 8 s or its expiry, whichever is first, removes a named one from the file, and touches no other token |
| `TokenAnswers.RevokedEnds` | src/beaconmcp/auth.py:1163-1183 | over every run, a bearer revoked at r is not accepted past r + 8 |
| `TokenAnswers.RevokedByPrefix` | src/beaconmcp/auth.py:1115-1132 | a prefix revokes if and only if it has 6 characters or more and one held named token of the client starts with it |
| `TokenAnswers.PrefixRevokedEnds` | src/beaconmcp/auth.py:1115-1132 | over every run, that token is not accepted past r + 8 |
| `TokenAnswers.RefreshAnswer` | src/beaconmcp/auth.py:990-1035 | the answer to any refresh request: invalid, the held pair for 60 s, reuse, a new pair up to idle expiry and before the family end, expired |
| `TokenAnswers.ExpiresInIs` | src/beaconmcp/auth.py:970-973 | `expires_in` is the time left of the family, rounded and kept within 0 and a day |
| `TokenAnswers.SignInPair` | src/beaconmcp/auth.py:937-988 | a sign-in mints a bearer and an unused refresh token, in memory and in the file, for 24 h and the idle lifetime, both within 24 h of its start |
| `TokenAnswers.RotatedPair` | src/beaconmcp/auth.py:1031-1035 | a rotation mints such a pair for the same client and family, with a new idle lifetime and the old end |
| `TokenAnswers.RotationIsExchanged` | src/beaconmcp/auth.py:937-1035 | presented next, the refresh token of a rotation is exchanged if and only if its idle lifetime is not over and the family has not ended |
| `TokenAnswers.SignInIsExchanged` | src/beaconmcp/auth.py:937-1035 | the same of the refresh token of a sign-in |
| `TokenAnswers.AccessStays` | src/beaconmcp/auth.py:1144-1157 | over every run, an OAuth bearer that no call is aimed at is accepted until its expiry, through restarts |
| `TokenAnswers.RefreshStays` | src/beaconmcp/auth.py:990-1035 | and an unused refresh token can be exchanged until its own |
| `TokenAnswers.RetryEnds` | src/beaconmcp/auth.py:1009-1030 | over every run, a token rotated at t buys nothing for anybody after t + 60 |
| `TokenAnswers.SweptExactly` | src/beaconmcp/auth.py:1210-1227 | a sweep removes exactly the tokens past their expiry and the pairs held for over 60 s |
| `TokenAnswers.FamilyRevoked` | src/beaconmcp/auth.py:1051-1061 | revoking a family removes exactly its OAuth tokens |
| `TokenAnswers.ClientRevoked` | src/beaconmcp/auth.py:1063-1079 | revoking a client removes exactly its OAuth tokens and counts its bearers |
| `TokenAnswers.PrunedCount` | src/beaconmcp/auth.py:1081-1094 | pruning counts the unknown clients that held a token |
| `SignInAnswers.TicketIff` | src/beaconmcp/__main__.py:1056-1106 | a request gets a ticket, for 600 s and with its own parameters, if and only if its second factor is good; one that is locked out changes nothing, and a passkey challenge is spent either way |
| `SignInAnswers.ChallengeIff` | src/beaconmcp/__main__.py:1159-1180 | a passkey challenge is filed for 180 s, for the client whose passkeys guard the requested one |
| `SignInAnswers.CodeIff` | src/beaconmcp/__main__.py:1108-1157 | a ticket is turned into a code, for 60 s and with the parameters of its request, if and only if it is held and in time; it is gone either way |
| `SignInAnswers.ExchangeIff` | src/beaconmcp/__main__.py:1355-1369 | a code opens a family if and only if it is held, in time, and client, redirect and the S256 of the verifier are those of its request; it is gone either way |
| `SignInAnswers.TicketToCode` | src/beaconmcp/__main__.py:858-1157 | over every run without a restart, a request with a good factor gets its code when its ticket is presented for the first time within 600 s |
| `SignInAnswers.CodeToTokens` | src/beaconmcp/__main__.py:1355-1369 | and a client that first presents the code within 60 s gets a bearer of that factor, accepted for 24 h and no longer |
| `OneShotStores.TicketHonoured` | src/beaconmcp/__main__.py:873-879 | a ticket gives back what it was issued for if and only if it is presented within 600 s, whatever else is issued, popped or swept meanwhile |
| `OneShotStores.CodeHonoured` | src/beaconmcp/auth.py:1257-1277 | a code is good if and only if it is presented within 60 s with its client, its redirect and its verifier |
| `OneShotStores.ChallengeHonoured` | src/beaconmcp/dashboard/passkeys.py:306-334 | a challenge is good if and only if it is answered within its 180 s and for its purpose |
| `OneShotStores.SweptExactly` | src/beaconmcp/dashboard/passkeys.py:336-339 | a sweep keeps exactly what is not past its expiry |
| `Totp.InvalidIff` | src/beaconmcp/auth.py:523-552 | after any run, a code is not invalid if and only if the client is known, its holder (its owner or itself) is known and has a seed, the code is six digits, and it is the holder's code for the previous, the current or the next step |
| `Totp.AcceptedOrReplay` | src/beaconmcp/auth.py:540-562 | and then it is accepted if and only if the earliest such step is later than every step accepted for the holder since the last restart; else it is a replay |
| `Totp.OneBudget` | src/beaconmcp/__main__.py:746-750 | a derived client guesses, and asks for passkeys, in the name of its owner; every other client in its own |
| `TotpLockouts.AnswerIs` | src/beaconmcp/ratelimit.py:158-166 | the answer, from the two maps: locked if and only if the source has `per_source` running wrong codes, or the client `per_client` and the source no running mark |
| `TotpLockouts.Siege` | src/beaconmcp/ratelimit.py:149-191 | the object answers a known good source below its own cap that it is not locked, after any tries of others, while its mark lasts and there is room for theirs |
| `TotpLockouts.NotLockedBelowCaps` | src/beaconmcp/ratelimit.py:158-177 | nobody is locked whose source entered fewer than `per_source` wrong codes and whose client got fewer than `per_client` |
| `TotpLockouts.SuccessClears` | src/beaconmcp/ratelimit.py:179-184 | wrong codes from before the last success of a source do not count towards its own cap |
| `TotpLockouts.LockedAtCap` | src/beaconmcp/ratelimit.py:158-177 | as many wrong codes as a cap, within one lockout, do lock until a lockout after the first of them |
| `TotpLockouts.NotLockedAfterCooldown` | src/beaconmcp/ratelimit.py:141-177 | a lockout after the last wrong code, nobody is locked |
| `TotpLockouts.SourcesApart` | src/beaconmcp/ratelimit.py:135-137 | callers without an address share one source, and no two addresses do |
| `TotpLockouts.JustMarked` | src/beaconmcp/ratelimit.py:185-191 | a success makes its source known good for the whole period, unless 4096 other marks end no earlier |
| `TotpLockouts.Collected` | src/beaconmcp/ratelimit.py:168-177 | over 4096 counters, only running ones are kept |
| `RateLimiters.AllowedIff` | src/beaconmcp/ratelimit.py:56-74 | a call is allowed if and only if fewer than `limit` allowed calls of its key are less than a window old |
| `ClientStores.RevokedExactly` | src/beaconmcp/auth.py:591-613 | a revocation removes the client and, for a root, exactly the clients that name it as owner |
| `ClientStores.RowsKept` | src/beaconmcp/auth.py:390-420 | a reload keeps exactly the rows with a seed or an owner, unchanged; a file comes back whole if and only if every row has one |
| `ClientStores.WritesReload` | src/beaconmcp/auth.py:591-648 | everything the store writes comes back whole: registered clients survive reloads |
| `DynReg.ClaimIff` | src/beaconmcp/dashboard/dyn_reg.py:140-161 | a request's claim is committed if and only if the slug is there, unclaimed and before its expiry and the database does not fail first; the row then names its client and its time |
| `DynReg.ClaimedInTime` | src/beaconmcp/dashboard/dyn_reg.py:58-161 | over every run, each claim of a slug is less than 900 s after its minting |
| `DynReg.ClaimableUntil` | src/beaconmcp/dashboard/dyn_reg.py:97-161 | over every run in which its owner does not delete it and no pruning comes later than 900 s, a slug can be claimed if and only if no request claimed it and it was minted less than 900 s ago |
| `Usage.BlockedIff` | src/beaconmcp/dashboard/usage.py:258-333 | a turn is blocked if and only if the open 5 h window of the ledger or its last seven days have reached a limit that is on; a 5 h block names the end of the window |
| `Usage.ResetIsTrue` | src/beaconmcp/dashboard/usage.py:303-333 | with nothing spent meanwhile, a 5 h block lasts until the reset time it names, and no longer |
| `Usage.SinceSplits` | src/beaconmcp/dashboard/usage.py:284-289 | the weekly sum is the total of exactly the part of the ledger that is recent |
| `UploadModel.SweptExactly` | src/beaconmcp/transfers.py:104-115 | a sweep forgets exactly what ended over an hour ago and expires exactly the pending links whose time is up |
| `UploadModel.IssuedIff` | src/beaconmcp/transfers.py:117-151 | a link is minted if and only if fewer than 50 wait in time, and as it was asked for |
| `UploadModel.ClaimableIff` | src/beaconmcp/transfers.py:117-162 | over every run, an unclaimed link can be claimed if and only if its time is not up: as long as was asked for, at least a minute and at most an hour |
| `Uploads.SuccessIff` | src/beaconmcp/transfers.py:261-304 | success is reported if and only if every check passes, the non-empty body arrives and is stored whole within the cap, and the push succeeds |
| `Uploads.FirstTrouble` | src/beaconmcp/transfers.py:279-292 | a body that is not whole is answered by the first part that is missing, not stored or too much |
| `Uploads.AnswerTable` | src/beaconmcp/transfers.py:261-310 | when each of the answers 415, 413, 503, 400, 500, 409 and 200 is given |
| `Updates.Updater.EndedExactly` | src/beaconmcp/updates.py:1073-1250 | for any answers of the commands: whether the run succeeds, which commit and dependencies it leaves, whether it rolled back, whether a restart is scheduled, and what the status file says |
| `WatchdogLife.TurnIff` | src/beaconmcp/updates.py:911-926 | a turn of the wait ends it if and only if 17 probes in a row are good |
| `WatchdogLife.VerdictMeans` | src/beaconmcp/updates.py:911-926 | a wait says healthy only after 17 good probes in a row, and gives up only once its time is over |

## Left out

- TokenTheorems.FileIsMirror: assumes that every database write succeeds; failed writes and the mode without a database are not modelled.
- TokenTheorems.LinearRotation: runs start from an empty store; a file written by an older build is covered by the `LegacySessions` lemmas only, which bound its rows but cannot make an old family linear.
- TokenStores.TokenStore.Open: the failure of opening the file, which disables persistence, is not modelled.
- SignIn.EndToEndBound: the clock readings of one handler are taken to lie within a common `slack`, which appears in the bound.
- SignIn.Lineage: whether a passkey signature or a TOTP code is genuine is a verdict from outside; the lineage is of verdicts. A passkey is represented by the client it was stored for.
- Totp.AcceptanceBound: counts one boot, because the replay memory is not persisted.
- Totp.InvalidIff: `isdigit` also admits non-ASCII digits; the model asks for ASCII ones, so what pyotp makes of others is not part of it.
- TotpLockouts.SourceBound: handlers are atomic from asking to recording, as they are between two awaits of one event loop.
- Usage.UsageStore.RecordTurn: one client, with amounts as exact reals; floating-point rounding of costs is not modelled.
- BudgetRuns.OvershootBound: a turn whose billing fails counts as abandoned.
- Uploads.UploadEndpoint: one request from claim to settlement; requests that interleave are the subject of the `UploadModel` theorems.
- Uploads.ReceiveAndPush: removing the staged files is assumed to succeed, and a byte count that the push reports itself is not modelled.
- DynReg.DcrRegister: database faults are the subject of the run theorems only; redirect validation, names and logos of the registration request are not modelled.
- Updates.Updater.ApplyLocked: git and pip commands are atomic, and nobody else changes the checkout meanwhile; a kill in the middle of an update and the hints about changed configuration are not modelled.
- Updates.Updater.RollBack: which versions pip leaves for a revision without a constraints file is not modelled; reinstalling such a revision restores nothing in particular, and `Unpinned` says no more than that pip succeeded.
- Watchdog.OwnIff: one server process updates at a time, the status file is written before its watchdog wakes, operators leave the checkout alone, an update may be as quick as it likes, and a unit that runs although `systemd-run` reported a failure is not modelled.
- WatchdogLife.FitsIff: for probes that may take 0.05 s or more; for quicker ones `LifeBound` gives one direction. The time of a probe includes the `systemctl show` that goes with it, `timeout` ends pip on time, and comparisons cost nothing.
- Listing named tokens: only its cleanup is modelled, as the `Tidy` step; the order of the list is not.
- `family_of`, `_peek_pending`, `list_for_owner` and the other read-only lookups: settled by reading one line.
- The startup pruning of clients deleted while the server was down: the same operation as the reload callback.
- Proxmox, SSH, BMC, the chat engine, the dashboard pages, the wizard, configuration, audit log, metrics, cookies and CSRF: no state worth a proof here.
