# CloudVM in Dafny

A Dafny model of the hard logic of CloudVM, a platform of small services that sell, admit, provision
and bill virtual machines. Each module follows one piece of the services or of the Python worker; the
theorems are about every input, every run or every interleaving of that piece.

| module | piece of the system |
|---|---|
| `Admission`, `AdmissionRevival` | `createVm`: quota checks under a per-user advisory lock, as steps of any number of requests |
| `Provisioning`, `SecondVm` | the worker's `create_vm`: lock key, id check, instantiation with one retry, as steps of any number of deliveries |
| `RefreshTokens`, `Lockout`, `Mfa` | the auth service's timed state machines over keys with an expiry |
| `RefreshRace`, `LoginRace`, `MfaRace`, `RecoveryRace` | overlapping refreshes, logins of one email, verifications of one challenge and uses of recovery codes, as interleaved steps |
| `JsBits`, `Radix`, `Base32`, `Base32Input`, `Rfc4648`, `Totp`, `SshWire` | 32-bit operators, and the codecs written with them |
| `TerminalLines`, `TerminalBudget` | the terminal gateway's line splitter and its byte and event budgets |
| `Payments`, `Pricing`, `VmHours` | webhook deliveries, upgrade charges, billing-cycle start, billed VM time |
| `VmRows`, `VmStatusUpdates`, `Reconcile` | `virtual_machines` rows under status messages and under the sync pass |
| `SlidingWindow` | the AI service's request log |
| `Outcomes`, `Text` | optional values, results, and string operations |

Conventions.

* A class holds what the source updates in place; each of its methods is proved equal to a function on
  values, and the theorems are about runs of that function.
* A run is a sequence of events. Clocks, random ids, Stripe, OpenNebula, HMAC, bcrypt and dangerous-command
  patterns are parameters or event fields, so every theorem holds for all of them. Times are milliseconds
  and money is whole cents.
* A thrown error is an outcome, not a precondition.
* A key with an expiry is alive before the instant at which it expires.

Where the code falls short of a property one would expect, the model keeps the code and states exactly
when the property holds:

* A key store that rounds remaining lives to whole seconds reports a lock as gone 499 ms early. A counter
  can outlive its lock, and one more failure then locks again, exactly when `Lockout.CounterDiesFirst`
  fails (`Lockout.GapExactly`, `Lockout.OutlivingCounterMiscounts`, `Lockout.RoundingMiscounts`).
* Overlong terminal lines lose their beginning: the lines handed over are the stream's exactly when
  `TerminalLines.WithinBuffer` holds (`TerminalLines.ChunkIndependence`, `TerminalLines.OverlongLine`).
* The two updates of a DELETED message can be overtaken by a RUNNING message, which then keeps a
  `stoppedAt`; no other message breaks the agreement (`VmStatusUpdates.ConsistentWhenQuiet`,
  `VmStatusUpdates.RunningOvertakes`). The worker's own writes may, until their message arrives
  (`VmStatusUpdates.WorkerWrite`).
* A repeated STOPPED message moves `stoppedAt`, and a restart erases it: the time in between is billed
  (`VmStatusUpdates.GapIsBilled`).
* A deleted VM that comes back between a create's count and its commit is added to totals already
  checked: the create stays within its limits exactly if what it read and the drift since then leave room
  (`Admission.AcceptedExactly`, `AdmissionRevival.RevivalGivesTwo`).
* The worker can leave two VMs exactly after an event that `Provisioning.Harmless` excludes
  (`Provisioning.AtMostOneVm`, `SecondVm.GuardIsExact`).
* Two overlapping refreshes of one token are both answered with a new one exactly when one reads the row
  between the other's read and its delete (`RefreshRace.OneSuccessAtMost`,
  `RefreshRace.OverlapLetsTwoSucceed`). A revocation lasts until the next login exactly when no refresh of
  that user is under way between its read and its last step (`RefreshRace.RevocationLastsExactly`).
* Overlapping logins count failures under a lock exactly after a failure that locks while another request
  has passed the lock's test (`LoginRace.NothingCountedUnderLock`, `LoginRace.OvertakingCountsUnderLock`).
* Overlapping verifications of one challenge both succeed exactly after a read while another may still
  succeed, and more wrong codes than the limit are evaluated exactly after a read when the readers may
  already use it up (`MfaRace.OverlapLetsTwoSucceed`, `MfaRace.WrongCodesBounded`,
  `MfaRace.CrowdingExceeds`). Recovery codes are lost count of exactly after a matching read before a write
  that is due (`RecoveryRace.CodesConserved`, `RecoveryRace.OverlapGainsCode`).
* Nothing makes the catalog's quotas tell the plans apart. The total charged is right in every run exactly
  when each plan is found again from its quota or mistaken for one that makes no difference
  (`Pricing.TotalTelescopes`, `Pricing.MistakenPlanMiscounts`, `Pricing.StudentTakenForPro`).
* An `mpint` of zero is written with one byte, where section 5 of RFC 4251 wants none (`SshWire.MpintMeans`).
* A session id that begins another's id pays for both (`Payments.PrefixPaysForOther`).

## Model

| member | source | states |
|---|---|---|
| `Admission.VmService.CreateVm` | services/vm/src/vm/vm.service.ts:231-324 | run alone, a VM is added exactly when count, CPU, RAM and disk with it stay within the limits; otherwise the answer names the first amount that does not fit and nothing changes |
| `Admission.AnswerMeans` | services/vm/src/vm/vm.service.ts:262-303 | each answer both ways, in the order subscription, VMs, CPU, RAM, disk, by amounts and limits |
| `Admission.LimitsAre` | services/vm/src/vm/vm.service.ts:269-272 | the limits of an administrator, of a user with a remote quota, with only a stored one, and with none |
| `Admission.VmService.CountActive` | services/vm/src/vm/vm.service.ts:262-267 | counts the user's VMs that are not DELETED |
| `Admission.VmService.SumSizes` | services/vm/src/vm/vm.service.ts:280-290 | sums CPU, RAM and disk of the user's VMs that are not DELETED |
| `Admission.MutualExclusion` | services/vm/src/vm/vm.service.ts:231-324 | in every interleaving two requests whose users share a lock are never both inside the transaction |
| `Admission.AcceptedExactly` | services/vm/src/vm/vm.service.ts:231-324 | in every interleaving of requests, deletions, revivals, status and quota changes, a create that passed its checks adds exactly its row, changes no other user's totals, and leaves its user within the limits it had read if and only if what it read, the net status changes since then and its demand fit them |
| `Admission.AcceptedWithinLimits` | services/vm/src/vm/vm.service.ts:231-324 | so it leaves count, CPU, RAM and disk within those limits whenever no deleted VM of that user came back between its count and its commit |
| `Admission.NeverOverQuota` | services/vm/src/vm/vm.service.ts:197-324 | if no quota shrinks and no deleted VM is revived, every user is within quota in every reachable state, for any hash from users to locks |
| `Admission.AloneIsCreateVm` | services/vm/src/vm/vm.service.ts:197-324 | the protocol's steps taken in a row give the answer, row and stored quota of `CreateVm` and release the lock |
| `Admission.UsedAfterStatus` | services/vm/src/vm/vm.service.ts:262-290 | a status change of one row changes its owner's totals by exactly its size, down for a deletion and up for a revival, and no one else's |
| `AdmissionRevival.RevivalExceeds` | services/vm/src/nats/nats.service.ts:205-220 | from every state in which a user has a deleted VM and room for a new one, a revival between count and commit ends with both in the totals of an accepted create |
| `AdmissionRevival.RevivalGivesTwo` | services/vm/src/nats/nats.service.ts:205-220 | a run in which a user with a quota of one VM ends with two |
| `Provisioning.VmWorker.CreateVm` | worker/vm_handler.py:206-403 | run alone, whichever calls to the key store, the database and the message bus fail: skipped while the lock is set, resumed if an id is read, else one or two calls, the id recorded or an ERROR row, and the lock released if that call succeeds |
| `Provisioning.HandleMeans` | worker/vm_handler.py:206-403 | outcome, status, id, other fields and lock of one delivery from its calls: ERROR after a failure that can be marked, PENDING with the id after a success, unchanged when skipped or resumed |
| `Provisioning.RowFromHistory` | worker/vm_handler.py:374-390 | in every interleaving the row shows the status last written, ERROR after a marked failure until an id is recorded, and the id last recorded |
| `Provisioning.VmWorker.IsValidName` | worker/vm_handler.py:222-223 | accepts exactly 1 to 64 letters, digits and hyphens |
| `Provisioning.NameMeans` | worker/vm_handler.py:222-223 | not empty, at most 64 long, no other character |
| `Provisioning.NameCharCodes` | worker/vm_handler.py:222-223 | the characters by their codes |
| `Provisioning.OneHandlerAtATime` | worker/vm_handler.py:206-220 | for every interleaving of any number of deliveries, whatever the database and OpenNebula do: a handler between lock and release has the lock set and is the only one, if the lock never expires under a handler |
| `SecondVm.EarlyExpiryAdmitsSecond` | worker/vm_handler.py:206-220 | after every run, an expiry under a handler lets the next delivery in beside it |
| `Provisioning.AtMostOneVm` | worker/vm_handler.py:206-403 | for every interleaving of any number of deliveries under the guard `Harmless`: one VM at most, its id in the row unless its maker still holds it, and until it is recorded one handler at most between lock and release |
| `SecondVm.GuardIsExact` | worker/vm_handler.py:206-403 | after every run under the guard, an event it excludes has a continuation of ordinary events that ends with two VMs, and an event it allows leaves one at most |
| `Provisioning.StepKeepsInv` | worker/vm_handler.py:206-403 | each step under the guard keeps one VM at most and the place where its id is held |
| `Provisioning.AloneIsCreateVm` | worker/vm_handler.py:206-403 | the steps of one handler in a row do what the method does, whichever calls fail |
| `SecondVm.AfterExpiry` | worker/vm_handler.py:210-213 | from every state under the guard, a lock that expires before the id is recorded and during a handler can end in two VMs |
| `SecondVm.AfterLostRecord` | worker/vm_handler.py:374-392 | from every such state, an id that cannot be written can end in two VMs |
| `SecondVm.AfterLostRead` | worker/db_updater.py:93-102 | from every such state, a failed read of a recorded id can end in two VMs |
| `SecondVm.AfterLostReply` | worker/vm_handler.py:303-350 | from every such state, a call that makes a VM and then raises can end in two VMs |
| `RefreshTokens.TokenService.GenerateTokens` | services/auth/src/auth/auth.service.ts:1293-1334 | signs a token for the user that expires after the configured seconds and stores its row with the configured lifetime |
| `RefreshTokens.TokenService.RefreshTokens` | services/auth/src/auth/auth.service.ts:1336-1430 | the new state and answer are those of the rotation step, on every branch |
| `RefreshTokens.TokenService.Logout` | services/auth/src/auth/auth.service.ts:1432-1441 | removes that token's row and no other |
| `RefreshTokens.TokenService.LogoutAllSessions` | services/auth/src/auth/auth.service.ts:1452-1455 | removes exactly the user's rows |
| `RefreshTokens.AcceptedAtMostOnce` | services/auth/src/auth/auth.service.ts:1293-1455 | in every run a token is accepted at most once; a stored one was signed, is its subject's and was never accepted; the marker of an accepted one is alive whenever it still verifies |
| `RefreshTokens.AcceptedExactly` | services/auth/src/auth/auth.service.ts:1336-1416 | a refresh succeeds exactly for a stored token that verifies and whose row has not expired |
| `RefreshTokens.RefreshAnswers` | services/auth/src/auth/auth.service.ts:1293-1430 | in every run, from the events and outcomes alone: a token drawn at some time is rotated exactly while nothing has ended it, its seconds are not up and the row's lifetime is not over; and exactly when the answer is invalid, reuse or expired |
| `RefreshTokens.MarkerFromHistory` | services/auth/src/auth/auth.service.ts:1408-1414 | in every run the marker of a used token expires after the whole seconds the token had left, one at least |
| `RefreshTokens.ReuseRevokesAll` | services/auth/src/auth/auth.service.ts:1352-1388 | presenting a verifying token that is not stored, or was used, leaves its subject with no stored token and other users' tokens alone |
| `RefreshTokens.RevokedForGood` | services/auth/src/auth/auth.service.ts:1357-1455 | after a user's tokens are revoked only tokens signed later are ever accepted for that user |
| `RefreshTokens.RotationConserves` | services/auth/src/auth/auth.service.ts:1404-1416 | a rotation replaces one stored token by one never signed before and keeps the number of rows |
| `RefreshTokens.MarkerOutlives` | services/auth/src/auth/auth.service.ts:1408-1414 | the marker set at a rotation expires no earlier than the token |
| `RefreshRace.OneSuccessAtMost` | services/auth/src/auth/auth.service.ts:1354-1416 | in every interleaving of the calls of any number of refreshes, logins and logouts, a token is rotated for one request at most if its row is never read between another request's read and its delete |
| `RefreshRace.OverlapLetsTwoSucceed` | services/auth/src/auth/auth.service.ts:1371-1416 | from every run, such a read has a continuation, at that very time, in which both requests are given a new token |
| `RefreshRace.RaceOverlaps` | services/auth/src/auth/auth.service.ts:1371-1416 | a run in which it happens |
| `RefreshRace.RevocationLastsExactly` | services/auth/src/auth/auth.service.ts:1357-1455 | from every run, after a logout everywhere or a detected reuse the user has no row until the next login if and only if no refresh of that user is between its read of a row and its last step |
| `RefreshRace.LogoutIsOvertaken` | services/auth/src/auth/auth.service.ts:1371-1455 | a run in which it does not last |
| `RefreshRace.AloneIsRotate` | services/auth/src/auth/auth.service.ts:1336-1430 | the calls of one request in a row are one sequential rotation |
| `Lockout.LoginGuard.TryLogin` | services/auth/src/auth/auth.service.ts:659-684 | one email's keys and answer follow the lockout step; other emails' keys do not change |
| `Lockout.LoginGuard.RegisterFailedLogin` | services/auth/src/auth/auth.service.ts:470-516 | counts the failure, starts the window at the first one, and locks at the limit with the streak's length |
| `Lockout.LoginGuard.AssertNotLocked` | services/auth/src/auth/auth.service.ts:447-468 | locked exactly while the store reports a positive remaining life |
| `Lockout.LoginGuard.ClearFailedLogins` | services/auth/src/auth/auth.service.ts:585-588 | removes counter and lock but not the streak |
| `Lockout.LockLengths` | services/auth/src/auth/auth.service.ts:495-498 | lock lengths start at the window (or the maximum if shorter), never fall as the streak grows, and never exceed the maximum |
| `Lockout.LockLengthFromHistory` | services/auth/src/auth/auth.service.ts:490-500 | in every run, from the outcomes alone, the length of each lock: the whole number nearest to the window times the multiplier to the power of the earlier locks of the streak, or the maximum if less |
| `Lockout.SuccessClearsKeys` | services/auth/src/auth/auth.service.ts:585-588 | a success forgets counter and lock and keeps the streak |
| `Lockout.RefusedWhileLocked` | services/auth/src/auth/auth.service.ts:447-516 | in every run an attempt is refused exactly while the last lock is reported, so nothing is counted under a lock and nothing ends it early |
| `Lockout.AnswersFromHistory` | services/auth/src/auth/auth.service.ts:447-684 | in every run, from the outcomes alone: when a captcha is demanded, a login succeeds, a failure is counted, and a failure locks, each both ways |
| `Lockout.NextLockNoShorter` | services/auth/src/auth/auth.service.ts:490-500 | in every run a lock within a day of the previous one is no shorter; after a day the length starts over |
| `Lockout.LockedByExactlyMax` | services/auth/src/auth/auth.service.ts:447-516 | in every run in which no counter outlives its lock, for any clock: each lock is set by exactly the maximum number of counted failures since the last success or counter expiry, a failure that sets none is below it, and the counter is dead when the lock ends |
| `Lockout.ExactClock` | services/auth/src/auth/auth.service.ts:474-500 | with an exact clock and a maximum lock of at least the window no counter outlives its lock in any run |
| `Lockout.SlowFailures` | services/auth/src/auth/auth.service.ts:447-500 | with any clock it is enough that attempts are at least the clock's rounding apart and the limit is two or more |
| `Lockout.StaysSettled` | services/auth/src/auth/auth.service.ts:447-516 | in such a run an epoch never exceeds the maximum, and one that reached it is over before its lock stops being reported |
| `Lockout.GapExactly` | services/auth/src/auth/auth.service.ts:474-500 | the arithmetic condition on window, lock length and first failure under which the counter cannot outlive the lock, both ways |
| `Lockout.OutlivingCounterMiscounts` | services/auth/src/auth/auth.service.ts:447-516 | when that condition fails after a lock, some next failure locks again with more than the maximum counted |
| `Lockout.RoundingMiscounts` | services/auth/src/auth/auth.service.ts:447-516 | a concrete run in which rounding to whole seconds makes one failure lock again |
| `LoginRace.NothingCountedUnderLock` | services/auth/src/auth/auth.service.ts:659-684 | in every interleaving of logins of one email no failure is counted under a lock, if no failure locks while another request has passed the test of the lock |
| `LoginRace.OvertakingCountsUnderLock` | services/auth/src/auth/auth.service.ts:659-684 | from every run, for a store that rounds by at most a second, such a failure can be followed at once by one that is counted under the lock and locks again beyond the limit |
| `LoginRace.AloneIsLogin` | services/auth/src/auth/auth.service.ts:659-684 | the two steps of one request in a row are one sequential login |
| `Mfa.MfaService.VerifyAdminMfa` | services/auth/src/auth/auth.service.ts:937-1017 | challenge, counter, users and answer follow the verification step on every branch |
| `Mfa.MfaService.ConsumeRecoveryCode` | services/auth/src/auth/auth.service.ts:232-265 | removes exactly the first hash the code matches, or nothing |
| `Mfa.MfaService.IssueChallenge` | services/auth/src/auth/auth.service.ts:719-735 | stores the challenge with its lifetime |
| `Mfa.MfaService.RecordMiss` | services/auth/src/auth/auth.service.ts:1000-1014 | counts the miss, starts the counter's life at the first, and removes both keys at the limit |
| `Mfa.ChallengeBounds` | services/auth/src/auth/auth.service.ts:937-1017 | in every run, for each challenge: at most the maximum number of wrong codes evaluated, at most one success, and the counter of a live challenge is exact and outlives it |
| `Mfa.SpentChallenge` | services/auth/src/auth/auth.service.ts:937-1017 | a challenge that succeeded or was exhausted answers nothing more, and exactly the last allowed miss is told so |
| `Mfa.OpenExactly` | services/auth/src/auth/auth.service.ts:937-967 | in every run a verification finds its challenge exactly if it was issued, has not run out and no earlier verification ended it, and passes the fingerprint check exactly with that of the login |
| `Mfa.VerifyAnswers` | services/auth/src/auth/auth.service.ts:967-1014 | in every run, each answer both ways from the history and the check functions: no active user, a check that throws, the right code, the first stored hash that a recovery code of at least 8 characters matches, or a miss |
| `Mfa.AccountFromHistory` | services/auth/src/auth/auth.service.ts:967-982 | in every run the user's state is the one last stored, but for recovery codes |
| `Mfa.NormalizedCharacters` | services/auth/src/auth/auth.service.ts:214-219 | normalizing by character codes: digits and capitals stay, small letters are raised, the rest is dropped |
| `Mfa.CounterExpiry` | services/auth/src/auth/auth.service.ts:1001-1004 | in every run the counter of a live challenge expires one lifetime after the first wrong code |
| `Mfa.SuccessMeans` | services/auth/src/auth/auth.service.ts:937-1017 | in every run a success is for an active user, in time, with the login's fingerprint, by a valid code or by a recovery code still stored |
| `Mfa.RecoveryConserved` | services/auth/src/auth/auth.service.ts:232-265 | in every run the codes stored for a user are, as a multiset, those left and those used |
| `MfaRace.OneSuccessAtMost` | services/auth/src/auth/auth.service.ts:937-1017 | in every interleaving of the calls of verifications of one challenge one succeeds at most if the challenge is never read while another may still succeed |
| `MfaRace.OverlapLetsTwoSucceed` | services/auth/src/auth/auth.service.ts:937-1017 | from every run, such a read has a continuation in which both succeed |
| `MfaRace.WrongCodesBounded` | services/auth/src/auth/auth.service.ts:937-1014 | in every interleaving at most the maximum number of wrong codes is evaluated, if the challenge is never read when the codes evaluated and the requests still reading already reach it |
| `MfaRace.CrowdingExceeds` | services/auth/src/auth/auth.service.ts:937-1014 | from every run, such a read has a continuation with more wrong codes evaluated than the limit |
| `MfaRace.OneByOneNeverCrowds` | services/auth/src/auth/auth.service.ts:937-1014 | requests one after the other never come to such a read, because of the attempt counter |
| `MfaRace.AloneIsVerify` | services/auth/src/auth/auth.service.ts:937-1017 | the calls of one request in a row do to challenge and counter what one sequential verification does, and accept when it succeeds |
| `RecoveryRace.CodesConserved` | services/auth/src/auth/auth.service.ts:232-265 | in every interleaving of uses the codes stored are, as a multiset, those left and those used, if no list is read and matched before a write that is due |
| `RecoveryRace.OverlapGainsCode` | services/auth/src/auth/auth.service.ts:232-265 | after every run without one, such a read and the two writes leave one code too many |
| `RecoveryRace.AloneIsConsume` | services/auth/src/auth/auth.service.ts:232-265 | the read and the write in a row use up the first hash the code matches |
| `Base32.Base32Encode` | services/auth/src/common/security/totp.util.ts:5-29 | the shift loop with its unmasked 32-bit accumulator writes the padded base-32 digits of the buffer |
| `Base32.Base32Decode` | services/auth/src/common/security/totp.util.ts:31-54 | the loop yields the bytes of the digits, or the error of the first character outside the alphabet |
| `Base32.SymbolIsAlphabet` | services/auth/src/common/security/totp.util.ts:3-3 | the digit symbols are those of the alphabet constant |
| `Base32.DecodeEncode` | services/auth/src/common/security/totp.util.ts:5-54 | decoding an encoding gives the bytes back, for every byte string |
| `Base32Input.DecodeMeans` | services/auth/src/common/security/totp.util.ts:31-54 | for every text: an error exactly if a character that counts is not a digit, else the whole bytes among the leading bits of the digits |
| `Base32Input.NormalizeIs` | services/auth/src/common/security/totp.util.ts:32-32 | padding at the very end is dropped, white space skipped and letters raised, character by character |
| `Rfc4648.EncodeIsRfc` | services/auth/src/common/security/totp.util.ts:5-29 | the encoding is that of section 6 of RFC 4648, by groups of five bytes with its padding |
| `JsBits.ShiftInByte` | services/auth/src/common/security/totp.util.ts:11-12 | `(value << 8) \| byte` keeps the low 32 bits of the number read so far |
| `JsBits.BitByBit` | services/auth/src/common/security/totp.util.ts:11-21 | the bits of a disjunction and of a conjunction |
| `Totp.GenerateTotpCode` | services/auth/src/common/security/totp.util.ts:70-88 | returns the code of the time step, or the error of a bad secret or a counter out of range |
| `Totp.GeneratedIs` | services/auth/src/common/security/totp.util.ts:70-88 | exactly when there is a code, and the number it writes, from the time in half minutes and the digest bytes |
| `Totp.CodeCharacters` | services/auth/src/common/security/totp.util.ts:92-94 | six digits, by their codes |
| `Totp.VerifyTotpCode` | services/auth/src/common/security/totp.util.ts:90-105 | the answer of the search over the offsets |
| `Totp.VerifyAccepts` | services/auth/src/common/security/totp.util.ts:90-105 | with a good secret, for every text: accepted exactly if trimming leaves the code of a time step within the window |
| `Totp.VerifyThrows` | services/auth/src/common/security/totp.util.ts:90-105 | for every text: no if trimming does not leave six digits, else an error for a secret that does not decode or a window that reaches before 1970 |
| `Totp.ThreeSteps` | services/auth/src/common/security/totp.util.ts:90-105 | with window 1 and `now` of at least 30 s, for every text, the answer is whether trimming leaves the code of one of three adjacent steps |
| `Totp.RecentCodeAccepted` | services/auth/src/common/security/totp.util.ts:70-105 | whatever was generated at most 30 s before or after is accepted, with any white space around it |
| `Totp.GeneratedCodeIsTrimmed` | services/auth/src/common/security/totp.util.ts:87-91 | a generated code has none |
| `Totp.CounterValue` | services/auth/src/common/security/totp.util.ts:72-76 | the eight counter bytes decode to the time step |
| `Totp.CounterHalves` | services/auth/src/common/security/totp.util.ts:74-76 | the two 32-bit halves written are those eight bytes |
| `Totp.TruncationIs` | services/auth/src/common/security/totp.util.ts:79-85 | the masked shifts and ors give the 31-bit truncation of section 5.3 of RFC 4226, inside a 20-byte digest |
| `Totp.CodesAgree` | services/auth/src/common/security/totp.util.ts:87-87 | codes are six decimal digits and equal exactly when the truncations agree modulo a million |
| `SshWire.EncodeSshField` | services/user/src/ssh-key/ssh-key.service.ts:24-28 | length prefix and data, or the range error |
| `SshWire.EncodeMpint` | services/user/src/ssh-key/ssh-key.service.ts:30-42 | the field of the stripped bytes with a sign byte where needed |
| `SshWire.BuildSshRsaPublicKey` | services/user/src/ssh-key/ssh-key.service.ts:44-53 | the payload parses to the key type, exponent and modulus |
| `SshWire.KeyRoundTrip` | services/user/src/ssh-key/ssh-key.service.ts:44-53 | a parser of section 5 of RFC 4251 recovers type, exponent and modulus from the blob, for any leading zeros |
| `SshWire.KeyTypeText` | services/user/src/ssh-key/ssh-key.service.ts:45-45 | the key type is the text ssh-rsa |
| `SshWire.MpintMeans` | services/user/src/ssh-key/ssh-key.service.ts:30-42 | an mpint is non-negative, stands for the given number, and is minimal exactly when that is positive |
| `SshWire.MpintCanonical` | services/user/src/ssh-key/ssh-key.service.ts:30-42 | two inputs are written alike exactly when they are the same number |
| `SshWire.StringRoundTrip` | services/user/src/ssh-key/ssh-key.service.ts:24-28 | a field followed by anything parses to its data and that rest |
| `TerminalLines.CommandInspector.InspectSubmittedCommands` | services/vm/src/terminal/terminal.gateway.ts:913-950 | one client's buffer, violation count and answer follow the inspection step; other clients are unchanged |
| `TerminalLines.CommandInspector.CleanupSession` | services/vm/src/terminal/terminal.gateway.ts:962-963 | the client's buffer and count are forgotten |
| `TerminalLines.SegmentsAppend` | services/vm/src/terminal/terminal.gateway.ts:921-923 | splitting a concatenation only needs the tail of the first part, also between `\r` and `\n` |
| `TerminalLines.FirstLine` | services/vm/src/terminal/terminal.gateway.ts:921-921 | the first line ends at the first line feed, without a carriage return before it, and the rest is split by itself |
| `TerminalLines.DangerousMeans` | services/vm/src/terminal/terminal.gateway.ts:926-931 | a line is dangerous exactly if it is not blank and the patterns match it without the white space around it and with gaps collapsed |
| `Text.TrimOf` | services/vm/src/terminal/terminal.gateway.ts:926-926 | trimming removes the white space around a text and nothing else |
| `Text.CollapseGap` | services/vm/src/terminal/terminal.gateway.ts:929-929 | a gap of any white space becomes one space |
| `TerminalLines.ChunkIndependence` | services/vm/src/terminal/terminal.gateway.ts:913-923 | for chunks of at most 4096 characters the number of lines handed to the inspection is always that of the stream, and these lines and the tail are the stream's if and only if no chunk met a tail too long for the buffer |
| `TerminalLines.OverlongLine` | services/vm/src/terminal/terminal.gateway.ts:913-923 | a line of 8192 characters that loses one |
| `TerminalLines.CompletedStream` | services/vm/src/terminal/terminal.gateway.ts:913-923 | a stream that ends its last line is handed over line by line exactly under that condition |
| `TerminalLines.AllInspected` | services/vm/src/terminal/terminal.gateway.ts:925-949 | every line handed over is inspected as long as no chunk is refused |
| `TerminalLines.LookedAt` | services/vm/src/terminal/terminal.gateway.ts:925-949 | an accepted chunk has all its lines inspected, a refused one those up to a dangerous line |
| `TerminalLines.WithinIsFaithful` | services/vm/src/terminal/terminal.gateway.ts:913-923 | chunks of any size: while the buffer suffices, lines and tail are the stream's |
| `TerminalLines.AuditCounts` | services/vm/src/terminal/terminal.gateway.ts:925-949 | in audit mode nothing is refused and the count is the number of dangerous lines of the stream |
| `TerminalLines.BlockRefuses` | services/vm/src/terminal/terminal.gateway.ts:925-949 | in block mode a chunk is refused exactly when it completes a dangerous line and the stream has by then completed at least the limit |
| `TerminalLines.EverRefused` | services/vm/src/terminal/terminal.gateway.ts:925-949 | in block mode some chunk is refused exactly when the stream has at least the limit of dangerous lines |
| `TerminalLines.SameStream` | services/vm/src/terminal/terminal.gateway.ts:913-950 | two ways to cut one stream hand over the same lines and keep the same tail; in audit mode they inspect all and count the same, in block mode both refuse or neither does |
| `TerminalBudget.InputLimiter.AllowInputRate` | services/vm/src/terminal/terminal.gateway.ts:876-895 | the byte window after a charge, and whether it fitted |
| `TerminalBudget.InputLimiter.AllowInputEventRate` | services/vm/src/terminal/terminal.gateway.ts:897-911 | the event window after a charge, and whether it fitted |
| `TerminalBudget.InputLimiter.HandleInput` | services/vm/src/terminal/terminal.gateway.ts:826-848 | one client's windows and verdict follow the admission step; other clients are unchanged |
| `TerminalBudget.InputLimiter.CleanupSession` | services/vm/src/terminal/terminal.gateway.ts:960-961 | the client's windows are forgotten |
| `TerminalBudget.SecondBound` | services/vm/src/terminal/terminal.gateway.ts:826-911 | in every run with a monotone clock a window holds at most 32768 bytes, and no half-open second lets through more than 65535 bytes or 199 events |
| `TerminalBudget.VerdictFromHistory` | services/vm/src/terminal/terminal.gateway.ts:826-911 | in every run each verdict both ways, from the inputs and verdicts before it |
| `TerminalBudget.BoundAttained` | services/vm/src/terminal/terminal.gateway.ts:826-911 | a monotone run that lets through 65535 bytes in one second, so the bound is exact |
| `Payments.PaymentService.MarkStripeSessionAsPaid` | services/payment/src/payment/payment.service.ts:521-555 | matching rows become paid unless one belongs to another user, and the plans bought are activated in order |
| `Payments.PaymentService.HandleWebhook` | services/payment/src/payment/payment.service.ts:794-847 | the new rows and event ids follow the delivery step; a duplicate changes and activates nothing |
| `Payments.PaymentService.ConfirmCheckoutSession` | services/payment/src/payment/payment.service.ts:761-792 | accepted exactly when the session exists, is paid and belongs to the user; otherwise nothing changes |
| `Payments.ConfirmMeans` | services/payment/src/payment/payment.service.ts:761-783 | accepted exactly for an id that is not blank, of a known and paid session that names this user or no one and has no other user's row |
| `Payments.RowByRow` | services/payment/src/payment/payment.service.ts:541-554 | rows are counted and plans bought row by row |
| `Payments.EventsFromHistory` | services/payment/src/payment/payment.service.ts:812-828 | the events recorded are those recorded before and those delivered |
| `Payments.Confluence` | services/payment/src/payment/payment.service.ts:794-847 | from any state, after any deliveries, repeated and in any order, a payment's status is the highest of its own and those received, where an event recorded before says nothing |
| `Payments.OrderIrrelevant` | services/payment/src/payment/payment.service.ts:794-847 | from any state the same deliveries in any order and number leave the same payments |
| `Payments.NeverReverts` | services/payment/src/payment/payment.service.ts:536-542 | no run of deliveries lowers a status: paid stays paid |
| `Payments.MatchesOwnSession` | services/payment/src/payment/payment.service.ts:521-526 | among prefix-free session ids a payment matches its own session and no other |
| `Payments.MatchesMeans` | services/payment/src/payment/payment.service.ts:521-526 | a row matches exactly if its method is stripe: and then begins with the id |
| `Payments.OtherSessionsUntouched` | services/payment/src/payment/payment.service.ts:794-847 | with prefix-free ids no run of deliveries for other sessions changes a payment |
| `Payments.PrefixPaysForOther` | services/payment/src/payment/payment.service.ts:521-542 | an id that properly begins another session's id pays for that session's row |
| `Pricing.TotalTelescopes` | services/payment/src/payment/payment.service.ts:579-593 | with positive prices that do not fall with rank and a catalog whose quotas tell the plans apart, over every run of purchases the total charged is the sum, over full-price purchases, of the price of the plan last reached from each |
| `Pricing.BuyMeans` | services/payment/src/payment/payment.service.ts:485-593 | what a purchase is refused for, charged and gives, by ranks and prices |
| `Pricing.MistakenPlanMiscounts` | services/payment/src/payment/payment.service.ts:579-593 | any other catalog with such prices has a run of two purchases whose total is wrong |
| `Pricing.StudentTakenForPro` | services/payment/src/payment/payment.service.ts:579-593 | a catalog and run in which a Student pays 40 in all for a plan of 50 |
| `Pricing.CycleStartsAtFullPrice` | services/user/src/user/user.service.ts:728-769 | with prices of at least two cents besides, over every run of purchases at increasing times the rows are newest first and the cycle starts at the last full-price purchase |
| `Pricing.CycleStartMeans` | services/user/src/user/user.service.ts:746-769 | any rows: the newest full payment among the 20 newest, else the newest row, else none |
| `Pricing.UpgradeLooksFull` | services/user/src/user/user.service.ts:728-744 | an upgrade counts as a full payment exactly if the plan left behind costs at most one cent |
| `Pricing.PartialPaymentKeepsStart` | services/user/src/user/user.service.ts:746-769 | a payment below full price keeps the cycle start exactly while at most 19 rows are newer than the full-price one |
| `Pricing.ResolveRoundTrip` | services/user/src/user/user.service.ts:608-671 | a plan is found again from the quota it gives exactly when no higher plan's quota fits into it |
| `Pricing.ResolveMeans` | services/user/src/user/user.service.ts:608-647 | any quota: the highest plan it is enough for |
| `VmHours.EstimateVmMsUsed` | services/user/src/user/user.service.ts:771-796 | the loop sums the VMs' clipped lengths |
| `VmHours.UsedIsInstants` | services/user/src/user/user.service.ts:771-796 | the sum is the number of milliseconds of the cycle in which each VM is up |
| `VmHours.Additive` | services/user/src/user/user.service.ts:771-796 | adjacent cycles add up |
| `VmHours.MonotoneAndBounded` | services/user/src/user/user.service.ts:771-796 | a later cut-off never bills less, and the bill is at most the number of VMs times the length |
| `VmHours.OrderIrrelevant` | services/user/src/user/user.service.ts:771-796 | the order of the VMs does not matter |
| `VmStatusUpdates.StatusHandler.OnStatusUpdate` | services/vm/src/nats/nats.service.ts:167-229 | the row after a message, on every branch; unknown VMs and other rows are unchanged |
| `VmStatusUpdates.SequentialConsistent` | services/vm/src/nats/nats.service.ts:167-229 | messages handled in turn keep RUNNING rows without `stoppedAt` and stopped, suspended, failed and deleted rows with one, and any stored message restores that |
| `VmStatusUpdates.RowFromMessages` | services/vm/src/nats/nats.service.ts:167-229 | after any messages in turn each field of the row, from the messages alone |
| `VmStatusUpdates.AloneIsHandled` | services/vm/src/nats/nats.service.ts:180-203 | the two updates of a deletion in a row are the message handled |
| `VmStatusUpdates.ConsistentWhenQuiet` | services/vm/src/nats/nats.service.ts:122-229 | for every interleaving of handlers, once deletions are finished the row agrees, except exactly when the last write was a RUNNING that overtook a half-done deletion |
| `VmStatusUpdates.RunningOvertakes` | services/vm/src/nats/nats.service.ts:180-210 | from any row, a run of three steps that ends RUNNING with a `stoppedAt` |
| `VmStatusUpdates.WorkerWrite` | worker/db_updater.py:36-143 | exactly when a worker's own write leaves a row that agrees, and that its message repairs it |
| `VmStatusUpdates.DeletionKeepsBill` | services/vm/src/nats/nats.service.ts:180-203 | deleting a stopped VM changes its bill in no cycle |
| `VmStatusUpdates.StopFreezesBill` | services/vm/src/nats/nats.service.ts:205-210 | stopping or deleting a running VM freezes its bill at that moment |
| `VmStatusUpdates.GapIsBilled` | services/vm/src/nats/nats.service.ts:205-210 | stopping a VM again that is stopped or deleted, or starting it, bills exactly the time in between |
| `Reconcile.SyncWorker.SyncAllVmStates` | worker/vm_handler.py:625-690 | one pass, in any row order: the rows are those of the synced table, the number reported is that of the mismatches, and a message is sent for exactly those |
| `Reconcile.SyncWorker.SyncVm` | worker/vm_handler.py:639-687 | one row of the pass, with every reason to skip it |
| `Reconcile.SyncWorker.GetAllActiveVms` | worker/db_updater.py:149-163 | each row that is not DELETED and has an id, once, with its status |
| `Reconcile.PassConverges` | worker/vm_handler.py:625-690 | active rows get the status of their mapped state, other rows do not change, and a second pass finds and changes nothing |
| `Reconcile.PassByState` | worker/vm_handler.py:647-671 | what a pass does to any row, by OpenNebula's state numbers |
| `Reconcile.FixesAreChanges` | worker/vm_handler.py:663-684 | what is counted and sent are the rows whose status changes, with their new one |
| `Reconcile.MessagesRestore` | worker/vm_handler.py:668-682 | the message sent for a corrected row makes its `stoppedAt` agree and keeps the status |
| `SlidingWindow.AiRateLimitGuard.CanActivate` | services/ai/src/common/guards/ai-rate-limit.guard.ts:18-36 | the log after a request, and whether it was allowed |
| `SlidingWindow.DecisionAgrees` | services/ai/src/common/guards/ai-rate-limit.guard.ts:23-31 | the pruned log decides every request as the full accepted history would |
| `SlidingWindow.WindowBound` | services/ai/src/common/guards/ai-rate-limit.guard.ts:18-36 | no closed interval of one window ever holds more than the maximum of one user's accepted requests |
| `SlidingWindow.UsersIndependent` | services/ai/src/common/guards/ai-rate-limit.guard.ts:20-34 | a user's log and history are those of the run of that user alone |

## Left out

- Totp.GenerateTotpCode: `Math.floor(t / 1000 / 30)` is exact division here, not floating point; HMAC-SHA-1 is any function to 20 bytes.
- SshWire.BuildSshRsaPublicKey: starts from the decoded bytes and ends at the payload, without the base64url input and the base64 text around them.
- Lockout.LockLengths: the multiplier is a real number at least 1, so `**` and `Math.round` have no floating-point error; settings that are not numbers are left out.
- Lockout.LoginGuard.TryLogin: one step per login; `LoginRace` has overlapping ones, with the tests before the password as one step and the counting after it as another.
- Mfa.MfaService.VerifyAdminMfa: a challenge whose stored text does not parse is left out, since only the service writes it. Verifications do not overlap there; `MfaRace` and `RecoveryRace` have overlapping ones of one challenge and of one user's codes.
- RefreshTokens.AcceptedAtMostOnce: is about refreshes one after the other; `RefreshRace` has the overlapping ones.
- Admission.AcceptedExactly: a transaction reads committed rows under its lock or fails; PostgreSQL's own snapshots and conflict detection are not part of this model. A duplicate name is one of the ways to fail.
- Provisioning.VmWorker.CreateVm: SSH keys, template text and stale-template cleanup are not modelled, and neither is `_wait_for_ip_and_update`.
- TerminalLines.ChunkIndependence: which lines are dangerous is any predicate, and the log output is left out. A character is one unit of length; characters outside the Basic Multilingual Plane, which count as two in the source, do not occur.
- Payments.Confluence: is about rows that exist when the deliveries begin, with database calls that succeed; the plan of a row is taken as found, without the parsing of old `method` texts.
- Pricing.TotalTelescopes: cents instead of floating-point dinars and dollars; prices do not change during a run and each purchase is activated before the next.
- VmHours.EstimateVmMsUsed: stops before the division into hours and the rounding to two decimals.
- VmStatusUpdates.StatusHandler.OnStatusUpdate: address and SSH fields, which are copied into the row, are left out.
- Reconcile.SyncWorker.SyncAllVmStates: OpenNebula and the other writers of the table stand still during a pass.
- The frontend, gateway proxies and their fixed-window counter, SSH and VNC sessions, AI prompts and filters, listings, statistics and validators: they are plumbing and bookkeeping without a rule of their own.
