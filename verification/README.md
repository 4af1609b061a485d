# webshell: replay, resume and access, verified

webshell keeps login shells running behind a web page. This project models the parts
of it that must stay exact across dropped connections, restarts and races, and proves
what they promise: the byte stream of a shell, and the credentials that give access to
it.

| file | what it models |
|---|---|
| `ModeTracker.dfy`, `Scrollback.dfy` | the escape-sequence scanner fed with evicted output, the printer that undoes it, the capped ring, the attachment cut, the screen model |
| `Relay.dfy`, `RelayClient.dfy`, `RelayRuns.dfy` | reader thread, attach in its separate steps, broadcast with lag, forward task, writer queue and an offset-counting client, as a step system; what it promises its client, and which runs keep or break that |
| `Redraws.dfy` | the periodic redraw: screen models, resizes and snapshots beside the protocol |
| `ReplayClient.dfy` | the page's session object and xterm's asynchronous write queue, driven through whole runs of the protocol |
| `BitGroups.dfy`, `Base32.dfy`, `Decimal.dfy`, `ShareToken.dfy` | the codecs of TOTP seeds and share tokens |
| `Shares.dfy` | grants, leases, revocation channels, semaphores, viewer frames |
| `Devices.dfy`, `Sessions.dfy`, `Enrollment.dfy` | the stores that write their file while holding their lock; a write may fail |
| `ReplayGuard.dfy`, `Lockout.dfy` | the single-use memory of TOTP codes, the doubling lockout |
| `Login.dfy`, `LoginEffects.dfy` | the login handlers as interleaved requests over the stores, across restarts and edits of the enrollment file; what they do to sessions and devices |
| `Killer.dfy` | the shared handle on a child's pid, between `stop`, the reader and the command thread |

Objects the source updates in place are classes whose methods are proved against
functions on values; what holds over whole runs, restarts included, is proved about
those functions.

## Assumptions

- Random tokens, session ids, grant ids and epochs are fresh. Hashes are injective on
  the values used: stores are keyed by the hash itself.
- A file is replaced whole or not at all; a failed write leaves it as it was.
- Wall time does not run backwards where a statement says so (`Forward`, `Ordered`,
  `Legal`); elsewhere it is arbitrary. Counters the source keeps in 64 bits (stream
  offsets, generations) are unbounded; so is the 32-bit strike count, which no run shorter
  than two million years can overflow (`CountNeverWraps`).
- A write to a pseudo-terminal whose reader has ended fails, and a child that was killed
  exits.
- The terminal emulator is an abstract fold over bytes, the MAC an abstract function,
  TOTP verification an abstract predicate of secret, code and time.
- An operation under a store's lock is one step. Where the source reads the clock
  before it takes the lock, that reading is the step's.

## Findings

Where the code does less than its comments say, the code is kept, the failure is shown
by a lemma, and the exact condition is proved.

- **Replay of a half-scanned sequence.** `synth` does not print the scanner's position,
  so a ring whose front cuts a mode-setting sequence loses it (`CutModeIsLost`). A replay
  restores the modes for every continuation if and only if the scanner was settled at
  the front (`ReplayRestoresModesIff`).
- **TOTP codes are single-use in order only.** The comments at src/totp.rs:82-90 say that
  three remembered codes cover the window with room to spare. At any time, accepting the
  codes of the current step, the one before and the one after, and in the next step the
  code after that, evicts the first while it still verifies (`OutOfOrderSecondUse`). A
  run accepts a code twice exactly when one passes that an accept has evicted while it
  still verified (`SecondUsePassesIff` for one step, `AcceptedTwiceIff` for whole runs);
  codes first used in order are never accepted twice (`OrderedUseIsSingleUse`).
- **Offsets and overlapping opens.** The server answers a checkpoint with a delta
  (src/terminals.rs:529-543), but static/terminal.html:938-954 never sends one, so the
  shipped page is only ever greeted with replays (`NeverResumesOnlyReplays`). A client
  that sends checkpoints holds an exact stretch of the stream throughout a run if and only
  if each delta it is sent starts at its own place when it arrives, which it can compare
  before it writes (`ClientHoldsExactStreamIff`). With no other open outstanding every
  delta does (`DisciplineSuffices`); with two outstanding, output is held twice
  (`OverlappingOpensDuplicate`). The damage ends with the next full replay, from which on
  only later answers count (`ReplayHealsIff`, `ExactSinceReplayIff`, `ReplayReopenHeals`).
- **A death that nobody is told of.** `attach` checks that the shell is alive
  (src/terminals.rs:504-507) and subscribes to its shutdown channel last
  (src/terminals.rs:550). A shell that dies in between has announced its death to a
  channel that counts the announcement as seen: the channel stays attached and silent
  (`DeathBeforeSubscriptionIsUntold`). An idle channel of a dead shell is told if and only
  if the shell was alive when it subscribed or has been stopped since (`ToldOfDeathIff`).
- **Logging out of an evicted session.** `create` evicts without rewriting the file
  (src/session.rs:154-168) and `remove` of a session that is not in memory does nothing
  (src/session.rs:189-195), so such a session is back after a restart. A run from an empty
  store gets there (`LoggedOutAfterEvictionReturns`); `Sessions.ComesBackIff` is the exact
  condition.
- **Session ceiling.** `login` and `begin_mfa` do not look at it. One form submitted again
  and again before any answer logs in each time, so for every n a run from an empty store,
  with every write succeeding, ends with n sessions in memory and on disk
  (`LoginsHaveNoCeiling`). A login keeps the ceiling if and only if the old id was still
  there or there was room (`SwitchKeepsCeilingIff`, `RunKeepsCeiling`).
- **Unsaved pins and revocations.** A pin whose write failed is accepted on the next try
  without another write (`PinOutlivesProcessIff`); a device dropped from memory is back
  after a restart exactly if the file still had it, unexpired, and no write has succeeded
  since (`Devices.ComesBackIff`).
- **Hand edits of the enrollment file.** A device from before an edit can get its owner in
  if and only if the edited date is the very date it was minted against
  (`EditedDateDecides`): an edit strands the devices only if it changes `enrolled_at`, and
  replacing the secret alone does not.
- **The killer slot.** The library behind `child.kill()` is not part of this model, so it
  is a parameter. No late signal is possible if and only if killing the owned child only
  signals it (`NeverSignalsAReapedChildIff`); if it may collect the child, a run goes wrong
  exactly when some `stop` signals between that kill and the moment the handle is taken
  (`SignalsLateIff`). The child is collected at most once if and only if the library
  remembers what it collected (`ReapedAtMostOnceIff`). The reader's nudge is lost exactly
  when the queue is full of resizes (`NudgeWakesIff`).

## Model

| member | source | states |
|---|---|---|
| `ModeTracking.ModeTracker.Feed` | src/terminals.rs:90-118 | the scanner moves from any position, half-scanned or not, exactly as the byte-wise specification, caps the parameters at 32 bytes and ignores control bytes inside a sequence |
| `ModeTracking.ModeTracker.Dispatch` | src/terminals.rs:120-148 | a final byte h or l applies every parsable field of a `?` sequence in order, anything else changes nothing; what applying a number means is pinned by `SequenceSetsItsMode` and, over streams, by `LastOneWins` |
| `ModeTracking.ModeTracker.Synth` | src/terminals.rs:153-171 | the printed head is the alternate screen, cursor keys, paste, the mouse modes ascending, the hidden cursor |
| `ModeTracking.ScannedConcat` | src/terminals.rs:90-118 | how a stream is cut into evictions does not matter |
| `ModeTracking.ScannedSound` | src/terminals.rs:61-76 | only the known alternate-screen and mouse numbers are ever stored, and the buffer never exceeds its cap |
| `ModeTracking.PrivateModeScans` | src/terminals.rs:120-148 | scanning a printed private-mode sequence has exactly the effect of its number |
| `ModeTracking.SequenceSetsItsMode` | src/terminals.rs:120-148 | each sequence `ESC [ ? n h` or `l`, byte for byte, sets or resets the one mode its number names, both ways and for every mode, and nothing else; other numbers do nothing |
| `ModeTracking.LastOneWins` | src/terminals.rs:90-148 | for every stream, from every scanner position: each mode is what the last complete sequence naming it said, otherwise what it was |
| `ModeTracking.InsideASequence` | src/terminals.rs:98-115 | control bytes do not disturb a sequence, ESC begins another, parameters beyond the 32nd are dropped, other finals or parameters without the question mark do nothing |
| `ModeTracking.OutsideASequence` | src/terminals.rs:90-97 | outside, only ESC begins something, and only a bracket behind it goes on |
| `ModeTracking.SynthRoundTrip` | src/terminals.rs:150-171 | scanning what `synth` printed, from a reset terminal, yields exactly the tracked modes and the ground position |
| `ModeTracking.AltScreenFirst` | src/terminals.rs:150-157 | the head of a replay enters the alternate screen before it says anything else |
| `ModeTracking.SynthEmptyIffDefault` | src/terminals.rs:259-265 | nothing is sent ahead of a replay if and only if every mode is default |
| `ModeTracking.ReplayFaithful` | src/terminals.rs:259-265 | for every stream and front with the scanner on the ground there, scanning prefix and ring reaches the modes and position of the whole stream |
| `ModeTracking.ReplayRestoresModesIff` | src/terminals.rs:55-60 | a replay restores the modes for every continuation if and only if the half-scanned rest can no longer touch a mode |
| `ModeTracking.UnsettledDiverges` | src/terminals.rs:90-118 | for any other scanner position a continuation with different modes is given |
| `ModeTracking.CutModeIsLost` | src/terminals.rs:153-171 | any mode sequence cut behind its introducer is applied by the whole stream and lost by the replay |
| `Scrollbacks.Scrollback.constructor` | src/terminals.rs:209-219 | an empty ring over an empty log with a blank screen of the given size |
| `Scrollbacks.Scrollback.Push` | src/terminals.rs:220-229 | after any push the ring is the last min(cap, total) bytes of the log, the front state the scan of exactly the evicted prefix, and the screen the fold over the log since the last rebuild |
| `Scrollbacks.Scrollback.Resize` | src/terminals.rs:231-236 | only a changed size makes the screen stale |
| `Scrollbacks.Scrollback.ScreenSnapshot` | src/terminals.rs:245-257 | the picture is that of a client of the current size that reset, wrote the prefix for the ring front at the last rebuild and every byte since, however resizes and pushes interleave |
| `Scrollbacks.ModelHasTheSize` | src/terminals.rs:245-252 | for whatever an emulator counts as size, the model has the announced columns and rows, one at least |
| `Scrollbacks.Scrollback.FrontInit` | src/terminals.rs:263-265 | the prefix is the printed modes of the evicted bytes |
| `Scrollbacks.Scrollback.Cut` | src/terminals.rs:276-288 | the cut is the specified one for every offset, also beyond the end, without underflow |
| `Scrollbacks.ReplayedClientMatchesShell` | src/terminals.rs:533-543 | a replayed client ends in the shell's own scanner position and modes when the cut fell between sequences |
| `Scrollbacks.ResumedClientMatchesShell` | src/terminals.rs:533-543 | a resumed client does so without any prefix or condition |
| `Relay.DrainUnderLock` | src/terminals.rs:360-388 | a drain that reports lag has nothing pending; otherwise pending is exactly the unread tail |
| `RelayClient.ClientHoldsExactStreamIff` | src/pty.rs:156-230 | in every run, whatever the client asks for, the client holds exactly one contiguous stretch of one shell's stream behind the right prefix at every moment if and only if each resume hello names its (epoch, offset) on arrival |
| `RelayClient.ExactSinceReplayIff` | src/pty.rs:307-365 | in every run, the client held an exact stretch at every moment since the last full replay it was sent if and only if each answer since then named its place |
| `RelayClient.ReplayHealsIff` | src/terminals.rs:531-543 | after any run whatever, delivering a full replay makes the client exact, and from there on it stays so if and only if all later answers fit |
| `RelayClient.ClientHoldsExactStream` | src/pty.rs:307-365 | in every run of pushes, lag, resets, respawns, disconnects and re-opens, if the answers since the last replay fit, what the client holds since then is one contiguous stretch of one shell's stream, and its prefix is the one for the place where the stretch begins |
| `RelayClient.AttachedChannelAccountsForStream` | src/pty.rs:167-230 | if the answers since the last replay fit, held, queued, drained and unread bytes together are the stream to its very end as long as the channel is attached |
| `RelayClient.RedrawShowsClientPosition` | src/pty.rs:182-202 | in every run, whatever the client asks for, a redraw it acts on was taken at exactly the stream position it has reached, of the shell it shows |
| `Redraws.SceneKeeps` | src/terminals.rs:362-388 | every step of the protocol, every resize and every snapshot, lagging ones included, keeps each picture that of the stream up to its frame's position |
| `Redraws.PictureShowsClientPosition` | src/terminals.rs:245-257 | in every run of protocol, resizes and everybody's snapshots, the picture of a redraw the client acts on is that of a terminal of the announced size that reset and took a prefix and the stream of the client's shell up to exactly the client's position |
| `Redraws.SnapshotRebuilds` | src/terminals.rs:245-257 | anybody's snapshot leaves a model of the size last asked for, rebuilt from where the ring starts then if a resize had left it stale, and touches no other |
| `Redraws.ResizeIsNoted` | src/terminals.rs:231-236 | a resize is only noted, and makes the model stale only if the size is another one |
| `Redraws.NetLeavesModels` | src/terminals.rs:362-388 | a tick takes the snapshot of its own shell and its redraw carries that model; every other step leaves all models alone, and a new shell gets a blank one |
| `RelayClient.FramesAreQueuedInOrder` | src/pty.rs:307-365 | in every interleaving of loop and forward tasks, every frame of an old attachment is queued before the hello of the next, and hello and replay before everything else of their own |
| `RelayClient.ToldOfDeathIff` | src/terminals.rs:504-550 | an idle channel whose shell is dead is told so if and only if the shell was alive when the channel subscribed, or has been stopped since |
| `RelayClient.FoundIsAlive` | src/terminals.rs:504-522 | the shell an open finds is alive at that moment: a live one is taken as it is, a dead or missing one is replaced by a new, empty one, and the old one is stopped once more |
| `RelayClient.OthersRespawnIff` | src/terminals.rs:504-522 | another connection's open spawns if and only if the slot has no live shell, with the same effect |
| `RelayClient.AnsweredFromALiveShell` | src/terminals.rs:489-557 | in every run, however its steps interleave, the hello that answers an open names a shell that was alive when it was looked up, and never the dead one the slot held |
| `RelayClient.TickRedraws` | src/pty.rs:180-202 | a tick of a channel that keeps up sends what is unread, in order, and right behind it one redraw taken at the end of the stream |
| `RelayClient.LostFramesClose` | src/pty.rs:194-223 | a channel more than 64 chunks behind is closed as broken, by receiving and by a redraw alike, and only then |
| `RelayClient.DeathCloses` | src/pty.rs:203-210 | a channel whose shell was stopped or died is closed as over, with nothing sent after |
| `RelayClient.ResetIsHeard` | src/terminals.rs:622-632 | a reset gives up and stops the slot's shell and nothing else, and every idle channel of that shell can hear of it |
| `RelayClient.FailureIsTold` | src/pty.rs:391-399 | an open that cannot be answered leaves the slot empty and tells the client |
| `RelayClient.LostConnectionIsStill` | src/pty.rs:428-432 | a lost connection leaves no frame and no question behind: whatever the shells do, the client gets nothing until it asks again, and no shell notices |
| `Relay.StepKeeps` | src/terminals.rs:489-557 | every step of reader, loop, forward task, writer and client keeps the invariant of shells, wire, channel, loop, births and queueing order; what each answer is taken from is the subject of `AnsweredFromALiveShell` |
| `RelayRuns.ReopenHeals` | src/pty.rs:307-390 | after any history, an open answered step by step among everything else brings a client all of whose answers since its last replay fit, once its frames arrive, to the place where the new forward task goes on |
| `RelayRuns.ReplayReopenHeals` | src/pty.rs:307-390 | after any history whatever, unfit answers included, an open answered with a replay does so |
| `RelayRuns.NeverResumesOnlyReplays` | static/terminal.html:938-954 | a page that never offers a checkpoint is only greeted with replays, so all its answers fit |
| `RelayRuns.DisciplineSuffices` | src/pty.rs:307-318 | a client that offers checkpoints only while no other open is unanswered gets only answers that fit |
| `RelayRuns.OverlappingOpensDuplicate` | src/pty.rs:307-318 | from every world where the client follows, two opens outstanding, the second with a checkpoint, make it hold whatever the shell writes meanwhile twice |
| `RelayRuns.FirstOpenFollows` | src/terminals.rs:489-557 | such worlds are reached from the start |
| `RelayRuns.DeathBeforeSubscriptionIsUntold` | src/terminals.rs:504-550 | in every reachable world between alive check and subscription, a shell that dies then leaves an attached channel for which no announcement, end or output is pending |
| `ReplayClient.Session.SendOpen` | static/terminal.html:941-954 | from here to the next hello every frame is dropped |
| `ReplayClient.Session.OnHello` | static/terminal.html:956-984 | whatever mode the hello names, a new generation starts: everything the old attachment left is behind the barrier and all earlier callbacks are stale |
| `ReplayClient.Session.OnOutput` | static/terminal.html:986-998 | a frame is dropped, buffered behind the barrier or written, and the page's bytes stay those of the protocol's client |
| `ReplayClient.Session.FlushSnapshot` | static/terminal.html:1000-1028 | the buffered frames are written in transport order, once, after barrier and first frame |
| `ReplayClient.Session.OnRedraw` | static/terminal.html:930-936 | a redraw is painted only on a live screen of the same size, and never counted as stream |
| `ReplayClient.Session.OnClosed` | static/terminal.html:1051-1065 | a close keeps what is shown, except for a slot deleted on purpose |
| `ReplayClient.Session.MarkClosed` | static/terminal.html:1035-1049 | a deleted slot drops its pending replay |
| `ReplayClient.Session.ParseNext` | static/terminal.html:968-979 | whatever callback xterm runs next, of this or an earlier generation, the session stays consistent and nothing is written out of order |
| `ReplayClient.SettledSessionShowsStream` | static/terminal.html:941-1028 | once xterm has caught up, the terminal shows the prefix and then exactly the bytes the protocol's client holds, with no old bytes |
| `ReplayClient.StreamIsTheShells` | src/terminals.rs:259-265 | what an exact client shows is the shell's stream behind the prefix for its front; with the front between two sequences, modes and scanner position are the shell's |
| `ReplayClient.TakeStep` | static/terminal.html:986-998 | for every enabled step of the protocol, the page's handlers do to the session what the step does to the protocol's client |
| `ReplayClient.FollowRun` | static/terminal.html:938-1028 | end to end, a page driven from nothing through any run of the protocol, stale callbacks and timers anywhere in between, shows, once settled, the prefix for the replay's front and exactly one contiguous stretch of one shell's stream, with the shell's modes if the front lay between sequences |
| `ReplayClient.Session.Settle` | static/terminal.html:968-1028 | parsing what is queued always ends, with barrier, prefix and buffered frames through, in a live session that lets reports through again if a first frame has come |
| `ReplayClient.FollowAndSettle` | static/terminal.html:938-1028 | after every run in which a hello and a first frame behind it have arrived, parsing what is queued leaves a live page that shows that stretch of that shell's stream |
| `Decimal.ParsePrint` | src/share.rs:200-203 | every printed number parses back at every width that holds it |
| `Decimal.ParseForms` | src/terminals.rs:130 | one plus sign and leading zeros change nothing; no digits, or two signs, are refused |
| `Decimal.DigitsCount` | src/terminals.rs:130 | digits count from the left in tens |
| `Decimal.ParseRefuses` | src/terminals.rs:130 | anything but digits behind the sign is refused |
| `Base32.EncodeBase32` | src/totp.rs:16-26 | the unmasked 32-bit accumulator computes RFC 4648 section 6 without padding |
| `Base32.DecodeBase32` | src/totp.rs:33-48 | the masked accumulator computes the specified decoding, or none for a foreign character |
| `Base32.RoundTrip` | src/totp.rs:16-48 | every byte string survives encoding and decoding |
| `Base32.DecodingIgnoresFiller` | src/totp.rs:33-40 | white space or a padding sign anywhere changes nothing |
| `Base32.DecodingIgnoresCase` | src/totp.rs:33-44 | neither does the case of letters |
| `Base32.ForeignIsRefused` | src/totp.rs:33-44 | any character but letters, `2` to `7` and the fillers is fatal, wherever it stands |
| `Base32.SpellsTheNumber` | src/totp.rs:16-26 | the letters are, in order, the base-32 digits of the number whose base-256 digits are the bytes, moved up by the zeros that fill the last one |
| `Base32.OneByteSpells` | src/totp.rs:16-26 | a single byte is the two letters of its high five and its low three bits |
| `ShareToken.ArmorRoundTrip` | src/share.rs:22-23 | base64url without padding (RFC 4648 section 5) round-trips |
| `ShareToken.ArmorSpellsTheNumber` | src/share.rs:22-23 | the letters are, in order, the base-64 digits of the number whose base-256 digits are the bytes |
| `ShareToken.ArmorIsCanonical` | src/share.rs:22-23 | its decoding accepts nothing but encodings |
| `ShareToken.TokenRoundTrip` | src/share.rs:197-280 | verifying a token gives back exactly id, user, slot and expiry, for every user name, colons included |
| `ShareToken.TokensDiffer` | src/share.rs:197-210 | two grants have the same token if and only if they are the same |
| `ShareToken.AcceptedIsSealed` | src/share.rs:266-280 | every accepted token is the one spelling of the payload it carries, which is text |
| `ShareToken.ForgedIsRefused` | src/share.rs:266-280 | a token whose second half is not the keyed hash of the first is refused |
| `ShareToken.TokenLayout` | src/share.rs:197-210 | the payload field by field, and the token around it |
| `Shares.ShareStore.PruneExpired` | src/share.rs:150-162 | exactly the expired grants go, exactly those with viewers are signalled and counted |
| `Shares.ShareStore.Create` | src/share.rs:215-247 | expired grants go first; at the cap the user is refused, otherwise one new grant with 32 places |
| `Shares.ShareStore.Sweep` | src/share.rs:256-262 | the scheduled pruning, counting the grants with viewers |
| `Shares.ShareStore.Resolve` | src/share.rs:283-298 | a held, matching, unexpired grant resolves; an expired token takes its grant out, telling its viewers |
| `Shares.ShareStore.RemainingSecs` | src/share.rs:301-307 | some time remains exactly for a verified token of a held, unexpired grant, and it ends at the expiry |
| `Shares.ShareStore.Revoke` | src/share.rs:309-319 | only the owner's own grant is taken out |
| `Shares.ShareStore.LeaseOn` | src/share.rs:325-347 | invalid, full or leased, taking one place |
| `Shares.ShareStore.DropLease` | src/share.rs:100-106 | a lease that ends gives its place back |
| `Shares.ShareStore.List` | src/share.rs:349-357 | the user's unexpired grants; the copies keep the channels' senders |
| `Shares.ShareStore.Send` | src/pty.rs:512-553 | a frame is started if and only if the lease is valid then; otherwise a Close goes out |
| `Shares.StepKeeps` | src/share.rs:150-357 | every operation keeps the invariant between grants, channels, places and leases |
| `Shares.RevokedIffGrantGone` | src/share.rs:119-131 | in every reachable state an outstanding lease is revoked if and only if its grant has left the map, even while a copy keeps the channel open |
| `Shares.CapsHold` | src/share.rs:32-42 | viewers and free places always add up to 32, and no user holds more than 32 grants |
| `Shares.GrantsNeverReturn` | src/share.rs:215-357 | a grant is the same grant, or gone for good |
| `Shares.GrantHeldIff` | src/share.rs:215-357 | in every run a grant is still held, unchanged, if and only if no step was its owner's revocation, or a pruning or expired token after its expiry; nothing anybody else does can take it |
| `Shares.TokenResolvesIff` | src/share.rs:206-298 | the token of every grant ever created resolves if and only if the grant is held and unexpired |
| `Shares.InvalidForGood` | src/pty.rs:496-553 | once invalid, a lease is never valid again and no frame is ever started on it |
| `Devices.DeviceStore.constructor` | src/devices.rs:113-132 | loading keeps exactly the unexpired records |
| `Devices.DeviceStore.Mint` | src/devices.rs:138-189 | expired records go, then the least recently used of this identity over the cap; the new id is returned, or after a failed write none, with the new record taken back |
| `Devices.DeviceStore.Authorize` | src/devices.rs:197-226 | success exactly for a live record of this identity and enrollment, whether or not the use can be saved; only the time of last use and the display facts change |
| `Devices.DeviceStore.Revoke` | src/devices.rs:252-271 | it succeeds if and only if a record in memory has this handle and this owner, and takes out that one, also when the write fails; nobody else's record is touched |
| `Devices.DeviceStore.RevokeAll` | src/devices.rs:275-286 | all of the identity's records go, with a write only if there were any |
| `Devices.DeviceStore.RevokeToken` | src/devices.rs:291-298 | the record a cookie names goes, whoever owns it |
| `Devices.DeviceStore.ForgetIfOwned` | src/devices.rs:305-314 | it goes only if the identity owns it |
| `Devices.DeviceStore.Sweep` | src/devices.rs:319-331 | exactly the expired records go |
| `Devices.MintKeepsCap` | src/devices.rs:160-178 | at most max(cap, 1) records, the new one among them; evicted ones were least recently used; other identities keep theirs |
| `Devices.RunKeepsCap` | src/devices.rs:113-331 | over every run, failed writes and restarts included, no identity has more records than the largest cap a mint went by, neither in memory nor in the file |
| `Devices.FailedMintIsUndone` | src/devices.rs:179-187 | the token of a mint whose write failed authorizes nobody in any run that follows; what it evicted is back after a restart if and only if the file had it, unexpired, and nothing was saved since |
| `Devices.GoneForGood` | src/devices.rs:113-331 | a record in neither memory nor file never comes back, across restarts and racing mints |
| `Devices.RevokedForGood` | src/devices.rs:252-298 | a device revoked with a successful write never authorizes again |
| `Devices.ComesBackIff` | src/devices.rs:258-270 | one dropped from memory is back after a restart if and only if the file still had it, unexpired, and no write succeeded since |
| `Devices.StaysTrusted` | src/devices.rs:197-331 | in every run without a restart in which no step revokes for its owner, names its token, evicts it or outlives it, a device goes on letting in exactly its owner, at its enrollment and within its time |
| `Devices.StepRevokes` | src/devices.rs:252-331 | what each kind of revocation and the sweep take out, and that they take out nothing else |
| `Devices.TrustIsAbsolute` | src/devices.rs:46-56 | however often used, a device authorizes only its identity and enrollment, and only before mint time plus window |
| `Sessions.SessionStore.constructor` | src/session.rs:89-137 | loading keeps the live sessions worth keeping and writes them back |
| `Sessions.SessionStore.PersistLocked` | src/session.rs:287-317 | the file becomes exactly the live sessions worth keeping, or stays |
| `Sessions.SessionStore.Create` | src/session.rs:140-170 | at the ceiling the oldest anonymous session goes, or the oldest of all; nothing is written |
| `Sessions.SessionStore.Get` | src/session.rs:173-187 | a live session is returned, an expired one taken out and saved |
| `Sessions.SessionStore.Remove` | src/session.rs:189-195 | a session in memory is taken out and that saved; otherwise nothing happens |
| `Sessions.SessionStore.Login` | src/session.rs:200-222 | a new session replaces the old id: authenticated, nothing pending, of this user, token and time; all others stay |
| `Sessions.SessionStore.BeginMfa` | src/session.rs:224-246 | a new session replaces the old id: not authenticated, awaiting a code, of this user, token and time; all others stay |
| `Sessions.SessionStore.Sweep` | src/session.rs:249-264 | exactly the expired sessions go, with a write only if there were any |
| `Sessions.SessionStore.SetOauth` | src/session.rs:267-273 | only the flow of that session changes |
| `Sessions.EveryLoginIsALogin` | src/session.rs:200-246 | in every run from an empty store, restarts and failed writes included, each authenticated session in memory or on disk goes back to a login with its id and user, and each one awaiting a code to a `begin_mfa` |
| `Sessions.RestartKeepsSessions` | src/session.rs:279-317 | as long as writes succeed, in every reachable state a restart brings back every live session worth keeping with the same fields |
| `Sessions.NothingAnonymousOnDisk` | src/session.rs:338-346 | anonymous sessions never reach the disk, whatever fails |
| `Sessions.TakenOutForGood` | src/session.rs:189-246 | what remove, login or begin_mfa took out with a successful write never returns |
| `Sessions.LoggedOutAfterEvictionReturns` | src/session.rs:154-195 | a run from an empty store, with every write succeeding, ends with a user who logged out being logged in again after the restart |
| `Sessions.ComesBackIff` | src/session.rs:89-137 | a session no longer in memory is back after a restart if and only if the file had it, worth keeping, and nothing was saved since |
| `Sessions.CreateKeepsCeiling` | src/session.rs:24-26 | no flood of anonymous sessions exceeds the ceiling |
| `Sessions.LoginsHaveNoCeiling` | src/session.rs:200-222 | for every n a run from an empty store, with every write succeeding, ends with n sessions in memory and on disk |
| `Sessions.SwitchKeepsCeilingIff` | src/session.rs:200-246 | a login keeps the ceiling if and only if the old id was there or there was room |
| `Sessions.RunKeepsCeiling` | src/session.rs:140-246 | over whole runs, restarts included, map and file stay under the ceiling as long as every login meets that condition |
| `Enrollments.EnrollmentStore.PinSubject` | src/enrollment.rs:101-112 | the first subject is pinned and stays; another one is refused; a failed write is not rolled back |
| `Enrollments.EnrollmentStore.Enroll` | src/enrollment.rs:115-122 | secret and date are set, the pinned subject stays |
| `Enrollments.PinIsForGood` | src/enrollment.rs:98-112 | a subject that reached the file is the only one let in, for good |
| `Enrollments.PinOutlivesProcessIff` | src/enrollment.rs:101-112 | an unsaved pin lets its subject in and outlives the process if and only if some later write succeeds |
| `ReplayGuards.ReplayGuard.AcceptAt` | src/totp.rs:117-130 | the deque, edited in place, judges a code as specified |
| `ReplayGuards.OuterSpaceIsNothing` | src/totp.rs:68-118 | two presentations that differ in white space around the code are one code |
| `ReplayGuards.SpacesAndDigits` | src/totp.rs:68-70 | digits are not white space; blanks, tabs and line ends are |
| `ReplayGuards.AgainWithinNinetySeconds` | src/totp.rs:117-130 | a code just accepted is refused within 90 seconds and passes again after them |
| `ReplayGuards.VerifiesForNinetySeconds` | src/totp.rs:67-80 | a code verifies in its own 30 seconds, those before and those after |
| `ReplayGuards.MemoryIsYoungEnd` | src/totp.rs:99-130 | with time going forward the memory is exactly the last three accepted codes younger than 90 seconds |
| `ReplayGuards.PresentedRefines` | src/totp.rs:117-130 | the memory of codes follows the memory of counters |
| `ReplayGuards.SecondUsePassesIff` | src/totp.rs:82-103 | right after an accept a second use of a live code passes if and only if the accept evicted a live code |
| `ReplayGuards.AcceptedTwiceIff` | src/totp.rs:92-130 | over every run: some counter's code is accepted twice if and only if one passes that an earlier accept evicted while it still verified |
| `ReplayGuards.SingleUse` | src/totp.rs:92-103 | in runs without such evictions no counter's code is accepted twice |
| `ReplayGuards.OrderedUseIsSingleUse` | src/totp.rs:92-98 | codes first used in order are accepted at most once, however often they are presented again |
| `ReplayGuards.OutOfOrderSecondUse` | src/totp.rs:82-85 | at whatever time, out of order a code that still verifies is accepted twice |
| `Lockout.LoginGuard.MfaLocked` | src/main.rs:151-156 | the time left on the lock, if any |
| `Lockout.LoginGuard.MfaFailed` | src/main.rs:159-181 | the strike is counted, the run forgotten after seven days, every fifth strike locks |
| `Lockout.LoginGuard.MfaSucceeded` | src/main.rs:183-185 | the run is forgotten |
| `Lockout.LoginGuard.Submit` | src/main.rs:1646-1702 | one submission changes only its identity's record; a lock refuses, a wrong code counts, a replayed one does not |
| `Lockout.SuccessForgets` | src/main.rs:183-185 | after an accepted code the next wrong one counts as the first and locks nothing |
| `Lockout.NothingElseCounts` | src/main.rs:1646-1672 | a replayed code is neither strike nor success, and while a lock stands nothing counts |
| `Lockout.FifthWrongLocks` | src/main.rs:159-181 | four wrong codes within a week of each other lock nothing, the fifth locks for 15 minutes |
| `Lockout.LocksDouble` | src/main.rs:57-60 | the first lock is 15 minutes, each the double of the one before up to 24 hours |
| `Lockout.WrongCodesTakeTime` | src/main.rs:159-181 | without success or long gap, n counted wrong codes take at least the first (n-1)/5 locks added up |
| `Lockout.AtMost65WrongCodesAWeek` | src/main.rs:56-63 | at most 65 wrong codes are counted in any seven days without success |
| `Lockout.FastestMeetsBound` | src/main.rs:159-181 | for every n, a run counts n wrong codes in exactly that time |
| `Lockout.SixtyFiveFitInAWeek` | src/main.rs:56-63 | the bound for a week is met by a run |
| `Lockout.WaitingOutContinues` | src/main.rs:61-63 | after any run: a code is refused if and only if the last counted one ended a round whose lock still stands, a wrong one continues the count if and only if it comes within seven days, and every lock leaves six of those |
| `Lockout.CountNeverWraps` | src/main.rs:90-94 | in every run shorter than two million years the strike count stays within 32 bits |
| `Login.StepKeeps` | src/main.rs:1164-1760 | every step of every handler, and every restart onto an edited file, keeps the invariant between log, sessions, devices, enrollment and buckets |
| `Login.CallbackObeysThePin` | src/main.rs:1394-1412 | by the record: another subject than the pinned one gets nowhere and changes nothing, the pinned one passes, a first one is pinned and passes if that is saved |
| `Login.OneAccountPerIdentity` | src/main.rs:1394-1412 | for the whole life of a process all Google first factors of an identity carry one subject, the pinned one if there was one |
| `Login.TrustIsChecked` | src/main.rs:1008-1029 | a device stands in for the code if and only if it is there, unexpired, the identity's own and of the date read before; without cookie, secret or date it is not asked |
| `Login.SessionIdsChange` | src/main.rs:1226-1254 | each login takes the old session id out and puts a new one in: half logged in while a code is owed, fully on the strength of a device or a code |
| `Login.WrongCodesGainNothing` | src/main.rs:1646-1679 | a wrong or used code gains nothing, a lock costs the half-logged-in session too, and both free the bucket |
| `LoginEffects.SessionEndsIff` | src/main.rs:1164-1760 | what ends a session: a login that replaces it, a lock on its code, a removal, or a restart that does not find it; any other step of anybody leaves it as it is |
| `LoginEffects.ThereUntilEnded` | src/main.rs:1164-1760 | within one process a session is there, the same, if and only if no step so far ended it, and never returns |
| `LoginEffects.DeviceGoesIff` | src/main.rs:1681-1699 | a device goes when its own owner enrolls anew, when it is dropped, or when a restart does not find it, and otherwise stays |
| `LoginEffects.DeviceComesIff` | src/main.rs:1714-1736 | a device comes only from a successful write for a request that waits for one, with its user and the date read for it |
| `LoginEffects.UnsavedEnrollmentGainsNothing` | src/main.rs:1681-1690 | an enrollment that cannot be saved logs nobody in, revokes and remembers nothing |
| `LoginEffects.RememberedIffAsked` | src/main.rs:1714-1736 | a code login goes on to remember the browser if and only if the form asked and this is no enrollment |
| `LoginEffects.RememberedGetsIn` | src/main.rs:1008-1029 | with the device such a login leaves, its owner gets in next time by a first factor and no code |
| `Login.DevicesWereAskedFor` | src/main.rs:1704-1736 | in every run, each device there ever was goes back to an accepted code that came with the wish to be remembered, on a login that was no enrollment |
| `Login.EverySessionIsEarned` | src/main.rs:1212-1254 | from any accounted start, persisted sessions and devices included, and over restarts and edits: every authenticated session goes back to a first factor of its identity and an accepted code; by code, for the secret the identity was enrolled with then; by device, for the secret stored with the very date the identity had when the device was asked for |
| `Login.FreshInstallAccountsForAll` | src/main.rs:1212-1254 | on a fresh install the log of the run itself holds, for every authenticated session, a first factor, a code, and the file or enrollment that gave the secret the code was accepted for |
| `Login.SecretsAreNeverOverwritten` | src/main.rs:1643-1690 | whatever enrolls concurrently, within one process a stored secret and its date never change |
| `Login.SecretsAreProven` | src/main.rs:1652-1690 | every secret ever stored went into a record without one, after a code accepted for it past the first factor |
| `Login.StaleDevicesStayOut` | src/main.rs:964-972 | for the whole life of a process, a device lets an enrolled identity in only if its date is the one the process started with |
| `Login.EditedDateDecides` | src/main.rs:1008-1029 | after a restart onto an edited file with a secret for the identity, some run lets it in with an old device if and only if the device is its own and has exactly the edited date |
| `Login.ReEnrollmentStrands` | src/main.rs:1681-1699 | after a re-enrollment every device the identity has was minted after a code for the new secret, even if an older one had the same date |
| `Killer.NeverSignalsAReapedChildIff` | src/terminals.rs:306-337 | in every interleaving no signal goes out through the shared handle after the child was reaped, if and only if killing the child only signals it |
| `Killer.SignalsLateIff` | src/terminals.rs:800-832 | if that kill may collect, a run signals a reaped child if and only if a stop signals between the collecting kill and the taking of the handle |
| `Killer.ReapedAtMostOnceIff` | src/terminals.rs:800-832 | counting every collecting call, by kill or wait, the pid is collected at most once and never used afterwards by its owner, if and only if the library remembers what it collected |
| `Killer.LeavingEndsReaped` | src/terminals.rs:824-831 | once the command thread has left its loop, after every run the child has been waited for and reaped or the steps still owed get there |
| `Killer.NudgeWakesIff` | src/terminals.rs:788-797 | in every reachable world the nudge of an ended reader or of a stop leads a serving command thread through its queue, kill and wait to reap the child, unless the queue was full of nothing but resizes |

## Left out

- Lockout.LoginGuard.Submit: releasing the attempt's bucket (src/main.rs:1664) and counting the wrong code (src/main.rs:1668) are one step here; between them another request can enter.
- Lockout.LoginGuard.MfaFailed: the strike count is unbounded; that it fits its 32 bits is a separate result.
- Login.EverySessionIsEarned: the second factor is required throughout; what a restart finds on disk is any part of what was ever issued or minted.
- Login.EditedDateDecides: an identity the edited file gives no secret has to enroll first, so its devices are refused until then.
- Login.WrongCodesGainNothing: the wrong code that brings a lock also removes the session (src/main.rs:1668-1669); that removal is a step of its own here.
- Login.StepKeeps: device expiry, the code memory and the lockout appear as free outcomes of their steps; they are modelled in their own files.
- Sessions.SessionStore.Create: one clock stands for the monotonic and the wall clock, and the creation time is one field.
- Sessions.SessionStore.PersistLocked: a store without a path is one whose writes all fail; the revocation channels of sessions are left out.
- Devices.DeviceStore.Mint: the token behind the hash is not part of the result, and the display facts come in already cleaned.
- Shares.ShareStore.Create: the owner's note is left out.
- Shares.ShareStore.Send: the race of a started write against deadline and stall limit is left out; only starting a frame is decided here, and every viewer has a lease.
- RelayClient.ClientHoldsExactStream: the writer queue is unbounded, and one slot with one client is followed; other clients act through pushes, resets and exits.
- RelayRuns.ReopenHeals: the Close control, which aborts the forward task without awaiting it (src/pty.rs:416-420), is excluded.
- RelayClient.ToldOfDeathIff: the reader's clearing of the alive flag and its announcement (src/terminals.rs:783-784) are one step.
- ReplayClient.Session.OnHello: mouse state, reports to the shell, status refreshes and re-open timers are left out.
- ReplayClient.FollowRun: deleting a slot on purpose is not among the user's actions; a redraw is painted as given, its picture is the subject of `Redraws`.
- ReplayGuards.OrderedUseIsSingleUse: the codes of distinct counters may coincide; the guard then refuses more.
- `attach_view` and the single-channel `bridge` of share viewers: the same cut and forwarding as `attach`, without respawn.
- PTY, fork and exec, environment assembly, signal delivery; the setup failure path of `spawn_terminal`.
- vt100 and xterm rendering: no claim about cell contents.
- HMAC, SHA, Argon2, bcrypt, cookie signing, the OIDC exchange, the HOTP computation.
- HTTP routing, pages, headers, keyboard and layout code, TLS and ACME, configuration.
- Clamps, origin matching, note sanitizing, identity trimming, the tarpit delay: settled by one branch each.
