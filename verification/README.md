# Lens3 in Dafny

Lens3 v2 is an S3 multiplexer. Its processes (Multiplexers, a Registrar, an
administrator's tool) share nothing but a keyval-db. This project models the parts
of `v2/lens3` whose correctness spans many calls or many processes, and proves what
they keep.

| file | what it models |
|---|---|
| `Records.dfy`, `Naming.dfy`, `Sequences.dfy` | records, naming rules, generated names, shared helpers |
| `Registry.dfy` | all tables as one value, the constraints between them, adding and removing users and pools |
| `Table.dfy` | the tables as an object that scans, cascades and rollbacks change entry by entry |
| `Handlers.dfy`, `Runs.dfy` | Registrar requests and administrator commands, and runs of them in which any process may panic |
| `Outcomes.dfy` | how each of them is answered and what it has changed then |
| `Isolation.dfy` | what requests, and cleaning up an inconsistent pool, do to the pools of others |
| `Creation.dfy`, `CreationEnds.dfy` | make-pool and make-bucket requests interleaved at every database call, and how they end |
| `Protocol.dfy` | starting and stopping backends: threads of any number of Muxes, one database call per step, with a clock and expiring keys |
| `ProtocolSafety.dfy` | what every run of that protocol keeps |
| `Robbery.dfy`, `RecordLife.dfy` | runs in which no mutex is taken away: one thread inside, and how long a record lasts |
| `SingleBackend.dfy`, `SecondBackend.dfy` | rules under which a pool has one backend, and why each of them is needed |
| `Serving.dfy` | what requests get from the protocol in every run, and what a start and a pinger do when nobody interrupts |
| `Ports.dfy`, `Startup.dfy`, `Backoff.dfy`, `Pinger.dfy`, `Reconcile.dfy` | the loops around one backend process |
| `Access.dfy` | the access decision of a Mux |
| `UserDump.dfy`, `DbDump.dfy`, `StringsReader.dfy` | dump-user and load-user, dump-db and fill-db, the reader over many strings |

`dafny verify dfyconfig.toml` checks everything.

The registry is described by `Registry.Sound`: all written constraints, except that a name
and its directory may be there without a pool. Every operation keeps it from every sound
registry, so every registry reached from an empty one is sound; there, the removals and
displays of the code have exactly the effects used in runs (`Tables.Table`).
`Registry.Integrity` adds that no name is without its pool.

Where the code does less than its documentation or its own checks expect, the model
follows the code, one lemma gives a failing case and another says when the promise does
hold, if and only if a condition holds unless said otherwise:

- *Claims are kept one-to-one with users* (v2/doc/design-notes.md:136-137): changing
  a claim leaves the old entry (`Registry.ModifyBreaksOneToOne`, `Registry.OneToOneAfterAddUser`).
- *A csrf token is a member of its user and goes with it* (v2/lens3/table.go:136-137):
  removing a user keeps it (`Runs.TokenOutlivesUser`, `Registry.TokensOwnedAfterRemoval`).
- *The mutex is for a single start of a backend* (v2/doc/design-notes.md:110-111): the
  record is read before the mutex is won and not again after, so two backends can be up
  (`SecondBackend.MutexIsNotEnough`). One backend is certain in runs that keep three rules
  (`SingleBackend.OneBackendPerPool`), which is one direction only; for the other, a state
  in which one of the rules is broken leads to two backends
  (`SecondBackend.UncarefulWinMakesTwo`, `SecondBackend.RobberyMakesTwo`,
  `SecondBackend.LateRenewalMakesTwo`, `SecondBackend.NoLifeMakesTwo`).
- *A renewed record lasts three heartbeat intervals*: a step keeps this if and only if it
  is not a thread limiting the life of its dummy while the record of a pinged backend is
  there and would live longer (`RecordLife.StepKeepsLiving`). Such steps need a mutex that
  was taken away (`RecordLife.PeacefulRecordLasts`), and a run has one
  (`SecondBackend.RobberyShortensRecord`).
- *fill-db accepts what dump-db writes* (v2/doc/admin-guide.md:123-131): it never does,
  because of the banner lines; entry lines alone are restored under an exact condition
  (`DbDump.DumpIsNotReadable`, `DbDump.RoundTrip`).
- *Every pool has a probe key*: a delete-secret request may name that key, after which a
  probe panics (`Runs.ProbeKeyCanGo`, `Handlers.StepProbeKeys`).
- *A name and a directory belong to a pool*: make-pool leaves both behind when it runs out
  of access keys (`Runs.PoolCanBeOrphaned`, `Runs.RunKeepsIntegrity`).
- *Displaying an inconsistent pool removes that pool*: it may take the directory of another
  one (`Isolation.CleaningCanHitAnother`, `Isolation.CleaningLeavesOthers`).
- *A mutex lives twice the start timeout*: truncation to seconds removes it at once for
  timeouts under half a second (`Backoff.MutexLife`).

## Model

| member | source | states |
|---|---|---|
| `Naming.RandomKeyReads` | v2/lens3/utility.go:123-127 | a generated pool name is accepted by the pool naming rule and reads back as the 64-bit number it was made from |
| `Naming.RandomKeyInjective` | v2/lens3/utility.go:123-127 | different 64-bit numbers give different names |
| `Naming.RandomString` | v2/lens3/utility.go:95-117 | for every source of random numbers the string has the asked length, a letter first and letters or digits after it; of twenty characters it passes the rule for access keys |
| `Registry.IntegrityIs` | v2/lens3/table.go:113-252 | under integrity names are exactly the pools, and pools and directories are in bijection |
| `Registry.SoundIsExclusive` | v2/lens3/table.go:113-252 | in a sound registry no two users share a non-empty claim and no two pools a directory |
| `Registry.WithoutPoolsLeavesNothing` | v2/lens3/registrar.go:1785-1832 | no table keeps an entry of a removed pool |
| `Registry.WithoutPoolsKeepsOthers` | v2/lens3/registrar.go:1785-1832 | every entry of every other pool, and all users, are as before |
| `Registry.WithoutUserSound` | v2/lens3/registrar.go:1759-1768 | removing a user with its pools and claims keeps a registry sound |
| `Registry.WithoutUserIsExact` | v2/lens3/registrar.go:1759-1768 | exactly the user, its claims, its timestamp and its pools with their members go; every other claim, pool and member is as it was |
| `Registry.TokensOwnedAfterRemoval` | v2/lens3/table.go:136-141 | tokens still belong to users after a removal if and only if the removed user had none |
| `Registry.AddUserSound` | v2/lens3/table.go:715-741 | adding or modifying a user keeps a registry sound, conflicts included |
| `Registry.OneToOneAfterAddUser` | v2/lens3/table.go:715-741 | claims stay one-to-one if and only if the user is not accepted or no non-empty claim is replaced by another |
| `Registry.ModifyBreaksOneToOne` | v2/lens3/table.go:715-741 | a concrete change of claim after which two entries name one user |
| `Registry.FirstFresh` | v2/lens3/table.go:1202-1229 | the first generated id that is not in use; none only if all generated ids are in use |
| `Handlers.StepSound` | v2/lens3/registrar.go:484-909 | every request and command, however it ends, keeps a registry sound |
| `Runs.StepOnOrphans` | v2/lens3/registrar.go:613-678 | names without a pool never become fewer, and exactly one more comes with each make-pool that runs out of access keys |
| `Runs.StepIntegrity` | v2/lens3/registrar.go:484-909 | one operation keeps full integrity if and only if it is not such a make-pool, and then Registrar quits |
| `Runs.RunKeepsSound` | v2/lens3/registrar.go:484-909 | every run from a sound registry, going on after panics of single processes, stays sound |
| `Runs.RunKeepsIntegrity` | v2/lens3/registrar.go:484-909 | such a run keeps full referential integrity if and only if no make-pool of it runs out of access keys |
| `Runs.PoolCanBeOrphaned` | v2/lens3/table.go:1202-1229 | a run from the empty registry that ends without integrity |
| `Handlers.MakePoolSound` | v2/lens3/registrar.go:599-686 | make-pool with its probe and rollback keeps a registry sound, also where it leaves a name and a directory behind, and then it is fatal |
| `Handlers.CheckAccessSound` | v2/lens3/registrar.go:944-1300 | checking, enrolling and extending a user changes only users and keeps a registry sound; an accepted request has a registered user who owns the pool; only a missing token record raises |
| `Outcomes.AccessAnswers` | v2/lens3/registrar.go:944-1201 | in a sound registry, each answer of the access check with exactly when it comes: okay if and only if the peer is trusted, the user is enabled and unexpired, or ephemeral, or may be enrolled, the tokens match unless the session is the first, and a named pool is the user's |
| `Outcomes.AccessRecords` | v2/lens3/registrar.go:1148-1264 | what the check leaves: an admitted new user is enrolled, an ephemeral one extended, and else nothing is changed |
| `Handlers.LoadRowSound` | v2/lens3/admintool.go:200-275 | a load-user row keeps a registry sound, whatever is in it |
| `Outcomes.ModifyRow` | v2/lens3/admintool.go:202-236 | MODIFY changes the user and its claim entry and nothing else, so its pools stay; it raises if and only if the claim is another user's and panics if and only if the row is bad |
| `Outcomes.AddRowOutcome` | v2/lens3/admintool.go:202-236 | ADD removes that user with its pools and claims first and then adds it as written, or raises on the claim of another |
| `Outcomes.DeleteRow` | v2/lens3/admintool.go:237-268 | in a sound registry, DELETE removes exactly the registered users that are named with everything of theirs, or panics on a bad name and changes nothing |
| `Outcomes.SwitchRow` | v2/lens3/admintool.go:237-268 | in a sound registry, ENABLE and DISABLE set exactly the flag of the named users; they panic if and only if a name is bad or a named user has no groups |
| `Outcomes.OtherRow` | v2/lens3/admintool.go:200-275 | an empty row and a row of any other kind are refused and change nothing |
| `Handlers.StepProbeKeys` | v2/lens3/registrar.go:876-909 | from every sound registry, each pool keeps its probe key through an operation if and only if that is not a delete-secret naming one |
| `Runs.RunKeepsProbeKeys` | v2/lens3/registrar.go:1881-1896 | in every run from a sound registry without such a request, panics included, each pool keeps the internal key that probes need |
| `Runs.ProbeKeyCanGo` | v2/lens3/registrar.go:876-909 | a run from the empty registry in which a user deletes the probe key of its pool |
| `Runs.TokenOutlivesUser` | v2/lens3/registrar.go:1759-1768 | a run from the empty registry after which a token has no user |
| `Runs.RunNameable` | v2/lens3/utility.go:269-306 | in every run all registered pools, buckets and access keys pass the naming rules |
| `Outcomes.MakeBucketOutcome` | v2/lens3/registrar.go:726-807 | from every sound registry, success if and only if the owner asked well, the name was free, the probe key is there and the probe was good; then the bucket is registered with the asked policy and term; a taken name is a 409, a bad probe its own status; it is fatal if and only if the probe key is gone; all else stays but for what the access does to the pool |
| `Outcomes.ReaderOutcome` | v2/lens3/registrar.go:484-594 | user-info gives a new token to exactly those let in, list-pool answers exactly the owner, and neither changes anything else but the requester's record |
| `Outcomes.StartOutcome` | v2/lens3/manager.go:628-682 | an access stamps the pool, shows READY exactly for a start and SUSPENDED with its reason for a suspension, and marks a pool once, with the first reason |
| `Outcomes.UserSwitch` | v2/lens3/admintool.go:626-644 | stop-user and time-expiration set exactly the one field of the named user; 404 for an unknown one |
| `Outcomes.PoolSwitch` | v2/lens3/admintool.go:716-735 | the same for a pool |
| `Outcomes.MemberOutcome` | v2/lens3/admintool.go:738-783 | kill-bucket and kill-pool remove exactly what is named; time-expiration sets the one field of a bucket or an access key |
| `Isolation.RequestIsIsolated` | v2/lens3/registrar.go:944-1136 | from every sound registry, a request, whatever it holds and however it ends, leaves every entry of every pool of another user as it was |
| `Isolation.RunIsIsolated` | v2/lens3/registrar.go:944-1136 | from every sound registry, no run of requests by others, panics included, touches anything of a user's pool |
| `Isolation.MakePoolOutcome` | v2/lens3/registrar.go:599-686 | from every sound registry, success if and only if the requester is let in with a good path, a name and a key are unused and the directory is free; then the new pool, name, directory and probe secret are there with all their fields, and removing the pool gives back the registry as it was; a taken directory is a 409; a refusal changes nothing but the requester's record |
| `Isolation.DeleteOutcome` | v2/lens3/registrar.go:688-909 | from every sound registry, success removes exactly the named entry, which belonged to a pool of the requester; any other end changes nothing but the requester's record |
| `Isolation.OwnerCanDelete` | v2/lens3/registrar.go:688-909 | in a sound registry with valid names, as all reachable ones are, a delete succeeds if and only if the requester is let in as the owner and names an entry of the pool; to an owner an entry of another pool is a 403 and an absent one a 404 |
| `Isolation.CleaningLeavesOthers` | v2/lens3/poolprop.go:32-93 | removing an inconsistent pool leaves everything of every other pool as it was if and only if the directory entry it names, and the entries under the access keys in its secrets, are no other pool's |
| `Isolation.CleaningCanHitAnother` | v2/lens3/registrar.go:1785-1832 | two pools naming one directory, of which cleaning the first takes the entry of the second |
| `Outcomes.MakeSecretOutcome` | v2/lens3/registrar.go:844-874 | from every sound registry, success if and only if the owner asked for a policy that is not the internal one and a generated key is unused; it adds one record of the asked policy, secret and expiration under the first such key |
| `Tables.PoolUsable` | v2/lens3/multiplexer.go:1007-1040 | only READY, DISABLED or INOPERABLE comes out, and READY exactly for an operable, enabled, unexpired pool of an active owner |
| `Tables.CombinedShows` | v2/lens3/multiplexer.go:1007-1087 | what is shown: INOPERABLE if and only if the pool is marked, with the mark's reason; else DISABLED if and only if the owner is inactive or the pool offline or expired; else SUSPENDED with the recorded reason if and only if that is recorded; else READY |
| `Tables.ReportedStateIsDefined` | v2/lens3/multiplexer.go:1045-1087 | in a sound registry the suspension check and the combination of states never panic and give what is to be shown |
| `Tables.DeregisteredIsWithout` | v2/lens3/registrar.go:1785-1832 | in a sound registry, removing what was gathered about a pool removes exactly the pool |
| `Tables.Table.ListBuckets` | v2/lens3/table.go:1071-1087 | exactly the buckets of the pool (or all), once each; fails exactly if a key differs from its record |
| `Tables.Table.ListSecrets` | v2/lens3/table.go:1284-1302 | exactly the secrets of the pool |
| `Tables.Table.FindDirectory` | v2/lens3/table.go:880-891 | a directory of the pool, or none exists |
| `Tables.Table.ListPoolsOfUser` | v2/lens3/registrar.go:1745-1755 | exactly the pools owned by the user, once each |
| `Tables.Table.GatherPoolProp` | v2/lens3/poolprop.go:32-93 | gathers exactly the pool's own members and the state to be shown; in a sound registry it finds them and changes nothing; in any state it panics if and only if a key, the owner or the shown state is wrong, cleans when the directory named is not an entry of the pool and never when it is its only one, and then removes exactly what its description lists |
| `Tables.Table.DeregisterByProp` | v2/lens3/registrar.go:1785-1832 | the loops remove exactly the described entries |
| `Tables.Table.DeregisterPool` | v2/lens3/registrar.go:1775-1783 | in a sound registry, the registry without that pool; 404 and no change for an unknown one |
| `Tables.Table.ClearUserClaim` | v2/lens3/table.go:802-821 | the claims of the user go, and no others |
| `Tables.Table.DeleteUser` | v2/lens3/table.go:758-769 | the user goes, and all claim entries that name it if its own record holds a claim; else the claims stay |
| `Tables.Table.DeregisterUser` | v2/lens3/registrar.go:1759-1768 | in a sound registry, the loop over pools, claims and the user leaves the registry without the user, all else unchanged |
| `Tables.Table.SetUniqueName` | v2/lens3/table.go:1182-1229 | within thirty rounds at most one name is added and no entry changed |
| `Tables.Table.SetUniqueSecret` | v2/lens3/table.go:1191-1229 | the same for access keys, and the stored record carries the key it is stored under, also after collisions |
| `Tables.Table.CreatePool` | v2/lens3/registrar.go:613-678 | entry by entry with rollback, equal to the whole effect: a taken directory leaves no trace |
| `Tables.Table.CreateBucket` | v2/lens3/registrar.go:749-803 | claim, probe and rollback, equal to the whole effect; a refusal carries the status that the probe got |
| `Creation.RunKeepsInv` | v2/lens3/registrar.go:599-807 | over whole runs of any number of handlers, from any such start and at every database call of theirs, each table holds exactly what the handlers have and what was there before |
| `Creation.VisiblePoolIsComplete` | v2/lens3/registrar.go:613-678 | a pool that can be seen already has its name, directory and probe secret |
| `Creation.CreationIsSafe` | v2/lens3/registrar.go:613-803 | in every state of every run: visible pools are complete, no two share a directory, every bucket has its pool, no probe panics |
| `Creation.PanicsOnLostKeyOnly` | v2/lens3/registrar.go:1881-1896 | from any start with a name for every pool, no make-pool panics, and a make-bucket only on a pool whose probe key was gone before |
| `Creation.OutcomeOfHandlers` | v2/lens3/registrar.go:613-803 | from any such start, a handler that loses or rolls back leaves nothing of its own; one that runs out of keys leaves exactly a name and a directory; one that succeeds, or panics in the probe, has its entry |
| `Creation.BucketNeverChangesHands` | v2/lens3/table.go:1037-1052 | in every run from any such start, a step leaves a bucket entry as it is, or is the rollback of the handler that made it |
| `Creation.QuiescentIsConsistent` | v2/lens3/registrar.go:599-686 | once no make-pool is half-way, names, directories and keys belong to pools again |
| `CreationEnds.AnswersDecide` | v2/lens3/registrar.go:613-803 | in every run the answers that a handler got from the database decide its end: out of names or keys if and only if thirty were in use, lost if and only if the directory was taken; a bucket is made if and only if the probe was good, refused if and only if the pool was absent, the name taken or the probe bad |
| `CreationEnds.NeverStuck` | v2/lens3/registrar.go:613-803 | in every state a handler has exactly one next call, whatever id or result comes, if and only if it is not at its end |
| `CreationEnds.FewCalls` | v2/lens3/table.go:1202-1229 | in every run a handler makes at most 64 database calls |
| `ProtocolSafety.RunKeepsInv` | v2/lens3/manager.go:256-414 | every run keeps it |
| `ProtocolSafety.MutexSafety` | v2/lens3/table.go:935-959 | wins minus effective removals is 0 or 1 and 1 exactly while the key is set; of two threads inside one has lost the key; a set key has a thread inside; a key expires only after its full life |
| `ProtocolSafety.NoPanicReachable` | v2/lens3/multiplexer.go:709-755 | in every reachable state records are READY with endpoint and credentials or SUSPENDED dummies, shown states are in range, no thread has panicked, and served requests got a READY backend of their pool |
| `Serving.LookTakes` | v2/lens3/multiplexer.go:709-729 | a request stamps the pool, takes the record it finds, goes for the mutex when there is none, and while it waits takes what comes or gives up at its timeout |
| `Serving.AnswerIs` | v2/lens3/multiplexer.go:731-755 | in every reachable state an answer is served if and only if it is a READY record, with that record, and else refused |
| `Serving.FoundIsServed` | v2/lens3/multiplexer.go:709-755 | in every run a request that found a READY record is served with it, whatever others do meanwhile |
| `Serving.RefusedIffCaused` | v2/lens3/multiplexer.go:709-755 | in every run an answered request is refused if and only if it met a SUSPENDED record, its timeout, a pool that is gone, no port left, a failed start or a shutdown |
| `Serving.ThreadGoesOn` | v2/lens3/manager.go:256-414 | in every state a thread has a next call if and only if it is not over |
| `Serving.StartEnds` | v2/lens3/manager.go:300-414 | a start that nobody interrupts leaves the record, the shown state, the mark and the answer of the outcome that decides among the ports, with the mutex free |
| `Serving.BeatFollows` | v2/lens3/manager.go:721-758 | the pinger threads of the protocol count misses and leave as the heartbeat loop does |
| `Serving.RenewalIs` | v2/lens3/manager.go:758-770 | a renewal gives the record its life from now, and finds out that it is gone |
| `Serving.StopRemoves` | v2/lens3/manager.go:779-790 | a pinger that stops removes the mutex and the record of its pool, whose ever they are |
| `ProtocolSafety.ListedBlocksAreClear` | v2/lens3/manager.go:895-945 | in every run, listed port blocks do not touch the blocks of the backends found under this Mux |
| `Robbery.AtMostOneInside` | v2/lens3/manager.go:256-303 | in a run where no key is taken from a thread inside, at most one thread per pool is inside |
| `RecordLife.StepKeepsLiving` | v2/lens3/manager.go:628-659 | from any state of any run, a step keeps records owned by threads of their pool, and every pinged one with the full life since its last renewal, if and only if it is not one that shortens a life |
| `RecordLife.PingedRecordLasts` | v2/lens3/manager.go:700-772 | in every run without such a step, the record of a backend that is still pinged expires only when its pinger has not renewed it for three heartbeat intervals |
| `RecordLife.PeacefulRecordLasts` | v2/lens3/manager.go:700-772 | so in every run where no key is taken from a thread inside |
| `SecondBackend.RobberyShortensRecord` | v2/lens3/manager.go:628-659 | after a robbery it can expire earlier: a run in which a robbed thread cuts the life of another's record to its suspension time |
| `SecondBackend.RobbedThreadShortens` | v2/lens3/manager.go:628-659 | from every state in which a thread about to limit its dummy finds another's record there |
| `SingleBackend.OneBackendPerPool` | v2/lens3/manager.go:256-303 | a pool never has two backends up in a run where no key is taken from a thread inside, no mutex is won while a record is there, and every pinger renews or withdraws its record within three heartbeat intervals |
| `SecondBackend.UncarefulWinMakesTwo` | v2/lens3/manager.go:262-280 | from every state where a backend is up and a thread can win the mutex, with a port free for the backends in use under its Mux, two backends can be up, with nobody robbed if the mutex has a life |
| `SecondBackend.UnprotectedMakesTwo` | v2/lens3/multiplexer.go:709-729 | so also from every state where a backend is up without a record and a mutex |
| `SecondBackend.RobberyMakesTwo` | v2/lens3/manager.go:779-790 | taking the key from a thread that has started a backend and not published it leads there |
| `SecondBackend.LateRenewalMakesTwo` | v2/lens3/manager.go:700-772 | and so does a pinger that lets the life of its record pass |
| `SecondBackend.NoLifeMakesTwo` | v2/lens3/manager.go:273-274 | and every configuration with a start timeout under half a second |
| `SecondBackend.MutexIsNotEnough` | v2/lens3/multiplexer.go:709-729 | a run without any expiry that ends with two backends of one pool |
| `Ports.FreePortsAre` | v2/lens3/manager.go:917-924 | the list is ascending and has exactly the multiples of the width whose block fits and whose base is unused |
| `Ports.UsedPorts` | v2/lens3/manager.go:898-914 | exactly the base ports of the READY records of this Mux; fails exactly on a record without endpoint |
| `Ports.ListAvailablePorts` | v2/lens3/manager.go:895-929 | exactly the free bases, each once, in any order |
| `Ports.BlocksAreDisjoint` | v2/lens3/manager.go:917-924 | listed blocks lie in the range and are pairwise disjoint |
| `Ports.OverlapsUsed` | v2/lens3/manager.go:917-924 | a listed block meets a used one if and only if the used base is misaligned and a neighbour of it is free |
| `Ports.MisalignedPortIsHit` | v2/lens3/manager.go:917-924 | a concrete overlap with a backend on an odd port |
| `Startup.WaitForComeUp` | v2/lens3/manager.go:505-605 | never ongoing; at most 500 lines of a stream and 999 in all; the kept lines are those consumed; the result is the first decision, stdout before stderr, or else the timer, closure or flood that ended it |
| `Startup.WaitForBaby` | v2/lens3/backend-s3baby.go:124-218 | the first error line decides, a port in use for another try and any other for a failure with its text; without an error the backend is started if and only if a line says so; else the timer, a closed pipe or a flood ended the waiting |
| `Startup.LastCounts` | v2/lens3/backend-s3baby.go:165-185 | the attributes of a log line are those given, and of one given several times the last counts |
| `Startup.Manager.StartInMutexed` | v2/lens3/manager.go:300-414 | the mutex is released on every path; ports are tried once, in order, up to the first outcome that is not a retry, which decides what is published; no port left is a busy server |
| `Startup.DecisionIsStarted` | v2/lens3/manager.go:328-413 | without hard failures a backend starts if and only if some port would start it, in any order of ports |
| `Backoff.PollsAreFew` | v2/lens3/manager.go:610-624 | at most 8 + T/1000 polls and less than T + 1000 of sleep fit in a timeout T |
| `Backoff.WaitByRace` | v2/lens3/manager.go:610-624 | these bounds for every clock; the first record found is returned; it gives up only when no poll found one and the time is over |
| `Backoff.MutexLife` | v2/lens3/manager.go:273-274 | the truncated life is at least T if and only if T is zero or at least 500, and zero exactly below 500 |
| `Backoff.ExpiryComesLate` | v2/lens3/table.go:945-949 | in every run with T at least 500, a mutex expires only when its holder has been inside for T |
| `Pinger.TrailingIs` | v2/lens3/manager.go:721-748 | the counter is the length of the run of failed heartbeats at the end |
| `Pinger.Beat.Ping` | v2/lens3/manager.go:700-772 | leaves in the first round that gives a reason: for misses if and only if more than tolerated came in a row, else for idleness if and only if the awake time has passed since the last access, else for a lost record if and only if it was removed or its life had passed; keeps the backend if and only if no round gives one |
| `Pinger.HealthyIsKept` | v2/lens3/manager.go:721-768 | a backend with a good heartbeat within the tolerance, in use and in time, is kept |
| `Pinger.DeadIsDropped` | v2/lens3/manager.go:721-750 | more failures in a row than tolerated are too many misses, whatever the rest |
| `Reconcile.AbsentAre` | v2/lens3/manager.go:1006-1013 | a bucket is tried if and only if it is needed, absent and unexpired |
| `Reconcile.MakeAbsentBuckets` | v2/lens3/manager.go:990-1025 | every needed, unexpired, absent bucket is tried despite failures, none is removed, the first error is returned, and without one all needed buckets are there |
| `Reconcile.SecondRunIsIdle` | v2/lens3/manager.go:990-1025 | after a run without error, a later run makes nothing |
| `Reconcile.SuccessMeansPresent` | v2/lens3/registrar.go:749-806 | make-bucket answers success only with the bucket registered to the pool and present in the pool's running backend, for every probe under the pool's probe key and also with a failed listing |
| `Access.PickPanics` | v2/lens3/multiplexer.go:979-1002 | picking a bucket panics if and only if the path has no slash |
| `Access.CheckBucketIs` | v2/lens3/multiplexer.go:801-824 | for an absolute path, the bucket found is the registered one the path names |
| `Access.ServeOnBucket` | v2/lens3/multiplexer.go:432-489 | in every state, on a found bucket and with a right key record the chain forwards if and only if the request is granted, under the request's own key |
| `Access.ServeIsGranted` | v2/lens3/multiplexer.go:349-430 | for all states, sound or not, and all requests for an absolute path: the chain panics if and only if a trusted request names a key whose record carries another one, else forwards if and only if one declarative predicate holds, to the READY backend of the bucket's own pool and never with an internal key; in a sound registry no pool is missing |
| `Access.ProbeIsGranted` | v2/lens3/multiplexer.go:518-570 | a request is answered as a probe done if and only if it is trusted, signed under an unexpired internal key, not relayed from outside, names no bucket or a registered one, the pool is usable with a READY backend and its buckets are made |
| `Access.RefusalIsTruthful` | v2/lens3/multiplexer.go:349-1002 | each of the eighteen refusals is true of the request and the state |
| `Access.StatusIsTruthful` | v2/lens3/multiplexer.go:349-1002 | what each status code says of the request and the state, over all refusals that carry it |
| `Access.ServeIsExpected` | v2/test/access-permission/test_permission.py:56-176 | the table of expected responses: forwarded or a 403, by bucket policy without a key, by key policy with one |
| `UserDump.DumpUser` | v2/lens3/admintool.go:117-167 | the rows are those of some listing of all users, each once |
| `UserDump.LoadUserRow` | v2/lens3/admintool.go:200-274 | in a sound registry, a row applied to the tables is the effect used in runs, and keeps it sound |
| `UserDump.LoadUser` | v2/lens3/admintool.go:200-275 | the loop is the fold of the rows, up to a panic or exception |
| `UserDump.KindsInOrder` | v2/lens3/admintool.go:188-199 | sorted rows come as additions and changes, deletions, rows that enable, rows that disable, with unknown ones before all |
| `UserDump.UnknownStopsAll` | v2/lens3/admintool.go:188-275 | so one row of an unknown kind stops a load before anything is changed |
| `UserDump.RunLoadable` | v2/lens3/table.go:715-741 | in every run, users that are not ephemeral have valid names and claims and a group |
| `UserDump.DumpThenLoad` | v2/lens3/admintool.go:117-275 | from any state in which users and claims agree and users that are not ephemeral are valid, dump then load into an empty registry restores uid, claim, groups and enabled flag of exactly those users, for every result of the sort |
| `UserDump.ReachableDumpThenLoad` | v2/lens3/admintool.go:117-275 | the same from every state that any operations can reach, panics included |
| `DbDump.FillDb` | v2/lens3/admintool.go:391-420 | the toggle and buffer are the fold over pairs of lines |
| `DbDump.FillPrinted` | v2/lens3/admintool.go:454-466 | for entries without a newline: reading printed entries sets each as it is reread, or panics at one that cannot be stored |
| `DbDump.RoundTrip` | v2/lens3/admintool.go:391-466 | the three databases are restored from their entry lines if and only if every entry is printable |
| `DbDump.DumpIsNotReadable` | v2/lens3/admintool.go:445-466 | the output of dump-db is always refused by fill-db, with nothing set |
| `StringsReader.Reader.Read` | v2/lens3/utility.go:147-166 | the bytes read are the next ones and the rest stays; the end is reported exactly when nothing is left; a non-empty buffer makes progress |
| `StringsReader.Reader.ReadMany` | v2/lens3/utility.go:147-166 | reads with any buffers deliver a prefix of the joined strings, and all of it after enough reads |

## Left out

- The v1 code, the web pages, configuration files, logging, MQTT and the CSV and JSON encodings: no properties beyond field handling.
- HTTP, request signing, host and account lookup, sudo and processes: arbitrary results. A database call that fails is not modelled.
- MinIO and rclone: Baby-server stands for the backend types in `Startup.dfy`; parsing a log line and recognising a port in use are arbitrary functions there.
- SCAN is taken to list each key once, and in the protocol exactly the keys of the moment; a backend record removed between SCAN and GET is skipped.
- Integrity under concurrent deletes, and under kill-db-entry, fill-db and wipe-out-db: the code promises none.
- The Mux endpoint records and the unused user timestamps; a csrf token goes away at any time (`ExpireToken`).
- The mapping from a claim to a uid at login, group lists, and the terms-and-conditions flag, which a dump does not hold.
- Quit notices: `abort_backend` and the select in `ping_backend`, whose break does not leave the loop; stopping the process after its record is withdrawn.
- A process that dies in the middle of a start: a thread of the model may stall for ever, but its pinger is spawned with the published record.
- Lines longer than the buffer of bufio.Scanner in fill-db, where reading stops.
- Handlers.LoadRowSound: ten years are a fixed number of seconds, and all rows of a load-user share one clock reading.
- Access.ServeIsGranted: one request sees one state of the database and one clock reading, and the records of backends are as the start protocol leaves them.
- ProtocolSafety.MutexSafety: one suspension time for all reasons; `Startup.Manager.SuspendPool` has the two times of the code.
- Startup.Manager.StartInMutexed: the outcome of each port is given, a failure to execute the command among them; the pauses and the making of absent buckets, whose errors are ignored, are not part of it.
- Startup.WaitForComeUp: the timer fires at some point of every sequence of events.
- Tables.Table.GatherPoolProp: a pool is never registered under an empty name.
