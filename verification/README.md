# A verified model of the RedisSentinel controller

The controller keeps a redis replication group and its sentinels in shape. For each RedisSentinel
object it validates the specification, remembers what it accepted (`MetaMap`), creates the
Kubernetes objects (`Ensure`), and then looks at the live cluster and repairs it (`CheckAndHeal`).
This project models those four parts and proves what they promise over whole runs.

`dafny verify dfyconfig.toml` checks everything.

## How the heal protocol is modelled

- `Cluster`: the world. Pods have an address, a role (`Master` or `SlaveOf(host)`), settings and a
  creation time; sentinels have the address they monitor, their settings and what gossip taught
  them. Every remote command is one atomic step at its target (`Serves`). The environment crashes,
  restarts, adds and removes any number of pods at once, changes sentinels and counters freely and
  lets time pass (`EnvStep`); a pod that starts runs the default command and replicates from its own
  host. Only sentinel fail-over is excluded: the environment promotes nobody.
- `HealMachine`: one pass as a program counter with the pass's local snapshot. `NextCommand` says
  which command a point sends, `Advance` where a reply leads. A command may be delivered, lost on
  the way out, or carried out with its reply lost (`Fate`). A run interleaves these steps with the
  environment and chains any number of passes of one object, each for its own specification.
- `Network` and `Healer`: the same pass as imperative code, method by method and loop by loop, over a
  cluster that moves before every call. Each call must be the machine's next command, and a ghost
  history shows that an execution is a run of the machine, so all theorems about runs hold of it.
- `HealSafety`, `HealTrace`, `HealPromotion`, `HealAccounting`, `HealEnds`, `HealClean`,
  `HealStable`, `HealSettings`, `HealSentinels`, `HealProgress`, `HealTermination`, `HealOptions`,
  `HealScript`, `HealWitness`: the theorems. `HealScript` says of every run, losses included, what the
  log of a pass that ends well is: which question was asked, what follows which answer, which
  command with which values, and which of them had to succeed.

A *clean* stretch is one in which nothing is lost and nothing moves but gossip and the clock. A pass
ends as `Healthy` or `Skipped` (both a nil error to the caller), `Requeue` or `Broken`. `Skipped` is
the nil return for a wrong number of sentinels; nothing is healed then, and "ends well" below always
means `Healthy`. `Healed` is: one address hosts the master, every other running pod replicates from
it, every running pod shows every readable specified setting, every running sentinel monitors it.

`EnsureStore`/`EnsureObjects`/`EnsureApart`/`EnsureClient`, `MetaCache`, `Conditions`, `Validation`, `NodeConfig`, `MemConf`,
`SentinelMemory`, `Quorum` and `Labels` follow the source files they cite; `RedisSpec` is the
specification they share, `Sorting` and `Basics` are tools.

## Where the code differs from what it seems to say

- A sentinel that monitors the right address is never asked for the settings behind it. When MONITOR
  succeeded and a later SET failed, they stay missing: `HealWitness.MissingOptionsStay` is a run of a
  clean pass that reports success and leaves them missing. After a clean pass over an unchanged
  object that ends well they are there exactly when the sentinel did not monitor the master before,
  or had them before: `HealSentinels.OptionsPresentIff`.
- The last loop resets sentinels without waiting for them, so a good end does not mean that every
  sentinel has confirmed its replicas: `HealWitness.UnconfirmedAtTheEnd` is a run of a clean pass that
  reports success while a listed sentinel has not. A sentinel has exactly when it told the right
  number of peers in that loop: `HealAccounting.EverySentinelConfirmed`.
- `shouldUpdateRedis` compares replicas and four quantities only. A StatefulSet that differs in
  anything else is left as it is; `EnsureStore.ImageEditIsIgnored` shows it for the image. A
  StatefulSet ends as generated exactly when it was missing, disagreed in what is compared, or was as
  generated already: `EnsureStore.EnsureReconciles`.
- Names made from an object's name can be those made from another's: the sentinel service of
  `headless-x` has the name of the headless service of `x`. `EnsureApart.ApartIffDisjoint` says
  exactly when two objects of a namespace ask for nothing in common.
- `Meta.Config` is never refreshed and stays that of the first specification: `MetaCache.LifeKeeps`.
- The comparison of images in the cache is the wrong way round, and is modelled as it is written.
  `MetaCache.UpgradeIsToldBackwards` says exactly when an upgrade is told as one.
- Scaling down is recorded under the condition type `Scaling`.
- A refused object is not always unchanged: `Validation.RedisSentinel.Validate` leaves it unchanged
  exactly when the name was refused or a size was given; otherwise the default size has been filled in.
- The fixed disruption budget of two keeps a quorum for three sentinels only:
  `Quorum.BudgetKeepsQuorumOnlyForThree`.

## Model

| member | source | states |
|---|---|---|
| Healer.SentinelHandler.CheckAndHeal | controllers/redissentinel_handler.go:169-272 | Every execution, whatever moves, fails or is lost during it, is a run of the machine; the error is nil exactly for a good end or a skipped pass and asks for another pass exactly for Requeue; started with at most one master there is at most one at every moment; a clean pass that ends well has healed the cluster |
| Healer.SentinelHandler.Pass | controllers/redissentinel_handler.go:169-272 | From the number checks to the end, the sequence of checks and repairs is the machine's, for every reply |
| Healer.SentinelHandler.HealAround | controllers/redissentinel_handler.go:216-271 | Around a settled master: replicas, settings and the three sentinel loops run in this order, each failure ends the pass, and the pass is never reported as skipped |
| Healer.SentinelHandler.PromoteSomeone | controllers/redissentinel_handler.go:190-208 | With no master, the single running pod or the oldest is promoted, and only success leads on to the search for the master |
| Healer.SentinelHandler.Call | pkg/client/redis/client.go:219-237 | A remote call sends the machine's next command and nothing else; before it the environment may take any step, and the call or its reply may be lost |
| Healer.SentinelHandler.GetNumberMasters | controllers/redissentinel/service/check.go:217-233 | The count returned is the one the machine's scan arrives at: zero leads to a promotion, one to the search, more to an error |
| Healer.SentinelHandler.GetMasterIP | controllers/redissentinel/service/check.go:194-214 | Returns an address only when the scan found exactly one master |
| Healer.SentinelHandler.GetRedisesIPs | controllers/redissentinel/service/check.go:236-248 | The loop collects the addresses of the running pods of the listing, in order |
| Healer.SentinelHandler.GetSentinelsIPs | controllers/redissentinel/service/check.go:251-263 | The loop collects the addresses of the running sentinels of the listing, in order |
| Healer.SentinelHandler.CheckAllSlavesFromMaster | controllers/redissentinel/service/check.go:142-157 | A failed question or a replica of another host leads to re-pointing, all agreeing leads on |
| Healer.SentinelHandler.SetOldestAsMaster | controllers/redissentinel/service/heal.go:52-82 | Sorting by age, the first pod is promoted and the others are pointed to it, stopping at the first failure |
| Healer.SentinelHandler.SetMasterOnAll | controllers/redissentinel/service/heal.go:85-104 | The master's own pod is promoted again, every other one is pointed to it, stopping at the first failure |
| Healer.SentinelHandler.ConfigureNode | controllers/redissentinel_handler.go:279-287 | Settings are written exactly after a difference or a failed read, every key once, in any order |
| Healer.SentinelHandler.SetCustomRedisConfig | pkg/client/redis/client.go:270-285 | Sends the settings in the order of the map iteration up to the first refusal |
| Healer.SentinelHandler.SetRedisConfig | controllers/redissentinel_handler.go:274-289 | Every running pod is compared and, if need be, written, before the sentinels are looked at |
| Healer.SentinelHandler.CheckSentinelMonitor | controllers/redissentinel/service/check.go:182-191 | A failed question or another address leads to a new monitor |
| Healer.SentinelHandler.NewSentinelMonitor | pkg/client/redis/client.go:179-217 | REMOVE may fail, MONITOR with the quorum and each setting behind it may not |
| Healer.SentinelHandler.CheckSentinelSlavesNumberInMemory | controllers/redissentinel/service/check.go:171-179 | True only for a ready sentinel that reports size - 1 eligible replicas |
| Healer.SentinelHandler.WaitRestoreSentinelSlavesOK | controllers/redissentinel_handler.go:305-321 | Checks, sleeps and checks again; terminates, with success or with the time-out |
| Healer.SentinelHandler.CheckSentinelNumberInMemory | controllers/redissentinel/service/check.go:160-168 | True only for a ready sentinel that knows the specified number of sentinels |
| Healer.SentinelHandler.MakeSentinelsWatch | controllers/redissentinel_handler.go:231-238 | The first sentinel loop, in the machine's order |
| Healer.SentinelHandler.MakeSentinelsCount | controllers/redissentinel_handler.go:239-251 | The second sentinel loop: a sentinel that miscounts is reset and waited for |
| Healer.SentinelHandler.ResetForgetfulSentinels | controllers/redissentinel_handler.go:252-260 | The third sentinel loop: a sentinel that miscounts its peers is reset and not waited for |
| Healer.SentinelHandler.SetSentinelConfig | controllers/redissentinel_handler.go:292-303 | Nothing while the object is unchanged; otherwise every sentinel in turn, stopping at the first failure |
| Healer.SentinelHandler.SetCustomSentinelConfig | pkg/client/redis/client.go:253-268 | Every custom setting at one sentinel, stopping at the first malformed or refused one |
| Healer.SentinelHandler.CheckRedisNumber | controllers/redissentinel/service/check.go:87-99 | Anything but the specified number of replicas, all ready, asks for another pass |
| Healer.SentinelHandler.CheckSentinelNumber | controllers/redissentinel/service/check.go:102-111 | Another number of sentinels than specified ends the pass without an error |
| Healer.SentinelHandler.EnsureSentinelReady | controllers/redissentinel/service/check.go:117-127 | The last check: all sentinels ready, or another pass is asked for |
| HealMachine.GetConfigParameters | pkg/client/redis/client.go:313-319 | The parameter is everything before the first space and the value everything after it; malformed exactly without a space |
| HealMachine.AlwaysANextPoint | controllers/redissentinel_handler.go:169-272 | Whatever a command is answered, the pass has a next point with a command, or is over |
| HealSafety.NoSplitBrain | controllers/redissentinel_handler.go:180-221 | Started with at most one master, no run ever has two, over all interleavings with crashes, restarts, scaling, lost commands and lost replies |
| HealSafety.MastersNeverMultiply | controllers/redissentinel/service/heal.go:52-104 | From any number of masters: once there is at most one, there never is a second again |
| HealSafety.ActsOnlyOnOneMaster | controllers/redissentinel_handler.go:184-238 | Whenever a role or a monitor is about to be changed, at most one master is alive, although the scan looked at one pod at a time |
| HealSafety.MasterIsKept | controllers/redissentinel_handler.go:210-226 | A master that is there when a pass begins stays master as long as its process lives, through this pass and all later ones |
| HealSafety.InvHolds | controllers/redissentinel/service/check.go:194-233 | What a pass has learnt of the masters stays true: no master after a count of zero, only the promoted one during a promotion, only the located one afterwards |
| HealTrace.TraceDiscipline | controllers/redissentinel_handler.go:175-238 | Every change of a role or monitor follows a full scan that counted at most one master; after a count of two or more the pass is over, in an error, with nothing changed; after a count of one every promotion goes to the address a full scan located; a skipped pass has changed nothing |
| HealTrace.SettledPassNamesTheLocated | controllers/redissentinel_handler.go:212-238 | In every run every MONITOR of a pass, and from the scan that settled it on every promotion and every SLAVEOF, names one address that a full scan before the command had found to be the only master |
| HealScript.GoodPassFollowsScript | controllers/redissentinel_handler.go:212-271 | In every run the log of a pass that ends well, from the scan that settled it, is this and nothing else: every listed pod answered that it has no other master, or every listed pod was told its role with success; every node matched or was written key by key with success; every sentinel named the master or got REMOVE, MONITOR and its settings; every one told of size - 1 replicas, or was reset with success and did so in time; every one told the right number of peers or was reset with success; the custom settings were set with success; all sentinels were ready |
| HealPromotion.PromotionIsComplete | controllers/redissentinel_handler.go:190-208 | In every run, a pass that counted no master and goes on has promoted the single running pod of a listing or, after a listing with any other number of running pods and a look at their ages, carried out the whole promotion of the oldest |
| HealPromotion.OldestIsPromoted | controllers/redissentinel/service/heal.go:52-82 | Such a promotion sent one promotion, to a pod of minimal creation time, and pointed every other listed pod to it exactly once |
| HealAccounting.EverySentinelConfirmed | controllers/redissentinel_handler.go:239-260 | When a pass ends well, every listed sentinel had reported size - 1 replicas by the start of the last loops, since it last had to forget, and was then asked for its peers; the report still stands at the end exactly when it answered ready and with the specified number |
| HealWitness.UnconfirmedAtTheEnd | controllers/redissentinel_handler.go:252-260 | A concrete run from rest: a clean pass that reports success and a listed sentinel whose report does not stand, because it told of a peer too many and was reset for it |
| HealAccounting.WaitIsBounded | controllers/redissentinel_handler.go:18-21 | A restored sentinel is checked at most seven times before the pass goes on or gives up |
| HealAccounting.GivenUpAfterThirtySeconds | controllers/redissentinel_handler.go:305-321 | A pass that gives up waiting for a sentinel does so only after more than thirty seconds since the timer was armed behind its reset |
| HealClean.CleanPassHeals | controllers/redissentinel_handler.go:169-272 | A clean pass that ends well leaves the cluster healed, whatever roles, settings and monitors it began with |
| HealClean.CheckingAchieves | controllers/redissentinel/service/check.go:142-157 | With one master at m, a pod that passes the check is the master or replicates from m |
| HealClean.RepointingAchieves | controllers/redissentinel/service/heal.go:85-104 | After its command is done every pod at that address is as it should be and no earlier one is undone |
| HealClean.WritingAchieves | controllers/redissentinel/service/heal.go:129-143 | Each key written is shown from then on, no earlier key or pod is undone, and after the last key the node matches the specification |
| HealClean.WatchTaskAchieves | controllers/redissentinel_handler.go:231-238 | Each turn of the first sentinel loop leaves one more sentinel monitoring the master |
| HealStable.CleanPassKeepsTheMaster | controllers/redissentinel_handler.go:169-272 | After a clean pass that ends well there is exactly one master, and it is every master there was when the pass began |
| HealStable.Stabilises | controllers/redissentinel_handler.go:212-238 | After any history of passes cut off anywhere, between REMOVE and MONITOR too, one clean pass that ends well heals and keeps the master |
| HealStable.HealedRests | controllers/redissentinel_handler.go:216-238 | In a healed world a clean pass promotes nobody, re-points nobody, moves no monitor and writes no setting; the pods stay exactly as they are |
| HealStable.SecondPassRests | controllers/redissentinel_handler.go:274-289 | A clean pass right after one that ended well, with the same settings specified, changes nothing |
| HealSettings.NodeSettingsExactly | controllers/redissentinel_handler.go:274-289 | A clean pass that ends well leaves a node that matched the specification as it was, and any other with its old settings overridden by the normal form of the specification, whatever the order of the keys was |
| HealProgress.ObligingPassEndsWell | controllers/redissentinel_handler.go:169-272 | With the specified pods and sentinels ready, well-formed custom settings, at most one master, no setting refused and every asked sentinel ready and aware of its replicas, a clean pass has no end but success, whatever it begins with and whatever the sentinels know of each other, and has healed then |
| HealTermination.ObligingStepsNearer | controllers/redissentinel_handler.go:169-272 | Every command of such a pass brings it nearer to its end, in a well-founded order |
| HealTermination.GoodPassExists | controllers/redissentinel_handler.go:169-272 | From every such beginning with a readable configuration and a size of at least one there is a clean pass that ends well, whatever number of peers the sentinels tell in it |
| HealOptions.InstalledMonitorsAreSet | pkg/client/redis/client.go:186-214 | In every run a pass that ends well has followed each MONITOR it sent with success, at once and with success, by auth-pass with the password exactly when there is one, then down-after-milliseconds 5000, failover-timeout 3000 and parallel-syncs 2 |
| HealSentinels.OptionsPresentIff | controllers/redissentinel/service/check.go:182-191 | After a clean pass over an unchanged object that ends well, the password and the three timings are all set exactly at the sentinels that did not monitor the master before or had them before; each sentinel's settings are given exactly |
| HealSentinels.SentinelSettingsExactly | controllers/redissentinel_handler.go:231-265 | A clean pass that ends well leaves a sentinel that monitored the master its settings and gives any other exactly those of a fresh monitor; over a changed object the custom settings are then written over either |
| HealWitness.MissingOptionsStay | pkg/client/redis/client.go:183-214 | A concrete run from rest: a clean pass that reports success and leaves a running sentinel without the settings behind MONITOR |
| HealWitness.HealedWithoutOptions | pkg/client/redis/client.go:183-191 | A concrete healed world, with all pods and sentinels ready, whose sentinel has none of the settings |
| HealOptions.MonitorsAreProper | pkg/client/redis/client.go:183-191 | However far a pass has come, every MONITOR it sent came right after a REMOVE at the same sentinel, with the quorum of the specification, and named the one address that a full scan before it had found to be the only master |
| HealEnds.NilMeans | controllers/redissentinel_handler.go:170-178 | A good end has seen all redis pods ready, the right number of sentinels, and at the very end all of them ready; a skipped pass stopped at its second question, because of the answer |
| HealEnds.OutcomeFollowsAnswers | controllers/redissentinel/service/check.go:87-127 | In every run the outcome is a function of the answers: another pass for replicas not all there or, at the very end, sentinels not all ready; skipped for a wrong number of sentinels; a good end exactly when all are ready at the very end; an error otherwise |
| HealEnds.FailureEndsPass | controllers/redissentinel_handler.go:212-271 | In every run a role, setting, monitor or reset that was not done, or sentinels not listed, end the pass in an error there and then; in a pass that ends well nothing failed but questions and REMOVE |
| HealEnds.CustomSettingsApplied | controllers/redissentinel_handler.go:292-303 | A pass over a changed object that ends well has set every custom setting at every sentinel it listed, each with success |
| Cluster.CrashIsEnv | controllers/redissentinel/service/check.go:242-246 | A pod that is listed and no longer runs: a crash at any moment is a step of the environment |
| Cluster.RestartIsEnv | controllers/redissentinel/service/generator.go:690-709 | A restart with the default command, under any unused address, is a step of the environment |
| Cluster.ScaleIsEnv | controllers/redissentinel/service/generator.go:254-254 | Removing any pods and any change of the replica counts is a step of the environment |
| Cluster.ListingCovers | controllers/redissentinel/service/check.go:236-248 | A fresh listing names the address of every running pod and only addresses that answer |
| Cluster.ListingIsDistinct | controllers/redissentinel/service/check.go:236-248 | With distinct live addresses no address is listed twice |
| EnsureStore.EnsureConverges | controllers/redissentinel_handler.go:324-356 | Any number of runs cut off anywhere and then a whole one end with the store and the verdict of a single whole run |
| EnsureStore.EnsureIsIdempotent | controllers/redissentinel_handler.go:324-356 | After a success another run finds nothing to write and changes nothing |
| EnsureStore.RunLeavesAlone | controllers/redissentinel/service/client.go:83-165 | However far a run gets, no object that was there is modified but the two StatefulSets, and those only when they differ in what is compared |
| EnsureStore.NewObjectsAreAskedFor | controllers/redissentinel/service/client.go:59-81 | Every object that appears is one the run asks for, with the generated content |
| EnsureStore.EnsureSucceedsIff | controllers/redissentinel/service/client.go:174-184 | A whole run succeeds exactly when no shutdown ConfigMap is named, or the named one is there, or is one of the two the run makes before it looks |
| EnsureStore.EnsureReconciles | controllers/redissentinel/service/client.go:83-165 | After a success both StatefulSets exist with the replicas, the four quantities and the exporter of the specification; one that agreed in these is as it was, one that was missing or did not agree is as generated in every field, and so each is as generated exactly when it was missing, disagreed, or was so already |
| EnsureStore.ImageEditIsIgnored | controllers/redissentinel/service/client.go:148-165 | A StatefulSet that differs from the generated one only in the image keeps its image |
| EnsureApart.ApartIffDisjoint | controllers/redissentinel/util.go:23-57 | Two objects of a namespace ask for nothing in common exactly when the names differ, neither shadows the other's with headless-, readiness- or -monitor, and neither names a shutdown ConfigMap the other makes |
| EnsureApart.RunsCommute | controllers/redissentinel_handler.go:324-356 | Runs for such objects, however far they get and in either order, end with the same store and succeed as each would alone |
| EnsureStore.GeneratedDoesNotDiffer | controllers/redissentinel/service/generator.go:227-344 | A StatefulSet as generated is not found different the next time |
| EnsureStore.DiffersIffDisagrees | controllers/redissentinel/service/client.go:130-165 | The comparison finds a difference exactly when the replicas, one of the four quantities or, for redis, the presence of the exporter is not as specified |
| EnsureObjects.EnsureMakesExactly | controllers/redissentinel_handler.go:324-356 | After a success every object that was there is as it was, and under the free names there are exactly the services, ConfigMaps and budgets of the object, each with its name, labels, owner, ports, selector and content |
| EnsureObjects.UnusableKeepsSets | controllers/redissentinel_handler.go:345-353 | While a named shutdown ConfigMap is missing no run, however far it gets, creates or changes a StatefulSet |
| EnsureObjects.GeneratedSpelledOut | controllers/redissentinel/service/generator.go:227-496 | A generated StatefulSet has the name, owner, service, replicas, labels, image, command, resources and, for redis, the exporter container given here |
| EnsureStore.SelectorsPickOwnPods | controllers/redissentinel/service/generator.go:254-341 | For any user labels the selector of a generated StatefulSet picks the pods of a generated StatefulSet of the namespace exactly when they are the same set of the same object |
| EnsureClient.RedisSentinelKubeClient.Ensure | controllers/redissentinel_handler.go:324-356 | Whatever calls fail, before or after taking effect, the store is as some prefix of the run leaves it, with exactly its writes; success means the whole run, an error means a failed call or an unusable shutdown ConfigMap |
| EnsureClient.RedisSentinelKubeClient.ReconcileRedis | controllers/redissentinel/service/client.go:111-127 | After a success the set has the replicas, the four quantities and the exporter of the specification; one that agreed in these before is left alone, and no other set is touched |
| EnsureClient.RedisSentinelKubeClient.ReconcileSentinel | controllers/redissentinel/service/client.go:88-102 | After a success the set has the sentinel replicas and the four quantities of the specification; one that agreed in these before is left alone, and no other set is touched |
| EnsureClient.RedisSentinelKubeClient.ExporterChanged | controllers/redissentinel/service/client.go:130-146 | True exactly when some container is the exporter and none is wanted, or none is and one is wanted |
| EnsureClient.RedisSentinelKubeClient.CreateIfNotExists | pkg/client/k8s/configmap.go:84-93 | An object that is there is left alone; one that is not is created; a failed call may have created it |
| EnsureClient.RedisSentinelKubeClient.EnsureRedisShutdownConfigMap | controllers/redissentinel/service/client.go:174-184 | A named ConfigMap is looked for and never created; without a name one is created if absent |
| EnsureClient.SecondRunWritesNothing | controllers/redissentinel_handler.go:324-356 | The number of writes of a run after a success is zero |
| MetaCache.MemoryFollowsLife | controllers/redissentinel/cache/cahce.go:63-109 | In any run over any objects whose reconciles overlap, serial per object: what is remembered of one since it was last unknown is what its own reconciles leave, the last of them having reported or not |
| MetaCache.RunsAreIndependent | controllers/redissentinel/cache/cahce.go:155-157 | However actions on different objects interleave, also between asking the cache and reporting, what is remembered of one is what its own actions alone leave |
| MetaCache.KeysIdentify | controllers/redissentinel/cache/cahce.go:155-157 | For namespaces without a slash a key says namespace and name |
| MetaCache.PasswordNeverChanges | controllers/redissentinel/cache/cahce.go:100-116 | The remembered password and the accepted object's password are those of the first specification |
| MetaCache.StateTellsWhatHappened | controllers/redissentinel_handler.go:53-56 | Creation at the first reconcile and at no other, an update exactly when the generation differs from the one before, otherwise a check |
| MetaCache.FirstIsCreation | controllers/redissentinel/cache/cahce.go:38-54 | An object seen for the first time is a creation with the Creating status and the size, password and configuration of its specification |
| MetaCache.LaterReconciles | controllers/redissentinel/cache/cahce.go:100-136 | The same generation changes nothing but the state; a new one brings in the new object with the first password, told as a change of size, else as an upgrade exactly when the image stayed, else as an update |
| MetaCache.LifeKeeps | controllers/redissentinel/cache/cahce.go:100-136 | After every reconcile: the status is reported, the generation is the latest, password and configuration are those of the first specification |
| MetaCache.SizesChain | controllers/redissentinel/cache/cahce.go:110-132 | At every new generation the remembered size is the size accepted before, and the status is scaling up or down exactly when the size grew or shrank |
| MetaCache.UpgradeIsToldBackwards | controllers/redissentinel/cache/cahce.go:119-140 | At a new generation Upgrading is told exactly when neither size nor image changed, so it is told rightly only where the size changed and the image did not |
| MetaCache.SizesTelescope | controllers/redissentinel/cache/cahce.go:110-132 | The size changes reported add up to the change since the first specification |
| MetaCache.AcceptedIsLast | controllers/redissentinel/cache/cahce.go:100-117 | The accepted size is that of the latest object, if specifications do not change behind a generation |
| MetaCache.MetaMap.Cache | controllers/redissentinel/cache/cahce.go:63-72 | On the heap: asking the cache is one step of a run, and no other entry changes |
| MetaCache.MetaMap.Update | controllers/redissentinel/cache/cahce.go:100-136 | Writing the entry and the new object's password in place changes this entry only |
| MetaCache.Meta.Accept | controllers/redissentinel/cache/cahce.go:100-136 | The same generation changes the state only and keeps the old object; a new one takes the new object and overwrites its password |
| MetaCache.MetaMap.Add | controllers/redissentinel/cache/cahce.go:85-87 | Puts a new entry under the object's key and changes no other |
| MetaCache.MetaMap.Del | controllers/redissentinel/cache/cahce.go:92-94 | Removes the object's entry and changes no other |
| MetaCache.MetaMap.UpdateStatus | controllers/redissentinel_handler.go:51-58 | On the heap: the report is one step of a run, whatever other reconciles did since the entry was given; it records the condition of the status with its type, reason and message in the list of the cached object, and leaves the list alone when there is nothing to report |
| MetaCache.Meta.ReportStatus | controllers/redissentinel_handler.go:116-142 | Records Creating, Scaling with "Scaling up" or "Scaling down", Upgrading or Updating according to the status, every other type as it was; nothing when there is nothing to report |
| Conditions.ListIsAMap | api/v1alpha1/redissentinel_status.go:100-133 | Over every run of setters, clears, updates and re-reads: types are unique, there are at most six, and the list does what the map from types to conditions does |
| Conditions.LastSetComesFirst | pkg/client/k8s/redis_cluster.go:37-39 | Whenever the status is stored with nothing set since c, and c neither cleared nor read back, the stored list starts with c, its news and the latest time |
| Conditions.HeadNamesLastSetter | api/v1alpha1/redissentinel_status.go:62-98 | What a reader finds first is the type, reason and message of the last setter, Healthy after Ready and Failed after a failure, however often the status was stored and read back since |
| Conditions.RedisSentinelStatus.SetScalingUpCondition | api/v1alpha1/redissentinel_status.go:62-65 | The list then maps Scaling to True with "Scaling up" and the message, every other type as before |
| Conditions.RedisSentinelStatus.SetCreateCondition | api/v1alpha1/redissentinel_status.go:67-70 | The list then maps Creating to True with "Creating" and the message, every other type as before |
| Conditions.RedisSentinelStatus.SetScalingDownCondition | api/v1alpha1/redissentinel_status.go:72-75 | The list then maps Scaling to True with "Scaling down" and the message, every other type as before |
| Conditions.RedisSentinelStatus.SetUpgradingCondition | api/v1alpha1/redissentinel_status.go:77-81 | The list then maps Upgrading to True with "Cluster upgrading" and the message, every other type as before |
| Conditions.RedisSentinelStatus.SetUpdatingCondition | api/v1alpha1/redissentinel_status.go:83-87 | The list then maps Updating to True with "Cluster updating" and the message, every other type as before |
| Conditions.RedisSentinelStatus.SetReadyCondition | api/v1alpha1/redissentinel_status.go:89-92 | The list then maps Healthy to True with "Cluster available" and the message, every other type as before |
| Conditions.RedisSentinelStatus.SetFailedCondition | api/v1alpha1/redissentinel_status.go:94-98 | The list then maps Failed to True with "Cluster failed" and the message, every other type as before |
| Conditions.StepKeepsInvariant | api/v1alpha1/redissentinel_status.go:56-124 | Every action keeps the types unique and known and does to the map what it should |
| Conditions.RedisSentinelStatus.SetClusterCondition | api/v1alpha1/redissentinel_status.go:108-124 | The same news refreshes the time, other news replaces the entry, a new type is appended |
| Conditions.RedisSentinelStatus.GetClusterCondition | api/v1alpha1/redissentinel_status.go:126-133 | The first position of the type, or none |
| Conditions.RedisSentinelStatus.ClearCondition | api/v1alpha1/redissentinel_status.go:100-106 | Cuts the entry of the type out and keeps the order of the others |
| Conditions.RedisSentinelStatus.DescConditionsByTime | api/v1alpha1/redissentinel_status.go:56-60 | A permutation in descending order of time |
| Validation.RedisSentinel.Validate | api/v1alpha1/redissentinel_validate.go:17-69 | Refuses exactly what is not acceptable, and then leaves the object unchanged but for a default size, filled in exactly when the name was accepted and no size given; otherwise keeps every choice of the user, completes the rest and reports a modification exactly when the specification was not complete |
| Validation.ValidationIsIdempotent | controllers/redissentinel_handler.go:40-48 | Validating a validated specification accepts it and changes nothing, so an edit is sent back at most once |
| Validation.DefaultingIsDetermined | api/v1alpha1/redissentinel_validate.go:17-69 | Completing while keeping every choice leaves no freedom |
| Validation.UnchangedIffComplete | api/v1alpha1/redissentinel_validate.go:19-68 | Nothing is modified exactly when the specification was complete |
| Validation.DefaultsSpelledOut | api/v1alpha1/redissentinel_validate.go:19-68 | Each field is the user's where one was given, and otherwise this value |
| Validation.ConfigSpelledOut | api/v1alpha1/redissentinel_validate.go:48-58 | The settings are these: with persistence the defaults under the user's and the fixed priority on top, without it the fixed three over the user's |
| Validation.LimitsSpelledOut | api/v1alpha1/redissentinel_validate.go:17-37 | A specification is acceptable exactly with a name of at most 48 characters and sizes that are open or at least three; a refusal fills in a size of three exactly when the name was short enough and the size open |
| Validation.RedisSentinel.EnablePersistence | api/v1alpha1/util.go:3-18 | For any settings: every persistence setting is present, each setting given is as it was, and nothing else is new |
| Validation.RedisSentinel.DisablePersistence | api/v1alpha1/util.go:20-23 | For any settings: the two are overwritten and no other key is changed |
| NodeConfig.CheckRedisConfig | controllers/redissentinel/service/check.go:70-83 | Whether the comparison succeeds is the same for every order of the keys, although the first difference stops it; sizes that cannot be read are passed over |
| NodeConfig.ApplyingIsOrderFree | pkg/client/redis/client.go:270-285 | In every order, applying the specification succeeds in the same cases and leaves the old settings overridden by the normal form |
| NodeConfig.AppliedMatches | controllers/redissentinel/service/check.go:70-83 | A node that took the whole specification passes the comparison |
| NodeConfig.NormalByKey | controllers/common/common.go:66-83 | Exactly the thirteen listed settings are compared and stored as sizes, every other one as it is written |
| NodeConfig.MatchesByKey | controllers/redissentinel/service/check.go:70-83 | A node matches exactly when every setting is shown as specified, a missing one counting as empty, sizes in bytes and unreadable ones passed over |
| NodeConfig.GetAllRedisConfig | pkg/client/redis/client.go:287-300 | The map holds the names at even positions, each with the value behind its last occurrence |
| MemConf.AcceptsExactly | pkg/util/utils.go:36-70 | Accepted exactly when the text is an optional sign and digits within int64, followed by at most one of the seven units in any case |
| MemConf.ParsesAsRead | pkg/util/utils.go:36-70 | An accepted text yields the number times the unit, wrapped to 64 bits |
| MemConf.PrintedSizeParses | pkg/util/utils.go:36-70 | A printed number with a unit parses to the printed product, wrapped when it leaves int64 |
| MemConf.OutputIsFixedPoint | pkg/util/utils.go:36-70 | Parsing an output again gives it back |
| MemConf.FormatThenParse | pkg/util/utils.go:60-70 | Printing an int64 and reading it back gives the same number |
| SentinelMemory.FieldReadsNamePositions | pkg/client/redis/client.go:116-128 | Only even positions are names: a value that looks like the name never matches, nor does a name without a value |
| SentinelMemory.SlaveInfoFieldByName | pkg/client/redis/client.go:116-128 | The loop over the pairs computes that field |
| SentinelMemory.CountIsCardinality | pkg/client/redis/client.go:105-111 | The count is the number of replicas but those whose first name slave-priority has the value 0 |
| SentinelMemory.CountSlaves | pkg/client/redis/client.go:105-113 | The loop that counts down from all replicas computes that count |
| Quorum.QuorumsIntersect | controllers/redissentinel/service/generator.go:607-609 | Any two groups of sentinels that reach the quorum share a member |
| Quorum.SmallerGroupsCanMiss | controllers/redissentinel/service/generator.go:607-609 | With one sentinel less they need not |
| Quorum.SurvivesExactly | controllers/redissentinel/service/generator.go:607-609 | A quorum is left exactly as long as at most (R - 1) / 2 sentinels are down |
| Quorum.BudgetKeepsQuorumOnlyForThree | controllers/redissentinel/service/client.go:210-220 | The fixed disruption budget guarantees a quorum for three sentinels and for no other validated number |
| Labels.MergeIsRightBiased | pkg/util/label.go:4-13 | The merged set is the union, and the last set that has a key decides its value |
| Labels.MergeLabels | pkg/util/label.go:4-13 | The nested loops compute that union, in any order of the map iteration |
| Labels.IdentityLabelsWin | controllers/redissentinel/service/client.go:50-56 | User labels cannot displace the labels that tell workloads apart |
| Labels.ObjectLabels | controllers/redissentinel_handler.go:145-150 | The object's own labels win over the two of the operator, and there are no others |
| Labels.WorkloadLabelsSpelledOut | controllers/redissentinel/service/client.go:50-56 | A workload has the labels of the object under the three that tell it apart |
| Labels.SelectorPicksOwnPodsOnly | controllers/redissentinel/service/generator.go:234-265 | For any user labels a selector picks the pods of its own StatefulSet and no pod of the other component or of another RedisSentinel of the namespace |

## Left out

- Commands that take effect only after the operator has already seen a failure and gone on: a lost reply is modelled, a delayed command is not.
- A stale read cache in front of the API server: listings and gets show the present.
- Sentinel's own fail-over: the environment never promotes a pod.
- Connections, the text of INFO replies and the regular expressions over them: they are reads of the role, the readiness and the counts.
- Panics on malformed replies (an odd CONFIG GET list, a short SENTINEL master reply): such replies do not occur in the model.
- Custom pod commands in the heal protocol: pods start with the default command, which makes them replicas of their own host.
- GetMinimumRedisPodTime: its result is only logged; the listing it performs is a step of the machine.
- Narrowing of counts to int32 and the width of replica numbers: they are unbounded.
- Concurrent writers of the store and its version checks: one writer, whose calls may fail.
- Namespaces of the store: one namespace is modelled, all generated objects live in it.
- Affinity, volumes, probes, claims and their owner references, scripts and configuration texts: data that nothing modelled here compares.
- Messages of the cache, and with them the comparison of encoded resource sizes: the status report takes any message.
- The difference between a nil and an empty list of conditions.
- Validation.RedisSentinel.EnablePersistence: loops over a table of the eight settings where the source writes eight calls.
- MemConf.AcceptsExactly: of the characters outside ASCII only the Kelvin sign, which folds to k, is considered.
- SetClusterCondition's RFC 3339 time strings: they are numbers, and clocks are taken to advance between setters.
- Events, metrics, logging, leader election and the reconcile loop around `Do`.
- The RedisStandalone controller: the same code with fewer steps. Its pods carry the selector labels of a RedisSentinel of the same name, so selector claims are about RedisSentinels only.
