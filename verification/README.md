# Verified model of the IBM Spectrum Scale CSI driver

The driver (driver/csiplugin) provisions Kubernetes volumes on a storage cluster it does not control. `CreateVolume`
makes a fileset, links it, sets its quota, makes a data directory and finally a symbolic link; `DeleteVolume` reads a
volume identifier back and takes these objects away again. No failure path cleans up: every step looks at what is there
and only then acts, and the caller is expected to try again. Every REST call may run and report, fail without effect,
or take effect and still report failure. This project models that protocol, the strings it rests on, and the parts of
start-up it relies on, and proves what it guarantees.

## How it is laid out

| file | what it holds |
|---|---|
| Wrappers.dfy | options |
| Strings.dfy | strings.Split, Index, Replace, Trim and filepath.Base on sequences of characters |
| Numbers.dfy | decimal printing and parsing, ConvertToBytes with 64-bit wrap-around, the printed block limit |
| VolumeId.dfy | the volume identifier: its printer and its three readers |
| Paths.dfy | absolute and relative paths, the places they stand for, the symbolic link path in create and in delete |
| Hostpath.dfy | the host path check, as string prefixes and as path-component prefixes |
| Backend.dfy | filesets, directories, links and what each connector call does to them, with faults |
| Polling.dfy | job polling and what a mutating call reports |
| Create.dfy, Delete.dfy | both requests as step machines, one connector call per step |
| Progress.dfy | the pieces of a volume, what a request knows at each point, monotone progress |
| Converge.dfy | the state every attempt aims at, retries converge to it |
| Undo.dfy | delete undoes create |
| Outward.dfy | what both requests do, said in requests, identifier texts and objects alone |
| Frames.dfy | where volumes keep their things, and exactly which steps of one volume another one notices |
| Fleet.dfy | any number of creates and deletes in flight over one backend, as events |
| Reqmap.dfy | the request map, over runs of any requests whatever |
| Safety.dfy | the invariant of all runs the orchestrator may cause, and what it guarantees |
| Alone.dfy | the interleaved machine contains the sequential one, for create and delete |
| Controller.dfy | the controller server and the storage GUI as classes, proved against the step machines |
| Options.dfy | storage class options to fileset request |
| Config.dfy | cluster list validation and the start-up look-ups |
| Descriptors.dfy | the work list of the operator's CRD description script |

## How the protocol is modelled

A backend state is a map of filesets (link path, place of the junction and block limit in KiB), a set of directories and
a map of symbolic links. A place is a physical filesystem and the list of components of a path in it: one filesystem
under two names, or one path written "p", "p/" or "./p", is one place. Where a junction is depends on the untrimmed
link path; where the driver looks for data depends on the path it trims. A fileset that gets linked brings a directory
at its junction, and deleting a linked fileset or a directory removes the whole tree, the directories and the symbolic
links in it. A fault script says for each connector call
whether it runs and reports (`Clean`), fails without effect (`Lost`), or takes effect and still reports failure
(`Late`); a used-up script means that nothing more goes wrong. For a call that only reads, `Lost` and `Late` are the
same. `Create.BodyStep` and `Delete.DelStep` are single steps; `Create.CreateVolume` and `Delete.DeleteVolume` run them
to the end of one attempt; the methods of `Controller.ScaleControllerServer` have the control flow of the Go methods
and are proved to do, call by call, what these machines say. Interleaving is expressed on the step machines, in
`Fleet`, because a Dafny method cannot be suspended between two calls; `Alone.CreateRunsAlone` and
`Alone.DeleteRunsAlone` tie the two together: a request that nothing interrupts does in the fleet what it does there.

The main results:

* **Safety** (`Safety.LiveVolumesStayIntact`): in every run of interleaved creates and deletes with arbitrary faults, a
  fileset volume whose create has succeeded and for which no delete was sent keeps its fileset, link, quota, data path
  and a symbolic link to that path. (The quota holds when no size was asked for, or the limit in KiB is the size
  rounded up, or reads back as the size. The driver only ever asks whether something is at the data path, so this is what
  is kept; the driver itself makes a directory there.) The flag `light` extends all of this to lightweight volumes,
  at the price of a condition on their directories. `Alone.SomeRunIsLive` shows that such volumes come about.
  `Safety.EventsSpareOthers` is the single-event form: nothing that happens under one name changes what a volume of
  another name shows. Both need conditions on a name when it comes into use (`Fleet.FirstUse`), which are about places
  on the backend: `Frames.LightweightDeleteHurtsExactly` and `Frames.FilesetDeleteHurtsExactly` say when deleting one
  volume takes something from another, `Frames.OffLinksExactly` when it would take links, and
  `Paths.OwnTreeExactly` when a new volume's data is in its own fileset.
* **The request map** (`Reqmap.MapIsExact`, `Reqmap.RefusedExactly`, `Reqmap.EntriesComeAndGo`): with no assumption on
  the requests at all, it holds exactly the admitted creates still running, and refuses exactly what is in process.
* **Convergence** (`Converge.RetriesConverge`): any attempts with any faults, then one without, end in the same state
  and with the same identifier as one undisturbed attempt; `Converge.CleanAttemptSucceeds` says exactly when an
  undisturbed attempt succeeds. The engine is a function `Complete` that adds every missing piece; no step changes its
  value (`Converge.StepKeepsGoal`).
* **Progress** (`Progress.BodyStepAdvances`): the number of missing pieces never grows, and each mutating call that
  reports success lowers it (or is a quota call at the top of the size range that finds its own limit in place).
* **Undo** (`Undo.DeleteUndoesCreate`, `Undo.FaultyDeleteUndoesFaultyCreate`): deleting the identifier that create
  returned gives back the state from before create, the second even with faults in all attempts but the last ones; for a
  lightweight volume it says exactly when.
* **Idempotent delete** (`Delete.FilesetDeleteConverges`) for fileset volumes, in both forms of identifier.
* **From the outside** (`Outward.FilesetMade`, `Outward.LightweightMade`, `Outward.DeletedByName`, `Outward.DeletedById`,
  `Outward.DeletedDirectory`): the very objects, texts and errors, for every request and identifier, without the
  functions that create and delete share; `Outward.CreateTrouble` and `Outward.DeleteTrouble` say that no call that went
  wrong is passed over. The lemmas whose names end in "Exactly" or "AsWritten" in the other files do the same for
  trimming, sizes, storage classes, job answers and display names.
* **The work list** (`Descriptors.ExactlyOnceExactly`): every path that leads to a property is emitted exactly once, and
  nothing else is, if and only if no key has a dot.

## Where the code falls short of its promise, and exactly when it does not

* A limit is read back in whole KiB, so repeating a create of another size is refused. `Converge.RepeatSucceedsExactly`:
  the repetition succeeds if and only if the size is a multiple of 1024 or lies in the last 1023 values below 2^64, where
  the limit wraps to zero and reads as unset. `Converge.ThousandBytesNotRepeatable` is an instance. Lightweight volumes
  have no limit and are not concerned.
* The overflow test of `ConvertToBytes` (gpfs_util.go:268) cannot fire; products wrap (`Numbers.OverflowWraps`).
* An identifier is cut at a second equals sign and miscounted at a semicolon. `VolumeId.ParseInvertsGenerate` holds if
  and only if no field hides a separator; `VolumeId.SecondEqualsCuts` shows the cut.
* Create and delete compute the symbolic link path in two ways. `Paths.SymlinkPathsAgree` says for every link path below
  the mount point and every name when they agree; `Paths.LinkedAtMountDisagrees` is an input where they do not.
* An existing symbolic link's target is not compared (controllerserver.go:159). `Safety.LinkIsRightExactly` gives the
  condition under which the link of a created volume leads to its data.
* Deleting a lightweight volume can be retried only as long as its directory is there
  (`Delete.LightweightRetriesExactly`): one lost answer after the directory call is fatal (`Delete.LightweightRetryFails`),
  and a second delete of a deleted volume is refused (`Delete.LightweightSecondDeleteRefused`).
* A fileset volume's data goes below the trimmed link path, its fileset is linked at the untrimmed one. They agree if and
  only if the name trims to itself (`Paths.OwnTreeExactly`). A volume "!n" keeps its data in the fileset "n": deleting
  "n" destroys it, and deleting "!n" leaves it behind (`Frames.TrimmedNameCollides`).
* A storage class may name a cluster that does not own the filesystem; the link then leads to the same path on another
  filesystem (second half of `Safety.LinkIsRightExactly`).
* All answers of a job are decoded into one structure, so an answer that says nothing of the status counts as another
  RUNNING (`Polling.SilentAnswerRepeats`).
* Deleting a volume can destroy others. A lightweight volume "n-data" in the directory of a fileset "n" owns that
  fileset's data directory (`Frames.DataSuffixCollides`). A lightweight volume ".volumes" beside the links owns the
  directory of all links, however its base directory is written (`Frames.LinksDirectoryCollides`), and a fileset volume
  called like the primary fileset, on its filesystem, takes that fileset for its own, whichever cluster owns it
  (`Frames.PrimaryNameCollides`); deleting either removes every volume's link.
* A dependent fileset whose parent is called "new" asks for the same inode space as an independent one; this is part of
  what `Options.RequestForClass` states.
* The node accepts identifiers that the controller refuses; `VolumeId.ReadersAgree` says exactly which.
* The descriptor script fails its purpose on every schema with a dot in some key, at any level
  (`Descriptors.ExactlyOnceExactly`): a path is emitted that leads to no property, or one is emitted twice.
  `Descriptors.DottedKeyHidesChildren` is an input.

The comment at controllerserver.go:105 still describes the older identifier `fileset=<id>`; the code prints
`filesetName=<name>`, and the model follows the code. Both forms are read.

## Model

| member | source | states |
|---|---|---|
| Strings.TrimExactly | driver/csiplugin/controllerserver.go:123-125 | of a text exclamation marks and slashes go at both ends, and nothing else does |
| Strings.IndexOfExactly | driver/csiplugin/controllerserver.go:123 | the place strings.Replace replaces at is the first occurrence, and there is none exactly if the text is not contained |
| Strings.BaseExactly | driver/csiplugin/controllerserver.go:649 | filepath.Base of a name, of a name with a slash behind it, of nothing and of a slash |
| Numbers.ConvertToBytes | driver/csiplugin/gpfs_util.go:219-273 | the scanning loop computes ParseSize: longest run of digits, number below 2^64, unit, product modulo 2^64; the overflow branch is unreachable |
| Numbers.ParseSizeMeaning | driver/csiplugin/gpfs_util.go:225-266 | for every split of a string into digits and a rest: invalid number exactly without digits, parse failure exactly from 2^64 on, invalid unit exactly for an unknown rest, otherwise value times unit modulo 2^64 |
| Numbers.ParsePrintedSize | driver/csiplugin/gpfs_util.go:240-263 | printing any 64-bit number with any accepted unit and reading it gives number times unit modulo 2^64 |
| Numbers.SizeAsWritten | driver/csiplugin/gpfs_util.go:240-263 | digits, spaces, any of the eighteen unit words in any mixture of capitals, spaces: the number times 1, 1024 or the next powers, modulo 2^64 |
| Numbers.OtherUnits | driver/csiplugin/gpfs_util.go:258-266 | with any other word behind the digits the unit is invalid |
| Numbers.OverflowWraps | driver/csiplugin/gpfs_util.go:260-270 | a product of exactly 2^64 is read as zero bytes instead of as an overflow |
| Numbers.DecimalOfFormat | driver/csiplugin/controllerserver.go:194 | strconv.FormatUint yields digits that denote the number it was given |
| Numbers.DecimalByTens | driver/csiplugin/gpfs_util.go:240 | a digit string counts by powers of ten |
| Numbers.MissingNumberSaysSo | driver/csiplugin/gpfs_util.go:236-243 | the error for a missing number always has the words setQuota looks for, the one for a number that is too big never has |
| Numbers.ReadPrintedQuota | driver/csiplugin/connectors/rest_v2.go:577-582 | a printed block limit reads back as 1024 times it below 2^54, modulo 2^64 in general, and as no number when negative |
| VolumeId.ParseInvertsGenerate | driver/csiplugin/controllerserver.go:100-114 | GetVolIdMembers gives back what generateVolID printed if and only if no field holds a semicolon and neither name nor link path an equals sign |
| VolumeId.GenerateInjective | driver/csiplugin/controllerserver.go:104-112 | on such fields equal identifiers come from equal volumes |
| VolumeId.SecondEqualsCuts | driver/csiplugin/controllerserver.go:566-570 | a link path with an equals sign comes back cut at it |
| VolumeId.ParseOlderForm | driver/csiplugin/controllerserver.go:548-573 | an identifier with a fileset id is read as a fileset volume with that id and no name |
| VolumeId.NodePublishPath | driver/csiplugin/nodeserver.go:60-76 | the node's index arithmetic picks the link path of the third part, or of the fourth of exactly four |
| VolumeId.ReadersAgree | driver/csiplugin/controllerserver.go:755-759 | on every identifier GetVolIdMembers accepts, the node links to the parsed path and publish looks up the parsed UUID; which further identifiers the node accepts, exactly |
| Paths.SymlinkPathsAgree | driver/csiplugin/controllerserver.go:632-633 | delete recomputes the link path create used if and only if the link path below the mount keeps a component and neither it (after one slash) nor the name ends in slash or exclamation mark |
| Paths.LinkPathRecomputed | driver/csiplugin/controllerserver.go:632-633 | for a link path of slashes or exclamation marks, a path that has neither at its ends, and perhaps a slash: the texts of create's link path, absolute and relative, and delete's is the same |
| Paths.LinkedAtMountDisagrees | driver/csiplugin/gpfs.go:361-366 | an input on which the two paths differ |
| Paths.TranslateCommutes | driver/csiplugin/gpfs.go:296-298 | moving the link path to the local mount point and making it relative commute |
| Paths.TargetRejoins | driver/csiplugin/controllerserver.go:117-127 | the target path put back below its mount point is the link path plus the data directory, if and only if the path below the mount is trimmed |
| Paths.TargetOfName | driver/csiplugin/controllerserver.go:117-127 | a volume linked at its own name, which has no slash or exclamation mark at its ends, has its data at "name/name-data" |
| Paths.OwnTreeExactly | driver/csiplugin/controllerserver.go:117-127 | the data path of a new fileset volume lies in its own fileset if and only if trimming leaves its name alone |
| Paths.JunctionPlaces | driver/csiplugin/controllerserver.go:298-323 | a new junction is one component below the mount, under the name as it is; the data goes under the trimmed name |
| Paths.ResolvedExactly | driver/csiplugin/connectors/rest_v2.go:809-811 | a relative path of ordinary names joined by slashes stands for the place those names lead down to |
| Paths.ResolvedDots | driver/csiplugin/connectors/rest_v2.go:809-811 | a slash or a dot behind a path changes nothing, two dots go up |
| Hostpath.ValidateHostpath | driver/csiplugin/gpfs.go:377-411 | accepts exactly a non-empty host path that is a component prefix or extension of the mount or the link path |
| Hostpath.PrefixIsPathPrefix | driver/csiplugin/gpfs.go:385-406 | for slash-terminated strings, string prefix and path-component prefix coincide |
| Hostpath.DirsExactly | driver/csiplugin/gpfs.go:385-398 | the components of a path written with or without a final slash |
| Hostpath.PassesExactly | driver/csiplugin/gpfs.go:403-406 | a host path inside or around the mount or the link path passes, one that parts from both does not |
| Hostpath.BelowMountComparable | driver/csiplugin/gpfs.go:403-406 | with the link path below the mount the four-way test is comparability of host path and mount |
| Backend.StoredPrinted | driver/csiplugin/connectors/rest_v2.go:516-526 | a printed size is stored as that many bytes rounded up to KiB |
| Backend.QuotaSeen | driver/csiplugin/controllerserver.go:173-186 | what setQuota makes of the listed limit: the bytes, or no number when nothing readable is listed |
| Backend.ListedErrors | driver/csiplugin/controllerserver.go:179-185 | for every text the listing can give, a parse error is the missing number and says so |
| Backend.StoredReadsBack | driver/csiplugin/controllerserver.go:188-194 | the stored limit of a size reads back as the size exactly for whole KiB, and as unset exactly for zero and the top 1023 values |
| Progress.ResolvedIsWf | driver/csiplugin/controllerserver.go:298 | the junction path create links at is never one that counts as unlinked |
| Progress.QuotaWritten | driver/csiplugin/controllerserver.go:193-195 | setting the quota changes the fileset's limit to the size in KiB and nothing else |
| Progress.QuotaLeads | driver/csiplugin/controllerserver.go:178-201 | from a listed limit create goes on to write it when it reads as unset, past it when it is the size, and fails otherwise |
| Progress.BodyStepAdvances | driver/csiplugin/controllerserver.go:150-324 | every step under every fault keeps what the request knows, removes no piece of the volume, and lowers the number of missing ones when a mutating call reports success, unless that is a quota call above 2^64-1024 bytes that finds its own limit in place and changes nothing |
| Progress.CreatedIsComplete | driver/csiplugin/controllerserver.go:512-526 | success means that no piece is missing |
| Converge.CleanStepReady | driver/csiplugin/controllerserver.go:211-329 | an undisturbed step meets its part of the conditions for success, or fails exactly because one does not hold |
| Converge.StepKeepsGoal | driver/csiplugin/controllerserver.go:141-197 | no step under any fault changes the state an undisturbed attempt ends in |
| Converge.StepKeepsReady | driver/csiplugin/controllerserver.go:178-201 | no step spoils the conditions for success, for lightweight volumes and for sizes that survive being stored in KiB |
| Converge.BodyKeeps | driver/csiplugin/controllerserver.go:500-526 | the same for a whole run after admission, under any faults |
| Converge.AttemptAdvances | driver/csiplugin/controllerserver.go:347-527 | any attempt loses no piece and keeps the goal; one that reports success has reached it and returns the volume's identifier |
| Converge.CleanAttemptSucceeds | driver/csiplugin/controllerserver.go:403-518 | an undisturbed attempt succeeds if and only if its static checks pass, the limit in place is unset or equal to the size, and the fileset is linked or its junction can be; a lightweight one if and only if its base directory is there |
| Converge.RetriesConverge | driver/csiplugin/controllerserver.go:130-202 | after any attempts with any faults an undisturbed one ends as if it had been the only one |
| Converge.RepeatSucceedsExactly | driver/csiplugin/controllerserver.go:188-191 | repeating a successful create succeeds if and only if the volume is lightweight or its size survives being stored in KiB |
| Converge.ThousandBytesNotRepeatable | driver/csiplugin/connectors/rest_v2.go:578 | a request of 1000 bytes is created once and refused when repeated |
| Delete.FilesetDelStep | driver/csiplugin/controllerserver.go:635-672 | for fileset volumes no delete step under any fault changes where an undisturbed attempt ends |
| Delete.FilesetDelRun | driver/csiplugin/controllerserver.go:614-674 | the same for a run from any point; without faults it succeeds exactly when the filesystem is known |
| Delete.FilesetDeleteConverges | driver/csiplugin/controllerserver.go:591-674 | fileset delete can be retried after any faults and repeated, with the same result, for identifiers by name and by id |
| Delete.LightweightDeleteSucceedsExactly | driver/csiplugin/connectors/rest_v2.go:753-774 | lightweight delete without faults succeeds exactly when the path its link leads to, or without a link its link's path, is a directory; otherwise nothing changes |
| Delete.LightweightRetriesExactly | driver/csiplugin/controllerserver.go:660-672 | after any attempts with any faults an undisturbed lightweight delete succeeds if and only if the directory survived them, which is if and only if they changed nothing |
| Delete.LightweightSecondDeleteRefused | driver/csiplugin/controllerserver.go:662-664 | once a lightweight volume has been deleted, every further delete is refused and changes nothing |
| Delete.LightweightRetryFails | driver/csiplugin/controllerserver.go:660-672 | one lost answer after the directory call: no later delete succeeds, and the link stays for good unless it was in the deleted tree |
| Undo.IdLeadsBack | driver/csiplugin/controllerserver.go:591-633 | the identifier create returns leads delete to the same cluster, owning filesystem, fileset and link |
| Undo.EraseUndoesFileset | driver/csiplugin/controllerserver.go:647-668 | removing a fileset volume from its completed state gives back the state without it |
| Undo.EraseUndoesLightweight | driver/csiplugin/controllerserver.go:660-668 | the same for a lightweight volume, whose directory delete then succeeds |
| Undo.DeleteUndoesCreate | driver/csiplugin/controllerserver.go:578-675 | on a backend without objects for a name that trims to itself, delete after create restores the state, for both kinds of volume |
| Undo.FaultyDeleteUndoesFaultyCreate | driver/csiplugin/controllerserver.go:347-675 | the same with any number of faulty creates and deletes before the last ones: always for fileset volumes, and for lightweight ones if and only if the faulty deletes changed nothing |
| Outward.FilesetFilesystem | driver/csiplugin/controllerserver.go:453-476 | a fileset volume is worked on by the named cluster or else the primary one, on the filesystem whose name is the last part of the remote device |
| Outward.LightweightFilesystem | driver/csiplugin/controllerserver.go:459-481 | a lightweight one by the primary cluster on the requested filesystem |
| Outward.DoomedFilesystem | driver/csiplugin/controllerserver.go:613-630 | delete comes to the same filesystem from the cluster and UUID in the identifier |
| Outward.FrontErrors | driver/csiplugin/controllerserver.go:409-476 | which error an undisturbed create fails with before admission, in order |
| Outward.FilesetErrors | driver/csiplugin/controllerserver.go:211-243 | which error after it, for a fileset volume |
| Outward.NoMountPoint | driver/csiplugin/controllerserver.go:117-122 | without a mount point there is no target path and nothing changes |
| Outward.LimitTexts | driver/csiplugin/controllerserver.go:178-186 | a listed limit without digits counts as unset, one of 2^64 or more is an error |
| Outward.NoBaseDirectory | driver/csiplugin/controllerserver.go:82-85 | a lightweight volume without base directory fails and changes nothing |
| Outward.CreateTrouble | driver/csiplugin/controllerserver.go:403-515 | a call that fails or is answered late is create's last, and is what it reports |
| Outward.DeleteTrouble | driver/csiplugin/controllerserver.go:613-672 | the same for delete |
| Outward.FilesetMade | driver/csiplugin/controllerserver.go:205-330 | the fileset, limit, two directories, link and identifier that a fileset volume gets on a backend that has nothing of it, and nothing else changes |
| Outward.LightweightMade | driver/csiplugin/controllerserver.go:71-97 | the directory, link and identifier of a lightweight volume |
| Outward.DeletedByName | driver/csiplugin/controllerserver.go:635-668 | an identifier with a fileset name takes away that fileset with its tree and the link called like it, and nothing else |
| Outward.DeletedById | driver/csiplugin/controllerserver.go:638-668 | one with a fileset id takes away the fileset that has the id |
| Outward.OtherFilesetStays | driver/csiplugin/controllerserver.go:649-657 | a fileset the link is not called like stays, and only the link goes |
| Outward.DeletedDirectory | driver/csiplugin/controllerserver.go:660-668 | one without fileset takes away the directory the link leads to, what is in it, and the link |
| Outward.UnreadableIsDeleted | driver/csiplugin/controllerserver.go:587-595 | an identifier that is not empty but has not three or four parts, or lacks a field, is reported as deleted and nothing changes; the empty one is not |
| Outward.UnknownIsRefused | driver/csiplugin/controllerserver.go:599-617 | a cluster without connector or an unknown filesystem: not deleted, nothing changes |
| Frames.CreateFootprint | driver/csiplugin/controllerserver.go:130-168 | a create step changes at most the volume's fileset, directories in its own tree and its link |
| Frames.PlaceStays | driver/csiplugin/controllerserver.go:295-329 | no create step changes where the volume's data goes |
| Frames.OtherPlace | driver/csiplugin/controllerserver.go:123-127 | fileset volumes of different names never share a data path, wherever they are linked |
| Frames.NewHasOwnTree | driver/csiplugin/controllerserver.go:295-323 | a fileset made or linked for a name that trims to itself holds the volume's data |
| Frames.OffLinksExactly | driver/csiplugin/gpfs.go:361-366 | a tree holds no volume's link if and only if it is neither at or above the directory of the links nor in the place of a link |
| Frames.SeesTreeExactly | driver/csiplugin/controllerserver.go:649-664 | a volume of either kind notices the removal of a tree if and only if its data path or its link is in it |
| Frames.LightweightDeleteHurtsExactly | driver/csiplugin/controllerserver.go:660-662 | deleting a lightweight volume takes something from a volume of another name if and only if, as a place on one physical filesystem, its directory is at or above the directory the other's data is in, is that data directory ("n-data" beside "n"), or is at or above the directory of the links |
| Frames.FilesetDeleteHurtsExactly | driver/csiplugin/controllerserver.go:647-651 | the same for deleting a fileset volume, in terms of the place of its junction, which keeps the name untrimmed |
| Frames.SeesPastFileset | driver/csiplugin/controllerserver.go:649-651 | off the links and separate from the other's tree, deleting a fileset leaves all that another volume shows, its link included |
| Frames.SeesPastDirectory | driver/csiplugin/controllerserver.go:660-662 | the same for deleting a lightweight volume's directory |
| Frames.NewFilesetInDirectoryExactly | driver/csiplugin/controllerserver.go:88-125 | the data of a fileset still to be linked lies in a lightweight volume's directory if and only if it is that directory, as a place |
| Frames.NewFilesetsApart | driver/csiplugin/controllerserver.go:295-323 | filesets still to be linked never hold each other's data, for names that trim to themselves |
| Frames.DataSuffixCollides | driver/csiplugin/controllerserver.go:88-125 | deleting a lightweight volume "n-data" in the directory of a fileset "n" takes from that volume |
| Frames.LinksDirectoryCollides | driver/csiplugin/gpfs.go:365-368 | deleting a lightweight volume ".volumes" whose base directory is, however written, the primary fileset's place removes every volume's link |
| Frames.PrimaryNameCollides | driver/csiplugin/controllerserver.go:270-296 | so does deleting a fileset volume called like the primary fileset on its physical filesystem, whichever cluster owns it |
| Frames.TrimmedNameCollides | driver/csiplugin/controllerserver.go:117-127 | the data of a volume "!n" is in the fileset "n": deleting "n" takes from it, deleting "!n" leaves it |
| Reqmap.StepKeepsMap | driver/csiplugin/controllerserver.go:485-498 | any event, of any request, keeps the map the record of the admitted creates still running |
| Reqmap.MapIsExact | driver/csiplugin/controllerserver.go:485-498 | in every state any requests can lead to, the map holds exactly the admitted creates still running, with their sizes, one per name |
| Reqmap.EntriesComeAndGo | driver/csiplugin/controllerserver.go:497-498 | only admission adds an entry, for a name that had none; a create keeps its own entry, with its size, until it ends, and takes exactly that; nothing else touches the map |
| Reqmap.RefusedExactly | driver/csiplugin/controllerserver.go:47-58 | a create is refused at admission if and only if another of its name is in process, with the error for the same size if and only if the sizes are equal; the refused one changes neither map nor backend |
| Safety.CreateSpares | driver/csiplugin/controllerserver.go:205-330 | a create step spares every volume of another name |
| Safety.CreateSparesPair | driver/csiplugin/controllerserver.go:295-310 | a create step brings no two volumes into each other's trees |
| Safety.StaysWhole | driver/csiplugin/controllerserver.go:171-202 | a volume that is all there stays so while a request of another size for it goes on |
| Safety.DeleteSpares | driver/csiplugin/controllerserver.go:635-672 | a delete step spares every volume of another name |
| Safety.StepInv | driver/csiplugin/controllerserver.go:485-527 | every event the orchestrator may cause keeps the invariant over backend, request map and requests in flight |
| Safety.RunInv | driver/csiplugin/controllerserver.go:347-675 | so does every run from start-up, over any backend |
| Safety.LiveVolumesStayIntact | driver/csiplugin/controllerserver.go:512-526 | safety over all runs: a created fileset volume not being deleted has its fileset, linked, with a limit that holds its size, something at its data path and a link to exactly that path; a lightweight one, if looked after, its directory and link |
| Safety.EventsSpareOthers | driver/csiplugin/controllerserver.go:578-675 | after any run, an event about one name changes nothing that a fileset volume of another shows, nor a lightweight one that is looked after |
| Safety.LinkIsRightExactly | driver/csiplugin/controllerserver.go:153-166 | after a successful create the link leads to the data path if and only if that very link was there before, or nothing was, nothing create makes is in its place, and the cluster id names the filesystem's owner |
| Alone.CreateRunsAlone | driver/csiplugin/controllerserver.go:347-527 | wherever a create may start and its name is not in process, a possible run carries it to its end under any faults, and backend, request map and outcome are those of CreateVolume |
| Alone.DeleteRunsAlone | driver/csiplugin/controllerserver.go:578-675 | the same for a delete and DeleteVolume on the identifier create returned |
| Alone.SomeRunIsLive | driver/csiplugin/controllerserver.go:512-526 | an admissible request on a ready backend does become a live volume in some run |
| Controller.CreateSymlinkPath | driver/csiplugin/gpfs.go:358-374 | returns the two paths derived from the primary fileset's link path in any case, and makes the directory for the links, which is there on success |
| Controller.CheckRequest | driver/csiplugin/controllerserver.go:355-379 | refuses exactly an empty name, no capabilities, and a block or read-only-many one, of which the first decides |
| Controller.ScaleControllerServer.SetQuota | driver/csiplugin/controllerserver.go:171-202 | does what the machine says from reading the quota on |
| Controller.ScaleControllerServer.QuotaBytes | driver/csiplugin/controllerserver.go:178-186 | for a listed text, the bytes it denotes, or none when the error text has the words for a missing number; any other parse error would be passed on |
| Controller.ScaleControllerServer.CreateDirectory | driver/csiplugin/controllerserver.go:130-147 | does what the machine says from looking for the directory on |
| Controller.ScaleControllerServer.CreateSoftlink | driver/csiplugin/controllerserver.go:150-168 | does what the machine says from looking for the link on |
| Controller.ScaleControllerServer.FindOrMakeFileset | driver/csiplugin/controllerserver.go:270-293 | finds the fileset, or makes it and finds it |
| Controller.ScaleControllerServer.LinkIfNeeded | driver/csiplugin/controllerserver.go:295-310 | links a fileset found unlinked and reads its path again |
| Controller.ScaleControllerServer.CreateFilesetBasedVol | driver/csiplugin/controllerserver.go:205-330 | does what the machine says up to the link, with the machine's target path |
| Controller.ScaleControllerServer.CreateLWVol | driver/csiplugin/controllerserver.go:71-97 | the same for a lightweight volume |
| Controller.ScaleControllerServer.PrimaryChecks | driver/csiplugin/controllerserver.go:403-429 | the primary fileset linked, its filesystem mounted: fails as the machine does and changes nothing |
| Controller.ScaleControllerServer.PreChecks | driver/csiplugin/controllerserver.go:403-481 | the checks before admission change nothing and fail as the machine does |
| Controller.ScaleControllerServer.ProvisionOnce | driver/csiplugin/controllerserver.go:485-515 | admission, work, and removal of the own request map entry on every exit; a name in process changes nothing |
| Controller.ScaleControllerServer.CreateVolume | driver/csiplugin/controllerserver.go:347-527 | a request without name or usable capabilities is refused without a call; otherwise outcome, backend and remaining faults are those of the step machine; the request map is as before |
| Controller.ScaleControllerServer.FilesetName | driver/csiplugin/controllerserver.go:635-645 | the name in the identifier, or the one looked up by id |
| Controller.ScaleControllerServer.RemoveData | driver/csiplugin/controllerserver.go:635-666 | deletes a fileset only when the link is named after it, and the directory of a lightweight volume |
| Controller.ScaleControllerServer.DeleteVolume | driver/csiplugin/controllerserver.go:578-675 | outcome and backend are those of the step machine; an unreadable identifier is reported as deleted, an empty one is not |
| Polling.AsyncJobCompletion | driver/csiplugin/connectors/rest_v2.go:88-113 | on the answers themselves: it goes on after RUNNING and after an answer that names no status, and stops at the first other one; a transport error or an answer without a job fails with its text, and only an answer that says COMPLETED completes |
| Polling.FullAnswersSpeak | driver/csiplugin/connectors/rest_v2.go:91-112 | an answer that names status and error is read by itself |
| Polling.SilentAnswerRepeats | driver/csiplugin/connectors/rest_v2.go:91-112 | after RUNNING, an answer without a status is read as RUNNING |
| Polling.Perform | driver/csiplugin/connectors/rest_v2.go:295-316 | failure unless the status is 200, 201 or 202 and a job is listed; success at once on 200; otherwise as the answers about the job tell, or by the refusal the call forgives |
| Polling.FirstDecides | driver/csiplugin/connectors/rest_v2.go:307-313 | the first answer that is not RUNNING alone decides |
| Polling.EndExactly | driver/csiplugin/connectors/rest_v2.go:93-112 | the end of a job in terms of the answer that decides it and the last error text received |
| Polling.RunningExactly | driver/csiplugin/connectors/rest_v2.go:91-103 | whether the loop goes on is decided by the last answer alone |
| Polling.ForgivenTexts | driver/csiplugin/connectors/rest_v2.go:309-327 | the error codes and the refusal that each call forgives, as texts |
| Polling.FailedJobSettles | driver/csiplugin/connectors/rest_v2.go:502-511 | a failed job is taken for success exactly on the one error code of making a fileset, directory or link and of deleting a link, and never by the other calls |
| Options.GetScaleVolumeOptions | driver/csiplugin/gpfs_util.go:69-203 | accepts exactly the storage classes of Accepts, resolves each to its meaning, and refuses the others with their first objection |
| Options.ClassesExactly | driver/csiplugin/gpfs_util.go:69-160 | the three kinds of accepted storage classes, on the option map; without type and directory the fileset is independent |
| Options.MeaningExactly | driver/csiplugin/gpfs_util.go:163-200 | every field an accepted class resolves to, on the option map |
| Options.ObjectionsExactly | driver/csiplugin/gpfs_util.go:88-160 | which error a refused class gets |
| Options.NumeralsExactly | driver/csiplugin/gpfs_util.go:152-158 | the inode limits that can be read are digits with or without a sign that fit in 64 bits |
| Options.NothingElseIsNumeral | driver/csiplugin/gpfs_util.go:152-155 | no other text can be read |
| Options.OwnerOptions | driver/csiplugin/gpfs_util.go:111-122 | a group without a user belongs to root, and empty values are absent ones |
| Options.FilesetOptions | driver/csiplugin/controllerserver.go:246-268 | the options passed on, with an inode limit of at least 1024 derived from size and block size when none is given |
| Options.FilesetRequestFrom | driver/csiplugin/connectors/rest_v2.go:256-290 | the request body, with the older option spellings as second choice |
| Options.BodyExactly | driver/csiplugin/connectors/rest_v2.go:256-290 | the body on the option map: older spellings, parent or root, inode counts, and the four cases of an owner |
| Options.InodesAreMany | driver/csiplugin/controllerserver.go:255-265 | the inode limit sent denotes a number of at least 1024 |
| Options.RequestForClass | driver/csiplugin/connectors/rest_v2.go:267-290 | across all three functions, on the storage class: inode space "new" with the limit given or the size in blocks, at least 1024, unless the type is dependent; then parent or root and no counts; and the owner for user and group given or not |
| Options.EmptyIsAbsent | driver/csiplugin/gpfs_util.go:88-133 | run on two storage classes that differ only in empty values, the flag code gives the same result, error included |
| Config.StringInSlice | driver/csiplugin/utils/utils.go:137-145 | membership up to case folding, whatever folding does to letters |
| Config.DigitsFoldAlone | driver/csiplugin/utils/utils.go:140 | under a folding that leaves digits alone, a decimal string equals no other string |
| Config.MissingSettings | driver/csiplugin/gpfs.go:428-467 | reports exactly the clusters with a mandatory setting missing |
| Config.MandatorySettings | driver/csiplugin/gpfs.go:428-467 | a list is refused for each mandatory setting that one of its clusters lacks |
| Config.OnePrimary | driver/csiplugin/gpfs.go:441-475 | and for no primary cluster, two, or a remote cluster that is not listed |
| Config.EnoughSettings | driver/csiplugin/gpfs.go:414-485 | and for nothing else |
| Config.ValidateScaleConfigParameters | driver/csiplugin/gpfs.go:414-485 | accepts exactly the lists with all mandatory settings, one primary, and a remote cluster, if named, among the others |
| Config.IdConfirmed | driver/csiplugin/gpfs.go:189-207 | a cluster passes exactly when its connector reports the configured id |
| Config.FilesystemReady | driver/csiplugin/gpfs.go:213-227 | the primary filesystem passes exactly when details and mount state are read and it is mounted |
| Config.BuildConnectors | driver/csiplugin/gpfs.go:186-243 | start-up goes on if and only if every cluster gets a connector, answers, and reports its configured id, and the primary filesystem is known and mounted; then the table leads every id to a connector of that id and "primary" to the primary |
| Config.LookupsNeverMiss | driver/csiplugin/gpfs.go:245-249 | for a validated list the unchecked exact look-ups of the primary and the remote connector never miss |
| Descriptors.FindProperty | operator/hacks/csv_copy_crd_descriptions.py:29-37 | the inner loop walks to the property the keys name |
| Descriptors.PassDescends | operator/hacks/csv_copy_crd_descriptions.py:27-42 | one pass leaves exactly one path less to do, for every tree, which is why the loop ends |
| Descriptors.LoadDescriptors | operator/hacks/csv_copy_crd_descriptions.py:14-52 | one descriptor per emitted path, in order, with that path's description, display name and x-descriptors |
| Descriptors.DisplayNameExactly | operator/hacks/csv_copy_crd_descriptions.py:38-48 | the display name is the one listed for the path or what follows its last dot |
| Descriptors.NothingThere | operator/hacks/csv_copy_crd_descriptions.py:30-37 | keys that lead to no property find no description and no sub-properties |
| Descriptors.EmitsExactlyOnce | operator/hacks/csv_copy_crd_descriptions.py:26-42 | without dots in keys a path is emitted if and only if it leads to a property, once, and never after a deeper one |
| Descriptors.EveryChainEmitted | operator/hacks/csv_copy_crd_descriptions.py:41-42 | every chain of keys that leads to a property is emitted as its dotted path |
| Descriptors.ExactlyOnceExactly | operator/hacks/csv_copy_crd_descriptions.py:26-42 | for trees of dicts, exactly the paths that lead to a property are emitted, each once, if and only if no key at any level has a dot |
| Descriptors.EmittedInBlocks | operator/hacks/csv_copy_crd_descriptions.py:39-42 | for every tree, the emitted paths are the top keys followed by the children of each emitted path in turn |
| Descriptors.DottedKeyHidesChildren | operator/hacks/csv_copy_crd_descriptions.py:29 | an input on which the properties below a key with a dot are not emitted |

## Left out

- Safety.LiveVolumesStayIntact: says of lightweight volumes only what holds when they are looked after (`light`), since without that their base directories may lie anywhere, also inside each other. It assumes of the orchestrator that creates and deletes of one name are not in flight together (section "Concurrency" of the Container Storage Interface specification v1.1.0), that requests pass the static checks and name the cluster that owns the filesystem, and that until it is deleted a name stands for one request up to its size (below 2^64-1024 when sizes differ; of several that succeed the last one counts). It assumes of a name that comes into use what FirstUse says: nothing is in its link's place, its tree holds its data and no links, and neither it nor a volume in use has data in the other's tree.
- Safety.EventsSpareOthers: under the same assumptions, and for what the driver can see of a volume, not for the files in it.
- Reqmap.MapIsExact: check and insertion of the request map entry are one atomic step here, two unlocked statements in the source.
- Fleet: interleaving is on values, one connector call per event; update in place is captured by the classes of Controller.dfy for one request at a time.
- Converge.RetriesConverge: asks of fileset volumes that the size survives being stored in KiB; for other sizes RepeatSucceedsExactly says what happens.
- Undo.DeleteUndoesCreate: asks that the identifier is separable, the primary fileset's link path survives trimming, the name is an ordinary file name that trims to itself (for others, OwnTreeExactly says that the data is not in the fileset), and the filesystem's UUID names one filesystem of the primary cluster.
- Backend facts taken as assumptions: a limit is stored rounded up to KiB; a new fileset is linked at once or never, by one flag per backend; a junction is accepted below the mount point where nothing is yet and no other fileset is linked at or below it, and becomes a directory; deleting a linked fileset removes the tree below its junction, and filesets linked below it keep their entries; deleting a directory follows a symbolic link at its path.
- Places: "." and ".." in a path are taken away by components; symbolic links in the middle of a path are not followed, only one at its end where a call follows it.
- Changes from outside: filesystem details, the primary fileset's link, the connector table and the tables from UUID and fileset id to name are fixed during a run, and fileset ids are never reused.
- Error texts: reduced to the errors the code tells apart.
- Controller.ScaleControllerServer.QuotaBytes: for the texts the quota listing can give, an empty one or a number and a K; the source's test for words in the error text would also fire on a quota text that itself held those words.
- Config.DigitsFoldAlone: Unicode case folding is a parameter, of which only that digits fold with nothing else is used.
- Options.FilesetOptions: a block size of zero without an inode limit, which makes the source divide by zero, is excluded by its precondition.
- Numbers.ConvertToBytes: lower-casing only of letters whose lower case is in ASCII; no other letter can spell a unit.
- Config.BuildConnectors: the checks of the remote filesystem, CreatePrimaryFileset and the fileset refresh task are not modelled.
- Descriptors.LoadDescriptors: the order of a dict's keys is taken as given, and keys() is a list, as in Python 2.
- ControllerPublishVolume beyond the UUID it looks up, and the node's mkdir, rmdir and ln commands.
- Owner and group of directories; the mount and publish calls of the connectors.
- HTTP, JSON, TLS, credentials, URL formatting and sleeping between polls.
- The gRPC server, identity server, ValidateVolumeCapabilities, the check of the capabilities the driver itself announces, and unimplemented calls.
- The second copy of ConvertToBytes in driver/csiplugin/utils/utils.go, which setQuota does not call.
- Ansible roles, YAML, documentation and functional test programs.
