# DirectPV: a model of the volume allocator and its neighbours

DirectPV hands out slices of local drives as volumes. Its state lives in two kinds of API objects,
Drive and Volume, and no transaction spans both. CreateVolume, two-phase expansion, deletion, the
volume delete handler, Move, Remove and the device sync are separate actors that read objects, edit
finalizers, labels and capacities in memory, and write them back under optimistic concurrency. This
project models that protocol and proves what holds after every run of it, and does the same for the
parts of DirectPV that are algorithms of their own: the health machine, the mount table, the paged
listers, per-key locking, drive selection, quota arithmetic and ellipsis expansion.

## How the model is laid out

- `Objects` holds Drive and Volume as values and the effect of every in-memory edit on them; `Edits`
  holds the same edits as methods on mutable objects, proved to compute those values.
- `Cluster` is the state machine: a versioned store, what each actor has read so far, and a history
  that no actor reads. One event is one API call of one actor: CreateVolume, DeleteVolume, both halves
  of an expansion, staging, the volume delete handler, Move, the drive controller's move handler,
  Remove, device sync and health reports. Reads may be stale by the time they are used; an Update lands
  only on the version that was read and, on an object marked for deletion, only if it adds no
  finalizer; such an object vanishes when its finalizers are empty; any actor may stop before any call
  (the Abort events) and be started again; events interleave freely.
- `Effects` states, field by field, what every write does to the store and what it finds there.
- `Versions`, `Removal`, `Placement`, `Accounting`, `Claims`, `Handover` are the inductive invariants;
  `Books`, `Success`, `Grants`, `MoveSafety`, `Release` and `Handover` hold the theorems over whole runs;
  `Limits` the exact conditions behind the hypotheses; `Mishap` runs that go wrong, event by event, put
  together with the lemmas of `Trace`.
- `MoveHandler`, `Health`, `Locks`, `Mounts`, `Listers`, `Selection`, `Quota`, and `Alpha`, `Ellipsis`,
  `Patterns`, `Odometer` (ellipsis expansion) stand by themselves.

## What is taken for granted

The run theorems quantify over every run from the empty cluster that keeps to `Cluster.Disciplined`:

- One CSI call is in flight per volume ("Concurrency" under "RPC Interface" in the Container Storage
  Interface specification); `calls` is a map for that reason. Likewise one delete handler works on a
  volume and one move handler on a drive, because the controllers lock per key
  (`Locks.MutualExclusion`). Any number of Moves, and Remove, device sync and health reports, run beside
  them without restriction.
- One name is always requested with the same size, from 0 to 2^63-1 bytes, and the same claim. A request
  without a capacity range re-reads the free space on a retry: `Limits.RetryKeepsAllocated` says exactly
  which retries are harmless (when all of Allocated is recorded, those that find no more bytes free than
  the volume has recorded: `Limits.UnsizedRetryHarmless`), and `Mishap.UnsizedRetryOvercommits` is a run in
  which one is not.
- An expansion beyond the requested size is granted to a record that is not being deleted only when the
  drive it names holds the volume, that is, after CreateVolume has reserved it. The code does not check
  this, and it is exactly what is needed: `Grants.GrantIsSafeExactly` shows that after a grant the volume
  can come to outgrow what is set aside for it if and only if this was violated, and
  `Mishap.ExpansionBeforeReservation` is a run that violates it.
- The node is asked to grow a volume only to sizes the controller has granted since the volume's record
  was made; every successful answer counts as a grant.
- A resync never reports a total below Allocated (`Accounting.ResizeBalanced` shows this is exactly
  what is needed), and no health report lands on a drive whose finalizers have already been stripped
  for removal (`Limits.ReportKeepsShape`, likewise exact; `Mishap.RemovedWithVolume` is a run in which
  such a report ends with a volume on a Removed drive).
- No pod carries a label under DirectPV's own prefix. NodePublishVolume copies such labels onto the volume
  record (pkg/csi/node/publish_unpublish.go:132-136), and one of them is the label that names the drive.
  The model has no such event, so this holds by construction; the invariants of `Placement` and all of
  `Handover` rest on it.

The theorems in `Books`, `Success` and `Grants` also exclude Move, because Move breaks the books (see
below). The theorems in `Handover` need none of the hypotheses in `Cluster.Disciplined`. The move handler
starts from the informer's cached copy of its drive, however old. The other modules assume a strictly
increasing clock (`Health.LatestAfterSets` and the theorems behind it), collision-free line hashes
(`Mounts`) and distinct requested names (`Listers`).

## What the proofs turned up

- CreateVolume can answer success and leave the volume on no drive, if the call begins while an old
  volume of the name is being deleted and a drive still holds it: the copy of the drive it settles on
  still has the finalizer when the delete handler has already taken it off.
  `Success.SuccessIsRightExactly` is an if-and-only-if, `Mishap.SuccessWithoutDrive` a run.
- An expansion of a record that no drive holds is granted and charged to the drive the record names;
  the volume may then be reserved elsewhere and grow to the granted size there
  (`Grants.GrantIsSafeExactly`).
- A release credits the drive its record names and nobody else, and its last write looks at no drive.
  Between a Move's landing and the destination's handler, the record still names the source: a volume
  deleted then is credited on the source, and its record vanishes while the destination holds it
  (`Mishap.ReleaseMissesDestination`). The destination's handler cannot get past a volume without a record
  (`Mishap.OrphanBlocks`), so the drive is left Moving, with a finalizer that the release of its volume
  did not take off. A second Move can even bring the volume back to the drive the record names after the
  release has read that drive (`Mishap.ReleaseOvertakenByMove`). `Release.PurgeExactly`, `Release.PurgeLeavesExactly` and
  `Release.ReleaseClearsExactly` say exactly when this happens; without Move it does not
  (`Books.RecordOutlivesHold`).
- A drive that is the destination of a Move can turn Ready while a listed record names another drive,
  without any second Move: a retried CreateVolume that had found the volume on the source labels the
  record back (`Mishap.RetryBehindHandler`), or the Moving drive is reported Lost and comes back Ready
  without its handler (`Mishap.ReadyAroundHandler`). `Handover.ReadyExactly` gives the exact condition,
  `Handover.ReadyWhenAlone` one that can be checked when the handler starts.
- A removal cut off between stripping the finalizers and deleting the object leaves a drive that can be
  reported Lost and then Ready; a volume placed on it is not counted, so Remove accepts the drive again
  (`Limits.StrippedDriveHidesVolume`, `Mishap.RemovedWithVolume`).
- A Move charges the destination the recorded sizes only, so expansions granted but not yet recorded
  are forgotten, and it never gives capacity or claim labels back to the source. `Limits.LandingBalanced`
  gives the exact slack the destination needs, but a grant that is pending is stored on no object, so no
  caller can check it. `Mishap.MoveForgetsGrant` is a run that ends with 200 bytes recorded on a drive
  with 10 allocated.
- An I/O error is hidden by the next sync that sees no device, two devices or a failing mount: after
  that a clean sync makes the drive Ready again. `Health.ReadyAgainExactly` is an if-and-only-if.
- Condition times have a resolution of one second; two errors set in the same second can leave the
  older one as the latest (`Health.TieForgetsLastError`; `Health.LatestExactly` for any times).
- A quota passes through a 64-bit float: past 2^53 bytes the block limit can fall short of the request
  (`Quota.LimitFallsShort`, and `Quota.LimitCoversExactly` for all sizes).
- The expansion of an ellipsis that ends at 2^64-1 never finishes (`Ellipsis.EndlessExactly`), and text
  behind a second `...` in one pair of braces is ignored.
- A mount line of eight or more fields whose `-` is missing or has fewer than three fields behind it
  crashes the parser (`Mounts.ParseMount`).
- Drive selection draws from an empty tie set, and crashes, exactly when the drive that already holds
  the volume, or else every match, has less than -1 free bytes (`Selection.SelectDrive`);
  `Books.CapacityHolds` rules that out.

## Model

| member | source | states |
|---|---|---|
| `Versions.ConsistentStep` | pkg/csi/controller/server.go:209-237 | Every event keeps: a copy in flight is of the past, and if its version is still current it equals the stored object, so a landing Update overwrites nothing it has not seen |
| `Effects.OthersWriteNothing` | pkg/csi/controller/server.go:131-360 | Every event other than those in the next rows, and the handler's credit, leaves drives and records alone |
| `Effects.ReservationIsExact` | pkg/csi/controller/server.go:221-235 | In every run: CreateVolume's write finds the volume not on the drive, appends its reference, adds the claim label, moves the requested bytes (all free ones without a request) from Free to Allocated, and keeps every other field, drive and record as they are when it lands |
| `Effects.GrantIsExact` | pkg/csi/controller/server.go:323-345 | In every run: a grant moves exactly the bytes asked for beyond the recorded size from Free to Allocated of the drive the record named, which has them; total, finalizers, claims, status, cordon and node stay, and so do every other drive and every record |
| `Effects.ResyncIsExact` | pkg/device/sync.go:84-91 | In every run: a resync takes over the total and, if it changed, makes Free what Allocated leaves of it, never below zero; nothing else changes |
| `Effects.GatherIsExact` | pkg/admin/move.go:62-71 | In every run: a Move gathers the volumes of its source's list in order, each unpublished, at its recorded size |
| `Effects.RequiredIsBytes` | pkg/admin/move.go:62-71 | Move's sum over the gathered volumes is the sum of their sizes |
| `Effects.LandingIsExact` | pkg/admin/move.go:43-117 | In every run: a landing brings the whole list of a cordoned source to another drive that is cordoned and Ready, on the same node, of the same tier and with room for all of it; it appends the volumes not there yet in order, moves exactly their bytes from Free to Allocated, sets Moving and keeps everything else |
| `Effects.ResetIsExact` | pkg/admin/move.go:130-133 | In every run: the reset leaves the source its data protection and changes no other field, drive or record |
| `Effects.DriveStepIsExact` | pkg/drive/event.go:254-275 | In every run: initialisation, health report, cordon, Remove, stripping and deletion each change their one field, or make the drive or let it go; only a drive with at most its data protection is marked Removed, only a Removed one is stripped |
| `Effects.ReadyIsExact` | pkg/drive/event.go:341-345 | In every run: the move handler's last write sets Ready and changes nothing else |
| `Effects.RecordIsMadeExactly` | pkg/csi/controller/server.go:184-214 | In every run: a record is made, or made anew, with the ID, FSUUID and node of the drive copy the call settled on, the requested size (all free bytes without a request) and claim, unstaged, unpublished and with both protections; one that was there keeps its deletion mark, and its claim if the request has none |
| `Effects.EditIsExact` | pkg/csi/controller/server.go:274-288 | In every run: protection is taken off only a record that is neither staged nor published; staging, growing, deletion marks and node calls change one field of the current record, growing only a staged and smaller one |
| `Effects.PointingIsExact` | pkg/drive/event.go:286-333 | In every run: the move handler, and staging on its behalf, write label and FSUUID of an unpublished record on the drive's node and nothing else |
| `Effects.PurgeIsExact` | pkg/volume/event.go:175-191 | In every run: the delete handler's last write finds a terminating record with purge protection alone, and only that record goes |
| `Effects.ReservedWhereAllowed` | pkg/csi/controller/utils.go:35-73 | In every run: when a reservation lands, its drive is Ready, not cordoned, not being deleted, has the bytes and does not carry the claim |
| `Removal.SoundStep` | pkg/apis/directpv.min.io/v1beta1/drive.go:145-188 | Every event, Move included, keeps finalizer lists in shape: data protection first and distinct volume references, or empty and Removed |
| `Removal.RemovalSafe` | pkg/admin/remove.go:70-81 | At every point of every run, length minus one counts the drive's volumes, none twice; a Removed drive has none; Remove goes through exactly if the drive has no volumes |
| `Removal.VanishesEmpty` | pkg/drive/event.go:254-275 | The event that makes a drive object vanish finds it Removed and without volumes |
| `Removal.VanishingWrite` | pkg/apis/directpv.min.io/v1beta1/drive.go:150-156 | Only a Removed drive is ever written with an empty finalizer list |
| `Placement.HostingAll` | pkg/csi/controller/server.go:221-239 | After every event, Move included, a drive holds a volume exactly if CreateVolume has just reserved it there or a Move has just landed it there, or it held it before and neither the delete handler has just credited it nor a Move has just reset the drive |
| `Placement.HostingChanges` | pkg/volume/event.go:202-227 | So without Move, exactly if CreateVolume has just reserved it there, or it held it before and the delete handler has not just credited it |
| `Placement.RecordChanges` | pkg/volume/event.go:180-191 | Without Move, a record is relabelled by CreateVolume only and vanishes by the handler's purge only; other writers keep its drive, claim and deletion mark |
| `Placement.PlacedStep` | pkg/csi/controller/server.go:168-239 | Kept by every event: a holder is named by the volume's record, with its node (so there is at most one), CreateVolume's choice stays the only possible holder and still holds what it was read holding unless the call began late, and past the credit nobody holds the volume |
| `Accounting.CoverageStep` | pkg/csi/controller/server.go:318-353 | Kept by every event: recorded, granted and quota sizes of a volume never exceed what was promised for it, the promise exceeds the request only while a drive holds it, and what was promised for a held volume is set aside, also against stale copies in flight |
| `Accounting.CapacityStep` | pkg/csi/controller/server.go:221-239 | Kept by every event: Free and Allocated are non-negative, together at most Total, and Allocated covers the sum set aside for the drive's volumes |
| `Accounting.ReserveBalanced` | pkg/csi/controller/server.go:221-224 | A reservation that fits, for a volume the drive did not hold, keeps the drive's books |
| `Accounting.EnlargeBalanced` | pkg/csi/controller/server.go:333-342 | An expansion that fits keeps the books, whether or not the drive holds the volume |
| `Accounting.ReleaseBalanced` | pkg/volume/event.go:222-223 | Crediting no more than was set aside keeps the books, although Allocated is recomputed from Total |
| `Accounting.ResizeBalanced` | pkg/device/sync.go:84-91 | A resync keeps the books if and only if the reported total is at least Allocated |
| `Claims.ReserveClaims` | pkg/apis/directpv.min.io/v1beta1/drive.go:234-239 | Reserving under a claim the drive is not labelled with keeps labels and volumes in step |
| `Claims.ReleaseClaims` | pkg/volume/event.go:224 | Releasing a volume keeps labels and volumes in step: its label goes, every other volume keeps its own |
| `Claims.ClaimsStep` | pkg/csi/controller/utils.go:69-73 | Kept by every event: labels are exactly the claims of the volumes held, and no claim twice |
| `Books.InOrderRun` | pkg/csi/controller/server.go:131-360 | All of these invariants hold after every disciplined run without Move, with stale reads, conflicts and crashes |
| `Books.CapacityHolds` | pkg/csi/controller/server.go:221-239 | After every such run each drive has 0 <= Free, 0 <= Allocated, Free + Allocated <= Total <= 2^63-1, and Allocated at least the recorded sizes of its volumes |
| `Books.ExpansionCovered` | pkg/csi/node/server.go:224-262 | A held volume's recorded size, whatever the controller granted for it, and the largest quota asked of the filesystem are all within what its drive has set aside for it, which is within Allocated |
| `Books.LimitWithinReservation` | pkg/csi/node/server.go:247-255 | For a held volume with quota up to 2^53 bytes, the block limit written covers the quota and exceeds what the drive has set aside by less than one block |
| `Books.ChargedOnce` | pkg/csi/controller/server.go:168-239 | Over any attempts cut off anywhere, at most one drive holds a volume, and charges exceed credits by one exactly while one does |
| `Books.CreateSucceeds` | pkg/csi/controller/server.go:184-253 | When CreateVolume answers success, the record's label, FSUUID and node are those of the drive it settled on, its size and claim those of the request, no other drive holds the volume, and that drive does, unless the call found it reserved and had begun late; finding it reserved changes no drive |
| `Success.SuccessIsRightExactly` | pkg/csi/controller/server.go:194-239 | From any point of any run, a creation that starts there can end in success with the volume on no drive if and only if the record is being deleted and a drive still holds the volume |
| `Mishap.SuccessWithoutDrive` | pkg/csi/controller/server.go:194-239 | A run within all hypotheses that ends this way |
| `Grants.GrantIsSafeExactly` | pkg/csi/controller/server.go:318-353 | From any point of any run without Move at which an expansion may be granted: once it is, some continuation within all hypotheses ends with the volume on a drive and more bytes recorded than are set aside for it if and only if the grant exceeds the requested size and is for a record that stands and whose volume no drive holds |
| `Mishap.ExpansionBeforeReservation` | pkg/csi/controller/server.go:318-353 | A run within all hypotheses up to such a grant, with a continuation in which the volume outgrows its drive |
| `Books.ChargeIsExact` | pkg/csi/controller/server.go:221-235 | A reservation happens only when no drive holds the volume, moves exactly the requested bytes from Free to Allocated of one drive and touches no other |
| `Release.CreditIsExact` | pkg/volume/event.go:202-227 | In every run, Move included, a credit finds the volume on the drive its record names, cuts it and nothing else out of the list there, takes off its claim label, returns the recorded size to Free, leaves Free + Allocated equal to Total, and touches no other field, no other drive and no record |
| `Release.CreditedOncePerArrival` | pkg/volume/event.go:202-227 | From any point of any run, Move included: each time a volume comes to a drive it is credited there, or moved away, exactly once, unless it is still there; so between two arrivals there is at most one credit |
| `Release.OnlyPurgeVanishes` | pkg/volume/event.go:180-191 | In every run of all actors, a volume record vanishes by the delete handler's last write only |
| `Release.PurgeExactly` | pkg/volume/event.go:175-191 | In every run, Move included: when a record is about to vanish, the drive its label names holds the volume if and only if some event put it there after the handler read that drive and it has stayed |
| `Release.PurgeLeavesExactly` | pkg/volume/event.go:175-191 | In every run, Move included: the vanishing record leaves a drive holding the volume if and only if the last event that put it there or took it off put it there |
| `Release.ReleaseClearsExactly` | pkg/volume/event.go:113-227 | If nothing puts the volume on a drive and no Move clears one of its holders while a release is under way, the vanishing record leaves no drive holding the volume if and only if, when the release began, no drive but the one the record names held it |
| `Mishap.ReleaseMissesDestination` | pkg/volume/event.go:202-227 | A run within all hypotheses and with one Move, in which the record vanishes while the Moving destination holds the volume |
| `Mishap.OrphanBlocks` | pkg/drive/event.go:277-283 | From there the destination's handler can do nothing but stop |
| `Mishap.ReleaseOvertakenByMove` | pkg/volume/event.go:175-191 | A run within all hypotheses and with two Moves, in which the record vanishes while the drive its label names holds the volume |
| `Books.ClaimExclusive` | pkg/apis/directpv.min.io/v1beta1/drive.go:226-247 | After every run without Move a drive carries a claim's label exactly if it holds a volume with that claim, and never holds two |
| `Placement.TakeInHosts` | pkg/admin/move.go:105-110 | After Move's loop the destination holds its own volumes and every gathered one, and nothing else |
| `MoveSafety.TakeInConserves` | pkg/admin/move.go:105-110 | The loop keeps Free + Allocated and takes at most the required capacity from Free, also when some volumes were already there |
| `MoveSafety.ResetSpares` | pkg/admin/move.go:130-133 | Resetting a source never takes a standing volume off the drive it was last put on, however Moves interleave |
| `MoveSafety.KeptRun` | pkg/admin/move.go:37-138 | Shapes, non-negative free bytes and a standing holder for every placed volume hold after every disciplined run with any number of concurrent Moves |
| `MoveSafety.NeverDropped` | pkg/admin/move.go:55-137 | A volume some drive holds and that was never released is on some drive at every later point of every run, aborted or interleaved Moves included, until it is released |
| `MoveSafety.NeverDroppedSinceReserved` | pkg/admin/move.go:55-137 | The same from a volume's reservation on, whatever happened to earlier volumes of that name |
| `MoveSafety.SourceOrDestination` | pkg/admin/move.go:37-138 | From the start of a Move on, aborted or not, each volume its source held is on the source until the Move lands and on the destination from then on, unless it is released or another Move resets one of the two drives |
| `MoveSafety.LandingTakesAll` | pkg/admin/move.go:99-117 | When a Move lands, the destination, which is not the source, holds all the source copy held and all it held itself, has Free >= 0 and an unchanged Free + Allocated |
| `MoveSafety.StaysOn` | pkg/admin/move.go:55-137 | A volume stays on a drive through any run that neither credits it there nor resets that drive, so before landing on the source and afterwards on the destination |
| `MoveSafety.FreeNeverNegative` | pkg/admin/move.go:99-110 | In every disciplined run, Move included, no drive has negative free bytes |
| `Limits.ReportKeepsShape` | pkg/device/sync.go:187-191 | A health report keeps the finalizer list in shape if and only if the list has not been stripped |
| `Limits.StrippedDriveHidesVolume` | pkg/apis/directpv.min.io/v1beta1/drive.go:125-127 | A stripped drive reported Ready takes a volume and then counts none, so it can be removed with the volume on it |
| `Limits.RetryKeepsAllocated` | pkg/csi/controller/server.go:179-214 | A retry that rewrites the record of a held volume keeps Allocated above the drive's recorded sizes if and only if the growth it writes is spare in Allocated |
| `Limits.UnsizedRetryHarmless` | pkg/csi/controller/server.go:179-182 | When all of Allocated is recorded, a retried request without a size keeps it so if and only if the drive it found the volume on had no more bytes free than the volume has recorded |
| `Mishap.UnsizedRetryOvercommits` | pkg/csi/controller/server.go:179-182 | A run in which a retried request without a size succeeds and leaves a volume recorded at 150 bytes on a drive with 100 allocated |
| `Mishap.RemovedWithVolume` | pkg/device/sync.go:186-191 | A run of eleven events from the empty cluster, with a Lost and a Ready report between the removal handler's two writes, after which a Removed drive holds a volume |
| `Limits.LandingShortfall` | pkg/admin/move.go:105-110 | After landing, what the destination lacks is exactly what had been set aside for the arrivals beyond their recorded sizes |
| `Limits.LandingBalanced` | pkg/admin/move.go:99-110 | A landing keeps the destination's books if and only if its slack covers those pending expansions |
| `Mishap.MoveForgetsGrant` | pkg/admin/move.go:99-110 | A run within all hypotheses: an expansion to 200 bytes is granted, a Move carries the volume over at its recorded 10, the node grows it to 200; the destination then has 10 allocated and 200 recorded |
| `Objects.WellFormedCount` | pkg/apis/directpv.min.io/v1beta1/drive.go:125-142 | On a list in shape the volume names are distinct, in the order of the list, and length minus one counts them |
| `Objects.CommittedDrop` | pkg/apis/directpv.min.io/v1beta1/drive.go:172-188 | Dropping a reference takes exactly that volume's share out of what the drive has promised |
| `Edits.DriveObject.VolumeExist` | pkg/apis/directpv.min.io/v1beta1/drive.go:130-132 | Answers whether the drive holds the volume |
| `Edits.DriveObject.GetVolumes` | pkg/apis/directpv.min.io/v1beta1/drive.go:135-142 | Lists in order exactly the volumes the drive holds |
| `Edits.DriveObject.ResetFinalizers` | pkg/apis/directpv.min.io/v1beta1/drive.go:145-147 | Leaves a well-formed list without volumes and the rest of the drive alone |
| `Edits.DriveObject.RemoveFinalizers` | pkg/apis/directpv.min.io/v1beta1/drive.go:150-156 | Empties the list exactly if data protection alone is left, and says so |
| `Edits.DriveObject.AddVolumeFinalizer` | pkg/apis/directpv.min.io/v1beta1/drive.go:159-169 | Adds the reference unless it is there, and reports which |
| `Edits.DriveObject.RemoveVolumeFinalizer` | pkg/apis/directpv.min.io/v1beta1/drive.go:172-188 | Drops every occurrence of the reference, cuts it out of a list that has it once, and reports whether the drive held the volume |
| `Edits.DriveObject.ReserveFor` | pkg/csi/controller/server.go:221-239 | Appends the finalizer, adds the claim label and moves the size from Free to Allocated together, or changes nothing exactly when the drive already holds the volume |
| `Edits.DriveObject.ExpandBy` | pkg/csi/controller/server.go:333-342 | Moves exactly the extra bytes from Free to Allocated and touches no other field, or refuses without a change exactly when they are not free |
| `Edits.DriveObject.ReleaseVolume` | pkg/volume/event.go:202-228 | Cuts out the finalizer, takes off the label, returns the size to Free and recomputes Allocated from Total together, or changes nothing exactly when the drive does not hold the volume |
| `Edits.DriveObject.SyncCapacity` | pkg/device/sync.go:84-91 | Takes over the device's total and makes Free what Allocated leaves of it, never below zero; an equal total changes nothing |
| `Edits.DriveObject.TakeVolumes` | pkg/admin/move.go:105-111 | The loop appends the volumes not there yet in order, moves exactly their bytes from Free to Allocated and sets Moving, which is the landing of the run theorems |
| `Edits.RequiredCapacity` | pkg/admin/move.go:60-71 | The loop computes the sum of the recorded sizes |
| `Edits.VolumeObject.RemoveFinalizer` | pkg/apis/directpv.min.io/v1beta1/volume.go:163-174 | Keeps every finalizer but the given one, in order |
| `MoveHandler.Store.Pass` | pkg/drive/event.go:277-346 | A pass of the handler left alone points only listed volumes at the drive and changes no other record; the drive turns Ready, from the copy and only if that is current, exactly when the pass says so, and then every listed volume names it in label and FSUUID; a pass that ends on a record conflict leaves strictly fewer strays; with nothing but staging in the way it ends in one of these or on a changed drive; it points only unpublished records on its node, and each other way it ends has its reason in a record |
| `MoveHandler.Store.MoveAll` | pkg/drive/event.go:277-357 | With nothing but staging in the way, whatever staging does in each pass, n stray volumes need at most n + 1 passes, and then the drive is Ready and every volume it lists names it |
| `Handover.AgreedRun` | pkg/drive/event.go:303-307 | In every run of all actors, label and FSUUID of every record name the same drive |
| `Handover.PointsAfter` | pkg/drive/event.go:303-333 | For every event of every actor: a record names a drive afterwards if and only if the event labels it so, or it did and the event neither labels nor removes it |
| `Handover.MovingToReady` | pkg/drive/event.go:341-345 | A Moving drive is turned Ready by its handler's last write and by no other actor |
| `Handover.ReadyExactly` | pkg/drive/event.go:277-346 | In every run, all other writers in between, the handler turns the drive Ready with every listed record naming it if and only if no listed volume was, after the handler passed it, last labelled for another drive or removed |
| `Handover.ReadyOnlyWhenPointed` | pkg/drive/event.go:277-346 | In every run in which nobody diverts a volume the handler is past, the drive turns Ready only when every listed volume's label and FSUUID name it |
| `Handover.DiverterIsKnown` | pkg/csi/controller/server.go:199-214 | Only a creation that had settled on another drive, the handler of another drive read holding the volume, or the delete handler's last write can divert it |
| `Handover.ReadyWhenAlone` | pkg/drive/event.go:277-346 | In every run: if, when the handler starts, only this drive holds the volumes on its list, every creation of one that is under way has settled on it or has yet to find it there, no release has got past it, no other handler (or cached Moving copy another may start from) lists one, and no Move lands one elsewhere before it is through, then it turns the drive Ready only with every volume the drive holds pointing at it |
| `Mishap.RetryBehindHandler` | pkg/csi/controller/server.go:199-214 | A run within all hypotheses and with one Move, in which a retried CreateVolume labels the record back and the drive may turn Ready with it |
| `Mishap.ReadyAroundHandler` | pkg/device/sync.go:123-126 | A run within all hypotheses in which a Moving drive is reported Lost and then Ready while its listed volume's record names the source |
| `Health.LatestAfterSets` | pkg/apis/directpv.min.io/v1beta1/drive.go:292-330 | After any sequence of sets under a strictly increasing clock, conditions are unique per type and the query answers the type set last |
| `Health.LatestExactly` | pkg/apis/directpv.min.io/v1beta1/drive.go:314-330 | For any times: the query answers the error set last if and only if every other error is older, or as old and listed behind it |
| `Health.TieForgetsLastError` | pkg/apis/directpv.min.io/v1beta1/drive.go:314-330 | An I/O error set in the same second as an earlier mount error is not the latest error |
| `Health.IOErrorSickens` | pkg/drive/event.go:51-65 | Reporting an I/O error makes it the latest error |
| `Health.SickRun` | pkg/device/sync.go:99-173 | A drive in I/O error stays so through a run of syncs exactly if none sees a missing device, several devices or a failing mount; otherwise it is curable from then on |
| `Health.IOErrorSticks` | pkg/device/sync.go:99-173 | Over any run of single-device syncs with working mounts, whatever relabelling does, such a drive never becomes Ready |
| `Health.ReadyAgainExactly` | pkg/device/sync.go:175-253 | A clean sync after any run finds it Ready if and only if the run had a disturbing sync |
| `Health.HealthObject.SetErrorCondition` | pkg/apis/directpv.min.io/v1beta1/drive.go:292-311 | Replaces the condition of the type in place, or appends it |
| `Health.HealthObject.GetLatestErrorConditionType` | pkg/apis/directpv.min.io/v1beta1/drive.go:314-330 | Finds the first of the youngest error conditions |
| `Health.HealthObject.VerifyDrive` | pkg/device/sync.go:99-173 | Decides status, conditions and relabel flag of a drive whose device is there, by the mount, the status, the latest error and the relabelling, as spelled out case by case; changes nothing when it reports nothing to write |
| `Health.HealthObject.UpdateDrive` | pkg/device/sync.go:175-253 | Without a device the drive is Lost; with several it is in Error with the multiple-match error set now; with one it is verified; the state the run theorems use |
| `Health.SyncComes` | pkg/device/sync.go:99-253 | Case by case, from the inputs alone, what a sync makes of status, conditions and relabel flag: Lost without a device, Error with several or a failing mount, untouched when Removed or Repairing; a working mount keeps Moving and unsettled errors, and the relabel flag goes exactly when the link is there |
| `Health.ReadyAfterSyncExactly` | pkg/device/sync.go:99-253 | A sync leaves the drive Ready if and only if one device is there and mounts, the drive was Ready, Lost, or in Error with a latest error that a mount settles, and no relabelling fails that an I/O error does not excuse |
| `Locks.InvRun` | pkg/controller/controller.go:185-218 | In every interleaving of any number of workers, each key keeps its mutex and each mutex is owned by the worker that is between locking and unlocking it |
| `Locks.MutualExclusion` | pkg/controller/controller.go:203-218 | At most one worker handles a key at any time |
| `Locks.MutexPermanent` | pkg/controller/controller.go:185-193 | A key's mutex is created once and never replaced |
| `Locks.UnlocksItsOwn` | pkg/controller/controller.go:199-201 | An unlock, which looks the mutex up again, releases the one its worker locked and nobody else's |
| `Locks.NoWaitingCycle` | pkg/controller/controller.go:195-218 | No chain of workers waiting for each other closes |
| `Locks.NoDeadlock` | pkg/controller/controller.go:195-218 | Whenever some worker has an event, some worker can go on with its own |
| `Locks.Locker.GetLock` | pkg/controller/controller.go:185-193 | Run by a worker inside the locker mutex, the method is the look-up of the state machine: the mutex it returns is the one the worker waits for, and on the way out the one it has locked |
| `Mounts.ParseMount` | pkg/sys/mount_linux.go:35-70 | A line is read as an entry exactly if it is that entry written out in the order of mountinfo; lines of fewer than eight fields are skipped; says exactly which lines are read past their end |
| `Mounts.ParsedExactly` | pkg/sys/mount_linux.go:35-70 | Round trip: mount ID, parent ID, device, root, mount point, options, optional fields, dash, filesystem type, source and super options are parsed back as the entry they were written from, and nothing else is parsed as it |
| `Mounts.AppendIndex` | pkg/sys/mount_linux.go:110-114 | Appending a new key keeps an index exact: every value lists, without repeats, just the keys that have it |
| `Mounts.ExtendIsDedup` | pkg/sys/mount_linux.go:100-115 | Without hash collisions the table holds the entry of every mount line, once, and nothing else |
| `Mounts.ExtendTwice` | pkg/sys/mount_linux.go:120-152 | Two passes into one table are one pass over both inputs |
| `Mounts.ChainIsConjunction` | pkg/sys/mount.go:103-120 | A chain of filters keeps exactly the entries that satisfy every one of them |
| `Mounts.ChainOrderIrrelevant` | pkg/sys/mount.go:103-120 | The order of the filters does not matter |
| `Mounts.MountInfo.ParseMountInfo` | pkg/sys/mount_linux.go:72-118 | Extends the table by the lines and keeps all four indexes exact |
| `Mounts.MountInfo.FilterKeys` | pkg/sys/mount.go:76-100 | A fresh table of exactly the listed entries, again with exact indexes |
| `Mounts.MountInfo.FilterBy` | pkg/sys/mount.go:103-120 | An index look-up answers what a scan of the table for the mount point, source, device or root would |
| `Mounts.MountInfo.FilterByAll` | pkg/sys/mount.go:103-120 | Any chain of look-ups answers what one scan for all the equalities would |
| `Mounts.ReadAndFilter` | pkg/sys/mount_linux.go:120-152 | From raw lines in two passes through any chain of filters: the result is the entries of the mount lines that pass all of them |
| `Mounts.StageVolumeMount` | pkg/drive/event.go:67-83 | Bind-mounts exactly if no mount of the volume's directory on the path is listed |
| `Mounts.StagingIdempotent` | pkg/drive/event.go:67-83 | Any number of stage calls for one volume and path, some failing, adds at most one mount, and none if one was there |
| `Listers.Lister.CrossOff` | pkg/client/drive_lister.go:147-156 | Removes the name from the requested ones and says whether it was there |
| `Listers.Lister.List` | pkg/client/drive_lister.go:100-191 | For drives and, with the same loops, volumes: for every paging of a fixed store the stream is free of duplicates and is the selected items passing the status filter together with the requested names, or just the latter when only names are given; it fails exactly if a requested name is missing and that is not ignored |
| `Listers.Lister.FetchRest` | pkg/client/volume_lister.go:199-212 | The names not met in the pages are fetched one by one, each once |
| `Selection.CheckDrive` | pkg/csi/controller/utils.go:35-104 | Decides the match rules, each spelled out: status, cordon, deletion, free bytes, tier, claim, labels, and preferred or requisite topologies; a refusal has a rule that fails |
| `Selection.MatchAdmits` | pkg/csi/controller/utils.go:35-73 | A drive that matches is one the run theorems may assume was admitted |
| `Selection.GetFilteredDrives` | pkg/csi/controller/utils.go:106-125 | The first drive in the list that already holds the volume, alone, or else every match |
| `Selection.SelectDrive` | pkg/csi/controller/utils.go:127-173 | The choice is the first drive that holds the volume, or else matches with no match having more free bytes; it fails exactly without candidates, and crashes exactly when that holder, or else every match, has less than -1 free |
| `Selection.PickIsSelection` | pkg/csi/controller/utils.go:127-173 | The run model lets CreateVolume pick a listed drive exactly if it matches, no match has more free bytes, and it has at least -1 |
| `Quota.LimitCovers` | pkg/xfs/quota_linux.go:160-161 | Up to 2^53 bytes the limit in blocks of 512 bytes covers the request by less than one block and is the smallest that does |
| `Quota.LimitCoversExactly` | pkg/xfs/quota_linux.go:160-161 | For every size: it covers the request if and only if the rounded float stays above the last whole block before it |
| `Quota.FloatNearest` | pkg/xfs/quota_linux.go:160-161 | The float of a size is a nearest multiple of the spacing there, the even one of two equally near |
| `Quota.LimitFallsShort` | pkg/xfs/quota_linux.go:160-161 | One byte past 2^53 it does not |
| `Quota.ReadBack` | pkg/xfs/quota_linux.go:119-123 | Up to 2^53 bytes, reading the limit back gives the request if and only if it is a whole number of blocks |
| `Quota.LimitMonotone` | pkg/xfs/quota_linux.go:160-161 | Up to 2^53 bytes, a larger request never gets a smaller limit |
| `Alpha.Alpha2Int` | pkg/ellipsis/ellipsis.go:28-35 | Computes the letters' bijective base-26 value modulo 2^64, so the value itself when it fits |
| `Alpha.Int2Alpha` | pkg/ellipsis/ellipsis.go:37-53 | Prints the letters of every 64-bit number, with the wrap-around at zero |
| `Alpha.NumberRoundTrip` | pkg/ellipsis/ellipsis.go:28-53 | Every number from 1 to 2^64-1 survives int2alpha and alpha2int |
| `Alpha.TextRoundTrip` | pkg/ellipsis/ellipsis.go:28-53 | Every non-empty text whose value fits 64 bits survives alpha2int and int2alpha |
| `Alpha.ThirteenLettersFit` | pkg/ellipsis/ellipsis.go:28-35 | Thirteen letters always fit |
| `Alpha.LettersCount` | pkg/ellipsis/ellipsis.go:28-35 | Letters count from a = 1 to z = 26 in the order of the alphabet, with 26 times the weight for each place to the left, so aa = 27 follows z |
| `Ellipsis.ProductAt` | pkg/ellipsis/ellipsis.go:73-107 | The product has as many texts as the widths multiply to, and its i-th text is i read as digits in the mixed radix of the widths: odometer order, last ellipsis fastest |
| `Ellipsis.GetSpec` | pkg/ellipsis/ellipsis.go:73-96 | With finite ranges, one get prints the first of what remains and leaves the rest; with nothing left it answers the empty string |
| `Ellipsis.FreshRemaining` | pkg/ellipsis/ellipsis.go:69-96 | From reset counters what remains is the whole product |
| `Ellipsis.EndlessExactly` | pkg/ellipsis/ellipsis.go:73-107 | With the 64-bit counters that wrap: from reset counters n calls give n non-empty texts for every n, and the loop is never left, if and only if some range ends at 2^64-1 |
| `Ellipsis.EndlessPrints` | pkg/ellipsis/ellipsis.go:73-107 | A single range that ends at 2^64-1 prints the numbers up to there and then goes on from zero, through numbers below its start |
| `Ellipsis.FinitePrints` | pkg/ellipsis/ellipsis.go:98-107 | With finite ranges n turns of the loop print the first n of what remains, and the loop is left exactly when n exceeds their number |
| `Odometer.Node.Get` | pkg/ellipsis/ellipsis.go:73-96 | The linked objects, with counters that wrap, answer and move as the odometer does |
| `Odometer.Node.Expand` | pkg/ellipsis/ellipsis.go:98-107 | Any number of turns of the loop print what the odometer prints in as many calls, and the loop is left exactly when it is |
| `Odometer.ParseEllipsis` | pkg/ellipsis/ellipsis.go:109-154 | Makes an ellipsis exactly for a well-formed body, smaller end first, reading letters with alpha2int |
| `Odometer.GetEllipses` | pkg/ellipsis/ellipsis.go:156-185 | One ellipsis per pair of braces at its place in the argument, or a rejection exactly for arguments without a meaning |
| `Odometer.Link` | pkg/ellipsis/ellipsis.go:198-208 | Every ellipsis gets the text before it, the last one also the text behind, and they are linked in order |
| `Odometer.Expand` | pkg/ellipsis/ellipsis.go:188-211 | Given any number of turns: an argument without a meaning is refused; one that is itself is answered with itself; for finite ranges what is printed is literal, numeral, literal, numeral and so on and the tail, the numerals being those of the mixed-radix digits of its index, in order and all of them once there are more turns than texts; an endless one prints a text every turn |
| `Patterns.ReadingExactly` | pkg/ellipsis/ellipsis.go:156-185 | An argument is cut into segments and a tail if and only if it is these written one behind the other with well-placed braces, so no character is lost |
| `Patterns.BodyRoundTrip` | pkg/ellipsis/ellipsis.go:109-154 | A range written with its own numerals, decimal or letters, is read back as that range |
| `Patterns.BodyExactly` | pkg/ellipsis/ellipsis.go:109-154 | A body stands for a range exactly if the texts before the first `...` and from there up to the second, or to the end, are both decimal numbers of the word or both letters; it runs from the smaller to the larger |
| `Patterns.WrittenExpands` | pkg/ellipsis/ellipsis.go:156-211 | Any literal texts and ranges written out as a pattern expand to as many texts as the widths multiply to, and the i-th is literal, numeral, literal, numeral and so on and then the tail, the numerals being those of the mixed-radix digits of i |

## Left out

- `Odometer.Expand`: takes the number of turns its loop may make, because the source's loop need not end; the length of the result is not bounded by memory.
- `Odometer.ParseEllipsis`: the library's splitting at dots and reading of decimal digits are functions, not loops.
- `Mounts.ParseMount`: mount options and super options are not kept, because no filter reads them; a last line without a newline, which the source drops, is not a line here.
- `MoveHandler.Store.Pass`: no other writer acts between its steps; `Handover` has the same handler among all other actors.
- `Quota.ReadBack`: sizes above 2^53 bytes, where the float may round the request itself, are covered by `Quota.LimitCoversExactly` only.
- `Quota.LimitMonotone`: sizes above 2^53 bytes are left out in the same way.
- `Handover.MovingToReady`: the repair command, which writes Ready over any status, is not an actor of the run model.
- Filesystem effects (mkfs, mount, unmount, rename of the data directory, symlinks, xfs_repair) appear as outcomes only; a quota that stays behind because its removal failed is not followed up.
- The administrator's volume clean, forced uninstall and drive repair flows, which bypass the one-call rule or the finalizer rules.
- Names, drive IDs, nodes and access tiers are compared only, so they are numbers; finalizer strings are constructors, and claim IDs are the only labels in the run model. Parsing of access tiers and claim IDs in requests is not modelled.
- Kubernetes' work queues, channels, paging tokens and contexts: replaced by free interleaving and an arbitrary cut into pages. Of the informer caches only the drive controller's, from which the move handler starts, is modelled; that a volume is marked for deletion, which its handler learns from a cached copy before it reads the record, is taken from the store.
- The node and init-request listers, whose name test runs on the shrinking list, so that the set property does not carry over.
- Command line, installer, converters, legacy servers, metrics, events and logging: they keep no state that the properties above depend on.
