# MaxIO: a model and its properties

MaxIO is an object store: bucket, object and reference metadata replicated through Raft, content-addressed
blobs with reference counts, erasure-coded shards on storage nodes, and an S3 front end. This project models
the parts where several operations have to work together, and proves what they promise together.

`dafny verify dfyconfig.toml` checks everything.

## What is modelled

**Writes, deletes and what is left when they stop.** `Protocol` is PutObject and DeleteObject as machines that
make one external operation per step (stage, look for a reference, write shards, advance the intent, link the
layout, retain, commit, unstage, release, and the rollback), over a world of Raft metadata, layouts and shard
sets. Any operation can fail, and a request that stops takes no further step. On top of it:

- `Conservation`: the reference-count equation for every interleaving of requests on distinct keys.
- `Recovery`, `Healing`, `Guarantees`: Recover and the orphan collection as functions; any run stopped anywhere
  followed by Recover and Dedupe; a single request as an atomic update; failed puts that undo themselves.
- `SharedSets`, `Exclusive`: which steps of which interleavings cost a reference its shard set, and that requests
  which share no content never do.
- `Overwrites`: the overwrites after which a stop leaves a layout that nothing puts right.
- `Phases`, `Failures`: runs, step by step from a healthy store, in which something is lost.
- `Reconcile`: Dedupe as a rewriting system of four fixes with a falling measure.
- `Solo`, `Crash`, `Requests`, `Faultless`, `Keys`: the invariants behind these, refinement of a plain map from
  (bucket, key) to bytes, and the exact keys for which it holds.
- `ObjectStore`, `Maintenance`, `Dedupe`, `Restart`: the store itself, imperatively, with the source's control flow.
  Each handler is proved to follow the steps of its task, so the theorems above hold of the methods.
- `StateMachine`: the Raft state machine as a class over the command functions of `Metadata`.

**MD5 and multipart uploads.** `Rfc1321` states sections 3.1 to 3.5 of RFC 1321 as they stand there;
`StreamingMd5` is the store's digest with its buffer, and is proved equal to it for every message in every
chunking. Both are written over a record of word operations: the streaming, padding and scheduling arguments do
not look at the words, and one lemma shows that the store's operations on 32-bit words are the standard's.
`Multipart` takes the hash as a parameter and is opened with that MD5.

**Erasure coding and shards.** `Erasure`, `Repair`, `Rebalance`, `NodePlacement`.

**Listings.** `Listing` (ListObjectsV2 over sorted object listings) and `Paging` (parts and uploads).

**Membership and layouts on disk.** `Membership` is the replica sync; `LayoutCache` is the layout lookup with its
cache, home file and directory walk.

## What is assumed

- SHA-256 does not collide and digests are not blank (`CollisionFree`, `Usable`). Nothing is assumed of checksum
  lists: different contents can have the same (`Erasure.SameShardsIff`, `Overwrites.ChecksumsIff`). The layout id
  does not collide (`LayoutCache.Sound`).
- The Reed-Solomon library: parity shards have the size of data shards, and any k shards of a codeword determine
  the rest (`Erasure.Sound`).
- Continuation tokens decode to what was encoded. Clocks, placement plans, the order of directory walks and the
  outcomes of external operations are parameters; upload ids are parameters.
- A metadata command that fails changes nothing, and a write or deletion of one layout file or part is atomic;
  writing a shard set is not, it can stop halfway. Over a whole set of the same content it then leaves that set
  whole, as the same bytes went into the same files; one shard cut short is a shard the decoder can miss.
- `char` stands for a byte in names; their order is the byte order. White space is the six ASCII characters. White
  space of several bytes at the ends of names is not modelled, nor is the lower-casing of letters outside ASCII or
  the replacement of a character cut in half in a shard directory.
- Paths are taken apart at slashes and cleaned as filepath.Join does it, below a root that is not the file system's.
  Names in different spelling are different folders.
- The modules other than `LayoutCache` take layouts as the map the cache holds, also after a stop. The store's own
  histories can leave `LayoutCache`'s condition: a put over an object, of content stored under another key's shard
  directory, links a second folder without a removal. What a dropped cache changes then is said there.

## What the source does not do

The model follows the code. Where a promise does not hold there is a lemma with the case and one with the exact
condition.

- **Keys whose second character is white space.** New shards are written under the untrimmed first two characters
  of the key, but linked, deleted and collected under the trimmed ones. "a b" with new content is stored
  and cannot be read (`Keys.SpacedKeyUnreadable`; exactly when: `Keys.PutReadsBackIff`).
- **Keys with a slash among the first two characters.** The shards of "a/b" lie in the folder "a", but references
  and staged entries call their directory "a/". The sweep of Recover compares the folder's name, finds no one who
  names it, and deletes the set of a committed object (`Keys.SlashKeyLost`). It spares exactly the sets whose
  directory is the name of its folder or leads to no folder right below the root
  (`Recovery.RecoverKeepsReferencedSetIff`; for keys: `Names.ShardDirSheltered`, `Keys.PutThenRecoverIff`).
- **A layout can be lost.** A rollback of an overwrite deletes the layout and links the previous one later. A stop in
  between, with an intent that does not yet say layout_linked, or with the entry already deleted, leaves a
  committed object without a layout, and nothing is left to rebuild it from (`Guarantees.LayoutCanBeLost`;
  exactly when the store does not heal: `Guarantees.StopIsAtomic`).
- **A stop can leave the wrong layout for good.** Shards are filled up with zeros and Dedupe compares neither hash nor
  size, so when an overwrite's shards look like the old ones it does not see that the layout still names the new
  content. Append a zero byte to an object, stop after the layout is linked and before the intent says so: Recover
  only forgets the entry and sweeps the new shards, Dedupe has nothing to fix, and the committed object cannot be
  read (`Overwrites.OverwriteMisleads`, `Overwrites.ZeroByteMisleads`; exactly which stops: `Overwrites.MisledIff`;
  exactly which contents: `Overwrites.ChecksumsIff`; that it stays so: `Healing.StopRecoverDedupe`).
- **A reference can be released twice.** If only the deletion of the staged entry fails during a rollback, the
  reference is given back, and Recover later gives it back again, from under a committed object
  (`Failures.ReferenceReleasedTwice`; exactly when counts stay above the users: `Recovery.RecoverKeepsUsersIff`).
- **Recover can remove a shard set a fresh put relies on,** when expired entries take the last count of its
  reference (`Failures.FreshPutLosesSet`; exactly when: `Recovery.RecoverKeepsSetIff`).
- **Interleaved puts of one new content can lose its shards.** Each put of a content without a reference writes the
  set and counts it as its own; the rollback of one deletes the set that another has just committed
  (`Failures.SharedSetLost`; exactly which steps: `SharedSets.StepKeepsSetsIff`, `SharedSets.RunKeepsSetsIff`). If no
  content is put, replaced or deleted by two requests in flight at once, only a rollback that cannot give back the
  reference it created, and deletes the set it wrote all the same, takes one away (`Exclusive.ApartKeepsSetsIff`).
- **Dedupe cannot rebuild every reference.** It takes a missing reference's extent from the first object of the hash
  only, which may be gone (`Failures.NothingToRebuildFrom`; exactly when it succeeds: `Reconcile.TerminalBalancedIff`).
- **Layouts after a restart.** Linking an object in a second directory without deleting it first leaves the older
  layout file behind; it comes back after a restart, and after a deletion (`LayoutCache.OlderLayoutReturns`; exactly
  when not: `LayoutCache.RestartKeepsIff`, `LayoutCache.RemoveClearsIff`).
- **Joined keys** are ambiguous exactly when a bucket name holds the separator (`Names.JoinKeyClashIff`).
- **Common prefixes** can be listed again on a later page (`Listing.PrefixCanRepeat`; exactly when:
  `Listing.PrefixesOnceIff`).

## Model

| member | source | states |
|---|---|---|
| `Names.BlankIff` | internal/raft/state_machine_codec.go:72-74 | a name is refused exactly when trimming leaves nothing of it |
| `Names.TrimFixes` | internal/engine/engine.go:161-169 | trimming is idempotent and fixes exactly the names without white space at their ends |
| `Names.ShardDirTrimmed` | internal/engine/layout.go:46-51 | the shard directory of a key survives the trimming that linking, deletion and orphan collection apply, exactly when the key's second character is not white space |
| `Names.ShelteredIff` | internal/engine/orphan.go:76-114 | of the shard directories of keys, exactly those with one slash next to a character that is neither slash nor dot lead to a folder that the sweep lists under another name |
| `Names.ShardDirSheltered` | internal/engine/backend.go:46-52 | so a key is in danger exactly when one of its first two characters is a slash and the other is neither slash nor dot |
| `Names.ListableLeadsHome` | internal/engine/orphan.go:76-114 | a name found by listing the root leads to the folder it names |
| `Names.JoinKeyInjective` | internal/raft/state_machine_codec.go:80-82 | a joined key determines bucket and key when no bucket holds the separator |
| `Names.JoinKeyClashIff` | internal/engine/layout.go:37-39 | a bucket can clash with a bucket free of the separator exactly when its own name holds it |
| `Metadata.ApplyKeepsValid` | internal/raft/state_machine_commands.go:10-208 | every command keeps: entries under their own keys, in existing buckets, in the right state, refs with counts of at least one; a command that reports an error changes nothing |
| `Metadata.ReplayValid` | internal/raft/state_machine.go:149-164 | so every command sequence does |
| `Metadata.SnapshotPlusSuffix` | internal/raft/state_machine.go:166-207 | a snapshot after any prefix and the rest of the log give what the whole log gives |
| `Metadata.IncreaseCounts` | internal/raft/state_machine_blob.go:9-60 | creating (on an existing hash too) or increasing adds one count to one hash and nothing else |
| `Metadata.DecreaseCounts` | internal/raft/state_machine_blob.go:75-90 | a decrease takes one count from one hash; the ref goes, and its path is reported, exactly with the last count |
| `StateMachine.ListingUnique` | internal/raft/state_machine_commands.go:221-233 | there is only one sorted complete listing, so all replicas answer alike whatever order their maps iterate in |
| `StateMachine.List` | internal/raft/state_machine_staged.go:19-34 | filtering and sorting a map gives that listing: strictly sorted, every match once, nothing else |
| `StateMachine.DropBucketEntries` | internal/raft/state_machine_commands.go:137-158 | the deletion loops of deleteBucket remove exactly the bucket's entries |
| `StateMachine.Machine.Update` | internal/raft/state_machine.go:149-164 | the in-place update equals the command function, keeps validity, and a closed machine refuses |
| `StateMachine.Machine.CreateBucketEntry` | internal/raft/state_machine_commands.go:120-135 | the new state and answer, error cases included |
| `StateMachine.Machine.DeleteBucketEntry` | internal/raft/state_machine_commands.go:137-158 | the bucket and all its committed and staged entries go, references stay |
| `StateMachine.Machine.PutEntry` | internal/raft/state_machine_commands.go:160-182 | an entry is stored under its own key in the right state, or refused and nothing changes |
| `StateMachine.Machine.DeleteEntry` | internal/raft/state_machine_commands.go:184-208 | exactly the named entry goes, or nothing changes |
| `StateMachine.Machine.CreateRef` | internal/raft/state_machine_blob.go:9-35 | a new reference with one count, or one more count for an existing one |
| `StateMachine.Machine.SetPlacements` | internal/raft/state_machine_blob.go:62-73 | only the placements of one reference change |
| `StateMachine.Machine.IncreaseRef` | internal/raft/state_machine_blob.go:49-60 | one more count, or an error for an unknown hash |
| `StateMachine.Machine.DecreaseRef` | internal/raft/state_machine_blob.go:75-90 | one count less, the last one removes the reference |
| `StateMachine.Machine.ListObjects` | internal/raft/state_machine_commands.go:96-101 | the strictly sorted, complete listing of a bucket, or bucket-not-found, or bad request when closed |
| `StateMachine.Machine.ListStaged` | internal/raft/state_machine_staged.go:10-17 | the same for staged entries, across all buckets when none is named |
| `StateMachine.Machine.ListBuckets` | internal/raft/state_machine_commands.go:210-219 | every bucket once, in name order |
| `StateMachine.Machine.ListRefs` | internal/raft/state_machine_blob.go:37-47 | every reference once |
| `StateMachine.Machine.RecoverFromSnapshot` | internal/raft/state_machine.go:181-207 | the state becomes the snapshot's |
| `StateMachine.ApplyLog` | internal/raft/state_machine.go:149-164 | applying a log in place gives the state of replaying it |
| `StateMachine.CatchUp` | internal/raft/state_machine.go:149-207 | a replica restored from a snapshot of any prefix that applies the rest ends in the state of one that applied the whole log |
| `Conservation.RefCountsConserved` | internal/store/put.go:65-114 | for every interleaving of the steps of puts and deletes on distinct keys, with any operation failing or any request stopping, count(h) = committed users of h + requests that hold a reference to h |
| `Conservation.InterleavedPutsAndDeletes` | internal/store/store.go:134-155 | from a balanced idle store: that equation, no reference is gone while a committed object uses it, and the store is balanced again once no request holds anything |
| `Conservation.HeldRefExists` | internal/store/blob.go:53-73 | a reference used by a committed object or held by a request exists |
| `Conservation.MovingStep` | internal/store/blob.go:53-134 | the steps that change objects or counts change both sides of the equation alike |
| `Conservation.QuietStep` | internal/store/put.go:65-114 | every other step leaves objects, counts and held references alone |
| `Recovery.RecoverOneFacts` | internal/store/gc.go:94-105 | what rolling back one expired entry does to metadata, layouts and shard sets, by the stage it recorded |
| `Recovery.RecoverPendingMeta` | internal/store/gc.go:65-92 | the listed expired entries go, committed objects stay, references only shrink |
| `Recovery.RecoverPendingCount` | internal/store/recovery_pending.go:93-117 | a hash loses exactly as many counts as expired entries claim it, never below zero |
| `Recovery.RecoverPendingShards` | internal/store/recovery_pending.go:93-109 | exactly the sets of references that disappeared are deleted |
| `Recovery.RecoverPendingCovered` | internal/store/gc.go:65-92 | from counts that cover users and claims, the cleanup succeeds and they still do |
| `Recovery.RecoverKeepsUsersIff` | internal/store/recovery_pending.go:31-146 | after Recover count(h) >= users of h exactly when before it count(h) >= users of h + expired claims on h (or h has no users) |
| `Recovery.CleanupExact` | internal/engine/orphan.go:30-74 | orphan collection deletes exactly the sets in folders right below the root whose folder name and hash no reference and no staged entry gives as its trimmed shard directory and hash |
| `Recovery.RecoverSweeps` | internal/store/recovery.go:53-78 | with names on disk that carry no surrounding white space the sweep goes through |
| `Recovery.RecoverKeepsSetIff` | internal/store/recovery.go:53-188 | any shard set survives Recover exactly when its reference does not lose its last count to expired entries and the sweep does not come to its folder or finds its name |
| `Recovery.RecoverKeepsReferencedSetIff` | internal/store/recovery.go:150-188 | the set of a remaining reference survives exactly when its shard directory is the name of its folder or leads where the sweep does not come, or a remaining staged entry names the folder |
| `Healing.SaneCovered` | internal/store/recovery_pending.go:111-117 | at every point of every run, the counts cover committed users plus what staged entries claim |
| `Healing.RecoverPendingLayouts` | internal/store/recovery_pending.go:63-91 | after Recover an object has the layout it had, or none if it had none, unless its expired entry made Recover link its own content again |
| `Healing.RecoverAfterStop` | internal/store/recovery.go:53-78 | stopped anywhere, Recover with all entries expired succeeds (with trimmed names on disk), empties the staging area, keeps all committed objects, leaves count >= users, every object has a layout exactly when it was not lost, and that layout names another content unseen exactly when the stop misled it |
| `Healing.StopRecoverDedupe` | internal/store/dedupe.go:14-37 | any interleaving stopped anywhere, then Recover, then a complete Dedupe: counts equal users, nothing staged, same committed contents, and the layout is the right one, hash and size included, for exactly the objects whose layout the stop neither lost nor misled; the store is at rest exactly when there is no such object |
| `Healing.AgreesLinked` | internal/store/dedupe_layout.go:78-83 | a layout is right exactly when it passes the comparison of directory, placements, checksums and shard sizes and names the object's hash; the comparison alone is not enough |
| `Healing.FixKeepsMisnamed` | internal/store/dedupe_layout.go:13-35 | a layout that passes the comparison under another hash is not found by any fix of Dedupe, and no fix makes one |
| `Healing.CompleteRunExists` | internal/store/dedupe.go:14-37 | every store can be taken by enabled fixes to one with nothing to fix |
| `Guarantees.StopIsAtomic` | internal/store/put.go:65-114 | one request stopped after any step, then Recover, then a complete Dedupe: the store is healthy exactly when the stop neither lost nor misled the request's own layout and no object's shard directory strays from its folder, and then the key is wholly old before the commit and wholly new, or absent, after it; Recover alone keeps exactly the sets of the sheltered references |
| `Guarantees.LayoutCanBeLost` | internal/store/blob.go:75-117 | the loss happens: overwrite, fail the second intent update, stop between deleting the layout and restoring the previous one |
| `Overwrites.MisledIff` | internal/store/put.go:81-88 | a stop misleads a layout exactly between linking it and recording that, or after the recording failed and before the rollback took the layout back, and only over an object of other content with the same directory, placements, checksums and shard sizes |
| `Overwrites.OverwriteMisleads` | internal/store/dedupe_layout.go:78-83 | for every such overwrite with new content the run: after the stop and Recover nothing is left for Dedupe to fix, the metadata is the old one, and the object is unreadable (or reads as the uncommitted content where the sweep does not come) |
| `Overwrites.ChecksumsIff` | internal/engine/blob.go:93-107 | with the store's coder two contents have the same checksum list exactly when they fill shards of one size and the longer is the other with zeros behind it |
| `Overwrites.ZeroByteMisleads` | internal/engine/coder.go:62-88 | appending a zero byte to an object whose length is no multiple of the data shards, with the same placements, is such an overwrite |
| `Guarantees.FailedPutRestores` | internal/store/put.go:233-248 | a put that fails anywhere after staging, with rollback steps that succeed, leaves metadata and layouts exactly as before, and shard sets too except an unreferenced one it wrote itself |
| `Requests.NewIsHealthy` | internal/store/store.go:39-54 | a new store is healthy and empty, so every history starts from a healthy one |
| `Requests.HealthyReads` | internal/engine/engine.go:231-256 | in a healthy store exactly the committed objects can be read, each with content of its hash |
| `Requests.ContentsByHash` | internal/store/store.go:107-121 | so the contents of a healthy store follow from the hashes in the metadata |
| `Requests.FinishedHealthyIff` | internal/store/put.go:65-114 | a finished request leaves a healthy store exactly when it left no staged entry and owes no reference |
| `Requests.FinishedContents` | internal/store/put.go:22-43 | and then the contents are the old ones with or without this request's effect, as its commit says |
| `Requests.BucketsOnly` | internal/store/store.go:66-72 | a bucket command that meets no objects keeps the store healthy and its contents |
| `Faultless.PutRefinesMap` | internal/store/put.go:22-114 | without faults PutObject is an update of a plain map from (bucket, key) to bytes, and the object reads back |
| `Faultless.DeleteRefinesMap` | internal/store/store.go:134-155 | without faults DeleteObject is a removal from that map |
| `Faultless.RunFinishes` | internal/store/put.go:65-114 | whatever fails, rollback operations included, a handler is done after at most 23 operations |
| `Keys.PutReadsBackIff` | internal/engine/blob.go:52-91 | a put without faults reads back exactly when the second character of the key is not white space, or the content was stored before, or its set was there already |
| `Keys.SpacedKeyUnreadable` | internal/engine/engine.go:152-228 | so the key "a b" with new content is stored and cannot be read |
| `Keys.RecoverKeepsObjectIff` | internal/store/recovery.go:150-170 | after Recover on a healthy store an object reads as before exactly when its reference's directory is sheltered, else not at all |
| `Keys.PutThenRecoverIff` | internal/engine/orphan.go:30-74 | a put of new content and then Recover: the object is there exactly when the key's shard directory is sheltered |
| `Keys.SlashKeyLost` | internal/engine/orphan.go:76-145 | so "a/b" reads back after the put and is gone after the next Recover |
| `Failures.ReferenceReleasedTwice` | internal/store/blob.go:75-91 | a put of an object's content under another key fails to commit and to unstage, its rollback gives the reference back, Recover gives it back again: the object stays committed without reference and set |
| `Failures.NothingToRebuildFrom` | internal/store/dedupe_refs.go:47-76 | two puts, three failed operations and Recover lead from a healthy store to a used hash without a reference and without a layout to rebuild it from |
| `Failures.FreshPutLosesSet` | internal/store/recovery_pending.go:93-109 | Recover with one expired and one fresh put of one content deletes the set that the fresh entry names |
| `Failures.SharedSetLost` | internal/store/blob.go:136-144 | two puts of one new content under keys with one shard directory: one failed intent update of the second, after the first committed, deletes the committed object's set |
| `SharedSets.StepKeepsSetsIff` | internal/store/put.go:65-114 | if every reference has its set before a step, every one has after it exactly when the step does not delete the set of a content with a reference, and does not create a reference whose set is gone |
| `SharedSets.RunKeepsSetsIff` | internal/store/blob.go:38-158 | for every interleaving with any failures and stops: every reference has its set at every moment exactly when no step of the run is of those kinds |
| `SharedSets.WriteKeeps` | internal/engine/backend.go:52-68 | writing a content over the set of its reference costs no reference its set, completed or stopped on the way |
| `Exclusive.StepOnlyAbout` | internal/store/blob.go:53-158 | a step changes references and shard sets only of contents its request puts, replaces or deletes |
| `Exclusive.ApartKeepsSetsIff` | internal/store/put.go:22-114 | if no content is put, replaced or deleted by two requests in flight at once, whatever fails and stops: every reference has its set at every moment exactly when no rollback deletes the set it wrote while it still holds the reference it created |
| `Exclusive.ApartKeepsSets` | internal/store/blob.go:119-144 | so every reference keeps its set at every moment if besides no rollback fails to give back the reference its put created |
| `Tracking.TrackedEffect` | internal/store/put.go:65-114 | a handler that followed its steps and left nothing staged or owed left a healthy store with the effect its commit says |
| `ObjectStore.Engine.LinkObject` | internal/engine/engine.go:152-228 | the layout map gains exactly this layout with a trimmed directory, or a blank argument is refused |
| `ObjectStore.Engine.DeleteObjectLayout` | internal/engine/engine.go:272-290 | exactly this layout goes |
| `ObjectStore.Engine.PutBlob` | internal/engine/blob.go:52-91 | a whole shard set in the key's directory; stopped on the way, a partial one, unless a whole one of the same content was there, which stays whole; or nothing |
| `ObjectStore.Engine.DeleteBlob` | internal/engine/blob.go:110-121 | exactly the set under the trimmed directory goes; blank arguments are refused |
| `ObjectStore.Store.constructor` | internal/store/store.go:39-54 | a new store is healthy and empty |
| `ObjectStore.Store.Propose` | internal/raft/state_machine_commands.go:10-21 | a command is applied or the proposal fails and nothing changes |
| `ObjectStore.Store.UpdateIntent` | internal/store/write_intent.go:37-48 | the staged entry records the stage, or nothing changes; either way the handler is on its task's run |
| `ObjectStore.Store.PrepareBlob` | internal/store/blob.go:12-51 | an existing reference's extent is taken over, or new shards are written |
| `ObjectStore.Store.DeleteStagedEntry` | internal/store/put.go:156-161 | on success the key has no staged entry |
| `ObjectStore.Store.LinkPutLayout` | internal/store/put.go:203-221 | the layout is linked; if that fails, shards the put created are deleted |
| `ObjectStore.Store.RetainBlob` | internal/store/blob.go:53-73 | a reference is retained unless the object already holds this content; the result tells whether one was |
| `ObjectStore.Store.CommitObject` | internal/store/put.go:99-104 | the commit point: the object is committed and the replaced reference becomes due, or the rollback starts |
| `ObjectStore.Store.ReleaseOld` | internal/store/blob.go:146-158 | one count of the old content is given back, with the last one its shards go |
| `ObjectStore.Store.ReleaseReplaced` | internal/store/put.go:223-231 | nothing when the key was free or held the same content, else the old reference; on success nothing is owed |
| `ObjectStore.Store.RestorePreviousLayout` | internal/store/blob.go:100-117 | the previous object's layout is linked again from its reference |
| `ObjectStore.Store.RollbackBlobRef` | internal/store/blob.go:119-134 | a reference the put retained goes back; on success none is held |
| `ObjectStore.Store.CleanupCreatedBlob` | internal/store/blob.go:136-144 | shards the put created are deleted |
| `ObjectStore.Store.FailPut` | internal/store/put.go:233-248 | every rollback step is tried; if all succeed nothing is staged and nothing owed |
| `ObjectStore.Store.FinishPut` | internal/store/put.go:94-114 | from the retained reference to the release; success means committed, unstaged and nothing owed |
| `ObjectStore.Store.RetainAndFinish` | internal/store/put.go:85-114 | the same from the linked layout on |
| `ObjectStore.Store.CompletePreparedPut` | internal/store/put.go:65-114 | the same from the prepared blob on |
| `ObjectStore.Store.PutStagedObject` | internal/store/put.go:45-63 | the same from the staged entry on; a failed preparation unstages |
| `ObjectStore.Store.LoadExisting` | internal/store/put.go:183-201 | the committed object of a key with its reference |
| `ObjectStore.Store.PutObject` | internal/store/put.go:22-43 | the handler follows its task's steps whatever fails; on success a healthy store stays healthy with exactly this object put, on a failure with a complete rollback its contents are unchanged |
| `ObjectStore.Store.GetObject` | internal/store/store.go:107-121 | bad request exactly for blank names or a closed machine, not-found exactly without object or layout; in a healthy store exactly the stored bytes |
| `ObjectStore.Store.DeleteObject` | internal/store/store.go:134-155 | not-found changes nothing; on success a healthy store loses exactly this object; buckets and staged entries stay |
| `ObjectStore.Store.CreateBucket` | internal/store/store.go:66-72 | a new bucket under the trimmed name, or nothing; health and contents stay |
| `ObjectStore.Store.DeleteBucket` | internal/store/store.go:74-90 | on success the bucket and exactly its objects are gone from a healthy store |
| `Maintenance.RollbackEntryLayout` | internal/store/recovery_pending.go:47-91 | the committed object's layout is linked again, or the layout goes when nothing is committed |
| `Maintenance.ReleaseEntryBlob` | internal/store/blob.go:146-158 | one count goes, with the last one the shards |
| `Maintenance.RecoverEntry` | internal/store/gc.go:94-105 | an expired entry is rolled back by its stage and forgotten |
| `Maintenance.RecoverEntries` | internal/store/gc.go:65-92 | the loop rolls back the expired entries in listing order |
| `Maintenance.LiveSets` | internal/engine/orphan.go:129-141 | the trimmed shard directories and hashes that references and staged entries give |
| `Maintenance.SweepOrphans` | internal/engine/orphan.go:30-53 | the loop over the listed folders deletes what the specification deletes; a set that cannot be deleted ends it with an error |
| `Maintenance.RecoverStore` | internal/store/recovery.go:53-78 | entries first, then orphans, over a listing that covers each staged entry once |
| `Reconcile.FixImproves` | internal/store/dedupe_refs.go:32-215 | each fix lowers the total refcount drift by one, or keeps it and removes one layout mismatch |
| `Reconcile.FixesBounded` | internal/store/dedupe_refs.go:181-201 | so no run makes more fixes than the measure it starts from, and the loops end |
| `Reconcile.LimitedRunsConverge` | internal/store/dedupe_types.go:88-94 | limited runs, repeated, have reached a store with nothing to fix after more runs than that measure |
| `Reconcile.TerminalBalancedIff` | internal/store/dedupe_refs.go:47-76 | a complete run ends with count = users for every hash exactly when the first object of every unreferenced hash had a layout to rebuild the reference from |
| `Reconcile.CompleteRun` | internal/store/dedupe.go:14-37 | a complete run: counts equal users, orphan refs and their sets are gone, live sets and contents stay, every object with a layout has one that agrees with its reference in directory, placements, checksums and shard sizes (not in hash and size: Healing.AgreesLinked), a second run makes no fix |
| `Dedupe.Result.ReachedLimit` | internal/store/dedupe_types.go:88-94 | limited exactly when a positive limit is used up; counters keep adding up to the fixes |
| `Dedupe.CollectObjects` | internal/store/dedupe_collect.go:11-50 | every committed object once, in (bucket, key) order |
| `Dedupe.CollectStats` | internal/store/dedupe_collect.go:73-85 | for every hash the number of its objects and the first of them |
| `Dedupe.FixMissing` | internal/store/dedupe_refs.go:47-76 | a missing reference is created from the first object's layout and counted up to its users; other hashes are untouched |
| `Dedupe.FixAllMissing` | internal/store/dedupe_refs.go:32-45 | the same for all hashes, with the map of references kept in step |
| `Dedupe.FixExisting` | internal/store/dedupe_refs.go:123-139 | unless the limit strikes, the count becomes the number of users, and a reference without users goes |
| `Dedupe.FixAllExisting` | internal/store/dedupe_refs.go:78-101 | the same for all listed references |
| `Dedupe.IncreaseTimes` | internal/store/dedupe_refs.go:141-159 | one step per missing count |
| `Dedupe.DecreaseTimes` | internal/store/dedupe_refs.go:161-215 | one step per surplus count; an orphan's last decrease removes its shards |
| `Dedupe.RelinkAll` | internal/store/dedupe_layout.go:13-37 | unless the limit strikes, every layout that differs from its reference is relinked and no other |
| `Dedupe.RunDedupe` | internal/store/dedupe.go:14-37 | fixes counted = fixes made <= limit; a dry run changes nothing; a run that is not limited leaves nothing to fix, and balanced counts when references could be rebuilt |
| `Dedupe.DedupeUntilDone` | internal/store/dedupe_types.go:88-94 | repeating runs with any positive limit ends, within the measure plus one runs |
| `Restart.RecoverAndDedupe` | internal/store/recovery.go:53-79 | the methods together: after a stop anywhere, Recover and Dedupe make the store healthy exactly when the stop neither lost nor misled a layout and no object's shard directory strays, with the interrupted request done wholly or not at all |
| `StreamingMd5.RoundIsAux` | internal/s3/md5_digest.go:139-150 | the round functions are F, G, H, I of RFC 1321 section 3.4 |
| `StreamingMd5.IndexIsK` | internal/s3/md5_digest.go:202-213 | the computed word index is the k listed there for each of the 64 operations |
| `StreamingMd5.ShiftIsS` | internal/s3/md5_digest.go:13-18 | the flat shift table is the s listed there |
| `StreamingMd5.WordIsIndexed` | internal/s3/md5_digest.go:152-200 | the two switches pick X[k] |
| `StreamingMd5.NativeIsStandard` | internal/s3/md5_digest.go:117-137 | the sum in the store's order, with its tables, is the standard's operation on 32-bit words |
| `StreamingMd5.TurnRefinesOperate` | internal/s3/md5_digest.go:117-137 | a turn of the rolled loop is the standard's register-rotating operation |
| `StreamingMd5.Digest.Compress` | internal/s3/md5_digest.go:117-137 | the in-place loop computes section 3.4's block function |
| `StreamingMd5.Digest.Write` | internal/s3/md5_digest.go:66-86 | whatever is buffered, a write appends its bytes to the message, and the length counts modulo 2^64 |
| `StreamingMd5.Digest.TopUp` | internal/s3/md5_digest.go:69-77 | filling a started buffer keeps registers and buffer in step with the message |
| `StreamingMd5.Digest.Blocks` | internal/s3/md5_digest.go:78-81 | so do whole blocks taken straight from the input |
| `StreamingMd5.Digest.KeepRest` | internal/s3/md5_digest.go:82-84 | and buffering the rest |
| `StreamingMd5.Digest.Reset` | internal/s3/md5_digest.go:60-64 | back to the empty message |
| `StreamingMd5.Digest.Finish` | internal/s3/md5_digest.go:99-115 | it writes exactly the padding and ends on a block boundary |
| `StreamingMd5.Digest.Sum` | internal/s3/md5_digest.go:88-97 | the digest of everything written; the receiver is left as it was |
| `StreamingMd5.FinishPads` | internal/s3/md5_digest.go:99-115 | the padding arithmetic gives sections 3.1 and 3.2, for every length |
| `StreamingMd5.BitLength` | internal/s3/md5_digest.go:99-115 | the bit length computed from a wrapped byte count is the message's modulo 2^64 |
| `StreamingMd5.WriteAll` | internal/s3/md5_digest.go:66-86 | any chunking leaves the concatenation |
| `StreamingMd5.Md5Sum` | internal/s3/md5_digest.go:52-58 | for every message in every chunking the sum is RFC 1321's |
| `Rfc1321.GapFills` | internal/s3/md5_digest.go:99-115 | the padding is the least that brings the length to 56 modulo 64 |
| `Rfc1321.PaddedWhole` | internal/s3/md5_digest.go:99-115 | the padded message is a whole number of blocks |
| `Multipart.HexRoundTrip` | internal/s3/multipart_util.go:49-60 | digests survive their hex form |
| `Multipart.QuoteTrims` | internal/s3/multipart_util.go:237-248 | quoting and trimming quotes are inverse |
| `Multipart.ProblemIff` | internal/s3/multipart_util.go:73-94 | the loop finds no problem exactly when every requested part is stored, ascending and with a matching tag |
| `Multipart.ValidateSizes` | internal/s3/multipart_util.go:96-106 | accepted exactly when every part but the last has 5 MiB |
| `Multipart.CompleteParts` | internal/s3/multipart_util.go:73-94 | accepted exactly when non-empty, listed and large enough; the chosen parts, or the first thing wrong |
| `Multipart.ComputeETag` | internal/s3/multipart_util.go:49-60 | the loop computes the tag, with its fallback |
| `Multipart.FallbackETag` | internal/s3/multipart_util.go:62-71 | the fallback tag of parts without digests |
| `Multipart.PromiseKept` | internal/s3/multipart_util.go:49-60 | for parts that describe their bytes the tag is the MD5 of the concatenated part MD5s and the part count |
| `Multipart.Md5Sized` | internal/s3/md5_digest.go:88-97 | MD5 is a hash of 16 bytes, as the tag needs |
| `Multipart.UploadStore.Initiate` | internal/s3/multipart_store.go:30-60 | a fresh upload without parts under trimmed names, or a refusal |
| `Multipart.UploadStore.Load` | internal/s3/multipart_store.go:97-104 | the stored upload, or the right error |
| `Multipart.UploadStore.PutPart` | internal/s3/multipart_store.go:62-95 | exactly this part is replaced by one that describes the bytes, or nothing changes |
| `Multipart.UploadStore.Abort` | internal/s3/multipart_store.go:131-150 | exactly this upload goes |
| `Multipart.UploadStore.Assemble` | internal/s3/multipart_store.go:106-129 | over every history of initiates, part puts in any order with overwrites, aborts and completions: an accepted completion holds the latest bytes of the requested parts in ascending order, all but the last of 5 MiB, under the promised tag |
| `Multipart.UploadStore.Concatenate` | internal/s3/multipart_store.go:222-236 | the files of the parts one behind the other |
| `Multipart.UploadStore.Complete` | internal/s3/multipart.go:110-149 | the same for a whole completion, which then drops the upload |
| `Multipart.ChosenAreLatest` | internal/s3/multipart_store.go:193-236 | the chosen parts describe the bytes last put under their numbers |
| `Listing.RolledUp` | internal/s3/list.go:128-148 | a key is rolled up exactly when the delimiter occurs behind the prefix, and into the shortest extension that ends in it |
| `Listing.ListingStrict` | internal/raft/state_machine_commands.go:221-233 | what the metadata lists is strictly sorted and has the prefix, as paging needs |
| `Listing.AfterCuts` | internal/s3/list.go:172-177 | in a sorted listing the cursor cuts once |
| `Listing.PageBuilder.AddObject` | internal/s3/list.go:107-160 | an object is passed over, ends the page, or is taken in |
| `Listing.Collect` | internal/s3/list.go:77-105 | the loop builds the page of the specification |
| `Listing.Paginate` | internal/s3/list.go:77-100 | a page, and a token exactly when it is cut short |
| `Listing.PageAdvances` | internal/s3/list.go:77-100 | the page after a cut page takes up exactly where it ended |
| `Listing.WalkLists` | internal/s3/list.go:77-177 | following tokens ends, lists every plain key after the start once and in order, and the common prefixes are exactly the rolled-up ones |
| `Listing.WalkPages` | internal/s3/list.go:77-177 | no page shows a prefix twice or more entries than max-keys, and every page but the last is full |
| `Listing.WalkWithoutDelimiter` | internal/s3/list.go:77-177 | without a delimiter the pages concatenate to exactly the objects after the cursor |
| `Listing.ZeroKeys` | internal/s3/list.go:77-100 | with max-keys zero nothing is listed and no token is given |
| `Listing.Follow` | internal/s3/list.go:172-189 | a client that follows tokens sees exactly those pages, given a lossless token |
| `Listing.PrefixesOnceIff` | internal/s3/list.go:77-177 | for every sorted listing, cursor and max-keys: no two pages show one common prefix exactly when no page is cut behind a key that is rolled up together with a later one |
| `Listing.KeysTogether` | internal/s3/list.go:128-148 | in a sorted listing the keys of one common prefix stand next to each other |
| `Listing.PrefixCanRepeat` | internal/s3/list.go:107-126 | of d/x, d/y and e, one entry to a page, the first two pages both show d/ |
| `Paging.WalkListsAll` | internal/s3/multipart_list.go:170-179 | if the marker of an item leaves exactly what follows it, pages of any size list every item once and in order, all but the last full, and end |
| `Paging.SortedParts` | internal/s3/multipart_util.go:108-119 | the stored parts, ascending, each once |
| `Paging.PaginateParts` | internal/s3/multipart_util.go:154-167 | the parts after the marker, cut at the page size, and the next marker |
| `Paging.PartPages` | internal/s3/multipart_util.go:154-167 | paging by part number yields every part once and in order |
| `Paging.UploadOrder` | internal/s3/multipart_list.go:110-117 | (key, upload id) is a strict total order |
| `Paging.MarkSeparates` | internal/s3/multipart_list.go:154-168 | the marker of an upload lets through exactly the uploads behind it |
| `Paging.PaginateUploads` | internal/s3/multipart_list.go:139-179 | the matching uploads after the marker, cut at the page size, and the next marker |
| `Paging.UploadPages` | internal/s3/multipart_list.go:139-179 | paging by (key, upload id) yields every matching upload once and in order |
| `Paging.ListBucket` | internal/s3/multipart_list.go:61-117 | the bucket's uploads, sorted, each once |
| `Erasure.ShardSizeFits` | internal/engine/coder.go:62-88 | the shard size is the least that holds the data |
| `Erasure.JoinSplit` | internal/engine/coder.go:91-114 | joined pieces are the data followed by zeros |
| `Erasure.Encode` | internal/engine/coder.go:62-88 | the loops compute k equal zero-filled pieces and their parity |
| `Erasure.Decode` | internal/engine/coder.go:91-123 | rebuild, check, join, cut; zero and negative sizes and no shards at all as in the source |
| `Erasure.AvailableShardSize` | internal/engine/coder.go:125-132 | zero exactly when there is no shard |
| `Erasure.EncodedIsCodeword` | internal/engine/coder.go:62-88 | what Encode makes of non-empty data is a codeword of the library |
| `Erasure.RoundTrip` | internal/engine/coder.go:62-132 | for all non-empty data, k and m: erasing any at most m shards and decoding gives the data, trailing zeros included |
| `Erasure.SameShardsIff` | internal/engine/coder.go:62-88 | two contents encode to the same shards exactly when they fill shards of one size and one is the other with zeros behind it |
| `Erasure.ZeroByteUnseen` | internal/engine/coder.go:62-88 | so a zero byte behind a content whose length is no multiple of k does not show in its shards |
| `Repair.HealthOf` | internal/engine/health.go:9-37 | available, missing and corrupted add up to all shards; recoverable exactly with k available |
| `Repair.ReadRepairShards` | internal/engine/repair.go:50-70 | succeeds exactly when all nodes answer, with the good shards and the bad indexes in order |
| `Repair.GotIsRight` | internal/engine/storage_node.go:122-151 | a shard that passes its checksum is the right one |
| `Repair.WrittenKeeps` | internal/engine/repair.go:72-82 | nothing outside the repaired shards is touched |
| `Repair.Cluster.WriteRepaired` | internal/engine/repair.go:72-82 | exactly the listed indexes are written |
| `Repair.Cluster.RepairObject` | internal/engine/repair.go:17-48 | with k good shards and all nodes answering exactly the bad ones are rewritten and all read right; otherwise it fails and writes nothing |
| `Repair.RepairTwice` | internal/engine/repair.go:17-48 | a second repair repairs nothing and the object reads back whole |
| `Repair.GetObject` | internal/engine/engine.go:231-256 | exactly the object's bytes with at most m shards lost and all nodes answering, else an error |
| `Rebalance.CopyKeepsWhole` | internal/engine/rebalance.go:101-110 | a right copy on another node disturbs no layout of the blob |
| `Rebalance.DropKeepsWhole` | internal/engine/rebalance.go:122-131 | dropping a copy the layout does not name disturbs nothing |
| `Rebalance.MoveStep` | internal/engine/rebalance.go:53-75 | after each move the layouts in force and the one in the making name right bytes |
| `Rebalance.Rebalancer.MoveShard` | internal/engine/rebalance.go:101-110 | a shard is read and written to its target; cached and stored layouts stay whole, and so does the one in the making |
| `Rebalance.Rebalancer.MoveShards` | internal/engine/rebalance.go:53-75 | exactly the shards of the node are copied; every intermediate state is readable |
| `Rebalance.Rebalancer.Cleanup` | internal/engine/rebalance.go:112-120 | the old copies go, errors are counted, every intermediate state is readable |
| `Rebalance.Rebalancer.RebalanceFrom` | internal/engine/rebalance.go:24-51 | at every point cached and stored layouts name nodes holding the right bytes; on success no placement names the source, unmoved indexes are unchanged, old copies are gone; an error before the switch leaves both layouts |
| `NodePlacement.CycleShare` | internal/engine/placement.go:86-113 | a node's share of a round-robin plan is the quotient, and one more for the first remainder nodes |
| `NodePlacement.RoundRobinEven` | internal/engine/placement.go:70-113 | so a round-robin plan names only its nodes, in index order, with floor or ceiling shares |
| `NodePlacement.SingleEven` | internal/engine/placement.go:41-63 | so does a single-node plan |
| `NodePlacement.EvenBound` | internal/engine/placement.go:86-113 | with n * m >= shards no node gets more than m of an even plan |
| `NodePlacement.Registry.constructor` | internal/engine/placement.go:121-135 | the local node alone, under its trimmed or default name |
| `NodePlacement.Registry.PlacementNodes` | internal/engine/storage_nodes.go:243-270 | the registered nodes that are not drained, each once, sorted |
| `NodePlacement.Registry.Reconfigure` | internal/engine/storage_nodes.go:231-241 | the planner is the one for the active nodes |
| `NodePlacement.Registry.Register` | internal/engine/storage_nodes.go:11-23 | the node is registered and no longer drained; the invariant stays |
| `NodePlacement.Registry.Unregister` | internal/engine/storage_nodes.go:163-180 | refused exactly for a blank, local or unknown name; the invariant stays |
| `NodePlacement.Registry.Drain` | internal/engine/storage_nodes.go:182-198 | a registered node becomes drained; the invariant stays |
| `NodePlacement.Registry.Resume` | internal/engine/storage_nodes.go:200-213 | and active again |
| `NodePlacement.Registry.SyncFromRaft` | internal/engine/storage_nodes.go:26-57 | accepted exactly when all members are acceptable: one remote node per other member at its target, the local one, and the drained nodes that remain; otherwise nothing changes |
| `NodePlacement.MembersToNodes` | internal/engine/storage_nodes.go:133-161 | the loop makes those remote nodes and finds the local address |
| `NodePlacement.RaftIdInjective` | internal/engine/storage_node.go:107-109 | different replicas get different node names |
| `NodePlacement.Registry.Plan` | internal/engine/placement.go:137-152 | after every sequence of operations a plan uses only active nodes, each with floor or ceiling of the shards; there is none exactly without shards or active nodes |
| `NodePlacement.Registry.PlanSurvivesOneLoss` | internal/engine/placement.go:137-152 | with n * m >= k + m no node holds more than m shards of an object |
| `Membership.NormalizeDesired` | internal/raft/membership.go:177-196 | accepted exactly when the local replica is wanted and all ids and targets are present; targets trimmed |
| `Membership.Validate` | internal/raft/membership.go:198-215 | accepted exactly when no removed id is wanted back and no member elsewhere |
| `Membership.Lacking` | internal/raft/membership.go:235-257 | the ids one map has and the other lacks, each once, ascending |
| `Membership.RunFollows` | internal/raft/membership.go:111-175 | at every point of a sync: all wanted members are still there, no removed id is back, no member has moved, and either nobody has left or everybody wanted is in |
| `Membership.RunCompatible` | internal/raft/membership.go:111-147 | whatever a sync got done before it stopped, the same wish still passes validation |
| `Membership.Group.AddReplica` | internal/raft/membership.go:55-85 | at most one addition, never of a removed id or over a member; with an answering group it succeeds exactly in the cases the source accepts |
| `Membership.Group.RemoveReplica` | internal/raft/membership.go:87-109 | at most one removal; an absent id is no work |
| `Membership.Group.AddMissing` | internal/raft/membership.go:149-161 | only safe steps; on success exactly the missing replicas joined and are reported |
| `Membership.Group.RemoveExtra` | internal/raft/membership.go:163-175 | only safe steps; on success exactly the extra replicas left and are reported |
| `Membership.Group.SyncReplicas` | internal/raft/membership.go:111-147 | every step adds a wanted, never removed replica or, once all wanted are in, removes an unwanted one; on success the voters are exactly the desired map; refused wishes change nothing; with an answering group it succeeds exactly for acceptable wishes |
| `LayoutCache.AlwaysCoherent` | internal/engine/engine.go:152-228 | after every history files lie where their layouts say and every cached layout is on disk |
| `LayoutCache.RestartKeepsIff` | internal/engine/object_lookup.go:64-105 | dropping the cache keeps what a lookup finds exactly when the location is not cached, or its cached layout's file is the one in the home directory, or there is none there and a walk comes to it first |
| `LayoutCache.RemoveClearsIff` | internal/engine/engine.go:272-290 | after a removal nothing is found exactly when no other file of the location is at home or below the root |
| `LayoutCache.CacheAgreesWithDisk` | internal/engine/object_lookup.go:64-167 | for every history that links a location in one folder only between removals, a lookup gives what a plain map would, before and after a restart |
| `LayoutCache.OlderLayoutReturns` | internal/engine/engine.go:198-207 | linked at home and then elsewhere, the first layout comes back after a restart and after a removal |
| `LayoutCache.LayoutIndex.Scan` | internal/engine/object_lookup.go:107-120 | the first layout file of the location on a walk |
| `LayoutCache.LayoutIndex.GetLayout` | internal/engine/object_lookup.go:64-105 | cache, home file, scan, and what is found is cached |
| `LayoutCache.LayoutIndex.LinkObject` | internal/engine/engine.go:152-228 | a file and a cache entry under trimmed names, or a refusal that changes nothing |
| `LayoutCache.LayoutIndex.DeleteObjectLayout` | internal/engine/engine.go:272-290 | the cached layout goes, and its file unless the deletion fails |

## Left out

- HTTP handling, authentication, XML and JSON encoding, configuration, discovery, scheduling, metrics, audit, the search index and the admin page: no state the properties above depend on.
- Dragonboat, the Reed-Solomon library, SHA-256, base64 and the file system: taken as parameters with the hypotheses listed above.
- Concurrent requests on one key, Recover or Dedupe beside running writes: the source makes no promise there.
- Read errors in the middle of Recover's and Dedupe's loops: a failing metadata command ends the loop there; the model covers the runs without such failures and, for Recover, rollbacks that cannot restore a layout.
- Healing.StopRecoverDedupe: rollback steps succeed or the request stops there; what a failing rollback step can leave is shown by Failures.ReferenceReleasedTwice and Failures.NothingToRebuildFrom.
- Guarantees.StopIsAtomic: the same.
- Guarantees.FailedPutRestores: previous layouts are the ones linking writes (their time is set), since restoring rebuilds a layout from metadata and reference.
- Keys with a second character that is white space: Faultless.PutRefinesMap and Guarantees.FailedPutRestores exclude them; Keys.PutReadsBackIff says what happens.
- Dedupe's dry-run issue list: only that a dry run changes nothing and makes no fix.
- Erasure.Encode: of empty data it is the specification's value; the round trip is stated for non-empty data, since the library's treatment of empty shards decides the rest.
- ObjectStore.Engine.DeleteBlob: and orphan collection drop the whole set, as the sets are one for all nodes here; the source removes the shards on the local node only and leaves those on others.
- ObjectStore.Engine.LinkObject: bucket and key come trimmed and not blank from the store, and placements come in the number of shards, so refusing and re-planning are not modelled there (LayoutCache.LayoutIndex.LinkObject has the trimming).
- Restart.RecoverAndDedupe: layouts are the ones the cache held at the stop; what a dropped cache changes is said in LayoutCache.
- ObjectStore.Store.PutObject: the effect on the contents is promised for keys whose shard directory survives trimming; Keys.PutReadsBackIff says what happens to the others.
- Rebalance.Rebalancer.RebalanceFrom: node ids are trimmed, as registered ones are, the blob is used by this layout alone and all its shards are readable.
- Repair rate limiting, background repair and scrubbing counters: timing and logging.
- NodePlacement.Registry.Plan: says nothing about the `Local` flag of a single-node plan.
- NodePlacement.Registry.Register: nodes carry trimmed names, as both constructors of the source make them.
- Membership.Group.SyncReplicas: voters only; non-voting members and witnesses are not modelled, nor is another administrator changing the membership at the same time.
- LayoutCache.CacheAgreesWithDisk: buckets without a slash in their names; files from before ids and directories were stored in them are not modelled.
- ListObjects version 1, byte ranges, reconcile plans and replacement ids: easy members only.
- internal/metadata's in-memory store: a test double that differs from the Raft state machine on references and bucket deletion.
- The 64-bit width of sizes, counts and ids: unbounded here, except the length of MD5, which wraps at 2^64.
