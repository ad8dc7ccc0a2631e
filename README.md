# Managed-volume store and diskunmap hook, modelled in Dafny

This project models two small pieces of vdsm, the oVirt host agent.

**The managed-volume record store** (`managed_volume_db.dfy`, module
`ManagedVolumeDb`). The store keeps one record per externally attached
("managed") volume. A record holds the connection info the volume was added
with. Once the volume is attached, the record also holds its device path, an
attachment document and the id of the multipath device behind it.

The model is a class, `VolumeDb`, standing for one open handle. It has:

- the volume table, a `map` from volume id to `Volume`;
- a `closed` flag.

Its methods are `AddVolume`, `GetVolume`, `UpdateVolume`, `RemoveVolume`,
`OwnsMultipath`, `VersionInfo` and `Close`. Each method returns its typed
failure (`NotFound`, `VolumeAlreadyExists`, `Closed`) as a value. The class
invariant `Valid` says that path, attachment and multipath id are set together
or not at all. The lemmas `OwnsAfterAdd`, `OwnsAfterUpdate`, `OwnsAfterRemove`
and `SoleOwnerReleases` say how each operation changes the answer of the
ownership query. Each sequential test of the store is a client method at the
end of the module (`test_create_db` and `test_get_non_existing` share one).
The method runs the test's calls on a fresh handle, and its postcondition is
the test's assertion, proved for all ids and documents.

The implementing module, `vdsm/storage/managedvolumedb.py`, is not part of
this model. Its behaviour is taken from its test suite,
`tests/storage/managedvolumedb_test.py`. Several points are not fixed by
those tests, and the model follows the store's documented contract for them:

- Update and remove of an id that is absent fail with `NotFound`.
- After `close`, every operation fails with `Closed`. The test checks only
  `get_volume`.
- A refused duplicate add leaves the first record untouched. The test checks
  only that the second add fails.
- Closing a handle twice is harmless. No test closes twice.
- The value of `VERSION` is not shown. The model uses 1, and the only claim
  about it is that `version_info` returns `VERSION`.

Connection info and attachment are the abstract type `Document`. The store
compares such values only for equality.

**The diskunmap hook** (`disk_unmap.dfy`, module `DiskUnmap`). Before a VM
starts, this hook sets `discard="unmap"` on the first `<driver>` of each
qualifying disk. A disk qualifies when its device is `disk` or `lun` and its
first `<target>` is on bus `scsi` or `ide`. The domain XML is reduced to a
sequence of disk records. Each record holds:

- the disk's own attributes;
- the attributes of its `<target>` descendants, in document order;
- the attributes of its `<driver>` descendants, in document order.

A missing attribute reads as the empty string, as in minidom's
`getAttribute`. `AddDiscardUnmap` rewrites an array of disk records in place.
It is proved equal to `Rewritten`, the disk-by-disk rule. Lemmas then prove
what the rule changes and what it keeps, and that it is idempotent.
`BeforeVmStart` applies the rule only when the setting is present and equals
`"on"`. The hook's source raises an index error on a disk without a target,
or on a qualifying disk without a driver. The model states both cases as
preconditions.

`wrappers.dfy` holds the shared `Option` type.

## Model

| member | source | states |
|---|---|---|
| ManagedVolumeDb.VolumeDb.Open | tests/storage/managedvolumedb_test.py:44-56 | A handle on a freshly created store is open, holds no volumes and satisfies the record invariant |
| ManagedVolumeDb.VolumeDb.Close | tests/storage/managedvolumedb_test.py:75-82 | After close the handle is closed and the table is unchanged |
| ManagedVolumeDb.VolumeDb.VersionInfo | tests/storage/managedvolumedb_test.py:59-72 | Fails with Closed exactly when the handle is closed; otherwise returns version VERSION and description "Initial version" |
| ManagedVolumeDb.VolumeDb.AddVolume | tests/storage/managedvolumedb_test.py:85-107 | On an open handle, a new id gets a record with connection info only; an id already present fails with VolumeAlreadyExists and leaves the table as it was; a closed handle fails with Closed; the invariant is kept |
| ManagedVolumeDb.VolumeDb.GetVolume | tests/storage/managedvolumedb_test.py:49-56 | Returns the stored record of the id, whose path, attachment and multipath id are all set or all absent; NotFound for an id not in the table; Closed on a closed handle |
| ManagedVolumeDb.VolumeDb.UpdateVolume | tests/storage/managedvolumedb_test.py:117-138 | On an existing id, sets path, attachment and multipath id and keeps connection info and every other record; NotFound for an absent id; Closed on a closed handle |
| ManagedVolumeDb.VolumeDb.RemoveVolume | tests/storage/managedvolumedb_test.py:141-154 | On an existing id, the table loses exactly that id; NotFound for an absent id; Closed on a closed handle |
| ManagedVolumeDb.VolumeDb.OwnsMultipath | tests/storage/managedvolumedb_test.py:157-179 | On an open handle returns true exactly when some live record has that multipath id (never an error); Closed on a closed handle |
| ManagedVolumeDb.OwnsSplit | tests/storage/managedvolumedb_test.py:157-179 | A device is owned exactly when a given record claims it or some other record does |
| ManagedVolumeDb.OwnsAfterAdd | tests/storage/managedvolumedb_test.py:169-171 | Adding a volume does not change whether any device is owned |
| ManagedVolumeDb.OwnsAfterUpdate | tests/storage/managedvolumedb_test.py:173-175 | After updating a record to device m, a device is owned exactly when it is m or another record claims it |
| ManagedVolumeDb.OwnsAfterRemove | tests/storage/managedvolumedb_test.py:177-179 | After removing a record, a device is owned exactly when another record claims it |
| ManagedVolumeDb.OtherOwnersUnchanged | tests/storage/managedvolumedb_test.py:157-179 | Tables that differ only at one id agree on whether another record claims a device |
| ManagedVolumeDb.SoleOwnerReleases | tests/storage/managedvolumedb_test.py:157-179 | The only record claiming a device releases it when removed and when updated to a different device |
| ManagedVolumeDb.GetFromFreshStore | tests/storage/managedvolumedb_test.py:110-114 | On a fresh store, get_volume of any id fails with NotFound |
| ManagedVolumeDb.VersionOfFreshStore | tests/storage/managedvolumedb_test.py:59-72 | A fresh store reports version VERSION and description "Initial version" |
| ManagedVolumeDb.UseAfterClose | tests/storage/managedvolumedb_test.py:75-82 | After close, get fails with Closed, as the test asserts; that add, update, remove, owns_multipath and version_info fail with Closed too comes from the store's contract, not from the cited lines |
| ManagedVolumeDb.InsertSelect | tests/storage/managedvolumedb_test.py:85-94 | add then get returns the given connection info and no path, attachment or multipath id |
| ManagedVolumeDb.InsertExisting | tests/storage/managedvolumedb_test.py:97-107 | A second add of the same id fails with VolumeAlreadyExists, as the test asserts; that the record still holds the first connection info comes from the store's contract, not from the cited lines |
| ManagedVolumeDb.UpdateThenGet | tests/storage/managedvolumedb_test.py:117-138 | After update, get returns the original connection info with the given path, attachment and multipath id |
| ManagedVolumeDb.RemoveThenGet | tests/storage/managedvolumedb_test.py:141-154 | An added volume is found with its connection info; after remove, get fails with NotFound |
| ManagedVolumeDb.OwnsMultipathLifecycle | tests/storage/managedvolumedb_test.py:157-179 | owns_multipath is false on an empty store, false after add, true after update and false after remove |
| DiskUnmap.UnmapDisk | vdsm_hooks/diskunmap/before_vm_start.py:44-51 | A qualifying disk's first driver ends with discard "unmap" and keeps every other attribute; its other drivers, targets and own attributes are unchanged; a disk that does not qualify is returned unchanged |
| DiskUnmap.Rewritten | vdsm_hooks/diskunmap/before_vm_start.py:43-51 | The rewritten document has as many disks as the original, and each can be rewritten again |
| DiskUnmap.RewrittenAt | vdsm_hooks/diskunmap/before_vm_start.py:44-51 | The k-th disk of the rewritten document is the k-th original disk rewritten on its own, so disk count and order are kept |
| DiskUnmap.UnmapDiskIdempotent | vdsm_hooks/diskunmap/before_vm_start.py:50-51 | Rewriting a disk twice gives the same disk as rewriting it once |
| DiskUnmap.RewrittenIdempotent | vdsm_hooks/diskunmap/before_vm_start.py:43-51 | Rewriting the document twice gives the same document as rewriting it once |
| DiskUnmap.AddDiscardUnmap | vdsm_hooks/diskunmap/before_vm_start.py:43-51 | The in-place loop leaves the array equal to the rule applied to its old contents |
| DiskUnmap.BeforeVmStart | vdsm_hooks/diskunmap/before_vm_start.py:54-60 | The document is rewritten and written back exactly when the diskunmap setting is present and equals "on"; otherwise it is unchanged |

## Left out

- UpdateVolume: sets all three of path, attachment and multipath id to given values. An update of only some of them, or one that clears a field, is not modelled. So the all-or-nothing invariant `Valid` is kept by construction, and clearing a multipath id is not a way to give up a device.
- Concurrent access (test_concurrency, tests/storage/managedvolumedb_test.py:182-250) is not modelled. That covers several handles on one file, threads, and the store's lock-retry and `StoreBusy` behaviour. The model is one handle, used sequentially.
- Opening a handle on a store that already holds records is not modelled. The same goes for `create_db` on an existing file and the `StoreUnavailable` failure. Every handle in the model is opened on a freshly created store, as in the tests.
- The SQLite file and the `DB_FILE` path are left out. So is the JSON serialisation of connection info and attachment: documents are opaque and compared only for equality.
- The `updated` timestamp of `version_info` is left out. It depends on the wall clock.
- `uuid.uuid4()` is left out. Test ids are parameters, so every test is proved for every id.
- Hook I/O is left out: reading the environment, `hooking.read_domxml`, `write_domxml` and `exit_hook`. The setting is an `Option<string>` parameter. Writing the document back is the `written` result.
- XML parsing with minidom and the printing `test()` helper are left out. The document is a sequence of disk records.
- The hook's error path is not modelled. When a disk lacks a target, or a qualifying disk lacks a driver, the source raises part-way through the loop and the hook exits with an error. The model requires both elements instead.
- `vdsm/dsaversion.py` is left out. It holds only static version constants.
