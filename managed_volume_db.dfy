/**
 * The managed-volume record store: a keyed table of volume records behind a
 * handle that can be closed, as the store's test suite pins it down
 * (tests/storage/managedvolumedb_test.py).
 *
 * The store is a stateful handle, so it is a class: the volume table is a
 * `map` field and the handle's state a `closed` field, and every operation
 * reports its typed failure (NotFound, VolumeAlreadyExists, Closed) in its
 * result instead of raising.  The tests themselves are the client methods at
 * the end of the module; their postconditions are the tests' assertions.
 */
module ManagedVolumeDb {
  import opened Wrappers

  /** An opaque structured document (connection info, attachment): the store
      keeps and returns it as given and only ever compares it for equality. */
  type Document(==)

  /** The schema generation written by a freshly created store. */
  const VERSION: nat := 1
  const INITIAL_DESCRIPTION: string := "Initial version"

  /** The schema-version record, without its wall-clock `updated` stamp. */
  datatype SchemaVersion = SchemaVersion(version: nat, description: string)

  /** One managed volume: the connection info it was added with and, once it
      is attached, its device path, attachment document and multipath id. */
  datatype Volume = Volume(
    connectionInfo: Document,
    path: Option<string>,
    attachment: Option<Document>,
    multipathId: Option<string>)

  /** The typed failures of the store. */
  datatype Error = NotFound | VolumeAlreadyExists | Closed

  /** The outcome of an operation that returns a value. */
  datatype Result<T> = Ok(value: T) | Err(error: Error)

  /** The outcome of an operation that returns nothing. */
  datatype Outcome = Pass | Fail(error: Error)

  /** The volume table, keyed by volume id. */
  type Table = map<string, Volume>

  /** The record that add_volume stores: connection info and nothing else. */
  function NewVolume(connectionInfo: Document): Volume
  {
    Volume(connectionInfo, None, None, None)
  }

  /** The record after update_volume: connection info kept, the three
      attachment fields overwritten. */
  function Attached(v: Volume, path: string, attachment: Document, multipathId: string): Volume
  {
    v.(path := Some(path), attachment := Some(attachment), multipathId := Some(multipathId))
  }

  /** The attachment fields are either all absent or all present. */
  predicate Consistent(v: Volume)
  {
    v.path.Some? == v.attachment.Some? && v.attachment.Some? == v.multipathId.Some?
  }

  /** Some live record claims the multipath device `multipathId`. */
  ghost predicate Owns(t: Table, multipathId: string)
  {
    exists id :: id in t && t[id].multipathId == Some(multipathId)
  }

  /** Some live record other than `id` claims the multipath device `multipathId`. */
  ghost predicate OwnedByOther(t: Table, id: string, multipathId: string)
  {
    exists other :: other in t && other != id && t[other].multipathId == Some(multipathId)
  }

  /** A handle on the store. */
  class VolumeDb {
    var volumes: Table
    var closed: bool

    /** Every record keeps its attachment fields together. */
    ghost predicate Valid()
      reads this
    {
      forall id | id in volumes :: Consistent(volumes[id])
    }

    /** A handle opened on a freshly created store (create_db, then open). */
    constructor Open()
      ensures Valid() && volumes == map[] && !closed
    {
      volumes := map[];
      closed := false;
    }

    /** Closes the handle; the table itself is untouched.  Closing twice is harmless. */
    method Close()
      requires Valid()
      modifies this
      ensures Valid() && closed && volumes == old(volumes)
    {
      closed := true;
    }

    /** The schema version and description written when the store was created. */
    method VersionInfo() returns (r: Result<SchemaVersion>)
      ensures closed <==> r == Err(Closed)
      ensures !closed ==> r.Ok? && r.value.version == VERSION && r.value.description == INITIAL_DESCRIPTION
    {
      if closed {
        return Err(Closed);
      }
      r := Ok(SchemaVersion(VERSION, INITIAL_DESCRIPTION));
    }

    /** Adds a record holding only `connectionInfo`; an id already present is
        refused and its record left as it was. */
    method AddVolume(id: string, connectionInfo: Document) returns (r: Outcome)
      requires Valid()
      modifies this
      ensures Valid() && closed == old(closed)
      ensures closed ==> r == Fail(Closed) && volumes == old(volumes)
      ensures !closed && id in old(volumes) ==> r == Fail(VolumeAlreadyExists) && volumes == old(volumes)
      ensures !closed && id !in old(volumes) ==> r == Pass && volumes == old(volumes)[id := NewVolume(connectionInfo)]
    {
      if closed {
        return Fail(Closed);
      }
      if id in volumes {
        return Fail(VolumeAlreadyExists);
      }
      volumes := volumes[id := NewVolume(connectionInfo)];
      r := Pass;
    }

    /** The full record of `id`. */
    method GetVolume(id: string) returns (r: Result<Volume>)
      ensures closed ==> r == Err(Closed)
      ensures !closed && id !in volumes ==> r == Err(NotFound)
      ensures !closed && id in volumes ==> r == Ok(volumes[id])
      ensures Valid() && r.Ok? ==> Consistent(r.value)
    {
      if closed {
        return Err(Closed);
      }
      if id !in volumes {
        return Err(NotFound);
      }
      r := Ok(volumes[id]);
    }

    /** Sets path, attachment and multipath id of an existing record, keeping
        its connection info; earlier values are overwritten. */
    method UpdateVolume(id: string, path: string, attachment: Document, multipathId: string) returns (r: Outcome)
      requires Valid()
      modifies this
      ensures Valid() && closed == old(closed)
      ensures closed ==> r == Fail(Closed) && volumes == old(volumes)
      ensures !closed && id !in old(volumes) ==> r == Fail(NotFound) && volumes == old(volumes)
      ensures !closed && id in old(volumes) ==>
                r == Pass && volumes == old(volumes)[id := Attached(old(volumes)[id], path, attachment, multipathId)]
    {
      if closed {
        return Fail(Closed);
      }
      if id !in volumes {
        return Fail(NotFound);
      }
      volumes := volumes[id := Attached(volumes[id], path, attachment, multipathId)];
      r := Pass;
    }

    /** Deletes the record of `id`. */
    method RemoveVolume(id: string) returns (r: Outcome)
      requires Valid()
      modifies this
      ensures Valid() && closed == old(closed)
      ensures closed ==> r == Fail(Closed) && volumes == old(volumes)
      ensures !closed && id !in old(volumes) ==> r == Fail(NotFound) && volumes == old(volumes)
      ensures !closed && id in old(volumes) ==> r == Pass && volumes == old(volumes) - {id}
    {
      if closed {
        return Fail(Closed);
      }
      if id !in volumes {
        return Fail(NotFound);
      }
      volumes := volumes - {id};
      r := Pass;
    }

    /** Whether some live record claims the multipath device; never NotFound. */
    method OwnsMultipath(multipathId: string) returns (r: Result<bool>)
      ensures closed ==> r == Err(Closed)
      ensures !closed ==> r.Ok? && (r.value <==> Owns(volumes, multipathId))
    {
      if closed {
        return Err(Closed);
      }
      r := Ok(exists id | id in volumes :: volumes[id].multipathId == Some(multipathId));
    }
  }

  /** A record splits ownership of a device into "this record" and "some other record". */
  lemma OwnsSplit(t: Table, id: string, multipathId: string)
    ensures Owns(t, multipathId) <==>
              (id in t && t[id].multipathId == Some(multipathId)) || OwnedByOther(t, id, multipathId)
  {
  }

  /** Adding a volume never changes which devices are owned. */
  lemma OwnsAfterAdd(t: Table, id: string, connectionInfo: Document, multipathId: string)
    requires id !in t
    ensures Owns(t[id := NewVolume(connectionInfo)], multipathId) <==> Owns(t, multipathId)
  {
    var t' := t[id := NewVolume(connectionInfo)];
    OwnsSplit(t, id, multipathId);
    OwnsSplit(t', id, multipathId);
    assert OwnedByOther(t', id, multipathId) ==> OwnedByOther(t, id, multipathId) by {
      if OwnedByOther(t', id, multipathId) {
        var other :| other in t' && other != id && t'[other].multipathId == Some(multipathId);
        assert other in t && t[other] == t'[other];
      }
    }
    assert OwnedByOther(t, id, multipathId) ==> OwnedByOther(t', id, multipathId) by {
      if OwnedByOther(t, id, multipathId) {
        var other :| other in t && other != id && t[other].multipathId == Some(multipathId);
        assert other in t' && t'[other] == t[other];
      }
    }
  }

  /** After an update of `id` to device `m`, a device is owned exactly when it
      is `m` or some other record already claimed it. */
  lemma OwnsAfterUpdate(t: Table, id: string, path: string, attachment: Document, m: string, multipathId: string)
    requires id in t
    ensures Owns(t[id := Attached(t[id], path, attachment, m)], multipathId) <==>
              multipathId == m || OwnedByOther(t, id, multipathId)
  {
    var t' := t[id := Attached(t[id], path, attachment, m)];
    OwnsSplit(t', id, multipathId);
    OtherOwnersUnchanged(t, t', id, multipathId);
  }

  /** After `id` is removed, a device is owned exactly when another record claims it. */
  lemma OwnsAfterRemove(t: Table, id: string, multipathId: string)
    ensures Owns(t - {id}, multipathId) <==> OwnedByOther(t, id, multipathId)
  {
    var t' := t - {id};
    OwnsSplit(t', id, multipathId);
    OtherOwnersUnchanged(t, t', id, multipathId);
  }

  /** Two tables that agree on every id but `id` agree on who else owns a device. */
  lemma OtherOwnersUnchanged(t: Table, t': Table, id: string, multipathId: string)
    requires t' - {id} == t - {id}
    ensures OwnedByOther(t', id, multipathId) <==> OwnedByOther(t, id, multipathId)
  {
    if OwnedByOther(t', id, multipathId) {
      var other :| other in t' && other != id && t'[other].multipathId == Some(multipathId);
      assert other in t' - {id};
      assert other in t && t[other] == (t - {id})[other];
    }
    if OwnedByOther(t, id, multipathId) {
      var other :| other in t && other != id && t[other].multipathId == Some(multipathId);
      assert other in t - {id};
      assert other in t' && t'[other] == (t' - {id})[other];
    }
  }

  /** The sole owner of a device releases it by being removed, and by being
      updated to another device. */
  lemma SoleOwnerReleases(t: Table, id: string, path: string, attachment: Document, m: string, multipathId: string)
    requires id in t && t[id].multipathId == Some(multipathId)
    requires !OwnedByOther(t, id, multipathId)
    requires m != multipathId
    ensures !Owns(t - {id}, multipathId)
    ensures !Owns(t[id := Attached(t[id], path, attachment, m)], multipathId)
  {
  }

  // The store's tests, as client code.  Each opens a handle on a fresh store,
  // runs the test's calls and returns what the test observes.

  /** test_create_db, test_get_non_existing: a fresh store holds no volume. */
  method GetFromFreshStore(id: string) returns (r: Result<Volume>)
    ensures r == Err(NotFound)
  {
    var db := new VolumeDb.Open();
    r := db.GetVolume(id);
    db.Close();
  }

  /** test_version_info: a fresh store reports the initial schema version. */
  method VersionOfFreshStore() returns (r: Result<SchemaVersion>)
    ensures r.Ok? && r.value.version == VERSION && r.value.description == "Initial version"
  {
    var db := new VolumeDb.Open();
    r := db.VersionInfo();
    db.Close();
  }

  /** test_db_close: once closed, get_volume and every other operation fail with Closed. */
  method UseAfterClose(id: string, connectionInfo: Document, path: string, attachment: Document, multipathId: string)
    returns (get: Result<Volume>, add: Outcome, update: Outcome, remove: Outcome, owns: Result<bool>, version: Result<SchemaVersion>)
    ensures get == Err(Closed) && owns == Err(Closed) && version == Err(Closed)
    ensures add == Fail(Closed) && update == Fail(Closed) && remove == Fail(Closed)
  {
    var db := new VolumeDb.Open();
    db.Close();
    get := db.GetVolume(id);
    add := db.AddVolume(id, connectionInfo);
    update := db.UpdateVolume(id, path, attachment, multipathId);
    remove := db.RemoveVolume(id);
    owns := db.OwnsMultipath(multipathId);
    version := db.VersionInfo();
  }

  /** test_insert_select: a volume just added reads back with its connection
      info only. */
  method InsertSelect(id: string, connectionInfo: Document) returns (added: Outcome, r: Result<Volume>)
    ensures added == Pass
    ensures r.Ok? && r.value.connectionInfo == connectionInfo
    ensures r.Ok? && r.value.path.None? && r.value.attachment.None? && r.value.multipathId.None?
  {
    var db := new VolumeDb.Open();
    added := db.AddVolume(id, connectionInfo);
    r := db.GetVolume(id);
    db.Close();
  }

  /** test_insert_existing: adding an id twice fails the second time, and the
      record still holds the first connection info. */
  method InsertExisting(id: string, connectionInfo: Document, connectionInfo2: Document)
    returns (first: Outcome, second: Outcome, r: Result<Volume>)
    ensures first == Pass && second == Fail(VolumeAlreadyExists)
    ensures r == Ok(Volume(connectionInfo, None, None, None))
  {
    var db := new VolumeDb.Open();
    first := db.AddVolume(id, connectionInfo);
    second := db.AddVolume(id, connectionInfo2);
    r := db.GetVolume(id);
    db.Close();
  }

  /** test_update: after an update the record holds the original connection
      info together with the new path, attachment and multipath id. */
  method UpdateThenGet(id: string, connectionInfo: Document, path: string, attachment: Document, multipathId: string)
    returns (before: Result<Volume>, updated: Outcome, after: Result<Volume>)
    ensures before == Ok(Volume(connectionInfo, None, None, None))
    ensures updated == Pass
    ensures after == Ok(Volume(connectionInfo, Some(path), Some(attachment), Some(multipathId)))
  {
    var db := new VolumeDb.Open();
    var added := db.AddVolume(id, connectionInfo);
    before := db.GetVolume(id);
    updated := db.UpdateVolume(id, path, attachment, multipathId);
    after := db.GetVolume(id);
    db.Close();
  }

  /** test_delete: a removed volume is no longer found. */
  method RemoveThenGet(id: string, connectionInfo: Document) returns (before: Result<Volume>, removed: Outcome, after: Result<Volume>)
    ensures before.Ok? && before.value.connectionInfo == connectionInfo
    ensures removed == Pass && after == Err(NotFound)
  {
    var db := new VolumeDb.Open();
    var added := db.AddVolume(id, connectionInfo);
    before := db.GetVolume(id);
    removed := db.RemoveVolume(id);
    after := db.GetVolume(id);
    db.Close();
  }

  /** test_owns_multipath: a device is owned only between the update that
      claims it and the removal of the claiming volume. */
  method OwnsMultipathLifecycle(id: string, connectionInfo: Document, path: string, attachment: Document, multipathId: string)
    returns (empty: Result<bool>, added: Result<bool>, updated: Result<bool>, removed: Result<bool>)
    ensures empty == Ok(false) && added == Ok(false)
    ensures updated == Ok(true) && removed == Ok(false)
  {
    var db := new VolumeDb.Open();
    empty := db.OwnsMultipath(multipathId);
    var t0 := db.volumes;
    var a := db.AddVolume(id, connectionInfo);
    OwnsAfterAdd(t0, id, connectionInfo, multipathId);
    added := db.OwnsMultipath(multipathId);
    var t1 := db.volumes;
    var u := db.UpdateVolume(id, path, attachment, multipathId);
    OwnsAfterUpdate(t1, id, path, attachment, multipathId, multipathId);
    updated := db.OwnsMultipath(multipathId);
    var t2 := db.volumes;
    var d := db.RemoveVolume(id);
    OwnsAfterRemove(t2, id, multipathId);
    OtherOwnersUnchanged(t1, t2, id, multipathId);
    removed := db.OwnsMultipath(multipathId);
    db.Close();
  }
}
