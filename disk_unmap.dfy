/**
 * The diskunmap hook (vdsm_hooks/diskunmap/before_vm_start.py): before a VM
 * starts, it turns on UNMAP (TRIM) for the VM's SCSI and IDE disks by setting
 * discard="unmap" on each such disk's driver element.
 *
 * The domain XML is reduced to what the rule reads and writes: the sequence of
 * <disk> elements in document order, each with its own attributes and the
 * attributes of its <target> and <driver> descendants, in document order.
 * The rewrite runs in place over an array of these disk records.
 */
module DiskUnmap {
  import opened Wrappers

  /** The attributes of one XML element, by name. */
  type Attributes = map<string, string>

  /** One <disk> element of the domain description. */
  datatype Disk = Disk(attributes: Attributes, targets: seq<Attributes>, drivers: seq<Attributes>)

  const DISCARD: string := "discard"
  const UNMAP: string := "unmap"

  /** An element's attribute; a missing attribute reads as the empty string. */
  function GetAttribute(e: Attributes, name: string): string
  {
    if name in e then e[name] else ""
  }

  /** The rule's selection: a disk or LUN device whose first target is on a
      SCSI or IDE bus. */
  predicate Qualifies(d: Disk)
    requires |d.targets| > 0
  {
    var device := GetAttribute(d.attributes, "device");
    var bus := GetAttribute(d.targets[0], "bus");
    (device == "disk" || device == "lun") && (bus == "scsi" || bus == "ide")
  }

  /** The rewrite can look at the disk without an index error: it has a
      target, and a driver as well when it qualifies. */
  predicate Indexable(d: Disk)
  {
    |d.targets| > 0 && (Qualifies(d) ==> |d.drivers| > 0)
  }

  predicate AllIndexable(disks: seq<Disk>)
  {
    forall i | 0 <= i < |disks| :: Indexable(disks[i])
  }

  /** One disk after the rule: a qualifying disk's first driver gets
      discard="unmap" and keeps all its other attributes; every other part of
      the disk, and every disk that does not qualify, is left as it was. */
  function UnmapDisk(d: Disk): (r: Disk)
    requires Indexable(d)
    ensures r.attributes == d.attributes && r.targets == d.targets && |r.drivers| == |d.drivers|
    ensures Indexable(r) && Qualifies(r) == Qualifies(d)
    ensures !Qualifies(d) ==> r == d
    ensures Qualifies(d) ==> GetAttribute(r.drivers[0], DISCARD) == UNMAP
    ensures Qualifies(d) ==> r.drivers[0].Keys == d.drivers[0].Keys + {DISCARD}
    ensures Qualifies(d) ==>
              forall name | name in d.drivers[0] && name != DISCARD :: r.drivers[0][name] == d.drivers[0][name]
    ensures forall j | 0 < j < |d.drivers| :: r.drivers[j] == d.drivers[j]
  {
    if Qualifies(d) then d.(drivers := d.drivers[0 := d.drivers[0][DISCARD := UNMAP]]) else d
  }

  /** The whole document after the rule, disk by disk. */
  function Rewritten(disks: seq<Disk>): (r: seq<Disk>)
    requires AllIndexable(disks)
    ensures |r| == |disks| && AllIndexable(r)
  {
    if disks == [] then [] else [UnmapDisk(disks[0])] + Rewritten(disks[1..])
  }

  /** Dropping the first disk keeps every remaining disk indexable. */
  lemma AllIndexableTail(disks: seq<Disk>)
    requires AllIndexable(disks) && disks != []
    ensures AllIndexable(disks[1..])
  {
    forall i | 0 <= i < |disks[1..]| ensures Indexable(disks[1..][i]) {
      assert disks[1..][i] == disks[i + 1];
    }
  }

  /** The k-th disk of the rewritten document is the k-th disk rewritten on its own. */
  lemma {:induction false} RewrittenAt(disks: seq<Disk>, k: nat)
    requires AllIndexable(disks) && k < |disks|
    ensures Rewritten(disks)[k] == UnmapDisk(disks[k])
  {
    if k > 0 {
      AllIndexableTail(disks);
      RewrittenAt(disks[1..], k - 1);
    }
  }

  /** Rewriting a disk a second time changes nothing. */
  lemma UnmapDiskIdempotent(d: Disk)
    requires Indexable(d)
    ensures UnmapDisk(UnmapDisk(d)) == UnmapDisk(d)
  {
    if Qualifies(d) {
      var r := UnmapDisk(d);
      assert r.drivers[0][DISCARD := UNMAP] == r.drivers[0];
    }
  }

  /** Running the hook's rewrite twice gives the same document as running it once. */
  lemma {:induction false} RewrittenIdempotent(disks: seq<Disk>)
    requires AllIndexable(disks)
    ensures Rewritten(Rewritten(disks)) == Rewritten(disks)
  {
    if disks != [] {
      var r := Rewritten(disks);
      AllIndexableTail(disks);
      assert r[0] == UnmapDisk(disks[0]) && r[1..] == Rewritten(disks[1..]);
      UnmapDiskIdempotent(disks[0]);
      RewrittenIdempotent(disks[1..]);
    }
  }

  /** addDiscardUnmap: walks the disks in order and sets discard="unmap" on
      the first driver of every qualifying disk, in place. */
  method AddDiscardUnmap(disks: array<Disk>)
    requires AllIndexable(disks[..])
    modifies disks
    ensures disks[..] == Rewritten(old(disks[..]))
  {
    ghost var original := disks[..];
    for i := 0 to disks.Length
      invariant forall k | 0 <= k < i :: disks[k] == UnmapDisk(original[k])
      invariant forall k | i <= k < disks.Length :: disks[k] == original[k]
    {
      var disk := disks[i];
      assert Indexable(original[i]);
      if Qualifies(disk) {
        var driver := disk.drivers[0];
        disks[i] := disk.(drivers := disk.drivers[0 := driver[DISCARD := UNMAP]]);
      }
    }
    forall k | 0 <= k < disks.Length ensures disks[..][k] == Rewritten(original)[k] {
      RewrittenAt(original, k);
    }
  }

  /** The hook's entry point: the document is rewritten only when the
      diskunmap setting is present and equals "on"; otherwise it is left as
      it was and not written back. */
  method BeforeVmStart(diskunmap: Option<string>, disks: array<Disk>) returns (written: bool)
    requires diskunmap == Some("on") ==> AllIndexable(disks[..])
    modifies disks
    ensures written <==> diskunmap == Some("on")
    ensures disks[..] == if written then Rewritten(old(disks[..])) else old(disks[..])
  {
    written := false;
    if diskunmap.Some? {
      if diskunmap.value == "on" {
        AddDiscardUnmap(disks);
        written := true;
      }
    }
  }
}
