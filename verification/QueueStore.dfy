/**
  The on-disk queue: `<state_dir>/queue` and `<state_dir>/failed`.

  Every file operation is one atomic step on the value `Disk`; a file being written
  is `Torn` until the write returns. The class `Queue` strings those steps together
  as `queue.rs` does, with a fault injected at any of them, and the step machine in
  `System` interleaves the same steps with everything else.
*/
module QueueStore {
  import opened Messages

  datatype File = Complete(entry: QueueEntry) | Torn

  /** Names in the failed directory: `{created_at}-{id}.json`, or a queue file name moved there. */
  datatype FailedName = Abandoned(createdAt: u64, id: Id) | Quarantined(id: Id)

  /** `queue` holds `{id}.json`, `temps` holds `.{id}.json.tmp`, both by id. */
  datatype Disk = Disk(queue: map<Id, File>, temps: map<Id, File>, failed: map<FailedName, File>)

  const EMPTY: Disk := Disk(map[], map[], map[])

  function FailedNameOf(e: QueueEntry): FailedName {
    Abandoned(e.createdAt, e.id)
  }

  // ----- single file operations -----

  function OpenTemp(d: Disk, id: Id): Disk {
    d.(temps := d.temps[id := Torn])
  }

  function FillTemp(d: Disk, e: QueueEntry): Disk {
    d.(temps := d.temps[e.id := Complete(e)])
  }

  function RenameTemp(d: Disk, id: Id): Disk
    requires id in d.temps
  {
    d.(queue := d.queue[id := d.temps[id]], temps := d.temps - {id})
  }

  function Unlink(d: Disk, id: Id): Disk {
    d.(queue := d.queue - {id})
  }

  function OpenFailed(d: Disk, e: QueueEntry): Disk {
    d.(failed := d.failed[FailedNameOf(e) := Torn])
  }

  function FillFailed(d: Disk, e: QueueEntry): Disk {
    d.(failed := d.failed[FailedNameOf(e) := Complete(e)])
  }

  function Quarantine(d: Disk, id: Id): Disk
    requires id in d.queue
  {
    d.(queue := d.queue - {id}, failed := d.failed[Quarantined(id) := d.queue[id]])
  }

  function UnlinkTemp(d: Disk, id: Id): Disk {
    d.(temps := d.temps - {id})
  }

  // ----- whole operations, with the step that fails -----

  datatype StoreFault = StoreOk | StoreOpenFails | StoreWriteFails | StoreRenameFails

  datatype FailFault = FailOk | FailOpenFails | FailWriteFails | FailUnlinkFails

  function StoreOn(d: Disk, e: QueueEntry, fault: StoreFault): Disk {
    match fault
    case StoreOpenFails => d
    case StoreWriteFails => OpenTemp(d, e.id)
    case StoreRenameFails => FillTemp(OpenTemp(d, e.id), e)
    case StoreOk => RenameTemp(FillTemp(OpenTemp(d, e.id), e), e.id)
  }

  function FailOn(d: Disk, e: QueueEntry, fault: FailFault): Disk {
    match fault
    case FailOpenFails => d
    case FailWriteFails => OpenFailed(d, e)
    case FailUnlinkFails => FillFailed(OpenFailed(d, e), e)
    case FailOk => Unlink(FillFailed(OpenFailed(d, e), e), e.id)
  }

  // ----- loading -----

  /** A name met while reading the queue directory. */
  datatype DirName = Final(id: Id) | Temp(id: Id) | Foreign(name: string)

  datatype Loading = Loading(disk: Disk, entries: map<Id, QueueEntry>)

  /** What happens to one name; the flags say whether its file operation succeeds. */
  function LoadOne(st: Loading, name: DirName, readable: bool, movable: bool): Loading {
    match name
    case Temp(id) => if movable then st.(disk := UnlinkTemp(st.disk, id)) else st
    case Foreign(_) => st
    case Final(id) =>
      if id !in st.disk.queue then st
      else if readable && st.disk.queue[id].Complete? then
        st.(entries := st.entries[st.disk.queue[id].entry.id := st.disk.queue[id].entry])
      else if movable then st.(disk := Quarantine(st.disk, id))
      else st
  }

  /** Which file operations fail while loading. */
  datatype LoadFaults = LoadFaults(unreadable: set<DirName>, immovable: set<DirName>)

  function LoadRun(st: Loading, listing: seq<DirName>, faults: LoadFaults): Loading
    decreases |listing|
  {
    if listing == [] then st
    else LoadRun(LoadOne(st, listing[0], listing[0] !in faults.unreadable, listing[0] !in faults.immovable),
                 listing[1..], faults)
  }

  class Queue {
    var disk: Disk

    constructor (disk: Disk)
      ensures this.disk == disk
    {
      this.disk := disk;
    }

    /** What other tasks do to the directories while the caller waits. */
    method Meanwhile(others: Disk -> Disk)
      modifies this
      ensures disk == others(old(disk))
    {
      disk := others(disk);
    }

    method Store(e: QueueEntry, fault: StoreFault) returns (ok: bool)
      modifies this
      ensures disk == StoreOn(old(disk), e, fault)
      ensures ok <==> fault.StoreOk?
      ensures disk.queue == if ok then old(disk.queue)[e.id := Complete(e)] else old(disk.queue)
      ensures disk.failed == old(disk.failed) && (ok ==> disk.temps == old(disk.temps) - {e.id})
    {
      if fault.StoreOpenFails? {
        return false;
      }
      disk := OpenTemp(disk, e.id);
      if fault.StoreWriteFails? {
        return false;
      }
      disk := FillTemp(disk, e);
      if fault.StoreRenameFails? {
        return false;
      }
      disk := RenameTemp(disk, e.id);
      return true;
    }

    /** A missing file counts as removed. */
    method Remove(id: Id, fails: bool) returns (ok: bool)
      modifies this
      ensures disk == if fails then old(disk) else old(disk).(queue := old(disk.queue) - {id})
      ensures ok <==> !fails || id !in old(disk).queue
    {
      if id !in disk.queue {
        assert disk.queue == disk.queue - {id};
        return true;
      }
      if fails {
        return false;
      }
      disk := Unlink(disk, id);
      return true;
    }

    method Fail(e: QueueEntry, fault: FailFault) returns (ok: bool)
      modifies this
      ensures disk == FailOn(old(disk), e, fault)
      ensures ok ==> disk == old(disk).(queue := old(disk.queue) - {e.id},
                                        failed := old(disk.failed)[Abandoned(e.createdAt, e.id) := Complete(e)])
      ensures !ok ==> !fault.FailOk? && disk.queue == old(disk.queue) && disk.temps == old(disk.temps)
      ensures forall name :: name in old(disk.failed) && name != Abandoned(e.createdAt, e.id) ==>
                name in disk.failed && disk.failed[name] == old(disk.failed)[name]
    {
      if fault.FailOpenFails? {
        return false;
      }
      disk := OpenFailed(disk, e);
      if fault.FailWriteFails? {
        return false;
      }
      disk := FillFailed(disk, e);
      ok := Remove(e.id, fault.FailUnlinkFails?);
    }

    /**
      Reads every name of `listing`, in directory order. Reading the directory stops
      with an error at position `brokenAt`, if that comes first.
    */
    method LoadAll(listing: seq<DirName>, faults: LoadFaults, brokenAt: nat) returns (r: Option<map<Id, QueueEntry>>)
      modifies this
      ensures r.Some? <==> brokenAt >= |listing|
      ensures var seen := if brokenAt < |listing| then listing[..brokenAt] else listing;
              var end := LoadRun(Loading(old(disk), map[]), seen, faults);
              disk == end.disk && (r.Some? ==> r.value == end.entries)
    {
      var entries: map<Id, QueueEntry> := map[];
      ghost var seen := if brokenAt < |listing| then listing[..brokenAt] else listing;
      for i := 0 to |listing|
        invariant i <= |seen|
        invariant LoadRun(Loading(disk, entries), seen[i..], faults) == LoadRun(Loading(old(disk), map[]), seen, faults)
      {
        if i == brokenAt {
          return None;
        }
        var name := listing[i];
        assert seen[i..][0] == name && seen[i..][1..] == seen[i + 1..];
        match name {
          case Foreign(_) =>
          case Temp(id) =>
            if name !in faults.immovable {
              disk := UnlinkTemp(disk, id);
            }
          case Final(id) =>
            if id in disk.queue {
              if name !in faults.unreadable && disk.queue[id].Complete? {
                var entry := disk.queue[id].entry;
                entries := entries[entry.id := entry];
              } else if name !in faults.immovable {
                disk := Quarantine(disk, id);
              }
            }
        }
      }
      return Some(entries);
    }
  }

  // ----- what loading gives back -----

  /** Each file is stored under the id of the entry it holds. */
  ghost predicate WellNamed(d: Disk) {
    forall id :: id in d.queue && d.queue[id].Complete? ==> d.queue[id].entry.id == id
  }

  ghost predicate Lists(listing: seq<DirName>, d: Disk) {
    && (forall id :: id in d.queue ==> Final(id) in listing)
    && (forall id :: id in d.temps ==> Temp(id) in listing)
  }

  /** The file `{id}.json` can be read and parsed. */
  ghost predicate Loadable(d: Disk, id: Id, faults: LoadFaults) {
    id in d.queue && d.queue[id].Complete? && Final(id) !in faults.unreadable
  }

  /** What has become of the file of `id` after the names `seen`. */
  ghost predicate LoadedAs(d: Disk, seen: seq<DirName>, faults: LoadFaults, end: Loading, id: Id) {
    && (id in end.disk.queue <==> id in d.queue && !(Final(id) in seen && !Loadable(d, id, faults)
                                                     && Final(id) !in faults.immovable))
    && (id in end.disk.queue ==> end.disk.queue[id] == d.queue[id])
    && (id in end.disk.temps ==> id in d.temps && !(Temp(id) in seen && Temp(id) !in faults.immovable))
    && (id in d.queue && id !in end.disk.queue ==>
          Quarantined(id) in end.disk.failed && end.disk.failed[Quarantined(id)] == d.queue[id])
  }

  lemma {:induction false} LoadRunAppend(st: Loading, seen: seq<DirName>, name: DirName, faults: LoadFaults)
    ensures LoadRun(st, seen + [name], faults)
         == LoadOne(LoadRun(st, seen, faults), name, name !in faults.unreadable, name !in faults.immovable)
    decreases |seen|
  {
    if seen == [] {
      assert seen + [name] == [name];
    } else {
      LoadRunAppend(LoadOne(st, seen[0], seen[0] !in faults.unreadable, seen[0] !in faults.immovable), seen[1..],
                    name, faults);
      assert (seen + [name])[0] == seen[0] && (seen + [name])[1..] == seen[1..] + [name];
    }
  }

  lemma {:induction false} LoadRunPointwise(d: Disk, seen: seq<DirName>, faults: LoadFaults)
    ensures forall id :: LoadedAs(d, seen, faults, LoadRun(Loading(d, map[]), seen, faults), id)
    decreases |seen|
  {
    if seen == [] {
    } else {
      var front, name := seen[..|seen| - 1], seen[|seen| - 1];
      assert seen == front + [name];
      LoadRunAppend(Loading(d, map[]), front, name, faults);
      LoadRunPointwise(d, front, faults);
      var before := LoadRun(Loading(d, map[]), front, faults);
      var after := LoadRun(Loading(d, map[]), seen, faults);
      assert name.Final? ==> LoadedAs(d, front, faults, before, name.id);
      forall id ensures LoadedAs(d, seen, faults, after, id) {
        assert LoadedAs(d, front, faults, before, id);
        LoadOnePointwise(d, front, name, faults, before, id);
      }
    }
  }

  lemma LoadOnePointwise(d: Disk, front: seq<DirName>, name: DirName, faults: LoadFaults, before: Loading, id: Id)
    requires LoadedAs(d, front, faults, before, id)
    requires name.Final? ==> LoadedAs(d, front, faults, before, name.id)
    ensures LoadedAs(d, front + [name], faults,
                     LoadOne(before, name, name !in faults.unreadable, name !in faults.immovable), id)
  {
  }

  /** The entries come from readable files, whatever these are named. */
  ghost predicate FromFiles(d: Disk, seen: seq<DirName>, faults: LoadFaults, end: Loading) {
    && (forall k :: k in end.entries ==>
          exists id :: ReadAs(d, seen, faults, id, end.entries[k]) && end.entries[k].id == k)
    && (forall id :: Final(id) in seen ==> Loadable(d, id, faults) ==> d.queue[id].entry.id in end.entries)
    && (forall id :: id in d.queue ==> Loadable(d, id, faults) ==> id in end.disk.queue)
    && (forall id :: id in end.disk.queue ==> id in d.queue && end.disk.queue[id] == d.queue[id])
  }

  /** The file of `id` is among the names `seen` and reads as `e`. */
  ghost predicate ReadAs(d: Disk, seen: seq<DirName>, faults: LoadFaults, id: Id, e: QueueEntry) {
    Final(id) in seen && Loadable(d, id, faults) && d.queue[id].entry == e
  }

  /**
    Loading any directory, misnamed files included: every readable file's entry id is
    loaded, and every loaded entry is the content of a readable file with that id.
  */
  lemma {:induction false} LoadIsFromFiles(d: Disk, seen: seq<DirName>, faults: LoadFaults)
    ensures FromFiles(d, seen, faults, LoadRun(Loading(d, map[]), seen, faults))
    decreases |seen|
  {
    if seen == [] {
    } else {
      var front, name := seen[..|seen| - 1], seen[|seen| - 1];
      assert seen == front + [name];
      LoadRunAppend(Loading(d, map[]), front, name, faults);
      LoadIsFromFiles(d, front, faults);
      LoadOneFromFiles(d, front, name, faults, LoadRun(Loading(d, map[]), front, faults),
                       LoadRun(Loading(d, map[]), seen, faults));
    }
  }

  lemma LoadOneFromFiles(d: Disk, front: seq<DirName>, name: DirName, faults: LoadFaults, before: Loading,
                         after: Loading)
    requires FromFiles(d, front, faults, before)
    requires after == LoadOne(before, name, name !in faults.unreadable, name !in faults.immovable)
    ensures FromFiles(d, front + [name], faults, after)
  {
    var seen := front + [name];
    assert forall n :: n in seen <==> n in front || n == name;
    forall k | k in after.entries
      ensures exists id :: ReadAs(d, seen, faults, id, after.entries[k]) && after.entries[k].id == k
    {
      if k in before.entries && after.entries[k] == before.entries[k] {
        var id :| ReadAs(d, front, faults, id, before.entries[k]) && before.entries[k].id == k;
        assert ReadAs(d, seen, faults, id, after.entries[k]);
      } else {
        assert ReadAs(d, seen, faults, name.id, after.entries[k]);
      }
    }
  }

  /** The entry of `id` is the content of the file `{id}.json`, loaded exactly when that can be read. */
  ghost predicate LoadedByName(d: Disk, faults: LoadFaults, end: Loading, id: Id) {
    && (id in end.entries <==> Loadable(d, id, faults))
    && (id in end.entries ==> Complete(end.entries[id]) == d.queue[id] && id in end.disk.queue)
  }

  /**
    Loading a directory, in whatever order it is listed: the id of every readable file's
    entry is loaded and every loaded entry is the content of a readable file, where files
    are named after their entries the one of that name; every unreadable file is set aside
    unless that fails too; leftover temporary files never become entries.
  */
  lemma LoadAllExactly(d: Disk, listing: seq<DirName>, faults: LoadFaults)
    requires Lists(listing, d)
    ensures var end := LoadRun(Loading(d, map[]), listing, faults);
            && FromFiles(d, listing, faults, end)
            && (WellNamed(d) ==> forall id :: LoadedByName(d, faults, end, id))
            && (forall id :: id in d.queue && !Loadable(d, id, faults) ==>
                  if Final(id) in faults.immovable then id in end.disk.queue
                  else Quarantined(id) in end.disk.failed && end.disk.failed[Quarantined(id)] == d.queue[id])
            && (forall id :: id in end.disk.temps ==> Temp(id) in faults.immovable)
  {
    LoadRunPointwise(d, listing, faults);
    LoadIsFromFiles(d, listing, faults);
    var end := LoadRun(Loading(d, map[]), listing, faults);
    forall id
      ensures id in d.queue && !Loadable(d, id, faults) ==>
                if Final(id) in faults.immovable then id in end.disk.queue
                else Quarantined(id) in end.disk.failed && end.disk.failed[Quarantined(id)] == d.queue[id]
      ensures id in end.disk.temps ==> Temp(id) in faults.immovable
    {
      assert LoadedAs(d, listing, faults, end, id);
    }
    if WellNamed(d) {
      forall id ensures LoadedByName(d, faults, end, id) {
        NamesDecide(d, listing, faults, end, id);
      }
    }
  }

  lemma NamesDecide(d: Disk, listing: seq<DirName>, faults: LoadFaults, end: Loading, id: Id)
    requires WellNamed(d) && Lists(listing, d) && FromFiles(d, listing, faults, end)
    ensures LoadedByName(d, faults, end, id)
  {
    if id in end.entries {
      var file :| ReadAs(d, listing, faults, file, end.entries[id]) && end.entries[id].id == id;
      assert file == id;
    }
    if Loadable(d, id, faults) {
      assert Final(id) in listing && d.queue[id].entry.id in end.entries;
    }
  }

  /** A stored entry comes back from the next load, unless another file holds an entry with its id. */
  lemma StoreThenLoad(d: Disk, e: QueueEntry, listing: seq<DirName>, faults: LoadFaults)
    requires Lists(listing, StoreOn(d, e, StoreOk)) && Final(e.id) !in faults.unreadable
    requires forall id :: id in d.queue && d.queue[id].Complete? && d.queue[id].entry.id == e.id ==> id == e.id
    ensures var end := LoadRun(Loading(StoreOn(d, e, StoreOk), map[]), listing, faults);
            e.id in end.entries && end.entries[e.id] == e
  {
    var stored := StoreOn(d, e, StoreOk);
    var end := LoadRun(Loading(stored, map[]), listing, faults);
    LoadIsFromFiles(stored, listing, faults);
    assert Final(e.id) in listing && Loadable(stored, e.id, faults);
    var id :| ReadAs(stored, listing, faults, id, end.entries[e.id]);
  }
}
