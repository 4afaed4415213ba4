/** The durable copy of the snapshots (`src/snapshot_store.rs`): a save as a
    sequence of file operations that a crash may cut anywhere. Serialisation is a
    parameter that round-trips the numbers a float can hold; renaming is atomic, and
    synced data and completed renames survive. Any operation may fail. */
module SnapshotStore {
  import opened Prelude
  import opened Snapshot

  type SnapshotMap = map<string, ChargePoint>

  /** A file as the disk holds it; unsynced content does not survive a crash. */
  datatype File = File(content: string, synced: bool)

  /** The snapshot file and the temporary file beside it. */
  datatype Disk = Disk(main: Option<File>, tmp: Option<File>)

  /** How a map is written and read back. `floats` are the reals that a stored
      number can be. */
  datatype Codec = Codec(encode: SnapshotMap -> string, decode: string -> Option<SnapshotMap>, floats: iset<real>) {
    predicate Holds(amps: Option<real>) {
      amps.Some? ==> amps.value in floats
    }

    predicate Storable(m: SnapshotMap) {
      forall id :: id in m ==> Holds(m[id].body.limit.amps)
    }

    /** The only number an entry can bring in is the limit that was applied. */
    predicate Brings(e: Entry) {
      e.Result? ==> Holds(e.applied)
    }

    ghost predicate RoundTrips() {
      && (forall m :: Storable(m) ==> decode(encode(m)) == Some(m))
      && (forall text :: decode(text).Some? ==> Storable(decode(text).value))
    }
  }

  /** Read the map back; a missing or unreadable file is an empty map. */
  function Load(codec: Codec, disk: Disk): SnapshotMap {
    if disk.main.None? then map[]
    else
      match codec.decode(disk.main.value.content)
      case Some(m) => m
      case None => map[]
  }

  /** What a crash may leave of a file: synced content stays, anything else may
      be torn, emptied or gone. */
  predicate Survives(before: Option<File>, after: Option<File>) {
    && (before.None? ==> after.None?)
    && (before.Some? && before.value.synced ==> after == before)
    && (after.Some? ==> after.value.synced)
  }

  predicate CrashLeaves(before: Disk, after: Disk) {
    Survives(before.main, after.main) && Survives(before.tmp, after.tmp)
  }

  /** A disk seen while `bytes` were being saved over `start`. */
  predicate SeenWhileSaving(start: Disk, bytes: string, d: Disk) {
    d.main == start.main || d.main == Some(File(bytes, true))
  }

  // ---- the file operations ----

  class FileSystem {
    var disk: Disk
    /** Every state the disk has been in. */
    ghost var seen: seq<Disk>

    ghost predicate Valid()
      reads this
    {
      seen != [] && seen[|seen| - 1] == disk
    }

    constructor (disk: Disk)
      ensures Valid() && this.disk == disk && seen == [disk]
    {
      this.disk := disk;
      seen := [disk];
    }

    method CreateTmp() returns (ok: bool)
      requires Valid()
      modifies this
      ensures Valid() && seen == old(seen) + [disk]
      ensures disk == if ok then old(disk).(tmp := Some(File("", false))) else old(disk)
    {
      ok := *;
      if ok {
        disk := disk.(tmp := Some(File("", false)));
      }
      seen := seen + [disk];
    }

    /** One write call: the system takes as much of `bytes` as it likes, or fails and
        takes nothing. */
    method Write(bytes: string) returns (taken: nat)
      requires Valid() && disk.tmp.Some?
      modifies this
      ensures taken <= |bytes| && Valid() && seen == old(seen) + [disk]
      ensures disk == old(disk).(tmp := Some(File(old(disk).tmp.value.content + bytes[..taken], false)))
    {
      taken :| 0 <= taken <= |bytes|;
      disk := disk.(tmp := Some(File(disk.tmp.value.content + bytes[..taken], false)));
      seen := seen + [disk];
    }

    method SyncTmp() returns (ok: bool)
      requires Valid() && disk.tmp.Some?
      modifies this
      ensures Valid() && seen == old(seen) + [disk]
      ensures disk == if ok then old(disk).(tmp := Some(old(disk).tmp.value.(synced := true))) else old(disk)
    {
      ok := *;
      if ok {
        disk := disk.(tmp := Some(disk.tmp.value.(synced := true)));
      }
      seen := seen + [disk];
    }

    method RenameTmp() returns (ok: bool)
      requires Valid() && disk.tmp.Some?
      modifies this
      ensures Valid() && seen == old(seen) + [disk]
      ensures disk == if ok then Disk(old(disk).tmp, None) else old(disk)
    {
      ok := *;
      if ok {
        disk := Disk(disk.tmp, None);
      }
      seen := seen + [disk];
    }

    /** Put the whole of `bytes` into the temporary file, unless a call fails. */
    method WriteAll(bytes: string) returns (ok: bool)
      requires Valid()
      modifies this
      ensures Valid() && disk.main == old(disk).main
      ensures ok ==> disk.tmp == Some(File(bytes, false))
      ensures |old(seen)| < |seen| && seen[..|old(seen)|] == old(seen)
      ensures forall k :: |old(seen)| <= k < |seen| ==> seen[k].main == old(disk).main
    {
      ok := CreateTmp();
      if !ok {
        return;
      }
      var written := 0;
      while written < |bytes|
        invariant written <= |bytes| && Valid()
        invariant disk == Disk(old(disk).main, Some(File(bytes[..written], false)))
        invariant |old(seen)| < |seen| && seen[..|old(seen)|] == old(seen)
        invariant forall k :: |old(seen)| <= k < |seen| ==> seen[k].main == old(disk).main
      {
        var taken := Write(bytes[written..]);
        if taken == 0 {
          return false;
        }
        assert bytes[..written] + bytes[written..][..taken] == bytes[..written + taken];
        written := written + taken;
      }
      assert bytes[..written] == bytes;
    }

    /** Write the whole of `bytes` to the temporary file, then swap it in. Every
        state on the way shows the old file or the complete new one, and if a call
        fails anywhere, the old file is what stays. */
    method SaveInner(bytes: string) returns (ok: bool)
      requires Valid()
      modifies this
      ensures Valid()
      ensures if ok then disk == Disk(Some(File(bytes, true)), None) else disk.main == old(disk).main
      ensures |old(seen)| < |seen| && seen[..|old(seen)|] == old(seen)
      ensures forall k :: |old(seen)| <= k < |seen| ==> SeenWhileSaving(old(disk), bytes, seen[k])
    {
      ok := WriteAll(bytes);
      if !ok {
        return;
      }
      ok := SyncTmp();
      if !ok {
        return;
      }
      ok := RenameTmp();
    }
  }

  // ---- memory and disk together ----

  function Lookup(m: SnapshotMap, id: string): ChargePoint {
    if id in m then m[id] else NO_SNAPSHOT
  }

  /** Equal for every charge point, an absent entry reading as the default. */
  ghost predicate Agree(a: SnapshotMap, b: SnapshotMap) {
    forall id :: Lookup(a, id) == Lookup(b, id)
  }

  /** The entry is created if missing, then the event is folded in. */
  function Remember(m: SnapshotMap, id: string, e: Entry): SnapshotMap {
    m[id := Fold(Lookup(m, id), e)]
  }

  predicate Changes(m: SnapshotMap, id: string, e: Entry) {
    FoldBody(Lookup(m, id).body, e) != Lookup(m, id).body
  }

  datatype Saving = NotNeeded | Saved | Failed

  /** The publisher's memory over the store. `durable` is what the disk holds: the
      memory as it was at the latest save that succeeded. */
  class SnapshotKeeper {
    const fs: FileSystem
    var memory: SnapshotMap
    const codec: Codec
    ghost var durable: SnapshotMap

    ghost predicate Valid()
      reads this, fs
    {
      && fs.Valid()
      && codec.RoundTrips() && codec.Storable(memory)
      && Agree(durable, Load(codec, fs.disk))
    }

    constructor (fs: FileSystem, codec: Codec)
      requires fs.Valid() && codec.RoundTrips()
      ensures Valid() && this.fs == fs && this.codec == codec
      ensures memory == durable == Load(codec, fs.disk)
    {
      this.fs, this.codec := fs, codec;
      memory := Load(codec, fs.disk);
      durable := Load(codec, fs.disk);
    }

    /** Fold one event in, and save if it moved a field. A save that succeeds makes
        all of memory durable; one that fails leaves what was durable before. */
    method Record(id: string, e: Entry) returns (saving: Saving)
      requires Valid() && codec.Brings(e)
      modifies this, fs
      ensures Valid() && memory == Remember(old(memory), id, e)
      ensures saving.NotNeeded? <==> Lookup(memory, id).body == Lookup(old(memory), id).body
      ensures durable == if saving.Saved? then memory else old(durable)
      ensures !saving.Saved? ==> fs.disk.main == old(fs.disk).main
      ensures saving.NotNeeded? ==> fs.disk == old(fs.disk) && Agree(memory, old(memory))
      ensures |old(fs.seen)| <= |fs.seen| && fs.seen[..|old(fs.seen)|] == old(fs.seen)
      ensures forall k :: |old(fs.seen)| <= k < |fs.seen|
                      ==> SeenWhileSaving(old(fs.disk), codec.encode(memory), fs.seen[k])
    {
      var before := memory;
      var snapshot := if id in memory then memory[id] else NO_SNAPSHOT;
      memory := memory[id := Fold(snapshot, e)];
      if FoldBody(snapshot.body, e) != snapshot.body {
        var ok := fs.SaveInner(codec.encode(memory));
        saving := if ok then Saved else Failed;
        if ok {
          durable := memory;
        }
      } else {
        saving := NotNeeded;
        assert Fold(snapshot, e) == snapshot;
        assert forall other :: Lookup(memory, other) == Lookup(before, other);
      }
    }
  }

  /** A crash at any point of handling an event, followed by a restart, recovers
      for every charge point what was durable before, or memory with that event. */
  lemma CrashRecoversBeforeOrAfter(codec: Codec, start: Disk, memory: SnapshotMap, durable: SnapshotMap,
                                   id: string, e: Entry, seen: Disk, left: Disk)
    requires codec.RoundTrips() && codec.Storable(memory) && codec.Brings(e)
    requires Agree(durable, Load(codec, start)) && (start.main.Some? ==> start.main.value.synced)
    requires if Changes(memory, id, e) then SeenWhileSaving(start, codec.encode(Remember(memory, id, e)), seen)
             else seen.main == start.main
    requires CrashLeaves(seen, left)
    ensures Agree(Load(codec, left), durable) || Agree(Load(codec, left), Remember(memory, id, e))
  {
    if seen.main != start.main {
      var after := Remember(memory, id, e);
      assert codec.decode(codec.encode(after)) == Some(after);
      assert Load(codec, left) == after;
    } else {
      assert left.main == start.main;
      assert Load(codec, left) == Load(codec, start);
    }
  }

  // ---- any number of events, failed saves and crashes ----

  /** Handle an event to the end, with a save that succeeds if one is needed or one
      that fails and leaves some temporary file, or crash in the middle of it and
      restart. */
  datatype Happening =
    | Handled(id: string, entry: Entry)
    | Unsaved(id: string, entry: Entry, tmp: Option<File>)
    | Crashed(id: string, entry: Entry, seen: Disk, left: Disk)

  datatype Store = Store(memory: SnapshotMap, durable: SnapshotMap, disk: Disk)

  predicate Possible(codec: Codec, s: Store, x: Happening) {
    && codec.Brings(x.entry)
    && (x.Unsaved? ==> Changes(s.memory, x.id, x.entry))
    && (x.Crashed? ==>
          && CrashLeaves(x.seen, x.left)
          && if Changes(s.memory, x.id, x.entry)
             then SeenWhileSaving(s.disk, codec.encode(Remember(s.memory, x.id, x.entry)), x.seen)
             else x.seen.main == s.disk.main)
  }

  function Started(codec: Codec, disk: Disk): Store {
    Store(Load(codec, disk), Load(codec, disk), disk)
  }

  function Next(codec: Codec, s: Store, x: Happening): Store {
    match x
    case Handled(id, e) =>
      var memory := Remember(s.memory, id, e);
      if Changes(s.memory, id, e) then Store(memory, memory, Disk(Some(File(codec.encode(memory), true)), None))
      else s.(memory := memory)
    case Unsaved(id, e, tmp) => Store(Remember(s.memory, id, e), s.durable, s.disk.(tmp := tmp))
    case Crashed(_, _, _, left) => Started(codec, left)
  }

  function After(codec: Codec, first: Disk, xs: seq<Happening>): Store {
    if xs == [] then Started(codec, first)
    else Next(codec, After(codec, first, xs[..|xs| - 1]), xs[|xs| - 1])
  }

  predicate AllPossible(codec: Codec, first: Disk, xs: seq<Happening>) {
    xs == [] ||
    var n := |xs| - 1;
    AllPossible(codec, first, xs[..n]) && Possible(codec, After(codec, first, xs[..n]), xs[n])
  }

  /** No save has failed since the latest one that succeeded, or the latest start. */
  predicate CaughtUp(codec: Codec, first: Disk, xs: seq<Happening>) {
    xs == [] ||
    var n := |xs| - 1;
    match xs[n]
    case Handled(id, e) => Changes(After(codec, first, xs[..n]).memory, id, e) || CaughtUp(codec, first, xs[..n])
    case Unsaved(_, _, _) => false
    case Crashed(_, _, _, _) => true
  }

  ghost predicate InStep(codec: Codec, s: Store) {
    && codec.Storable(s.memory) && Agree(s.durable, Load(codec, s.disk))
    && (s.disk.main.Some? ==> s.disk.main.value.synced)
  }

  lemma NextInStep(codec: Codec, s: Store, x: Happening)
    requires codec.RoundTrips() && InStep(codec, s) && Possible(codec, s, x)
    ensures InStep(codec, Next(codec, s, x))
    ensures x.Handled? && !Changes(s.memory, x.id, x.entry) ==> Agree(Next(codec, s, x).memory, s.memory)
  {
    var memory := Remember(s.memory, x.id, x.entry);
    if x.Handled? && Changes(s.memory, x.id, x.entry) {
      assert codec.decode(codec.encode(memory)) == Some(memory);
    } else if x.Handled? {
      assert forall other :: Lookup(memory, other) == Lookup(s.memory, other);
    }
  }

  /** The disk holds memory as of the latest save that succeeded after any mix of
      events, failed saves and crashes, whatever it held at the first start, garbage
      included; and it holds memory as it is unless a save has failed since. */
  lemma {:induction false} MemoryAndDiskStayInStep(codec: Codec, first: Disk, xs: seq<Happening>)
    requires codec.RoundTrips() && (first.main.Some? ==> first.main.value.synced)
    requires AllPossible(codec, first, xs)
    ensures var s := After(codec, first, xs);
            InStep(codec, s) && (CaughtUp(codec, first, xs) ==> Agree(s.memory, s.durable))
  {
    if xs != [] {
      var n := |xs| - 1;
      MemoryAndDiskStayInStep(codec, first, xs[..n]);
      NextInStep(codec, After(codec, first, xs[..n]), xs[n]);
    }
  }

  /** What the events of a run without crashes say about a charge point. */
  function Told(xs: seq<Happening>, id: string): seq<Entry> {
    if xs == [] then []
    else Told(xs[..|xs| - 1], id) + (if xs[|xs| - 1].id == id then [xs[|xs| - 1].entry] else [])
  }

  /** Until the next crash every charge point is remembered as what was stored with all
      its events folded in, saves that failed included. */
  lemma {:induction false} MemoryIsTheFold(codec: Codec, first: Disk, xs: seq<Happening>, id: string)
    requires forall x :: x in xs ==> !x.Crashed?
    ensures Lookup(After(codec, first, xs).memory, id) == FoldAll(Lookup(Load(codec, first), id), Told(xs, id))
  {
    if xs != [] {
      var n := |xs| - 1;
      MemoryIsTheFold(codec, first, xs[..n], id);
      FoldAllSnoc(Lookup(Load(codec, first), id), Told(xs[..n], id), if xs[n].id == id then [xs[n].entry] else []);
      assert xs[n] in xs;
    }
  }

  /** What a restart recovers, after any such run: the event the crash interrupted
      happened as a whole or not at all, and nothing older is lost but what a failed
      save had left behind. */
  lemma RestartLosesAtMostTheLatestEvent(codec: Codec, first: Disk, xs: seq<Happening>, x: Happening)
    requires codec.RoundTrips() && (first.main.Some? ==> first.main.value.synced)
    requires AllPossible(codec, first, xs) && x.Crashed? && Possible(codec, After(codec, first, xs), x)
    ensures var s := After(codec, first, xs);
            var recovered := Next(codec, s, x).memory;
            && (Agree(recovered, s.durable) || Agree(recovered, Remember(s.memory, x.id, x.entry)))
            && (CaughtUp(codec, first, xs) ==>
                  Agree(recovered, s.memory) || Agree(recovered, Remember(s.memory, x.id, x.entry)))
  {
    MemoryAndDiskStayInStep(codec, first, xs);
    var s := After(codec, first, xs);
    CrashRecoversBeforeOrAfter(codec, s.disk, s.memory, s.durable, x.id, x.entry, x.seen, x.left);
  }
}
