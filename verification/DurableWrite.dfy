/** Crash-safe file replacement over a file system that loses unsynced data. */
module DurableWrite {
  import opened Wrappers

  type Bytes = seq<bv8>

  /** The data a reader sees, and whether it is what a crash leaves. */
  datatype File = File(data: Bytes, synced: bool)

  /** A directory change that has not been synced: a name now leads to a file, or to nothing; a rename does both at once. */
  datatype Change = Enter(name: string, inode: int) | Leave(name: string) | Move(from: string, to: string, inode: int)

  /** names is the directory programs see, stable the one of the last successful directory sync. */
  datatype Fs = Fs(files: map<int, File>, names: map<string, int>, stable: map<string, int>, pending: seq<Change>, next: int)

  function Lookup(dir: map<string, int>, name: string): Option<int> { if name in dir then Some(dir[name]) else None }

  /** What a change makes of a name; None when it leaves the name alone. */
  function Effect(c: Change, name: string): Option<Option<int>> {
    match c
    case Enter(n, i) => if n == name then Some(Some(i)) else None
    case Leave(n) => if n == name then Some(None) else None
    case Move(a, b, i) => if b == name then Some(Some(i)) else if a == name then Some(None) else None
  }

  /** After a crash the name may lead to b: any subset of the pending changes may have reached the disk. */
  ghost predicate MayBind(fs: Fs, name: string, b: Option<int>) {
    b == Lookup(fs.stable, name) || exists k :: 0 <= k < |fs.pending| && Effect(fs.pending[k], name) == Some(b)
  }

  /** After a crash the name may hold c: a file that was not synced may hold anything. */
  ghost predicate MayHold(fs: Fs, name: string, c: Option<Bytes>) {
    exists b :: MayBind(fs, name, b) && Fits(fs.files, b, c)
  }

  predicate Fits(files: map<int, File>, b: Option<int>, c: Option<Bytes>) {
    match b
    case None => c.None?
    case Some(i) => c.Some? && (i in files && files[i].synced ==> c.value == files[i].data)
  }

  /** The file programs find under a name. */
  function Entry(fs: Fs, name: string): Option<File> {
    if name in fs.names && fs.names[name] in fs.files then Some(fs.files[fs.names[name]]) else None
  }

  function Content(fs: Fs, name: string): Option<Bytes> {
    if Entry(fs, name).Some? then Some(Entry(fs, name).value.data) else None
  }

  ghost predicate Valid(fs: Fs) {
    && (forall n :: MayBind(fs, n, Lookup(fs.names, n)))
    && (forall n, i :: MayBind(fs, n, Some(i)) ==> i in fs.files)
    && (forall i :: i in fs.files ==> i < fs.next)
  }

  /** No other name leads, or may lead after a crash, to the file of this name. */
  ghost predicate Private(fs: Fs, name: string) {
    name in fs.names ==> forall n :: n != name ==> Lookup(fs.names, n) != Some(fs.names[name]) && !MayBind(fs, n, Some(fs.names[name]))
  }

  /** The two states agree on a name, now and after a crash. */
  ghost predicate SameAt(fs: Fs, fs': Fs, name: string) {
    && Entry(fs', name) == Entry(fs, name) && (name in fs'.names <==> name in fs.names)
    && forall c :: MayHold(fs', name, c) <==> MayHold(fs, name, c)
  }

  /* ---- the system calls ---- */

  /** open with O_CREATE and O_TRUNC. */
  function Opened(fs: Fs, name: string): Fs {
    if name in fs.names then fs.(files := fs.files[fs.names[name] := File([], false)])
    else fs.(files := fs.files[fs.next := File([], false)], names := fs.names[name := fs.next],
             pending := fs.pending + [Enter(name, fs.next)], next := fs.next + 1)
  }

  function Stored(fs: Fs, name: string, file: File): Fs
    requires name in fs.names
  { fs.(files := fs.files[fs.names[name] := file]) }

  function Renamed(fs: Fs, from: string, to: string): Fs
    requires from in fs.names
  {
    fs.(names := (fs.names - {from})[to := fs.names[from]], pending := fs.pending + [Move(from, to, fs.names[from])])
  }

  function Removed(fs: Fs, name: string): Fs {
    fs.(names := fs.names - {name}, pending := fs.pending + [Leave(name)])
  }

  function DirSynced(fs: Fs): Fs { fs.(stable := fs.names, pending := []) }

  lemma BindAppended(fs: Fs, fs': Fs, c: Change, name: string, b: Option<int>)
    requires fs'.stable == fs.stable && fs'.pending == fs.pending + [c]
    ensures MayBind(fs', name, b) <==> MayBind(fs, name, b) || Effect(c, name) == Some(b)
  {
    if k :| 0 <= k < |fs.pending| && Effect(fs.pending[k], name) == Some(b) { assert fs'.pending[k] == fs.pending[k]; }
    if Effect(c, name) == Some(b) { assert fs'.pending[|fs.pending|] == c; }
  }

  /** Writing to a private file disturbs no other name. */
  lemma StoredIsPrivate(fs: Fs, name: string, file: File)
    requires Valid(fs) && name in fs.names && Private(fs, name)
    ensures Valid(Stored(fs, name, file))
    ensures forall n :: n != name ==> SameAt(fs, Stored(fs, name, file), n)
    ensures forall n :: Private(fs, n) ==> Private(Stored(fs, name, file), n)
  {
    var fs' := Stored(fs, name, file);
    assert MayBind(fs, name, Lookup(fs.names, name)) && Lookup(fs.names, name) == Some(fs.names[name]);
    assert forall n, b :: MayBind(fs', n, b) <==> MayBind(fs, n, b);
    forall n | n != name ensures SameAt(fs, fs', n) { StoredElsewhere(fs, name, file, n); }
  }

  lemma StoredElsewhere(fs: Fs, name: string, file: File, n: string)
    requires Valid(fs) && name in fs.names && Private(fs, name) && n != name
    ensures SameAt(fs, Stored(fs, name, file), n)
  {
    var fs' := Stored(fs, name, file);
    assert Lookup(fs.names, n) != Some(fs.names[name]);
    forall b ensures MayBind(fs', n, b) <==> MayBind(fs, n, b) { }
    forall b, c | MayBind(fs, n, b) ensures Fits(fs'.files, b, c) <==> Fits(fs.files, b, c) {
      if b.Some? { assert b.value != fs.names[name]; }
    }
  }

  /** Opening a name creates a file of its own, or empties the one it has. */
  lemma OpenedIsPrivate(fs: Fs, name: string)
    requires Valid(fs) && Private(fs, name)
    ensures Valid(Opened(fs, name)) && name in Opened(fs, name).names && Private(Opened(fs, name), name)
    ensures forall n :: n != name ==> SameAt(fs, Opened(fs, name), n)
    ensures forall n :: n != name && Private(fs, n) ==> Private(Opened(fs, name), n)
  {
    if name in fs.names {
      StoredIsPrivate(fs, name, File([], false));
    } else {
      forall n | n != name ensures SameAt(fs, Opened(fs, name), n) { CreatedElsewhere(fs, name, n); }
      CreatedIsValid(fs, name);
    }
  }

  lemma BoundIsStored(fs: Fs, name: string, i: int)
    requires Valid(fs) && MayBind(fs, name, Some(i))
    ensures i in fs.files && i < fs.next
  {
    hide MayBind;
  }

  lemma CreatedElsewhere(fs: Fs, name: string, n: string)
    requires Valid(fs) && name !in fs.names && n != name
    ensures SameAt(fs, Opened(fs, name), n)
  {
    var fs' := Opened(fs, name);
    assert MayBind(fs, n, Lookup(fs.names, n));
    forall b ensures MayBind(fs', n, b) <==> MayBind(fs, n, b) { BindAppended(fs, fs', Enter(name, fs.next), n, b); }
    forall b, c | MayBind(fs, n, b) ensures Fits(fs'.files, b, c) <==> Fits(fs.files, b, c) {
      if b.Some? { BoundIsStored(fs, n, b.value); }
    }
  }

  lemma CreatedIsValid(fs: Fs, name: string)
    requires Valid(fs) && name !in fs.names
    ensures Valid(Opened(fs, name)) && Private(Opened(fs, name), name)
    ensures forall n :: n != name && Private(fs, n) ==> Private(Opened(fs, name), n)
  {
    var fs' := Opened(fs, name);
    forall n, b ensures MayBind(fs', n, b) <==> MayBind(fs, n, b) || (n == name && b == Some(fs.next)) {
      BindAppended(fs, fs', Enter(name, fs.next), n, b);
    }
    forall n ensures MayBind(fs', n, Lookup(fs'.names, n)) { assert MayBind(fs, n, Lookup(fs.names, n)); }
    forall n | n != name ensures Lookup(fs'.names, n) != Some(fs.next) && !MayBind(fs', n, Some(fs.next)) {
      assert MayBind(fs, n, Lookup(fs.names, n));
    }
    forall n | n != name && Private(fs, n) ensures Private(fs', n) {
      if n in fs.names { assert MayBind(fs, n, Lookup(fs.names, n)); }
    }
  }

  /** A rename adds one possible content to the target and leaves every other name but the source alone. */
  lemma RenamedMayHold(fs: Fs, from: string, to: string)
    requires Valid(fs) && from in fs.names && from != to && Private(fs, from)
    ensures var fs' := Renamed(fs, from, to); var i := fs.names[from];
            && Valid(fs') && from !in fs'.names && to in fs'.names && Entry(fs', to) == Entry(fs, from)
            && (forall c :: MayHold(fs', to, c) <==> MayHold(fs, to, c) || Fits(fs.files, Some(i), c))
            && (forall n :: n != from && n != to ==> SameAt(fs, fs', n))
    ensures forall n :: n != from && n != to && Private(fs, n) ==> Private(Renamed(fs, from, to), n)
  {
    var fs' := Renamed(fs, from, to);
    var i := fs.names[from];
    forall n, b ensures MayBind(fs', n, b) <==> MayBind(fs, n, b) || (n == to && b == Some(i)) || (n == from && b == None) {
      BindAppended(fs, fs', Move(from, to, i), n, b);
    }
    assert MayBind(fs, from, Lookup(fs.names, from));
    forall n ensures MayBind(fs', n, Lookup(fs'.names, n)) { assert MayBind(fs, n, Lookup(fs.names, n)); }
    forall n | n != from && n != to && Private(fs, n) ensures Private(fs', n) {
      if n in fs.names { assert Lookup(fs.names, from) != Some(fs.names[n]); }
    }
  }

  lemma RemovedMayHold(fs: Fs, name: string)
    requires Valid(fs)
    ensures Valid(Removed(fs, name)) && name !in Removed(fs, name).names
    ensures forall n :: n != name ==> SameAt(fs, Removed(fs, name), n)
    ensures forall n :: Private(fs, n) ==> Private(Removed(fs, name), n)
  {
    var fs' := Removed(fs, name);
    forall n, b ensures MayBind(fs', n, b) <==> MayBind(fs, n, b) || (n == name && b == None) {
      BindAppended(fs, fs', Leave(name), n, b);
    }
    forall n ensures MayBind(fs', n, Lookup(fs'.names, n)) { assert MayBind(fs, n, Lookup(fs.names, n)); }
  }

  /** A directory sync leaves what programs read as the only possibility, up to unsynced data. */
  lemma DirSyncedMayHold(fs: Fs)
    requires Valid(fs)
    ensures Valid(DirSynced(fs))
    ensures forall n :: Entry(DirSynced(fs), n) == Entry(fs, n)
    ensures forall n, c :: MayHold(DirSynced(fs), n, c) <==> Fits(fs.files, Lookup(fs.names, n), c)
    ensures forall n, c :: MayHold(DirSynced(fs), n, c) ==> MayHold(fs, n, c)
    ensures forall n :: Private(fs, n) ==> Private(DirSynced(fs), n)
  {
    var fs' := DirSynced(fs);
    assert forall n, b :: MayBind(fs', n, b) <==> b == Lookup(fs.names, n);
    forall n, c ensures MayHold(fs', n, c) <==> Fits(fs.files, Lookup(fs.names, n), c) {
      assert MayBind(fs', n, Lookup(fs.names, n));
    }
    forall n, c | MayHold(fs', n, c) ensures MayHold(fs, n, c) { assert MayBind(fs, n, Lookup(fs.names, n)); }
    forall n ensures MayBind(fs, n, Lookup(fs.names, n)) { }
  }

  /* ---- what a call leaves alone ---- */

  /** Nothing new can be found under a name, now or after a crash. */
  ghost predicate NothingNew(fs: Fs, fs': Fs, name: string) {
    && Entry(fs', name) == Entry(fs, name) && (name in fs'.names <==> name in fs.names)
    && forall c :: MayHold(fs', name, c) ==> MayHold(fs, name, c)
  }

  /** Calls that work on the names in `own` only. */
  ghost predicate Confined(fs: Fs, fs': Fs, own: set<string>) {
    && Valid(fs')
    && (forall n :: n !in own ==> NothingNew(fs, fs', n))
    && (forall n :: n !in own && Private(fs, n) ==> Private(fs', n))
  }

  lemma ConfinedOn(fs: Fs, fs': Fs, fs'': Fs, own: set<string>)
    requires Confined(fs, fs', own) && Confined(fs', fs'', own)
    ensures Confined(fs, fs'', own)
  {
    hide Valid, Private, MayHold;
  }

  lemma ConfinedWider(fs: Fs, fs': Fs, own: set<string>, wider: set<string>)
    requires Confined(fs, fs', own) && own <= wider
    ensures Confined(fs, fs', wider)
  {
    hide Valid, Private, NothingNew;
  }

  lemma SameIsConfined(fs: Fs, fs': Fs, name: string)
    requires Valid(fs') && (forall n :: n != name ==> SameAt(fs, fs', n)) && (forall n :: n != name && Private(fs, n) ==> Private(fs', n))
    ensures Confined(fs, fs', {name})
  {
    forall n | n !in {name} ensures NothingNew(fs, fs', n) { assert SameAt(fs, fs', n); }
  }

  lemma NamedFile(fs: Fs, name: string)
    requires Valid(fs) && name in fs.names
    ensures fs.names[name] in fs.files
  {
    var i := fs.names[name];
    assert MayBind(fs, name, Lookup(fs.names, name)) && Lookup(fs.names, name) == Some(i);
    assert MayBind(fs, name, Some(i));
  }

  lemma ConfinedStays(fs: Fs, own: set<string>)
    requires Valid(fs)
    ensures Confined(fs, fs, own)
  {
    hide Valid, Private, MayHold;
  }

  /** A disk with its crash points: the state after every system call. Every call may fail. */
  class Disk {
    var fs: Fs
    ghost var log: seq<Fs>

    /** The crash points since a state, all confined to `own`. */
    twostate predicate OnlyTouched(own: set<string>)
      reads this
    {
      && Confined(old(fs), fs, own) && Valid(fs)
      && |old(log)| <= |log| && log[..|old(log)|] == old(log)
      && forall k :: |old(log)| <= k < |log| ==> Confined(old(fs), log[k], own)
    }

    method OpenTrunc(name: string) returns (ok: bool)
      requires Valid(fs) && Private(fs, name)
      modifies this
      ensures OnlyTouched({name}) && Private(fs, name)
      ensures ok ==> name in fs.names
    {
      ok := *;
      if ok {
        OpenedIsPrivate(fs, name);
        SameIsConfined(fs, Opened(fs, name), name);
        fs := Opened(fs, name);
      } else {
        ConfinedStays(fs, {name});
      }
      log := log + [fs];
    }

    /** A failed write leaves any data behind. */
    method Write(name: string, data: Bytes) returns (ok: bool)
      requires Valid(fs) && Private(fs, name) && name in fs.names
      modifies this
      ensures OnlyTouched({name}) && Private(fs, name) && name in fs.names
      ensures ok ==> Content(fs, name) == Some(data)
    {
      ok := *;
      var torn: Bytes := *;
      var file := File(if ok then data else torn, false);
      StoredIsPrivate(fs, name, file);
      SameIsConfined(fs, Stored(fs, name, file), name);
      fs := Stored(fs, name, file);
      log := log + [fs];
    }

    method Sync(name: string) returns (ok: bool)
      requires Valid(fs) && Private(fs, name) && name in fs.names
      modifies this
      ensures OnlyTouched({name}) && Private(fs, name) && name in fs.names
      ensures Content(fs, name) == old(Content(fs, name))
      ensures ok ==> Entry(fs, name).Some? && Entry(fs, name).value.synced
    {
      ok := *;
      if ok {
        NamedFile(fs, name);
        var file := fs.files[fs.names[name]].(synced := true);
        StoredIsPrivate(fs, name, file);
        SameIsConfined(fs, Stored(fs, name, file), name);
        fs := Stored(fs, name, file);
      } else {
        ConfinedStays(fs, {name});
      }
      log := log + [fs];
    }

    /** Removal is best effort: its error is discarded. */
    method Remove(name: string)
      requires Valid(fs) && Private(fs, name)
      modifies this
      ensures OnlyTouched({name}) && Private(fs, name)
    {
      var ok: bool := *;
      if ok {
        RemovedMayHold(fs, name);
        SameIsConfined(fs, Removed(fs, name), name);
        fs := Removed(fs, name);
      } else {
        ConfinedStays(fs, {name});
      }
      log := log + [fs];
    }

    method Rename(from: string, to: string) returns (ok: bool)
      requires Valid(fs) && Private(fs, from) && from in fs.names && from != to
      modifies this
      ensures OnlyTouched({from, to}) && Private(fs, from)
      ensures !ok ==> fs == old(fs)
      ensures ok ==> fs == Renamed(old(fs), from, to)
      ensures log == old(log) + [fs]
    {
      ok := *;
      if ok {
        RenamedMayHold(fs, from, to);
        fs := Renamed(fs, from, to);
      } else {
        ConfinedStays(fs, {from, to});
      }
      log := log + [fs];
    }

    method SyncDir() returns (ok: bool)
      requires Valid(fs)
      modifies this
      ensures OnlyTouched({})
      ensures !ok ==> fs == old(fs)
      ensures ok ==> fs == DirSynced(old(fs))
      ensures log == old(log) + [fs]
    {
      ok := *;
      if ok {
        DirSyncedMayHold(fs);
        fs := DirSynced(fs);
      } else {
        ConfinedStays(fs, {});
      }
      log := log + [fs];
    }

    /** Writes and syncs a file; on failure the file is removed and nothing else is touched. */
    method WriteSynced(name: string, data: Bytes) returns (ok: bool)
      requires Valid(fs) && Private(fs, name)
      modifies this
      ensures OnlyTouched({name}) && Private(fs, name)
      ensures ok ==> name in fs.names && Entry(fs, name) == Some(File(data, true))
    {
      hide Valid, Private, Confined, Entry;
      ghost var log0 := log;
      ok := OpenTrunc(name);
      if !ok { return false; }
      ghost var fs1, log1 := fs, log;
      ok := Write(name, data);
      Continue(old(fs), fs1, fs, log0, log1, log, {name});
      ghost var fs2, log2 := fs, log;
      if !ok {
        Remove(name);
        Continue(old(fs), fs2, fs, log0, log2, log, {name});
        return false;
      }
      ok := Sync(name);
      Continue(old(fs), fs2, fs, log0, log2, log, {name});
      ghost var fs3, log3 := fs, log;
      var closed: bool := *;
      if !ok || !closed {
        Remove(name);
        Continue(old(fs), fs3, fs, log0, log3, log, {name});
        return false;
      }
      SyncedEntry(fs, name, data);
    }

    /** Replaces dst by a synced copy of src through dst.tmp; success means a crash can only leave the copy. */
    method CopyFileAtomic(src: string, dst: string) returns (ok: bool)
      requires Valid(fs) && Private(fs, dst + ".tmp") && src != dst && src != dst + ".tmp"
      modifies this
      ensures OnlyTouched({dst, dst + ".tmp"}) && Private(fs, dst + ".tmp")
      ensures ok ==> Content(old(fs), src).Some? && OnlyHolds(fs, dst, Content(old(fs), src))
    {
      hide Valid, Private, Confined, Entry, OnlyHolds, NothingNew;
      var tmp := dst + ".tmp";
      ghost var own, log0 := {dst, tmp}, log;
      var found: bool := *;
      ConfinedStays(fs, own);
      var source := Content(fs, src);
      if !found || source.None? { return false; }
      ok := WriteSynced(tmp, source.value);
      TouchedWider(old(fs), fs, log0, log, {tmp}, own);
      if !ok { return false; }
      ghost var fs1, log1 := fs, log;
      ok := Rename(tmp, dst);
      TouchedWider(fs1, fs, log1, log, {tmp, dst}, own);
      Continue(old(fs), fs1, fs, log0, log1, log, own);
      ghost var fs2, log2 := fs, log;
      if !ok {
        Remove(tmp);
        TouchedWider(fs2, fs, log2, log, {tmp}, own);
        Continue(old(fs), fs2, fs, log0, log2, log, own);
        return false;
      }
      MovedEntry(fs1, tmp, dst, source.value);
      ok := SyncDir();
      TouchedWider(fs2, fs, log2, log, {}, own);
      Continue(old(fs), fs2, fs, log0, log2, log, own);
      if ok { SyncedHolds(fs2, dst, source.value); }
      PrivateAfterSync(fs2, tmp);
    }

    /** The temporary file is written, read back and, when the target is there, the target is backed up. */
    method Prepare(path: string, data: Bytes) returns (ok: bool, sawTarget: bool)
      requires Valid(fs) && Private(fs, path + ".tmp") && Private(fs, path + ".bak" + ".tmp")
      modifies this
      ensures OnlyTouched(Working(path)) && Private(fs, path + ".tmp") && Private(fs, path + ".bak" + ".tmp")
      ensures ok ==> path + ".tmp" in fs.names && Entry(fs, path + ".tmp") == Some(File(data, true))
      ensures ok && sawTarget ==> OnlyHolds(fs, path + ".bak", Content(old(fs), path))
      ensures sawTarget ==> path in old(fs).names
      ensures !sawTarget ==> OnlyTouched({path + ".tmp"})
    {
      hide Valid, Private, Confined, Entry, Content, OnlyHolds, NothingNew;
      var tmp, bak := path + ".tmp", path + ".bak";
      NamesDiffer(path);
      ghost var own, log0 := Working(path), log;
      sawTarget := false;
      ok := WriteSynced(tmp, data);
      TouchedWider(old(fs), fs, log0, log, {tmp}, own);
      Kept(old(fs), fs, {tmp}, bak + ".tmp");
      Kept(old(fs), fs, {tmp}, path);
      if !ok { return; }
      ghost var fs1, log1 := fs, log;
      var written: Bytes := *;
      var readable: bool := *;
      ok := readable && written == data;
      if ok {
        var stat: bool := *;
        sawTarget := stat && path in fs.names;
        if !sawTarget { return; }
        ok := CopyFileAtomic(path, bak);
        TouchedWider(fs1, fs, log1, log, {bak, bak + ".tmp"}, own);
        Continue(old(fs), fs1, fs, log0, log1, log, own);
        Kept(fs1, fs, {bak, bak + ".tmp"}, tmp);
        if ok { return; }
      }
      ghost var fs2, log2 := fs, log;
      Remove(tmp);
      Kept(fs2, fs, {tmp}, bak + ".tmp");
      if !sawTarget { Continue(old(fs), fs2, fs, log0, log2, log, {tmp}); }
      TouchedWider(fs2, fs, log2, log, {tmp}, own);
      Continue(old(fs), fs2, fs, log0, log2, log, own);
    }

    /** The complete temporary file takes the target's place. */
    method Publish(path: string, data: Bytes) returns (ok: bool)
      requires Valid(fs) && Private(fs, path + ".tmp") && Private(fs, path + ".bak" + ".tmp")
      requires path + ".tmp" in fs.names && Entry(fs, path + ".tmp") == Some(File(data, true))
      modifies this
      ensures OnlyTouched({path, path + ".tmp"}) && Private(fs, path + ".tmp") && Private(fs, path + ".bak" + ".tmp")
      ensures forall k :: |old(log)| <= k < |log| ==> OldOr(old(fs), log[k], path, data)
      ensures OldOr(old(fs), fs, path, data)
      ensures ok ==> OnlyHolds(fs, path, Some(data)) && Content(fs, path) == Some(data)
      ensures !ok ==> Content(fs, path) == Content(old(fs), path) || Content(fs, path) == Some(data)
    {
      hide Valid, Private, Confined, OnlyHolds, NothingNew, OldOr;
      var tmp := path + ".tmp";
      NamesDiffer(path);
      ghost var own, log0 := {path, tmp}, log;
      ok := Rename(tmp, path);
      TouchedWider(old(fs), fs, log0, log, {tmp, path}, own);
      Kept(old(fs), fs, own, path + ".bak" + ".tmp");
      ghost var fs1, log1 := fs, log;
      if !ok {
        Remove(tmp);
        Kept(fs1, fs, {tmp}, path + ".bak" + ".tmp");
        TouchedWider(fs1, fs, log1, log, {tmp}, own);
        Continue(old(fs), fs1, fs, log0, log1, log, own);
        UnmovedIsOld(old(fs), fs, log1, log, path, data);
        return;
      }
      MovedIsNew(old(fs), tmp, path, data);
      ok := SyncDir();
      Kept(fs1, fs, {}, tmp);
      Kept(fs1, fs, {}, path + ".bak" + ".tmp");
      Kept(fs1, fs, {}, path);
      TouchedWider(fs1, fs, log1, log, {}, own);
      Continue(old(fs), fs1, fs, log0, log1, log, own);
      SyncedIsOld(old(fs), fs1, fs, path, data);
      if ok { SyncedHolds(fs1, path, data); }
    }

    /** Replaces the file at path by data. `sawTarget` says whether the existence check found a file to back up.

    At every crash point the file is one it could have been before, or the complete data; success makes the data the only
    possibility; and where data that could not be found before can be found, the backup can only be what programs read at path before.
    A check that fails, even on a file that is there, leaves the backup as it was. */
    method WriteFileDurable(path: string, data: Bytes) returns (ok: bool, sawTarget: bool)
      requires Valid(fs) && Private(fs, path + ".tmp") && Private(fs, path + ".bak" + ".tmp")
      modifies this
      ensures Valid(fs) && Private(fs, path + ".tmp") && Private(fs, path + ".bak" + ".tmp")
      ensures |old(log)| <= |log| && log[..|old(log)|] == old(log)
      ensures forall k :: |old(log)| <= k < |log| ==> GoodPoint(old(fs), log[k], path, data, sawTarget)
      ensures GoodPoint(old(fs), fs, path, data, sawTarget)
      ensures ok ==> OnlyHolds(fs, path, Some(data)) && Content(fs, path) == Some(data)
      ensures !ok ==> Content(fs, path) == Content(old(fs), path) || Content(fs, path) == Some(data)
      ensures sawTarget ==> path in old(fs).names
      ensures !sawTarget ==> NothingNew(old(fs), fs, path + ".bak")
      ensures IsWrite(Episode(old(fs), data, sawTarget, log[|old(log)|..] + [fs], fs), path)
    {
      hide Valid, Private, Confined, Entry, Content, OnlyHolds, NothingNew, GoodPoint, OldOr, Working, Crashed;
      NamesDiffer(path);
      ghost var log0 := log;
      ok, sawTarget := Prepare(path, data);
      UntouchedIsGood(old(fs), fs, log0, log, path, data, sawTarget);
      if !sawTarget { Untouched(old(fs), fs, {path + ".tmp"}, path + ".bak"); }
      ghost var points := log[|log0|..] + [fs];
      assert points[|points| - 1] == fs;
      if !ok { return; }
      ghost var fs1, log1 := fs, log;
      ok := Publish(path, data);
      PublishedIsGood(old(fs), fs1, fs, path, data, sawTarget);
      forall k | |log0| <= k < |log| ensures GoodPoint(old(fs), log[k], path, data, sawTarget) {
        if k < |log1| { assert log[k] == log[..|log1|][k]; } else { PublishedIsGood(old(fs), fs1, log[k], path, data, sawTarget); }
      }
      assert log[..|log0|] == log[..|log1|][..|log0|];
      if !sawTarget { UntouchedTwice(old(fs), fs1, fs, {path, path + ".tmp"}, path + ".bak"); }
      points := log[|log0|..] + [fs];
      assert points[|points| - 1] == fs;
    }

    /** A power cut: what was found on the disk is all there is. */
    method Restart(found: map<string, Bytes>)
      modifies this
      ensures Booted(fs, found) && Valid(fs) && (forall n :: Private(fs, n))
      ensures forall n, c :: MayHold(fs, n, c) <==> c == Held(found, n)
    {
      fs := Boot(found);
      BootedIsReady(fs, found);
    }
  }

  /* ---- crashes ---- */

  function Held(found: map<string, Bytes>, name: string): Option<Bytes> { if name in found then Some(found[name]) else None }

  /** What a crash in this state may leave on the disk. */
  ghost predicate CrashOutcome(fs: Fs, found: map<string, Bytes>) {
    forall n :: MayHold(fs, n, Held(found, n))
  }

  /** The file system after a restart that found these files. */
  ghost predicate Booted(fs: Fs, found: map<string, Bytes>) {
    && fs.stable == fs.names && fs.pending == [] && fs.names.Keys == found.Keys
    && (forall n :: n in fs.names ==> fs.names[n] in fs.files && fs.files[fs.names[n]] == File(found[n], true))
    && (forall m, n :: m in fs.names && n in fs.names && fs.names[m] == fs.names[n] ==> m == n)
    && (forall i :: i in fs.files ==> i < fs.next)
  }

  /** The file system with one more file. */
  function WithFile(fs: Fs, n: string, data: Bytes): Fs {
    fs.(files := fs.files[fs.next := File(data, true)], names := fs.names[n := fs.next], stable := fs.names[n := fs.next], next := fs.next + 1)
  }

  lemma BootsOne(fs: Fs, found: map<string, Bytes>, n: string, data: Bytes)
    requires Booted(fs, found) && n !in found
    ensures Booted(WithFile(fs, n, data), found[n := data])
  {
  }

  method Boot(found: map<string, Bytes>) returns (fs: Fs)
    ensures Booted(fs, found)
  {
    hide Booted, WithFile;
    fs := Fs(map[], map[], map[], [], 0);
    NothingBooted(fs);
    var rest := found.Keys;
    ghost var part: map<string, Bytes> := map[];
    while rest != {}
      invariant rest <= found.Keys && part == (map n | n in found.Keys - rest :: found[n]) && Booted(fs, part)
      decreases |rest|
    {
      var n :| n in rest;
      BootsOne(fs, part, n, found[n]);
      fs := WithFile(fs, n, found[n]);
      part := part[n := found[n]];
      rest := rest - {n};
    }
    assert part == found;
  }

  lemma NothingBooted(fs: Fs)
    requires fs == Fs(map[], map[], map[], [], 0)
    ensures Booted(fs, map[])
  {
  }

  /** After a restart every file is private to its name and holds what was found. */
  lemma BootedIsReady(fs: Fs, found: map<string, Bytes>)
    requires Booted(fs, found)
    ensures Valid(fs) && (forall n :: Private(fs, n))
    ensures forall n, c :: MayHold(fs, n, c) <==> c == Held(found, n)
  {
    assert forall n, b :: MayBind(fs, n, b) <==> b == Lookup(fs.names, n);
    forall n, c ensures MayHold(fs, n, c) <==> c == Held(found, n) {
      assert MayBind(fs, n, Lookup(fs.names, n));
    }
  }

  /** The values a file can have after some writes: what it could be at first, or a complete value that was asked for. */
  ghost predicate Requested(fs0: Fs, path: string, values: seq<Bytes>, c: Option<Bytes>) {
    MayHold(fs0, path, c) || (c.Some? && c.value in values)
  }

  /** One write: the states a crash can meet, and the state the next write starts from: the end of the write, or a
  restart after a crash at one of those points. */
  datatype Episode = Episode(start: Fs, data: Bytes, sawTarget: bool, points: seq<Fs>, end: Fs)

  ghost predicate Crashed(e: Episode) {
    exists k, found :: 0 <= k < |e.points| && CrashOutcome(e.points[k], found) && Booted(e.end, found)
  }

  ghost predicate IsWrite(e: Episode, path: string) {
    && (forall k :: 0 <= k < |e.points| ==> GoodPoint(e.start, e.points[k], path, e.data, e.sawTarget))
    && ((exists k :: 0 <= k < |e.points| && e.points[k] == e.end) || Crashed(e))
  }

  /** A write cut off by a power failure at any of its points is a write that ends in the restart. */
  lemma CrashEndsWrite(e: Episode, path: string, k: nat, found: map<string, Bytes>, end: Fs)
    requires IsWrite(e, path) && k < |e.points| && CrashOutcome(e.points[k], found) && Booted(end, found)
    ensures IsWrite(e.(end := end), path)
  {
    hide CrashOutcome, Booted, GoodPoint;
    assert Crashed(e.(end := end));
  }

  /** A crash always leaves something: what programs read is one of the possibilities. */
  lemma CrashIsPossible(fs: Fs)
    requires Valid(fs)
    ensures exists found :: CrashOutcome(fs, found)
  {
    var found := map n | n in fs.names && fs.names[n] in fs.files :: fs.files[fs.names[n]].data;
    forall n ensures MayHold(fs, n, Held(found, n)) {
      assert MayBind(fs, n, Lookup(fs.names, n));
      if n in fs.names { NamedFile(fs, n); }
    }
    assert CrashOutcome(fs, found);
  }

  /** When the existence check fails on a file that is there, the calls of a write end in a durable new file and no backup. */
  lemma FailedStatSkipsBackup(before: Bytes, data: Bytes) returns (start: Fs, end: Fs)
    ensures Valid(start) && (forall n :: Private(start, n)) && Content(start, "f") == Some(before)
    ensures var open := Opened(start, "f.tmp");
            && "f.tmp" in open.names
            && var full := Stored(Stored(open, "f.tmp", File(data, false)), "f.tmp", File(data, true));
            end == DirSynced(Renamed(full, "f.tmp", "f"))
    ensures OnlyHolds(end, "f", Some(data)) && OnlyHolds(end, "f.bak", None)
  {
    start := Fs(map[0 := File(before, true)], map["f" := 0], map["f" := 0], [], 1);
    BootedIsReady(start, map["f" := before]);
    var open := Opened(start, "f.tmp");
    var full := Stored(Stored(open, "f.tmp", File(data, false)), "f.tmp", File(data, true));
    end := DirSynced(Renamed(full, "f.tmp", "f"));
    assert end.stable == map["f" := 1] && end.files[1] == File(data, true);
  }

  /** Writes that follow each other. */
  ghost predicate History(es: seq<Episode>, path: string) {
    && (forall i :: 0 <= i < |es| ==> IsWrite(es[i], path))
    && (forall i :: 0 <= i < |es| - 1 ==> es[i + 1].start == es[i].end)
  }

  function Values(es: seq<Episode>): seq<Bytes> { seq(|es|, i requires 0 <= i < |es| => es[i].data) }

  lemma EpisodeHolds(e: Episode, path: string, c: Option<Bytes>)
    requires IsWrite(e, path)
    ensures forall k :: 0 <= k < |e.points| && MayHold(e.points[k], path, c) ==> MayHold(e.start, path, c) || c == Some(e.data)
    ensures MayHold(e.end, path, c) ==> MayHold(e.start, path, c) || c == Some(e.data)
  {
    hide MayHold, OnlyHolds, Content;
    if Crashed(e) && MayHold(e.end, path, c) {
      var k, found :| 0 <= k < |e.points| && CrashOutcome(e.points[k], found) && Booted(e.end, found);
      BootedIsReady(e.end, found);
      assert MayHold(e.points[k], path, Held(found, path));
    }
  }

  /** Over any sequence of writes and crashes, the file is always a complete requested value or what it could be at first. */
  lemma {:induction false} FileIsAlwaysComplete(es: seq<Episode>, path: string, i: nat, k: nat, c: Option<Bytes>)
    requires History(es, path) && i < |es| && k < |es[i].points| && MayHold(es[i].points[k], path, c)
    ensures Requested(es[0].start, path, Values(es), c)
  {
    hide MayHold, IsWrite;
    EpisodeHolds(es[i], path, c);
    if c == Some(es[i].data) { assert Values(es)[i] == es[i].data; } else { StartIsComplete(es, path, i, c); }
  }

  lemma {:induction false} StartIsComplete(es: seq<Episode>, path: string, i: nat, c: Option<Bytes>)
    requires History(es, path) && i < |es| && MayHold(es[i].start, path, c)
    ensures Requested(es[0].start, path, Values(es), c)
  {
    hide MayHold, IsWrite;
    if i > 0 {
      EpisodeHolds(es[i - 1], path, c);
      assert es[i - 1 + 1].start == es[i - 1].end;
      if c == Some(es[i - 1].data) { assert Values(es)[i - 1] == es[i - 1].data; } else { StartIsComplete(es, path, i - 1, c); }
    }
  }

  /** The names a write works on before it publishes. */
  function Working(path: string): set<string> { {path + ".tmp", path + ".bak", path + ".bak" + ".tmp"} }

  /** A crash may leave what could be there before, or the complete data. */
  ghost predicate OldOr(fs0: Fs, fs: Fs, path: string, data: Bytes) {
    forall c :: MayHold(fs, path, c) ==> MayHold(fs0, path, c) || c == Some(data)
  }

  /** A crash may leave what could be there before, or the complete data; a new file implies its backup. */
  ghost predicate GoodPoint(fs0: Fs, fs: Fs, path: string, data: Bytes, sawTarget: bool) {
    && (forall c :: MayHold(fs, path, c) ==> MayHold(fs0, path, c) || c == Some(data))
    && (sawTarget && MayHold(fs, path, Some(data)) && !MayHold(fs0, path, Some(data)) ==> OnlyHolds(fs, path + ".bak", Content(fs0, path)))
  }

  lemma NamesDiffer(path: string)
    ensures var tmp, bak := path + ".tmp", path + ".bak";
            path != tmp && path != bak && path != bak + ".tmp" && tmp != bak && tmp != bak + ".tmp" && bak != bak + ".tmp"
  {
    assert (path + ".tmp")[|path| + 1] == 't' && (path + ".bak")[|path| + 1] == 'b';
  }

  lemma UntouchedIsGood(fs0: Fs, fs: Fs, log0: seq<Fs>, log: seq<Fs>, path: string, data: Bytes, sawTarget: bool)
    requires Confined(fs0, fs, Working(path)) && |log0| <= |log|
    requires forall k :: |log0| <= k < |log| ==> Confined(fs0, log[k], Working(path))
    ensures GoodPoint(fs0, fs, path, data, sawTarget) && Content(fs, path) == Content(fs0, path)
    ensures forall c :: MayHold(fs, path, c) ==> MayHold(fs0, path, c)
    ensures forall k :: |log0| <= k < |log| ==> GoodPoint(fs0, log[k], path, data, sawTarget)
  {
    NamesDiffer(path);
    assert path !in Working(path);
    hide Valid, Private, MayHold, OnlyHolds, Working;
    forall k | |log0| <= k < |log| ensures GoodPoint(fs0, log[k], path, data, sawTarget) { assert NothingNew(fs0, log[k], path); }
    assert NothingNew(fs0, fs, path);
  }

  /** A crash point after the backup is durable and while the target is being replaced. */
  lemma PublishedIsGood(fs0: Fs, fs1: Fs, fs: Fs, path: string, data: Bytes, sawTarget: bool)
    requires forall c :: MayHold(fs1, path, c) ==> MayHold(fs0, path, c)
    requires Confined(fs1, fs, {path, path + ".tmp"}) && OldOr(fs1, fs, path, data)
    requires sawTarget ==> OnlyHolds(fs1, path + ".bak", Content(fs0, path))
    ensures GoodPoint(fs0, fs, path, data, sawTarget)
  {
    NamesDiffer(path);
    assert NothingNew(fs1, fs, path + ".bak");
    hide Valid, Private, MayHold, Content;
  }

  lemma Kept(fs: Fs, fs': Fs, own: set<string>, name: string)
    requires Confined(fs, fs', own) && name !in own
    ensures Entry(fs', name) == Entry(fs, name) && (name in fs'.names <==> name in fs.names) && Content(fs', name) == Content(fs, name)
    ensures Private(fs, name) ==> Private(fs', name)
  {
    hide Valid, Private, MayHold;
    assert NothingNew(fs, fs', name);
  }

  lemma Untouched(fs: Fs, fs': Fs, own: set<string>, name: string)
    requires Confined(fs, fs', own) && name !in own
    ensures NothingNew(fs, fs', name)
  {
    hide NothingNew;
  }

  lemma UntouchedTwice(fs: Fs, fs': Fs, fs'': Fs, own: set<string>, name: string)
    requires NothingNew(fs, fs', name) && Confined(fs', fs'', own) && name !in own
    ensures NothingNew(fs, fs'', name)
  {
    hide Valid, Private, MayHold;
    assert NothingNew(fs', fs'', name);
  }

  lemma UnmovedIsOld(fs0: Fs, fs: Fs, log0: seq<Fs>, log: seq<Fs>, path: string, data: Bytes)
    requires Valid(fs0) && Confined(fs0, fs, {path + ".tmp"}) && |log0| <= |log|
    requires forall k :: |log0| <= k < |log| ==> Confined(fs0, log[k], {path + ".tmp"})
    ensures OldOr(fs0, fs, path, data) && OldOr(fs0, fs0, path, data)
    ensures forall k :: |log0| <= k < |log| ==> OldOr(fs0, log[k], path, data)
    ensures Content(fs, path) == Content(fs0, path)
  {
    hide Valid, Private, MayHold;
    assert path != path + ".tmp";
    forall k | |log0| <= k < |log| ensures OldOr(fs0, log[k], path, data) { assert NothingNew(fs0, log[k], path); }
    assert NothingNew(fs0, fs, path);
  }

  lemma MovedIsNew(fs: Fs, tmp: string, path: string, data: Bytes)
    requires Valid(fs) && Private(fs, tmp) && tmp in fs.names && tmp != path && Entry(fs, tmp) == Some(File(data, true))
    ensures OldOr(fs, Renamed(fs, tmp, path), path, data) && Entry(Renamed(fs, tmp, path), path) == Some(File(data, true))
  {
    MovedEntry(fs, tmp, path, data);
  }

  lemma SyncedIsOld(fs0: Fs, fs1: Fs, fs: Fs, path: string, data: Bytes)
    requires OldOr(fs0, fs1, path, data) && Confined(fs1, fs, {})
    ensures OldOr(fs0, fs, path, data)
  {
    hide Valid, Private, MayHold;
    assert NothingNew(fs1, fs, path);
  }

  /** A crash leaves c under the name, and nothing else. */
  ghost predicate OnlyHolds(fs: Fs, name: string, c: Option<Bytes>) {
    forall d :: MayHold(fs, name, d) ==> d == c
  }

  lemma MovedEntry(fs: Fs, from: string, to: string, data: Bytes)
    requires Valid(fs) && Private(fs, from) && from in fs.names && from != to && Entry(fs, from) == Some(File(data, true))
    ensures Entry(Renamed(fs, from, to), to) == Some(File(data, true))
    ensures forall c :: MayHold(Renamed(fs, from, to), to, c) ==> MayHold(fs, to, c) || c == Some(data)
  {
    RenamedMayHold(fs, from, to);
  }

  lemma SyncedHolds(fs: Fs, name: string, data: Bytes)
    requires Valid(fs) && Entry(fs, name) == Some(File(data, true))
    ensures OnlyHolds(DirSynced(fs), name, Some(data))
  {
    DirSyncedMayHold(fs);
  }

  lemma PrivateAfterSync(fs: Fs, name: string)
    requires Valid(fs) && Private(fs, name)
    ensures Private(DirSynced(fs), name)
  {
    DirSyncedMayHold(fs);
  }

  lemma TouchedWider(fs0: Fs, fs1: Fs, log0: seq<Fs>, log1: seq<Fs>, own: set<string>, wider: set<string>)
    requires Confined(fs0, fs1, own) && own <= wider && |log0| <= |log1|
    requires forall k :: |log0| <= k < |log1| ==> Confined(fs0, log1[k], own)
    ensures Confined(fs0, fs1, wider)
    ensures forall k :: |log0| <= k < |log1| ==> Confined(fs0, log1[k], wider)
  {
    hide Confined;
    ConfinedWider(fs0, fs1, own, wider);
    forall k | |log0| <= k < |log1| ensures Confined(fs0, log1[k], wider) { ConfinedWider(fs0, log1[k], own, wider); }
  }

  lemma SyncedEntry(fs: Fs, name: string, data: Bytes)
    requires Content(fs, name) == Some(data) && Entry(fs, name).Some? && Entry(fs, name).value.synced
    ensures name in fs.names && Entry(fs, name) == Some(File(data, true))
  {
  }

  /** Crash points of two calls in a row. */
  lemma Continue(fs0: Fs, fs1: Fs, fs2: Fs, log0: seq<Fs>, log1: seq<Fs>, log2: seq<Fs>, own: set<string>)
    requires Confined(fs0, fs1, own) && Confined(fs1, fs2, own)
    requires |log0| <= |log1| <= |log2| && log1[..|log0|] == log0 && log2[..|log1|] == log1
    requires forall k :: |log0| <= k < |log1| ==> Confined(fs0, log1[k], own)
    requires forall k :: |log1| <= k < |log2| ==> Confined(fs1, log2[k], own)
    ensures Confined(fs0, fs2, own) && log2[..|log0|] == log0
    ensures forall k :: |log0| <= k < |log2| ==> Confined(fs0, log2[k], own)
  {
    hide Confined;
    ConfinedOn(fs0, fs1, fs2, own);
    assert log2[..|log0|] == log2[..|log1|][..|log0|];
    forall k | |log0| <= k < |log2| ensures Confined(fs0, log2[k], own) {
      if k < |log1| { assert log2[k] == log2[..|log1|][k]; } else { ConfinedOn(fs0, fs1, log2[k], own); }
    }
  }
}
