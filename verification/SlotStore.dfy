/** Replacing a stored slot on a file system whose calls may fail, be interrupted or transfer less
    than asked: a temporary file, a backup of the old content, a rename, and a rollback. */
module SlotStore {
  type Bytes = seq<bv8>

  /** The names in the store directory that a write of one slot may touch, and all the others. */
  datatype Name = SlotName | TempName(n: nat) | BackupName(n: nat) | OtherName(n: nat)

  datatype File = Regular(bytes: Bytes) | Special

  datatype Errno = Exists | Interrupted | NotFound | OtherError

  /** What a system call does: it works, transferring everything or at most so much, or it fails. */
  datatype Outcome = Works | Short(n: nat) | Fails(errno: Errno)

  type Files = map<Name, File>

  const SEQUENCES: nat := 100
  const BUFFER: nat := 4096

  predicate SameAt(a: Files, b: Files, n: Name) {
    (n in a <==> n in b) && (n in a ==> a[n] == b[n])
  }

  /** The two differ at most in one file. */
  predicate Off(a: Files, b: Files, name: Name) {
    (forall n | n in a && n != name :: n in b && b[n] == a[n]) && (forall n | n in b && n != name :: n in a)
  }

  /** The slot and every file there was are as they were; only new temporary files and backups may
      have come. */
  predicate Aside(before: Files, after: Files) {
    && SameAt(before, after, SlotName)
    && Kept(before, after)
  }

  /** Every file but the slot is as it was; there may be more. No older backup is overwritten. */
  predicate Kept(before: Files, after: Files) {
    forall n | n in before && n != SlotName :: n in after && after[n] == before[n]
  }

  lemma OffSame(a: Files, name: Name)
    ensures Off(a, a, name)
  {
  }

  lemma OffTransitive(a: Files, b: Files, c: Files, name: Name)
    requires Off(a, b, name) && Off(b, c, name)
    ensures Off(a, c, name)
  {
  }

  predicate HasNew(after: Files, data: Bytes) {
    SlotName in after && after[SlotName] == Regular(data)
  }

  /** A backup that was not there before holds the old content. */
  predicate BackedUp(before: Files, after: Files, backup: Name) {
    && SlotName in before && backup.BackupName? && backup !in before
    && backup in after && after[backup] == before[SlotName]
  }

  /** What holds at every moment of a write: the other files are as they were, and the slot holds
      what it held or exactly the new bytes. */
  predicate Safe(before: Files, after: Files, data: Bytes) {
    Kept(before, after) && (SameAt(before, after, SlotName) || HasNew(after, data))
  }

  predicate Private(before: Files, name: Name) {
    name !in before && (name.TempName? || name.BackupName?)
  }

  /** The slot may be written, and a name is free for the temporary file and, over an old slot, for its backup. */
  predicate Unobstructed(files: Files) {
    && (SlotName in files ==> files[SlotName].Regular?)
    && (exists i :: 0 <= i < 100 && TempName(i) !in files)
    && (SlotName in files ==> exists i :: 0 <= i < 100 && BackupName(i) !in files)
  }

  /** Beside the slot, the only new files are these. */
  predicate Only(before: Files, after: Files, extra: set<Name>) {
    forall n | n in after && n !in before && n != SlotName :: n in extra
  }

  lemma NothingElse(before: Files, after: Files)
    requires Kept(before, after) && Only(before, after, {})
    ensures SameAt(before, after, SlotName) ==> after == before
    ensures SlotName in after ==> after == before[SlotName := after[SlotName]]
  {
  }

  lemma OffOnly(before: Files, a: Files, b: Files, name: Name, extra: set<Name>)
    requires Only(before, a, extra) && Off(a, b, name)
    ensures Only(before, b, extra + {name})
    ensures name !in b || name in extra ==> Only(before, b, extra)
  {
  }

  /** Whether writing so many bytes goes through: an interrupted call is tried again, a short one goes on behind what
      it has transferred, and a failing one, or one that transfers nothing, is the end. */
  predicate Completes(script: seq<Outcome>, left: nat)
    decreases |script|
  {
    if left == 0 || script == [] then true
    else match script[0]
      case Works => true
      case Short(n) => n > 0 && (n >= left || Completes(script[1..], left - n))
      case Fails(errno) => errno == Interrupted && Completes(script[1..], left)
  }

  /** Calls that are only interrupted or cut short. */
  predicate Benign(script: seq<Outcome>) {
    forall i | 0 <= i < |script| :: script[i].Works? || (script[i].Short? && script[i].n > 0) || script[i] == Fails(Interrupted)
  }

  class Directory {
    var files: Files
    var script: seq<Outcome>
    var errno: Errno
    ghost var trail: seq<Files>
    ghost var refused: set<Name>
    ghost var flushed: set<Name>
    ghost var anchored: bool

    /** `trail` are the directory's states so far, `refused` the files of the running write that could not be
        removed or renamed, `flushed` those whose content has been synced as it is; `anchored` says that the
        directory has been synced since the slot's name last changed. */
    constructor (files: Files, script: seq<Outcome>)
      ensures this.files == files && this.script == script && trail == [] && refused == {}
    {
      this.files, this.script, errno, trail, refused := files, script, OtherError, [], {};
      flushed, anchored := {}, false;
    }

    /** Since position `from` of the trail, nothing that was there has been disturbed. */
    ghost predicate Quiet(before: Files, from: nat)
      reads this`files, this`trail
    {
      from <= |trail| && Aside(before, files) && forall i | from <= i < |trail| :: Aside(before, trail[i])
    }

    ghost predicate Sound(before: Files, data: Bytes, from: nat)
      reads this`files, this`trail
    {
      from <= |trail| && Safe(before, files, data) && forall i | from <= i < |trail| :: Safe(before, trail[i], data)
    }

    /** The next system call's fate; a script that is used up means success. */
    method Fate() returns (o: Outcome)
      modifies this`script, this`errno
      ensures script == if old(script) == [] then [] else old(script)[1..]
      ensures o == if old(script) == [] then Works else old(script)[0]
      ensures Benign(old(script)) ==> Benign(script) && (o.Works? || (o.Short? && o.n > 0) || o == Fails(Interrupted))
    {
      if script == [] {
        return Works;
      }
      o, script := script[0], script[1..];
      if o.Fails? {
        errno := o.errno;
      }
    }

    /** So many calls that change no file (stat, chmod, seek, sync, close), up to the first failure. */
    method Calls(count: nat) returns (ok: bool)
      modifies this`script, this`errno
      ensures old(script) == [] ==> ok && script == []
      ensures ok <==> forall i | 0 <= i < count && i < |old(script)| :: !old(script)[i].Fails?
    {
      for i := 0 to count
        invariant script == if i <= |old(script)| then old(script)[i..] else []
        invariant forall k | 0 <= k < i && k < |old(script)| :: !old(script)[k].Fails?
      {
        var o := Fate();
        if o.Fails? {
          return false;
        }
      }
      ok := true;
    }

    /** A sync of a file, and one of the directory. */
    method Flush(name: Name) returns (ok: bool)
      modifies this`script, this`errno, this`flushed
      ensures flushed == if ok then old(flushed) + {name} else old(flushed)
      ensures old(script) == [] ==> script == [] && ok
    {
      ok := Calls(1);
      if ok {
        flushed := flushed + {name};
      }
    }

    method FlushDirectory() returns (ok: bool)
      modifies this`script, this`errno, this`anchored
      ensures anchored == (old(anchored) || ok)
      ensures old(script) == [] ==> script == [] && ok
    {
      ok := Calls(1);
      if ok {
        anchored := true;
      }
    }

    method Create(name: Name) returns (ok: bool)
      modifies this
      ensures ok ==> name !in old(files) && files == old(files)[name := Regular([])] && trail == old(trail) + [files]
      ensures !ok ==> files == old(files) && trail == old(trail)
      ensures refused == old(refused) && flushed == (if ok then old(flushed) - {name} else old(flushed))
      ensures name != SlotName ==> anchored == old(anchored)
      ensures old(script) == [] ==> script == [] && (ok <==> name !in old(files)) && (!ok ==> errno == Exists)
    {
      if name in files {
        errno := Exists;
        return false;
      }
      var o := Fate();
      if o.Fails? {
        return false;
      }
      files := files[name := Regular([])];
      trail := trail + [files];
      flushed := flushed - {name};
      anchored := anchored && name != SlotName;
      ok := true;
    }

    method Unlink(name: Name) returns (ok: bool)
      modifies this
      ensures ok ==> files == old(files) - {name} && trail == old(trail) + [files]
      ensures !ok ==> files == old(files) && trail == old(trail)
      ensures refused == if ok then old(refused) else old(refused) + {name}
      ensures flushed == if ok then old(flushed) - {name} else old(flushed)
      ensures anchored == (old(anchored) && (name != SlotName || !ok))
      ensures old(script) == [] ==> script == [] && ok
    {
      var o := Fate();
      if o.Fails? {
        refused := refused + {name};
        return false;
      }
      files := files - {name};
      trail := trail + [files];
      flushed := flushed - {name};
      anchored := anchored && name != SlotName;
      ok := true;
    }

    method Rename(source: Name, target: Name) returns (ok: bool)
      requires source != target && source in files
      modifies this
      ensures ok ==> files == (old(files) - {source})[target := old(files)[source]] && trail == old(trail) + [files]
      ensures !ok ==> files == old(files) && trail == old(trail)
      ensures refused == if ok then old(refused) else old(refused) + {source}
      ensures flushed == if !ok then old(flushed)
                         else if source in old(flushed) then old(flushed) - {source} + {target}
                         else old(flushed) - {source, target}
      ensures anchored == (old(anchored) && (target != SlotName || !ok))
      ensures old(script) == [] ==> script == [] && ok
    {
      var o := Fate();
      if o.Fails? {
        refused := refused + {source};
        return false;
      }
      files := (files - {source})[target := files[source]];
      trail := trail + [files];
      flushed := if source in flushed then flushed - {source} + {target} else flushed - {source, target};
      anchored := anchored && target != SlotName;
      ok := true;
    }

    method Append(name: Name, data: Bytes, ghost before: Files, ghost from: nat)
      requires Private(before, name) && name in files && files[name].Regular? && Quiet(before, from)
      modifies this`files, this`trail, this`flushed
      ensures flushed == old(flushed) - {name}
      ensures Quiet(before, from) && old(trail) <= trail
      ensures name in files && files[name] == Regular(old(files[name].bytes) + data) && Off(old(files), files, name)
    {
      files := files[name := Regular(files[name].bytes + data)];
      trail := trail + [files];
      flushed := flushed - {name};
    }

    /** `sec_write_all`: the file receives all of `data` behind what it has, or the call fails. */
    method WriteAll(name: Name, data: Bytes, ghost before: Files, ghost from: nat) returns (ok: bool)
      requires Private(before, name) && name in files && files[name].Regular? && Quiet(before, from)
      modifies this
      ensures Quiet(before, from) && old(trail) <= trail && |script| <= |old(script)|
      ensures name in files && files[name].Regular?
      ensures Off(old(files), files, name)
      ensures ok ==> files[name].bytes == old(files[name].bytes) + data
      ensures refused == old(refused) && flushed - {name} == old(flushed) - {name}
      ensures ok <==> Completes(old(script), |data|)
      ensures old(script) == [] ==> script == [] && ok
      ensures Benign(old(script)) ==> Benign(script) && ok
    {
      hide Quiet, Off, Benign;
      var written := 0;
      assert data[..0] == [] && Off(old(files), files, name) by { OffSame(files, name); }
      while written < |data|
        invariant 0 <= written <= |data|
        invariant name in files && files[name].Regular? && files[name].bytes == old(files[name].bytes) + data[..written]
        invariant Off(old(files), files, name) && refused == old(refused) && flushed - {name} == old(flushed) - {name}
        invariant Quiet(before, from) && old(trail) <= trail && |script| <= |old(script)|
        invariant Completes(old(script), |data|) <==> Completes(script, |data| - written)
        invariant Benign(old(script)) ==> Benign(script)
        decreases |script| + |data| - written
      {
        var o := Fate();
        if o.Fails? {
          if o.errno == Interrupted {
            continue;
          }
          return false;
        }
        var n := if o.Short? && o.n < |data| - written then o.n else |data| - written;
        if n == 0 {
          return false;
        }
        assert data[..written] + data[written..written + n] == data[..written + n];
        ghost var now := files;
        Append(name, data[written..written + n], before, from);
        OffTransitive(old(files), now, files, name);
        written := written + n;
      }
      assert data[..written] == data;
      ok := true;
    }

    /** `sec_copy_file`: buffer by buffer, from the slot to a private file. */
    method CopySlot(name: Name, ghost before: Files, ghost from: nat) returns (ok: bool)
      requires Private(before, name) && name in files && files[name] == Regular([]) && Quiet(before, from)
      requires SlotName in files && files[SlotName].Regular?
      modifies this
      ensures Quiet(before, from) && old(trail) <= trail
      ensures name in files && Off(old(files), files, name)
      ensures ok ==> files[name] == files[SlotName]
      ensures refused == old(refused) && flushed - {name} == old(flushed) - {name}
      ensures old(script) == [] ==> script == [] && ok
      ensures Benign(old(script)) ==> Benign(script) && ok
    {
      hide Benign;
      ghost var content := files[SlotName].bytes;
      var size, copied := |files[SlotName].bytes|, 0;
      while copied < size
        invariant 0 <= copied <= size == |content|
        invariant SlotName in files && files[SlotName] == Regular(content)
        invariant name in files && files[name] == Regular(content[..copied])
        invariant Off(old(files), files, name) && refused == old(refused) && flushed - {name} == old(flushed) - {name}
        invariant Quiet(before, from) && old(trail) <= trail && |script| <= |old(script)|
        invariant Benign(old(script)) ==> Benign(script)
        decreases |script| + size - copied
      {
        var chunk := if size - copied > BUFFER then BUFFER else size - copied;
        var o := Fate();
        if o.Fails? {
          if o.errno == Interrupted {
            continue;
          }
          return false;
        }
        var n := if o.Short? && o.n < chunk then o.n else chunk;
        if n == 0 {
          return false;
        }
        var wrote := WriteAll(name, files[SlotName].bytes[copied..copied + n], before, from);
        if !wrote {
          return false;
        }
        assert SameAt(old(files), files, SlotName);
        assert content[..copied] + content[copied..copied + n] == content[..copied + n];
        copied := copied + n;
      }
      assert content[..copied] == content;
      ok := true;
    }

    method FillBackup(backup: Name, ghost before: Files, ghost from: nat) returns (ok: bool)
      requires backup.BackupName? && Private(before, backup) && backup in files && files[backup] == Regular([])
      requires Quiet(before, from) && SlotName in before && before[SlotName].Regular?
      modifies this
      ensures Quiet(before, from) && old(trail) <= trail
      ensures backup in files && Off(old(files), files, backup) && refused == old(refused)
      ensures flushed - {backup} == old(flushed) - {backup}
      ensures ok ==> BackedUp(before, files, backup) && backup in flushed
      ensures old(script) == [] ==> script == [] && ok
    {
      assert SameAt(before, files, SlotName);
      ok := Calls(3);
      if ok {
        ok := CopySlot(backup, before, from);
        assert SameAt(before, files, SlotName);
      }
      if ok {
        ok := Flush(backup);
      }
    }

    /** `sec_create_backup`: a complete copy under a name that was free, or no success and no file, unless its
        removal is refused. The error number is that of the failure, not of the clean-up. */
    method CreateBackup(backup: Name, ghost before: Files, ghost from: nat) returns (ok: bool)
      requires backup.BackupName? && Quiet(before, from) && SlotName in before && before[SlotName].Regular?
      modifies this
      ensures Quiet(before, from) && old(trail) <= trail
      ensures Off(old(files), files, backup)
      ensures ok ==> BackedUp(before, files, backup) && refused == old(refused) && backup in flushed
      ensures flushed - {backup} == old(flushed) - {backup}
      ensures old(refused) <= refused <= old(refused) + {backup}
      ensures !ok && backup in files ==> backup in old(files) || backup in refused
      ensures old(script) == [] ==> script == [] && refused == old(refused) && (ok <==> backup !in old(files))
      ensures old(script) == [] && !ok ==> errno == Exists && files == old(files)
    {
      var created := false;
      var found := Calls(1);
      ok := found;
      if ok {
        ok := Calls(1);
      }
      if ok {
        created := Create(backup);
        ok := created;
      }
      if ok {
        ok := FillBackup(backup, before, from);
      }
      ghost var now := files;
      ok := FinishBackup(backup, found, created, ok, before, from);
      OffTransitive(old(files), now, files, backup);
    }

    /** The clean-up of `sec_create_backup`. */
    method FinishBackup(backup: Name, found: bool, created: bool, good: bool, ghost before: Files, ghost from: nat) returns (ok: bool)
      requires Quiet(before, from) && backup.BackupName? && (created ==> Private(before, backup)) && (good ==> found && created)
      modifies this
      ensures Quiet(before, from) && old(trail) <= trail
      ensures files == old(files) || files == old(files) - {backup}
      ensures ok ==> good && files == old(files) && refused == old(refused) && flushed == old(flushed)
      ensures flushed - {backup} == old(flushed) - {backup}
      ensures old(refused) <= refused <= old(refused) + {backup}
      ensures !created ==> files == old(files) && refused == old(refused)
      ensures !ok ==> errno == old(errno) && (created && backup in files ==> backup in refused)
      ensures old(script) == [] ==> script == [] && ok == good && refused == old(refused)
    {
      var saved := errno;
      ok := good;
      if found {
        var closed := Calls(1);
        ok := ok && closed;
      }
      if created {
        var closed := Calls(1);
        ok := ok && closed;
        if !ok {
          var _ := Unlink(backup);
        }
      }
      if !ok {
        errno := saved;
      }
    }

    /** The temporary file: the first free name of a hundred. */
    method CreateTemp(ghost before: Files, ghost from: nat) returns (made: bool, temp: Name)
      requires Quiet(before, from) && before == files
      modifies this
      ensures Quiet(before, from) && old(trail) <= trail && refused == old(refused)
      ensures made ==> temp.TempName? && Private(before, temp) && temp in files && files[temp] == Regular([])
      ensures made ==> Off(old(files), files, temp)
      ensures !made ==> files == old(files)
      ensures old(script) == [] ==> script == [] && (made <==> exists i :: 0 <= i < 100 && TempName(i) !in old(files))
    {
      var sequence := 0;
      while sequence < SEQUENCES
        invariant sequence <= SEQUENCES && files == old(files) && trail == old(trail) && refused == old(refused)
        invariant old(script) == [] ==> script == [] && forall i | 0 <= i < sequence :: TempName(i) in files
      {
        temp := TempName(sequence);
        made := Create(temp);
        if made || errno != Exists {
          return;
        }
        sequence := sequence + 1;
      }
      made, temp := false, TempName(0);
    }

    method FillTemp(temp: Name, data: Bytes, ghost before: Files, ghost from: nat) returns (ok: bool)
      requires Quiet(before, from) && Private(before, temp) && temp in files && files[temp] == Regular([])
      modifies this
      ensures Quiet(before, from) && old(trail) <= trail && refused == old(refused)
      ensures temp in files && Off(old(files), files, temp)
      ensures ok ==> files[temp] == Regular(data) && temp in flushed
      ensures old(script) == [] ==> script == [] && ok
    {
      ok := Calls(2);
      if ok {
        ok := WriteAll(temp, data, before, from);
      }
      if ok {
        ok := Flush(temp);
      }
      var closed := Calls(1);
      ok := ok && closed;
    }

    /** Whether the slot is there; it is reported absent only when it is. */
    method StatSlot() returns (found: bool)
      modifies this`script, this`errno
      ensures found ==> SlotName in files
      ensures !found && errno == NotFound ==> SlotName !in files
      ensures old(script) == [] ==> script == [] && (found <==> SlotName in files) && (found || errno == NotFound)
    {
      if SlotName !in files {
        errno := NotFound;
        return false;
      }
      var o := Fate();
      if o.Fails? {
        if errno == NotFound {
          errno := OtherError;
        }
        return false;
      }
      found := true;
    }

    /** Copy the slot under the first free backup name of a hundred. */
    method BackUp(ghost temp: Name, ghost before: Files, ghost from: nat) returns (made: bool, backup: Name)
      requires Quiet(before, from) && SlotName in before && before[SlotName].Regular?
      requires temp.TempName? && temp in files && temp in flushed && Only(before, files, refused + {temp})
      modifies this
      ensures Quiet(before, from) && old(trail) <= trail
      ensures temp in files && files[temp] == old(files)[temp] && temp in flushed
      ensures forall n | n in refused :: n in old(refused) || n.BackupName?
      ensures backup.BackupName? && (made ==> BackedUp(before, files, backup) && backup in flushed)
      ensures Only(before, files, refused + {temp} + if made then {backup} else {})
      ensures old(script) == [] ==> script == [] && refused == old(refused)
      ensures old(script) == [] ==> (made <==> exists i :: 0 <= i < 100 && BackupName(i) !in old(files))
    {
      var sequence := 0;
      while sequence < SEQUENCES
        invariant sequence <= SEQUENCES && Quiet(before, from) && old(trail) <= trail
        invariant temp in files && files[temp] == old(files)[temp] && temp in flushed
        invariant forall n | n in refused :: n in old(refused) || n.BackupName?
        invariant Only(before, files, refused + {temp})
        invariant old(script) == [] ==> script == [] && files == old(files) && refused == old(refused)
        invariant old(script) == [] ==> forall i | 0 <= i < sequence :: BackupName(i) in files
      {
        backup := BackupName(sequence);
        ghost var now, were, synced := files, refused, flushed;
        made := CreateBackup(backup, before, from);
        assert temp in synced - {backup} && flushed - {backup} == synced - {backup};
        OffOnly(before, now, files, backup, were + {temp});
        if made || errno != Exists {
          return;
        }
        sequence := sequence + 1;
      }
      made, backup := false, BackupName(0);
    }

    /** Take the place of the slot; on a failure after that, put the old content back. Whatever happens, the
        temporary file and the backup are gone afterwards, or their removal was refused. */
    method Replace(temp: Name, backup: Name, backedUp: bool, data: Bytes, ghost before: Files, ghost from: nat)
      returns (ok: bool)
      requires Quiet(before, from) && temp.TempName? && Private(before, temp)
      requires temp in files && files[temp] == Regular(data) && temp in flushed
      requires backup.BackupName? && (backedUp ==> BackedUp(before, files, backup) && backup in flushed)
      requires backedUp <==> SlotName in before
      requires Only(before, files, refused + {temp} + if backedUp then {backup} else {})
      modifies this
      ensures Sound(before, data, from) && old(trail) <= trail && old(refused) <= refused
      ensures ok ==> HasNew(files, data) && refused == old(refused) && temp !in files && (backedUp ==> backup !in files)
      ensures ok ==> SlotName in flushed && anchored
      ensures Only(before, files, refused)
      ensures !ok ==> PutBack(before, files, refused, flushed)
      ensures old(script) == [] ==> ok && script == []
    {
      ok := false;
      var renamed := Rename(temp, SlotName);
      if !renamed {
        CleanUp(temp, backup, backedUp, before, from);
        return;
      }
      ok := Settle(temp, backup, backedUp, data, before, from);
    }

    /** The new content is in place: sync it and drop the backup, or roll back. */
    method Settle(ghost temp: Name, backup: Name, backedUp: bool, data: Bytes, ghost before: Files, ghost from: nat) returns (ok: bool)
      requires Sound(before, data, from) && HasNew(files, data) && temp.TempName? && temp !in files && temp !in before
      requires backup.BackupName? && (backedUp ==> BackedUp(before, files, backup) && backup in flushed) && SlotName in flushed
      requires backedUp <==> SlotName in before
      requires Only(before, files, refused + if backedUp then {backup} else {})
      modifies this
      ensures Sound(before, data, from) && old(trail) <= trail && old(refused) <= refused
      ensures ok ==> HasNew(files, data) && refused == old(refused) && temp !in files && (backedUp ==> backup !in files)
      ensures ok ==> SlotName in flushed && anchored
      ensures Only(before, files, refused)
      ensures !ok ==> PutBack(before, files, refused, flushed)
      ensures old(script) == [] ==> ok && script == []
    {
      var synced := FlushDirectory();
      if synced {
        if !backedUp {
          return true;
        }
        var dropped := Unlink(backup);
        if dropped {
          return true;
        }
      }
      RollBack(backup, backedUp, data, before, from);
      ok := false;
    }

    /** Nothing was renamed: drop the new files. */
    method CleanUp(temp: Name, backup: Name, backedUp: bool, ghost before: Files, ghost from: nat)
      requires Quiet(before, from) && Private(before, temp) && (backedUp ==> BackedUp(before, files, backup))
      requires Only(before, files, refused + {temp} + if backedUp then {backup} else {})
      modifies this
      ensures Quiet(before, from) && old(trail) <= trail && old(refused) <= refused
      ensures Only(before, files, refused)
    {
      var _ := Unlink(temp);
      if backedUp {
        var _ := Unlink(backup);
      }
    }

    /** The new content is in place but the write failed: put the old content back, or keep its
        backup. */
    method RollBack(backup: Name, backedUp: bool, data: Bytes, ghost before: Files, ghost from: nat)
      requires Sound(before, data, from) && HasNew(files, data)
      requires backedUp ==> BackedUp(before, files, backup) && backup in flushed
      requires backedUp <==> SlotName in before
      requires Only(before, files, refused + if backedUp then {backup} else {})
      modifies this
      ensures Sound(before, data, from) && old(trail) <= trail && old(refused) <= refused
      ensures Only(before, files, refused) && PutBack(before, files, refused, flushed)
    {
      if backedUp {
        var _ := Rename(backup, SlotName);
      } else {
        var _ := Unlink(SlotName);
      }
      var _ := FlushDirectory();
      assert backedUp && backup in refused ==> BackedUp(before, files, BackupName(backup.n)) || SameAt(before, files, SlotName);
    }

    /** `actrust_sec_store_write`. On success the slot holds exactly the new bytes, synced, and so is its name; on an
        error over an existing slot the complete old bytes are in the slot or in a backup that is kept; at every
        moment in between, and whatever fails, the slot holds the old or the new content and no file
        that was there before, older backups among them, is touched. No new file but the slot is left, unless
        its removal was refused; so with no refusal a success changes the slot alone, and an error nothing.
        When no call fails it succeeds exactly if nothing is in its way. */
    method Write(data: Bytes) returns (ok: bool)
      modifies this
      ensures Sound(old(files), data, |old(trail)|) && old(trail) <= trail
      ensures ok ==> HasNew(files, data) && SlotName in flushed && anchored
      ensures !ok ==> PutBack(old(files), files, refused, flushed)
      ensures Only(old(files), files, refused)
      ensures ok ==> forall n | n in files && n.TempName? :: n in old(files)
      ensures refused == {} ==> files == if ok then old(files)[SlotName := Regular(data)] else old(files)
      ensures old(script) == [] ==> script == [] && refused == {} && (ok <==> Unobstructed(old(files)))
    {
      ghost var before, from := files, |trail|;
      refused := {};
      ok := Calls(2);
      if ok {
        ok := WriteLocked(data, before, from);
      }
      if refused == {} { NothingElse(before, files); }
    }

    /** A slot can be written again and again: one success leaves nothing behind that would hinder the next. */
    method Rewrite(first: Bytes, second: Bytes) returns (ok: bool)
      requires script == [] && Unobstructed(files) && exists i :: 0 <= i < 100 && BackupName(i) !in files
      modifies this
      ensures ok && files == old(files)[SlotName := Regular(second)]
    {
      ghost var i :| 0 <= i < 100 && BackupName(i) !in files;
      ghost var j :| 0 <= j < 100 && TempName(j) !in files;
      ok := Write(first);
      assert BackupName(i) !in files && TempName(j) !in files;
      ok := Write(second);
    }

    /** The write once the directory is open and locked. */
    method WriteLocked(data: Bytes, ghost before: Files, ghost from: nat) returns (ok: bool)
      requires before == files && refused == {} && from == |trail|
      modifies this
      ensures Sound(before, data, from) && old(trail) <= trail
      ensures ok ==> SlotName in flushed && anchored
      ensures ok ==> HasNew(files, data) && forall n | n in files && n.TempName? :: n in before
      ensures !ok ==> PutBack(before, files, refused, flushed)
      ensures Only(before, files, refused)
      ensures old(script) == [] ==> script == [] && refused == {} && (ok <==> Unobstructed(before))
    {
      var made, temp := CreateTemp(before, from);
      if !made {
        return false;
      }
      ghost var now := files;
      OffOnly(before, before, now, temp, {});
      ok := FillTemp(temp, data, before, from);
      OffOnly(before, now, files, temp, {temp});
      if !ok {
        var _ := Unlink(temp);
        return;
      }
      assert forall i :: BackupName(i) in files <==> BackupName(i) in before;
      ok := Exchange(temp, data, before, from);
    }

    /** The rest of a write, once the temporary file is complete. */
    method Exchange(temp: Name, data: Bytes, ghost before: Files, ghost from: nat) returns (ok: bool)
      requires Quiet(before, from) && temp.TempName? && Private(before, temp)
      requires temp in files && files[temp] == Regular(data) && temp in flushed
      requires refused == {} && Only(before, files, {temp})
      modifies this
      ensures Sound(before, data, from) && old(trail) <= trail
      ensures ok ==> SlotName in flushed && anchored
      ensures ok ==> HasNew(files, data) && forall n | n in files && n.TempName? :: n in before
      ensures !ok ==> PutBack(before, files, refused, flushed)
      ensures Only(before, files, refused)
      ensures old(script) == [] ==> script == [] && refused == {}
      ensures old(script) == [] ==>
                (ok <==> (SlotName in before ==>
                            before[SlotName].Regular? && exists i :: 0 <= i < 100 && BackupName(i) !in old(files)))
    {
      var backedUp, backup := false, BackupName(0);
      var found := StatSlot();
      if found {
        if files[SlotName].Special? {
          var _ := Unlink(temp);
          return false;
        }
        backedUp, backup := BackUp(temp, before, from);
      }
      if (found && !backedUp) || (!found && errno != NotFound) {
        var _ := Unlink(temp);
        return false;
      }
      ok := Replace(temp, backup, backedUp, data, before, from);
    }
  }

  /** After an error the slot is as it was, or what should have put it back was refused: its backup is kept, synced, or a
      slot that was not there could not be removed. */
  ghost predicate PutBack(before: Files, after: Files, refused: set<Name>, flushed: set<Name>) {
    || SameAt(before, after, SlotName)
    || (exists n: nat :: BackedUp(before, after, BackupName(n)) && BackupName(n) in refused && BackupName(n) in flushed)
    || (SlotName !in before && SlotName in refused)
  }
}
