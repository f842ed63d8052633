/** E4Key and its rotation transaction: the code of internal/crypto/keys.go and c2key.go. */
module Keys {
  import opened Wrappers
  import opened Pages
  import opened Crypto
  import opened Rotation

  datatype Place = AtBackup | AtCommit | AtRollback

  /** How the file operations of one rotation go. */
  datatype Disk = Disk(
    openFails: Place -> bool,
    reaches: Place -> nat, // how many bytes a write gets to the file
    writeErrs: Place -> bool,
    removeFails: bool,
    keyFails: bool) // the new public key cannot be computed
  {
    /** A write of `data` puts a whole copy in the file and reports no error. */
    predicate WritesWhole(place: Place, data: Bytes) {
      reaches(place) >= |data| && !writeErrs(place)
    }

    /** Nothing fails, for data of this length. */
    ghost predicate Works(data: Bytes) {
      !keyFails && forall place :: !openFails(place) && WritesWhole(place, data)
    }
  }

  lemma WriteIsStep(lib: Library, keyPath: string, s: State, key: Bytes, n: nat, next: Phase)
    requires (s.phase.Truncated? && s.phase.next == key) || (s.phase.Restoring? && s.secret == key)
    requires n <= |key|
    requires s.phase.Truncated? ==>
      next == Phase.Failed(s.phase.backup) || (n == |key| && next == Written(s.phase.backup, key))
    requires s.phase.Restoring? ==> next == Idle || (n == |key| && next == Restored(s.phase.backup))
    ensures Step(lib, keyPath, s, s.(files := s.files[keyPath := key[..n]], phase := next))
  {
    var s' := s.(files := s.files[keyPath := key[..n]], phase := next);
    if s.phase.Truncated? {
      assert WriteKey(keyPath, s, s', n);
    } else {
      assert WriteRestore(keyPath, s, s', n);
    }
  }

  lemma BackupIsStep(lib: Library, keyPath: string, s: State, s': State, n: nat, next: Bytes)
    requires WriteBackup(lib, s, s', n, next)
    ensures Step(lib, keyPath, s, s')
  {
  }

  lemma TruncateIsStep(lib: Library, keyPath: string, s: State, s': State, ok: bool)
    requires s.phase.Open? || s.phase.Failed?
    requires ok ==>
      s' == s.(files := s.files[keyPath := []],
               phase := if s.phase.Open? then Truncated(s.phase.backup, s.phase.next) else Restoring(s.phase.backup))
    requires !ok ==> s' == s.(phase := if s.phase.Open? then Phase.Failed(s.phase.backup) else Idle)
    ensures Step(lib, keyPath, s, s')
  {
    assert TruncateKey(keyPath, s, s') || TruncateForRestore(keyPath, s, s') || FailEarly(s, s') || GiveUp(s, s');
  }

  class E4Key {
    const lib: Library
    const pubKeyMode: bool
    const keyPath: string
    var c2PrivKey: Bytes
    var c2PubKey: Bytes
    var files: Files // the server's disk

    // The transition system's view of this object, and every state it went through.
    ghost var phase: Phase
    ghost var replaced: seq<(string, Bytes)>
    ghost var run: seq<State>

    ghost function Now(): State
      reads this
    {
      State(files, c2PrivKey, c2PubKey, phase, replaced)
    }

    ghost predicate Valid()
      reads this
    {
      run != [] && run[|run| - 1] == Now() && IsRun(lib, keyPath, run)
    }

    /** NewE4PubKey, from a key file that could be read and passes validation. */
    constructor (lib: Library, pubKeyMode: bool, keyPath: string, files: Files)
      requires lib.keyLen > 0 && keyPath in files && |files[keyPath]| == lib.keyLen
      ensures Valid() && phase.Idle? && this.lib == lib && this.pubKeyMode == pubKeyMode
      ensures this.keyPath == keyPath && this.files == files
      ensures c2PrivKey == files[keyPath] && c2PubKey == lib.C2Public(c2PrivKey)
    {
      this.lib, this.pubKeyMode, this.keyPath, this.files := lib, pubKeyMode, keyPath, files;
      c2PrivKey := files[keyPath];
      c2PubKey := lib.C2Public(files[keyPath]);
      phase, replaced := Idle, [];
      var start := State(files, files[keyPath], lib.C2Public(files[keyPath]), Idle, []);
      assert Sane(lib, keyPath, start);
      run := [start];
    }

    lemma NowIsSane()
      requires Valid()
      ensures Sane(lib, keyPath, Now())
    {
      RunsAreSafe(lib, keyPath, run, |run| - 1);
    }

    /** While a rotation is under way, its backup file holds the key in memory. */
    lemma BackupHoldsKey()
      requires Valid() && !phase.Idle? && !phase.Backing? && !phase.Swapped?
      ensures keyPath in files && phase.backup != keyPath
      ensures phase.backup in files && files[phase.backup] == c2PrivKey
      ensures phase.Open? || phase.Truncated? || phase.Written? ==> |phase.next| == |c2PrivKey|
    {
      NowIsSane();
    }

    /** Every state so far could be recovered from after a crash, and kept all replaced keys. */
    lemma EveryStateRecoverable(k: nat)
      requires Valid() && k < |run|
      ensures Recoverable(keyPath, run[k]) && HistoryKept(keyPath, run[k])
      ensures PairHolds(lib, run[k]) && run[k].replaced <= replaced
    {
      RunsAreSafe(lib, keyPath, run, k);
      RunsAreSafe(lib, keyPath, run, |run| - 1);
    }

    /** Notes the state reached by one step; the step itself has just been taken. */
    ghost method Note(next: Phase)
      requires run != [] && IsRun(lib, keyPath, run)
      requires Step(lib, keyPath, run[|run| - 1], Now().(phase := next))
      modifies this`phase, this`run
      ensures Valid() && phase == next && run == old(run) + [Now()]
    {
      RunExtends(lib, keyPath, run, Now().(phase := next));
      phase := next;
      run := run + [Now()];
    }

    /** os.OpenFile with O_CREATE and O_EXCL. */
    method CreateBackupFile(backup: string, d: Disk) returns (ok: bool)
      requires Valid() && phase.Idle? && IsBackupPath(keyPath, backup)
      modifies this`files, this`phase, this`run
      ensures Valid() && old(run) <= run
      ensures ok == (backup !in old(files) && !d.openFails(AtBackup))
      ensures files == (if ok then old(files)[backup := []] else old(files))
      ensures phase == if ok then Backing(backup) else Idle
    {
      if d.openFails(AtBackup) || backup in files {
        return false;
      }
      files := files[backup := []];
      assert CreateBackup(keyPath, old(Now()), Now().(phase := Backing(backup)), backup);
      Note(Backing(backup));
      return true;
    }

    method WriteBackupFile(backup: string, d: Disk, ghost next: Bytes) returns (ok: bool)
      requires Valid() && phase == Backing(backup) && |next| == lib.keyLen
      modifies this`files, this`phase, this`run
      ensures Valid() && old(run) <= run
      ensures ok == d.WritesWhole(AtBackup, c2PrivKey)
      ensures ok ==> files == old(files)[backup := c2PrivKey]
      ensures forall p :: p in old(files) && p != backup ==> p in files && files[p] == old(files)[p]
      ensures files.Keys == old(files).Keys
      ensures phase == if ok then Open(backup, next) else Idle
    {
      hide IsRun, Step;
      NowIsSane();
      var n := Min(d.reaches(AtBackup), |c2PrivKey|);
      ok := !d.writeErrs(AtBackup) && n == |c2PrivKey|;
      files := files[backup := c2PrivKey[..n]];
      BackupIsStep(lib, keyPath, old(Now()), Now().(phase := if ok then Open(backup, next) else Idle), n, next);
      Note(if ok then Open(backup, next) else Idle);
      assert ok ==> c2PrivKey[..n] == c2PrivKey;
    }

    method BackupCurrentC2Key(timestamp: string, d: Disk, ghost next: Bytes) returns (path: Option<string>)
      requires Valid() && phase.Idle? && |next| == lib.keyLen
      modifies this`files, this`phase, this`run
      ensures Valid() && old(run) <= run
      ensures path.Some? <==> BackupPath(keyPath, timestamp) !in old(files)
                              && !d.openFails(AtBackup) && d.WritesWhole(AtBackup, c2PrivKey)
      ensures path.Some? ==>
        && path.value == BackupPath(keyPath, timestamp)
        && phase == Open(path.value, next) && files == old(files)[path.value := c2PrivKey]
      ensures path.None? ==> phase.Idle?
      ensures forall p :: p in old(files) ==> p in files && files[p] == old(files)[p]
      ensures files.Keys <= old(files).Keys + {BackupPath(keyPath, timestamp)}
    {
      var backup := BackupPath(keyPath, timestamp);
      var ok := CreateBackupFile(backup, d);
      if ok {
        ok := WriteBackupFile(backup, d, next);
      }
      path := if ok then Some(backup) else None;
    }

    /**
     * The overwrite of the key file that a rotation under way takes next: Commit's, with the new key,
     * or Rollback's, with the one in memory. Outside of these the file is written just the same, but
     * it is no step of a rotation.
     */
    ghost predicate Expects(key: Bytes)
      reads this
    {
      Valid() && ((phase.Open? && phase.next == key) || (phase.Failed? && key == c2PrivKey))
    }

    /** os.OpenFile with O_TRUNC on the key file, for Commit or for Rollback. */
    method TruncateKeyFile(d: Disk, place: Place, ghost tracked: bool) returns (ok: bool)
      requires tracked ==> Valid() && (phase.Open? || phase.Failed?)
      modifies this`files, this`phase, this`run
      ensures ok == (keyPath in old(files) && !d.openFails(place))
      ensures files == if ok then old(files)[keyPath := []] else old(files)
      ensures if tracked then Valid() && old(run) <= run else phase == old(phase) && run == old(run)
      ensures tracked ==> phase == match old(phase)
                                   case Open(backup, next) => if ok then Truncated(backup, next)
                                                               else Phase.Failed(backup)
                                   case Failed(backup) => if ok then Restoring(backup) else Idle
                                   case _ => phase
    {
      ok := keyPath in files && !d.openFails(place);
      if ok {
        files := files[keyPath := []];
      }
      if tracked {
        ghost var backup := phase.backup;
        ghost var begun := if phase.Open? then Truncated(backup, phase.next) else Restoring(backup);
        ghost var next := if ok then begun else if phase.Open? then Phase.Failed(backup) else Idle;
        TruncateIsStep(lib, keyPath, old(Now()), Now().(phase := next), ok);
        Note(next);
      }
    }

    method WriteKeyFile(key: Bytes, d: Disk, place: Place, ghost tracked: bool) returns (ok: bool)
      requires |key| == |c2PrivKey| && keyPath in files
      requires tracked ==>
        Valid() && ((phase.Truncated? && phase.next == key) || (phase.Restoring? && key == c2PrivKey))
      modifies this`files, this`phase, this`run
      ensures ok == d.WritesWhole(place, key)
      ensures ok ==> files == old(files)[keyPath := key]
      ensures files.Keys == old(files).Keys
      ensures forall p :: p in old(files) && p != keyPath ==> files[p] == old(files)[p]
      ensures if tracked then Valid() && old(run) <= run else phase == old(phase) && run == old(run)
      ensures tracked ==> phase == match old(phase)
                                   case Truncated(backup, next) => if ok then Written(backup, next)
                                                               else Phase.Failed(backup)
                                   case Restoring(backup) => if ok then Restored(backup) else Idle
                                   case _ => phase
    {
      hide IsRun, Step;
      var n := Min(d.reaches(place), |key|);
      ok := !d.writeErrs(place) && n == |c2PrivKey|;
      files := files[keyPath := key[..n]];
      if tracked {
        ghost var backup := phase.backup;
        ghost var next := if phase.Truncated? then (if ok then Written(backup, key) else Phase.Failed(backup))
                          else (if ok then Restored(backup) else Idle);
        WriteIsStep(lib, keyPath, old(Now()), key, n, next);
        Note(next);
      }
      assert ok ==> key[..n] == key;
    }

    /** The phase an overwrite of the key file ends in. */
    ghost function Overwritten(from: Phase, ok: bool): Phase
      requires from.Open? || from.Failed?
    {
      match from
      case Open(backup, next) => if ok then Written(backup, next) else Phase.Failed(backup)
      case Failed(backup) => if ok then Restored(backup) else Idle
    }

    method OverwriteC2PrivateKey(key: Bytes, d: Disk, place: Place) returns (ok: bool)
      requires |key| == |c2PrivKey|
      modifies this`files, this`phase, this`run
      ensures ok == (keyPath in old(files) && !d.openFails(place) && d.WritesWhole(place, key))
      ensures ok ==> files == old(files)[keyPath := key]
      ensures files.Keys == old(files).Keys
      ensures forall p :: p in old(files) && p != keyPath ==> files[p] == old(files)[p]
      ensures old(Expects(key)) ==> Valid() && old(run) <= run && phase == Overwritten(old(phase), ok)
      ensures !old(Expects(key)) ==> phase == old(phase) && run == old(run)
    {
      ghost var tracked := Expects(key);
      ok := TruncateKeyFile(d, place, tracked);
      if ok {
        ok := WriteKeyFile(key, d, place, tracked);
      }
    }

    /** The two assignments that end Commit. */
    method InstallKeys(secret: Bytes, public: Bytes, ghost tracked: bool)
      requires tracked ==> Valid() && phase.Written? && phase.next == secret && public == lib.C2Public(secret)
      modifies this`c2PrivKey, this`c2PubKey, this`phase, this`replaced, this`run
      ensures c2PrivKey == secret && c2PubKey == public
      ensures tracked ==> Valid() && phase.Idle? && old(run) <= run
      ensures tracked ==> replaced == old(replaced) + [(old(phase).backup, old(c2PrivKey))]
      ensures !tracked ==> phase == old(phase) && run == old(run) && replaced == old(replaced)
    {
      hide IsRun;
      if tracked {
        replaced := replaced + [(phase.backup, c2PrivKey)];
      }
      c2PrivKey := secret;
      if tracked {
        assert InstallSecret(old(Now()), Now().(phase := Swapped));
        Note(Swapped);
      }
      label Half:
      c2PubKey := public;
      if tracked {
        assert InstallPublic(lib, old@Half(Now()), Now().(phase := Idle));
        Note(Idle);
      }
    }

    /** os.Remove of the backup that Rollback no longer needs. */
    method RemoveBackupFile(backup: string, d: Disk, ghost tracked: bool) returns (ok: bool)
      requires tracked ==> Valid() && phase == Restored(backup)
      modifies this`files, this`phase, this`run
      ensures ok == (backup in old(files) && !d.removeFails)
      ensures files == if ok then old(files) - {backup} else old(files)
      ensures if tracked then Valid() && phase.Idle? && old(run) <= run else phase == old(phase) && run == old(run)
    {
      ok := backup in files && !d.removeFails;
      if ok {
        files := files - {backup};
      }
      if tracked {
        ghost var done := Now().(phase := Idle);
        assert if ok then RemoveBackup(old(Now()), done) else GiveUp(old(Now()), done);
        Note(Idle);
      }
    }

    /** Rollback begins, after a failed Commit or without one. */
    ghost method BeginUndo(backup: string)
      requires Valid() && (phase == Phase.Failed(backup) || (phase.Open? && phase.backup == backup))
      modifies this`phase, this`run
      ensures Valid() && old(run) <= run && phase == Phase.Failed(backup)
      ensures keyPath in files && backup != keyPath && backup in files && files[backup] == c2PrivKey
    {
      BackupHoldsKey();
      if phase.Open? {
        assert FailEarly(Now(), Now().(phase := Phase.Failed(backup)));
        Note(Phase.Failed(backup));
      }
    }

    /** At a time at which no backup was made, and with a disk that works, a transaction is handed out. */
    lemma BeginsAtNewTimes(times: set<string>, timestamp: string, d: Disk)
      requires BackedUpAt(keyPath, files, times) && timestamp !in times && d.Works(c2PrivKey)
      ensures Begins(timestamp, d)
    {
      NewTimesAreFree(keyPath, files, times, timestamp);
    }

    /** What it takes for a rotation's transaction to be handed out. */
    predicate Begins(timestamp: string, d: Disk)
      reads this
    {
      && BackupPath(keyPath, timestamp) !in files
      && !d.openFails(AtBackup) && d.WritesWhole(AtBackup, c2PrivKey) && !d.keyFails
    }

    method NewC2KeyRotationTx(timestamp: string, newKey: Bytes, d: Disk) returns (tx: C2KeyRotationTx?)
      requires Valid() && phase.Idle? && |newKey| == lib.keyLen
      modifies this`files, this`phase, this`run
      ensures Valid() && old(run) <= run
      ensures tx != null <==> old(Begins(timestamp, d))
      ensures tx == null ==> phase.Idle?
      ensures tx != null ==>
        && fresh(tx) && tx.e4Key == this && tx.newC2PrivateKey == newKey && tx.newC2PublicKey == lib.C2Public(newKey)
        && tx.backupPath == BackupPath(keyPath, timestamp) && !tx.rolledBack && tx.Pending()
        && files == old(files)[tx.backupPath := c2PrivKey]
      ensures forall p :: p in old(files) ==> p in files && files[p] == old(files)[p]
      ensures files.Keys <= old(files).Keys + {BackupPath(keyPath, timestamp)}
    {
      var backup := BackupCurrentC2Key(timestamp, d, newKey);
      if backup.None? {
        return null;
      }
      if d.keyFails {
        assert GiveUp(Now(), Now().(phase := Idle));
        Note(Idle);
        return null;
      }
      NowIsSane();
      tx := new C2KeyRotationTx(this, newKey, lib.C2Public(newKey), backup.value);
    }
  }

  class C2KeyRotationTx {
    const e4Key: E4Key
    const newC2PrivateKey: Bytes
    const newC2PublicKey: Bytes
    const backupPath: string
    var rolledBack: bool

    constructor (e4Key: E4Key, newC2PrivateKey: Bytes, newC2PublicKey: Bytes, backupPath: string)
      ensures this.e4Key == e4Key && this.newC2PrivateKey == newC2PrivateKey && this.newC2PublicKey == newC2PublicKey
      ensures this.backupPath == backupPath && !rolledBack
    {
      this.e4Key, this.newC2PrivateKey, this.newC2PublicKey, this.backupPath :=
        e4Key, newC2PrivateKey, newC2PublicKey, backupPath;
      rolledBack := false;
    }

    /** What every transaction is made with, and keeps. */
    ghost predicate Made()
      reads this, e4Key
    {
      |newC2PrivateKey| == |e4Key.c2PrivKey| && newC2PublicKey == e4Key.lib.C2Public(newC2PrivateKey)
    }

    /** The transaction is the one under way, and neither committed nor rolled back. */
    ghost predicate Pending()
      reads this, e4Key
    {
      e4Key.Valid() && Made() && e4Key.phase == Open(backupPath, newC2PrivateKey) && !rolledBack
    }

    predicate Commits(d: Disk) {
      !d.openFails(AtCommit) && d.WritesWhole(AtCommit, newC2PrivateKey)
    }

    /**
     * On success memory and key file both hold the new key, on failure memory is as before; no other file
     * changes. In the rotation under way the replaced key also joins the history. A transaction that was
     * rolled back is refused; one that was committed before is not.
     */
    method Commit(d: Disk) returns (ok: bool)
      requires Made()
      modifies e4Key
      ensures Made()
      ensures old(rolledBack) ==> !ok && unchanged(e4Key)
      ensures !old(rolledBack) ==> ok == (e4Key.keyPath in old(e4Key.files) && Commits(d))
      ensures ok ==>
        && e4Key.c2PrivKey == newC2PrivateKey && e4Key.c2PubKey == newC2PublicKey
        && e4Key.files == old(e4Key.files)[e4Key.keyPath := newC2PrivateKey]
      ensures !ok ==> e4Key.c2PrivKey == old(e4Key.c2PrivKey) && e4Key.c2PubKey == old(e4Key.c2PubKey)
      ensures e4Key.files.Keys == old(e4Key.files).Keys
      ensures forall p :: p in old(e4Key.files) && p != e4Key.keyPath ==>
        p in e4Key.files && e4Key.files[p] == old(e4Key.files)[p]
      ensures old(Pending()) ==> e4Key.Valid() && old(e4Key.run) <= e4Key.run && (ok <==> Commits(d))
      ensures old(Pending()) && ok ==>
        e4Key.phase.Idle? && e4Key.replaced == old(e4Key.replaced) + [(backupPath, old(e4Key.c2PrivKey))]
      ensures old(Pending()) && !ok ==>
        e4Key.phase == Failed(backupPath) && e4Key.replaced == old(e4Key.replaced)
    {
      if rolledBack {
        return false;
      }
      ghost var tracked := Pending();
      if tracked {
        e4Key.NowIsSane();
      }
      ok := e4Key.OverwriteC2PrivateKey(newC2PrivateKey, d, AtCommit);
      if !ok {
        return;
      }
      e4Key.InstallKeys(newC2PrivateKey, newC2PublicKey, tracked);
    }

    /** The rotation under way is this one's, and its Commit failed or was never tried. */
    ghost predicate Undoes()
      reads this, e4Key
    {
      e4Key.Valid() && (Pending() || e4Key.phase == Failed(backupPath))
    }

    /**
     * Puts the key in memory back into the key file and then removes the backup file, whatever has become
     * of the transaction. Memory and the history never change. In the rotation under way, the backup is
     * still there when a step fails; after a Commit, it is the replaced key's only copy that goes.
     */
    method Rollback(d: Disk) returns (ok: bool)
      requires Made()
      modifies this`rolledBack, e4Key`files, e4Key`phase, e4Key`run
      ensures Made()
      ensures ok ==> rolledBack && e4Key.files == old(e4Key.files)[e4Key.keyPath := e4Key.c2PrivKey] - {backupPath}
      ensures !ok ==> rolledBack == old(rolledBack)
      ensures e4Key.files.Keys <= old(e4Key.files).Keys
      ensures ok == (e4Key.keyPath in old(e4Key.files) && backupPath in old(e4Key.files)
                     && !d.openFails(AtRollback) && d.WritesWhole(AtRollback, e4Key.c2PrivKey) && !d.removeFails)
      ensures forall p :: p in old(e4Key.files) && p != e4Key.keyPath && p != backupPath ==>
        p in e4Key.files && e4Key.files[p] == old(e4Key.files)[p]
      ensures old(Undoes()) ==> e4Key.Valid() && e4Key.phase.Idle? && old(e4Key.run) <= e4Key.run
      ensures old(Undoes()) && !ok ==> backupPath in e4Key.files && e4Key.files[backupPath] == e4Key.c2PrivKey
    {
      hide IsRun, Step;
      ghost var tracked := Undoes();
      if tracked {
        e4Key.BeginUndo(backupPath);
      }
      ok := e4Key.OverwriteC2PrivateKey(e4Key.c2PrivKey, d, AtRollback);
      if !ok {
        return;
      }
      ok := e4Key.RemoveBackupFile(backupPath, d, tracked);
      if ok {
        rolledBack := true;
      }
    }
  }

  /** Reads the key pair from the key file; a missing file, or one that fails validation, gives no key. */
  method NewE4PubKey(lib: Library, keyPath: string, files: Files, readFails: bool, imageFails: bool) returns (k: E4Key?)
    requires lib.keyLen > 0
    ensures k != null <==> keyPath in files && !readFails && lib.ValidSecret(files[keyPath]) && !imageFails
    ensures k != null ==>
      && fresh(k) && k.Valid() && k.phase.Idle? && k.lib == lib && k.pubKeyMode && k.keyPath == keyPath
      && k.files == files && k.c2PrivKey == files[keyPath] && k.c2PubKey == lib.C2Public(k.c2PrivKey)
  {
    if keyPath !in files || readFails || !lib.ValidSecret(files[keyPath]) || imageFails {
      return null;
    }
    k := new E4Key(lib, true, keyPath, files);
  }
}
