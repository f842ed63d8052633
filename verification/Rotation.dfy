/**
 * The rotation of the C2 key as a transition system. Its steps are the single file operations and
 * memory updates of internal/crypto/c2key.go and keys.go, each of which may fail or stop part-way,
 * and a restart of the server, which may happen after any of them.
 */
module Rotation {
  import opened Crypto

  type Files = map<string, Bytes>

  /** How far the rotation under way has come; `backup` is its backup file, `next` its new key. */
  datatype Phase =
    | Idle
    | Backing(backup: string) // backup file created, not written yet
    | Open(backup: string, next: Bytes) // transaction handed out
    | Truncated(backup: string, next: Bytes) // Commit emptied the key file
    | Written(backup: string, next: Bytes) // Commit wrote the new key
    | Swapped // Commit assigned the private key and has yet to assign the public one
    | Failed(backup: string) // Commit failed, or the command could not be built
    | Restoring(backup: string) // Rollback emptied the key file
    | Restored(backup: string) // Rollback wrote the current key back

  /** Files, the key pair in memory, the phase, and the backups of the keys replaced so far. */
  datatype State = State(
    files: Files,
    secret: Bytes,
    public: Bytes,
    phase: Phase,
    replaced: seq<(string, Bytes)>)

  /** The backup file named after the key file and a point in time. */
  function BackupPath(keyPath: string, timestamp: string): string {
    keyPath + "." + timestamp + ".old"
  }

  /** Backups made at different times are different files. */
  lemma BackupPathsDiffer(keyPath: string, a: string, b: string)
    requires BackupPath(keyPath, a) == BackupPath(keyPath, b)
    ensures a == b
  {
    var p, q := BackupPath(keyPath, a), BackupPath(keyPath, b);
    var n := |keyPath| + 1;
    assert p[n..|p| - 4] == a && q[n..|q| - 4] == b;
  }

  /** Every backup file on disk was made at one of these times. */
  ghost predicate BackedUpAt(keyPath: string, files: Files, times: set<string>) {
    forall p :: p in files && IsBackupPath(keyPath, p) ==> exists t :: t in times && p == BackupPath(keyPath, t)
  }

  /** A time at which no backup was made leaves its backup file free; making it adds that time only. */
  lemma NewTimesAreFree(keyPath: string, files: Files, times: set<string>, timestamp: string)
    requires BackedUpAt(keyPath, files, times) && timestamp !in times
    ensures BackupPath(keyPath, timestamp) !in files
  {
    var path := BackupPath(keyPath, timestamp);
    if path in files {
      assert IsBackupPath(keyPath, path);
      var t :| t in times && path == BackupPath(keyPath, t);
      BackupPathsDiffer(keyPath, timestamp, t);
    }
  }

  lemma OneMoreBackup(keyPath: string, files: Files, times: set<string>, timestamp: string, files': Files)
    requires BackedUpAt(keyPath, files, times) && files'.Keys <= files.Keys + {BackupPath(keyPath, timestamp)}
    ensures BackedUpAt(keyPath, files', times + {timestamp})
  {
    forall p | p in files' && IsBackupPath(keyPath, p)
      ensures exists t :: t in times + {timestamp} && p == BackupPath(keyPath, t) {
      if p in files {
        var t :| t in times && p == BackupPath(keyPath, t);
        assert t in times + {timestamp};
      } else {
        assert timestamp in times + {timestamp};
      }
    }
  }

  ghost predicate IsBackupPath(keyPath: string, path: string) {
    exists timestamp :: path == BackupPath(keyPath, timestamp)
  }

  // ---- The steps

  ghost predicate CreateBackup(keyPath: string, s: State, s': State, path: string) {
    && s.phase.Idle? && IsBackupPath(keyPath, path) && path !in s.files
    && s' == s.(files := s.files[path := []], phase := Backing(path))
  }

  /** Some prefix reaches the file; only a whole key opens the transaction. */
  ghost predicate WriteBackup(lib: Library, s: State, s': State, n: nat, next: Bytes) {
    && s.phase.Backing? && n <= |s.secret| && |next| == lib.keyLen
    && s'.files == s.files[s.phase.backup := s.secret[..n]]
    && (s'.phase == Idle || (n == |s.secret| && s'.phase == Open(s.phase.backup, next)))
    && s' == s.(files := s'.files, phase := s'.phase)
  }

  /** The command or the new file handle fails: nothing on disk moved. */
  ghost predicate FailEarly(s: State, s': State) {
    s.phase.Open? && s' == s.(phase := Failed(s.phase.backup))
  }

  ghost predicate TruncateKey(keyPath: string, s: State, s': State) {
    && s.phase.Open?
    && s' == s.(files := s.files[keyPath := []], phase := Truncated(s.phase.backup, s.phase.next))
  }

  ghost predicate WriteKey(keyPath: string, s: State, s': State, n: nat) {
    && s.phase.Truncated? && n <= |s.phase.next|
    && s'.files == s.files[keyPath := s.phase.next[..n]]
    && (s'.phase == Failed(s.phase.backup) ||
        (n == |s.phase.next| && s'.phase == Written(s.phase.backup, s.phase.next)))
    && s' == s.(files := s'.files, phase := s'.phase)
  }

  ghost predicate InstallSecret(s: State, s': State) {
    && s.phase.Written?
    && s' == s.(secret := s.phase.next, phase := Swapped, replaced := s.replaced + [(s.phase.backup, s.secret)])
  }

  ghost predicate InstallPublic(lib: Library, s: State, s': State) {
    s.phase.Swapped? && s' == s.(public := lib.C2Public(s.secret), phase := Idle)
  }

  /** The transaction is not handed out, or Rollback cannot go on: the backup stays. */
  ghost predicate GiveUp(s: State, s': State) {
    (s.phase.Open? || s.phase.Failed? || s.phase.Restored?) && s' == s.(phase := Idle)
  }

  ghost predicate TruncateForRestore(keyPath: string, s: State, s': State) {
    && s.phase.Failed?
    && s' == s.(files := s.files[keyPath := []], phase := Restoring(s.phase.backup))
  }

  ghost predicate WriteRestore(keyPath: string, s: State, s': State, n: nat) {
    && s.phase.Restoring? && n <= |s.secret|
    && s'.files == s.files[keyPath := s.secret[..n]]
    && (s'.phase == Idle || (n == |s.secret| && s'.phase == Restored(s.phase.backup)))
    && s' == s.(files := s'.files, phase := s'.phase)
  }

  ghost predicate RemoveBackup(s: State, s': State) {
    && s.phase.Restored?
    && s' == s.(files := s.files - {s.phase.backup}, phase := Idle)
  }

  /** The server stops, in any phase, and starts again from a key file that passes validation. */
  ghost predicate Restart(lib: Library, keyPath: string, s: State, s': State) {
    && keyPath in s.files && lib.ValidSecret(s.files[keyPath])
    && s' == s.(secret := s.files[keyPath], public := lib.C2Public(s.files[keyPath]), phase := Idle)
  }

  ghost predicate Step(lib: Library, keyPath: string, s: State, s': State) {
    || (exists path :: CreateBackup(keyPath, s, s', path))
    || (exists n, next :: WriteBackup(lib, s, s', n, next))
    || FailEarly(s, s')
    || TruncateKey(keyPath, s, s')
    || (exists n :: WriteKey(keyPath, s, s', n))
    || InstallSecret(s, s')
    || InstallPublic(lib, s, s')
    || GiveUp(s, s')
    || TruncateForRestore(keyPath, s, s')
    || (exists n :: WriteRestore(keyPath, s, s', n))
    || RemoveBackup(s, s')
    || Restart(lib, keyPath, s, s')
  }

  // ---- What every state of every run satisfies

  /** The key in memory can be read back from disk. */
  ghost predicate Recoverable(keyPath: string, s: State) {
    || (keyPath in s.files && s.files[keyPath] == s.secret)
    || exists path :: IsBackupPath(keyPath, path) && path in s.files && s.files[path] == s.secret
  }

  /** Every key a rotation replaced is in a backup file of its own. */
  ghost predicate HistoryKept(keyPath: string, s: State) {
    && (forall i :: 0 <= i < |s.replaced| ==>
          && s.replaced[i].0 != keyPath && s.replaced[i].0 in s.files
          && s.files[s.replaced[i].0] == s.replaced[i].1)
    && (forall i, j :: 0 <= i < j < |s.replaced| ==> s.replaced[i].0 != s.replaced[j].0)
  }

  ghost predicate BackupIsOwn(keyPath: string, s: State) {
    !s.phase.Idle? && !s.phase.Swapped? ==>
      && IsBackupPath(keyPath, s.phase.backup) && s.phase.backup != keyPath && s.phase.backup in s.files
      && forall i :: 0 <= i < |s.replaced| ==> s.replaced[i].0 != s.phase.backup
  }

  ghost predicate PhaseHolds(lib: Library, keyPath: string, s: State)
    requires BackupIsOwn(keyPath, s) && keyPath in s.files
  {
    match s.phase
    case Idle => Recoverable(keyPath, s)
    case Backing(backup) => s.files[backup] == [] && Recoverable(keyPath, s)
    case Open(backup, next) => s.files[backup] == s.secret && |next| == lib.keyLen
    case Truncated(backup, next) => s.files[backup] == s.secret && |next| == lib.keyLen
    case Written(backup, next) => s.files[backup] == s.secret && |next| == lib.keyLen && s.files[keyPath] == next
    case Swapped => s.files[keyPath] == s.secret
    case Failed(backup) => s.files[backup] == s.secret
    case Restoring(backup) => s.files[backup] == s.secret
    case Restored(backup) => s.files[backup] == s.secret && s.files[keyPath] == s.secret
  }

  /** The public key is the image of the private one, or, between Commit's two assignments, of the replaced one. */
  ghost predicate PairHolds(lib: Library, s: State) {
    if s.phase.Swapped? then s.replaced != [] && s.public == lib.C2Public(s.replaced[|s.replaced| - 1].1)
    else s.public == lib.C2Public(s.secret)
  }

  ghost predicate Sane(lib: Library, keyPath: string, s: State) {
    && lib.keyLen > 0 && |s.secret| == lib.keyLen && PairHolds(lib, s)
    && keyPath in s.files
    && HistoryKept(keyPath, s)
    && BackupIsOwn(keyPath, s)
    && PhaseHolds(lib, keyPath, s)
  }

  lemma BackupIsNotKey(keyPath: string, path: string)
    requires IsBackupPath(keyPath, path)
    ensures path != keyPath
  {
    var timestamp :| path == BackupPath(keyPath, timestamp);
    assert |path| > |keyPath|;
  }

  lemma BackupStepsSane(lib: Library, keyPath: string, s: State, s': State)
    requires Sane(lib, keyPath, s)
    requires (exists path :: CreateBackup(keyPath, s, s', path)) || (exists n, next :: WriteBackup(lib, s, s', n, next))
    ensures Sane(lib, keyPath, s')
  {
    if path :| CreateBackup(keyPath, s, s', path) {
      BackupIsNotKey(keyPath, path);
    }
    if s.files[keyPath] != s.secret {
      var kept :| IsBackupPath(keyPath, kept) && kept in s.files && s.files[kept] == s.secret;
      assert kept in s'.files && s'.files[kept] == s'.secret;
    }
  }

  lemma CommitStepsSane(lib: Library, keyPath: string, s: State, s': State)
    requires Sane(lib, keyPath, s)
    requires FailEarly(s, s') || TruncateKey(keyPath, s, s') ||
      (exists n :: WriteKey(keyPath, s, s', n)) || InstallSecret(s, s') || InstallPublic(lib, s, s')
    ensures Sane(lib, keyPath, s')
  {
  }

  lemma RollbackStepsSane(lib: Library, keyPath: string, s: State, s': State)
    requires Sane(lib, keyPath, s)
    requires GiveUp(s, s') || TruncateForRestore(keyPath, s, s') ||
      (exists n :: WriteRestore(keyPath, s, s', n)) || RemoveBackup(s, s')
    ensures Sane(lib, keyPath, s')
  {
  }

  lemma StepSane(lib: Library, keyPath: string, s: State, s': State)
    requires Sane(lib, keyPath, s) && Step(lib, keyPath, s, s')
    ensures Sane(lib, keyPath, s')
  {
    if (exists path :: CreateBackup(keyPath, s, s', path)) || (exists n, next :: WriteBackup(lib, s, s', n, next)) {
      BackupStepsSane(lib, keyPath, s, s');
    } else if Restart(lib, keyPath, s, s') {
    } else if GiveUp(s, s') || TruncateForRestore(keyPath, s, s') ||
      (exists n :: WriteRestore(keyPath, s, s', n)) || RemoveBackup(s, s') {
      RollbackStepsSane(lib, keyPath, s, s');
    } else {
      CommitStepsSane(lib, keyPath, s, s');
    }
  }

  /** In every phase, the key in memory is on disk: the key file or a backup holds it. */
  lemma SaneIsRecoverable(lib: Library, keyPath: string, s: State)
    requires Sane(lib, keyPath, s)
    ensures Recoverable(keyPath, s)
  {
    if !s.phase.Idle? && !s.phase.Backing? && !s.phase.Swapped? {
      assert IsBackupPath(keyPath, s.phase.backup) && s.files[s.phase.backup] == s.secret;
    }
  }

  /** The history only grows. */
  lemma StepKeepsHistory(lib: Library, keyPath: string, s: State, s': State)
    requires Step(lib, keyPath, s, s')
    ensures s.replaced <= s'.replaced
  {
  }

  /** A run of steps from a state in order, such as a server that has just read its key file. */
  ghost predicate IsRun(lib: Library, keyPath: string, run: seq<State>) {
    var n := |run|;
    if n <= 1 then n == 1 && Sane(lib, keyPath, run[0])
    else IsRun(lib, keyPath, run[..n - 1]) && Step(lib, keyPath, run[n - 2], run[n - 1])
  }

  lemma RunExtends(lib: Library, keyPath: string, run: seq<State>, s: State)
    requires IsRun(lib, keyPath, run) && Step(lib, keyPath, run[|run| - 1], s)
    ensures IsRun(lib, keyPath, run + [s])
  {
    assert (run + [s])[..|run|] == run;
  }

  /**
   * Crash safety and history, over every run of rotations and restarts: in every state the key in
   * memory can be recovered, its public half matches except between Commit's two assignments, where
   * it still is the replaced key's, and every key replaced up to some point is in its own backup
   * file at every later point.
   */
  lemma {:induction false} RunsAreSafe(lib: Library, keyPath: string, run: seq<State>, k: nat)
    requires IsRun(lib, keyPath, run) && k < |run|
    ensures Sane(lib, keyPath, run[k]) && Recoverable(keyPath, run[k])
    ensures PairHolds(lib, run[k])
    ensures HistoryKept(keyPath, run[k])
    ensures forall i :: 0 <= i <= k ==> run[i].replaced <= run[k].replaced
  {
    hide Step, PhaseHolds, BackupIsOwn;
    var n := |run|;
    var front := run[..n - 1];
    if k < n - 1 {
      RunsAreSafe(lib, keyPath, front, k);
      assert forall i :: 0 <= i <= k ==> front[i] == run[i];
    } else if n > 1 {
      RunsAreSafe(lib, keyPath, front, n - 2);
      StepSane(lib, keyPath, run[n - 2], run[n - 1]);
      StepKeepsHistory(lib, keyPath, run[n - 2], run[n - 1]);
      assert forall i :: 0 <= i < n - 1 ==> front[i] == run[i];
    }
    SaneIsRecoverable(lib, keyPath, run[k]);
  }
}
