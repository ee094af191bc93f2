/** The lock files as texts: acquiring a lock on them is what the store does with its judged locks. */
module LockFiles {
  import opened Prelude
  import B = BusyLock
  import S = Store

  /** The text of each lock file, `None` where it cannot be read. */
  type Files = map<string, Option<string>>

  /** A process as the one that judges knows itself. */
  predicate Knows(self: B.Holder, running: B.Processes) {
    self.Valid() && running(self.pid) == self.start
  }

  /** What a lock file is to a process. */
  function Judge(raw: Option<string>, pid: nat, running: B.Processes): S.Sentinel {
    if B.Recoverable(raw, true, running) then S.Stale
    else if raw.Some? && B.ParsePid(raw.value) == Some(pid) then S.Ours
    else S.Foreign
  }

  function Judged(files: Files, pid: nat, running: B.Processes): map<string, S.Sentinel> {
    map id | id in files :: Judge(files[id], pid, running)
  }

  /** `acquire_busy` on the files: an existing file is judged, a stale one is removed first. */
  method Acquire(files: Files, id: string, self: B.Holder, running: B.Processes, fault: S.LockFault)
    returns (files': Files, answer: S.LockAnswer)
    ensures (files', answer) == Acquired(files, id, self, running, fault)
  {
    files' := files;
    if id in files' {
      if !B.Recoverable(files'[id], true, running) { return files', S.LockAnswer.Busy; }
      files' := files' - {id};
    }
    if fault.CreateFails? {
      assert files' == files - {id};
      return files', S.LockIo;
    }
    files' := files'[id := None];
    if fault.WriteFails? {
      files' := files' - {id};
      assert files' == files - {id};
      return files', S.LockIo;
    }
    files' := files'[id := Some(B.Format(self))];
    assert files' == files[id := Some(B.Format(self))];
    answer := S.LockAnswer.Acquired;
  }

  function Acquired(files: Files, id: string, self: B.Holder, running: B.Processes, fault: S.LockFault)
    : (Files, S.LockAnswer)
  {
    if id in files && !B.Recoverable(files[id], true, running) then (files, S.LockAnswer.Busy)
    else if fault.NoFault? then (files[id := Some(B.Format(self))], S.LockAnswer.Acquired)
    else (files - {id}, S.LockIo)
  }

  /** The store whose locks are these files as the process judges them. */
  function WithLocks(s: S.State, files: Files, pid: nat, running: B.Processes): S.State {
    s.(busy := Judged(files, pid, running))
  }

  /** A lock of this process is its own to it exactly if its start time can be read, otherwise it is stale. */
  lemma OwnLockIsJudged(self: B.Holder, running: B.Processes)
    requires Knows(self, running)
    ensures Judge(Some(B.Format(self)), self.pid, running) == if self.start.Some? then S.Ours else S.Stale
  {
    B.FormatReadsBack(self);
    B.OwnLockHoldsExactlyWhen(self, running);
  }

  /**
   * On the judged files the store's `acquire` gives the same answer, and the same locks afterwards exactly if no lock
   * was written or the start time of this process can be read.
   */
  lemma StoreFollowsFilesExactlyWhen(s: S.State, files: Files, id: string, self: B.Holder, running: B.Processes,
                                     fault: S.LockFault)
    requires Knows(self, running)
    ensures var (files', answer) := Acquired(files, id, self, running, fault);
      var (store, expected) := S.Acquire(WithLocks(s, files, self.pid, running), id, fault);
      && answer == expected
      && (store == WithLocks(s, files', self.pid, running) <==> !answer.Acquired? || self.start.Some?)
  {
    var (files', answer) := Acquired(files, id, self, running, fault);
    var before, after := Judged(files, self.pid, running), Judged(files', self.pid, running);
    OwnLockIsJudged(self, running);
    if answer.Acquired? {
      assert before[id := after[id]] == after;
      assert before[id := S.Ours][id] == S.Ours;
    } else if answer.LockIo? {
      assert before - {id} == after;
    }
  }

  lemma ReleasingFollowsFiles(s: S.State, files: Files, id: string, pid: nat, running: B.Processes)
    ensures S.Released(WithLocks(s, files, pid, running), id) == WithLocks(s, files - {id}, pid, running)
  {
    assert Judged(files, pid, running) - {id} == Judged(files - {id}, pid, running);
  }

  /**
   * Whatever other processes come and go: a lock that this process holds keeps it from acquiring the lock again
   * exactly if its start time can be read.
   */
  lemma SecondAcquireIsBusyExactlyWhen(files: Files, id: string, self: B.Holder, running: B.Processes,
                                       again: B.Holder, later: B.Processes, fault: S.LockFault)
    requires Knows(self, running) && Knows(again, later) && again.pid == self.pid && again.start == self.start
    requires Acquired(files, id, self, running, S.NoFault).1.Acquired?
    ensures var held := Acquired(files, id, self, running, S.NoFault).0;
      Acquired(held, id, again, later, fault).1.Busy? <==> self.start.Some?
  {
    B.FormatReadsBack(self);
    B.WrittenLockIsStaleExactlyWhen(self, true, later);
  }
}
