/** One process's lock object, run while the other processes take their own steps. */
module ProcessLock {
  import opened Prelude
  import opened Lock

  datatype Acquisition = Acquired | AlreadyRunning(pid: nat) | NotYetReadable | Exhausted

  datatype Age = Missing | Young | Old

  datatype Verdict = Refuse(answer: Acquisition) | TryAgain | TakeOver

  // A step of the clock or of some other process.
  predicate Foreign(step: Step, pid: nat) {
    step.Tick? || step.pid != pid
  }

  predicate AllForeign(steps: seq<Step>, pid: nat) {
    forall i :: 0 <= i < |steps| ==> Foreign(steps[i], pid)
  }

  lemma {:induction false} ForeignKeepsPc(s: Directory, steps: seq<Step>, pid: nat)
    requires pid in s.procs && AllForeign(steps, pid)
    ensures pid in Run(s, steps).procs && Run(s, steps).procs[pid] == s.procs[pid]
    ensures s.clock <= Run(s, steps).clock
  {
    if steps != [] {
      ForeignKeepsPc(s, steps[..|steps| - 1], pid);
    }
  }

  lemma {:induction false} RunConcat(s: Directory, first: seq<Step>, second: seq<Step>)
    ensures Run(s, first + second) == Run(Run(s, first), second)
  {
    if second == [] {
      assert first + second == first;
    } else {
      var n := |second| - 1;
      RunConcat(s, first, second[..n]);
      assert first + second == (first + second[..n]) + [second[n]];
      RunExtend(s, first + second[..n], second[n]);
    }
  }

  // The lock file as a process that finds it alone must judge it: absent, left by a process that
  // is gone, or unreadable for 30 s.
  predicate Takeable(s: Directory, pid: nat) {
    || s.entry.None?
    || (s.entry.value < |s.inodes|
        && var file := s.inodes[s.entry.value];
           if file.content.Some? then file.content.value != pid && file.content.value !in s.procs
           else 30000 <= s.clock - file.mtime)
  }

  // What such a process is told.
  ghost function AnswerAlone(s: Directory, pid: nat): Acquisition
    requires EntryExists(s)
  {
    if Takeable(s, pid) then Acquired
    else match s.inodes[s.entry.value].content
      case Some(owner) => AlreadyRunning(owner)
      case None => NotYetReadable
  }

  predicate EntryExists(s: Directory) {
    s.entry.Some? ==> s.entry.value < |s.inodes|
  }

  class FileSystem {
    var clock: int
    var entry: Option<nat>
    var inodes: seq<Inode>
    var procs: map<nat, Pc>
    var dead: set<nat>

    function View(): Directory
      reads this
    {
      Directory(clock, entry, inodes, procs, dead)
    }

    method Meanwhile(steps: seq<Step>)
      modifies this
      ensures View() == Run(old(View()), steps)
    {
      for i := 0 to |steps|
        invariant View() == Run(old(View()), steps[..i])
      {
        var after := Apply(View(), steps[i]);
        RunExtend(old(View()), steps[..i], steps[i]);
        assert steps[..i + 1] == steps[..i] + [steps[i]];
        clock, entry, inodes, procs, dead := after.clock, after.entry, after.inodes, after.procs, after.dead;
      }
      assert steps[..|steps|] == steps;
    }
  }

  class ProcessLock {
    const pid: nat
    const files: FileSystem
    var held: bool

    predicate AtPc(pc: Pc)
      reads files
    {
      pid in files.procs && files.procs[pid] == pc
    }

    constructor (pid: nat, files: FileSystem)
      ensures this.pid == pid && this.files == files && !held
    {
      this.pid, this.files, this.held := pid, files, false;
    }

    // Every operation below happens after whatever `others` did first.
    method Wait(others: seq<Step>, ghost pc: Pc)
      requires AtPc(pc) && AllForeign(others, pid)
      modifies files
      ensures AtPc(pc) && files.View() == Run(old(files.View()), others) && old(files.clock) <= files.clock
    {
      ForeignKeepsPc(files.View(), others, pid);
      files.Meanwhile(others);
    }

    // open with 'wx'
    method OpenExclusive(others: seq<Step>, attempt: nat) returns (created: bool, ghost done: seq<Step>)
      requires AtPc(Opening(attempt)) && AllForeign(others, pid)
      modifies files
      ensures done == others + [Advance(pid, 0)] && files.View() == Run(old(files.View()), done)
      ensures created <==> Run(old(files.View()), others).entry.None?
      ensures created ==> exists inode :: AtPc(Created(inode)) && OwnsEntry(files.View(), pid, inode)
      ensures !created ==> AtPc(Reading(attempt))
    {
      done := others + [Advance(pid, 0)];
      RunExtend(files.View(), others, Advance(pid, 0));
      Wait(others, Opening(attempt));
      created := files.entry.None?;
      if created {
        files.entry := Some(|files.inodes|);
        files.procs := files.procs[pid := Created(|files.inodes|)];
        files.inodes := files.inodes + [Inode(pid, None, files.clock)];
        assert AtPc(Created(|files.inodes| - 1)) && OwnsEntry(files.View(), pid, |files.inodes| - 1);
      } else {
        files.procs := files.procs[pid := Reading(attempt)];
      }
    }

    // Writes the pid through the open descriptor, whatever the path leads to by then.
    method WritePid(others: seq<Step>, inode: nat) returns (ghost done: seq<Step>)
      requires AtPc(Created(inode)) && AllForeign(others, pid) && inode < |files.inodes|
      modifies files
      ensures done == others + [Advance(pid, 0)] && files.View() == Run(old(files.View()), done)
      ensures AtPc(Holding(inode))
    {
      done := others + [Advance(pid, 0)];
      RunExtend(files.View(), others, Advance(pid, 0));
      InodesStay(files.View(), others);
      Wait(others, Created(inode));
      files.inodes := files.inodes[inode := Inode(pid, Some(pid), files.clock)];
      files.procs := files.procs[pid := Holding(inode)];
    }

    method ReadExisting(others: seq<Step>, attempt: nat) returns (existing: Option<nat>, ghost done: seq<Step>)
      requires AtPc(Reading(attempt)) && AllForeign(others, pid)
      modifies files
      ensures done == others + [Advance(pid, 0)] && files.View() == Run(old(files.View()), done)
      ensures existing == Content(files.View()) == Content(Run(old(files.View()), others))
      ensures AtPc(if existing.Some? then Probing(attempt, existing.value) else Stating(attempt, files.clock))
    {
      done := others + [Advance(pid, 0)];
      RunExtend(files.View(), others, Advance(pid, 0));
      Wait(others, Reading(attempt));
      existing := if files.entry.Some? && files.entry.value < |files.inodes|
                  then files.inodes[files.entry.value].content else None;
      files.procs := files.procs[
        pid := if existing.Some? then Probing(attempt, existing.value) else Stating(attempt, files.clock)];
    }

    method IsProcessAlive(others: seq<Step>, attempt: nat, owner: nat) returns (alive: bool, ghost done: seq<Step>)
      requires AtPc(Probing(attempt, owner)) && AllForeign(others, pid)
      modifies files
      ensures done == others + [Advance(pid, 0)] && files.View() == Run(old(files.View()), done)
      ensures alive <==> Alive(Run(old(files.View()), others), owner)
      ensures AtPc(if alive then Idle else Removing(attempt))
    {
      done := others + [Advance(pid, 0)];
      RunExtend(files.View(), others, Advance(pid, 0));
      Wait(others, Probing(attempt, owner));
      alive := owner in files.procs;
      files.procs := files.procs[pid := if alive then Idle else Removing(attempt)];
    }

    // The clock is read first, then the file's modification time.
    method FileAge(others: seq<Step>, attempt: nat, readAt: int) returns (age: Age, ghost done: seq<Step>)
      requires AtPc(Stating(attempt, readAt)) && AllForeign(others, pid) && readAt <= files.clock
      modifies files
      ensures done == others + [Advance(pid, old(files.clock))] && files.View() == Run(old(files.View()), done)
      ensures AtPc(match age case Missing => NextAttempt(attempt) case Young => Idle case Old => Removing(attempt))
      ensures var at := Run(old(files.View()), others);
        && (age.Missing? <==> at.entry.None?)
        && (EntryExists(at) && at.entry.Some? ==>
              (age.Old? <==> UNREADABLE_MS <= old(files.clock) - at.inodes[at.entry.value].mtime))
    {
      var now := files.clock;
      done := others + [Advance(pid, now)];
      RunExtend(files.View(), others, Advance(pid, now));
      Wait(others, Stating(attempt, readAt));
      if files.entry.None? {
        age := Missing;
      } else if files.entry.value < |files.inodes|
                && now - files.inodes[files.entry.value].mtime < UNREADABLE_MS {
        age := Young;
      } else {
        age := Old;
      }
      files.procs := files.procs[
        pid := match age case Missing => NextAttempt(attempt) case Young => Idle case Old => Removing(attempt)];
    }

    method RemoveFile(others: seq<Step>, ghost pc: Pc) returns (ghost done: seq<Step>)
      requires AtPc(pc) && (pc.Removing? || pc.Releasing?) && AllForeign(others, pid)
      modifies files
      ensures done == others + [Advance(pid, 0)] && files.View() == Run(old(files.View()), done)
      ensures AtPc(if pc.Removing? then NextAttempt(pc.attempt) else Idle) && files.entry.None?
    {
      done := others + [Advance(pid, 0)];
      RunExtend(files.View(), others, Advance(pid, 0));
      Wait(others, pc);
      var next := files.procs[pid];
      files.entry := None;
      files.procs := files.procs[pid := if next.Removing? then NextAttempt(next.attempt) else Idle];
    }

    // Asks whether the pid read is alive or, when nothing could be read, how old the file is.
    method Judge(others: seq<Step>, attempt: nat, existing: Option<nat>)
      returns (verdict: Verdict, ghost done: seq<Step>)
      requires AllForeign(others, pid) && pid in files.procs
      requires if existing.Some? then AtPc(Probing(attempt, existing.value))
               else files.procs[pid].Stating? && AtPc(Stating(attempt, files.procs[pid].readAt))
                    && files.procs[pid].readAt <= files.clock
      modifies files
      ensures files.View() == Run(old(files.View()), done)
      ensures verdict.Refuse? ==> AtPc(Idle) && !verdict.answer.Acquired?
      ensures verdict.TryAgain? ==> AtPc(NextAttempt(attempt))
      ensures verdict.TakeOver? ==> AtPc(Removing(attempt))
      ensures others == [] && old(files.entry).Some? && EntryExists(old(files.View()))
              && existing == Content(old(files.View())) ==>
        if Takeable(old(files.View()), pid) then verdict.TakeOver?
        else verdict == Refuse(AnswerAlone(old(files.View()), pid))
    {
      QuietRun(files.View(), others);
      hide Run;
      if existing.Some? {
        var alive;
        alive, done := IsProcessAlive(others, attempt, existing.value);
        verdict := if alive then Refuse(AlreadyRunning(existing.value)) else TakeOver;
      } else {
        var age;
        age, done := FileAge(others, attempt, files.procs[pid].readAt);
        verdict := match age case Missing => TryAgain case Young => Refuse(NotYetReadable) case Old => TakeOver;
      }
    }

    // Judges the file that is in the way; None means it has been cleared for another attempt.
    method Examine(around: seq<seq<Step>>, k: nat, attempt: nat)
      returns (refusal: Option<Acquisition>, ghost done: seq<Step>)
      requires AtPc(Reading(attempt)) && forall i :: 0 <= i < |around| ==> AllForeign(around[i], pid)
      modifies files
      ensures files.View() == Run(old(files.View()), done)
      ensures refusal.Some? ==> AtPc(Idle) && !refusal.value.Acquired?
      ensures refusal.None? ==> AtPc(NextAttempt(attempt))
      ensures around == [] && old(files.entry).Some? && EntryExists(old(files.View())) ==>
        && (refusal.None? <==> Takeable(old(files.View()), pid)) && (refusal.None? ==> files.entry.None?)
        && (refusal.Some? ==> refusal.value == AnswerAlone(old(files.View()), pid))
    {
      ghost var start := files.View();
      QuietRun(start, Turn(around, k));
      hide Run;
      var existing;
      existing, done := ReadExisting(Turn(around, k), attempt);
      assert around == [] ==> Takeable(files.View(), pid) == Takeable(start, pid) && files.entry == start.entry;
      assert around == [] && EntryExists(start) ==> AnswerAlone(files.View(), pid) == AnswerAlone(start, pid);
      hide Takeable;
      var verdict, more := Judge(Turn(around, k + 1), attempt, existing);
      RunConcat(start, done, more);
      done := done + more;
      if verdict.Refuse? {
        return Some(verdict.answer), done;
      }
      if verdict.TakeOver? {
        more := RemoveFile(Turn(around, k + 2), Removing(attempt));
        RunConcat(start, done, more);
        done := done + more;
      }
      return None, done;
    }

    // One round: create the file, or judge the one in the way; None means try again.
    method Attempt(around: seq<seq<Step>>, k: nat, attempt: nat)
      returns (outcome: Option<Acquisition>, ghost done: seq<Step>)
      requires AtPc(Opening(attempt)) && forall i :: 0 <= i < |around| ==> AllForeign(around[i], pid)
      modifies files
      ensures files.View() == Run(old(files.View()), done)
      ensures pid in files.procs
      ensures if outcome == Some(Acquired) then files.procs[pid].Holding?
              else files.procs[pid] == if outcome.Some? then Idle else NextAttempt(attempt)
      ensures around == [] && EntryExists(old(files.View())) ==>
        && (outcome.None? || outcome.value.Acquired? <==> Takeable(old(files.View()), pid))
        && (outcome.None? ==> files.entry.None?) && (old(files.entry).None? ==> outcome.Some?)
        && (outcome.Some? ==> outcome.value == AnswerAlone(old(files.View()), pid))
    {
      ghost var start := files.View();
      QuietRun(start, Turn(around, k));
      hide Run;
      var created;
      created, done := OpenExclusive(Turn(around, k), attempt);
      if created {
        ghost var more := WritePid(Turn(around, k + 1), files.procs[pid].inode);
        RunConcat(start, done, more);
        return Some(Acquired), done + more;
      }
      ghost var reading := files.View();
      assert around == [] && EntryExists(start) ==>
        Takeable(reading, pid) == Takeable(start, pid) && AnswerAlone(reading, pid) == AnswerAlone(start, pid);
      var refusal, more := Examine(around, k + 1, attempt);
      RunConcat(start, done, more);
      return refusal, done + more;
    }

    // Creates the lock file, or refuses. The call is a run of the protocol's steps; undisturbed,
    // it succeeds exactly when the file it finds may be taken over.
    method Acquire(around: seq<seq<Step>>) returns (r: Acquisition, ghost steps: seq<Step>)
      requires !held && (pid in files.procs ==> files.procs[pid].Idle?) && pid !in files.dead
      requires EntryExists(files.View()) && forall i :: 0 <= i < |around| ==> AllForeign(around[i], pid)
      modifies this, files
      ensures files.View() == Run(old(files.View()), steps)
      ensures if r.Acquired? then pid in files.procs && files.procs[pid].Holding? else AtPc(Idle)
      ensures held <==> r.Acquired?
      ensures around == [] ==> r == AnswerAlone(old(files.View()), pid)
    {
      ghost var start := files.View();
      steps := [Step.Start(pid)];
      RunExtend(start, [], Step.Start(pid));
      hide Run;
      files.procs := files.procs[pid := Opening(0)];
      assert Takeable(files.View(), pid) == Takeable(start, pid);
      assert AnswerAlone(files.View(), pid) == AnswerAlone(start, pid);
      FreeIsTakeable(start, pid);
      hide Takeable, AnswerAlone;
      var attempt := 0;
      while attempt < ATTEMPTS
        invariant 0 <= attempt <= ATTEMPTS && !held
        invariant files.View() == Run(start, steps)
        invariant AtPc(if attempt < ATTEMPTS then Opening(attempt) else Idle)
        invariant around == [] && attempt == 0 ==>
          EntryExists(files.View()) && AnswerAlone(files.View(), pid) == AnswerAlone(start, pid)
          && Takeable(files.View(), pid) == Takeable(start, pid)
        invariant around == [] && 0 < attempt ==> Takeable(start, pid) && files.entry.None? && attempt < ATTEMPTS
      {
        FreeIsTakeable(files.View(), pid);
        var outcome, done := Attempt(around, 5 * attempt, attempt);
        RunConcat(start, steps, done);
        steps := steps + done;
        if outcome.Some? {
          held := outcome.value.Acquired?;
          return outcome.value, steps;
        }
        attempt := attempt + 1;
      }
      return Exhausted, steps;
    }

    // Gives the lock up, deleting the file if it still carries this process's pid.
    method Release(others: seq<Step>, later: seq<Step>) returns (ghost steps: seq<Step>)
      requires held ==> pid in files.procs && files.procs[pid].Holding?
      requires AllForeign(others, pid) && AllForeign(later, pid)
      modifies this, files
      ensures files.View() == Run(old(files.View()), steps) && !held
      ensures old(held) ==> AtPc(Idle)
      ensures !old(held) ==> files.View() == old(files.View())
      ensures old(held) && others == [] && later == [] ==>
        files.entry == if Content(old(files.View())) == Some(pid) then None else old(files.entry)
    {
      steps := [];
      if !held {
        return;
      }
      ghost var start := files.View();
      var inode := files.procs[pid].inode;
      RunExtend(start, [], Step.Release(pid));
      files.procs := files.procs[pid := Checking(inode)];
      steps := [Step.Release(pid)] + others;
      RunConcat(start, [Step.Release(pid)], others);
      Wait(others, Checking(inode));
      var own := Content(files.View()) == Some(pid);
      RunExtend(start, steps, Advance(pid, 0));
      files.procs := files.procs[pid := if own then Releasing(inode) else Idle];
      steps := steps + [Advance(pid, 0)];
      if own {
        ghost var done := RemoveFile(later, Releasing(inode));
        RunConcat(start, steps, done);
        steps := steps + done;
      }
      held := false;
    }
  }

  function Turn(around: seq<seq<Step>>, k: nat): seq<Step> {
    if k < |around| then around[k] else []
  }

  lemma FreeIsTakeable(s: Directory, pid: nat)
    ensures s.entry.None? ==> Takeable(s, pid)
    ensures EntryExists(s) && Takeable(s, pid) ==> AnswerAlone(s, pid) == Acquired
  {
  }

  lemma QuietRun(s: Directory, steps: seq<Step>)
    ensures steps == [] ==> Run(s, steps) == s
  {
  }

  lemma {:induction false} InodesStay(s: Directory, steps: seq<Step>)
    ensures |s.inodes| <= |Run(s, steps).inodes|
  {
    if steps != [] {
      InodesStay(s, steps[..|steps| - 1]);
    }
  }
}
