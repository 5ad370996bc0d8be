/**
 * The daemon's lock file, shared by any number of processes that interleave single file
 * operations. Every process has its own pid, never reused.
 */
module Lock {
  import opened Prelude

  // A file keeps existing for whoever has it open after its name is gone. `content` is the pid
  // in it once it is readable.
  datatype Inode = Inode(owner: nat, content: Option<nat>, mtime: int)

  // What a process does next.
  datatype Pc =
    | Idle
    | Opening(attempt: nat)
    | Created(inode: nat)
    | Reading(attempt: nat)
    | Probing(attempt: nat, pid: nat)
    | Stating(attempt: nat, readAt: int)
    | Removing(attempt: nat)
    | Holding(inode: nat)
    | Checking(inode: nat)
    | Releasing(inode: nat)

  datatype Directory = Directory(
    clock: int, entry: Option<nat>, inodes: seq<Inode>, procs: map<nat, Pc>, dead: set<nat>)

  // `now` is the clock reading taken just before the file's age is looked up.
  datatype Step =
    | Start(pid: nat)
    | Advance(pid: nat, now: int)
    | Release(pid: nat)
    | Die(pid: nat)
    | Tick(ms: nat)

  const ATTEMPTS: nat := 2
  const UNREADABLE_MS: nat := 30000

  predicate Alive(s: Directory, pid: nat) { pid in s.procs }

  function At(s: Directory, pid: nat, pc: Pc): Directory { s.(procs := s.procs[pid := pc]) }

  function NextAttempt(attempt: nat): Pc {
    if attempt + 1 < ATTEMPTS then Opening(attempt + 1) else Idle
  }

  function Content(s: Directory): Option<nat> {
    if s.entry.Some? && s.entry.value < |s.inodes| then s.inodes[s.entry.value].content else None
  }

  function Opened(s: Directory, pid: nat, attempt: nat): Directory {
    if s.entry.Some? then At(s, pid, Reading(attempt))
    else At(s.(entry := Some(|s.inodes|), inodes := s.inodes + [Inode(pid, None, s.clock)]), pid, Created(|s.inodes|))
  }

  function Written(s: Directory, pid: nat, inode: nat): Directory {
    if inode < |s.inodes|
    then At(s.(inodes := s.inodes[inode := Inode(pid, Some(pid), s.clock)]), pid, Holding(inode))
    else s
  }

  function Examined(s: Directory, pid: nat, attempt: nat): Directory {
    At(s, pid, if Content(s).Some? then Probing(attempt, Content(s).value) else Stating(attempt, s.clock))
  }

  function Aged(s: Directory, pid: nat, attempt: nat, now: int): Directory {
    if s.entry.None? then At(s, pid, NextAttempt(attempt))
    else if s.entry.value < |s.inodes| && now - s.inodes[s.entry.value].mtime < UNREADABLE_MS then At(s, pid, Idle)
    else At(s, pid, Removing(attempt))
  }

  function Advanced(s: Directory, pid: nat, now: int): Directory {
    if pid !in s.procs then s
    else match s.procs[pid]
      case Idle => s
      case Holding(_) => s
      case Opening(attempt) => Opened(s, pid, attempt)
      case Created(inode) => Written(s, pid, inode)
      case Reading(attempt) => Examined(s, pid, attempt)
      case Probing(attempt, owner) => At(s, pid, if Alive(s, owner) then Idle else Removing(attempt))
      case Stating(attempt, readAt) => if readAt <= now <= s.clock then Aged(s, pid, attempt, now) else s
      case Removing(attempt) => At(s.(entry := None), pid, NextAttempt(attempt))
      case Checking(inode) => At(s, pid, if Content(s) == Some(pid) then Releasing(inode) else Idle)
      case Releasing(_) => At(s.(entry := None), pid, Idle)
  }

  function Apply(s: Directory, step: Step): Directory {
    match step
    case Start(pid) =>
      if pid in s.dead || (pid in s.procs && !s.procs[pid].Idle?) then s else At(s, pid, Opening(0))
    case Advance(pid, now) => Advanced(s, pid, now)
    case Release(pid) =>
      if pid in s.procs && s.procs[pid].Holding? then At(s, pid, Checking(s.procs[pid].inode)) else s
    case Die(pid) => if pid in s.procs then s.(procs := s.procs - {pid}, dead := s.dead + {pid}) else s
    case Tick(ms) => s.(clock := s.clock + ms)
  }

  function Run(s: Directory, steps: seq<Step>): Directory {
    if steps == [] then s else Apply(Run(s, steps[..|steps| - 1]), steps[|steps| - 1])
  }

  lemma RunExtend(s: Directory, steps: seq<Step>, step: Step)
    ensures Run(s, steps + [step]) == Apply(Run(s, steps), step)
  {
    assert (steps + [step])[..|steps|] == steps;
  }

  // ----- When the protocol is safe -----

  predicate Contending(pc: Pc) {
    pc.Opening? || pc.Created? || pc.Reading? || pc.Probing? || pc.Stating? || pc.Removing?
  }

  predicate Owns(pc: Pc) { pc.Created? || pc.Holding? || pc.Checking? || pc.Releasing? }

  // The file at the path was left behind by a process that is gone.
  predicate Stale(s: Directory) {
    s.entry.Some? && s.entry.value < |s.inodes| && !Alive(s, s.inodes[s.entry.value].owner)
  }

  // A contender that can still come to remove a file left at the path: it has yet to read it, or
  // is about to find its owner dead, or read a file unreadable after this one was last modified.
  predicate MayRemove(s: Directory, pc: Pc) {
    match pc
    case Opening(_) => true
    case Reading(_) => true
    case Probing(_, owner) => !Alive(s, owner)
    case Stating(_, readAt) =>
      s.entry.Some? && s.entry.value < |s.inodes| && s.inodes[s.entry.value].mtime < readAt
    case Removing(_) => true
    case _ => false
  }

  predicate OneRemover(s: Directory) {
    forall p, q :: p in s.procs && q in s.procs && p != q ==> !(MayRemove(s, s.procs[p]) && MayRemove(s, s.procs[q]))
  }

  // Nobody is taking too long: a file is written, and an unreadable file looked up, within 30 s.
  predicate Prompt(s: Directory) {
    forall p :: p in s.procs ==>
      && (s.procs[p].Created? && s.procs[p].inode < |s.inodes| ==>
            s.clock - s.inodes[s.procs[p].inode].mtime < UNREADABLE_MS)
      && (s.procs[p].Stating? ==> s.clock - s.procs[p].readAt < UNREADABLE_MS)
  }

  // What must not happen: a start or a death after which two processes can still remove a dead
  // owner's file, the end of a process just when another is about to ask whether it lives, and
  // slow processes.
  predicate Careful(s: Directory, step: Step) {
    var after := Apply(s, step);
    match step
    case Start(_) => Stale(after) ==> OneRemover(after)
    case Die(pid) =>
      if Stale(after) then OneRemover(after)
      else forall q :: q in after.procs && after.procs[q].Probing? ==> after.procs[q].pid != pid
    case Tick(_) => Prompt(after)
    case _ => true
  }

  predicate CarefulRun(s: Directory, steps: seq<Step>) {
    steps == [] || (CarefulRun(s, steps[..|steps| - 1]) && Careful(Run(s, steps[..|steps| - 1]), steps[|steps| - 1]))
  }

  // No process yet; a file may have been left at the path.
  ghost predicate Fresh(s: Directory) {
    && s.procs == map[]
    && (s.entry.Some? ==>
          && s.entry.value < |s.inodes| && s.inodes[s.entry.value].owner in s.dead
          && (Content(s).Some? ==> Content(s).value == s.inodes[s.entry.value].owner))
  }

  predicate OwnsEntry(s: Directory, pid: nat, inode: nat) {
    && s.entry == Some(inode) && inode < |s.inodes|
    && s.inodes[inode].owner == pid
  }

  // What each process may rely on at its program point.
  ghost predicate PcOk(s: Directory, p: nat)
    requires p in s.procs
  {
    var pc := s.procs[p];
    && (Owns(pc) ==> OwnsEntry(s, p, pc.inode))
    && (Owns(pc) ==> s.inodes[pc.inode].content == if pc.Created? then None else Some(p))
    && (pc.Removing? ==> Stale(s))
    && (pc.Probing? ==> Alive(s, pc.pid) || Stale(s))
    && (pc.Stating? ==> pc.readAt <= s.clock && (s.entry.None? || Stale(s) || Recent(s, pc.readAt)))
  }

  // The file at the path is still being written, or was modified at or after this time.
  ghost predicate Recent(s: Directory, since: int) {
    && s.entry.Some? && s.entry.value < |s.inodes|
    && var inode := s.inodes[s.entry.value];
       since <= inode.mtime
       || (inode.owner in s.procs && s.procs[inode.owner] == Created(s.entry.value))
  }

  ghost predicate Safe(s: Directory) {
    && (forall p :: p in s.procs ==> PcOk(s, p) && p !in s.dead)
    && (Stale(s) ==> OneRemover(s))
    && (s.entry.Some? ==> s.entry.value < |s.inodes| && EntryOk(s, s.inodes[s.entry.value], s.entry.value))
    && Prompt(s)
  }

  ghost predicate EntryOk(s: Directory, inode: Inode, at: nat) {
    && (inode.content.Some? ==> inode.content.value == inode.owner)
    && (inode.owner in s.procs ==> Owns(s.procs[inode.owner]) && s.procs[inode.owner].inode == at)
    && (inode.owner !in s.procs ==> inode.owner in s.dead)
  }

  lemma OpenSafe(s: Directory, p: nat, now: int)
    requires Safe(s) && p in s.procs && (s.procs[p].Opening? || s.procs[p].Created?)
    ensures Safe(Advanced(s, p, now))
  {
  }

  lemma ReadSafe(s: Directory, p: nat, now: int)
    requires Safe(s) && p in s.procs && s.procs[p].Reading?
    ensures Safe(Advanced(s, p, now))
  {
  }

  lemma ProbeSafe(s: Directory, p: nat, now: int)
    requires Safe(s) && p in s.procs && s.procs[p].Probing?
    ensures Safe(Advanced(s, p, now))
  {
  }

  // A contender goes on without touching any file.
  lemma MoveSafe(s: Directory, p: nat, pc: Pc)
    requires Safe(s) && p in s.procs && Contending(s.procs[p]) && !Owns(s.procs[p])
    requires pc.Idle? || (pc.Opening? && s.entry.None?) || (pc.Removing? && Stale(s) && MayRemove(s, s.procs[p]))
    ensures Safe(At(s, p, pc))
  {
  }

  // A file that is not stale is never old enough.
  lemma OldMeansStale(s: Directory, p: nat, now: int)
    requires Safe(s) && p in s.procs && s.procs[p].Stating? && s.procs[p].readAt <= now <= s.clock
    requires s.entry.Some? && UNREADABLE_MS <= now - s.inodes[s.entry.value].mtime
    ensures Stale(s) && MayRemove(s, s.procs[p])
  {
    assert PcOk(s, p);
    assert s.clock - s.procs[p].readAt < UNREADABLE_MS;
  }

  lemma StatSafe(s: Directory, p: nat, now: int)
    requires Safe(s) && p in s.procs && s.procs[p].Stating?
    ensures Safe(Advanced(s, p, now))
  {
    var attempt := s.procs[p].attempt;
    if s.procs[p].readAt <= now <= s.clock {
      if s.entry.Some? && UNREADABLE_MS <= now - s.inodes[s.entry.value].mtime {
        OldMeansStale(s, p, now);
        MoveSafe(s, p, Removing(attempt));
      } else {
        MoveSafe(s, p, Idle);
        if s.entry.None? { MoveSafe(s, p, NextAttempt(attempt)); }
      }
    }
    hide Safe;
  }

  lemma RemoveSafe(s: Directory, p: nat, now: int)
    requires Safe(s) && p in s.procs && (s.procs[p].Removing? || s.procs[p].Checking? || s.procs[p].Releasing?)
    ensures Safe(Advanced(s, p, now))
  {
  }

  lemma StepSafe(s: Directory, step: Step)
    requires Safe(s) && Careful(s, step)
    ensures Safe(Apply(s, step))
  {
    if step.Advance? && step.pid in s.procs {
      var pc := s.procs[step.pid];
      if pc.Opening? || pc.Created? {
        OpenSafe(s, step.pid, step.now);
      } else if pc.Reading? {
        ReadSafe(s, step.pid, step.now);
      } else if pc.Probing? {
        ProbeSafe(s, step.pid, step.now);
      } else if pc.Stating? {
        StatSafe(s, step.pid, step.now);
      } else if pc.Removing? || pc.Checking? || pc.Releasing? {
        RemoveSafe(s, step.pid, step.now);
      }
    }
  }

  lemma FreshIsSafe(s: Directory)
    requires Fresh(s)
    ensures Safe(s)
  {
  }

  lemma {:induction false} RunSafe(s: Directory, steps: seq<Step>)
    requires Safe(s) && CarefulRun(s, steps)
    ensures Safe(Run(s, steps))
  {
    if steps != [] {
      var n := |steps| - 1;
      RunSafe(s, steps[..n]);
      StepSafe(Run(s, steps[..n]), steps[n]);
    }
  }

  // Whatever the interleaving, at most one process holds the lock, and its own file is at the path.
  lemma AtMostOneHolder(s: Directory, steps: seq<Step>, p: nat, q: nat)
    requires Fresh(s) && CarefulRun(s, steps)
    requires var now := Run(s, steps);
      p in now.procs && now.procs[p].Holding? && q in now.procs && now.procs[q].Holding?
    ensures p == q
    ensures var now := Run(s, steps);
      OwnsEntry(now, p, now.procs[p].inode) && Content(now) == Some(p)
  {
    FreshIsSafe(s);
    RunSafe(s, steps);
  }

  // A lock file leaves the path only when its own process releases it, or when its process is dead.
  lemma OnlyOwnerOrDeathRemoves(s: Directory, steps: seq<Step>, step: Step)
    requires Fresh(s) && CarefulRun(s, steps + [step])
    requires var now := Run(s, steps); now.entry.Some? && Apply(now, step).entry != now.entry
    ensures var now := Run(s, steps);
      && now.entry.value < |now.inodes| && step.Advance? && step.pid in now.procs
      && var owner := now.inodes[now.entry.value].owner;
         || (step.pid == owner && now.procs[owner] == Releasing(now.entry.value))
         || (owner in now.dead && now.procs[step.pid].Removing?)
  {
    assert (steps + [step])[..|steps|] == steps;
    FreshIsSafe(s);
    RunSafe(s, steps);
  }

  // ----- Without any one of these conditions two processes can hold the lock -----

  predicate BothHold(s: Directory, p: nat, q: nat) {
    p in s.procs && s.procs[p].Holding? && q in s.procs && s.procs[q].Holding?
  }

  const EMPTY := Directory(0, None, [], map[], {})

  const LEFT_BEHIND := Directory(0, Some(0), [Inode(9, Some(9), 0)], map[], {9})

  lemma EmptyRun(s: Directory, steps: seq<Step>)
    ensures Run(s, steps[..0]) == s
  {
  }

  lemma Next(start: Directory, steps: seq<Step>, k: nat, mid: Directory) returns (after: Directory)
    requires k < |steps| && Run(start, steps[..k]) == mid
    ensures after == Apply(mid, steps[k]) && Run(start, steps[..k + 1]) == after
  {
    assert steps[..k + 1] == steps[..k] + [steps[k]];
    RunExtend(start, steps[..k], steps[k]);
    after := Apply(mid, steps[k]);
  }

  // Two processes start after the owner died: both find it dead, and the second removes the
  // file the first has just written.
  const RACE_FOR_DEAD_FILE := [
    Start(1), Advance(1, 0), Advance(1, 0), Advance(1, 0),
    Start(2), Advance(2, 0), Advance(2, 0), Advance(2, 0),
    Advance(1, 0), Advance(1, 0), Advance(1, 0),
    Advance(2, 0), Advance(2, 0), Advance(2, 0)]

  lemma RaceForDeadFile()
    ensures Fresh(LEFT_BEHIND) && BothHold(Run(LEFT_BEHIND, RACE_FOR_DEAD_FILE), 1, 2)
  {
    hide Run;
    var steps := RACE_FOR_DEAD_FILE;
    var s := LEFT_BEHIND;
    EmptyRun(s, steps);
    s := Next(LEFT_BEHIND, steps, 0, s);
    s := Next(LEFT_BEHIND, steps, 1, s);
    s := Next(LEFT_BEHIND, steps, 2, s);
    s := Next(LEFT_BEHIND, steps, 3, s);
    assert s.procs == map[1 := Removing(0)];
    s := Next(LEFT_BEHIND, steps, 4, s);
    s := Next(LEFT_BEHIND, steps, 5, s);
    s := Next(LEFT_BEHIND, steps, 6, s);
    s := Next(LEFT_BEHIND, steps, 7, s);
    assert s.procs == map[1 := Removing(0), 2 := Removing(0)];
    s := Next(LEFT_BEHIND, steps, 8, s);
    s := Next(LEFT_BEHIND, steps, 9, s);
    s := Next(LEFT_BEHIND, steps, 10, s);
    assert s.procs == map[1 := Holding(1), 2 := Removing(0)];
    s := Next(LEFT_BEHIND, steps, 11, s);
    s := Next(LEFT_BEHIND, steps, 12, s);
    s := Next(LEFT_BEHIND, steps, 13, s);
    assert s.procs == map[1 := Holding(1), 2 := Holding(2)];
    assert steps[..14] == steps;
  }

  // A reader finds the file not yet written and looks at its age 30 s later, when its owner has
  // long been holding the lock.
  const SLOW_READER := [
    Start(1), Advance(1, 0), Start(2), Advance(2, 0), Advance(2, 0),
    Advance(1, 0), Tick(30000), Advance(2, 30000), Advance(2, 30000), Advance(2, 30000), Advance(2, 30000)]

  lemma SlowReaderLooks()
    ensures Run(EMPTY, SLOW_READER[..5])
      == Directory(0, Some(0), [Inode(1, None, 0)], map[1 := Created(0), 2 := Stating(0, 0)], {})
  {
    hide Run;
    var steps := SLOW_READER;
    EmptyRun(EMPTY, steps);
    var s := Next(EMPTY, steps, 0, EMPTY);
    s := Next(EMPTY, steps, 1, s);
    s := Next(EMPTY, steps, 2, s);
    s := Next(EMPTY, steps, 3, s);
    s := Next(EMPTY, steps, 4, s);
  }

  lemma SlowReader()
    ensures BothHold(Run(EMPTY, SLOW_READER), 1, 2)
  {
    hide Run;
    var steps := SLOW_READER;
    SlowReaderLooks();
    var s := Next(EMPTY, steps, 5, Run(EMPTY, steps[..5]));
    s := Next(EMPTY, steps, 6, s);
    s := Next(EMPTY, steps, 7, s);
    s := Next(EMPTY, steps, 8, s);
    s := Next(EMPTY, steps, 9, s);
    s := Next(EMPTY, steps, 10, s);
    assert steps[..11] == steps;
  }

  // The owner takes 30 s between creating its file and writing it.
  const SLOW_WRITER := [
    Start(1), Advance(1, 0), Tick(30000), Start(2), Advance(2, 30000), Advance(2, 30000),
    Advance(2, 30000), Advance(2, 30000), Advance(2, 30000), Advance(2, 30000), Advance(1, 30000)]

  lemma SlowWriterFound()
    ensures Run(EMPTY, SLOW_WRITER[..7])
      == Directory(30000, Some(0), [Inode(1, None, 0)], map[1 := Created(0), 2 := Removing(0)], {})
  {
    hide Run;
    var steps := SLOW_WRITER;
    EmptyRun(EMPTY, steps);
    var s := Next(EMPTY, steps, 0, EMPTY);
    s := Next(EMPTY, steps, 1, s);
    s := Next(EMPTY, steps, 2, s);
    s := Next(EMPTY, steps, 3, s);
    s := Next(EMPTY, steps, 4, s);
    s := Next(EMPTY, steps, 5, s);
    s := Next(EMPTY, steps, 6, s);
  }

  lemma SlowWriter()
    ensures BothHold(Run(EMPTY, SLOW_WRITER), 1, 2)
  {
    hide Run;
    var steps := SLOW_WRITER;
    SlowWriterFound();
    var s := Next(EMPTY, steps, 7, Run(EMPTY, steps[..7]));
    s := Next(EMPTY, steps, 8, s);
    s := Next(EMPTY, steps, 9, s);
    s := Next(EMPTY, steps, 10, s);
    assert steps[..11] == steps;
  }

  // The owner releases and ends between another process reading its pid and asking whether it
  // lives; that process then removes the next owner's file.
  const EXIT_UNDER_PROBE := [
    Start(1), Advance(1, 0), Advance(1, 0), Start(2), Advance(2, 0), Advance(2, 0),
    Release(1), Advance(1, 0), Advance(1, 0), Die(1),
    Start(3), Advance(3, 0), Advance(3, 0),
    Advance(2, 0), Advance(2, 0), Advance(2, 0), Advance(2, 0)]

  lemma OwnerIsSeen()
    ensures Run(EMPTY, EXIT_UNDER_PROBE[..6])
      == Directory(0, Some(0), [Inode(1, Some(1), 0)], map[1 := Holding(0), 2 := Probing(0, 1)], {})
  {
    hide Run;
    var steps := EXIT_UNDER_PROBE;
    EmptyRun(EMPTY, steps);
    var s := Next(EMPTY, steps, 0, EMPTY);
    s := Next(EMPTY, steps, 1, s);
    s := Next(EMPTY, steps, 2, s);
    s := Next(EMPTY, steps, 3, s);
    s := Next(EMPTY, steps, 4, s);
    s := Next(EMPTY, steps, 5, s);
  }

  lemma OwnerExits()
    ensures Run(EMPTY, EXIT_UNDER_PROBE[..10])
      == Directory(0, None, [Inode(1, Some(1), 0)], map[2 := Probing(0, 1)], {1})
  {
    hide Run;
    var steps := EXIT_UNDER_PROBE;
    OwnerIsSeen();
    var s := Next(EMPTY, steps, 6, Run(EMPTY, steps[..6]));
    s := Next(EMPTY, steps, 7, s);
    s := Next(EMPTY, steps, 8, s);
    s := Next(EMPTY, steps, 9, s);
  }

  lemma ExitUnderProbe()
    ensures BothHold(Run(EMPTY, EXIT_UNDER_PROBE), 2, 3)
  {
    hide Run;
    var steps := EXIT_UNDER_PROBE;
    OwnerExits();
    var s := Next(EMPTY, steps, 10, Run(EMPTY, steps[..10]));
    s := Next(EMPTY, steps, 11, s);
    s := Next(EMPTY, steps, 12, s);
    s := Next(EMPTY, steps, 13, s);
    s := Next(EMPTY, steps, 14, s);
    s := Next(EMPTY, steps, 15, s);
    s := Next(EMPTY, steps, 16, s);
    assert steps[..17] == steps;
  }

  // The owner dies while two processes contend: both find it dead, and the second removes the
  // file the first has just written.
  const DEATH_AMONG_CONTENDERS := [
    Start(1), Advance(1, 0), Advance(1, 0), Start(2), Advance(2, 0), Start(3), Advance(3, 0), Die(1),
    Advance(2, 0), Advance(2, 0), Advance(3, 0), Advance(3, 0),
    Advance(2, 0), Advance(2, 0), Advance(2, 0), Advance(3, 0), Advance(3, 0), Advance(3, 0)]

  lemma OwnerHolds()
    ensures Run(EMPTY, DEATH_AMONG_CONTENDERS[..3])
      == Directory(0, Some(0), [Inode(1, Some(1), 0)], map[1 := Holding(0)], {})
  {
    hide Run;
    var steps := DEATH_AMONG_CONTENDERS;
    EmptyRun(EMPTY, steps);
    var s := Next(EMPTY, steps, 0, EMPTY);
    s := Next(EMPTY, steps, 1, s);
    s := Next(EMPTY, steps, 2, s);
  }

  lemma OwnerDies()
    ensures Run(EMPTY, DEATH_AMONG_CONTENDERS[..8])
      == Directory(0, Some(0), [Inode(1, Some(1), 0)], map[2 := Reading(0), 3 := Reading(0)], {1})
  {
    hide Run;
    var steps := DEATH_AMONG_CONTENDERS;
    OwnerHolds();
    var s := Next(EMPTY, steps, 3, Run(EMPTY, steps[..3]));
    s := Next(EMPTY, steps, 4, s);
    s := Next(EMPTY, steps, 5, s);
    s := Next(EMPTY, steps, 6, s);
    s := Next(EMPTY, steps, 7, s);
  }

  lemma BothFindItDead()
    ensures Run(EMPTY, DEATH_AMONG_CONTENDERS[..12])
      == Directory(0, Some(0), [Inode(1, Some(1), 0)], map[2 := Removing(0), 3 := Removing(0)], {1})
  {
    hide Run;
    var steps := DEATH_AMONG_CONTENDERS;
    OwnerDies();
    var s := Next(EMPTY, steps, 8, Run(EMPTY, steps[..8]));
    s := Next(EMPTY, steps, 9, s);
    s := Next(EMPTY, steps, 10, s);
    s := Next(EMPTY, steps, 11, s);
  }

  lemma DeathAmongContenders()
    ensures BothHold(Run(EMPTY, DEATH_AMONG_CONTENDERS), 2, 3)
  {
    hide Run;
    var steps := DEATH_AMONG_CONTENDERS;
    BothFindItDead();
    var s := Next(EMPTY, steps, 12, Run(EMPTY, steps[..12]));
    s := Next(EMPTY, steps, 13, s);
    s := Next(EMPTY, steps, 14, s);
    s := Next(EMPTY, steps, 15, s);
    s := Next(EMPTY, steps, 16, s);
    s := Next(EMPTY, steps, 17, s);
    assert steps[..18] == steps;
  }
}
