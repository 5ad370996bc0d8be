/**
 * When exactly a start or a death endangers the lock: from any safe state, some run without a
 * further such step then ends with two holders.
 */
module LockLimits {
  import opened Prelude
  import opened Lock

  // Some careful run leads from s to t.
  ghost predicate Leads(s: Directory, t: Directory) {
    exists steps :: CarefulRun(s, steps) && Run(s, steps) == t
  }

  lemma LeadsNowhere(s: Directory)
    ensures Leads(s, s)
  {
    assert CarefulRun(s, []) && Run(s, []) == s;
  }

  lemma LeadsOn(s: Directory, t: Directory, step: Step) returns (after: Directory)
    requires Leads(s, t) && Careful(t, step)
    ensures after == Apply(t, step) && Leads(s, after)
  {
    var steps :| CarefulRun(s, steps) && Run(s, steps) == t;
    RunExtend(s, steps, step);
    assert (steps + [step])[..|steps|] == steps;
    assert CarefulRun(s, steps + [step]) && Run(s, steps + [step]) == Apply(t, step);
    after := Apply(t, step);
  }

  ghost predicate CanEndInTwo(s: Directory) {
    exists t, p, q :: Leads(s, t) && p != q && BothHold(t, p, q)
  }

  // ----- A process at the point of removing whatever is at the path -----

  lemma {:induction false} Bounded(pids: set<nat>) returns (bound: nat)
    ensures forall p :: p in pids ==> p < bound
  {
    if pids == {} {
      bound := 0;
    } else {
      var p :| p in pids;
      var rest := Bounded(pids - {p});
      bound := Max(rest, p + 1);
      assert forall x :: x in pids ==> x == p || x in pids - {p};
    }
  }

  function Held(s: Directory, r: nat): Directory {
    s.(entry := Some(|s.inodes|), inodes := s.inodes + [Inode(r, Some(r), s.clock)],
       procs := s.procs[r := Holding(|s.inodes|)])
  }

  // With no file at the path, a new process can take the lock.
  lemma NewHolder(start: Directory, s: Directory) returns (r: nat)
    requires Leads(start, s) && s.entry.None?
    ensures r !in s.procs && Leads(start, Held(s, r))
  {
    hide Leads, Run, OneRemover;
    r := Bounded(s.procs.Keys + s.dead);
    var opening := LeadsOn(start, s, Start(r));
    var created := LeadsOn(start, opening, Advance(r, 0));
    var held := LeadsOn(start, created, Advance(r, 0));
    assert held == Held(s, r);
  }

  lemma RemoverBreaksLock(start: Directory, s: Directory, q: nat)
    requires Leads(start, s) && s.entry.None? && q in s.procs && s.procs[q].Removing?
    ensures CanEndInTwo(start)
  {
    var r := NewHolder(start, s);
    HoldersFileRemoved(start, Held(s, r), q, r);
  }

  lemma HoldersFileRemoved(start: Directory, s: Directory, q: nat, holder: nat)
    requires Leads(start, s) && q in s.procs && s.procs[q].Removing?
    requires holder in s.procs && s.procs[holder].Holding?
    ensures CanEndInTwo(start)
  {
    var removed := LeadsOn(start, s, Advance(q, 0));
    var r := NewHolder(start, removed);
    assert BothHold(Held(removed, r), holder, r);
  }

  // ----- A death under a probe -----

  // The owner of the file at the path lives and knows it.
  ghost predicate Owned(s: Directory, o: nat) {
    && s.entry.Some? && s.entry.value < |s.inodes| && s.inodes[s.entry.value].owner == o
    && o in s.procs && Owns(s.procs[o]) && s.procs[o].inode == s.entry.value
    && (!s.procs[o].Created? ==> s.inodes[s.entry.value].content == Some(o))
  }

  lemma LiveFileIsRemoved(start: Directory, s: Directory, q: nat, o: nat)
    requires Leads(start, s) && q in s.procs && s.procs[q].Removing? && Owned(s, o)
    ensures CanEndInTwo(start)
  {
    hide Leads, CanEndInTwo;
    var pc := s.procs[o];
    if pc.Holding? {
      HoldersFileRemoved(start, s, q, o);
    } else {
      var next := LeadsOn(start, s, Advance(o, 0));
      if pc.Created? {
        HoldersFileRemoved(start, next, q, o);
      } else if pc.Releasing? {
        RemoverBreaksLock(start, next, q);
      } else {
        assert next.procs[o].Releasing?;
        var released := LeadsOn(start, next, Advance(o, 0));
        RemoverBreaksLock(start, released, q);
      }
    }
  }

  lemma DeathUnderProbe(s: Directory, q: nat)
    requires s.entry.None? || exists o :: Owned(s, o)
    requires q in s.procs && s.procs[q].Probing? && !Alive(s, s.procs[q].pid)
    ensures CanEndInTwo(s)
  {
    LeadsNowhere(s);
    hide Leads, CanEndInTwo;
    var removing := LeadsOn(s, s, Advance(q, 0));
    if s.entry.None? {
      RemoverBreaksLock(s, removing, q);
    } else {
      var o :| Owned(s, o);
      LiveFileIsRemoved(s, removing, q, o);
    }
  }

  // ----- Two that can remove a dead owner's file -----

  // A dead owner's file is at the path, last modified at m, and nobody has a file of its own.
  ghost predicate Abandoned(s: Directory, m: int) {
    && Stale(s) && s.inodes[s.entry.value].mtime == m
    && (s.inodes[s.entry.value].content.Some? ==>
          s.inodes[s.entry.value].content.value == s.inodes[s.entry.value].owner)
    && (forall x :: x in s.procs ==> !Owns(s.procs[x]))
    && (forall x :: x in s.procs && s.procs[x].Stating? ==> s.procs[x].readAt <= s.clock)
  }

  // Only process x has moved.
  predicate OnlyMoved(s: Directory, t: Directory, x: nat) {
    && x in s.procs && x in t.procs && t == s.(procs := s.procs[x := t.procs[x]])
  }

  function Waiting(s: Directory, p: nat, q: nat): set<nat> {
    set x | x in s.procs && x != p && x != q && s.procs[x].Stating?
  }

  // Everybody else who waits for the file to age looks at it now.
  lemma {:induction false} OthersLook(start: Directory, s: Directory, p: nat, q: nat, m: int) returns (t: Directory)
    requires Leads(start, s) && Abandoned(s, m) && p in s.procs && q in s.procs
    ensures Leads(start, t) && Abandoned(t, m) && Waiting(t, p, q) == {}
    ensures t == s.(procs := t.procs) && t.procs.Keys == s.procs.Keys
    ensures t.procs[p] == s.procs[p] && t.procs[q] == s.procs[q]
    decreases Waiting(s, p, q)
  {
    hide Leads;
    if Waiting(s, p, q) == {} {
      t := s;
    } else {
      var x :| x in Waiting(s, p, q);
      var next := LeadsOn(start, s, Advance(x, s.clock));
      assert OnlyMoved(s, next, x) && !next.procs[x].Stating?;
      assert Waiting(next, p, q) == Waiting(s, p, q) - {x};
      t := OthersLook(start, next, p, q, m);
    }
  }

  // The process is going to remove the file, or to find it old enough in time.
  predicate Poised(pc: Pc, m: int) { pc.Removing? || (pc.Stating? && m < pc.readAt) }

  lemma Approaches(start: Directory, s: Directory, p: nat, m: int) returns (t: Directory)
    requires Leads(start, s) && Abandoned(s, m) && m < s.clock && p in s.procs && MayRemove(s, s.procs[p])
    ensures Leads(start, t) && Abandoned(t, m) && OnlyMoved(s, t, p) && Poised(t.procs[p], m)
  {
    hide Leads;
    t := s;
    if t.procs[p].Opening? {
      t := LeadsOn(start, t, Advance(p, 0));
    }
    if t.procs[p].Reading? {
      t := LeadsOn(start, t, Advance(p, 0));
    }
    if t.procs[p].Probing? {
      t := LeadsOn(start, t, Advance(p, 0));
    }
  }

  lemma Arrives(start: Directory, s: Directory, p: nat, m: int) returns (t: Directory)
    requires Leads(start, s) && Abandoned(s, m) && m + UNREADABLE_MS <= s.clock
    requires p in s.procs && Poised(s.procs[p], m)
    ensures Leads(start, t) && Abandoned(t, m) && OnlyMoved(s, t, p) && t.procs[p].Removing?
  {
    hide Leads;
    t := s;
    if t.procs[p].Stating? {
      t := LeadsOn(start, t, Advance(p, s.clock));
    }
  }

  // Time may pass until a given instant unless somebody would be too slow.
  lemma TimePasses(start: Directory, s: Directory, until: int, m: int) returns (t: Directory)
    requires Leads(start, s) && Abandoned(s, m)
    requires forall x :: x in s.procs && s.procs[x].Stating? ==> until < s.procs[x].readAt + UNREADABLE_MS
    ensures Leads(start, t) && Abandoned(t, m) && t == s.(clock := t.clock) && until <= t.clock
    ensures t.clock == until || t.clock == s.clock
  {
    hide Leads;
    t := s;
    if s.clock < until {
      t := LeadsOn(start, s, Tick(until - s.clock));
    }
  }

  lemma TwoRemovers(s: Directory, p: nat, q: nat, m: int)
    requires Abandoned(s, m) && p in s.procs && q in s.procs && p != q
    requires MayRemove(s, s.procs[p]) && MayRemove(s, s.procs[q])
    ensures CanEndInTwo(s)
  {
    LeadsNowhere(s);
    hide Leads, CanEndInTwo;
    var quiet := OthersLook(s, s, p, q, m);
    assert forall x :: x in quiet.procs && quiet.procs[x].Stating? ==> x == p || x == q by {
      assert forall x :: x in quiet.procs && quiet.procs[x].Stating? && x != p && x != q ==> x in Waiting(quiet, p, q);
    }
    var late := TimePasses(s, quiet, m + 1, m);
    var first := Approaches(s, late, p, m);
    var both := Approaches(s, first, q, m);
    var aged := TimePasses(s, both, m + UNREADABLE_MS, m);
    var arrived := Arrives(s, aged, p, m);
    var ready := Arrives(s, arrived, q, m);
    var removed := LeadsOn(s, ready, Advance(p, 0));
    RemoverBreaksLock(s, removed, q);
  }

  // ----- The exact condition -----

  lemma CarelessEndsInTwo(s: Directory, step: Step)
    requires Safe(s) && (step.Start? || step.Die?) && !Careful(s, step)
    ensures CanEndInTwo(Apply(s, step))
  {
    var after := Apply(s, step);
    if Stale(after) {
      StaleIsAbandoned(s, step);
      var p, q :| p in after.procs && q in after.procs && p != q
                  && MayRemove(after, after.procs[p]) && MayRemove(after, after.procs[q]);
      TwoRemovers(after, p, q, after.inodes[after.entry.value].mtime);
    } else {
      var q :| q in after.procs && after.procs[q].Probing? && after.procs[q].pid == step.pid;
      LiveIsOwned(s, step);
      DeathUnderProbe(after, q);
    }
  }

  lemma StaleIsAbandoned(s: Directory, step: Step)
    requires Safe(s) && (step.Start? || step.Die?) && Stale(Apply(s, step))
    ensures var after := Apply(s, step); Abandoned(after, after.inodes[after.entry.value].mtime)
  {
    var after := Apply(s, step);
    forall x | x in after.procs ensures !Owns(after.procs[x]) {
      assert x in s.procs ==> PcOk(s, x);
    }
    forall x | x in after.procs && after.procs[x].Stating? ensures after.procs[x].readAt <= after.clock {
      assert PcOk(s, x);
    }
  }

  lemma LiveIsOwned(s: Directory, step: Step)
    requires Safe(s) && step.Die? && !Stale(Apply(s, step))
    ensures var after := Apply(s, step); after.entry.None? || exists o :: Owned(after, o)
  {
    var after := Apply(s, step);
    if after.entry.Some? {
      var o := after.inodes[after.entry.value].owner;
      assert o in s.procs && PcOk(s, o);
      assert Owned(after, o);
    }
  }

  // From any safe state, a start or a death lets some careful continuation end with two holders
  // exactly when it is one of those ruled out.
  lemma TwoHoldersExactlyWhenCareless(s: Directory, step: Step)
    requires Safe(s) && (step.Start? || step.Die?)
    ensures CanEndInTwo(Apply(s, step)) <==> !Careful(s, step)
  {
    hide Leads, Careful, Safe;
    if Careful(s, step) {
      StepSafe(s, step);
      forall t, p, q | Leads(Apply(s, step), t) && p != q ensures !BothHold(t, p, q) {
        if BothHold(t, p, q) { StaysWithOne(Apply(s, step), t, p, q); }
      }
    } else {
      CarelessEndsInTwo(s, step);
    }
  }

  lemma StaysWithOne(s: Directory, t: Directory, p: nat, q: nat)
    requires Safe(s) && Leads(s, t) && BothHold(t, p, q)
    ensures p == q
  {
    hide Safe;
    var steps :| CarefulRun(s, steps) && Run(s, steps) == t;
    RunSafe(s, steps);
    OneHolder(t, p, q);
  }

  lemma OneHolder(s: Directory, p: nat, q: nat)
    requires Safe(s) && BothHold(s, p, q)
    ensures p == q
  {
    assert PcOk(s, p) && PcOk(s, q);
  }
}
