/** Where the guarantees end: agreement needs `covered`, shown by a run (a dup made after a fork, and a second
    fork) and then for every state a run can reach; and retention needs an addressable entry, shown
    by a run (a descriptor closed and reused while a child keeps the file). */
module EpollLimits {
  import opened EpollModel
  import opened EpollCalls
  import opened EpollWorld
  import opened EpollTheorems
  import opened EpollWaiting

  const FINE := Env(Fine, false, false)

  const ROOT := Proc(Os(map[], [], [Open(0)]), Shared(map[], map[], [Copy(0, 0)]), [Member(0, 0)], true, false)
  const CHILD := Proc(Os(map[], [], [Closed, Open(1), Open(1)]), Shared(map[], map[], [Copy(2, 0)]),
                      [Member(1, 1)], true, false)
  const FAMILY := Proc(Os(map[], [], [Closed, Open(1), Open(1), Open(1)]),
                       Shared(map[], map[], [Copy(2, 0), Copy(3, 1)]),
                       [Member(1, 1), Member(3, 1)], true, false)
  const GRANDCHILD := Proc(Os(map[0 := 0], [Io(0, false)], [Closed, Open(1), Open(1), Open(1)]),
                           FAMILY.sh, FAMILY.members, false, false)
  const REGISTERED := Proc(Os(map[0 := 0], [Io(0, false)],
                              [Closed, Open(1), Closed, Closed, Open(2), Open(2), Open(2)]),
                           Shared(map[0 := 1], map[0 := 0], [Copy(5, 0), Copy(6, 1)]),
                           [Member(1, 1), Member(4, 2)], false, false)
  const SPOILT := Proc(Os(map[0 := 0], [Io(0, false)],
                          [Closed, Open(1), Closed, Closed, Open(2), Closed, Closed, Open(3), Open(3), Open(3)]),
                       Shared(map[], map[], [Copy(8, 0), Copy(9, 1)]), [Member(7, 2), Member(4, 2)], false, false)

  const INSTS: seq<Inst> := [Inst(0, map[]), Inst(1, map[])]
  const WATCHING := Inst(2, map[Key(0, 0) := Entry(0, 1, true)])

  const W1 := World(EpollKind, [ROOT, ROOT], [Inst(0, map[])], 0)
  const W2 := World(EpollKind, [ROOT, CHILD], INSTS, 0)
  const W3 := World(EpollKind, [ROOT, FAMILY], INSTS, 0)
  const W4 := World(EpollKind, [ROOT, FAMILY, FAMILY.(covered := false)], INSTS, 0)
  const W5 := World(EpollKind, [ROOT, FAMILY, GRANDCHILD], INSTS, 1)
  const W6 := World(EpollKind, [ROOT, FAMILY, REGISTERED], INSTS + [WATCHING], 1)
  const W7 := World(EpollKind, [ROOT, FAMILY, SPOILT], INSTS + [WATCHING, Inst(2, map[])], 1)

  lemma Step1()
    requires WF(Start(EpollKind))
    ensures Next(Start(EpollKind), Fork(0)) == W1
  {
  }

  lemma Step2()
    requires WF(W1)
    ensures Next(W1, Request(1, 0, ReqWait, FINE)) == W2
  {
    var v := ViewOf(W1, 1, 0);
    assert v.sh.copies[0] in v.sh.copies;
    assert Surviving(v, EpollKind) == [Closed];
    assert Check(v, EpollKind, Fine).view == View(1, 0, CHILD.os, INSTS, CHILD.sh, Member(1, 1));
    assert ROOT.members[0 := Member(1, 1)] == CHILD.members;
    assert W1.procs[1 := CHILD] == W2.procs;
  }

  lemma Step3()
    requires WF(W2)
    ensures Next(W2, Dup(1, 0, Fine, false)) == W3
  {
    assert CopyCall(NewcomerView(W2, 1, 0), EpollKind, Fine, false).view ==
           View(1, 1, FAMILY.os, INSTS, FAMILY.sh, Member(3, 1));
    assert CHILD.members + [Member(3, 1)] == FAMILY.members;
    assert W2.procs[1 := FAMILY] == W3.procs;
  }

  lemma Step4()
    requires WF(W3)
    ensures Next(W3, Fork(1)) == W4
  {
    assert IsOpen(FAMILY, 0) && IsOpen(FAMILY, 1);
    assert FAMILY.members[0].io !in Keys(FAMILY.sh.copies);
  }

  lemma Step5()
    requires WF(W4)
    ensures Next(W4, OpenFile(2, 0)) == W5
  {
    assert FAMILY.os.objs + [Io(0, false)] == GRANDCHILD.os.objs && FAMILY.os.fds[0 := 0] == GRANDCHILD.os.fds;
    assert W4.procs[2 := GRANDCHILD] == W5.procs;
  }

  lemma Reinit6()
    ensures ViewOf(W5, 2, 1).WF()
    ensures Check(ViewOf(W5, 2, 1), EpollKind, Fine) ==
            Checked(View(2, 1, REGISTERED.os, INSTS + [Inst(2, map[])],
                         Shared(map[], map[], REGISTERED.sh.copies), Member(4, 2)), true)
  {
    var v := ViewOf(W5, 2, 1);
    assert v.sh.copies[0] in v.sh.copies && v.sh.copies[1] in v.sh.copies;
    assert Surviving(v, EpollKind) == [Closed, Open(1), Closed, Closed];
  }

  lemma Step6()
    requires WF(W5)
    ensures Next(W5, Request(2, 1, ReqAdd(0, 1), FINE)) == W6
  {
    Reinit6();
    var c := Check(ViewOf(W5, 2, 1), EpollKind, Fine).view;
    assert c.Interest() == map[] && c.insts[2 := WATCHING] == W6.insts;
    assert Perform(ViewOf(W5, 2, 1), EpollKind, ReqAdd(0, 1), FINE).view ==
           View(2, 1, REGISTERED.os, W6.insts, REGISTERED.sh, Member(4, 2));
    assert GRANDCHILD.members[1 := Member(4, 2)] == REGISTERED.members;
    assert W5.procs[2 := REGISTERED] == W6.procs;
  }

  lemma Step7()
    requires WF(W6)
    ensures Next(W6, Request(2, 0, ReqWait, FINE)) == W7
  {
    var v := ViewOf(W6, 2, 0);
    assert v.sh.copies[0] in v.sh.copies && v.sh.copies[1] in v.sh.copies;
    assert Surviving(v, EpollKind) == [Closed, Open(1), Closed, Closed, Open(2), Closed, Closed];
    assert Check(v, EpollKind, Fine).view == View(2, 0, SPOILT.os, W7.insts, SPOILT.sh, Member(7, 2));
    assert REGISTERED.members[0 := Member(7, 2)] == SPOILT.members;
    assert W6.procs[2 := SPOILT] == W7.procs;
  }

  ghost predicate Reachable(w: World) {
    exists steps :: After(EpollKind, steps) == w
  }

  lemma Reach(w: World, s: Step)
    requires Reachable(w)
    ensures WF(w) && Reachable(Next(w, s))
  {
    var steps :| After(EpollKind, steps) == w;
    RunKeeps(EpollKind, steps);
    AfterOneMore(EpollKind, steps, s);
  }

  lemma ReachW7()
    ensures Reachable(W7)
  {
    assert After(EpollKind, []) == Start(EpollKind);
    Reach(Start(EpollKind), Fork(0)); Step1();
    Reach(W1, Request(1, 0, ReqWait, FINE)); Step2();
    Reach(W2, Dup(1, 0, Fine, false)); Step3();
    Reach(W3, Fork(1)); Step4();
    Reach(W4, OpenFile(2, 0)); Step5();
    Reach(W5, Request(2, 1, ReqAdd(0, 1), FINE)); Step6();
    Reach(W6, Request(2, 0, ReqWait, FINE)); Step7();
  }

  /** Fork; the child re-initialises, dups, and forks again; in the grandchild the dup re-initialises
      and registers a file, and then the original re-initialises too.  Now member 1 is active, its
      interest list holds an entry for an open file of the process, and the slot is nil: nothing
      retains the object the kernel points at. */
  lemma NestedForkBreaksAgreement()
    ensures Reachable(W7)
    ensures
      && ActiveIn(W7, 2, 1)
      && var v := ViewOf(W7, 2, 1);
         v.WF() && 0 in v.os.fds && Key(v.os.fds[0], 0) in v.Interest() && 0 !in v.sh.marks && !Agreeing(v)
  {
    ReachW7();
    SpoiltView();
  }

  lemma SpoiltView()
    ensures
      && ActiveIn(W7, 2, 1)
      && var v := ViewOf(W7, 2, 1);
         v.WF() && 0 in v.os.fds && Key(v.os.fds[0], 0) in v.Interest() && 0 !in v.sh.marks && !Agreeing(v)
  {
    var v := ViewOf(W7, 2, 1);
    assert v.Interest() == WATCHING.interest;
    assert !EntryAgrees(v.os, WATCHING.interest[Key(0, 0)], 0, v.sh);
  }

  // ---------------------------------------- coverage is necessary, from every reachable state

  lemma {:induction false} FreeDescriptor(fds: set<Fd>) returns (fd: Fd)
    ensures fd !in fds && forall g :: g in fds ==> g < fd
    decreases fds
  {
    fd := 0;
    if fds != {} {
      var g :| g in fds;
      fd := FreeDescriptor(fds - {g});
      assert forall h :: h in fds ==> h == g || h in fds - {g};
      if fd <= g { fd := g + 1; }
    }
  }

  /** In process `c`, member `n` is active on an empty list of its own, with its handle outside @copies,
      while member `m` still has to re-initialise. */
  ghost predicate Poised(w: World, c: Pid, m: MemberId, n: MemberId) {
    && Inv(w) && w.kind.EpollKind? && c < |w.procs|
    && var q := w.procs[c];
       && m < |q.members| && n < |q.members| && m != n
       && IsOpen(q, m) && q.members[m].pid != c && Active(q, c, n)
       && q.members[n].io !in Keys(q.sh.copies)
  }

  /** A fork of a process that is not covered, and a first call of the child on `n`. */
  lemma PoiseChild(w: World, p: Pid, m: MemberId, n: MemberId)
    requires Inv(w) && w.kind.EpollKind? && p < |w.procs|
    requires var q := w.procs[p];
      && m < |q.members| && n < |q.members| && m != n && IsOpen(q, m) && IsOpen(q, n)
      && q.members[m].io !in Keys(q.sh.copies)
    ensures
      var c, w1 := |w.procs|, Next(w, Fork(p));
      && Enabled(w1, Request(c, n, ReqWait, FINE))
      && var w2 := Next(w1, Request(c, n, ReqWait, FINE));
         && Poised(w2, c, m, n)
         && w2.insts[InstOf(w2.procs[c], n)].interest == map[]
  {
    var c, w1 := |w.procs|, Next(w, Fork(p));
    StepKeeps(w, Fork(p));
    assert w1.procs[c] == w.procs[p].(covered := Covered(w.procs[p]));
    assert ProcInv(w.kind, w.insts, w.nextFile, p, w.procs[p]);
    var v := ViewOf(w1, c, n);
    assert v.me.pid <= p && v.WF() && Stale(v);
    StepKeeps(w1, Request(c, n, ReqWait, FINE));
    PoisedAfterCheck(w1, c, m, n);
  }

  lemma PoisedAfterCheck(w: World, c: Pid, m: MemberId, n: MemberId)
    requires Inv(w) && w.kind.EpollKind? && c < |w.procs|
    requires var q := w.procs[c];
      && m < |q.members| && n < |q.members| && m != n && IsOpen(q, m) && q.members[m].pid != c
      && q.members[m].io !in Keys(q.sh.copies)
    requires ViewOf(w, c, n).WF() && Stale(ViewOf(w, c, n))
    ensures
      var w' := Put(w, c, n, Check(ViewOf(w, c, n), EpollKind, Fine).view);
      var q' := w'.procs[c];
      && Next(w, Request(c, n, ReqWait, FINE)) == w'
      && m < |q'.members| && n < |q'.members|
      && q'.members[m].io < |q'.os.handles| && q'.members[n].io < |q'.os.handles|
      && IsOpen(q', m) && q'.members[m].pid != c && Active(q', c, n) && q'.members[n].io !in Keys(q'.sh.copies)
      && InstOf(q', n) == |w.insts| < |w'.insts| && w'.insts[|w.insts|] == Inst(c, map[])
  {
    var v := ViewOf(w, c, n);
    ReinitHandles(v, EpollKind, Fine);
    var k := Check(v, EpollKind, Fine).view;
    assert k.me == Member(|v.os.handles|, c);
    assert forall d :: d in k.sh.copies ==> d.io > |v.os.handles|;
    assert w.procs[c].members[n := k.me][m] == w.procs[c].members[m];
  }

  ghost predicate Watches(w: World, c: Pid, n: MemberId, fd: Fd)
    requires ActiveIn(w, c, n) && InstOf(w.procs[c], n) < |w.insts|
  {
    fd in w.procs[c].os.fds && Key(w.procs[c].os.fds[fd], fd) in w.insts[InstOf(w.procs[c], n)].interest
  }

  lemma PoisedOpens(w: World, c: Pid, m: MemberId, n: MemberId, fd: Fd)
    requires Poised(w, c, m, n) && fd !in w.procs[c].os.fds
    requires w.insts[InstOf(w.procs[c], n)].interest == map[]
    ensures
      var w3 := Next(w, OpenFile(c, fd));
      && Poised(w3, c, m, n) && w3.insts[InstOf(w3.procs[c], n)].interest == map[]
      && w3.procs[c].os.objs == w.procs[c].os.objs + [Io(fd, false)] && fd in w3.procs[c].os.fds
  {
    StepKeeps(w, OpenFile(c, fd));
  }

  lemma FirstAdd(v: View, obj: Obj)
    requires v.WF() && v.me.pid == v.pid && Usable(v, obj) && v.Interest() == map[]
    ensures
      var r := Register(v, obj, 1);
      && AddCall(v, obj, 1, FINE).view == r && r.os == v.os && r.me == v.me && r.sh.copies == v.sh.copies
      && r.WF() && v.KeyOf(obj) in r.Interest()
  {
    PlainOutcomes(v, obj, 1, FINE);
    RegisterEffect(v, obj, 1);
  }

  lemma PoisedRegisters(w: World, c: Pid, m: MemberId, n: MemberId, obj: Obj)
    requires Poised(w, c, m, n) && obj < |w.procs[c].os.objs|
    requires !w.procs[c].os.objs[obj].closed && w.procs[c].os.objs[obj].fd in w.procs[c].os.fds
    requires w.insts[InstOf(w.procs[c], n)].interest == map[]
    ensures
      var w4 := Next(w, Request(c, n, ReqAdd(obj, 1), FINE));
      Poised(w4, c, m, n) && Watches(w4, c, n, w.procs[c].os.objs[obj].fd)
  {
    StepKeeps(w, Request(c, n, ReqAdd(obj, 1), FINE));
    var v := ViewOf(w, c, n);
    FirstAdd(v, obj);
    var r := Register(v, obj, 1);
    var q := w.procs[c];
    assert q.members[n := v.me] == q.members;
    assert Put(w, c, n, r).procs[c] == q.(sh := r.sh);
  }

  /** The other member's first call empties the cache behind `n`. */
  lemma PoisedSpoils(w: World, c: Pid, m: MemberId, n: MemberId, fd: Fd)
    requires Poised(w, c, m, n) && Watches(w, c, n, fd)
    ensures Disagrees(Next(w, Request(c, m, ReqWait, FINE)), c, n)
  {
    ReinitSpoilsSibling(w, c, m, n);
    var w' := Put(w, c, m, Check(ViewOf(w, c, m), EpollKind, Fine).view);
    assert Next(w, Request(c, m, ReqWait, FINE)) == w';
    assert Key(w.procs[c].os.fds[fd], fd) in w.insts[InstOf(w.procs[c], n)].interest;
  }

  /** An active object of process `c` whose cache and interest list do not agree. */
  ghost predicate Disagrees(w: World, c: Pid, n: MemberId) {
    && ActiveIn(w, c, n) && InstOf(w.procs[c], n) < |w.insts|
    && !Agree(w.procs[c].os, w.insts[InstOf(w.procs[c], n)].interest, w.procs[c].sh)
  }

  /** The child that `p` forks calls through `n`, opens a file, registers it through `n`, and calls through `m`. */
  ghost function FourSteps(w: World, p: Pid, n: MemberId, m: MemberId, fd: Fd, obj: Obj): World {
    var c := |w.procs|;
    var w2 := Next(Next(w, Fork(p)), Request(c, n, ReqWait, FINE));
    var w4 := Next(Next(w2, OpenFile(c, fd)), Request(c, n, ReqAdd(obj, 1), FINE));
    Next(w4, Request(c, m, ReqWait, FINE))
  }

  lemma PoisedBreaks(w: World, c: Pid, m: MemberId, n: MemberId) returns (fd: Fd, obj: Obj)
    requires Poised(w, c, m, n) && w.insts[InstOf(w.procs[c], n)].interest == map[]
    ensures
      var w4 := Next(Next(w, OpenFile(c, fd)), Request(c, n, ReqAdd(obj, 1), FINE));
      Disagrees(Next(w4, Request(c, m, ReqWait, FINE)), c, n)
  {
    fd := FreeDescriptor(w.procs[c].os.fds.Keys);
    obj := |w.procs[c].os.objs|;
    PoisedOpens(w, c, m, n, fd);
    var w3 := Next(w, OpenFile(c, fd));
    PoisedRegisters(w3, c, m, n, obj);
    PoisedSpoils(Next(w3, Request(c, n, ReqAdd(obj, 1), FINE)), c, m, n, fd);
  }

  /** Coverage is exact: after any run, a fork of a process that is not covered can be followed by four
      steps of the child that leave an active object in disagreement.  (After a fork of a covered
      one nothing can: CacheKernelAgreement.) */
  lemma UncoveredForkCanBreak(steps: seq<Step>, p: Pid)
    requires p < |After(EpollKind, steps).procs|
    requires var q := After(EpollKind, steps).procs[p];
      (forall m :: 0 <= m < |q.members| ==> q.members[m].io < |q.os.handles|) && !Covered(q)
    ensures
      var w := After(EpollKind, steps);
      exists n: MemberId, m: MemberId, fd: Fd, obj: Obj :: Disagrees(FourSteps(w, p, n, m, fd, obj), |w.procs|, n)
  {
    RunKeeps(EpollKind, steps);
    var w := After(EpollKind, steps);
    var q := w.procs[p];
    var m, n :| 0 <= m < |q.members| && 0 <= n < |q.members| && m != n && IsOpen(q, m) && IsOpen(q, n)
                && q.members[m].io !in Keys(q.sh.copies);
    PoiseChild(w, p, m, n);
    var fd, obj := PoisedBreaks(Next(Next(w, Fork(p)), Request(|w.procs|, n, ReqWait, FINE)), |w.procs|, m, n);
    assert Disagrees(FourSteps(w, p, n, m, fd, obj), |w.procs|, n);
  }

  // ------------------------------------------------- a file that outlives its descriptor

  const IDLE := Proc(Os(map[0 := 0], [Io(0, false)], [Open(0)]), Shared(map[], map[], [Copy(0, 0)]),
                     [Member(0, 0)], true, false)
  const WATCHED := IDLE.(sh := Shared(map[0 := 1], map[0 := 0], [Copy(0, 0)]))
  const CLOSED := WATCHED.(os := Os(map[], [Io(0, true)], [Open(0)]))
  const REUSED := WATCHED.(os := Os(map[0 := 1], [Io(0, true), Io(0, false)], [Open(0)]))
  const REPLACED := REUSED.(sh := Shared(map[0 := 1], map[0 := 1], [Copy(0, 0)]))

  const OLD_ENTRY: Interest := map[Key(0, 0) := Entry(0, 1, true)]
  const BOTH_ENTRIES: Interest := map[Key(0, 0) := Entry(0, 1, true), Key(1, 0) := Entry(1, 1, true)]

  const V1 := World(EpollKind, [IDLE], [Inst(0, map[])], 1)
  const V2 := World(EpollKind, [WATCHED], [Inst(0, OLD_ENTRY)], 1)
  const V3 := World(EpollKind, [WATCHED, WATCHED], [Inst(0, OLD_ENTRY)], 1)
  const V4 := World(EpollKind, [CLOSED, WATCHED], [Inst(0, OLD_ENTRY)], 1)
  const V5 := World(EpollKind, [REUSED, WATCHED], [Inst(0, OLD_ENTRY)], 2)
  const V6 := World(EpollKind, [REPLACED, WATCHED], [Inst(0, BOTH_ENTRIES)], 2)

  lemma Open1()
    requires WF(Start(EpollKind))
    ensures Next(Start(EpollKind), OpenFile(0, 0)) == V1
  {
    assert ROOT.os.objs + [Io(0, false)] == IDLE.os.objs && ROOT.os.fds[0 := 0] == IDLE.os.fds;
    assert Start(EpollKind).procs[0 := IDLE] == V1.procs;
  }

  lemma Add2()
    requires WF(V1)
    ensures Next(V1, Request(0, 0, ReqAdd(0, 1), FINE)) == V2
  {
    var v := ViewOf(V1, 0, 0);
    assert v.Interest()[Key(0, 0) := Entry(0, 1, true)] == OLD_ENTRY;
    assert v.insts[0 := Inst(0, OLD_ENTRY)] == V2.insts;
    assert Perform(v, EpollKind, ReqAdd(0, 1), FINE).view == View(0, 0, IDLE.os, V2.insts, WATCHED.sh, Member(0, 0));
    assert IDLE.members[0 := Member(0, 0)] == WATCHED.members;
    assert V1.procs[0 := WATCHED] == V2.procs;
  }

  lemma Fork3()
    requires WF(V2)
    ensures Next(V2, Fork(0)) == V3
  {
  }

  lemma Close4()
    requires WF(V3)
    ensures Next(V3, CloseFile(0, 0)) == V4
  {
    var procs := V3.procs[0 := CLOSED];
    assert WATCHED.os.fds - {0} == map[] && WATCHED.os.objs[0 := Io(0, true)] == CLOSED.os.objs;
    assert Referenced(procs, 0) by { assert procs[1].os.fds[0] in procs[1].os.fds.Values; }
    assert procs == V4.procs;
  }

  lemma Open5()
    requires WF(V4)
    ensures Next(V4, OpenFile(0, 0)) == V5
  {
    assert CLOSED.os.objs + [Io(0, false)] == REUSED.os.objs && CLOSED.os.fds[0 := 1] == REUSED.os.fds;
    assert V4.procs[0 := REUSED] == V5.procs;
  }

  lemma Add6()
    requires WF(V5)
    ensures Next(V5, Request(0, 0, ReqAdd(1, 1), FINE)) == V6
  {
    var v := ViewOf(V5, 0, 0);
    assert v.Interest()[Key(1, 0) := Entry(1, 1, true)] == BOTH_ENTRIES;
    assert v.insts[0 := Inst(0, BOTH_ENTRIES)] == V6.insts;
    assert Perform(v, EpollKind, ReqAdd(1, 1), FINE).view == View(0, 0, REUSED.os, V6.insts, REPLACED.sh, Member(0, 0));
    assert REUSED.members[0 := Member(0, 0)] == REPLACED.members;
    assert V5.procs[0 := REPLACED] == V6.procs;
  }

  lemma ReachV6()
    ensures Reachable(V6)
  {
    assert After(EpollKind, []) == Start(EpollKind);
    Reach(Start(EpollKind), OpenFile(0, 0)); Open1();
    Reach(V1, Request(0, 0, ReqAdd(0, 1), FINE)); Add2();
    Reach(V2, Fork(0)); Fork3();
    Reach(V3, CloseFile(0, 0)); Close4();
    Reach(V4, OpenFile(0, 0)); Open5();
    Reach(V5, Request(0, 0, ReqAdd(1, 1), FINE)); Add6();
  }

  /** Watch a file, fork, close it in the parent, reuse the descriptor and watch the new file.  The child
      keeps the old file open, so its entry survives in the parent's instance and can be delivered,
      while no mark retains its object any more. */
  lemma SurvivingFileIsNotRetained()
    ensures Reachable(V6) && V6.procs[0].covered && ActiveIn(V6, 0, 0) && InstOf(V6.procs[0], 0) == 0
    ensures Key(0, 0) in V6.insts[0].interest && V6.insts[0].interest[Key(0, 0)].obj !in V6.procs[0].sh.marks.Values
  {
    ReachV6();
  }

  // ------------------------------------ addressability is necessary, from every reachable state

  /** The list of active member `m` holds `k`, but the process can no longer name it: its descriptor is
      closed, or open on another file. */
  ghost predicate Orphaned(w: World, p: Pid, m: MemberId, k: Key) {
    && ActiveIn(w, p, m) && InstOf(w.procs[p], m) < |w.insts|
    && k in w.insts[InstOf(w.procs[p], m)].interest
    && !(k.fd in w.procs[p].os.fds && w.procs[p].os.fds[k.fd] == k.file)
  }

  /** A new object for the descriptor: around what is open there now, or around a newly opened file. */
  function Rewrap(w: World, p: Pid, fd: Fd): Step
    requires p < |w.procs|
  {
    if fd in w.procs[p].os.fds then AliasFile(p, fd) else OpenFile(p, fd)
  }

  lemma RewrapGivesObject(w: World, p: Pid, m: MemberId, k: Key)
    requires Inv(w) && Orphaned(w, p, m, k)
    ensures
      var w1 := Next(w, Rewrap(w, p, k.fd));
      && w1.kind == w.kind && Inv(w1) && Orphaned(w1, p, m, k)
      && w1.insts == w.insts && InstOf(w1.procs[p], m) == InstOf(w.procs[p], m)
      && w1.procs[p].os.objs == w.procs[p].os.objs + [Io(k.fd, false)] && k.fd in w1.procs[p].os.fds
      && w1.procs[p].sh == w.procs[p].sh
  {
    StepKeeps(w, Rewrap(w, p, k.fd));
    assert k.file < w.nextFile;
  }

  /** Setting that object writes another key, and takes the slot. */
  lemma SetTakesSlot(v: View, obj: Obj, mask: Mask)
    requires v.WF() && v.IsOpen() && v.me.pid == v.pid && Usable(v, obj)
    requires forall fd :: fd in v.sh.marks ==> v.sh.marks[fd] != obj
    ensures SetCall(v, obj, mask, FINE).view == Register(v, obj, mask)
  {
    SetShape(v, obj, mask, FINE);
  }

  /** Retention is exact: after any run, if a list holds an entry that the process cannot address, two
      steps (a new object on that descriptor, and a `set` of it) leave the entry in the list, ready to
      be delivered, while nothing marks its object: a wait that starts then does not retain it.
      (The object of an addressable entry is always marked: RetainedWhenYielded.) */
  lemma OrphanedCanBeUnmarked(steps: seq<Step>, p: Pid, m: MemberId, k: Key, mask: Mask)
    requires Orphaned(After(EpollKind, steps), p, m, k)
    ensures
      var w := After(EpollKind, steps);
      var i := InstOf(w.procs[p], m);
      var w1 := Next(w, Rewrap(w, p, k.fd));
      var w2 := Next(w1, Request(p, m, ReqSet(|w.procs[p].os.objs|, mask), FINE));
      && ActiveIn(w2, p, m) && InstOf(w2.procs[p], m) == i < |w2.insts|
      && k in w2.insts[i].interest && w2.insts[i].interest[k] == w.insts[i].interest[k]
      && w.insts[i].interest[k].obj !in Marked(w2, p)
  {
    var w := After(EpollKind, steps);
    RunKeeps(EpollKind, steps);
    NamedRun(EpollKind, steps);
    RewrapGivesObject(w, p, m, k);
    var obj := |w.procs[p].os.objs|;
    var w1 := Next(w, Rewrap(w, p, k.fd));
    assert ProcInv(w1.kind, w1.insts, w1.nextFile, p, w1.procs[p]);
    assert ProcInv(w.kind, w.insts, w.nextFile, p, w.procs[p]);
    assert SlotsNamed(w.procs[p]) && w.insts[InstOf(w.procs[p], m)].creator == p;
    SetUnmarks(w1, p, m, k, obj, mask);
  }

  lemma SetUnmarks(w: World, p: Pid, m: MemberId, k: Key, obj: Obj, mask: Mask)
    requires Inv(w) && w.kind.EpollKind? && Orphaned(w, p, m, k) && SlotsNamed(w.procs[p])
    requires
      var q := w.procs[p];
      && |q.os.objs| == obj + 1 && q.os.objs[obj] == Io(k.fd, false) && k.fd in q.os.fds
      && (forall fd :: fd in q.sh.marks ==> q.sh.marks[fd] != obj)
      && var e := w.insts[InstOf(q, m)].interest[k]; e.obj < obj && q.os.objs[e.obj].fd == k.fd
    ensures
      var w2 := Next(w, Request(p, m, ReqSet(obj, mask), FINE));
      var i := InstOf(w.procs[p], m);
      && ActiveIn(w2, p, m) && InstOf(w2.procs[p], m) == i < |w2.insts|
      && k in w2.insts[i].interest && w2.insts[i].interest[k] == w.insts[i].interest[k]
      && w.insts[i].interest[k].obj !in Marked(w2, p)
  {
    var v := ViewOf(w, p, m);
    var q := w.procs[p];
    SetTakesSlot(v, obj, mask);
    var r := Register(v, obj, mask);
    assert q.members[m := v.me] == q.members;
    assert Next(w, Request(p, m, ReqSet(obj, mask), FINE)) == Put(w, p, m, r);
    assert Put(w, p, m, r).procs[p] == q.(sh := r.sh);
    assert v.KeyOf(obj) != k;
  }
}
