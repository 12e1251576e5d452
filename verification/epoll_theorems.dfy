/** The main results about Epoll (and Kqueue) objects, over every run. */
module EpollTheorems {
  import opened EpollModel
  import opened EpollCalls
  import opened EpollWorld

  ghost predicate ActiveIn(w: World, p: Pid, m: MemberId) {
    && p < |w.procs| && m < |w.procs[p].members| && w.procs[p].members[m].io < |w.procs[p].os.handles|
    && Active(w.procs[p], p, m)
  }

  /** Cache/kernel agreement.  After any run of calls, forks, dups, file opens and closes, descriptor
      reuse, aliasing, ONESHOT deliveries and failing system calls: every kernel entry that the
      process can address has its object and mask in the cache slot of its descriptor (a disarmed one
      only behind a ONESHOT mask), the object is still usable, and a slot has an object exactly when it has a mask. */
  lemma CacheKernelAgreement(steps: seq<Step>, p: Pid, m: MemberId, fd: Fd)
    requires ActiveIn(After(EpollKind, steps), p, m) && After(EpollKind, steps).procs[p].covered
    ensures
      var w := After(EpollKind, steps);
      var v := ViewOf(w, p, m);
      && v.WF() && v.IsOpen()
      && (fd in v.sh.marks <==> fd in v.sh.events)
      && (fd in v.os.fds && Key(v.os.fds[fd], fd) in v.Interest() ==>
            var e := v.Interest()[Key(v.os.fds[fd], fd)];
            && fd in v.sh.marks && v.sh.marks[fd] == e.obj && v.sh.events[fd] == e.mask
            && (e.armed || Oneshot(v.sh.events[fd]))
            && v.os.objs[e.obj] == Io(fd, false))
      && (!w.procs[p].aliased && fd in v.sh.marks && !v.os.objs[v.sh.marks[fd]].closed ==>
            fd in v.os.fds && Key(v.os.fds[fd], fd) in v.Interest())
  {
    var w := After(EpollKind, steps);
    RunKeeps(EpollKind, steps);
    assert ProcInv(w.kind, w.insts, w.nextFile, p, w.procs[p]);
    var v := ViewOf(w, p, m);
    assert v.WF();
    assert v.Interest() == w.insts[InstOf(w.procs[p], m)].interest;
    if fd in v.os.fds && Key(v.os.fds[fd], fd) in v.Interest() {
      assert EntryAgrees(v.os, v.Interest()[Key(v.os.fds[fd], fd)], fd, v.sh);
    }
  }

  /** An object that was never dup'ed is covered in every descendant, at any fork depth. */
  lemma SoloIsCovered(kind: Kind, steps: seq<Step>, p: Pid)
    requires p < |After(kind, steps).procs| && |After(kind, steps).procs[p].members| == 1
    ensures After(kind, steps).procs[p].covered
  {
    var w := After(kind, steps);
    RunKeeps(kind, steps);
    assert ProcInv(w.kind, w.insts, w.nextFile, p, w.procs[p]);
  }

  /** So is every family in the process that created it, dup'ed or not. */
  lemma {:induction false} RootIsCovered(kind: Kind, steps: seq<Step>)
    ensures |After(kind, steps).procs| >= 1 && After(kind, steps).procs[0].covered
  {
    if steps != [] {
      RootIsCovered(kind, steps[..|steps| - 1]);
    }
  }

  /** Fork isolation, calls: whatever the tree of forks and dups, every system call that a request
      issues targets an instance its own process created, and no other process's instance changes. */
  lemma ForkIsolation(kind: Kind, steps: seq<Step>, p: Pid, m: MemberId, req: Req, env: Env)
    requires Enabled(After(kind, steps), Request(p, m, req, env))
    ensures
      var w := After(kind, steps);
      var v := ViewOf(w, p, m);
      v.WF() &&
      var r := Perform(v, kind, req, env);
      && (forall s :: s in r.trace ==> s.inst < |r.view.insts| && r.view.insts[s.inst].creator == p)
      && |w.insts| <= |r.view.insts|
      && (forall i :: 0 <= i < |w.insts| && w.insts[i].creator != p ==> r.view.insts[i] == w.insts[i])
      && (forall i :: |w.insts| <= i < |r.view.insts| ==> r.view.insts[i].creator == p)
  {
    var w := After(kind, steps);
    var q := w.procs[p];
    RunKeeps(kind, steps);
    assert ProcInv(w.kind, w.insts, w.nextFile, p, q);
    assert Active(q, p, m) ==> w.insts[InstOf(q, m)].creator == p;
    IsolatedCall(ViewOf(w, p, m), kind, req, env);
  }

  lemma CheckIsolates(v: View, kind: Kind, env: Reinit)
    requires v.WF() && (v.me.pid == v.pid && v.IsOpen() ==> v.insts[v.Inst()].creator == v.pid)
    ensures
      var c := Check(v, kind, env);
      && c.view.WF() && c.view.pid == v.pid && v.insts <= c.view.insts
      && (forall i :: |v.insts| <= i < |c.view.insts| ==> c.view.insts[i].creator == v.pid)
      && (c.ok && c.view.IsOpen() ==> c.view.insts[c.view.Inst()].creator == v.pid)
  {
    CheckWF(v, kind, env);
    if Stale(v) { ReinitHandles(v, kind, env); }
  }

  lemma IsolatedCall(v: View, kind: Kind, req: Req, env: Env)
    requires v.WF() && req.Names(v.os) && (!req.ReqWait? ==> kind.EpollKind?)
    requires v.me.pid == v.pid && v.IsOpen() ==> v.insts[v.Inst()].creator == v.pid
    ensures
      var r := Perform(v, kind, req, env);
      && (forall s :: s in r.trace ==> s.inst < |r.view.insts| && r.view.insts[s.inst].creator == v.pid)
      && |v.insts| <= |r.view.insts|
      && (forall i :: 0 <= i < |v.insts| && v.insts[i].creator != v.pid ==> r.view.insts[i] == v.insts[i])
      && (forall i :: |v.insts| <= i < |r.view.insts| ==> r.view.insts[i].creator == v.pid)
  {
    CheckIsolates(v, kind, env.reinit);
    CallShape(v, kind, req, env);
    TraceTargets(v, kind, req, env);
    TraceMember(v, kind, req, env);
    if Check(v, kind, env.reinit).ok { ReinitShows(v, kind, env.reinit); }
    ShapeIsolates(v, Check(v, kind, env.reinit), Perform(v, kind, req, env), req);
  }

  /** A fork check that succeeded on an open handle either had nothing to do or moved the receiver. */
  lemma ReinitShows(v: View, kind: Kind, env: Reinit)
    requires v.WF() && Check(v, kind, env).ok
    ensures Check(v, kind, env).view == v || Check(v, kind, env).view.me.pid != v.me.pid
  {
  }

  lemma ShapeIsolates(v: View, c: Checked, r: Call, req: Req)
    requires c.view.pid == v.pid && v.insts <= c.view.insts && c.view.WF()
    requires forall i :: |v.insts| <= i < |c.view.insts| ==> c.view.insts[i].creator == v.pid
    requires c.ok && c.view.IsOpen() ==> c.view.insts[c.view.Inst()].creator == v.pid
    requires forall s :: s in r.trace ==> c.ok && c.view.IsOpen() && s.inst == c.view.Inst()
    requires Shape(v, c, r.view, req) && v.WF()
    requires r.trace != [] && r.view == v ==> c.view == v
    ensures forall s :: s in r.trace ==> s.inst < |r.view.insts| && r.view.insts[s.inst].creator == v.pid
    ensures |v.insts| <= |r.view.insts|
    ensures forall i :: 0 <= i < |v.insts| && v.insts[i].creator != v.pid ==> r.view.insts[i] == v.insts[i]
    ensures forall i :: |v.insts| <= i < |r.view.insts| ==> r.view.insts[i].creator == v.pid
  {
  }

  lemma TraceTargets(v: View, kind: Kind, req: Req, env: Env)
    requires v.WF() && req.Names(v.os)
    requires !req.ReqWait? ==> kind.EpollKind?
    ensures
      var c := Check(v, kind, env.reinit);
      forall s :: s in Perform(v, kind, req, env).trace ==>
        c.ok && c.view.WF() && c.view.IsOpen() && s.inst == c.view.Inst()
  {
    CheckWF(v, kind, env.reinit);
    match req
    case ReqSet(obj, mask) => SetTrace(Check(v, kind, env.reinit).view, obj, mask, env);
    case _ =>
  }

  lemma SetTrace(v: View, obj: Obj, mask: Mask, env: Env)
    requires v.WF() && obj < |v.os.objs|
    ensures forall s :: s in SetCtl(v, obj, mask, env).trace ==> v.IsOpen() && s.inst == v.Inst()
  {
  }

  /** A call that issued a system call leaves the receiver's @io and @pid as the fork check left them. */
  lemma TraceMember(v: View, kind: Kind, req: Req, env: Env)
    requires v.WF() && req.Names(v.os)
    requires !req.ReqWait? ==> kind.EpollKind?
    ensures
      var c, r := Check(v, kind, env.reinit), Perform(v, kind, req, env);
      r.trace != [] ==> c.ok && r.view.me == c.view.me
  {
    CheckWF(v, kind, env.reinit);
    match req
    case ReqSet(obj, mask) => SetShape(Check(v, kind, env.reinit).view, obj, mask, env);
    case _ =>
  }

  /** Fork isolation, dup and close: neither writes into any existing instance. */
  lemma DupAndCloseIsolation(kind: Kind, steps: seq<Step>, p: Pid, m: MemberId, env: Reinit, dupFails: bool)
    requires p < |After(kind, steps).procs| && m < |After(kind, steps).procs[p].members|
    ensures var w := After(kind, steps); w.insts <= Next(w, Dup(p, m, env, dupFails)).insts
    ensures var w := After(kind, steps); w.insts == Next(w, Close(p, m)).insts
  {
    RunKeeps(kind, steps);
  }

  /** `set` in every run: on an open instance of a covered process without aliases, it raises only for a closed
      io, a failing fork check or another kernel fault, and a normal return leaves an armed entry for
      (io, events) and exactly the other entries that the fork check left. */
  lemma SetInEveryRun(steps: seq<Step>, p: Pid, m: MemberId, obj: Obj, mask: Mask, env: Env)
    requires Enabled(After(EpollKind, steps), Request(p, m, ReqSet(obj, mask), env))
    requires var q := After(EpollKind, steps).procs[p]; q.covered && !q.aliased && IsOpen(q, m)
    ensures
      var v := ViewOf(After(EpollKind, steps), p, m);
      v.WF() &&
      var c, r := Check(v, EpollKind, env.reinit).view, SetCall(v, obj, mask, env);
      && (r.out.Raise? ==>
            v.os.objs[obj].closed || env.fault1 || env.fault2 || !Check(v, EpollKind, env.reinit).ok)
      && (!r.out.Raise? ==>
            && c.WF() && c.IsOpen() && c.os.objs[obj].fd in c.os.fds
            && r.view.WF() && r.view.IsOpen() && |r.view.insts| == |c.insts|
            && r.view.Interest() == c.Interest()[c.KeyOf(obj) := Entry(obj, mask, true)]
            && r.view.insts == c.insts[c.Inst() := r.view.insts[c.Inst()]])
  {
    CheckedRun(steps, p, m, env.reinit);
    SetAfterCheck(ViewOf(After(EpollKind, steps), p, m), obj, mask, env);
  }

  /** `delete` in every run, aliases included: it raises only for a closed io, a failing fork check or another
      kernel fault, and a normal return leaves no entry for the object, drops nothing else, and is non-nil
      exactly when there was one. */
  lemma DeleteInEveryRun(steps: seq<Step>, p: Pid, m: MemberId, obj: Obj, env: Env)
    requires Enabled(After(EpollKind, steps), Request(p, m, ReqDelete(obj), env))
    requires var q := After(EpollKind, steps).procs[p]; q.covered && IsOpen(q, m)
    ensures
      var v := ViewOf(After(EpollKind, steps), p, m);
      v.WF() &&
      var c, r := Check(v, EpollKind, env.reinit).view, DeleteCall(v, obj, env);
      && (r.out.Raise? ==> v.os.objs[obj].closed || env.fault1 || !Check(v, EpollKind, env.reinit).ok)
      && (!r.out.Raise? ==>
            && c.WF() && c.IsOpen() && r.view.WF() && r.view.IsOpen()
            && var there := c.os.objs[obj].fd in c.os.fds && c.KeyOf(obj) in c.Interest();
               && r.out == (if there then Ref(obj) else Nil)
               && r.view.Interest() == (if there then c.Interest() - {c.KeyOf(obj)} else c.Interest()))
  {
    var w := After(EpollKind, steps);
    var v := ViewOf(w, p, m);
    var c := Check(v, EpollKind, env.reinit);
    CheckedRun(steps, p, m, env.reinit);
    if c.ok && !v.os.objs[obj].closed {
      DeleteRefinesRemoval(c.view, obj, env);
      CheckFirst(v, EpollKind, ReqDelete(obj), env);
    }
  }

  lemma SetAfterCheck(v: View, obj: Obj, mask: Mask, env: Env)
    requires v.WF() && obj < |v.os.objs|
    requires
      var c := Check(v, EpollKind, env.reinit);
      && c.view.WF() && c.view.os.objs == v.os.objs && c.view.os.fds == v.os.fds
      && (c.ok ==>
            && c.view.IsOpen() && c.view.me.pid == c.view.pid && Agreeing(c.view)
            && NoAlias(c.view.os) && Backed(c.view.os, c.view.Interest(), c.view.sh))
    ensures
      var c, r := Check(v, EpollKind, env.reinit).view, SetCall(v, obj, mask, env);
      && (r.out.Raise? ==>
            v.os.objs[obj].closed || env.fault1 || env.fault2 || !Check(v, EpollKind, env.reinit).ok)
      && (!r.out.Raise? ==>
            && c.IsOpen() && c.os.objs[obj].fd in c.os.fds
            && r.view.WF() && r.view.IsOpen() && |r.view.insts| == |c.insts|
            && r.view.Interest() == c.Interest()[c.KeyOf(obj) := Entry(obj, mask, true)]
            && r.view.insts == c.insts[c.Inst() := r.view.insts[c.Inst()]])
  {
    var c := Check(v, EpollKind, env.reinit);
    if c.ok && !v.os.objs[obj].closed {
      CheckFirst(v, EpollKind, ReqSet(obj, mask), env);
      SetRefinesUpsert(c.view, obj, mask, env);
      SetReturns(c.view, obj, mask, env);
      if !env.fault1 && !env.fault2 { SetDecides(c.view, obj, mask, env); }
    }
  }

  /** The fork check comes first in every call: the call does what it would do on the checked view. */
  lemma CheckFirst(v: View, kind: Kind, req: Req, env: Env)
    requires v.WF() && req.Names(v.os) && (!req.ReqWait? ==> kind.EpollKind?) && Check(v, kind, env.reinit).ok
    requires req.Writes() || req.Erases() ==> !v.os.objs[req.obj].closed
    ensures
      var c := Check(v, kind, env.reinit).view;
      c.WF() && req.Names(c.os) && Perform(v, kind, req, env) == Perform(c, kind, req, env)
  {
    CheckWF(v, kind, env.reinit);
    CheckTwice(v, kind, env.reinit);
  }

  /** A fork check that fails ends the call: the exception is passed on, and no system call is issued. */
  lemma CheckFailsFirst(v: View, kind: Kind, req: Req, env: Env)
    requires v.WF() && req.Names(v.os) && (!req.ReqWait? ==> kind.EpollKind?) && !Check(v, kind, env.reinit).ok
    requires req.Writes() || req.Erases() ==> !v.os.objs[req.obj].closed
    ensures Perform(v, kind, req, env) == Call(Check(v, kind, env.reinit).view, Raise(EOTHER), [])
  {
  }

  /** `wait` and `kevent` in every run, for both kinds.  After a fork check that succeeds: on an open
      receiver exactly one blocking system call is issued, on an instance that this process created, and
      nothing else changes; on a closed one IOError is raised and none is issued. */
  lemma WaitInEveryRun(kind: Kind, steps: seq<Step>, p: Pid, m: MemberId, env: Env)
    requires Enabled(After(kind, steps), Request(p, m, ReqWait, env))
    ensures
      var v := ViewOf(After(kind, steps), p, m);
      v.WF() &&
      var c, r := Check(v, kind, env.reinit), Perform(v, kind, ReqWait, env);
      && c.view.WF() && r.view == c.view
      && (c.ok && v.IsOpen() ==>
            && c.view.IsOpen() && r.out == Nil && r.trace == [Sys(EpollWait, c.view.Inst())]
            && c.view.insts[c.view.Inst()].creator == p)
      && (!v.IsOpen() ==> r.view == v && r.out == Raise(IOError) && r.trace == [])
      && (!c.ok ==> r.out == Raise(EOTHER) && r.trace == [])
      && (v.IsOpen() && v.me.pid != p && env.reinit.Fine? ==>
            c.ok && c.view.Inst() == |v.insts| && c.view.Interest() == map[])
  {
    var w := After(kind, steps);
    RunKeeps(kind, steps);
    assert ProcInv(w.kind, w.insts, w.nextFile, p, w.procs[p]);
    var v := ViewOf(w, p, m);
    assert Active(w.procs[p], p, m) ==> w.insts[InstOf(w.procs[p], m)].creator == p;
    CheckWF(v, kind, env.reinit);
    if Stale(v) { ReinitEffect(v, kind, env.reinit); }
    if !v.IsOpen() { ClosedReceiver(v, kind, ReqWait, env); }
  }

  /** Lookups in a forked child do not see the parent's registrations. */
  lemma ChildLooksUpNothing(v: View, fd: Fd, env: Env)
    requires v.WF() && v.IsOpen() && v.me.pid != v.pid && env.reinit.Fine?
    ensures LookupCall(v, fd, env).out == Nil && LookupCall(v, fd, env).view.me.pid == v.pid
  {
    ReinitEffect(v, EpollKind, env.reinit);
  }

  /** `dup` in every run, for both kinds.  From an open object, when nothing fails: one new object of this
      process on a handle of its own, on the source's instance (or the new one, after a fork), entered in
      @copies; the source and all other objects keep their @io and @pid. */
  lemma DupInEveryRun(kind: Kind, steps: seq<Step>, p: Pid, m: MemberId, env: Reinit, dupFails: bool)
    requires Enabled(After(kind, steps), Dup(p, m, env, dupFails))
    ensures
      var w := After(kind, steps);
      NewcomerView(w, p, m).WF() &&
      var c := Check(NewcomerView(w, p, m), kind, env);
      var q, q' := w.procs[p], Next(w, Dup(p, m, env, dupFails)).procs[p];
      var h := |c.view.os.handles|;
      if !IsOpen(q, m) then q' == q.(members := q.members + [q.members[m]])
      else if !c.ok || dupFails then q' == q.(os := c.view.os, sh := c.view.sh)
      else
        && q'.members == q.members + [Member(h, p)]
        && q'.os.handles == c.view.os.handles + [Open(if q.members[m].pid == p then InstOf(q, m) else |w.insts|)]
        && q'.sh.copies == c.view.sh.copies + [Copy(h, |q.members|)]
  {
    var w := After(kind, steps);
    RunKeeps(kind, steps);
    assert ProcInv(w.kind, w.insts, w.nextFile, p, w.procs[p]);
    var v := NewcomerView(w, p, m);
    if Stale(v) { ReinitEffect(v, kind, env); }
  }

  /** `close` in every run, for both kinds: the handle is closed and out of @copies, every other handle
      and copy stays, and exactly a second close raises. */
  lemma CloseInEveryRun(kind: Kind, steps: seq<Step>, p: Pid, m: MemberId)
    requires Enabled(After(kind, steps), Close(p, m))
    ensures
      var w := After(kind, steps);
      var v := ViewOf(w, p, m);
      v.WF() &&
      var q, q' := w.procs[p], Next(w, Close(p, m)).procs[p];
      && q' == q.(os := q.os.(handles := q.os.handles[v.me.io := Closed]), sh := q.sh.(copies := q'.sh.copies))
      && Keys(q'.sh.copies) == Keys(q.sh.copies) - {v.me.io}
      && (forall c :: c in q'.sh.copies <==> c in q.sh.copies && c.io != v.me.io)
      && CloseCall(v).out == (if IsOpen(q, m) then Nil else Raise(IOError))
  {
    var w := After(kind, steps);
    RunKeeps(kind, steps);
    assert ProcInv(w.kind, w.insts, w.nextFile, p, w.procs[p]);
    CloseEffect(ViewOf(w, p, m));
    assert w.procs[p].members[m := w.procs[p].members[m]] == w.procs[p].members;
  }

  lemma CloseEffect(v: View)
    requires v.WF()
    ensures
      var r := CloseCall(v).view;
      && r == v.(os := v.os.(handles := v.os.handles[v.me.io := Closed]), sh := v.sh.(copies := r.sh.copies))
      && Keys(r.sh.copies) == Keys(v.sh.copies) - {v.me.io}
      && (forall c :: c in r.sh.copies <==> c in v.sh.copies && c.io != v.me.io)
      && CloseCall(v).out == (if v.IsOpen() then Nil else Raise(IOError))
  {
    WithoutKeys(v.sh.copies, v.me.io);
    if !v.IsOpen() { assert v.os.handles[v.me.io := Closed] == v.os.handles; }
  }

  lemma CheckTwice(v: View, kind: Kind, env: Reinit)
    requires v.WF() && Check(v, kind, env).ok
    ensures Check(v, kind, env).view.WF()
    ensures Check(Check(v, kind, env).view, kind, env) == Check(v, kind, env)
  {
    CheckWF(v, kind, env);
    CheckedIsActive(v, kind, env);
  }

  /** What a call can rely on once the fork check is done. */
  lemma CheckedRun(steps: seq<Step>, p: Pid, m: MemberId, env: Reinit)
    requires var w := After(EpollKind, steps); p < |w.procs| && m < |w.procs[p].members| && w.procs[p].covered
    requires var q := After(EpollKind, steps).procs[p]; q.members[m].io < |q.os.handles| && IsOpen(q, m)
    ensures
      var v := ViewOf(After(EpollKind, steps), p, m);
      v.WF() &&
      var c := Check(v, EpollKind, env);
      && c.view.WF() && c.view.os.objs == v.os.objs && c.view.os.fds == v.os.fds
      && (c.ok ==>
            && c.view.IsOpen() && c.view.me.pid == c.view.pid && Agreeing(c.view)
            && (!After(EpollKind, steps).procs[p].aliased ==>
                  NoAlias(c.view.os) && Backed(c.view.os, c.view.Interest(), c.view.sh)))
  {
    var w := After(EpollKind, steps);
    var v := ViewOf(w, p, m);
    RunKeeps(EpollKind, steps);
    assert ProcInv(w.kind, w.insts, w.nextFile, p, w.procs[p]);
    CheckWF(v, EpollKind, env);
    var c := Check(v, EpollKind, env);
    CheckKeeps(w, p, m, env);
    var w1 := Put(w, p, m, c.view);
    assert ProcInv(w1.kind, w1.insts, w1.nextFile, p, w1.procs[p]);
    if c.ok {
      CheckedIsActive(v, EpollKind, env);
      if Stale(v) { ReinitHandles(v, EpollKind, env); }
      assert w1.procs[p].members[m] == c.view.me;
      assert Active(w1.procs[p], p, m) && c.view.Inst() == InstOf(w1.procs[p], m);
    }
  }

  /** Exactly when a sibling's re-initialisation spoils another member's cache: the sibling stays
      usable if and only if its handle is not in @copies, and then the emptied cache agrees
      with its interest list if and only if that list holds nothing the process can address. */
  lemma ReinitSpoilsSibling(w: World, p: Pid, m: MemberId, n: MemberId)
    requires Inv(w) && w.kind.EpollKind? && p < |w.procs|
    requires m < |w.procs[p].members| && n < |w.procs[p].members| && m != n
    requires IsOpen(w.procs[p], m) && !Active(w.procs[p], p, m) && Active(w.procs[p], p, n)
    ensures
      ViewOf(w, p, m).WF() &&
      var w' := Put(w, p, m, Check(ViewOf(w, p, m), EpollKind, Fine).view);
      var q, q' := w.procs[p], w'.procs[p];
      && ProcWF(w'.insts, w'.nextFile, q')
      && (Active(q', p, n) <==> q.members[n].io !in Keys(q.sh.copies))
      && (Active(q', p, n) ==>
            (Agree(q'.os, w'.insts[InstOf(q', n)].interest, q'.sh) <==>
             forall fd :: fd in q.os.fds ==> Key(q.os.fds[fd], fd) !in w.insts[InstOf(q, n)].interest))
  {
    var v := ViewOf(w, p, m);
    assert ProcInv(w.kind, w.insts, w.nextFile, p, w.procs[p]);
    ReinitHandles(v, EpollKind, Fine);
    ReinitLinks(w, p, m, Fine);
    var w' := Put(w, p, m, Check(v, EpollKind, Fine).view);
    var q, q' := w.procs[p], w'.procs[p];
    assert q'.members[n] == q.members[n];
    if Active(q', p, n) {
      assert InstOf(q', n) == InstOf(q, n);
      if fd :| fd in q.os.fds && Key(q.os.fds[fd], fd) in w.insts[InstOf(q, n)].interest {
        assert !EntryAgrees(q'.os, w'.insts[InstOf(q', n)].interest[Key(q.os.fds[fd], fd)], fd, q'.sh);
      }
    }
  }

  // ------------------------------------------------------------ dup without fork

  /** @copies maps exactly the open handles to their owners, and they all name the first instance. */
  ghost predicate Shares(q: Proc) {
    && (forall m :: 0 <= m < |q.members| ==> q.members[m].pid == 0 && q.members[m].io < |q.os.handles|)
    && (forall h :: 0 <= h < |q.os.handles| && q.os.handles[h].Open? ==> q.os.handles[h] == Open(0))
    && (forall h :: 0 <= h < |q.os.handles| && q.os.handles[h].Open? ==> Owned(q, h))
    && (forall h: IoId, m: MemberId ::
          Copy(h, m) in q.sh.copies <==> m < |q.members| && q.members[m].io == h && IsOpen(q, m))
    && (forall m, n :: 0 <= m < n < |q.members| && IsOpen(q, m) && IsOpen(q, n) ==> q.members[m].io != q.members[n].io)
  }

  ghost predicate Owned(q: Proc, h: IoId) {
    exists m :: 0 <= m < |q.members| && q.members[m].io == h
  }

  lemma SharesStep(w: World, s: Step)
    requires Inv(w) && |w.procs| >= 1 && Shares(w.procs[0])
    ensures |Next(w, s).procs| >= 1 && Shares(Next(w, s).procs[0])
  {
    if Enabled(w, s) {
      match s
      case Request(p, m, req, env) => if p == 0 { SharesRequest(w, m, req, env); }
      case Close(p, m) => if p == 0 { SharesClose(w, m); }
      case Dup(p, m, env, dupFails) => if p == 0 { SharesDup(w, m, env, dupFails); }
      case OpenFile(p, fd) => if p == 0 { SharesFrame(w.procs[0], Next(w, s).procs[0]); }
      case AliasFile(p, fd) => if p == 0 { SharesFrame(w.procs[0], Next(w, s).procs[0]); }
      case CloseFile(p, obj) => if p == 0 { SharesFrame(w.procs[0], Next(w, s).procs[0]); }
      case Collect(p, h) =>
        if p == 0 {
          assert !Owned(w.procs[0], h);
          SharesFrame(w.procs[0], Next(w, s).procs[0]);
        }
      case Fork(p) =>
      case Deliver(i, k) =>
    }
  }

  lemma SharesRequest(w: World, m: MemberId, req: Req, env: Env)
    requires Enabled(w, Request(0, m, req, env)) && Shares(w.procs[0])
    ensures Shares(Next(w, Request(0, m, req, env)).procs[0])
  {
    var v := ViewOf(w, 0, m);
    var q := w.procs[0];
    var r := Perform(v, w.kind, req, env).view;
    CallShape(v, w.kind, req, env);
    assert !Stale(v);
    assert q.members[m := v.me] == q.members;
    SharesFrame(q, q.(os := r.os, sh := r.sh));
  }

  lemma SharesFrame(q: Proc, q': Proc)
    requires Shares(q)
    requires q'.os.handles == q.os.handles && q'.sh.copies == q.sh.copies && q'.members == q.members
    ensures Shares(q')
  {
    assert forall m :: 0 <= m < |q.members| ==> IsOpen(q', m) == IsOpen(q, m);
    assert forall h :: Owned(q, h) ==> Owned(q', h);
  }

  lemma SharesClose(w: World, m: MemberId)
    requires Enabled(w, Close(0, m)) && Shares(w.procs[0])
    ensures Shares(Next(w, Close(0, m)).procs[0])
  {
    var q := w.procs[0];
    var io := q.members[m].io;
    assert q.members[m := q.members[m]] == q.members;
    assert q.os.handles[io].Closed? ==> q.os.handles[io := Closed] == q.os.handles;
    SharesClosedIo(q, io);
  }

  lemma SharesClosedIo(q: Proc, io: IoId)
    requires Shares(q) && io < |q.os.handles|
    ensures Shares(ClosedIo(q, io))
  {
    var q' := ClosedIo(q, io);
    WithoutKeys(q.sh.copies, io);
    assert forall n :: 0 <= n < |q.members| ==> (IsOpen(q', n) <==> IsOpen(q, n) && q.members[n].io != io);
    assert forall h :: Owned(q, h) ==> Owned(q', h);
  }

  lemma OwnedStays(q: Proc, q': Proc)
    requires q.members <= q'.members
    ensures forall h :: Owned(q, h) ==> Owned(q', h)
  {
    forall h | Owned(q, h)
      ensures Owned(q', h)
    {
      var a :| 0 <= a < |q.members| && q.members[a].io == h;
      assert q'.members[a].io == h;
    }
  }

  lemma SharesClosedNewcomer(q: Proc, q': Proc, me: Member)
    requires Shares(q) && q'.members == q.members + [me] && me.pid == 0
    requires q'.os.handles == q.os.handles && q'.sh.copies == q.sh.copies
    requires me.io < |q.os.handles| && q.os.handles[me.io].Closed?
    ensures Shares(q')
  {
    OwnedStays(q, q');
    assert forall a :: 0 <= a < |q.members| ==> q'.members[a] == q.members[a] && IsOpen(q', a) == IsOpen(q, a);
  }

  lemma SharesNewcomer(q: Proc, q': Proc, me: Member)
    requires Shares(q) && q'.members == q.members + [me] && me.pid == 0
    requires q'.os.handles == q.os.handles + [Open(0)] && me.io == |q.os.handles|
    requires q'.sh.copies == q.sh.copies + [Copy(me.io, |q.members|)]
    ensures Shares(q')
  {
    var n := |q.members|;
    OwnedStays(q, q');
    assert forall a :: 0 <= a < n ==> q'.members[a] == q.members[a] && IsOpen(q', a) == IsOpen(q, a);
    assert q'.members[n].io == me.io;
  }

  lemma SharesDup(w: World, m: MemberId, env: Reinit, dupFails: bool)
    requires Inv(w) && |w.procs| >= 1 && Shares(w.procs[0]) && m < |w.procs[0].members|
    ensures Shares(Next(w, Dup(0, m, env, dupFails)).procs[0])
  {
    var v := NewcomerView(w, 0, m);
    assert !Stale(v);
    var c := CopyCall(v, w.kind, env, dupFails);
    var q' := Next(w, Dup(0, m, env, dupFails)).procs[0];
    if !c.ok {
      SharesFrame(w.procs[0], q');
    } else if v.IsOpen() {
      SharesNewcomer(w.procs[0], q', c.view.me);
    } else {
      SharesClosedNewcomer(w.procs[0], q', c.view.me);
    }
  }

  lemma {:induction false} SharesRun(kind: Kind, steps: seq<Step>)
    ensures |After(kind, steps).procs| >= 1 && Shares(After(kind, steps).procs[0])
  {
    if steps == [] {
      var q := Start(kind).procs[0];
      assert q.members[0].io == 0;
    } else {
      SharesRun(kind, steps[..|steps| - 1]);
      RunKeeps(kind, steps[..|steps| - 1]);
      SharesStep(After(kind, steps[..|steps| - 1]), steps[|steps| - 1]);
    }
  }

  lemma CoveredStays(w: World, s: Step, p: Pid)
    requires p < |w.procs|
    ensures p < |Next(w, s).procs| && Next(w, s).procs[p].covered == w.procs[p].covered
  {
  }

  lemma {:induction false} CoveredLater(kind: Kind, steps: seq<Step>, rest: seq<Step>, p: Pid)
    requires p < |After(kind, steps).procs|
    ensures
      var w := After(kind, steps + rest);
      p < |w.procs| && w.procs[p].covered == After(kind, steps).procs[p].covered
  {
    if rest == [] {
      assert steps + rest == steps;
    } else {
      var n := |rest| - 1;
      CoveredLater(kind, steps, rest[..n], p);
      assert steps + rest == (steps + rest[..n]) + [rest[n]];
      AfterOneMore(kind, steps + rest[..n], rest[n]);
      CoveredStays(After(kind, steps + rest[..n]), rest[n], p);
    }
  }

  /** Coverage is decided at the fork, once and for all: the child that `p` forks is covered, after
      whatever else happens, if and only if `p` was `Covered` when it forked. */
  lemma CoverageDecidedAtFork(kind: Kind, steps: seq<Step>, p: Pid, rest: seq<Step>)
    requires p < |After(kind, steps).procs|
    ensures
      var w := After(kind, steps);
      var child, w' := |w.procs|, After(kind, steps + [Fork(p)] + rest);
      WF(w) && child < |w'.procs| && (w'.procs[child].covered <==> Covered(w.procs[p]))
  {
    RunKeeps(kind, steps);
    AfterOneMore(kind, steps, Fork(p));
    CoveredLater(kind, steps + [Fork(p)], rest, |After(kind, steps).procs|);
  }

  /** So a family, dup'ed or not, is covered in any child that the first process forks, for as long as the
      child lives: coverage is lost only by forking again from a process that re-initialised and then dup'ed. */
  lemma FirstForkIsCovered(kind: Kind, steps: seq<Step>, rest: seq<Step>)
    ensures
      var child, w := |After(kind, steps).procs|, After(kind, steps + [Fork(0)] + rest);
      child < |w.procs| && w.procs[child].covered
  {
    SharesRun(kind, steps);
    SharesCovered(After(kind, steps).procs[0]);
    CoverageDecidedAtFork(kind, steps, 0, rest);
  }

  lemma SharesCovered(q: Proc)
    requires Shares(q)
    ensures Covered(q)
  {
    forall m | 0 <= m < |q.members| && IsOpen(q, m)
      ensures q.members[m].io in Keys(q.sh.copies)
    {
      assert Copy(q.members[m].io, m) in q.sh.copies;
    }
  }

  /** A kernel instance lives while some handle of some process is open on it. */
  ghost predicate Lives(w: World, i: EpId) {
    exists p :: 0 <= p < |w.procs| && Open(i) in w.procs[p].os.handles
  }

  lemma SharedHandles(q: Proc)
    requires Shares(q)
    ensures forall h :: 0 <= h < |q.os.handles| && q.os.handles[h].Open? ==> h in Keys(q.sh.copies)
    ensures (exists m :: 0 <= m < |q.members| && IsOpen(q, m)) <==> q.sh.copies != []
    ensures Open(0) in q.os.handles <==> q.sh.copies != []
  {
    forall h | 0 <= h < |q.os.handles| && q.os.handles[h].Open?
      ensures h in Keys(q.sh.copies)
    {
      assert Owned(q, h);
      var m :| 0 <= m < |q.members| && q.members[m].io == h;
      assert IsOpen(q, m);
      assert Copy(h, m) in q.sh.copies;
    }
    if q.sh.copies != [] {
      var c := q.sh.copies[0];
      assert Copy(c.io, c.owner) in q.sh.copies;
      assert IsOpen(q, c.owner) && q.os.handles[c.io] == Open(0);
    }
    if m :| 0 <= m < |q.members| && IsOpen(q, m) {
      assert Copy(q.members[m].io, m) in q.sh.copies;
    }
  }

  /** Dup sharing, over every run of the first process (forks elsewhere included): @copies holds exactly
      the open members with their own handles, all open members name one instance, and as long as
      nobody forked that instance lives exactly while some copy is open. */
  lemma DupFamilyShares(kind: Kind, steps: seq<Step>)
    ensures
      var w := After(kind, steps);
      |w.procs| >= 1 &&
      var q := w.procs[0];
      && (forall m :: 0 <= m < |q.members| ==> q.members[m].io < |q.os.handles|)
      && (forall h: IoId, m: MemberId ::
            Copy(h, m) in q.sh.copies <==> m < |q.members| && q.members[m].io == h && IsOpen(q, m))
      && (forall h :: 0 <= h < |q.os.handles| && q.os.handles[h].Open? ==> h in Keys(q.sh.copies))
      && (forall m :: 0 <= m < |q.members| && IsOpen(q, m) ==> InstOf(q, m) == 0)
      && (|w.procs| == 1 ==> (Lives(w, 0) <==> exists m :: 0 <= m < |q.members| && IsOpen(q, m)))
      && (|w.procs| == 1 ==> (Lives(w, 0) <==> q.sh.copies != []))
  {
    SharesRun(kind, steps);
    SharedHandles(After(kind, steps).procs[0]);
    LivesAlone(After(kind, steps), 0);
  }

  lemma LivesAlone(w: World, i: EpId)
    requires |w.procs| >= 1
    ensures |w.procs| == 1 ==> (Lives(w, i) <==> Open(i) in w.procs[0].os.handles)
  {
  }

  /** Through whichever copy a request is made, afterwards every open copy sees the same slots and the same
      interest list as the receiver. */
  lemma SameThroughCopies(w: World, a: MemberId, b: MemberId, req: Req, env: Env)
    requires Inv(w) && w.kind.EpollKind? && |w.procs| >= 1 && Shares(w.procs[0])
    requires Enabled(w, Request(0, a, req, env))
    requires b < |w.procs[0].members| && IsOpen(w.procs[0], a) && IsOpen(w.procs[0], b)
    ensures
      var r := Perform(ViewOf(w, 0, a), EpollKind, req, env).view;
      var w' := Next(w, Request(0, a, req, env));
      && b < |w'.procs[0].members| && r.WF() && r.IsOpen()
      && var vb := ViewOf(w', 0, b);
         && vb.WF() && vb.IsOpen() && !Stale(vb)
         && vb.sh == r.sh && vb.os == ViewOf(w, 0, a).os && vb.Interest() == r.Interest()
  {
    var va := ViewOf(w, 0, a);
    var q := w.procs[0];
    CallShape(va, EpollKind, req, env);
    var r := Perform(va, EpollKind, req, env).view;
    ShapeStays(va, r, req);
    assert q.members[a := va.me] == q.members;
    assert q.os.handles[q.members[b].io] == Open(0) == q.os.handles[va.me.io];
  }

  lemma ShapeStays(v: View, r: View, req: Req)
    requires v.WF() && v.IsOpen() && Shape(v, Checked(v, true), r, req)
    ensures r.WF() && r.IsOpen() && r.os == v.os && r.me == v.me && r.pid == v.pid && |r.insts| == |v.insts|
    ensures r.sh.copies == v.sh.copies
  {
  }

  /** What the receiver itself sees after a request that returned: the slot and (unless the cache answered
      alone while aliases exist) the entry that it registered, or neither after a removal. */
  lemma ReceiverSees(v: View, req: Req, env: Env)
    requires v.WF() && v.IsOpen() && v.me.pid == v.pid && req.Names(v.os) && (req.Writes() || req.Erases())
    ensures
      var r := Perform(v, EpollKind, req, env);
      var fd := v.os.objs[req.obj].fd;
      && r.view.WF() && r.view.IsOpen()
      && (req.Writes() && !r.out.Raise? ==>
            && fd in r.view.sh.marks && r.view.sh.marks[fd] == req.obj
            && (r.trace != [] || (Agreeing(v) && NoAlias(v.os) && Backed(v.os, v.Interest(), v.sh)) ==>
                  && fd in v.os.fds && v.KeyOf(req.obj) in r.view.Interest()
                  && r.view.Interest()[v.KeyOf(req.obj)] == Entry(req.obj, req.mask, true)))
      && (req.Erases() && !r.out.Raise? && r.out != Nil ==>
            fd !in r.view.sh.marks && fd in v.os.fds && v.KeyOf(req.obj) !in r.view.Interest())
  {
    if req.Writes() { WriterSees(v, req, env); } else { EraserSees(v, req, env); }
  }

  lemma EraserSees(v: View, req: Req, env: Env)
    requires v.WF() && v.IsOpen() && v.me.pid == v.pid && req.Names(v.os) && req.Erases()
    ensures
      var r := Perform(v, EpollKind, req, env);
      && r.view.WF() && r.view.IsOpen()
      && (!r.out.Raise? && r.out != Nil ==> Usable(v, req.obj) && r.view == Unregister(v, req.obj))
  {
  }

  lemma WriterSees(v: View, req: Req, env: Env)
    requires v.WF() && v.IsOpen() && v.me.pid == v.pid && req.Names(v.os) && req.Writes()
    ensures
      var r := Perform(v, EpollKind, req, env);
      var fd := v.os.objs[req.obj].fd;
      && r.view.WF() && r.view.IsOpen()
      && (!r.out.Raise? ==>
            && fd in r.view.sh.marks && r.view.sh.marks[fd] == req.obj
            && (r.trace != [] || (Agreeing(v) && NoAlias(v.os) && Backed(v.os, v.Interest(), v.sh)) ==>
                  && fd in v.os.fds && v.KeyOf(req.obj) in r.view.Interest()
                  && r.view.Interest()[v.KeyOf(req.obj)] == Entry(req.obj, req.mask, true)))
  {
    if req.ReqSet? {
      SetReturns(v, req.obj, req.mask, env);
      if Agreeing(v) && NoAlias(v.os) && Backed(v.os, v.Interest(), v.sh) {
        SetRefinesUpsert(v, req.obj, req.mask, env);
      }
    } else {
      PlainWrites(v, req, env);
    }
    if Usable(v, req.obj) { RegisterEffect(v, req.obj, req.mask); }
  }

  lemma PlainWrites(v: View, req: Req, env: Env)
    requires v.WF() && v.IsOpen() && v.me.pid == v.pid && req.Names(v.os) && (req.ReqAdd? || req.ReqMod?)
    ensures
      var r := Perform(v, EpollKind, req, env);
      if r.out.Raise? then r.view == v else Usable(v, req.obj) && r.view == Register(v, req.obj, req.mask)
  {
  }

  /** A registration through one copy (add, mod or set) is found through every other: same slot, same kernel
      entry; after a removal (del, or a delete that answers the io) neither is found through any. */
  lemma SeenThroughEveryCopy(steps: seq<Step>, a: MemberId, b: MemberId, req: Req, env: Env, env': Env)
    requires Enabled(After(EpollKind, steps), Request(0, a, req, env)) && (req.Writes() || req.Erases())
    requires var q := After(EpollKind, steps).procs[0]; b < |q.members| && IsOpen(q, a) && IsOpen(q, b)
    ensures
      var w := After(EpollKind, steps);
      var va, w' := ViewOf(w, 0, a), Next(w, Request(0, a, req, env));
      va.WF() && b < |w'.procs[0].members| &&
      var r, vb, fd := Perform(va, EpollKind, req, env), ViewOf(w', 0, b), va.os.objs[req.obj].fd;
      && vb.WF() && vb.IsOpen()
      && (req.Writes() && !r.out.Raise? ==>
            && LookupCall(vb, fd, env').out == Ref(req.obj)
            && (r.trace != [] || !w.procs[0].aliased ==>
                  && fd in va.os.fds && va.KeyOf(req.obj) in vb.Interest()
                  && vb.Interest()[va.KeyOf(req.obj)] == Entry(req.obj, req.mask, true)))
      && (req.Erases() && !r.out.Raise? && r.out != Nil ==>
            && LookupCall(vb, fd, env').out == Nil
            && fd in va.os.fds && va.KeyOf(req.obj) !in vb.Interest())
  {
    var w := After(EpollKind, steps);
    SharesRun(EpollKind, steps);
    RunKeeps(EpollKind, steps);
    RootIsCovered(EpollKind, steps);
    assert ProcInv(w.kind, w.insts, w.nextFile, 0, w.procs[0]);
    assert Active(w.procs[0], 0, a);
    SameThroughCopies(w, a, b, req, env);
    ReceiverSees(ViewOf(w, 0, a), req, env);
  }
}
