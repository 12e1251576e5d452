/** Objects stay alive while a thread waits: the snapshot of @marks that Epoll#wait holds, against
    every interleaving of other threads' calls, file closes and descriptor reuse. */
module EpollWaiting {
  import opened EpollModel
  import opened EpollCalls
  import opened EpollWorld
  import opened EpollTheorems

  /** The objects that the mark array of process `p` keeps from being collected. */
  ghost function Marked(w: World, p: Pid): set<Obj>
    requires p < |w.procs|
  {
    w.procs[p].sh.marks.Values
  }

  predicate Names(req: Req, obj: Obj) {
    req.Writes() && req.obj == obj
  }

  /** The request is about the descriptor whose slot holds `obj`, and removes or replaces what it holds. */
  predicate Evicts(os: Os, sh: Shared, req: Req, obj: Obj) {
    && (req.Erases() || (req.Writes() && req.obj != obj))
    && req.obj < |os.objs|
    && os.objs[req.obj].fd in sh.marks && sh.marks[os.objs[req.obj].fd] == obj
  }

  /** An add, mod or set of `obj` that returns normally. */
  ghost predicate Registers(w: World, s: Step, p: Pid, obj: Obj) {
    && Enabled(w, s) && s.Request? && s.p == p && Names(s.req, obj)
    && ViewOf(w, p, s.m).WF() && !Perform(ViewOf(w, p, s.m), w.kind, s.req, s.env).out.Raise?
  }

  /** A del or delete on the descriptor whose slot holds `obj`, or an add, mod or set of another object
      there, that returns normally; or the first call in a forked child, which re-initialises. */
  ghost predicate Removes(w: World, s: Step, p: Pid, obj: Obj) {
    && Enabled(w, s)
    && match s
       case Request(r, m, req, env) =>
         && r == p && ViewOf(w, p, m).WF()
         && (|| Stale(ViewOf(w, p, m))
             || (Evicts(w.procs[p].os, w.procs[p].sh, req, obj)
                 && !Perform(ViewOf(w, p, m), w.kind, req, env).out.Raise?))
       case Dup(r, m, _, _) => r == p && Stale(NewcomerView(w, p, m))
       case _ => false
  }

  lemma ProcsGrow(w: World, s: Step)
    ensures |w.procs| <= |Next(w, s).procs|
  {
  }

  /** One call: what enters the mark array was named by it, what leaves was evicted or re-initialised away. */
  lemma CallMarks(v: View, kind: Kind, req: Req, env: Env, obj: Obj)
    requires v.WF() && req.Names(v.os) && (!req.ReqWait? ==> kind.EpollKind?)
    ensures
      var r := Perform(v, kind, req, env);
      var before, after := v.sh.marks.Values, r.view.sh.marks.Values;
      && (obj !in before && obj in after ==> Names(req, obj) && !r.out.Raise?)
      && (obj in before && obj !in after ==> Stale(v) || (Evicts(v.os, v.sh, req, obj) && !r.out.Raise?))
  {
    var r, c := Perform(v, kind, req, env), Check(v, kind, env.reinit).view;
    CallShape(v, kind, req, env);
    if r.out.Raise? { RaiseChangesNothing(v, kind, req, env); }
    assert c.sh.marks == if Stale(v) then map[] else v.sh.marks;
    if r.view != v && r.view != c {
      SlotValues(c.sh, c.os.objs[req.obj].fd, req.obj, obj);
    }
  }

  lemma SlotValues(sh: Shared, fd: Fd, o: Obj, obj: Obj)
    ensures
      var written, dropped := sh.marks[fd := o].Values, (sh.marks - {fd}).Values;
      && (obj in written ==> obj in sh.marks.Values || obj == o)
      && (obj in dropped ==> obj in sh.marks.Values)
      && (obj in sh.marks.Values && obj !in written ==> fd in sh.marks && sh.marks[fd] == obj && o != obj)
      && (obj in sh.marks.Values && obj !in dropped ==> fd in sh.marks && sh.marks[fd] == obj)
  {
    if obj in sh.marks.Values {
      var g :| g in sh.marks && sh.marks[g] == obj;
      assert sh.marks[fd := o][fd] == o;
      if g != fd { assert sh.marks[fd := o][g] == obj && (sh.marks - {fd})[g] == obj; }
    }
  }

  /** An object enters the mark array only through an add, mod or set that names it and returns, and leaves
      it only through a call that removes or replaces it, or a re-initialisation. */
  lemma MarkChanges(w: World, s: Step, p: Pid, obj: Obj)
    requires Inv(w) && p < |w.procs| && p < |Next(w, s).procs|
    ensures obj !in Marked(w, p) && obj in Marked(Next(w, s), p) ==> Registers(w, s, p, obj)
    ensures obj in Marked(w, p) && obj !in Marked(Next(w, s), p) ==> Removes(w, s, p, obj)
  {
    if Enabled(w, s) && s.Request? && s.p == p {
      CallMarks(ViewOf(w, p, s.m), w.kind, s.req, s.env, obj);
    }
  }

  /** In the process that created the family nothing re-initialises, so only an eviction removes a mark. */
  lemma FirstProcessOnlyEvicts(steps: seq<Step>, s: Step, obj: Obj)
    requires Removes(After(EpollKind, steps), s, 0, obj)
    ensures s.Request? && var q := After(EpollKind, steps).procs[0]; Evicts(q.os, q.sh, s.req, obj)
  {
    SharesRun(EpollKind, steps);
  }

  /** The world at moment `j` of a wait that began after `before`. */
  ghost function At(before: seq<Step>, during: seq<Step>, j: nat): World
    requires j <= |during|
  {
    After(EpollKind, before + during[..j])
  }

  lemma AtNext(before: seq<Step>, during: seq<Step>, j: nat)
    requires j < |during|
    ensures At(before, during, j + 1) == Next(At(before, during, j), during[j])
  {
    assert before + during[..j + 1] == (before + during[..j]) + [during[j]];
    AfterOneMore(EpollKind, before + during[..j], during[j]);
  }

  ghost predicate MarkedAt(before: seq<Step>, during: seq<Step>, p: Pid, obj: Obj, j: nat)
    requires j <= |during|
  {
    var w := At(before, during, j);
    p < |w.procs| && obj in Marked(w, p)
  }

  /** The step at moment `j` registered the object, from not marked to marked. */
  ghost predicate EntersAt(before: seq<Step>, during: seq<Step>, p: Pid, obj: Obj, j: nat) {
    && j < |during| && !MarkedAt(before, during, p, obj, j) && MarkedAt(before, during, p, obj, j + 1)
    && Registers(At(before, during, j), during[j], p, obj)
  }

  /** The step at moment `j` removed or replaced the object, from marked to not marked. */
  ghost predicate LeavesAt(before: seq<Step>, during: seq<Step>, p: Pid, obj: Obj, j: nat) {
    && j < |during| && MarkedAt(before, during, p, obj, j) && !MarkedAt(before, during, p, obj, j + 1)
    && Removes(At(before, during, j), during[j], p, obj)
  }

  lemma Moment(before: seq<Step>, during: seq<Step>, p: Pid, obj: Obj, j: nat)
    requires j < |during| && p < |At(before, during, j).procs|
    ensures p < |At(before, during, j + 1).procs|
    ensures !MarkedAt(before, during, p, obj, j) && MarkedAt(before, during, p, obj, j + 1) ==>
              EntersAt(before, during, p, obj, j)
    ensures MarkedAt(before, during, p, obj, j) && !MarkedAt(before, during, p, obj, j + 1) ==>
              LeavesAt(before, during, p, obj, j)
  {
    AtNext(before, during, j);
    ProcsGrow(At(before, during, j), during[j]);
    RunKeeps(EpollKind, before + during[..j]);
    MarkChanges(At(before, during, j), during[j], p, obj);
  }

  lemma {:induction false} ProcessStays(before: seq<Step>, during: seq<Step>, p: Pid, j: nat)
    requires j <= |during| && p < |At(before, during, 0).procs|
    ensures p < |At(before, during, j).procs|
  {
    if j > 0 {
      ProcessStays(before, during, p, j - 1);
      Moment(before, during, p, 0, j - 1);
    }
  }

  /** A condition that differs between two moments last changes somewhere in between. */
  lemma {:induction false} LastChange(f: nat -> bool, a: nat, b: nat) returns (c: nat)
    requires a <= b && f(a) != f(b)
    ensures a <= c < b && f(c) != f(b) && f(c + 1) == f(b)
  {
    c := b - 1;
    if f(c) == f(b) { c := LastChange(f, a, c); }
  }

  /** An object whose mark differs between two moments: some step in between made the difference. */
  lemma Flips(before: seq<Step>, during: seq<Step>, p: Pid, obj: Obj, a: nat, b: nat)
      returns (c: nat)
    requires a <= b <= |during| && p < |At(before, during, 0).procs|
    requires MarkedAt(before, during, p, obj, a) != MarkedAt(before, during, p, obj, b)
    ensures a <= c < b
    ensures if MarkedAt(before, during, p, obj, b) then EntersAt(before, during, p, obj, c)
            else LeavesAt(before, during, p, obj, c)
  {
    c := LastChange((j: nat) => j <= |during| && MarkedAt(before, during, p, obj, j), a, b);
    ProcessStays(before, during, p, c);
    Moment(before, during, p, obj, c);
  }

  /** The kernel can hand out entry `k` of the waiter's instance at this moment, and the process can
      still address it (its descriptor has not been closed while the file lives on elsewhere). */
  ghost predicate Deliverable(w: World, p: Pid, m: MemberId, k: Key) {
    && ActiveIn(w, p, m) && InstOf(w.procs[p], m) < |w.insts|
    && k in w.insts[InstOf(w.procs[p], m)].interest
    && k.fd in w.procs[p].os.fds && w.procs[p].os.fds[k.fd] == k.file
  }

  lemma DeliveredIsMarked(w: World, p: Pid, m: MemberId, k: Key)
    requires Inv(w) && w.kind.EpollKind? && Deliverable(w, p, m, k) && w.procs[p].covered
    ensures w.insts[InstOf(w.procs[p], m)].interest[k].obj in Marked(w, p)
  {
    var q := w.procs[p];
    assert ProcInv(w.kind, w.insts, w.nextFile, p, q);
    assert Key(q.os.fds[k.fd], k.fd) == k;
    assert EntryAgrees(q.os, w.insts[InstOf(q, m)].interest[k], k.fd, q.sh);
  }

  lemma DeliveredInRun(steps: seq<Step>, p: Pid, m: MemberId, k: Key)
    requires Deliverable(After(EpollKind, steps), p, m, k) && After(EpollKind, steps).procs[p].covered
    ensures var w := After(EpollKind, steps); w.insts[InstOf(w.procs[p], m)].interest[k].obj in Marked(w, p)
  {
    RunKeeps(EpollKind, steps);
    DeliveredIsMarked(After(EpollKind, steps), p, m, k);
  }

  /** Retention.  The snapshot is taken after `before`; the kernel copies out an entry at moment `a`;
      its object is yielded at moment `b`.  The object is then in the snapshot, or still marked, or
      some call registered it after the snapshot and before the delivery, and some call removed or
      replaced that very object (or re-initialised the array) between delivery and yield. */
  lemma RetainedWhenYielded(before: seq<Step>, during: seq<Step>, p: Pid, m: MemberId, k: Key, a: nat, b: nat)
    requires a <= b <= |during| && p < |At(before, during, 0).procs|
    requires Deliverable(At(before, during, a), p, m, k) && At(before, during, a).procs[p].covered
    ensures
      var w := At(before, during, a);
      var obj := w.insts[InstOf(w.procs[p], m)].interest[k].obj;
      || MarkedAt(before, during, p, obj, 0)
      || MarkedAt(before, during, p, obj, b)
      || exists c: nat, d: nat ::
           c < a <= d < b && EntersAt(before, during, p, obj, c) && LeavesAt(before, during, p, obj, d)
  {
    var w := At(before, during, a);
    var obj := w.insts[InstOf(w.procs[p], m)].interest[k].obj;
    DeliveredInRun(before + during[..a], p, m, k);
    assert MarkedAt(before, during, p, obj, a);
    if !MarkedAt(before, during, p, obj, 0) && !MarkedAt(before, during, p, obj, b) {
      var c := Flips(before, during, p, obj, 0, a);
      var d := Flips(before, during, p, obj, a, b);
    }
  }

  // -------------------------------------------------- entries without forks are addressable

  ghost predicate AllCurrent(w: World) {
    |w.procs| == 1 ==>
      var fds := w.procs[0].os.fds;
      && (forall a, b :: a in fds && b in fds && fds[a] == fds[b] ==> a == b)
      && CurrentInsts(w.insts, fds)
  }

  lemma CurrentRequest(w: World, p: Pid, m: MemberId, req: Req, env: Env)
    requires Inv(w) && AllCurrent(w) && Enabled(w, Request(p, m, req, env))
    ensures AllCurrent(Next(w, Request(p, m, req, env)))
  {
    if |w.procs| == 1 {
      var v := ViewOf(w, p, m);
      CheckWF(v, w.kind, env.reinit);
      CallShape(v, w.kind, req, env);
      CurrentView(v, Check(v, w.kind, env.reinit), Perform(v, w.kind, req, env).view, req);
    }
  }

  ghost predicate CurrentInsts(insts: seq<Inst>, fds: map<Fd, File>) {
    forall i, k :: 0 <= i < |insts| && k in insts[i].interest ==> k.fd in fds && fds[k.fd] == k.file
  }

  lemma CurrentView(v: View, c: Checked, r: View, req: Req)
    requires CurrentInsts(v.insts, v.os.fds) && c.view.os.fds == v.os.fds
    requires c.view.insts == v.insts || exists pid: Pid :: c.view.insts == v.insts + [Inst(pid, map[])]
    requires Shape(v, c, r, req)
    ensures CurrentInsts(r.insts, r.os.fds) && r.os.fds == v.os.fds
  {
    assert CurrentInsts(c.view.insts, c.view.os.fds);
  }

  lemma CurrentClose(w: World, p: Pid, obj: Obj)
    requires Inv(w) && AllCurrent(w) && Enabled(w, CloseFile(p, obj))
    ensures AllCurrent(Next(w, CloseFile(p, obj)))
  {
    if |w.procs| == 1 {
      var q := w.procs[0];
      var fd := q.os.objs[obj].fd;
      if fd in q.os.fds {
        var fds' := q.os.fds - {fd};
        assert q.os.fds[fd] !in fds'.Values;
      } else {
        assert q.os.fds - {fd} == q.os.fds;
      }
    }
  }

  lemma CurrentDup(w: World, p: Pid, m: MemberId, env: Reinit, dupFails: bool)
    requires Inv(w) && AllCurrent(w) && Enabled(w, Dup(p, m, env, dupFails))
    ensures AllCurrent(Next(w, Dup(p, m, env, dupFails)))
  {
    CheckWF(NewcomerView(w, p, m), w.kind, env);
    CopyInsts(NewcomerView(w, p, m), w.kind, env, dupFails);
  }

  lemma CurrentOpen(w: World, p: Pid, fd: Fd)
    requires Inv(w) && AllCurrent(w) && Enabled(w, OpenFile(p, fd))
    ensures AllCurrent(Next(w, OpenFile(p, fd)))
  {
  }

  lemma CurrentStep(w: World, s: Step)
    requires Inv(w) && AllCurrent(w) && |w.procs| >= 1
    ensures AllCurrent(Next(w, s))
  {
    if Enabled(w, s) {
      match s
      case Request(p, m, req, env) => CurrentRequest(w, p, m, req, env);
      case CloseFile(p, obj) => CurrentClose(w, p, obj);
      case Dup(p, m, env, dupFails) => CurrentDup(w, p, m, env, dupFails);
      case OpenFile(p, fd) => CurrentOpen(w, p, fd);
      case Fork(p) =>
      case Close(p, m) =>
      case AliasFile(p, fd) =>
      case Deliver(i, k) =>
      case Collect(p, h) =>
    }
  }

  /** Without forks, closing a descriptor drops the last reference to its file, so everything an
      interest list holds is deliverable in the sense that retention asks for. */
  lemma {:induction false} UnforkedEntriesAreCurrent(steps: seq<Step>)
    ensures |After(EpollKind, steps).procs| >= 1 && AllCurrent(After(EpollKind, steps))
  {
    if steps != [] {
      UnforkedEntriesAreCurrent(steps[..|steps| - 1]);
      RunKeeps(EpollKind, steps[..|steps| - 1]);
      CurrentStep(After(EpollKind, steps[..|steps| - 1]), steps[|steps| - 1]);
      ProcsGrow(After(EpollKind, steps[..|steps| - 1]), steps[|steps| - 1]);
    }
  }

  // ----------------------------------------- slots and entries name objects of their descriptor

  ghost predicate SlotsNamed(q: Proc) {
    forall fd :: fd in q.sh.marks ==> q.sh.marks[fd] < |q.os.objs| && q.os.objs[q.sh.marks[fd]].fd == fd
  }

  ghost predicate EntriesNamed(t: Interest, objs: seq<Io>) {
    forall k :: k in t ==> t[k].obj < |objs| && objs[t[k].obj].fd == k.fd
  }

  ghost predicate Named(w: World) {
    && (forall p :: 0 <= p < |w.procs| ==> SlotsNamed(w.procs[p]))
    && (forall i :: 0 <= i < |w.insts| ==>
          && w.insts[i].creator < |w.procs|
          && EntriesNamed(w.insts[i].interest, w.procs[w.insts[i].creator].os.objs))
  }

  /** Objects are never renumbered and keep their descriptor. */
  ghost predicate Longer(objs: seq<Io>, objs': seq<Io>) {
    |objs| <= |objs'| && forall o :: 0 <= o < |objs| ==> objs'[o].fd == objs[o].fd
  }

  /** A view-level form of the same, for the process `v.pid`. */
  ghost predicate NamedIn(v: View, objs: seq<Io>) {
    && (forall fd :: fd in v.sh.marks ==> v.sh.marks[fd] < |objs| && objs[v.sh.marks[fd]].fd == fd)
    && (forall i :: 0 <= i < |v.insts| && v.insts[i].creator == v.pid ==> EntriesNamed(v.insts[i].interest, objs))
  }

  /** Instances of other processes are left alone, and new ones belong to `v.pid`. */
  ghost predicate OwnChange(v: View, r: View) {
    && |v.insts| <= |r.insts|
    && (forall i :: 0 <= i < |v.insts| ==> r.insts[i].creator == v.insts[i].creator)
    && (forall i :: 0 <= i < |v.insts| && v.insts[i].creator != v.pid ==> r.insts[i] == v.insts[i])
    && (forall i :: |v.insts| <= i < |r.insts| ==> r.insts[i].creator == v.pid)
  }

  lemma NamedCheck(v: View, kind: Kind, env: Reinit)
    requires v.WF() && NamedIn(v, v.os.objs)
    ensures
      var c := Check(v, kind, env).view;
      c.pid == v.pid && c.os.objs == v.os.objs && NamedIn(c, v.os.objs) && OwnChange(v, c)
  {
  }

  lemma NamedWrite(c: View, obj: Obj, mask: Mask)
    requires c.WF() && Usable(c, obj) && NamedIn(c, c.os.objs)
    ensures NamedIn(Register(c, obj, mask), c.os.objs)
  {
    var r, fd := Register(c, obj, mask), c.os.objs[obj].fd;
    assert r.sh.marks == c.sh.marks[fd := obj];
    assert EntriesNamed(c.Interest(), c.os.objs) ==> EntriesNamed(r.insts[c.Inst()].interest, c.os.objs);
  }

  lemma NamedErase(c: View, obj: Obj)
    requires c.WF() && Usable(c, obj) && NamedIn(c, c.os.objs)
    ensures NamedIn(Unregister(c, obj), c.os.objs)
  {
    var r, fd := Unregister(c, obj), c.os.objs[obj].fd;
    assert r.sh.marks == c.sh.marks - {fd};
    assert EntriesNamed(c.Interest(), c.os.objs) ==> EntriesNamed(r.insts[c.Inst()].interest, c.os.objs);
  }

  lemma NamedShape(v: View, c: Checked, r: View, req: Req)
    requires v.WF() && c.view.pid == v.pid && c.view.os.objs == v.os.objs
    requires NamedIn(v, v.os.objs) && NamedIn(c.view, v.os.objs) && OwnChange(v, c.view)
    requires c.ok && c.view.WF() && c.view.IsOpen() ==> c.view.insts[c.view.Inst()].creator == v.pid
    requires Shape(v, c, r, req)
    ensures r.pid == v.pid && r.os.objs == v.os.objs && NamedIn(r, v.os.objs) && OwnChange(v, r)
  {
    if r != v && r != c.view {
      if req.Writes() {
        NamedWrite(c.view, req.obj, req.mask);
      } else {
        NamedErase(c.view, req.obj);
      }
    }
  }

  /** Back to the world: one process changed its view and only its own instances. */
  lemma NamedPut(w: World, p: Pid, m: MemberId, r: View)
    requires Named(w) && p < |w.procs| && m < |w.procs[p].members| && r.pid == p
    requires r.os.objs == w.procs[p].os.objs && NamedIn(r, r.os.objs) && OwnChange(ViewOf(w, p, m), r)
    ensures Named(Put(w, p, m, r))
  {
  }

  lemma NamedRequest(w: World, p: Pid, m: MemberId, req: Req, env: Env)
    requires Inv(w) && Named(w) && Enabled(w, Request(p, m, req, env))
    ensures Named(Next(w, Request(p, m, req, env)))
  {
    var v := ViewOf(w, p, m);
    assert ProcInv(w.kind, w.insts, w.nextFile, p, w.procs[p]);
    assert Active(w.procs[p], p, m) ==> w.insts[InstOf(w.procs[p], m)].creator == p;
    assert SlotsNamed(w.procs[p]);
    CheckIsolates(v, w.kind, env.reinit);
    NamedCheck(v, w.kind, env.reinit);
    CallShape(v, w.kind, req, env);
    NamedShape(v, Check(v, w.kind, env.reinit), Perform(v, w.kind, req, env).view, req);
    NamedPut(w, p, m, Perform(v, w.kind, req, env).view);
  }

  ghost predicate SameObjects(t: Interest, t': Interest) {
    forall k :: k in t' ==> k in t && t'[k].obj == t[k].obj
  }

  /** Steps that touch one process without registering: its objects only grow, its slots may be emptied. */
  lemma NamedProc(w: World, w': World, p: Pid)
    requires Named(w) && p < |w.procs| && |w'.procs| == |w.procs| && w'.procs == w.procs[p := w'.procs[p]]
    requires Longer(w.procs[p].os.objs, w'.procs[p].os.objs)
    requires w'.procs[p].sh.marks == w.procs[p].sh.marks || w'.procs[p].sh.marks == map[]
    requires w'.insts == w.insts || w'.insts == w.insts + [Inst(p, map[])]
    ensures Named(w')
  {
    forall i | 0 <= i < |w.insts|
      ensures EntriesNamed(w.insts[i].interest, w'.procs[w.insts[i].creator].os.objs)
    {
      assert EntriesNamed(w.insts[i].interest, w.procs[w.insts[i].creator].os.objs);
    }
    assert SlotsNamed(w.procs[p]);
  }

  /** Steps that only drop or disarm entries. */
  lemma NamedInsts(w: World, insts': seq<Inst>)
    requires Named(w) && |insts'| == |w.insts|
    requires forall i :: 0 <= i < |w.insts| ==>
               insts'[i].creator == w.insts[i].creator && SameObjects(w.insts[i].interest, insts'[i].interest)
    ensures Named(w.(insts := insts'))
  {
  }

  lemma CopyCallMarks(v: View, kind: Kind, env: Reinit, dupFails: bool)
    requires v.WF()
    ensures
      var c := CopyCall(v, kind, env, dupFails).view;
      c.os.objs == v.os.objs && (c.sh.marks == v.sh.marks || c.sh.marks == map[])
  {
  }

  lemma NamedDup(w: World, p: Pid, m: MemberId, env: Reinit, dupFails: bool)
    requires Named(w) && Enabled(w, Dup(p, m, env, dupFails))
    ensures Named(Next(w, Dup(p, m, env, dupFails)))
  {
    CopyCallMarks(NewcomerView(w, p, m), w.kind, env, dupFails);
    CopyInsts(NewcomerView(w, p, m), w.kind, env, dupFails);
    NamedProc(w, Next(w, Dup(p, m, env, dupFails)), p);
  }

  lemma NamedFork(w: World, p: Pid)
    requires Named(w) && WF(w) && p < |w.procs|
    ensures Named(Next(w, Fork(p)))
  {
    var w' := Next(w, Fork(p));
    assert forall r :: 0 <= r < |w.procs| ==> w'.procs[r] == w.procs[r];
    assert SlotsNamed(w.procs[p]);
  }

  lemma NamedCloseFile(w: World, p: Pid, obj: Obj)
    requires Named(w) && p < |w.procs| && obj < |w.procs[p].os.objs|
    ensures Named(AfterClose(w, p, obj))
  {
    var w' := AfterClose(w, p, obj);
    NamedProc(w, w'.(insts := w.insts), p);
    NamedInsts(w'.(insts := w.insts), w'.insts);
  }

  lemma NamedStep(w: World, s: Step)
    requires Inv(w) && Named(w)
    ensures Named(Next(w, s))
  {
    if Enabled(w, s) {
      match s
      case Request(p, m, req, env) => NamedRequest(w, p, m, req, env);
      case Fork(p) => NamedFork(w, p);
      case Dup(p, m, env, dupFails) => NamedDup(w, p, m, env, dupFails);
      case CloseFile(p, obj) => NamedCloseFile(w, p, obj);
      case Deliver(i, k) => NamedInsts(w, Next(w, s).insts);
      case Close(p, m) => NamedProc(w, Next(w, s), p);
      case OpenFile(p, fd) => NamedProc(w, Next(w, s), p);
      case AliasFile(p, fd) => NamedProc(w, Next(w, s), p);
      case Collect(p, h) => NamedProc(w, Next(w, s), p);
    }
  }

  /** After every run, every slot names an object of its descriptor, and so does every kernel entry, in
      the process that created the instance. */
  lemma {:induction false} NamedRun(kind: Kind, steps: seq<Step>)
    ensures Named(After(kind, steps))
  {
    if steps != [] {
      NamedRun(kind, steps[..|steps| - 1]);
      RunKeeps(kind, steps[..|steps| - 1]);
      NamedStep(After(kind, steps[..|steps| - 1]), steps[|steps| - 1]);
    }
  }
}
