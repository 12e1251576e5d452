/** The Epoll class as it is written: objects that update @io, @pid and the arrays they share with
    their dups.  Every method is proved against its function in EpollModel, about which the runs are. */
module EpollObject {
  import opened EpollModel

  class Kernel {
    var insts: seq<Inst>
  }

  class Process {
    const pid: Pid
    const kernel: Kernel
    var fds: map<Fd, File>
    var objs: seq<Io>
    var handles: seq<Handle>

    constructor (pid: Pid, kernel: Kernel)
      ensures this.pid == pid && this.kernel == kernel && fds == map[] && objs == [] && handles == []
    {
      this.pid, this.kernel := pid, kernel;
      fds, objs, handles := map[], [], [];
    }

    /** Epoll::IO.new: a new kernel instance and a handle on it. */
    method NewHandle() returns (h: IoId)
      modifies `handles, kernel
      ensures h == |old(handles)|
      ensures handles == old(handles) + [Open(|old(kernel.insts)|)]
      ensures kernel.insts == old(kernel.insts) + [Inst(pid, map[])]
    {
      h := |handles|;
      handles := handles + [Open(|kernel.insts|)];
      kernel.insts := kernel.insts + [Inst(pid, map[])];
    }

    /** objects.each: a fresh dup of @io for every object, until a dup fails. */
    method RedupCopies(caches: Caches, io: IoId, objects: seq<Copy>, failAfter: nat) returns (ok: bool)
      requires io < |handles| && caches.copies == []
      modifies `handles, caches`copies
      ensures ok == (failAfter >= |objects|)
      ensures
        var n := if ok then |objects| else failAfter;
        && handles == old(handles) + Repeat(old(handles)[io], n)
        && caches.copies == Redup(objects, n, |old(handles)|)
    {
      var i := 0;
      while i < |objects|
        invariant 0 <= i <= |objects| && (i <= failAfter || failAfter >= |objects|)
        invariant handles == old(handles) + Repeat(old(handles)[io], i)
        invariant caches.copies == Redup(objects, i, |old(handles)|)
      {
        if failAfter == i { return false; }
        caches.copies := caches.copies + [Copy(|handles|, objects[i].owner)];
        handles := handles + [handles[io]];
        i := i + 1;
      }
      return true;
    }

    /** IO#dup of an open handle, entered in @copies for `self`. */
    method DupHandle(caches: Caches, io: IoId, self: MemberId) returns (h: IoId)
      requires io < |handles|
      modifies `handles, caches`copies
      ensures h == |old(handles)| && handles == old(handles) + [old(handles)[io]]
      ensures caches.copies == old(caches.copies) + [Copy(h, self)]
    {
      h := |handles|;
      handles := handles + [handles[io]];
      caches.copies := caches.copies + [Copy(h, self)];
    }

    /** The body of `close`: out of @copies, then closed; IO#close raises on a closed handle. */
    method CloseHandle(caches: Caches, io: IoId) returns (out: Outcome)
      requires io < |handles|
      modifies `handles, caches`copies
      ensures caches.copies == Without(old(caches.copies), io) && handles == old(handles)[io := Closed]
      ensures out == if old(handles)[io].Closed? then Raise(IOError) else Nil
    {
      caches.copies := Without(caches.copies, io);
      if handles[io].Closed? { return Raise(IOError); }
      handles := handles[io := Closed];
      out := Nil;
    }
  }

  /** The arrays and the hash that all dups of one Epoll object share. */
  class Caches {
    var events: map<Fd, Mask>
    var marks: map<Fd, Obj>
    var copies: seq<Copy>

    constructor ()
      ensures events == map[] && marks == map[] && copies == []
    {
      events, marks, copies := map[], map[], [];
    }
  }

  class Epoll {
    const self: MemberId
    const proc: Process
    const caches: Caches
    var io: IoId
    var pid: Pid

    ghost function See(): View
      reads this, proc, proc.kernel, caches
    {
      View(proc.pid, self, Os(proc.fds, proc.objs, proc.handles), proc.kernel.insts,
           Shared(caches.events, caches.marks, caches.copies), Member(io, pid))
    }

    /** Epoll.new */
    constructor (proc: Process, self: MemberId)
      modifies proc`handles, proc.kernel
      ensures this.proc == proc && this.self == self && fresh(caches)
      ensures
        var h := |old(proc.handles)|;
        See() == View(proc.pid, self, Os(proc.fds, proc.objs, old(proc.handles) + [Open(|old(proc.kernel.insts)|)]),
                      old(proc.kernel.insts) + [Inst(proc.pid, map[])],
                      Shared(map[], map[], [Copy(h, self)]), Member(h, proc.pid))
    {
      var h := proc.NewHandle();
      var c := new Caches();
      this.proc, this.self, caches := proc, self, c;
      io, pid := h, proc.pid;
      new;
      caches.copies := [Copy(io, self)];
    }

    /** The object that `dup` allocates: instance variables copied, initialize_copy still to run. */
    constructor Allocate(src: Epoll, self: MemberId)
      ensures proc == src.proc && caches == src.caches && this.self == self && io == src.io && pid == src.pid
    {
      this.proc, this.caches, this.self, io, pid := src.proc, src.caches, self, src.io, src.pid;
    }

    method EpollCtl(op: Op, obj: Obj, mask: Mask, fault: bool) returns (out: Outcome)
      requires See().WF() && obj < |proc.objs| && !op.EpollWait?
      modifies proc.kernel
      ensures out == Ctl(old(See()), op, obj, mask, fault).out
      ensures See() == Ctl(old(See()), op, obj, mask, fault).view
    {
      var handle := proc.handles[io];
      if handle.Closed? || proc.objs[obj].closed { return Raise(IOError); }
      var fd := proc.objs[obj].fd;
      if fd !in proc.fds { return Raise(EBADF); }
      if fault { return Raise(EOTHER); }
      var inst := proc.kernel.insts[handle.inst];
      var key := Key(proc.fds[fd], fd);
      out := CtlError(inst.interest, op, key);
      if !out.Raise? {
        proc.kernel.insts := proc.kernel.insts[handle.inst :=
          inst.(interest := CtlStore(inst.interest, op, key, Entry(obj, mask, true)))];
      }
    }

    /** __ep_check, with __ep_reinit in the middle. */
    method CheckFork(env: Reinit) returns (ok: bool)
      requires See().WF()
      modifies this, proc`handles, proc.kernel, caches
      ensures ok == Check(old(See()), EpollKind, env).ok
      ensures See() == Check(old(See()), EpollKind, env).view && See().WF()
    {
      ghost var v := See();
      CheckWF(v, EpollKind, env);
      if pid == proc.pid || proc.handles[io].Closed? { return true; }
      var objects := caches.copies;
      CloseCopies(objects);
      caches.copies := [];
      caches.events, caches.marks := map[], map[];
      if env.NewFails? { return false; }
      io := proc.NewHandle();
      ok := proc.RedupCopies(caches, io, objects, if env.DupFails? then env.after else |objects|);
      if ok { pid := proc.pid; }
    }

    /** @copies.each_key(&:close) */
    method CloseCopies(objects: seq<Copy>)
      requires forall c :: c in objects ==> c.io < |proc.handles|
      modifies proc`handles
      ensures proc.handles == CloseAll(old(proc.handles), Keys(objects))
    {
      var i := 0;
      while i < |objects|
        invariant 0 <= i <= |objects|
        invariant proc.handles == CloseAll(old(proc.handles), Keys(objects[..i]))
      {
        assert objects[..i + 1] == objects[..i] + [objects[i]];
        assert Keys(objects[..i + 1]) == Keys(objects[..i]) + {objects[i].io};
        assert objects[i] in objects;
        proc.handles := proc.handles[objects[i].io := Closed];
        i := i + 1;
      }
      assert objects[..i] == objects;
    }

    method Add(obj: Obj, mask: Mask, env: Env) returns (out: Outcome)
      requires See().WF() && obj < |proc.objs|
      modifies this, proc`handles, proc.kernel, caches
      ensures out == AddCall(old(See()), obj, mask, env).out
      ensures See() == AddCall(old(See()), obj, mask, env).view
    {
      if proc.objs[obj].closed { return Raise(IOError); }
      var fd := proc.objs[obj].fd;
      var ok := CheckFork(env.reinit);
      if !ok { return Raise(EOTHER); }
      out := EpollCtl(CtlAdd, obj, mask, env.fault1);
      if out.Raise? { return; }
      caches.events := caches.events[fd := mask];
      caches.marks := caches.marks[fd := obj];
      out := Zero;
    }

    method Mod(obj: Obj, mask: Mask, env: Env) returns (out: Outcome)
      requires See().WF() && obj < |proc.objs|
      modifies this, proc`handles, proc.kernel, caches
      ensures out == ModCall(old(See()), obj, mask, env).out
      ensures See() == ModCall(old(See()), obj, mask, env).view
    {
      if proc.objs[obj].closed { return Raise(IOError); }
      var fd := proc.objs[obj].fd;
      var ok := CheckFork(env.reinit);
      if !ok { return Raise(EOTHER); }
      out := EpollCtl(CtlMod, obj, mask, env.fault1);
      if out.Raise? { return; }
      caches.marks := caches.marks[fd := obj];
      caches.events := caches.events[fd := mask];
      out := Num(mask);
    }

    method Del(obj: Obj, env: Env) returns (out: Outcome)
      requires See().WF() && obj < |proc.objs|
      modifies this, proc`handles, proc.kernel, caches
      ensures out == DelCall(old(See()), obj, env).out
      ensures See() == DelCall(old(See()), obj, env).view
    {
      if proc.objs[obj].closed { return Raise(IOError); }
      var fd := proc.objs[obj].fd;
      var ok := CheckFork(env.reinit);
      if !ok { return Raise(EOTHER); }
      out := EpollCtl(CtlDel, obj, 0, env.fault1);
      if out.Raise? { return; }
      caches.events, caches.marks := caches.events - {fd}, caches.marks - {fd};
      out := Zero;
    }

    method Delete(obj: Obj, env: Env) returns (out: Outcome)
      requires See().WF() && obj < |proc.objs|
      modifies this, proc`handles, proc.kernel, caches
      ensures out == DeleteCall(old(See()), obj, env).out
      ensures See() == DeleteCall(old(See()), obj, env).view
    {
      if proc.objs[obj].closed { return Raise(IOError); }
      var fd := proc.objs[obj].fd;
      var ok := CheckFork(env.reinit);
      if !ok { return Raise(EOTHER); }
      if fd !in caches.marks || proc.objs[caches.marks[fd]].closed { return Nil; }
      out := EpollCtl(CtlDel, obj, 0, env.fault1);
      if out == Raise(ENOENT) || out == Raise(EBADF) { return Nil; }
      if out.Raise? { return; }
      caches.events, caches.marks := caches.events - {fd}, caches.marks - {fd};
      out := Ref(obj);
    }

    /** The system calls of `set`: what the cache suggests first, the other one if the cache was wrong. */
    method ModOrAdd(obj: Obj, mask: Mask, env: Env) returns (out: Outcome)
      requires See().WF() && obj < |proc.objs|
      modifies proc.kernel
      ensures out == SetCtl(old(See()), obj, mask, env).out
      ensures See() == SetCtl(old(See()), obj, mask, env).view
    {
      var fd := proc.objs[obj].fd;
      if fd in caches.marks && caches.marks[fd] == obj {
        out := EpollCtl(CtlMod, obj, mask, env.fault1);
        if out == Raise(ENOENT) {
          out := EpollCtl(CtlAdd, obj, mask, env.fault2);
        }
      } else {
        out := EpollCtl(CtlAdd, obj, mask, env.fault1);
        if out == Raise(EEXIST) {
          out := EpollCtl(CtlMod, obj, mask, env.fault2);
        }
      }
    }

    method Set(obj: Obj, mask: Mask, env: Env) returns (out: Outcome)
      requires See().WF() && obj < |proc.objs|
      modifies this, proc`handles, proc.kernel, caches
      ensures out == SetCall(old(See()), obj, mask, env).out
      ensures See() == SetCall(old(See()), obj, mask, env).view
    {
      if proc.objs[obj].closed { return Raise(IOError); }
      var fd := proc.objs[obj].fd;
      var ok := CheckFork(env.reinit);
      if !ok { return Raise(EOTHER); }
      if fd in caches.marks && caches.marks[fd] == obj {
        if fd in caches.events && !Oneshot(caches.events[fd]) && caches.events[fd] == mask { return Zero; }
      }
      out := ModOrAdd(obj, mask, env);
      if out.Raise? { return; }
      caches.marks := caches.marks[fd := obj];
      caches.events := caches.events[fd := mask];
      out := Zero;
    }

    /** The first half of `wait`: the snapshot of the marked objects, and the system call to sleep in. */
    method StartWait(env: Env) returns (out: Outcome, snapshot: set<Obj>, sys: seq<Sys>)
      requires See().WF()
      modifies this, proc`handles, proc.kernel, caches
      ensures out == WaitCall(old(See()), EpollKind, env).out
      ensures See() == WaitCall(old(See()), EpollKind, env).view
      ensures sys == WaitCall(old(See()), EpollKind, env).trace
      ensures !out.Raise? ==> snapshot == caches.marks.Values
    {
      snapshot, sys := {}, [];
      var ok := CheckFork(env.reinit);
      if !ok { return Raise(EOTHER), snapshot, sys; }
      snapshot := caches.marks.Values;
      if proc.handles[io].Closed? { return Raise(IOError), snapshot, sys; }
      out, sys := Nil, [Sys(EpollWait, proc.handles[io].inst)];
    }

    method IoFor(fd: Fd, env: Env) returns (out: Outcome)
      requires See().WF()
      modifies this, proc`handles, proc.kernel, caches
      ensures out == LookupCall(old(See()), fd, env).out
      ensures See() == LookupCall(old(See()), fd, env).view
    {
      var ok := CheckFork(env.reinit);
      if !ok { return Raise(EOTHER); }
      out := if fd in caches.marks then Ref(caches.marks[fd]) else Nil;
    }

    method CloseHandle() returns (out: Outcome)
      requires See().WF()
      modifies proc`handles, caches`copies
      ensures out == CloseCall(old(See())).out
      ensures See() == CloseCall(old(See())).view
    {
      out := proc.CloseHandle(caches, io);
    }

    method InitializeCopy(env: Reinit, dupFails: bool) returns (ok: bool)
      requires See().WF()
      modifies this, proc`handles, proc.kernel, caches
      ensures ok == CopyCall(old(See()), EpollKind, env, dupFails).ok
      ensures See() == CopyCall(old(See()), EpollKind, env, dupFails).view
    {
      ok := CheckFork(env);
      if !ok || proc.handles[io].Closed? { return; }
      if dupFails { return false; }
      io := proc.DupHandle(caches, io, self);
    }

    /** Object#dup: a second Epoll object on the same instance, sharing the caches. */
    method Dup(newSelf: MemberId, env: Reinit, dupFails: bool) returns (ok: bool, copy: Epoll)
      requires See().WF()
      modifies proc`handles, proc.kernel, caches
      ensures fresh(copy) && copy.proc == proc && copy.caches == caches
      ensures ok == CopyCall(old(See()).(self := newSelf), EpollKind, env, dupFails).ok
      ensures copy.See() == CopyCall(old(See()).(self := newSelf), EpollKind, env, dupFails).view
      ensures io == old(io) && pid == old(pid)
    {
      copy := new Epoll.Allocate(this, newSelf);
      ok := copy.InitializeCopy(env, dupFails);
    }
  }
}
