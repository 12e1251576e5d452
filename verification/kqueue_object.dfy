/** The Kqueue class as it is written.  Its fork check differs from Epoll's in one policy: handles
    inherited from the parent are not closed, they only lose autoclose. */
module KqueueObject {
  import opened EpollModel
  import opened EpollObject

  class Kqueue {
    const self: MemberId
    const proc: Process
    const caches: Caches   // only @copies is used
    var io: IoId
    var pid: Pid

    ghost function See(): View
      reads this, proc, proc.kernel, caches
    {
      View(proc.pid, self, Os(proc.fds, proc.objs, proc.handles), proc.kernel.insts,
           Shared(caches.events, caches.marks, caches.copies), Member(io, pid))
    }

    ghost predicate NoSlots()
      reads caches
    {
      caches.events == map[] && caches.marks == map[]
    }

    /** Kqueue.new */
    constructor (proc: Process, self: MemberId)
      modifies proc`handles, proc.kernel
      ensures this.proc == proc && this.self == self && fresh(caches) && NoSlots()
      ensures
        var h := |old(proc.handles)|;
        See() == View(proc.pid, self, Os(proc.fds, proc.objs, old(proc.handles) + [Open(|old(proc.kernel.insts)|)]),
                      old(proc.kernel.insts) + [Inst(proc.pid, map[])],
                      Shared(map[], map[], [Copy(h, self)]), Member(h, proc.pid))
    {
      var h := proc.NewHandle();
      var c := new Caches();
      this.proc, this.self, caches := proc, self, c;
      io, pid := h, proc.pid;
      new;
      caches.copies := [Copy(io, self)];
    }

    /** __kq_check with __kq_reinit */
    method CheckFork(env: Reinit) returns (ok: bool)
      requires See().WF() && NoSlots()
      modifies this, proc`handles, proc.kernel, caches`copies
      ensures ok == Check(old(See()), KqueueKind, env).ok
      ensures See() == Check(old(See()), KqueueKind, env).view && See().WF()
    {
      ghost var v := See();
      CheckWF(v, KqueueKind, env);
      if pid == proc.pid || proc.handles[io].Closed? { return true; }
      var objects := caches.copies;
      caches.copies := [];
      if env.NewFails? { return false; }
      io := proc.NewHandle();
      ok := proc.RedupCopies(caches, io, objects, if env.DupFails? then env.after else |objects|);
      if ok { pid := proc.pid; }
    }

    /** `kevent` up to the system call on @io. */
    method StartKevent(env: Env) returns (out: Outcome, sys: seq<Sys>)
      requires See().WF() && NoSlots()
      modifies this, proc`handles, proc.kernel, caches`copies
      ensures out == WaitCall(old(See()), KqueueKind, env).out
      ensures See() == WaitCall(old(See()), KqueueKind, env).view
      ensures sys == WaitCall(old(See()), KqueueKind, env).trace
    {
      sys := [];
      var ok := CheckFork(env.reinit);
      if !ok { return Raise(EOTHER), sys; }
      if proc.handles[io].Closed? { return Raise(IOError), sys; }
      out, sys := Nil, [Sys(EpollWait, proc.handles[io].inst)];
    }

    method InitializeCopy(env: Reinit, dupFails: bool) returns (ok: bool)
      requires See().WF() && NoSlots()
      modifies this, proc`handles, proc.kernel, caches`copies
      ensures ok == CopyCall(old(See()), KqueueKind, env, dupFails).ok
      ensures See() == CopyCall(old(See()), KqueueKind, env, dupFails).view
    {
      ok := CheckFork(env);
      if !ok || proc.handles[io].Closed? { return; }
      if dupFails { return false; }
      io := proc.DupHandle(caches, io, self);
    }

    method CloseHandle() returns (out: Outcome)
      requires See().WF()
      modifies proc`handles, caches`copies
      ensures out == CloseCall(old(See())).out
      ensures See() == CloseCall(old(See())).view
    {
      out := proc.CloseHandle(caches, io);
    }
  }

  // --------------------------------------------------------------- udata translation

  /** A Kevent struct: five numbers and a sixth slot that holds an object, or the id of one. */
  class KeventStruct {
    var fields: seq<int>
    var udata: nat

    constructor (fields: seq<int>, udata: nat)
      ensures this.fields == fields && this.udata == udata
    {
      this.fields, this.udata := fields, udata;
    }
  }

  /** object_id: an injective numbering of objects, given as the table of live objects. */
  ghost predicate Injective(ids: map<nat, nat>) {
    forall a, b :: a in ids && b in ids && ids[a] == ids[b] ==> a == b
  }

  ghost predicate HasId(ids: map<nat, nat>, id: nat) {
    exists o :: o in ids && ids[o] == id
  }

  /** ObjectSpace._id2ref */
  ghost function IdToRef(ids: map<nat, nat>, id: nat): nat
    requires HasId(ids, id)
  {
    var o :| o in ids && ids[o] == id; o
  }

  lemma IdRoundTrip(ids: map<nat, nat>, o: nat)
    requires Injective(ids) && o in ids
    ensures HasId(ids, ids[o]) && IdToRef(ids, ids[o]) == o
  {
  }

  /** The changelist that goes to the kernel holds copies with object ids, in order; the structs of the
      caller keep their objects; and every id leads back to the object it came from. */
  method TranslateUdata(changelist: seq<KeventStruct>, ids: map<nat, nat>) returns (out: seq<KeventStruct>)
    requires Injective(ids) && forall i :: 0 <= i < |changelist| ==> changelist[i].udata in ids
    ensures |out| == |changelist| && fresh(set c | c in out)
    ensures forall i :: 0 <= i < |changelist| ==>
              && out[i].fields == changelist[i].fields
              && HasId(ids, out[i].udata)
              && IdToRef(ids, out[i].udata) == changelist[i].udata
  {
    out := [];
    var i := 0;
    while i < |changelist|
      invariant 0 <= i <= |changelist| && |out| == i
      invariant forall k :: 0 <= k < i ==> fresh(out[k]) && out[k].fields == changelist[k].fields
                                           && out[k].udata == ids[changelist[k].udata]
    {
      var item := new KeventStruct(changelist[i].fields, ids[changelist[i].udata]);
      out := out + [item];
      i := i + 1;
    }
    forall k | 0 <= k < |changelist|
      ensures HasId(ids, out[k].udata) && IdToRef(ids, out[k].udata) == changelist[k].udata
    {
      IdRoundTrip(ids, changelist[k].udata);
    }
  }
}
