/** The Epoll object as a cache over the kernel's interest lists.

    One call on one Epoll object is a function from the `View` that the call can see
    (its process, the kernel's epoll instances, the arrays shared by all dups of the
    object, and the receiver's own @io and @pid) to a new `View`, an outcome and the
    list of system calls it issued.  Everything nondeterministic (a failing system
    call, a descriptor shortage during re-initialisation) is an argument. */
module EpollModel {

  type Pid = nat       // process ids are never reused: a pid is an index into the process tree
  type Fd = nat
  type File = nat      // an open file description
  type Obj = nat       // a watched Ruby IO object, as an index into the process's objects
  type EpId = nat      // a kernel epoll (or kqueue) instance
  type IoId = nat      // an Epoll::IO / Kqueue::IO handle, as an index into the process's handles
  type MemberId = nat  // an Epoll / Kqueue object of one dup family

  const ONESHOT: nat := 0x4000_0000
  type Mask = m: nat | m < 0x1_0000_0000

  predicate Oneshot(m: Mask) {
    (m / ONESHOT) % 2 == 1
  }

  // ---------------------------------------------------------------- kernel

  datatype Key = Key(file: File, fd: Fd)
  datatype Entry = Entry(obj: Obj, mask: Mask, armed: bool)
  type Interest = map<Key, Entry>
  datatype Inst = Inst(creator: Pid, interest: Interest)

  datatype Op = CtlAdd | CtlMod | CtlDel | EpollWait
  datatype Sys = Sys(op: Op, inst: EpId)

  datatype Error = IOError | ENOENT | EEXIST | EBADF | EOTHER
  datatype Outcome = Zero | Nil | Ref(obj: Obj) | Num(mask: Mask) | Raise(error: Error)

  /** epoll_ctl(2) on one interest list: what it refuses, and what it stores. */
  function CtlError(t: Interest, op: Op, k: Key): Outcome {
    match op
    case CtlAdd => if k in t then Raise(EEXIST) else Nil
    case CtlMod => if k in t then Nil else Raise(ENOENT)
    case CtlDel => if k in t then Nil else Raise(ENOENT)
    case EpollWait => Nil
  }

  function CtlStore(t: Interest, op: Op, k: Key, e: Entry): Interest {
    match op
    case CtlAdd => t[k := e]
    case CtlMod => t[k := e]
    case CtlDel => t - {k}
    case EpollWait => t
  }

  // ------------------------------------------------------------- userspace

  datatype Io = Io(fd: Fd, closed: bool)
  datatype Handle = Open(inst: EpId) | Closed
  datatype Copy = Copy(io: IoId, owner: MemberId)

  /** What the process owns: its descriptor table, its IO objects and its epoll handles. */
  datatype Os = Os(fds: map<Fd, File>, objs: seq<Io>, handles: seq<Handle>)

  /** @events, @marks and @copies: one triple for a whole dup family.  An absent key is a nil slot. */
  datatype Shared = Shared(events: map<Fd, Mask>, marks: map<Fd, Obj>, copies: seq<Copy>)

  /** @io and @pid: one pair for each Epoll object. */
  datatype Member = Member(io: IoId, pid: Pid)

  datatype View = View(pid: Pid, self: MemberId, os: Os, insts: seq<Inst>, sh: Shared, me: Member) {
    ghost predicate WF() {
      && me.io < |os.handles|
      && (forall h :: 0 <= h < |os.handles| && os.handles[h].Open? ==> os.handles[h].inst < |insts|)
      && (forall c :: c in sh.copies ==> c.io < |os.handles|)
      && (forall fd :: fd in sh.marks ==> sh.marks[fd] < |os.objs|)
    }

    predicate IsOpen()
      requires me.io < |os.handles|
    {
      os.handles[me.io].Open?
    }

    function Inst(): EpId
      requires me.io < |os.handles| && IsOpen()
    {
      os.handles[me.io].inst
    }

    function Interest(): Interest
      requires WF() && IsOpen()
    {
      insts[Inst()].interest
    }

    /** The kernel key that a system call on `obj` addresses. */
    function KeyOf(obj: Obj): Key
      requires obj < |os.objs| && os.objs[obj].fd in os.fds
    {
      Key(os.fds[os.objs[obj].fd], os.objs[obj].fd)
    }

    function WithInterest(t: Interest): View
      requires WF() && IsOpen()
    {
      this.(insts := insts[Inst() := insts[Inst()].(interest := t)])
    }
  }

  datatype Call = Call(view: View, out: Outcome, trace: seq<Sys>)

  /** Epoll::IO#epoll_ctl.  `fault` is a kernel refusal other than ENOENT, EEXIST and EBADF. */
  function Ctl(v: View, op: Op, obj: Obj, mask: Mask, fault: bool): Call
    requires v.WF() && obj < |v.os.objs| && !op.EpollWait?
  {
    if !v.IsOpen() || v.os.objs[obj].closed then
      Call(v, Raise(IOError), [])
    else if v.os.objs[obj].fd !in v.os.fds then
      Call(v, Raise(EBADF), [Sys(op, v.Inst())])
    else if fault then
      Call(v, Raise(EOTHER), [Sys(op, v.Inst())])
    else
      var refusal := CtlError(v.Interest(), op, v.KeyOf(obj));
      if refusal.Raise? then
        Call(v, refusal, [Sys(op, v.Inst())])
      else
        Call(v.WithInterest(CtlStore(v.Interest(), op, v.KeyOf(obj), Entry(obj, mask, true))),
             Nil, [Sys(op, v.Inst())])
  }

  // ---------------------------------------------------- fork re-initialisation

  /** Epoll closes every handle of the family in the child; Kqueue only gives up autoclose. */
  datatype Kind = EpollKind | KqueueKind

  /** Which step of a re-initialisation fails: none, creating the instance, or a dup. */
  datatype Reinit = Fine | NewFails | DupFails(after: nat)

  datatype Env = Env(reinit: Reinit, fault1: bool, fault2: bool)

  datatype Checked = Checked(view: View, ok: bool)

  function Keys(copies: seq<Copy>): set<IoId> {
    set c | c in copies :: c.io
  }

  function CloseAll(handles: seq<Handle>, ids: set<IoId>): seq<Handle> {
    seq(|handles|, h requires 0 <= h < |handles| => if h in ids then Closed else handles[h])
  }

  predicate Stale(v: View)
    requires v.me.io < |v.os.handles|
  {
    v.me.pid != v.pid && v.IsOpen()
  }

  /** The handles that survive the first half of a re-initialisation. */
  function Surviving(v: View, kind: Kind): seq<Handle> {
    if kind.EpollKind? then CloseAll(v.os.handles, Keys(v.sh.copies)) else v.os.handles
  }

  function Redup(copies: seq<Copy>, n: nat, first: IoId): seq<Copy>
    requires n <= |copies|
  {
    seq(n, j requires 0 <= j < n => Copy(first + j, copies[j].owner))
  }

  function Repeat(h: Handle, n: nat): seq<Handle> {
    seq(n, _ => h)
  }

  function DupCount(v: View, env: Reinit): nat {
    if env.DupFails? && env.after < |v.sh.copies| then env.after else |v.sh.copies|
  }

  /** __ep_check and __kq_check. */
  function Check(v: View, kind: Kind, env: Reinit): Checked
    requires v.WF()
  {
    if !Stale(v) then
      Checked(v, true)
    else
      var handles := Surviving(v, kind);
      if env.NewFails? then
        Checked(v.(os := v.os.(handles := handles), sh := Shared(map[], map[], [])), false)
      else
        var n := DupCount(v, env);
        var inst := |v.insts|;
        var done := n == |v.sh.copies|;
        Checked(
          View(v.pid, v.self,
               v.os.(handles := handles + [Open(inst)] + Repeat(Open(inst), n)),
               v.insts + [Inst(v.pid, map[])],
               Shared(map[], map[], Redup(v.sh.copies, n, |handles| + 1)),
               Member(|handles|, if done then v.pid else v.me.pid)),
          done)
  }

  // ------------------------------------------------------------------ calls

  /** What a successful add, mod or set leaves behind: kernel entry and cache slot written together. */
  function Register(v: View, obj: Obj, mask: Mask): View
    requires v.WF() && v.IsOpen() && obj < |v.os.objs| && v.os.objs[obj].fd in v.os.fds
  {
    var fd := v.os.objs[obj].fd;
    v.WithInterest(v.Interest()[v.KeyOf(obj) := Entry(obj, mask, true)]).(sh := Remember(v.sh, fd, obj, mask))
  }

  /** What a successful del or delete leaves behind. */
  function Unregister(v: View, obj: Obj): View
    requires v.WF() && v.IsOpen() && obj < |v.os.objs| && v.os.objs[obj].fd in v.os.fds
  {
    v.WithInterest(v.Interest() - {v.KeyOf(obj)}).(sh := Forget(v.sh, v.os.objs[obj].fd))
  }

  function Forget(sh: Shared, fd: Fd): Shared {
    sh.(events := sh.events - {fd}, marks := sh.marks - {fd})
  }

  function Remember(sh: Shared, fd: Fd, obj: Obj, mask: Mask): Shared {
    sh.(events := sh.events[fd := mask], marks := sh.marks[fd := obj])
  }

  function AddCall(v: View, obj: Obj, mask: Mask, env: Env): Call
    requires v.WF() && obj < |v.os.objs|
  {
    var fd := v.os.objs[obj].fd;
    var c := Check(v, EpollKind, env.reinit);
    if v.os.objs[obj].closed then Call(v, Raise(IOError), [])
    else if !c.ok then Call(c.view, Raise(EOTHER), [])
    else
      var k := (CheckWF(v, EpollKind, env.reinit); Ctl(c.view, CtlAdd, obj, mask, env.fault1));
      if k.out.Raise? then k
      else Call(k.view.(sh := Remember(k.view.sh, fd, obj, mask)), Zero, k.trace)
  }

  function ModCall(v: View, obj: Obj, mask: Mask, env: Env): Call
    requires v.WF() && obj < |v.os.objs|
  {
    var fd := v.os.objs[obj].fd;
    var c := Check(v, EpollKind, env.reinit);
    if v.os.objs[obj].closed then Call(v, Raise(IOError), [])
    else if !c.ok then Call(c.view, Raise(EOTHER), [])
    else
      var k := (CheckWF(v, EpollKind, env.reinit); Ctl(c.view, CtlMod, obj, mask, env.fault1));
      if k.out.Raise? then k
      else Call(k.view.(sh := Remember(k.view.sh, fd, obj, mask)), Num(mask), k.trace)
  }

  function DelCall(v: View, obj: Obj, env: Env): Call
    requires v.WF() && obj < |v.os.objs|
  {
    var fd := v.os.objs[obj].fd;
    var c := Check(v, EpollKind, env.reinit);
    if v.os.objs[obj].closed then Call(v, Raise(IOError), [])
    else if !c.ok then Call(c.view, Raise(EOTHER), [])
    else
      var k := (CheckWF(v, EpollKind, env.reinit); Ctl(c.view, CtlDel, obj, 0, env.fault1));
      if k.out.Raise? then k
      else Call(k.view.(sh := Forget(k.view.sh, fd)), Zero, k.trace)
  }

  /** An empty slot, or a slot whose owner was closed, makes `delete` return without a system call. */
  predicate DeleteSkips(v: View, fd: Fd)
    requires v.WF()
  {
    fd !in v.sh.marks || v.os.objs[v.sh.marks[fd]].closed
  }

  function DeleteCall(v: View, obj: Obj, env: Env): Call
    requires v.WF() && obj < |v.os.objs|
  {
    var fd := v.os.objs[obj].fd;
    var c := Check(v, EpollKind, env.reinit);
    if v.os.objs[obj].closed then Call(v, Raise(IOError), [])
    else if !c.ok then Call(c.view, Raise(EOTHER), [])
    else if (CheckWF(v, EpollKind, env.reinit); DeleteSkips(c.view, fd)) then Call(c.view, Nil, [])
    else
      var k := Ctl(c.view, CtlDel, obj, 0, env.fault1);
      if k.out == Raise(ENOENT) || k.out == Raise(EBADF) then Call(k.view, Nil, k.trace)
      else if k.out.Raise? then k
      else Call(k.view.(sh := Forget(k.view.sh, fd)), Ref(obj), k.trace)
  }

  predicate Cached(v: View, obj: Obj)
    requires obj < |v.os.objs|
  {
    var fd := v.os.objs[obj].fd;
    fd in v.sh.marks && v.sh.marks[fd] == obj
  }

  /** The cache says that nothing needs doing. */
  predicate SetSkips(v: View, obj: Obj, mask: Mask)
    requires obj < |v.os.objs|
  {
    var fd := v.os.objs[obj].fd;
    Cached(v, obj) && fd in v.sh.events && !Oneshot(v.sh.events[fd]) && v.sh.events[fd] == mask
  }

  /** The two attempts of `set` in the order the cache suggests. */
  function SetCtl(v: View, obj: Obj, mask: Mask, env: Env): Call
    requires v.WF() && obj < |v.os.objs|
  {
    var guess, other, surprise :=
      if Cached(v, obj) then CtlMod else CtlAdd,
      if Cached(v, obj) then CtlAdd else CtlMod,
      if Cached(v, obj) then ENOENT else EEXIST;
    var k := Ctl(v, guess, obj, mask, env.fault1);
    if k.out == Raise(surprise) then
      var k2 := Ctl(v, other, obj, mask, env.fault2);
      k2.(trace := k.trace + k2.trace)
    else k
  }

  function SetCall(v: View, obj: Obj, mask: Mask, env: Env): Call
    requires v.WF() && obj < |v.os.objs|
  {
    var fd := v.os.objs[obj].fd;
    var c := Check(v, EpollKind, env.reinit);
    if v.os.objs[obj].closed then Call(v, Raise(IOError), [])
    else if !c.ok then Call(c.view, Raise(EOTHER), [])
    else if SetSkips(c.view, obj, mask) then Call(c.view, Zero, [])
    else
      var k := (CheckWF(v, EpollKind, env.reinit); SetCtl(c.view, obj, mask, env));
      if k.out.Raise? then k
      else Call(k.view.(sh := Remember(k.view.sh, fd, obj, mask)), Zero, k.trace)
  }

  /** Epoll#wait and Kqueue#kevent up to the blocking system call they issue on @io. */
  function WaitCall(v: View, kind: Kind, env: Env): Call
    requires v.WF()
  {
    var c := Check(v, kind, env.reinit);
    if !c.ok then Call(c.view, Raise(EOTHER), [])
    else if !c.view.IsOpen() then Call(c.view, Raise(IOError), [])
    else Call(c.view, Nil, [Sys(EpollWait, c.view.Inst())])
  }

  /** io_for: the lookup that events_for and include? share. */
  function LookupCall(v: View, fd: Fd, env: Env): Call
    requires v.WF()
  {
    var c := Check(v, EpollKind, env.reinit);
    if !c.ok then Call(c.view, Raise(EOTHER), [])
    else if fd in c.view.sh.marks then Call(c.view, Ref(c.view.sh.marks[fd]), [])
    else Call(c.view, Nil, [])
  }

  function Without(copies: seq<Copy>, io: IoId): seq<Copy> {
    if copies == [] then []
    else if copies[0].io == io then Without(copies[1..], io)
    else [copies[0]] + Without(copies[1..], io)
  }

  function CloseCall(v: View): Call
    requires v.WF()
  {
    if !v.IsOpen() then Call(v.(sh := v.sh.(copies := Without(v.sh.copies, v.me.io))), Raise(IOError), [])
    else Call(v.(os := v.os.(handles := v.os.handles[v.me.io := Closed]),
                 sh := v.sh.(copies := Without(v.sh.copies, v.me.io))), Nil, [])
  }

  /** initialize_copy, run on the new object whose @io and @pid start as the source's.  `dupFails` is a
      descriptor shortage in its own dup, after whatever the fork check did. */
  function CopyCall(v: View, kind: Kind, env: Reinit, dupFails: bool): Checked
    requires v.WF()
  {
    var c := Check(v, kind, env);
    if !c.ok || !c.view.IsOpen() then c
    else if dupFails then Checked(c.view, false)
    else
      var h := |c.view.os.handles|;
      Checked(c.view.(os := c.view.os.(handles := c.view.os.handles + [Open(c.view.Inst())]),
                      sh := c.view.sh.(copies := c.view.sh.copies + [Copy(h, c.view.self)]),
                      me := c.view.me.(io := h)), true)
  }

  lemma CheckWF(v: View, kind: Kind, env: Reinit)
    requires v.WF()
    ensures Check(v, kind, env).view.WF()
    ensures Check(v, kind, env).view.os.objs == v.os.objs
    ensures Check(v, kind, env).view.os.fds == v.os.fds
  {
  }
}
