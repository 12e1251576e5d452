/** What each call on an Epoll object means: the cached operations against the plain
    kernel operations they stand for. */
module EpollCalls {
  import opened EpollModel

  // ---------------------------------------------------------------- agreement

  /** The cache slot at `fd` tells the truth about kernel entry `e`, and retains a usable object. */
  ghost predicate EntryAgrees(os: Os, e: Entry, fd: Fd, sh: Shared) {
    && fd in sh.marks && sh.marks[fd] == e.obj
    && fd in sh.events && sh.events[fd] == e.mask
    && (e.armed || Oneshot(e.mask))
    && e.obj < |os.objs| && os.objs[e.obj] == Io(fd, false)
  }

  /** Every kernel entry that a system call of this process can address is mirrored by the cache. */
  ghost predicate Agree(os: Os, t: Interest, sh: Shared) {
    && sh.events.Keys == sh.marks.Keys
    && forall fd :: fd in os.fds && Key(os.fds[fd], fd) in t ==> EntryAgrees(os, t[Key(os.fds[fd], fd)], fd, sh)
  }

  /** No two usable IO objects name one descriptor, and each of them names an open one. */
  ghost predicate NoAlias(os: Os) {
    && (forall a :: 0 <= a < |os.objs| && !os.objs[a].closed ==> os.objs[a].fd in os.fds)
    && (forall a, b :: 0 <= a < b < |os.objs| && !os.objs[a].closed && !os.objs[b].closed
                       ==> os.objs[a].fd != os.objs[b].fd)
  }

  /** Every cache slot that still names a usable object is backed by a kernel entry. */
  ghost predicate Backed(os: Os, t: Interest, sh: Shared) {
    forall fd :: fd in sh.marks ==>
      && sh.marks[fd] < |os.objs| && os.objs[sh.marks[fd]].fd == fd
      && (!os.objs[sh.marks[fd]].closed ==> fd in os.fds && Key(os.fds[fd], fd) in t)
  }

  ghost predicate Agreeing(v: View)
    requires v.WF() && v.IsOpen()
  {
    Agree(v.os, v.Interest(), v.sh)
  }

  // ------------------------------------------------------------------- requests

  datatype Req =
    | ReqAdd(obj: Obj, mask: Mask) | ReqMod(obj: Obj, mask: Mask) | ReqSet(obj: Obj, mask: Mask)
    | ReqDel(obj: Obj) | ReqDelete(obj: Obj) | ReqWait | ReqLookup(fd: Fd)
  {
    predicate Names(os: Os) {
      ReqWait? || ReqLookup? || obj < |os.objs|
    }

    /** add, mod and set */
    predicate Writes() {
      ReqAdd? || ReqMod? || ReqSet?
    }

    /** del and delete */
    predicate Erases() {
      ReqDel? || ReqDelete?
    }
  }

  function Perform(v: View, kind: Kind, req: Req, env: Env): Call
    requires v.WF() && req.Names(v.os)
  {
    match req
    case ReqAdd(obj, mask) => AddCall(v, obj, mask, env)
    case ReqMod(obj, mask) => ModCall(v, obj, mask, env)
    case ReqSet(obj, mask) => SetCall(v, obj, mask, env)
    case ReqDel(obj) => DelCall(v, obj, env)
    case ReqDelete(obj) => DeleteCall(v, obj, env)
    case ReqWait => WaitCall(v, kind, env)
    case ReqLookup(fd) => LookupCall(v, fd, env)
  }

  /** `obj` can be handed to epoll_ctl by a call on `v`. */
  predicate Usable(v: View, obj: Obj)
    requires v.me.io < |v.os.handles|
  {
    v.IsOpen() && obj < |v.os.objs| && !v.os.objs[obj].closed && v.os.objs[obj].fd in v.os.fds
  }

  /** The three ways a call can end: nothing beyond the fork check `c` happened, kernel entry and slot were
      written together, or both were dropped together. */
  ghost predicate Shape(v: View, c: Checked, r: View, req: Req) {
    || r == v
    || r == c.view
    || (req.Writes() && c.ok && c.view.WF() && Usable(c.view, req.obj) && r == Register(c.view, req.obj, req.mask))
    || (req.Erases() && c.ok && c.view.WF() && Usable(c.view, req.obj) && r == Unregister(c.view, req.obj))
  }

  lemma SetShape(v: View, obj: Obj, mask: Mask, env: Env)
    requires v.WF() && obj < |v.os.objs|
    ensures
      var k := SetCtl(v, obj, mask, env);
      if k.out.Raise? then k.view == v
      else Usable(v, obj) && k.view.(sh := Remember(k.view.sh, v.os.objs[obj].fd, obj, mask)) == Register(v, obj, mask)
  {
  }

  /** Whatever is asked and whatever fails, a call has one of these shapes: no state is half done. */
  lemma CallShape(v: View, kind: Kind, req: Req, env: Env)
    requires v.WF() && req.Names(v.os)
    requires !req.ReqWait? ==> kind.EpollKind?
    ensures Shape(v, Check(v, kind, env.reinit), Perform(v, kind, req, env).view, req)
  {
    CheckWF(v, kind, env.reinit);
    var c := Check(v, kind, env.reinit).view;
    match req
    case ReqSet(obj, mask) => SetShape(c, obj, mask, env);
    case _ =>
  }

  /** A call that raises leaves the view as the fork check left it. */
  lemma RaiseChangesNothing(v: View, kind: Kind, req: Req, env: Env)
    requires v.WF() && req.Names(v.os)
    requires !req.ReqWait? ==> kind.EpollKind?
    requires Perform(v, kind, req, env).out.Raise?
    ensures Perform(v, kind, req, env).view in {v, Check(v, kind, env.reinit).view}
  {
  }

  // ------------------------------------------------------ set, delete, and the kernel

  /** `set` is an upsert.  From an agreeing state without aliases, every normal return (also the
      one without a system call) leaves an armed entry (obj, mask) and touches no other entry
      and no other instance. */
  lemma SetRefinesUpsert(v: View, obj: Obj, mask: Mask, env: Env)
    requires v.WF() && v.IsOpen() && v.me.pid == v.pid && obj < |v.os.objs|
    requires Agreeing(v) && NoAlias(v.os) && Backed(v.os, v.Interest(), v.sh)
    ensures
      var r := SetCall(v, obj, mask, env);
      !r.out.Raise? ==>
        && v.os.objs[obj].fd in v.os.fds
        && r.out == Zero
        && r.view.insts == v.WithInterest(v.Interest()[v.KeyOf(obj) := Entry(obj, mask, true)]).insts
  {
    if !v.os.objs[obj].closed && SetSkips(v, obj, mask) {
      assert v.Interest()[v.KeyOf(obj)] == Entry(obj, mask, true);
      assert v.Interest()[v.KeyOf(obj) := Entry(obj, mask, true)] == v.Interest();
    }
  }

  /** The ONESHOT test is needed: a disarmed entry can only sit behind a ONESHOT slot, and for
      such an entry `set` with the very same mask does reach the kernel. */
  lemma SetRearms(v: View, obj: Obj, env: Env)
    requires v.WF() && v.IsOpen() && v.me.pid == v.pid && obj < |v.os.objs|
    requires Agreeing(v) && v.os.objs[obj].fd in v.os.fds
    requires v.KeyOf(obj) in v.Interest() && v.Interest()[v.KeyOf(obj)].obj == obj
    requires !v.Interest()[v.KeyOf(obj)].armed
    requires !env.fault1
    ensures
      var mask := v.Interest()[v.KeyOf(obj)].mask;
      var r := SetCall(v, obj, mask, env);
      && r.trace == [Sys(CtlMod, v.Inst())] && r.out == Zero
      && r.view.WF() && r.view.IsOpen()
      && r.view.Interest() == v.Interest()[v.KeyOf(obj) := Entry(obj, mask, true)]
  {
  }

  /** Bit 30 of the mask, and no other, decides ONESHOT. */
  lemma OneshotIsBit30(high: nat, low: nat)
    requires high < 2 && low < 0x4000_0000
    ensures Oneshot(high * 0x8000_0000 + 0x4000_0000 + low) && !Oneshot(high * 0x8000_0000 + low)
  {
  }

  /** A closed io is refused by every operation that names one, before anything else happens. */
  lemma ClosedIoRaises(v: View, kind: Kind, req: Req, env: Env)
    requires v.WF() && req.Names(v.os) && (req.Writes() || req.Erases()) && v.os.objs[req.obj].closed
    ensures Perform(v, kind, req, env) == Call(v, Raise(IOError), [])
  {
  }

  /** A closed receiver issues no system call and changes nothing; whatever would have needed one raises. */
  lemma ClosedReceiver(v: View, kind: Kind, req: Req, env: Env)
    requires v.WF() && req.Names(v.os) && !v.IsOpen()
    ensures
      var r := Perform(v, kind, req, env);
      && r.view == v && r.trace == []
      && (req.ReqAdd? || req.ReqMod? || req.ReqDel? || req.ReqWait? ==> r.out == Raise(IOError))
      && (req.ReqSet? && !SetSkips(v, req.obj, req.mask) ==> r.out == Raise(IOError))
      && (req.ReqDelete? && !DeleteSkips(v, v.os.objs[req.obj].fd) ==> r.out == Raise(IOError))
  {
  }

  /** `set` decides: from any cache and kernel, without another fault, it returns on every usable io.  It
      tries what the cache suggests and falls back when the kernel contradicts it, with exactly these calls. */
  lemma SetDecides(v: View, obj: Obj, mask: Mask, env: Env)
    requires v.WF() && v.me.pid == v.pid && Usable(v, obj) && !env.fault1 && !env.fault2
    ensures
      var r := SetCall(v, obj, mask, env);
      var present, i, fd := v.KeyOf(obj) in v.Interest(), v.Inst(), v.os.objs[obj].fd;
      var cached := fd in v.sh.marks && v.sh.marks[fd] == obj;
      && r.out == Zero
      && (if cached && fd in v.sh.events && v.sh.events[fd] == mask && !Oneshot(mask) then
            r.view == v && r.trace == []
          else
            && r.view == Register(v, obj, mask)
            && r.trace == (if cached then
                             [Sys(CtlMod, i)] + (if present then [] else [Sys(CtlAdd, i)])
                           else
                             [Sys(CtlAdd, i)] + (if present then [Sys(CtlMod, i)] else [])))
  {
  }

  /** When `set` raises: for a closed io, for a descriptor that is not open (unless the cache answers), or for
      another kernel fault in a system call it makes; the mismatch of cache and kernel is never reported. */
  lemma SetRaises(v: View, obj: Obj, mask: Mask, env: Env)
    requires v.WF() && v.IsOpen() && v.me.pid == v.pid && obj < |v.os.objs|
    ensures
      var out, fd := SetCall(v, obj, mask, env).out, v.os.objs[obj].fd;
      if v.os.objs[obj].closed then out == Raise(IOError)
      else if SetSkips(v, obj, mask) then out == Zero
      else if fd !in v.os.fds then out == Raise(EBADF)
      else
        var mismatch := (fd in v.sh.marks && v.sh.marks[fd] == obj) != (v.KeyOf(obj) in v.Interest());
        out == if env.fault1 || (mismatch && env.fault2) then Raise(EOTHER) else Zero
  {
  }

  /** `delete` decides: from any cache and kernel, an io that is not closed gets nil or itself, and only a
      fault of another kind raises.  It answers the io exactly when it dropped an entry. */
  lemma DeleteDecides(v: View, obj: Obj, env: Env)
    requires v.WF() && v.IsOpen() && v.me.pid == v.pid && obj < |v.os.objs| && !v.os.objs[obj].closed
    ensures
      var r := DeleteCall(v, obj, env);
      var fd := v.os.objs[obj].fd;
      var retained := fd in v.sh.marks && !v.os.objs[v.sh.marks[fd]].closed;
      if !retained then r == Call(v, Nil, [])
      else
        && r.trace == [Sys(CtlDel, v.Inst())]
        && (if fd !in v.os.fds then r.out == Nil && r.view == v
            else if env.fault1 then r.out == Raise(EOTHER) && r.view == v
            else if v.KeyOf(obj) !in v.Interest() then r.out == Nil && r.view == v
            else r.out == Ref(obj) && r.view == Unregister(v, obj))
  {
  }

  /** Unlike `del`, `delete` never reports a missing entry or descriptor, whatever the state. */
  lemma DeleteNeverReportsMissing(v: View, obj: Obj, env: Env)
    requires v.WF() && obj < |v.os.objs|
    ensures DeleteCall(v, obj, env).out !in {Raise(ENOENT), Raise(EBADF), Raise(EEXIST)}
  {
  }

  /** The three ways `set` ends on an active object: an exception and no change, the shortcut, or a write. */
  lemma SetReturns(v: View, obj: Obj, mask: Mask, env: Env)
    requires v.WF() && v.IsOpen() && v.me.pid == v.pid && obj < |v.os.objs|
    ensures
      var r := SetCall(v, obj, mask, env);
      if r.out.Raise? then r.view == v
      else if r.trace == [] then r.view == v && SetSkips(v, obj, mask)
      else Usable(v, obj) && r.view == Register(v, obj, mask)
  {
    SetShape(v, obj, mask, env);
  }

  lemma RegisterEffect(v: View, obj: Obj, mask: Mask)
    requires v.WF() && Usable(v, obj)
    ensures
      var r := Register(v, obj, mask);
      var fd := v.os.objs[obj].fd;
      && r.WF() && r.IsOpen() && r.os == v.os && r.me == v.me
      && v.KeyOf(obj) in r.Interest() && r.Interest()[v.KeyOf(obj)] == Entry(obj, mask, true)
      && EntryAgrees(r.os, Entry(obj, mask, true), fd, r.sh)
      && r.Interest() - {v.KeyOf(obj)} == v.Interest() - {v.KeyOf(obj)}
      && Forget(r.sh, fd) == Forget(v.sh, fd)
  {
    var r := Register(v, obj, mask);
    assert r.Interest() == v.Interest()[v.KeyOf(obj) := Entry(obj, mask, true)];
  }

  /** `set` repairs.  From any cache and kernel contents, aliases included, a `set` that reaches
      the kernel and returns normally makes slot and entry of that descriptor agree and leaves
      every other slot and entry alone. */
  lemma SetHeals(v: View, obj: Obj, mask: Mask, env: Env)
    requires v.WF() && v.IsOpen() && v.me.pid == v.pid && obj < |v.os.objs|
    ensures
      var r := SetCall(v, obj, mask, env);
      && (r.out.Raise? ==> r.view == v)
      && (!r.out.Raise? && r.trace != [] ==>
            && Usable(v, obj) && r.view.WF() && r.view.IsOpen()
            && v.KeyOf(obj) in r.view.Interest()
            && r.view.Interest()[v.KeyOf(obj)] == Entry(obj, mask, true)
            && EntryAgrees(r.view.os, r.view.Interest()[v.KeyOf(obj)], v.os.objs[obj].fd, r.view.sh)
            && r.view.Interest() - {v.KeyOf(obj)} == v.Interest() - {v.KeyOf(obj)}
            && Forget(r.view.sh, v.os.objs[obj].fd) == Forget(v.sh, v.os.objs[obj].fd))
      && (!r.out.Raise? && r.trace == [] ==> r.view == v && SetSkips(v, obj, mask))
  {
    SetReturns(v, obj, mask, env);
    if Usable(v, obj) { RegisterEffect(v, obj, mask); }
  }

  /** `delete` is a kernel removal: it raises only for a closed io or another kernel fault, and a normal
      return leaves no entry for the object, removes nothing else, and answers non-nil exactly when there
      was an entry.  Aliases are allowed. */
  lemma DeleteRefinesRemoval(v: View, obj: Obj, env: Env)
    requires v.WF() && v.IsOpen() && v.me.pid == v.pid && obj < |v.os.objs|
    requires Agreeing(v)
    ensures
      var r := DeleteCall(v, obj, env);
      && (r.out.Raise? ==> v.os.objs[obj].closed || env.fault1)
      && (!r.out.Raise? ==>
        var there := v.os.objs[obj].fd in v.os.fds && v.KeyOf(obj) in v.Interest();
        && r.view.WF() && r.view.IsOpen()
        && r.out == (if there then Ref(obj) else Nil)
        && r.view.Interest() == (if there then v.Interest() - {v.KeyOf(obj)} else v.Interest())
        && (forall i :: 0 <= i < |v.insts| && i != v.Inst() ==> r.view.insts[i] == v.insts[i]))
  {
  }

  /** add, mod and del against the interest list: each succeeds exactly when the kernel entry is absent
      (add) or present (mod, del), reports what the documentation of epoll_ctl(2) says otherwise,
      and on success writes or drops entry and slot together.  Any other fault changes nothing.  `mod` answers
      the mask. */
  lemma PlainOutcomes(v: View, obj: Obj, mask: Mask, env: Env)
    requires v.WF() && v.IsOpen() && v.me.pid == v.pid && obj < |v.os.objs| && !v.os.objs[obj].closed
    ensures
      var add, mod, del := AddCall(v, obj, mask, env), ModCall(v, obj, mask, env), DelCall(v, obj, env);
      if v.os.objs[obj].fd !in v.os.fds then
        add.out == mod.out == del.out == Raise(EBADF) && add.view == mod.view == del.view == v
      else if env.fault1 then
        add.out == mod.out == del.out == Raise(EOTHER) && add.view == mod.view == del.view == v
      else if v.KeyOf(obj) in v.Interest() then
        && add.out == Raise(EEXIST) && add.view == v
        && mod.out == Num(mask) && mod.view == Register(v, obj, mask)
        && del.out == Zero && del.view == Unregister(v, obj)
      else
        && add.out == Zero && add.view == Register(v, obj, mask)
        && mod.out == del.out == Raise(ENOENT) && mod.view == del.view == v
  {
  }

  /** del undoes add: the interest list is back, and the slot is empty. */
  lemma DelUndoesAdd(v: View, obj: Obj, mask: Mask, env: Env, env': Env)
    requires v.WF() && v.IsOpen() && v.me.pid == v.pid && obj < |v.os.objs| && !env'.fault1
    requires AddCall(v, obj, mask, env).out == Zero
    ensures
      var a := AddCall(v, obj, mask, env).view;
      && a.WF()
      && DelCall(a, obj, env').out == Zero
      && var d := DelCall(a, obj, env').view;
         d.WF() && d.IsOpen() && d.Interest() == v.Interest() && d.sh == Forget(v.sh, v.os.objs[obj].fd)
  {
  }
}
