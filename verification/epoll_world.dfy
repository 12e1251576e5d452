/** Runs: a tree of processes that fork, dup, close, open, reuse descriptors and make calls
    on one dup family, with the kernel delivering ONESHOT events in between. */
module EpollWorld {
  import opened EpollModel
  import opened EpollCalls

  /** `covered` remembers whether, when this process was forked, a re-initialisation by any
      family member would have closed every other open handle; `aliased` remembers whether
      some IO object was ever wrapped around a descriptor that already had one. */
  datatype Proc = Proc(os: Os, sh: Shared, members: seq<Member>, covered: bool, aliased: bool)

  datatype World = World(kind: Kind, procs: seq<Proc>, insts: seq<Inst>, nextFile: File)

  datatype Step =
    | Fork(p: Pid)
    | Request(p: Pid, m: MemberId, req: Req, env: Env)
    | Close(p: Pid, m: MemberId)
    | Dup(p: Pid, m: MemberId, reinit: Reinit, dupFails: bool)
    | OpenFile(p: Pid, fd: Fd)
    | AliasFile(p: Pid, fd: Fd)
    | CloseFile(p: Pid, obj: Obj)
    | Deliver(i: EpId, k: Key)
    | Collect(p: Pid, h: IoId)

  function ViewOf(w: World, p: Pid, m: MemberId): View
    requires p < |w.procs| && m < |w.procs[p].members|
  {
    View(p, m, w.procs[p].os, w.insts, w.procs[p].sh, w.procs[p].members[m])
  }

  function Put(w: World, p: Pid, m: MemberId, v: View): World
    requires p < |w.procs| && m < |w.procs[p].members|
  {
    var q := w.procs[p];
    w.(procs := w.procs[p := q.(os := v.os, sh := v.sh, members := q.members[m := v.me])], insts := v.insts)
  }

  // ------------------------------------------------------------- well-formedness

  /** Every reference points at something. */
  ghost predicate Linked(insts: seq<Inst>, q: Proc) {
    && |q.members| >= 1
    && (forall m :: 0 <= m < |q.members| ==> q.members[m].io < |q.os.handles|)
    && (forall h :: 0 <= h < |q.os.handles| && q.os.handles[h].Open? ==> q.os.handles[h].inst < |insts|)
    && (forall c :: c in q.sh.copies ==> c.io < |q.os.handles|)
    && (forall fd :: fd in q.sh.marks ==> q.sh.marks[fd] < |q.os.objs|)
  }

  ghost predicate ProcWF(insts: seq<Inst>, nextFile: File, q: Proc) {
    && Linked(insts, q)
    && (forall fd :: fd in q.os.fds ==> q.os.fds[fd] < nextFile)
  }

  ghost predicate InstsWF(insts: seq<Inst>, nextFile: File) {
    forall i, k :: 0 <= i < |insts| && k in insts[i].interest ==> k.file < nextFile
  }

  ghost predicate WF(w: World) {
    && InstsWF(w.insts, w.nextFile)
    && forall p :: 0 <= p < |w.procs| ==> ProcWF(w.insts, w.nextFile, w.procs[p])
  }

  // ----------------------------------------------------------------------- steps

  predicate IsOpen(q: Proc, m: MemberId)
    requires m < |q.members| && q.members[m].io < |q.os.handles|
  {
    q.os.handles[q.members[m].io].Open?
  }

  /** No re-initialisation in a child forked now could leave a second handle open. */
  predicate Covered(q: Proc)
    requires forall m :: 0 <= m < |q.members| ==> q.members[m].io < |q.os.handles|
  {
    forall m, n :: 0 <= m < |q.members| && 0 <= n < |q.members| && m != n && IsOpen(q, m) && IsOpen(q, n)
                   ==> q.members[m].io in Keys(q.sh.copies)
  }

  predicate Referenced(procs: seq<Proc>, f: File) {
    exists p :: 0 <= p < |procs| && f in procs[p].os.fds.Values
  }

  /** Closing the last descriptor of a file drops its entries from every interest list. */
  function Sweep(insts: seq<Inst>, f: File): seq<Inst> {
    seq(|insts|, i requires 0 <= i < |insts| =>
      insts[i].(interest := map k | k in insts[i].interest && k.file != f :: insts[i].interest[k]))
  }

  function Disarm(e: Entry): Entry {
    if Oneshot(e.mask) then e.(armed := false) else e
  }

  ghost predicate Enabled(w: World, s: Step) {
    WF(w) &&
    match s
    case Fork(p) => p < |w.procs|
    case Request(p, m, req, _) =>
      && p < |w.procs| && m < |w.procs[p].members| && req.Names(w.procs[p].os)
      && (w.kind.EpollKind? || req.ReqWait?)
    case Close(p, m) => p < |w.procs| && m < |w.procs[p].members|
    case Dup(p, m, _, _) => p < |w.procs| && m < |w.procs[p].members|
    case OpenFile(p, fd) => p < |w.procs| && fd !in w.procs[p].os.fds
    case AliasFile(p, fd) => p < |w.procs| && fd in w.procs[p].os.fds
    case CloseFile(p, obj) => p < |w.procs| && obj < |w.procs[p].os.objs| && !w.procs[p].os.objs[obj].closed
    case Deliver(i, k) => i < |w.insts| && k in w.insts[i].interest
    case Collect(p, h) =>
      && p < |w.procs| && h < |w.procs[p].os.handles| && h !in Keys(w.procs[p].sh.copies)
      && forall m :: 0 <= m < |w.procs[p].members| ==> w.procs[p].members[m].io != h
  }

  function AfterDup(w: World, p: Pid, c: Checked): World
    requires p < |w.procs|
  {
    var q := w.procs[p];
    w.(procs := w.procs[p := q.(os := c.view.os, sh := c.view.sh,
                                members := if c.ok then q.members + [c.view.me] else q.members)],
       insts := c.view.insts)
  }

  /** The view of an object that `dup` is about to initialise. */
  function NewcomerView(w: World, p: Pid, m: MemberId): View
    requires p < |w.procs| && m < |w.procs[p].members|
  {
    ViewOf(w, p, m).(self := |w.procs[p].members|)
  }

  function AfterClose(w: World, p: Pid, obj: Obj): World
    requires p < |w.procs| && obj < |w.procs[p].os.objs|
  {
    var q := w.procs[p];
    var fd := q.os.objs[obj].fd;
    var procs := w.procs[p := q.(os := q.os.(fds := q.os.fds - {fd},
                                              objs := q.os.objs[obj := q.os.objs[obj].(closed := true)]))];
    var gone := fd in q.os.fds && !Referenced(procs, q.os.fds[fd]);
    w.(procs := procs, insts := if gone then Sweep(w.insts, q.os.fds[fd]) else w.insts)
  }

  ghost function Next(w: World, s: Step): World {
    if !Enabled(w, s) then w else
    match s
    case Fork(p) => w.(procs := w.procs + [w.procs[p].(covered := Covered(w.procs[p]))])
    case Request(p, m, req, env) => Put(w, p, m, Perform(ViewOf(w, p, m), w.kind, req, env).view)
    case Close(p, m) => Put(w, p, m, CloseCall(ViewOf(w, p, m)).view)
    case Dup(p, m, env, dupFails) => AfterDup(w, p, CopyCall(NewcomerView(w, p, m), w.kind, env, dupFails))
    case OpenFile(p, fd) =>
      var q := w.procs[p];
      w.(procs := w.procs[p := q.(os := q.os.(fds := q.os.fds[fd := w.nextFile], objs := q.os.objs + [Io(fd, false)]))],
         nextFile := w.nextFile + 1)
    case AliasFile(p, fd) =>
      var q := w.procs[p];
      w.(procs := w.procs[p := q.(os := q.os.(objs := q.os.objs + [Io(fd, false)]), aliased := true)])
    case CloseFile(p, obj) => AfterClose(w, p, obj)
    case Deliver(i, k) =>
      var t := w.insts[i].interest;
      w.(insts := w.insts[i := w.insts[i].(interest := t[k := Disarm(t[k])])])
    case Collect(p, h) =>
      var q := w.procs[p];
      if w.kind.KqueueKind? then w
      else w.(procs := w.procs[p := q.(os := q.os.(handles := q.os.handles[h := Closed]))])
  }

  /** A process that has just created an Epoll (or Kqueue) object. */
  function Start(kind: Kind): World {
    World(kind,
          [Proc(Os(map[], [], [Open(0)]), Shared(map[], map[], [Copy(0, 0)]), [Member(0, 0)], true, false)],
          [Inst(0, map[])], 0)
  }

  // ------------------------------------------------------------------- invariants

  predicate Active(q: Proc, p: Pid, m: MemberId)
    requires m < |q.members| && q.members[m].io < |q.os.handles|
  {
    q.members[m].pid == p && IsOpen(q, m)
  }

  function InstOf(q: Proc, m: MemberId): EpId
    requires m < |q.members| && q.members[m].io < |q.os.handles| && IsOpen(q, m)
  {
    q.os.handles[q.members[m].io].inst
  }

  /** A member that believes it belongs to this process holds an instance this process created. */
  ghost predicate Isolated(insts: seq<Inst>, p: Pid, q: Proc)
    requires Linked(insts, q)
  {
    forall m :: 0 <= m < |q.members| && Active(q, p, m) ==> insts[InstOf(q, m)].creator == p
  }

  /** A member that still has to re-initialise will close every other open handle when it does. */
  ghost predicate Tidy(p: Pid, q: Proc)
    requires forall m :: 0 <= m < |q.members| ==> q.members[m].io < |q.os.handles|
  {
    forall m, n :: 0 <= m < |q.members| && 0 <= n < |q.members| && m != n && IsOpen(q, m)
                   && IsOpen(q, n) && !Active(q, p, n)
                   ==> q.members[m].io in Keys(q.sh.copies)
  }

  /** The active members share one instance, and the family's cache agrees with it. */
  ghost predicate InStep(insts: seq<Inst>, p: Pid, q: Proc)
    requires Linked(insts, q)
  {
    && (forall m, n :: 0 <= m < |q.members| && 0 <= n < |q.members| && Active(q, p, m) && Active(q, p, n)
                       ==> InstOf(q, m) == InstOf(q, n))
    && (forall m :: 0 <= m < |q.members| && Active(q, p, m) ==>
          && Agree(q.os, insts[InstOf(q, m)].interest, q.sh)
          && (!q.aliased ==> Backed(q.os, insts[InstOf(q, m)].interest, q.sh)))
  }

  ghost predicate ProcInv(kind: Kind, insts: seq<Inst>, nextFile: File, p: Pid, q: Proc) {
    && ProcWF(insts, nextFile, q)
    && Isolated(insts, p, q)
    && (forall m :: 0 <= m < |q.members| ==> q.members[m].pid <= p)
    && (!q.aliased ==> NoAlias(q.os))
    && (kind.EpollKind? && q.covered ==> Tidy(p, q) && InStep(insts, p, q))
    && (|q.members| == 1 ==> q.covered)
  }

  ghost predicate Inv(w: World) {
    && WF(w)
    && forall p :: 0 <= p < |w.procs| ==> ProcInv(w.kind, w.insts, w.nextFile, p, w.procs[p])
  }

  // ----------------------------------------------------------------- preservation

  ghost predicate SameEntry(e: Entry, f: Entry) {
    f == e || f == Disarm(e)
  }

  /** What process `p` can address through instances it created is the same, up to ONESHOT disarming. */
  ghost predicate Undisturbed(insts: seq<Inst>, insts': seq<Inst>, p: Pid, fds: map<Fd, File>) {
    && |insts| <= |insts'|
    && forall i :: 0 <= i < |insts| ==>
         && insts'[i].creator == insts[i].creator
         && (insts[i].creator == p ==>
               forall fd :: fd in fds ==>
                 var k := Key(fds[fd], fd);
                 && (k in insts[i].interest <==> k in insts'[i].interest)
                 && (k in insts[i].interest ==> SameEntry(insts[i].interest[k], insts'[i].interest[k])))
  }

  lemma ProcFrame(kind: Kind, insts: seq<Inst>, insts': seq<Inst>, nextFile: File, nextFile': File, p: Pid, q: Proc)
    requires ProcInv(kind, insts, nextFile, p, q)
    requires Undisturbed(insts, insts', p, q.os.fds) && nextFile <= nextFile'
    ensures ProcInv(kind, insts', nextFile', p, q)
  {
    if kind.EpollKind? && q.covered {
      forall m | 0 <= m < |q.members| && Active(q, p, m)
        ensures Agree(q.os, insts'[InstOf(q, m)].interest, q.sh)
        ensures !q.aliased ==> Backed(q.os, insts'[InstOf(q, m)].interest, q.sh)
      {
        var i := InstOf(q, m);
        assert insts[i].creator == p;
        AgreeFrame(q.os, insts[i].interest, insts'[i].interest, q.sh);
      }
    }
  }

  /** A step of `p` that opens no handle of a member and takes no open handle out of @copies keeps
      the process's invariant, if it keeps the agreement of the instances in use. */
  lemma ProcStep(kind: Kind, insts: seq<Inst>, insts': seq<Inst>, nextFile: File, nextFile': File,
                 p: Pid, q: Proc, q': Proc)
    requires ProcInv(kind, insts, nextFile, p, q) && ProcWF(insts', nextFile', q')
    requires q'.members == q.members && q'.covered == q.covered && (!q'.aliased ==> NoAlias(q'.os))
    requires |insts| <= |insts'| && forall i :: 0 <= i < |insts| ==> insts'[i].creator == insts[i].creator
    requires forall n :: 0 <= n < |q.members| && IsOpen(q', n) ==>
               && IsOpen(q, n) && InstOf(q', n) == InstOf(q, n)
               && (q.members[n].io in Keys(q.sh.copies) ==> q.members[n].io in Keys(q'.sh.copies))
    requires kind.EpollKind? && q.covered ==>
               forall n :: 0 <= n < |q.members| && Active(q', p, n) ==>
                 && Agree(q'.os, insts'[InstOf(q', n)].interest, q'.sh)
                 && (!q'.aliased ==> Backed(q'.os, insts'[InstOf(q', n)].interest, q'.sh))
    ensures ProcInv(kind, insts', nextFile', p, q')
  {
    assert forall n :: 0 <= n < |q.members| && Active(q', p, n) ==> Active(q, p, n);
    if kind.EpollKind? && q.covered {
      forall m, n | 0 <= m < |q.members| && 0 <= n < |q.members| && m != n && IsOpen(q', m) && IsOpen(q', n)
                    && !Active(q', p, n)
        ensures q'.members[m].io in Keys(q'.sh.copies)
      {
        assert IsOpen(q, m) && IsOpen(q, n) && !Active(q, p, n);
      }
    }
  }

  lemma AgreeFrame(os: Os, t: Interest, t': Interest, sh: Shared)
    requires forall fd :: fd in os.fds ==>
               var k := Key(os.fds[fd], fd);
               && (k in t <==> k in t')
               && (k in t ==> SameEntry(t[k], t'[k]))
    ensures Agree(os, t, sh) ==> Agree(os, t', sh)
    ensures Backed(os, t, sh) ==> Backed(os, t', sh)
  {
  }

  /** Everything outside process `p` survives a step of `p` that only touches instances `p` created. */
  lemma OthersKeep(w: World, w': World, p: Pid)
    requires Inv(w) && p < |w.procs|
    requires w'.kind == w.kind && w'.nextFile >= w.nextFile && InstsWF(w'.insts, w'.nextFile)
    requires |w'.procs| == |w.procs| && w'.procs == w.procs[p := w'.procs[p]]
    requires forall r :: 0 <= r < |w.procs| && r != p ==> Undisturbed(w.insts, w'.insts, r, w.procs[r].os.fds)
    requires ProcInv(w'.kind, w'.insts, w'.nextFile, p, w'.procs[p])
    ensures Inv(w')
  {
    forall r | 0 <= r < |w'.procs|
      ensures ProcInv(w'.kind, w'.insts, w'.nextFile, r, w'.procs[r])
    {
      if r != p {
        ProcFrame(w.kind, w.insts, w'.insts, w.nextFile, w'.nextFile, r, w.procs[r]);
      }
    }
  }

  /** Instances are only appended, or rewritten by the process that created them. */
  lemma OwnInstsOnly(w: World, insts': seq<Inst>, p: Pid)
    requires p < |w.procs| && |w.insts| <= |insts'|
    requires forall i :: 0 <= i < |w.insts| ==> insts'[i].creator == w.insts[i].creator
    requires forall i :: 0 <= i < |w.insts| && w.insts[i].creator != p ==> insts'[i] == w.insts[i]
    ensures forall r :: 0 <= r < |w.procs| && r != p ==> Undisturbed(w.insts, insts', r, w.procs[r].os.fds)
  {
  }

  /** Instances are only appended, empty. */
  lemma Appended(w: World, insts': seq<Inst>, p: Pid)
    requires p < |w.procs| && InstsWF(w.insts, w.nextFile)
    requires insts' == w.insts || insts' == w.insts + [Inst(p, map[])]
    ensures InstsWF(insts', w.nextFile)
    ensures forall r :: 0 <= r < |w.procs| && r != p ==> Undisturbed(w.insts, insts', r, w.procs[r].os.fds)
  {
    OwnInstsOnly(w, insts', p);
  }

  lemma PutSame(w: World, p: Pid, m: MemberId)
    requires p < |w.procs| && m < |w.procs[p].members|
    ensures Put(w, p, m, ViewOf(w, p, m)) == w
  {
    var q := w.procs[p];
    assert q.members[m := q.members[m]] == q.members;
    assert w.procs[p := q] == w.procs;
  }

  /** The handles that existed before a re-initialisation are kept, or were in @copies and are closed. */
  lemma ReinitHandles(v: View, kind: Kind, env: Reinit)
    requires v.WF() && Stale(v)
    ensures
      var c := Check(v, kind, env).view;
      && |v.os.handles| <= |c.os.handles|
      && (forall h :: 0 <= h < |v.os.handles| ==>
            c.os.handles[h] == if kind.EpollKind? && h in Keys(v.sh.copies) then Closed else v.os.handles[h])
      && (c.me == v.me || (c.me.io == |v.os.handles| && c.os.handles[c.me.io] == Open(|v.insts|)))
  {
  }

  /** If one member `m` starts over with an empty cache while every other handle is closed or older,
      the process's invariant holds again. */
  lemma FreshStart(kind: Kind, insts: seq<Inst>, insts': seq<Inst>, nextFile: File,
                   p: Pid, q: Proc, q': Proc, m: MemberId)
    requires ProcInv(kind, insts, nextFile, p, q) && ProcWF(insts', nextFile, q') && m < |q'.members|
    requires q'.covered == q.covered && q'.aliased == q.aliased && q'.os.fds == q.os.fds && q'.os.objs == q.os.objs
    requires q'.sh.events == map[] && q'.sh.marks == map[]
    requires |insts| <= |insts'| && forall i :: 0 <= i < |insts| ==> insts'[i].creator == insts[i].creator
    requires |q'.members| >= |q.members|
    requires forall n :: 0 <= n < |q'.members| && n != m ==> n < |q.members| && q'.members[n] == q.members[n]
    requires forall n :: 0 <= n < |q'.members| && n != m && IsOpen(q', n) ==>
               IsOpen(q, n) && InstOf(q', n) == InstOf(q, n)
    requires q'.members[m].pid <= p
    requires Active(q', p, m) ==> insts'[InstOf(q', m)] == Inst(p, map[])
    requires kind.EpollKind? && q.covered ==> forall n :: 0 <= n < |q'.members| && n != m ==> !Active(q', p, n)
    requires kind.EpollKind? && q.covered ==> Tidy(p, q')
    ensures ProcInv(kind, insts', nextFile, p, q')
  {
    assert forall n :: 0 <= n < |q'.members| && n != m && Active(q', p, n) ==> Active(q, p, n);
  }

  lemma ReinitLinks(w: World, p: Pid, m: MemberId, env: Reinit)
    requires Inv(w) && p < |w.procs| && m < |w.procs[p].members|
    requires ViewOf(w, p, m).WF() && Stale(ViewOf(w, p, m))
    ensures
      var w' := Put(w, p, m, Check(ViewOf(w, p, m), w.kind, env).view);
      ProcWF(w'.insts, w'.nextFile, w'.procs[p])
  {
    ReinitHandles(ViewOf(w, p, m), w.kind, env);
    CheckWF(ViewOf(w, p, m), w.kind, env);
  }

  lemma ReinitKeepsProc(w: World, p: Pid, m: MemberId, env: Reinit)
    requires Inv(w) && p < |w.procs| && m < |w.procs[p].members|
    requires ViewOf(w, p, m).WF() && Stale(ViewOf(w, p, m))
    ensures
      var w' := Put(w, p, m, Check(ViewOf(w, p, m), w.kind, env).view);
      ProcInv(w'.kind, w'.insts, w'.nextFile, p, w'.procs[p])
  {
    var v := ViewOf(w, p, m);
    var c := Check(v, w.kind, env).view;
    var w' := Put(w, p, m, c);
    var q, q' := w.procs[p], w'.procs[p];
    ReinitHandles(v, w.kind, env);
    ReinitLinks(w, p, m, env);
    if w.kind.EpollKind? && q.covered {
      forall n | 0 <= n < |q.members| && n != m
        ensures !IsOpen(q', n)
      {
        assert IsOpen(q, m) && !Active(q, p, m);
        assert IsOpen(q, n) ==> q.members[n].io in Keys(q.sh.copies);
      }
    }
    FreshStart(w.kind, w.insts, w'.insts, w.nextFile, p, q, q', m);
  }

  lemma CheckKeeps(w: World, p: Pid, m: MemberId, env: Reinit)
    requires Inv(w) && p < |w.procs| && m < |w.procs[p].members|
    ensures ViewOf(w, p, m).WF()
    ensures Inv(Put(w, p, m, Check(ViewOf(w, p, m), w.kind, env).view))
  {
    var v := ViewOf(w, p, m);
    if !Stale(v) {
      PutSame(w, p, m);
    } else {
      var w' := Put(w, p, m, Check(v, w.kind, env).view);
      ReinitKeepsProc(w, p, m, env);
      OwnInstsOnly(w, w'.insts, p);
      OthersKeep(w, w', p);
    }
  }

  lemma RegisterAgrees(v: View, obj: Obj, mask: Mask)
    requires v.WF() && Usable(v, obj)
    ensures
      var r := Register(v, obj, mask);
      && r.WF() && r.IsOpen()
      && (Agreeing(v) ==> Agreeing(r))
      && (NoAlias(v.os) && Backed(v.os, v.Interest(), v.sh) ==> Backed(r.os, r.Interest(), r.sh))
  {
    var r := Register(v, obj, mask);
    assert r.Interest() == v.Interest()[v.KeyOf(obj) := Entry(obj, mask, true)];
  }

  lemma UnregisterAgrees(v: View, obj: Obj)
    requires v.WF() && Usable(v, obj)
    ensures
      var u := Unregister(v, obj);
      && u.WF() && u.IsOpen()
      && (Agreeing(v) ==> Agreeing(u))
      && (NoAlias(v.os) && Backed(v.os, v.Interest(), v.sh) ==> Backed(u.os, u.Interest(), u.sh))
  {
    var u := Unregister(v, obj);
    assert u.Interest() == v.Interest() - {v.KeyOf(obj)};
  }

  ghost predicate Wrote(v: View, obj: Obj, v': View)
    requires v.WF() && Usable(v, obj)
  {
    (exists mask :: v' == Register(v, obj, mask)) || v' == Unregister(v, obj)
  }

  lemma WroteAgrees(v: View, obj: Obj, v': View)
    requires v.WF() && Usable(v, obj) && Wrote(v, obj, v')
    ensures v'.WF() && v'.IsOpen() && v'.os == v.os && v'.me == v.me && v'.sh.copies == v.sh.copies
    ensures |v'.insts| == |v.insts| && v'.insts == v.insts[v.Inst() := v'.insts[v.Inst()]]
    ensures v'.insts[v.Inst()].creator == v.insts[v.Inst()].creator
    ensures forall k :: k in v'.Interest() ==> k in v.Interest() || k == v.KeyOf(obj)
    ensures Agreeing(v) ==> Agreeing(v')
    ensures Agreeing(v) && NoAlias(v.os) && Backed(v.os, v.Interest(), v.sh) ==> Backed(v.os, v'.Interest(), v'.sh)
  {
    if mask :| v' == Register(v, obj, mask) { RegisterAgrees(v, obj, mask); } else { UnregisterAgrees(v, obj); }
  }

  lemma WriteKeepsProc(w: World, p: Pid, m: MemberId, obj: Obj, v': View)
    requires Inv(w) && p < |w.procs| && m < |w.procs[p].members|
    requires ViewOf(w, p, m).WF() && Usable(ViewOf(w, p, m), obj) && Active(w.procs[p], p, m)
    requires Wrote(ViewOf(w, p, m), obj, v')
    ensures ProcInv(w.kind, v'.insts, w.nextFile, p, w.procs[p].(sh := v'.sh))
  {
    var v := ViewOf(w, p, m);
    WroteAgrees(v, obj, v');
    var q := w.procs[p];
    var q' := q.(sh := v'.sh);
    forall n | 0 <= n < |q.members| && Active(q', p, n) && w.kind.EpollKind? && q.covered
      ensures Agree(q'.os, v'.insts[InstOf(q', n)].interest, q'.sh)
      ensures !q'.aliased ==> Backed(q'.os, v'.insts[InstOf(q', n)].interest, q'.sh)
    {
      assert Active(q, p, n) && InstOf(q, n) == InstOf(q, m);
    }
    ProcStep(w.kind, w.insts, v'.insts, w.nextFile, w.nextFile, p, q, q');
  }

  /** Rewriting one entry together with its slot, through an active member. */
  lemma WriteKeeps(w: World, p: Pid, m: MemberId, obj: Obj, v': View)
    requires Inv(w) && p < |w.procs| && m < |w.procs[p].members|
    requires ViewOf(w, p, m).WF() && Usable(ViewOf(w, p, m), obj) && Active(w.procs[p], p, m)
    requires Wrote(ViewOf(w, p, m), obj, v')
    ensures Inv(Put(w, p, m, v'))
  {
    var v := ViewOf(w, p, m);
    var w' := Put(w, p, m, v');
    WroteAgrees(v, obj, v');
    WriteKeepsProc(w, p, m, obj, v');
    assert w.procs[p].members[m := v.me] == w.procs[p].members;
    OwnInstsOnly(w, w'.insts, p);
    OthersKeep(w, w', p);
  }

  /** After a fork check that succeeded, an open receiver is active. */
  /** What a re-initialisation leaves, at every point of failure: empty arrays; unless creating the instance
      failed, a fresh empty instance with the receiver's handle on it; and one fresh handle on it for each
      owner in @copies, in order, up to the dup that failed.  The receiver belongs to the process again
      exactly when nothing failed. */
  lemma ReinitEffect(v: View, kind: Kind, env: Reinit)
    requires v.WF() && Stale(v)
    ensures
      var c, h, n := Check(v, kind, env), |v.os.handles|, |v.sh.copies|;
      var r := c.view;
      && (c.ok <==> !env.NewFails? && !(env.DupFails? && env.after < n))
      && r.sh.events == map[] && r.sh.marks == map[] && r.os.fds == v.os.fds && r.os.objs == v.os.objs
      && r.me.pid == (if c.ok then v.pid else v.me.pid)
      && (if env.NewFails? then
            r.insts == v.insts && r.me == v.me && r.sh.copies == [] && |r.os.handles| == h
          else
            var dups := if c.ok then n else env.after;
            && r.insts == v.insts + [Inst(v.pid, map[])]
            && |r.os.handles| == h + 1 + dups && |r.sh.copies| == dups
            && r.me.io == h && r.os.handles[h] == Open(|v.insts|)
            && forall j :: 0 <= j < dups ==>
                 && r.sh.copies[j] == Copy(h + 1 + j, v.sh.copies[j].owner)
                 && r.os.handles[h + 1 + j] == Open(|v.insts|))
  {
  }

  lemma CheckedIsActive(v: View, kind: Kind, env: Reinit)
    requires v.WF() && Check(v, kind, env).ok
    ensures var c := Check(v, kind, env).view; c.me.io < |c.os.handles| && (c.IsOpen() ==> c.me.pid == v.pid)
  {
  }

  lemma PutTwice(w: World, p: Pid, m: MemberId, c: View, r: View)
    requires p < |w.procs| && m < |w.procs[p].members|
    ensures
      var w1 := Put(w, p, m, c);
      && ViewOf(w1, p, m) == View(p, m, c.os, c.insts, c.sh, c.me)
      && Put(w1, p, m, r) == Put(w, p, m, r)
  {
    var q := w.procs[p];
    assert q.members[m := c.me][m := r.me] == q.members[m := r.me];
  }

  /** A request, given the shape of its result: the fork check keeps the invariant, and so does the write. */
  lemma ShapeKeeps(w: World, p: Pid, m: MemberId, env: Reinit, r: View, req: Req)
    requires Inv(w) && p < |w.procs| && m < |w.procs[p].members| && ViewOf(w, p, m).WF()
    requires Shape(ViewOf(w, p, m), Check(ViewOf(w, p, m), w.kind, env), r, req)
    ensures Inv(Put(w, p, m, r))
  {
    var v := ViewOf(w, p, m);
    var c := Check(v, w.kind, env).view;
    CheckKeeps(w, p, m, env);
    if r == v {
      PutSame(w, p, m);
    } else if r != c {
      CheckedIsActive(v, w.kind, env);
      PutTwice(w, p, m, c, r);
      WriteKeeps(Put(w, p, m, c), p, m, req.obj, r);
    }
  }

  lemma RequestKeeps(w: World, p: Pid, m: MemberId, req: Req, env: Env)
    requires Inv(w) && Enabled(w, Request(p, m, req, env))
    ensures Inv(Next(w, Request(p, m, req, env)))
  {
    var v := ViewOf(w, p, m);
    CheckKeeps(w, p, m, env.reinit);
    CallShape(v, w.kind, req, env);
    ShapeKeeps(w, p, m, env.reinit, Perform(v, w.kind, req, env).view, req);
  }

  lemma {:induction false} WithoutKeys(copies: seq<Copy>, io: IoId)
    ensures Keys(Without(copies, io)) == Keys(copies) - {io}
    ensures forall c :: c in Without(copies, io) <==> c in copies && c.io != io
  {
    if copies != [] {
      WithoutKeys(copies[1..], io);
      assert forall c :: c in copies <==> c == copies[0] || c in copies[1..];
    }
  }

  function ClosedIo(q: Proc, io: IoId): Proc
    requires io < |q.os.handles|
  {
    q.(os := q.os.(handles := q.os.handles[io := Closed]), sh := q.sh.(copies := Without(q.sh.copies, io)))
  }

  lemma CloseKeepsProc(kind: Kind, insts: seq<Inst>, nextFile: File, p: Pid, q: Proc, io: IoId)
    requires ProcInv(kind, insts, nextFile, p, q) && io < |q.os.handles|
    ensures ProcInv(kind, insts, nextFile, p, ClosedIo(q, io))
  {
    var q' := ClosedIo(q, io);
    WithoutKeys(q.sh.copies, io);
    assert forall n :: 0 <= n < |q.members| && IsOpen(q', n) ==>
      IsOpen(q, n) && InstOf(q', n) == InstOf(q, n) && q.members[n].io != io;
    assert forall n :: 0 <= n < |q.members| && Active(q', p, n) ==> Active(q, p, n);
    ProcStep(kind, insts, insts, nextFile, nextFile, p, q, q');
  }

  /** Closing handles never breaks anything, as long as open members stay in @copies. */
  lemma CloseKeeps(w: World, p: Pid, m: MemberId)
    requires Inv(w) && p < |w.procs| && m < |w.procs[p].members|
    ensures Inv(Next(w, Close(p, m)))
  {
    var v := ViewOf(w, p, m);
    var w' := Put(w, p, m, CloseCall(v).view);
    var q := w.procs[p];
    assert q.members[m := v.me] == q.members;
    assert q.os.handles[v.me.io].Closed? ==> q.os.handles[v.me.io := Closed] == q.os.handles;
    CloseKeepsProc(w.kind, w.insts, w.nextFile, p, q, v.me.io);
    OwnInstsOnly(w, w'.insts, p);
    OthersKeep(w, w', p);
  }

  lemma CollectKeeps(w: World, p: Pid, h: IoId)
    requires Inv(w) && Enabled(w, Collect(p, h))
    ensures Inv(Next(w, Collect(p, h)))
  {
    if w.kind.EpollKind? {
      var w' := Next(w, Collect(p, h));
      var q, q' := w.procs[p], w'.procs[p];
      assert forall n :: 0 <= n < |q.members| && IsOpen(q', n) ==> IsOpen(q, n) && InstOf(q', n) == InstOf(q, n);
      assert forall n :: 0 <= n < |q.members| && Active(q', p, n) ==> Active(q, p, n);
      ProcStep(w.kind, w.insts, w'.insts, w.nextFile, w'.nextFile, p, q, q');
      OwnInstsOnly(w, w'.insts, p);
      OthersKeep(w, w', p);
    }
  }

  lemma ForkKeeps(w: World, p: Pid)
    requires Inv(w) && p < |w.procs|
    ensures Inv(Next(w, Fork(p)))
  {
    var w' := Next(w, Fork(p));
    var child := |w.procs|;
    var q, q' := w.procs[p], w'.procs[child];
    assert forall m :: 0 <= m < |q.members| ==> !Active(q', child, m) && IsOpen(q', m) == IsOpen(q, m);
    assert forall r :: 0 <= r < child ==> w'.procs[r] == w.procs[r];
  }

  lemma OpenAgrees(os: Os, t: Interest, sh: Shared, fd: Fd, file: File)
    requires fd !in os.fds && Key(file, fd) !in t
    ensures
      var os' := os.(fds := os.fds[fd := file], objs := os.objs + [Io(fd, false)]);
      && (Agree(os, t, sh) ==> Agree(os', t, sh))
      && (Backed(os, t, sh) ==> Backed(os', t, sh))
      && (NoAlias(os) ==> NoAlias(os'))
  {
  }

  lemma OpenKeeps(w: World, p: Pid, fd: Fd)
    requires Inv(w) && Enabled(w, OpenFile(p, fd))
    ensures Inv(Next(w, OpenFile(p, fd)))
  {
    var w' := Next(w, OpenFile(p, fd));
    var q, q' := w.procs[p], w'.procs[p];
    forall i | 0 <= i < |w.insts|
      ensures Agree(q.os, w.insts[i].interest, q.sh) ==> Agree(q'.os, w.insts[i].interest, q.sh)
      ensures Backed(q.os, w.insts[i].interest, q.sh) ==> Backed(q'.os, w.insts[i].interest, q.sh)
      ensures NoAlias(q.os) ==> NoAlias(q'.os)
    {
      OpenAgrees(q.os, w.insts[i].interest, q.sh, fd, w.nextFile);
    }
    OpenAgrees(q.os, map[], q.sh, fd, w.nextFile);
    assert forall n :: 0 <= n < |q.members| && IsOpen(q', n) ==> IsOpen(q, n) && InstOf(q', n) == InstOf(q, n);
    assert forall n :: 0 <= n < |q.members| && Active(q', p, n) ==> Active(q, p, n);
    ProcStep(w.kind, w.insts, w'.insts, w.nextFile, w'.nextFile, p, q, q');
    OwnInstsOnly(w, w'.insts, p);
    OthersKeep(w, w', p);
  }

  lemma AliasKeeps(w: World, p: Pid, fd: Fd)
    requires Inv(w) && Enabled(w, AliasFile(p, fd))
    ensures Inv(Next(w, AliasFile(p, fd)))
  {
    var w' := Next(w, AliasFile(p, fd));
    var q, q' := w.procs[p], w'.procs[p];
    assert forall n :: 0 <= n < |q.members| && IsOpen(q', n) ==> IsOpen(q, n) && InstOf(q', n) == InstOf(q, n);
    assert forall n :: 0 <= n < |q.members| && Active(q', p, n) ==> Active(q, p, n);
    ProcStep(w.kind, w.insts, w'.insts, w.nextFile, w'.nextFile, p, q, q');
    OwnInstsOnly(w, w'.insts, p);
    OthersKeep(w, w', p);
  }

  lemma DeliverKeeps(w: World, i: EpId, k: Key)
    requires Inv(w) && Enabled(w, Deliver(i, k))
    ensures Inv(Next(w, Deliver(i, k)))
  {
    var w' := Next(w, Deliver(i, k));
    forall p | 0 <= p < |w.procs|
      ensures ProcInv(w'.kind, w'.insts, w'.nextFile, p, w'.procs[p])
    {
      ProcFrame(w.kind, w.insts, w'.insts, w.nextFile, w.nextFile, p, w.procs[p]);
    }
  }

  lemma {:induction false} KeysAppend(copies: seq<Copy>, c: Copy)
    ensures Keys(copies + [c]) == Keys(copies) + {c.io}
  {
    assert forall d :: d in copies + [c] <==> d in copies || d == c;
  }

  /** A newcomer whose handle is closed changes nothing for the others. */
  lemma ClosedNewcomer(kind: Kind, insts: seq<Inst>, nextFile: File, p: Pid, q: Proc, me: Member)
    requires ProcInv(kind, insts, nextFile, p, q)
    requires me.io < |q.os.handles| && q.os.handles[me.io].Closed? && me.pid <= p
    ensures ProcInv(kind, insts, nextFile, p, q.(members := q.members + [me]))
  {
    ClosedMembers(insts, p, q, me);
    assert kind.EpollKind? && q.covered ==> Tidy(p, q.(members := q.members + [me]));
  }

  lemma ClosedMembers(insts: seq<Inst>, p: Pid, q: Proc, me: Member)
    requires Linked(insts, q) && me.io < |q.os.handles| && q.os.handles[me.io].Closed?
    ensures
      var q', n := q.(members := q.members + [me]), |q.members|;
      && Linked(insts, q') && q'.members[n] == me && !IsOpen(q', n)
      && (forall a :: 0 <= a < n ==> q'.members[a] == q.members[a] && IsOpen(q', a) == IsOpen(q, a))
      && (forall a :: 0 <= a < n ==> Active(q', p, a) == Active(q, p, a))
      && (forall a :: 0 <= a < n && IsOpen(q', a) ==> InstOf(q', a) == InstOf(q, a))
  {
  }

  /** The process with a newcomer on a fresh handle of instance `i`, entered in @copies. */
  function Joined(q: Proc, p: Pid, i: EpId): Proc {
    var h, n := |q.os.handles|, |q.members|;
    q.(os := q.os.(handles := q.os.handles + [Open(i)]),
       sh := q.sh.(copies := q.sh.copies + [Copy(h, n)]),
       members := q.members + [Member(h, p)])
  }

  lemma JoinedMembers(insts: seq<Inst>, p: Pid, q: Proc, i: EpId)
    requires Linked(insts, q) && i < |insts|
    ensures
      var q', n := Joined(q, p, i), |q.members|;
      && Linked(insts, q')
      && Keys(q'.sh.copies) == Keys(q.sh.copies) + {|q.os.handles|}
      && (forall a :: 0 <= a < n ==> q'.members[a] == q.members[a] && IsOpen(q', a) == IsOpen(q, a))
      && (forall a :: 0 <= a < n ==> Active(q', p, a) == Active(q, p, a))
      && (forall a :: 0 <= a < n && IsOpen(q', a) ==> InstOf(q', a) == InstOf(q, a))
      && Active(q', p, n) && InstOf(q', n) == i && q'.members[n].io == |q.os.handles|
  {
    KeysAppend(q.sh.copies, Copy(|q.os.handles|, |q.members|));
  }

  /** A newcomer may join on the instance that the active members use, or on a fresh one if there are none. */
  lemma OpenNewcomer(kind: Kind, insts: seq<Inst>, nextFile: File, p: Pid, q: Proc, i: EpId)
    requires ProcInv(kind, insts, nextFile, p, q) && i < |insts| && insts[i].creator == p
    requires kind.EpollKind? && q.covered ==>
               && (forall n :: 0 <= n < |q.members| && Active(q, p, n) ==> InstOf(q, n) == i)
               && Agree(q.os, insts[i].interest, q.sh)
               && (!q.aliased ==> Backed(q.os, insts[i].interest, q.sh))
    ensures ProcInv(kind, insts, nextFile, p, Joined(q, p, i))
  {
    var q', n := Joined(q, p, i), |q.members|;
    JoinedMembers(insts, p, q, i);
    if kind.EpollKind? && q.covered {
      assert forall a :: 0 <= a <= n && Active(q', p, a) ==> InstOf(q', a) == i;
    }
  }

  /** Duplicating an object that needs no re-initialisation. */
  lemma PlainDupKeepsProc(w: World, p: Pid, m: MemberId, env: Reinit, dupFails: bool)
    requires Inv(w) && p < |w.procs| && m < |w.procs[p].members|
    requires NewcomerView(w, p, m).WF() && !Stale(NewcomerView(w, p, m))
    ensures
      var w' := AfterDup(w, p, CopyCall(NewcomerView(w, p, m), w.kind, env, dupFails));
      w'.insts == w.insts && ProcInv(w'.kind, w'.insts, w'.nextFile, p, w'.procs[p])
  {
    var q := w.procs[p];
    if !IsOpen(q, m) {
      ClosedNewcomer(w.kind, w.insts, w.nextFile, p, q, q.members[m]);
    } else if !dupFails {
      assert Active(q, p, m);
      OpenNewcomer(w.kind, w.insts, w.nextFile, p, q, InstOf(q, m));
    }
  }

  /** The process while the newcomer has re-initialised and is not yet a member. */
  lemma ReinitBeforeDup(w: World, p: Pid, m: MemberId, env: Reinit)
    requires Inv(w) && p < |w.procs| && m < |w.procs[p].members|
    requires NewcomerView(w, p, m).WF() && Stale(NewcomerView(w, p, m))
    ensures
      var c := Check(NewcomerView(w, p, m), w.kind, env).view;
      var q1 := w.procs[p].(os := c.os, sh := c.sh);
      && ProcInv(w.kind, c.insts, w.nextFile, p, q1)
      && (w.kind.EpollKind? && q1.covered ==> forall n :: 0 <= n < |q1.members| ==> !Active(q1, p, n))
  {
    var v := NewcomerView(w, p, m);
    var c := Check(v, w.kind, env).view;
    var q := w.procs[p];
    var q1 := q.(os := c.os, sh := c.sh);
    ReinitHandles(v, w.kind, env);
    CheckWF(v, w.kind, env);
    assert forall n :: 0 <= n < |q.members| && IsOpen(q1, n) ==> IsOpen(q, n) && InstOf(q1, n) == InstOf(q, n);
    if w.kind.EpollKind? && q.covered {
      forall n | 0 <= n < |q.members| && n != m
        ensures !IsOpen(q1, n)
      {
        assert IsOpen(q, m) && !Active(q, p, m);
        assert IsOpen(q, n) ==> q.members[n].io in Keys(q.sh.copies);
      }
    }
    FreshStart(w.kind, w.insts, c.insts, w.nextFile, p, q, q1, m);
  }

  /** The newcomer of a re-initialising dup joins on the new instance, unless something fails. */
  lemma ReinitDupJoins(w: World, p: Pid, m: MemberId, env: Reinit, dupFails: bool)
    requires p < |w.procs| && m < |w.procs[p].members|
    requires NewcomerView(w, p, m).WF() && Stale(NewcomerView(w, p, m))
    ensures
      var c := Check(NewcomerView(w, p, m), w.kind, env);
      var q1 := w.procs[p].(os := c.view.os, sh := c.view.sh);
      var w' := AfterDup(w, p, CopyCall(NewcomerView(w, p, m), w.kind, env, dupFails));
      && w'.insts == c.view.insts
      && w'.procs[p] == (if c.ok && !dupFails then Joined(q1, p, |w.insts|) else q1)
      && (c.ok ==> c.view.insts == w.insts + [Inst(p, map[])])
  {
  }

  lemma ReinitDupKeepsProc(w: World, p: Pid, m: MemberId, env: Reinit, dupFails: bool)
    requires Inv(w) && p < |w.procs| && m < |w.procs[p].members|
    requires NewcomerView(w, p, m).WF() && Stale(NewcomerView(w, p, m))
    ensures
      var w' := AfterDup(w, p, CopyCall(NewcomerView(w, p, m), w.kind, env, dupFails));
      ProcInv(w'.kind, w'.insts, w'.nextFile, p, w'.procs[p])
  {
    var v := NewcomerView(w, p, m);
    var c := Check(v, w.kind, env);
    ReinitBeforeDup(w, p, m, env);
    ReinitDupJoins(w, p, m, env, dupFails);
    if c.ok && !dupFails {
      OpenNewcomer(w.kind, c.view.insts, w.nextFile, p, w.procs[p].(os := c.view.os, sh := c.view.sh), |w.insts|);
    }
  }

  lemma CopyInsts(v: View, kind: Kind, env: Reinit, dupFails: bool)
    requires v.WF()
    ensures
      var c := CopyCall(v, kind, env, dupFails).view;
      c.insts == v.insts || c.insts == v.insts + [Inst(v.pid, map[])]
  {
  }

  lemma DupKeeps(w: World, p: Pid, m: MemberId, env: Reinit, dupFails: bool)
    requires Inv(w) && p < |w.procs| && m < |w.procs[p].members|
    ensures Inv(Next(w, Dup(p, m, env, dupFails)))
  {
    var v := NewcomerView(w, p, m);
    var w' := AfterDup(w, p, CopyCall(v, w.kind, env, dupFails));
    if Stale(v) {
      ReinitDupKeepsProc(w, p, m, env, dupFails);
    } else {
      PlainDupKeepsProc(w, p, m, env, dupFails);
    }
    CopyInsts(v, w.kind, env, dupFails);
    Appended(w, w'.insts, p);
    OthersKeep(w, w', p);
  }

  lemma CloseAgrees(os: Os, t: Interest, t': Interest, sh: Shared, obj: Obj)
    requires obj < |os.objs| && !os.objs[obj].closed
    requires forall fd :: fd in os.fds && fd != os.objs[obj].fd ==>
               var k := Key(os.fds[fd], fd); (k in t <==> k in t') && (k in t ==> t'[k] == t[k])
    ensures
      var os' := os.(fds := os.fds - {os.objs[obj].fd}, objs := os.objs[obj := os.objs[obj].(closed := true)]);
      && (Agree(os, t, sh) ==> Agree(os', t', sh))
      && (NoAlias(os) ==> NoAlias(os'))
      && (NoAlias(os) && Backed(os, t, sh) ==> Backed(os', t', sh))
  {
  }

  /** Closing a file spares every entry that some process can still address. */
  lemma CloseSpares(w: World, p: Pid, obj: Obj, r: Pid)
    requires p < |w.procs| && obj < |w.procs[p].os.objs| && r < |w.procs|
    ensures
      var w' := AfterClose(w, p, obj);
      Undisturbed(w.insts, w'.insts, r, w'.procs[r].os.fds) &&
      forall i, fd :: 0 <= i < |w.insts| && fd in w'.procs[r].os.fds ==>
        var k := Key(w'.procs[r].os.fds[fd], fd);
        && (k in w.insts[i].interest <==> k in w'.insts[i].interest)
        && (k in w.insts[i].interest ==> w'.insts[i].interest[k] == w.insts[i].interest[k])
  {
    var w' := AfterClose(w, p, obj);
    forall fd | fd in w'.procs[r].os.fds
      ensures Referenced(w'.procs, w'.procs[r].os.fds[fd])
    {
      assert w'.procs[r].os.fds[fd] in w'.procs[r].os.fds.Values;
    }
  }

  lemma CloseFileKeepsProc(w: World, p: Pid, obj: Obj)
    requires Inv(w) && Enabled(w, CloseFile(p, obj))
    ensures var w' := AfterClose(w, p, obj); ProcInv(w.kind, w'.insts, w'.nextFile, p, w'.procs[p])
  {
    var w' := AfterClose(w, p, obj);
    var q, q' := w.procs[p], w'.procs[p];
    CloseSpares(w, p, obj, p);
    forall n | 0 <= n < |q.members| && Active(q', p, n) && w.kind.EpollKind? && q.covered
      ensures Agree(q'.os, w'.insts[InstOf(q', n)].interest, q'.sh)
      ensures !q'.aliased ==> Backed(q'.os, w'.insts[InstOf(q', n)].interest, q'.sh)
    {
      assert Active(q, p, n) && InstOf(q', n) == InstOf(q, n);
      assert forall fd :: fd in q.os.fds && fd != q.os.objs[obj].fd ==>
        fd in q'.os.fds && q'.os.fds[fd] == q.os.fds[fd];
      CloseAgrees(q.os, w.insts[InstOf(q, n)].interest, w'.insts[InstOf(q, n)].interest, q.sh, obj);
    }
    CloseAgrees(q.os, map[], map[], q.sh, obj);
    ProcStep(w.kind, w.insts, w'.insts, w.nextFile, w'.nextFile, p, q, q');
  }

  lemma CloseFileKeeps(w: World, p: Pid, obj: Obj)
    requires Inv(w) && Enabled(w, CloseFile(p, obj))
    ensures Inv(Next(w, CloseFile(p, obj)))
  {
    var w' := AfterClose(w, p, obj);
    CloseFileKeepsProc(w, p, obj);
    forall r | 0 <= r < |w.procs| && r != p
      ensures Undisturbed(w.insts, w'.insts, r, w.procs[r].os.fds)
    {
      CloseSpares(w, p, obj, r);
    }
    OthersKeep(w, w', p);
  }

  // -------------------------------------------------------------------- every run

  lemma StepKeeps(w: World, s: Step)
    requires Inv(w)
    ensures Inv(Next(w, s))
  {
    if Enabled(w, s) {
      match s
      case Fork(p) => ForkKeeps(w, p);
      case Request(p, m, req, env) => RequestKeeps(w, p, m, req, env);
      case Close(p, m) => CloseKeeps(w, p, m);
      case Dup(p, m, env, dupFails) => DupKeeps(w, p, m, env, dupFails);
      case OpenFile(p, fd) => OpenKeeps(w, p, fd);
      case AliasFile(p, fd) => AliasKeeps(w, p, fd);
      case CloseFile(p, obj) => CloseFileKeeps(w, p, obj);
      case Deliver(i, k) => DeliverKeeps(w, i, k);
      case Collect(p, h) => CollectKeeps(w, p, h);
    }
  }

  /** A process with one member, which holds an empty instance of its own, and nothing cached. */
  lemma SoleMember(kind: Kind, insts: seq<Inst>, p: Pid, q: Proc)
    requires |q.members| == 1 && Linked(insts, q) && Active(q, p, 0)
    requires insts[InstOf(q, 0)] == Inst(p, map[])
    requires q.os.fds == map[] && q.os.objs == [] && q.sh.events == map[] && q.sh.marks == map[] && q.covered
    ensures ProcInv(kind, insts, 0, p, q)
  {
    assert Agree(q.os, map[], q.sh) && Backed(q.os, map[], q.sh);
    assert Tidy(p, q) && InStep(insts, p, q);
  }

  lemma StartInv(kind: Kind)
    ensures Inv(Start(kind))
  {
    var w := Start(kind);
    var q := w.procs[0];
    assert q.os.handles == [Open(0)] && q.sh.copies == [Copy(0, 0)];
    assert Linked(w.insts, q);
    SoleMember(kind, w.insts, 0, q);
  }

  /** The world after any sequence of steps: every run of the family, from its first object on. */
  ghost function After(kind: Kind, steps: seq<Step>): World {
    if steps == [] then Start(kind) else Next(After(kind, steps[..|steps| - 1]), steps[|steps| - 1])
  }

  lemma AfterOneMore(kind: Kind, steps: seq<Step>, s: Step)
    ensures After(kind, steps + [s]) == Next(After(kind, steps), s)
  {
    assert (steps + [s])[..|steps|] == steps;
  }

  /** The invariant holds after every run. */
  lemma {:induction false} RunKeeps(kind: Kind, steps: seq<Step>)
    ensures Inv(After(kind, steps)) && After(kind, steps).kind == kind
  {
    if steps == [] {
      StartInv(kind);
    } else {
      RunKeeps(kind, steps[..|steps| - 1]);
      StepKeeps(After(kind, steps[..|steps| - 1]), steps[|steps| - 1]);
    }
  }
}
