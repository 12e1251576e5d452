/** The per-thread buffer pool: one cached buffer in a thread-local slot, and plain
    allocations for waits that are nested inside a wait. */
module TlsPool {

  const UINT32_MAX: nat := 0xffff_ffff
  const BUF_HEADER: nat := 8    // offsetof(struct rb_sp_tlsbuf, ptr)

  type Addr = nat  // 0 is NULL

  datatype BufType = InUse | Ready | Malloced
  datatype Buf = Buf(capa: nat, bufType: BufType)

  /** The thread-local pointer, and every struct that is allocated and not freed.  A pointer
      outside `heap` dangles. */
  datatype Pool = Pool(slot: Addr, heap: map<Addr, Buf>)

  /** What the allocator and pthread_setspecific answer. */
  datatype Answer = Answer(addr: Addr, noMemory: bool, setFails: bool)

  datatype Got =
    | Buffer(pool: Pool, ptr: Addr, size: nat)
    | Failure(pool: Pool)   // rb_memerror or rb_sys_fail
    | Crash                 // a freed struct was dereferenced
    | AssertionFailed

  datatype Returned = Done(pool: Pool) | BadPointer | PutAssertionFailed

  function Uint32(n: nat): nat {
    n % (UINT32_MAX + 1)
  }

  predicate AllocFails(size: nat, a: Answer) {
    size >= UINT32_MAX || a.noMemory
  }

  /** The request outgrows a cached buffer that is free to be replaced. */
  predicate Grows(p: Pool, size: nat) {
    p.slot != 0 && p.slot in p.heap && p.heap[p.slot].bufType == Ready && p.heap[p.slot].capa < size
  }

  predicate Busy(p: Pool) {
    p.slot != 0 && p.slot in p.heap && p.heap[p.slot].bufType != Ready
  }

  /** The allocator hands out an address that is not in use, counting the buffer freed just before. */
  predicate Honest(p: Pool, size: nat, a: Answer) {
    a.addr != 0 && (a.addr !in p.heap || (Grows(p, size) && a.addr == p.slot))
  }

  /** rb_sp_gettlsbuf */
  function Get(p: Pool, size: nat, a: Answer): Got {
    if p.slot != 0 && p.slot !in p.heap then Crash
    else if p.slot != 0 && p.heap[p.slot].bufType == Malloced then AssertionFailed
    else if Busy(p) then
      if AllocFails(size, a) then Failure(p)
      else Buffer(p.(heap := p.heap[a.addr := Buf(Uint32(size), Malloced)]), a.addr + BUF_HEADER, size)
    else if p.slot != 0 && !Grows(p, size) then
      Buffer(p.(heap := p.heap[p.slot := Buf(p.heap[p.slot].capa, InUse)]), p.slot + BUF_HEADER, p.heap[p.slot].capa)
    else if AllocFails(size, a) || a.setFails then
      Failure(p.(heap := p.heap - {p.slot}))
    else
      Buffer(Pool(a.addr, (p.heap - {p.slot})[a.addr := Buf(Uint32(size), InUse)]), a.addr + BUF_HEADER, size)
  }

  /** rb_sp_puttlsbuf */
  function Put(p: Pool, ptr: Addr): Returned {
    if ptr == 0 then Done(p)
    else if ptr < BUF_HEADER || ptr - BUF_HEADER !in p.heap then BadPointer
    else
      var addr := ptr - BUF_HEADER;
      match p.heap[addr].bufType
      case InUse =>
        if p.slot != addr then PutAssertionFailed
        else Done(p.(heap := p.heap[addr := Buf(p.heap[addr].capa, Ready)]))
      case Ready => PutAssertionFailed
      case Malloced => Done(p.(heap := p.heap - {addr}))
  }

  // ------------------------------------------------------------------------- runs

  /** A buffer that a caller holds, with the size it asked for. */
  datatype Held = Held(ptr: Addr, size: nat)

  datatype Op = OpGet(size: nat, answer: Answer) | OpPut(index: nat)

  datatype Status = Running | Dead | Wrong

  /** One thread: its pool, the buffers handed out and not yet returned, in the order of the gets. */
  datatype Thread = Thread(pool: Pool, out: seq<Held>, status: Status)

  /** A get or a put of any outstanding buffer.  An unrecovered failure while the cached buffer is
      being replaced ends the thread's run; a failure elsewhere is an ordinary exception. */
  function Next(t: Thread, op: Op): Thread {
    if !t.status.Running? then t else
    match op
    case OpGet(size, a) =>
      if !Honest(t.pool, size, a) then t else (
      match Get(t.pool, size, a)
      case Buffer(pool, ptr, _) => Thread(pool, t.out + [Held(ptr, size)], Running)
      case Failure(pool) => Thread(pool, t.out, if Grows(t.pool, size) then Dead else Running)
      case Crash => t.(status := Wrong)
      case AssertionFailed => t.(status := Wrong))
    case OpPut(i) =>
      if i >= |t.out| then t else (
      match Put(t.pool, t.out[i].ptr)
      case Done(pool) => Thread(pool, Removed(t.out, i), Running)
      case BadPointer => t.(status := Wrong)
      case PutAssertionFailed => t.(status := Wrong))
  }

  const FRESH := Thread(Pool(0, map[]), [], Running)

  function After(ops: seq<Op>): Thread {
    if ops == [] then FRESH else Next(After(ops[..|ops| - 1]), ops[|ops| - 1])
  }

  // ------------------------------------------------------------------- invariant

  ghost predicate PoolOk(p: Pool) {
    && (p.slot == 0 || (p.slot in p.heap && p.heap[p.slot].bufType != Malloced))
    && (forall a :: a in p.heap ==> a != 0 && (a == p.slot || p.heap[a].bufType == Malloced))
  }

  /** container_of */
  function Struct(ptr: Addr): int {
    ptr - BUF_HEADER
  }

  /** The held buffer is live, big enough and marked as taken. */
  ghost predicate Holds(p: Pool, h: Held) {
    Struct(h.ptr) in p.heap && p.heap[Struct(h.ptr)].capa >= h.size && p.heap[Struct(h.ptr)].bufType != Ready
  }

  ghost predicate HeldSomewhere(out: seq<Held>, a: Addr) {
    exists h :: h in out && Struct(h.ptr) == a
  }

  ghost predicate Distinct(out: seq<Held>) {
    forall i, j :: 0 <= i < j < |out| ==> out[i].ptr != out[j].ptr
  }

  ghost predicate Inv(t: Thread) {
    && PoolOk(t.pool)
    && (forall h :: h in t.out ==> Holds(t.pool, h))
    && Distinct(t.out)
    && (forall a :: a in t.pool.heap && t.pool.heap[a].bufType != Ready ==> HeldSomewhere(t.out, a))
  }

  function SlotCapa(p: Pool): nat {
    if p.slot in p.heap then p.heap[p.slot].capa else 0
  }

  lemma Uint32Exact(n: nat)
    requires n <= UINT32_MAX
    ensures Uint32(n) == n
  {
  }

  /** What a get does to the heap: the buffer it returns was free, holds the request without
      truncation, and no buffer in use is touched; the cached buffer never shrinks. */
  lemma GetEffect(p: Pool, size: nat, a: Answer)
    requires PoolOk(p) && Honest(p, size, a) && !Get(p, size, a).Failure?
    ensures
      var g := Get(p, size, a);
      && g.Buffer? && PoolOk(g.pool)
      && Struct(g.ptr) in g.pool.heap
      && g.pool.heap[Struct(g.ptr)].bufType != Ready && g.pool.heap[Struct(g.ptr)].capa == g.size >= size
      && (forall b :: b in g.pool.heap && b != Struct(g.ptr) ==> b in p.heap && g.pool.heap[b] == p.heap[b])
      && (forall b :: b in p.heap && p.heap[b].bufType != Ready ==>
            b != Struct(g.ptr) && b in g.pool.heap && g.pool.heap[b] == p.heap[b])
      && SlotCapa(g.pool) >= SlotCapa(p)
  {
    if size <= UINT32_MAX { Uint32Exact(size); }
  }

  /** A get decides.  On a pool in order it fails exactly when a buffer has to be allocated and cannot be:
      the request does not fit 32 bits, there is no memory, or the new buffer cannot be put into the slot.
      A ready slot that is large enough is reused without allocating; while the slot is in use, a nested
      request gets a buffer of its own and the slot stays; otherwise the new buffer takes the slot over. */
  lemma GetDecides(p: Pool, size: nat, a: Answer)
    requires PoolOk(p) && Honest(p, size, a)
    ensures
      var g := Get(p, size, a);
      var nested := p.slot != 0 && p.heap[p.slot].bufType == InUse;
      var reuse := p.slot != 0 && p.heap[p.slot].bufType == Ready && p.heap[p.slot].capa >= size;
      && (g.Failure? <==> !reuse && (size >= 0xffff_ffff || a.noMemory || (!nested && a.setFails)))
      && (g.Buffer? ==>
            if reuse then
              && g.ptr == p.slot + 8 && g.size == p.heap[p.slot].capa && g.pool.slot == p.slot
              && g.pool.heap == p.heap[p.slot := Buf(g.size, InUse)]
            else if nested then
              && g.ptr == a.addr + 8 && g.size == size && g.pool.slot == p.slot
              && g.pool.heap == p.heap[a.addr := Buf(size, Malloced)]
            else
              && g.ptr == a.addr + 8 && g.size == size && g.pool.slot == a.addr
              && g.pool.heap == (p.heap - {p.slot})[a.addr := Buf(size, InUse)])
  {
    if size <= UINT32_MAX { Uint32Exact(size); }
  }

  /** A put decides, for any pool and pointer: NULL is ignored, the slot's buffer becomes ready again, a
      nested one is freed; a pointer that leads nowhere, a second put of the slot's buffer, or a buffer in
      use outside the slot is caught. */
  lemma PutDecides(p: Pool, ptr: Addr)
    ensures
      var r := Put(p, ptr);
      if ptr == 0 then r == Done(p)
      else if ptr < 8 || ptr - 8 !in p.heap then r == BadPointer
      else
        var b := p.heap[ptr - 8];
        && (r.PutAssertionFailed? <==> b.bufType == Ready || (b.bufType == InUse && p.slot != ptr - 8))
        && (r.Done? <==> b.bufType == Malloced || (b.bufType == InUse && p.slot == ptr - 8))
        && (r.Done? ==>
              && r.pool.slot == p.slot
              && r.pool.heap == (if b.bufType == Malloced then p.heap - {ptr - 8}
                                 else p.heap[ptr - 8 := Buf(b.capa, Ready)]))
  {
  }

  lemma PutEffect(p: Pool, h: Held)
    requires PoolOk(p) && Holds(p, h)
    ensures
      var r := Put(p, h.ptr);
      && r.Done? && PoolOk(r.pool) && SlotCapa(r.pool) == SlotCapa(p)
      && (forall b :: b in p.heap && b != Struct(h.ptr) ==> b in r.pool.heap && r.pool.heap[b] == p.heap[b])
      && (forall b :: b in r.pool.heap && r.pool.heap[b].bufType != Ready ==>
            b in p.heap && b != Struct(h.ptr) && p.heap[b] == r.pool.heap[b])
  {
  }

  /** Handing out a buffer that nobody holds. */
  lemma GetKeeps(t: Thread, size: nat, a: Answer)
    requires Inv(t) && Honest(t.pool, size, a) && !Get(t.pool, size, a).Failure?
    ensures
      var g := Get(t.pool, size, a);
      g.Buffer? && Inv(Thread(g.pool, t.out + [Held(g.ptr, size)], Running))
  {
    GetEffect(t.pool, size, a);
    var g := Get(t.pool, size, a);
    var h := Held(g.ptr, size);
    forall i | 0 <= i < |t.out|
      ensures t.out[i].ptr != g.ptr
    {
      assert Holds(t.pool, t.out[i]);
    }
    assert forall k :: k in t.out + [h] <==> k in t.out || k == h;
    forall b | b in g.pool.heap && g.pool.heap[b].bufType != Ready
      ensures HeldSomewhere(t.out + [h], b)
    {
      if b == Struct(g.ptr) {
        assert h in t.out + [h];
      } else {
        assert HeldSomewhere(t.out, b);
        var k :| k in t.out && Struct(k.ptr) == b;
        assert k in t.out + [h];
      }
    }
  }

  function Removed(out: seq<Held>, i: nat): seq<Held>
    requires i < |out|
  {
    out[..i] + out[i + 1..]
  }

  lemma RemovedDistinct(out: seq<Held>, i: nat)
    requires i < |out| && Distinct(out)
    ensures Distinct(Removed(out, i))
    ensures forall h :: h in Removed(out, i) <==> h in out && h.ptr != out[i].ptr
  {
    var r := Removed(out, i);
    assert forall j :: 0 <= j < i ==> r[j] == out[j];
    assert forall j :: i <= j < |r| ==> r[j] == out[j + 1];
    forall h | h in out && h.ptr != out[i].ptr
      ensures h in r
    {
      var j :| 0 <= j < |out| && out[j] == h;
      assert r[if j < i then j else j - 1] == h;
    }
  }

  /** A put of any outstanding buffer, in any order, frees nothing that is still held. */
  lemma PutKeeps(t: Thread, i: nat)
    requires Inv(t) && i < |t.out|
    ensures
      var r := Put(t.pool, t.out[i].ptr);
      && r.Done?
      && Inv(Thread(r.pool, Removed(t.out, i), Running))
      && SlotCapa(r.pool) == SlotCapa(t.pool)
  {
    assert t.out[i] in t.out;
    PutEffect(t.pool, t.out[i]);
    RemovedDistinct(t.out, i);
    var r := Put(t.pool, t.out[i].ptr);
    forall b | b in r.pool.heap && r.pool.heap[b].bufType != Ready
      ensures HeldSomewhere(Removed(t.out, i), b)
    {
      assert HeldSomewhere(t.out, b);
      var h :| h in t.out && Struct(h.ptr) == b;
      assert h in Removed(t.out, i);
    }
  }

  /** A failing get leaves a usable pool if and only if it was not about to replace the cached
      buffer: on that path the old buffer is freed first and the slot keeps pointing at it. */
  lemma FailureExactly(p: Pool, size: nat, a: Answer)
    requires PoolOk(p) && Get(p, size, a).Failure?
    ensures PoolOk(Get(p, size, a).pool) <==> !Grows(p, size)
    ensures Grows(p, size) ==> forall size': nat, a' :: Get(Get(p, size, a).pool, size', a') == Crash
  {
    if !Grows(p, size) {
      assert p.heap - {0} == p.heap;
    }
  }

  lemma StepKeeps(t: Thread, op: Op)
    requires t.status.Running? && Inv(t)
    ensures !Next(t, op).status.Wrong?
    ensures Next(t, op).status.Running? ==> Inv(Next(t, op)) && SlotCapa(Next(t, op).pool) >= SlotCapa(t.pool)
  {
    match op
    case OpGet(size, a) =>
      if Honest(t.pool, size, a) {
        if Get(t.pool, size, a).Failure? {
          FailureExactly(t.pool, size, a);
          if !Grows(t.pool, size) { assert t.pool.heap - {0} == t.pool.heap; }
        } else {
          GetEffect(t.pool, size, a);
          GetKeeps(t, size, a);
        }
      }
    case OpPut(i) => if i < |t.out| { PutKeeps(t, i); }
  }

  /** Pool safety, over every sequence of gets and puts at any nesting depth and in any release
      order: no assertion fires, nothing freed is touched, every outstanding buffer is live, big
      enough and distinct from the others, and when all are returned at most the cached buffer
      is still allocated. */
  lemma {:induction false} PoolSafety(ops: seq<Op>)
    ensures
      var t := After(ops);
      && !t.status.Wrong?
      && (t.status.Running? ==>
            && Inv(t)
            && (forall i :: 0 <= i < |t.out| ==>
                  Holds(t.pool, t.out[i]) && forall j :: 0 <= j < i ==> t.out[j].ptr != t.out[i].ptr)
            && (t.out == [] ==> t.pool.heap.Keys <= {t.pool.slot}))
  {
    if ops != [] {
      var before := ops[..|ops| - 1];
      PoolSafety(before);
      if After(before).status.Running? { StepKeeps(After(before), ops[|ops| - 1]); }
    }
    var t := After(ops);
    if t.status.Running? && t.out == [] {
      assert forall a :: a in t.pool.heap ==> !HeldSomewhere(t.out, a);
    }
  }

  /** The cached buffer only ever grows, over the whole life of a thread. */
  lemma {:induction false} SlotNeverShrinks(ops: seq<Op>, n: nat)
    requires n <= |ops| && After(ops).status.Running?
    ensures After(ops[..n]).status.Running?
    ensures SlotCapa(After(ops[..n]).pool) <= SlotCapa(After(ops).pool)
    decreases |ops|
  {
    if n == |ops| {
      assert ops[..n] == ops;
    } else {
      var before := ops[..|ops| - 1];
      PoolSafety(before);
      StepKeeps(After(before), ops[|ops| - 1]);
      SlotNeverShrinks(before, n);
      assert before[..n] == ops[..n];
    }
  }

  // ----------------------------------------------------------------- in-place form

  const EPT_HEADER: nat := 24    // sizeof(struct ep_per_thread)
  const EPOLL_EVENT: nat := 12   // sizeof(struct epoll_event), packed

  class ThreadLocal {
    var slot: Addr
    var heap: map<Addr, Buf>

    ghost function View(): Pool
      reads this
    {
      Pool(slot, heap)
    }

    constructor ()
      ensures View() == FRESH.pool
    {
      slot, heap := 0, map[];
    }

    /** alloc_tlsbuf */
    method AllocTlsBuf(size: nat, a: Answer) returns (ok: bool)
      modifies `heap
      ensures ok <==> size < 0xffff_ffff && !a.noMemory
      ensures heap == if ok then old(heap)[a.addr := Buf(Uint32(size), Malloced)] else old(heap)
      ensures ok ==> Uint32(size) == size
    {
      if size >= UINT32_MAX || a.noMemory { return false; }
      heap := heap[a.addr := Buf(Uint32(size), Malloced)];
      return true;
    }

    /** rb_sp_gettlsbuf.  On any pool, also one whose slot dangles after a failed growth; a pool in order
        never leads to the crash or the assertion. */
    method GetTlsBuf(size: nat, a: Answer) returns (got: Got)
      requires Honest(View(), size, a)
      modifies this
      ensures got == Get(old(View()), size, a)
      ensures View() == if got.Buffer? || got.Failure? then got.pool else old(View())
      ensures PoolOk(old(View())) ==> got.Buffer? || got.Failure?
    {
      var n := size;
      if slot != 0 && slot !in heap { return Crash; }
      if slot != 0 && heap[slot].bufType == Malloced { return AssertionFailed; }
      if slot != 0 && heap[slot].bufType != Ready {
        var ok := AllocTlsBuf(size, a);
        if !ok { return Failure(Pool(slot, heap)); }
        return Buffer(Pool(slot, heap), a.addr + BUF_HEADER, n);
      }
      if slot != 0 && heap[slot].capa >= size {
        n := heap[slot].capa;
      } else {
        heap := heap - {slot};
        var ok := AllocTlsBuf(size, a);
        if !ok { return Failure(Pool(slot, heap)); }
        if a.setFails {
          heap := heap - {a.addr};
          assert heap == old(heap) - {slot};
          return Failure(Pool(slot, heap));
        }
        slot := a.addr;
      }
      heap := heap[slot := Buf(heap[slot].capa, InUse)];
      return Buffer(Pool(slot, heap), slot + BUF_HEADER, n);
    }

    /** rb_sp_puttlsbuf.  On any pointer; one that a caller holds never leads to an assertion. */
    method PutTlsBuf(ptr: Addr) returns (r: Returned)
      modifies `heap
      ensures r == Put(old(View()), ptr)
      ensures View() == if r.Done? then r.pool else old(View())
      ensures forall size: nat :: PoolOk(old(View())) && Holds(old(View()), Held(ptr, size)) ==> r.Done?
    {
      if ptr == 0 { return Done(Pool(slot, heap)); }
      if ptr < BUF_HEADER || ptr - BUF_HEADER !in heap { return BadPointer; }
      var addr := ptr - BUF_HEADER;
      match heap[addr].bufType {
        case InUse =>
          if slot != addr { return PutAssertionFailed; }
          heap := heap[addr := Buf(heap[addr].capa, Ready)];
        case Ready => return PutAssertionFailed;
        case Malloced => heap := heap - {addr};
      }
      return Done(Pool(slot, heap));
    }

    /** ept_get: room for `maxevents` records behind the header, or EINVAL before anything is allocated. */
    method EptGet(maxevents: int, a: Answer) returns (got: Got, einval: bool)
      requires -0x8000_0000 <= maxevents <= 0x7fff_ffff
      requires maxevents > 0 ==> Honest(View(), EPT_HEADER + EPOLL_EVENT * maxevents, a)
      modifies this
      ensures einval == (maxevents <= 0)
      ensures einval ==> View() == old(View())
      ensures !einval ==> got == Get(old(View()), 24 + 12 * maxevents, a)
      ensures !einval && PoolOk(old(View())) ==> got.Buffer? || got.Failure?
      ensures !einval && got.Buffer? ==>
                View() == got.pool && Struct(got.ptr) in heap &&
                EPT_HEADER + EPOLL_EVENT * maxevents <= heap[Struct(got.ptr)].capa
    {
      if maxevents <= 0 { return Failure(Pool(slot, heap)), true; }
      got := GetTlsBuf(EPT_HEADER + EPOLL_EVENT * maxevents, a);
      einval := false;
    }
  }
}
