/** Reading inotify events: records of variable length in a byte buffer, and the queue that keeps
    what one read returned beyond the first event. */
module Inotify {
  import opened Options

  type Byte = b: nat | b < 256

  const TWO_32: int := 0x1_0000_0000
  const TWO_31: int := 0x8000_0000
  const HEADER: nat := 16   // sizeof(struct inotify_event)

  datatype Event = Event(wd: int, mask: nat, cookie: nat, name: Option<seq<Byte>>)

  /** An event as the kernel lays it out: `pad` NUL bytes follow the name, at least one if there is a name. */
  datatype Record = Record(event: Event, pad: nat)

  predicate Valid(r: Record) {
    && -TWO_31 <= r.event.wd < TWO_31 && r.event.mask < TWO_32 && r.event.cookie < TWO_32
    && (match r.event.name
        case None => r.pad == 0
        case Some(s) => 0 !in s && r.pad >= 1 && |s| + r.pad < TWO_32)
  }

  // ------------------------------------------------------------------ serialisation

  function Le32(n: nat): (b: seq<Byte>)
    requires n < TWO_32
    ensures |b| == 4
  {
    [n % 256, n / 256 % 256, n / 65536 % 256, n / 16777216]
  }

  function Load32(b: seq<Byte>, i: nat): (n: nat)
    requires i + 4 <= |b|
    ensures n < TWO_32
  {
    b[i] as int + 256 * b[i + 1] as int + 65536 * b[i + 2] as int + 16777216 * b[i + 3] as int
  }

  function Signed(n: nat): int {
    if n < TWO_31 then n else n - TWO_32
  }

  function Zeros(n: nat): seq<Byte> {
    seq(n, _ => 0)
  }

  function NameLen(r: Record): nat {
    match r.event.name case None => 0 case Some(s) => |s| + r.pad
  }

  function NameBytes(r: Record): (b: seq<Byte>)
    ensures |b| == NameLen(r)
  {
    match r.event.name case None => [] case Some(s) => s + Zeros(r.pad)
  }

  function Encode(r: Record): (b: seq<Byte>)
    requires Valid(r)
    ensures |b| == HEADER + NameLen(r)
  {
    Le32(r.event.wd % TWO_32) + Le32(r.event.mask) + Le32(r.event.cookie) + Le32(NameLen(r))
    + NameBytes(r)
  }

  ghost predicate AllValid(rs: seq<Record>) {
    forall r :: r in rs ==> Valid(r)
  }

  function Serialise(rs: seq<Record>): seq<Byte>
    requires AllValid(rs)
  {
    if rs == [] then [] else assert rs[0] in rs; Encode(rs[0]) + Serialise(rs[1..])
  }

  function Events(rs: seq<Record>): (es: seq<Event>)
    ensures |es| == |rs|
  {
    seq(|rs|, i requires 0 <= i < |rs| => rs[i].event)
  }

  // ---------------------------------------------------------------------- parsing

  /** Header and name of the record at `e` lie inside the buffer. */
  predicate Inside(b: seq<Byte>, e: nat) {
    e + HEADER <= |b| && e + HEADER + Load32(b, e + 12) <= |b|
  }

  /** event_len */
  function EventLen(b: seq<Byte>, e: nat): nat
    requires Inside(b, e)
  {
    HEADER + Load32(b, e + 12)
  }

  /** The C string at `i`, if its NUL lies before `end`. */
  function CString(b: seq<Byte>, i: nat, end: nat): Option<seq<Byte>>
    requires i <= end <= |b|
    decreases end - i
  {
    if i == end then None
    else if b[i] == 0 then Some([])
    else match CString(b, i + 1, end) case None => None case Some(s) => Some([b[i]] + s)
  }

  /** event_new; None stands for a string that runs past its record. */
  function EventAt(b: seq<Byte>, e: nat): Option<Event>
    requires Inside(b, e)
  {
    var wd, mask, cookie, len := Signed(Load32(b, e)), Load32(b, e + 4), Load32(b, e + 8), Load32(b, e + 12);
    if len == 0 then Some(Event(wd, mask, cookie, None))
    else match CString(b, e + HEADER, e + HEADER + len)
      case None => None
      case Some(s) => Some(Event(wd, mask, cookie, Some(s)))
  }

  lemma Load32Inverts(b: seq<Byte>, i: nat, n: nat)
    requires n < TWO_32 && i + 4 <= |b| && b[i..i + 4] == Le32(n)
    ensures Load32(b, i) == n
  {
    assert b[i] == b[i..i + 4][0] && b[i + 1] == b[i..i + 4][1]
        && b[i + 2] == b[i..i + 4][2] && b[i + 3] == b[i..i + 4][3];
    Le32Digits(n);
  }

  lemma Le32Digits(n: nat)
    requires n < TWO_32
    ensures n == n % 256 + 256 * (n / 256 % 256) + 65536 * (n / 65536 % 256) + 16777216 * (n / 16777216)
  {
    var a := n / 256;
    var c := a / 256;
    assert n / 65536 == c && n / 16777216 == c / 256;
  }

  lemma {:induction false} CStringFinds(pre: seq<Byte>, s: seq<Byte>, pad: nat, post: seq<Byte>)
    requires 0 !in s && pad >= 1
    ensures CString(pre + s + Zeros(pad) + post, |pre|, |pre| + |s| + pad) == Some(s)
    decreases |s|
  {
    var b := pre + s + Zeros(pad) + post;
    if s == [] {
      assert b[|pre|] == 0;
    } else {
      assert b == (pre + [s[0]]) + s[1..] + Zeros(pad) + post;
      CStringFinds(pre + [s[0]], s[1..], pad, post);
      assert s == [s[0]] + s[1..] && b[|pre|] == s[0] && s[0] in s;
    }
  }

  lemma LoadInside(pre: seq<Byte>, enc: seq<Byte>, post: seq<Byte>, k: nat, n: nat)
    requires n < TWO_32 && k + 4 <= |enc| && enc[k..k + 4] == Le32(n)
    ensures Load32(pre + enc + post, |pre| + k) == n
  {
    var b := pre + enc + post;
    assert b[|pre| + k..|pre| + k + 4] == enc[k..k + 4];
    Load32Inverts(b, |pre| + k, n);
  }

  lemma RecordHeader(pre: seq<Byte>, r: Record, post: seq<Byte>)
    requires Valid(r)
    ensures
      var b, e := pre + Encode(r) + post, |pre|;
      && Inside(b, e) && Load32(b, e + 12) == NameLen(r)
      && Signed(Load32(b, e)) == r.event.wd && Load32(b, e + 4) == r.event.mask && Load32(b, e + 8) == r.event.cookie
  {
    EncodeFields(r);
    var enc := Encode(r);
    LoadInside(pre, enc, post, 0, r.event.wd % TWO_32);
    LoadInside(pre, enc, post, 4, r.event.mask);
    LoadInside(pre, enc, post, 8, r.event.cookie);
    LoadInside(pre, enc, post, 12, NameLen(r));
  }

  lemma RecordName(pre: seq<Byte>, r: Record, post: seq<Byte>)
    requires Valid(r) && r.event.name.Some?
    ensures
      var b, e := pre + Encode(r) + post, |pre|;
      CString(b, e + HEADER, e + HEADER + NameLen(r)) == r.event.name
  {
    EncodeFields(r);
    var b, h := pre + Encode(r) + post, pre + Encode(r)[..16];
    assert b == h + r.event.name.value + Zeros(r.pad) + post;
    CStringFinds(h, r.event.name.value, r.pad, post);
  }

  /** One record: whatever surrounds it, reading at its first byte gives its event and its length. */
  lemma RecordRoundTrip(pre: seq<Byte>, r: Record, post: seq<Byte>)
    requires Valid(r)
    ensures
      var b := pre + Encode(r) + post;
      && Inside(b, |pre|)
      && EventLen(b, |pre|) == |Encode(r)|
      && EventAt(b, |pre|) == Some(r.event)
  {
    RecordHeader(pre, r, post);
    if r.event.name.Some? { RecordName(pre, r, post); }
  }

  lemma EncodeFields(r: Record)
    requires Valid(r)
    ensures
      var e := Encode(r);
      && e[..4] == Le32(r.event.wd % TWO_32) && e[4..8] == Le32(r.event.mask)
      && e[8..12] == Le32(r.event.cookie) && e[12..16] == Le32(NameLen(r)) && e[16..] == NameBytes(r)
      && e == e[..16] + NameBytes(r)
  {
  }

  /** The pointer walk of do_take as a recursion; None if it would leave the buffer. */
  function Parse(b: seq<Byte>, e: nat): Option<seq<Event>>
    requires e <= |b|
    decreases |b| - e
  {
    if e == |b| then Some([])
    else if !Inside(b, e) then None
    else match EventAt(b, e)
      case None => None
      case Some(event) =>
        match Parse(b, e + EventLen(b, e)) case None => None case Some(rest) => Some([event] + rest)
  }

  /** The offset at which record `j` begins. */
  function Boundary(rs: seq<Record>, j: nat): nat
    requires AllValid(rs) && j <= |rs|
  {
    |Serialise(rs[..j])|
  }

  lemma {:induction false} SerialiseConcat(a: seq<Record>, b: seq<Record>)
    requires AllValid(a) && AllValid(b)
    ensures AllValid(a + b) && Serialise(a + b) == Serialise(a) + Serialise(b)
  {
    assert forall r :: r in a + b <==> r in a || r in b;
    if a == [] {
      assert a + b == b;
    } else {
      assert (a + b)[1..] == a[1..] + b;
      SerialiseConcat(a[1..], b);
    }
  }

  lemma SerialiseOne(r: Record)
    requires Valid(r)
    ensures AllValid([r]) && Serialise([r]) == Encode(r)
  {
    assert Serialise([r]) == Encode(r) + Serialise([r][1..]);
  }

  lemma SplitAt(rs: seq<Record>, j: nat)
    requires AllValid(rs) && j < |rs|
    ensures Serialise(rs) == Serialise(rs[..j]) + Encode(rs[j]) + Serialise(rs[j + 1..])
    ensures Boundary(rs, j + 1) == Boundary(rs, j) + |Encode(rs[j])| <= |Serialise(rs)|
  {
    assert rs == rs[..j + 1] + rs[j + 1..] && rs[..j + 1] == rs[..j] + [rs[j]];
    SerialiseConcat(rs[..j + 1], rs[j + 1..]);
    SerialiseConcat(rs[..j], [rs[j]]);
    SerialiseOne(rs[j]);
  }

  /** The bytes at a record boundary hold that record, and the last record ends the data. */
  lemma RecordAt(rs: seq<Record>, j: nat)
    requires AllValid(rs) && j < |rs|
    ensures
      var b, e := Serialise(rs), Boundary(rs, j);
      && Inside(b, e) && EventAt(b, e) == Some(rs[j].event)
      && e + EventLen(b, e) == Boundary(rs, j + 1) <= |b|
      && (Boundary(rs, j + 1) == |b| <==> j + 1 == |rs|)
  {
    SplitAt(rs, j);
    RecordRoundTrip(Serialise(rs[..j]), rs[j], Serialise(rs[j + 1..]));
    if j + 1 == |rs| { assert rs[..j + 1] == rs; } else { SplitAt(rs, j + 1); }
  }

  lemma DataStarts(rs: seq<Record>)
    requires AllValid(rs) && rs != []
    ensures Boundary(rs, 0) == 0 < |Serialise(rs)|
  {
  }

  lemma EventsFrom(rs: seq<Record>, j: nat)
    requires j < |rs|
    ensures Events(rs[j..]) == [rs[j].event] + Events(rs[j + 1..])
    ensures 1 <= j ==> Events(rs[1..j + 1]) == Events(rs[1..j]) + [rs[j].event]
  {
    var a, b := Events(rs[j..]), [rs[j].event] + Events(rs[j + 1..]);
    assert |a| == |b| && forall i :: 0 <= i < |a| ==> a[i] == rs[j + i].event && b[i] == rs[j + i].event;
    if 1 <= j {
      var c, d := Events(rs[1..j + 1]), Events(rs[1..j]) + [rs[j].event];
      assert |c| == |d| && forall i :: 0 <= i < |c| ==> c[i] == rs[1 + i].event && d[i] == rs[1 + i].event;
    }
  }

  lemma QueueGrows(q: seq<Event>, rs: seq<Record>, j: nat)
    requires 1 <= j < |rs|
    ensures (q + Events(rs[1..j])) + [rs[j].event] == q + Events(rs[1..j + 1])
  {
    EventsFrom(rs, j);
  }

  lemma EventsHead(rs: seq<Record>)
    requires rs != []
    ensures Events(rs)[0] == rs[0].event && Events(rs)[1..] == Events(rs[1..])
  {
    var a, b := Events(rs)[1..], Events(rs[1..]);
    assert |a| == |b| && forall i :: 0 <= i < |a| ==> a[i] == rs[i + 1].event && b[i] == rs[i + 1].event;
  }

  lemma ParseStep(b: seq<Byte>, e: nat, event: Event, next: nat, rest: seq<Event>)
    requires e < |b| && Inside(b, e) && EventAt(b, e) == Some(event) && e + EventLen(b, e) == next <= |b|
    requires Parse(b, next) == Some(rest)
    ensures Parse(b, e) == Some([event] + rest)
  {
  }

  lemma {:induction false} ParseFrom(rs: seq<Record>, j: nat)
    requires AllValid(rs) && j <= |rs|
    ensures Boundary(rs, j) <= |Serialise(rs)|
    ensures Parse(Serialise(rs), Boundary(rs, j)) == Some(Events(rs[j..]))
    decreases |rs| - j
  {
    if j == |rs| {
      assert rs[..j] == rs;
    } else {
      RecordAt(rs, j);
      ParseFrom(rs, j + 1);
      EventsFrom(rs, j);
      ParseStep(Serialise(rs), Boundary(rs, j), rs[j].event, Boundary(rs, j + 1), Events(rs[j + 1..]));
    }
  }

  /** Parsing inverts serialisation, for every list of events. */
  lemma ParseInvertsSerialise(rs: seq<Record>)
    requires AllValid(rs)
    ensures Parse(Serialise(rs), 0) == Some(Events(rs))
  {
    ParseFrom(rs, 0);
    assert rs[0..] == rs;
  }

  // ------------------------------------------------------------------------- take

  /** What one read(2) does: a batch of records, nothing because the buffer is too small (then the
      FIONREAD answer decides), or an error, on which the caller may be able to wait. */
  datatype Read =
    | Batch(records: seq<Record>)
    | TooSmall(bufferHuge: bool, ioctlFails: bool, fionread: int)
    | Fails(eagain: bool, waitable: bool)

  ghost predicate ValidRead(r: Read) {
    r.Batch? ==> r.records != [] && AllValid(r.records)
  }

  datatype Result = Taken(event: Event) | Nil | Raised | Blocked

  /** The new queue, what `take` answers, and the events that the call read. */
  datatype Took = Took(queue: seq<Event>, result: Result, read: seq<Event>)

  /** resize_internal_buffer returns only if another thread emptied the descriptor: growing the
      buffer ends in the same exception as a negative length. */
  predicate ResizeReturns(r: Read)
    requires r.TooSmall?
  {
    !r.bufferHuge && !r.ioctlFails && r.fionread == 0
  }

  function Take(queue: seq<Event>, nonblock: bool, script: seq<Read>): Took
    requires forall r :: r in script ==> ValidRead(r)
    decreases |script|
  {
    if queue != [] then Took(queue[1..], Taken(queue[0]), [])
    else if script == [] then Took([], Blocked, [])
    else
      assert ValidRead(script[0]);
      match script[0]
      case Batch(rs) => Took(Events(rs)[1..], Taken(Events(rs)[0]), Events(rs))
      case TooSmall(_, _, _) =>
        if ResizeReturns(script[0]) then Take([], nonblock, script[1..]) else Took([], Raised, [])
      case Fails(eagain, waitable) =>
        if eagain && nonblock then Took([], Nil, [])
        else if !waitable then Took([], Raised, [])
        else Take([], nonblock, script[1..])
  }

  class InotifyIO {
    var tmp: seq<Event>   // @inotify_tmp

    constructor ()
      ensures tmp == []
    {
      tmp := [];
    }

    /** event_new and event_len at a record boundary: no byte past the data is read, and the
        pointer moves to the next boundary. */
    method Advance(buf: array<Byte>, r: nat, e: nat, ghost rs: seq<Record>, ghost j: nat)
        returns (event: Event, next: nat)
      requires AllValid(rs) && j < |rs| && r <= buf.Length && buf[..r] == Serialise(rs) && e == Boundary(rs, j)
      ensures event == rs[j].event && next == Boundary(rs, j + 1) <= r && (next == r <==> j + 1 == |rs|)
    {
      RecordAt(rs, j);
      event := EventAt(buf[..r], e).value;
      next := e + EventLen(buf[..r], e);
    }

    /** The walk through one batch: first event to the caller, the others to the queue.  The pointer
        is at a record boundary each time round, and ends exactly at the end of the data. */
    method Unpack(buf: array<Byte>, r: nat, ghost rs: seq<Record>) returns (rv: Event)
      requires AllValid(rs) && rs != [] && r <= buf.Length && buf[..r] == Serialise(rs)
      modifies this
      ensures rv == Events(rs)[0] && tmp == old(tmp) + Events(rs)[1..]
    {
      var first: Option<Event> := None;
      var e := 0;
      ghost var j := 0;
      DataStarts(rs);
      while e < r
        invariant buf[..r] == Serialise(rs)
        invariant 0 <= j <= |rs| && e == Boundary(rs, j) <= r && (e == r <==> j == |rs|)
        invariant first == if j == 0 then None else Some(rs[0].event)
        invariant tmp == old(tmp) + if j == 0 then [] else Events(rs[1..j])
        decreases |rs| - j
      {
        var event, next := Advance(buf, r, e, rs, j);
        if first.None? {
          first := Some(event);
        } else {
          QueueGrows(old(tmp), rs, j);
          tmp := tmp + [event];
        }
        e := next;
        j := j + 1;
      }
      rv := first.value;
      assert rs[1..j] == rs[1..];
      EventsHead(rs);
    }

    /** take with do_take: the buffer `buf` is filled by each successful read. */
    method TakeOne(nonblock: bool, script: seq<Read>, capacity: nat) returns (result: Result, ghost read: seq<Event>)
      requires forall r :: r in script ==> ValidRead(r) && (r.Batch? ==> |Serialise(r.records)| <= capacity)
      modifies this
      ensures Took(tmp, result, read) == Take(old(tmp), nonblock, script)
    {
      if tmp != [] {
        result, read := Taken(tmp[0]), [];
        tmp := tmp[1..];
        return;
      }
      var buf := new Byte[capacity](_ => 0);
      var i := 0;
      while i < |script|
        invariant 0 <= i <= |script| && tmp == []
        invariant Take([], nonblock, script) == Take([], nonblock, script[i..])
      {
        var r := script[i];
        assert r in script;
        assert script[i..][1..] == script[i + 1..];
        match r {
          case Batch(rs) =>
            Fill(buf, Serialise(rs));
            var rv := Unpack(buf, |Serialise(rs)|, rs);
            return Taken(rv), Events(rs);
          case TooSmall(_, _, _) =>
            if !ResizeReturns(r) { return Raised, []; }
          case Fails(eagain, waitable) =>
            if eagain && nonblock { return Nil, []; }
            if !waitable { return Raised, []; }
        }
        i := i + 1;
      }
      return Blocked, [];
    }

    /** The kernel copying a batch into the buffer. */
    method Fill(buf: array<Byte>, data: seq<Byte>)
      requires |data| <= buf.Length
      modifies buf
      ensures buf[..|data|] == data
    {
      var i := 0;
      while i < |data|
        invariant 0 <= i <= |data|
        invariant forall k :: 0 <= k < i ==> buf[k] == data[k]
      {
        buf[i] := data[i];
        i := i + 1;
      }
    }
  }

  // ------------------------------------------------------------------ conservation

  /** One call of `take`: what it answers and leaves queued is what was queued and what it read, in
      order; a call that answers nothing has consumed nothing. */
  lemma {:induction false} TakeConserves(queue: seq<Event>, nonblock: bool, script: seq<Read>)
    requires forall r :: r in script ==> ValidRead(r)
    ensures
      var t := Take(queue, nonblock, script);
      && (if t.result.Taken? then [t.result.event] + t.queue == queue + t.read else t.queue == queue && t.read == [])
      && (queue != [] ==> t.result == Taken(queue[0]) && t.read == [])
    decreases |script|
  {
    if queue == [] && script != [] {
      assert ValidRead(script[0]);
      if !script[0].Batch? {
        TakeConserves([], nonblock, script[1..]);
      }
    }
  }

  /** A read after which `take` tries again: the data vanished, or it can wait for more. */
  predicate Retries(r: Read, nonblock: bool) {
    match r
    case Batch(_) => false
    case TooSmall(bufferHuge, ioctlFails, fionread) => !bufferHuge && !ioctlFails && fionread == 0
    case Fails(eagain, waitable) => waitable && !(eagain && nonblock)
  }

  /** With an empty queue, the first read that is not retried decides: a batch answers its first event
      and queues the others, EAGAIN answers nil if the caller asked not to block, anything else raises. */
  lemma {:induction false} TakeDecides(nonblock: bool, script: seq<Read>, i: nat)
    requires (forall r :: r in script ==> ValidRead(r)) && i <= |script|
    requires forall j :: 0 <= j < i ==> Retries(script[j], nonblock)
    requires i < |script| ==> !Retries(script[i], nonblock)
    ensures
      var t := Take([], nonblock, script);
      if i == |script| then t.result == Blocked
      else match script[i]
        case Batch(rs) => Events(rs) == t.read && t.result.Taken? && [t.result.event] + t.queue == t.read
        case TooSmall(_, _, _) => t.result == Raised
        case Fails(eagain, waitable) => t.result == if eagain && nonblock then Nil else Raised
    decreases |script|
  {
    if i > 0 {
      assert forall j :: 0 <= j < |script[1..]| ==> script[1..][j] == script[j + 1];
      TakeDecides(nonblock, script[1..], i - 1);
    } else if script != [] {
      assert ValidRead(script[0]);
    }
  }

  datatype Request = Request(nonblock: bool, script: seq<Read>)

  ghost predicate ValidRequests(calls: seq<Request>) {
    forall c :: c in calls ==> forall r :: r in c.script ==> ValidRead(r)
  }

  /** One thread making call after call: everything answered, everything read, and the queue. */
  datatype History = History(answered: seq<Event>, read: seq<Event>, queue: seq<Event>)

  ghost function After(calls: seq<Request>): History
    requires ValidRequests(calls)
  {
    if calls == [] then History([], [], []) else
    var h, c := After(calls[..|calls| - 1]), calls[|calls| - 1];
    assert c in calls;
    var t := Take(h.queue, c.nonblock, c.script);
    History(h.answered + (if t.result.Taken? then [t.result.event] else []), h.read + t.read, t.queue)
  }

  /** Conservation for one thread, in FIFO order: over any run, the events answered followed by the
      events queued are exactly the events read. */
  lemma {:induction false} TakeIsFifo(calls: seq<Request>)
    requires ValidRequests(calls)
    ensures var h := After(calls); h.answered + h.queue == h.read
  {
    if calls != [] {
      var before, c := calls[..|calls| - 1], calls[|calls| - 1];
      assert c in calls;
      TakeIsFifo(before);
      var h := After(before);
      var t := Take(h.queue, c.nonblock, c.script);
      TakeConserves(h.queue, c.nonblock, c.script);
      if t.result.Taken? {
        assert h.answered + [t.result.event] + t.queue == h.answered + ([t.result.event] + t.queue);
        assert h.answered + (h.queue + t.read) == (h.answered + h.queue) + t.read;
      }
    }
  }

  // --------------------------------------------------------------- several threads

  /** Threads share the queue.  A read runs without the lock, so its bytes are in flight until the
      thread gets the lock back and unpacks them. */
  datatype Shared = Shared(queue: seq<Event>, flight: seq<seq<Byte>>, answered: multiset<Event>, read: multiset<Event>)

  datatype Action = Shift | Arrive(records: seq<Record>) | UnpackFlight(index: nat)

  ghost function Act(s: Shared, a: Action): Shared {
    match a
    case Shift =>
      if s.queue == [] then s
      else s.(queue := s.queue[1..], answered := s.answered + multiset{s.queue[0]})
    case Arrive(rs) =>
      if rs == [] || !AllValid(rs) then s
      else s.(flight := s.flight + [Serialise(rs)], read := s.read + multiset(Events(rs)))
    case UnpackFlight(k) =>
      if k >= |s.flight| then s else Land(s, k, Parse(s.flight[k], 0))
  }

  /** The events of one landed read: the first is answered, the others are queued. */
  ghost function Land(s: Shared, k: nat, parsed: Option<seq<Event>>): Shared
    requires k < |s.flight|
  {
    match parsed
    case None => s
    case Some(es) =>
      if es == [] then s
      else Shared(s.queue + es[1..], s.flight[..k] + s.flight[k + 1..], s.answered + multiset{es[0]}, s.read)
  }

  ghost function Interleave(actions: seq<Action>): Shared {
    if actions == [] then Shared([], [], multiset{}, multiset{})
    else Act(Interleave(actions[..|actions| - 1]), actions[|actions| - 1])
  }

  function Parsed(b: seq<Byte>): multiset<Event> {
    match Parse(b, 0) case None => multiset{} case Some(es) => multiset(es)
  }

  /** The sum of a measure over a list. */
  function SumBy(f: seq<Byte> -> multiset<Event>, bs: seq<seq<Byte>>): multiset<Event> {
    if bs == [] then multiset{} else f(bs[0]) + SumBy(f, bs[1..])
  }

  function InFlight(flight: seq<seq<Byte>>): multiset<Event> {
    SumBy(Parsed, flight)
  }

  lemma {:induction false} SumByConcat(f: seq<Byte> -> multiset<Event>, a: seq<seq<Byte>>, b: seq<seq<Byte>>)
    ensures SumBy(f, a + b) == SumBy(f, a) + SumBy(f, b)
  {
    if a == [] {
      assert a + b == b;
    } else {
      assert (a + b)[1..] == a[1..] + b;
      SumByConcat(f, a[1..], b);
    }
  }

  lemma SumByRemove(f: seq<Byte> -> multiset<Event>, bs: seq<seq<Byte>>, k: nat)
    requires k < |bs|
    ensures SumBy(f, bs) == SumBy(f, bs[..k] + bs[k + 1..]) + f(bs[k])
  {
    assert bs == bs[..k] + bs[k..] && bs[k..][1..] == bs[k + 1..];
    SumByConcat(f, bs[..k], bs[k..]);
    SumByConcat(f, bs[..k], bs[k + 1..]);
  }

  lemma SumByAppend(f: seq<Byte> -> multiset<Event>, bs: seq<seq<Byte>>, b: seq<Byte>)
    ensures SumBy(f, bs + [b]) == SumBy(f, bs) + f(b)
  {
    SumByConcat(f, bs, [b]);
    assert SumBy(f, [b]) == f(b) + SumBy(f, [b][1..]);
  }

  ghost predicate Conserved(s: Shared) {
    s.answered + multiset(s.queue) + InFlight(s.flight) == s.read
  }

  lemma ArriveConserves(s: Shared, rs: seq<Record>)
    requires Conserved(s) && AllValid(rs)
    ensures Conserved(s.(flight := s.flight + [Serialise(rs)], read := s.read + multiset(Events(rs))))
  {
    ParseInvertsSerialise(rs);
    SumByAppend(Parsed, s.flight, Serialise(rs));
  }

  /** The arithmetic of a landing, without the bytes. */
  lemma LandBalances(queue: seq<Event>, es: seq<Event>, answered: multiset<Event>, rest: multiset<Event>,
                     read: multiset<Event>)
    requires es != [] && answered + multiset(queue) + (rest + multiset(es)) == read
    ensures (answered + multiset{es[0]}) + multiset(queue + es[1..]) + rest == read
  {
    assert es == [es[0]] + es[1..];
    assert multiset(es) == multiset{es[0]} + multiset(es[1..]);
  }

  lemma LandConserves(s: Shared, k: nat, parsed: Option<seq<Event>>)
    requires Conserved(s) && k < |s.flight| && parsed == Parse(s.flight[k], 0)
    ensures Conserved(Land(s, k, parsed))
  {
    if parsed.Some? && parsed.value != [] {
      SumByRemove(Parsed, s.flight, k);
      LandBalances(s.queue, parsed.value, s.answered, InFlight(s.flight[..k] + s.flight[k + 1..]), s.read);
    }
  }

  lemma ShiftConserves(s: Shared)
    requires Conserved(s) && s.queue != []
    ensures Conserved(s.(queue := s.queue[1..], answered := s.answered + multiset{s.queue[0]}))
  {
    assert s.queue == [s.queue[0]] + s.queue[1..];
  }

  lemma ActConserves(s: Shared, a: Action)
    requires Conserved(s)
    ensures Conserved(Act(s, a))
  {
    match a
    case Shift =>
      if s.queue != [] { ShiftConserves(s); }
    case Arrive(rs) =>
      if rs != [] && AllValid(rs) { ArriveConserves(s, rs); }
    case UnpackFlight(k) =>
      if k < |s.flight| { LandConserves(s, k, Parse(s.flight[k], 0)); }
  }

  /** Conservation for any number of threads and any interleaving: as multisets, events answered,
      queued and in flight are exactly the events read. */
  lemma {:induction false} ThreadsConserve(actions: seq<Action>)
    ensures Conserved(Interleave(actions))
    ensures var s := Interleave(actions); s.flight == [] ==> s.answered + multiset(s.queue) == s.read
  {
    if actions != [] {
      ThreadsConserve(actions[..|actions| - 1]);
      ActConserves(Interleave(actions[..|actions| - 1]), actions[|actions| - 1]);
    }
  }

  ghost predicate Batches(flight: seq<seq<Byte>>) {
    forall k :: 0 <= k < |flight| ==> IsBatch(flight[k])
  }

  ghost predicate IsBatch(b: seq<Byte>) {
    exists rs :: rs != [] && AllValid(rs) && b == Serialise(rs)
  }

  lemma {:induction false} FlightsAreBatches(actions: seq<Action>)
    ensures Batches(Interleave(actions).flight)
  {
    if actions != [] { FlightsAreBatches(actions[..|actions| - 1]); }
  }

  /** Read `k` held the records `rs`: the first is answered, the others are queued in order behind what is there. */
  ghost predicate Lands(s: Shared, k: nat, rs: seq<Record>)
    requires k < |s.flight|
  {
    && rs != [] && AllValid(rs) && s.flight[k] == Serialise(rs)
    && var t := Act(s, UnpackFlight(k));
       && t.queue == s.queue + Events(rs)[1..] && t.answered == s.answered + multiset{Events(rs)[0]}
       && t.flight == s.flight[..k] + s.flight[k + 1..] && t.read == s.read
  }

  lemma BatchLands(s: Shared, k: nat, rs: seq<Record>)
    requires k < |s.flight| && rs != [] && AllValid(rs) && s.flight[k] == Serialise(rs)
    ensures Lands(s, k, rs)
  {
    ParseInvertsSerialise(rs);
  }

  ghost predicate LandsSomehow(s: Shared, k: nat)
    requires k < |s.flight|
  {
    exists rs :: Lands(s, k, rs)
  }

  /** Nothing is stuck: after any interleaving, every read in flight lands when its thread gets the lock, and
      a shift answers the oldest queued event. */
  lemma EveryReadLands(actions: seq<Action>)
    ensures
      var s := Interleave(actions);
      && (forall k :: 0 <= k < |s.flight| ==> LandsSomehow(s, k))
      && (s.queue != [] ==>
            var t := Act(s, Shift);
            t.queue == s.queue[1..] && t.answered == s.answered + multiset{s.queue[0]} && t.flight == s.flight)
  {
    var s := Interleave(actions);
    FlightsAreBatches(actions);
    forall k | 0 <= k < |s.flight|
      ensures LandsSomehow(s, k)
    {
      assert IsBatch(s.flight[k]);
      var rs :| rs != [] && AllValid(rs) && s.flight[k] == Serialise(rs);
      BatchLands(s, k, rs);
    }
  }
}
