/** kevent restarted after signals: the deadline arithmetic on sec/nsec pairs, and the array that
    first carries changes to the kernel and then receives events. */
module KeventWait {

  import opened Options
  import opened Timespecs

  predicate Normal(t: Timespec) {
    0 <= t.nsec < NANO_PER_SEC
  }

  /** tssub */
  function TsSub(a: Timespec, b: Timespec): Timespec {
    if a.nsec - b.nsec < 0 then Timespec(a.sec - b.sec - 1, a.nsec - b.nsec + NANO_PER_SEC)
    else Timespec(a.sec - b.sec, a.nsec - b.nsec)
  }

  /** The expiry time computed on entry: note the strict comparison. */
  function ExpireAt(now: Timespec, ts: Timespec): Timespec {
    var sec, nsec := now.sec + ts.sec, now.nsec + ts.nsec;
    if nsec > NANO_PER_SEC then Timespec(sec + 1, nsec - NANO_PER_SEC) else Timespec(sec, nsec)
  }

  /** The part of kevent_resume_p that looks at the clock. */
  predicate Resumes(now: Timespec, expire: Timespec) {
    !(now.sec > expire.sec) && !(now.sec == expire.sec && now.nsec > expire.nsec)
  }

  /** The nanoseconds of clock and timeout add up to exactly one second. */
  predicate ExactSecond(start: Timespec, ts: Timespec) {
    start.nsec + ts.nsec == NANO_PER_SEC
  }

  /** Deadline conservation: a resumed wait has exactly the time left that was asked for, and it is
      not negative.  It is resumed exactly while the deadline is not past, except that in the
      exact-second case the deadline itself already counts as past. */
  lemma DeadlineConserved(start: Timespec, ts: Timespec, now: Timespec)
    requires Normal(start) && Normal(now) && 0 <= ts.nsec <= NANO_PER_SEC
    ensures
      var expire := ExpireAt(start, ts);
      var deadline := Total(start) + Total(ts);
      && Total(expire) == deadline
      && (Resumes(now, expire) ==> Total(now) + Total(TsSub(expire, now)) == deadline && Total(TsSub(expire, now)) >= 0)
      && (Resumes(now, expire) <==> if ExactSecond(start, ts) then Total(now) < deadline else Total(now) <= deadline)
  {
    var expire := ExpireAt(start, ts);
    assert Total(expire) == Total(start) + Total(ts);
    CompareTotals(now, expire);
  }

  lemma CompareTotals(now: Timespec, e: Timespec)
    requires Normal(now) && 0 <= e.nsec <= NANO_PER_SEC
    ensures Resumes(now, e) <==> if e.nsec == NANO_PER_SEC then Total(now) < Total(e) else Total(now) <= Total(e)
    ensures Total(TsSub(e, now)) == Total(e) - Total(now)
  {
    if now.sec < e.sec {
      assert (e.sec - now.sec) * NANO_PER_SEC >= NANO_PER_SEC;
    } else if now.sec > e.sec {
      assert (now.sec - e.sec) * NANO_PER_SEC >= NANO_PER_SEC;
    }
  }

  /** Exactly when the kernel is handed a timespec with nsec out of range: the nanoseconds of entry
      clock and timeout add up to one second, and the interruption falls on a full second. */
  lemma NormalisedExactly(start: Timespec, ts: Timespec, now: Timespec)
    requires Normal(start) && Normal(now) && 0 <= ts.nsec <= NANO_PER_SEC
    ensures Normal(ExpireAt(start, ts)) <==> !ExactSecond(start, ts)
    ensures Normal(TsSub(ExpireAt(start, ts), now)) <==> !(ExactSecond(start, ts) && now.nsec == 0)
  {
  }

  /** The unlucky case does occur, with a clock that moves forward: the retry asks for 10^9 nanoseconds. */
  lemma UnnormalisedRetry()
    ensures
      var start, ts, now := Timespec(6, 999_999_999), Timespec(2, 1), Timespec(7, 0);
      && Total(start) <= Total(now) && Resumes(now, ExpireAt(start, ts))
      && TsSub(ExpireAt(start, ts), now) == Timespec(1, NANO_PER_SEC)
  {
  }

  // -------------------------------------------------------------------- the wait loop

  datatype Kevent = Kevent(ident: nat, filter: int, flags: nat, fflags: nat, data: int, udata: nat)

  /** An element of the changelist: a Kevent struct, a struct of another size, or anything else.
      A six-element Ruby array counts as anything else: the conversion falls through to the error. */
  datatype Change = Struct(event: Kevent) | BadStruct | NotAStruct

  /** What one kevent(2) does.  A signal only interrupts it after it has taken the changes, and may
      leave anything in the event array; `room` is what it wrote there. */
  datatype Attempt =
    | Delivers(events: seq<Kevent>)
    | Interrupted(at: Timespec, room: seq<Kevent>, closed: bool)
    | Refuses(closed: bool)

  datatype Result = Yields(events: seq<Kevent>) | Expired | SystemError | IOError | TypeError | StillWaiting

  /** A retry at `now` sleeps for exactly what is left of the original timeout. */
  ghost predicate Remaining(start: Timespec, ts: Timespec, now: Timespec, left: Option<Timespec>) {
    && left.Some?
    && Total(now) + Total(left.value) == Total(start) + Total(ts)
    && (if ExactSecond(start, ts) then Total(left.value) > 0 else Total(left.value) >= 0)
    && (Normal(left.value) <==> !(ExactSecond(start, ts) && now.nsec == 0))
  }

  function Structs(changes: seq<Change>): seq<Kevent>
    requires forall c :: c in changes ==> c.Struct?
  {
    seq(|changes|, i requires 0 <= i < |changes| => assert changes[i] in changes; changes[i].event)
  }

  /** struct kq_per_thread, allocated by kpt_get for the larger of the two counts. */
  class KqPerThread {
    const events: array<Kevent>
    var nchanges: nat
    const nevents: nat
    var ts: Option<Timespec>

    ghost predicate Valid()
      reads this
    {
      nchanges <= events.Length && nevents <= events.Length
    }

    constructor (nchanges: nat, nevents: nat, ts: Option<Timespec>, blank: Kevent)
      ensures Valid() && fresh(events)
      ensures this.nchanges == nchanges && this.nevents == nevents && this.ts == ts
      ensures events.Length == nchanges || events.Length == nevents
    {
      var max := if nchanges > nevents then nchanges else nevents;
      this.events := new Kevent[max](_ => blank);
      this.nchanges, this.nevents, this.ts := nchanges, nevents, ts;
    }

    /** ary2eventlist */
    method Prepare(changes: seq<Change>) returns (ok: bool)
      requires |changes| <= events.Length
      modifies events
      ensures ok <==> forall c :: c in changes ==> c.Struct?
      ensures ok ==> events[..|changes|] == Structs(changes)
    {
      var i := 0;
      while i < |changes|
        invariant 0 <= i <= |changes|
        invariant forall k :: 0 <= k < i ==> changes[k].Struct? && events[k] == changes[k].event
      {
        if !changes[i].Struct? { return false; }
        events[i] := changes[i].event;
        i := i + 1;
      }
      return true;
    }

    /** The kernel writing `evs` into the array it was given. */
    method Receive(evs: seq<Kevent>)
      requires |evs| <= events.Length
      modifies events
      ensures events[..|evs|] == evs
    {
      var i := 0;
      while i < |evs|
        invariant 0 <= i <= |evs|
        invariant events[..i] == evs[..i]
      {
        events[i] := evs[i];
        assert events[..i + 1] == events[..i] + [events[i]];
        assert evs[..i + 1] == evs[..i] + [evs[i]];
        i := i + 1;
      }
    }

    /** do_kevent with kevent_resume_p.  `sent` logs, call by call, the changes the kernel was given;
        `waits` logs the timeouts.  Although the same array receives events (and whatever an
        interrupted call leaves there), the kernel is given the changelist once and in order;
        every later call sends nothing and has exactly the remaining time. */
    method DoKevent(changes: seq<Change>, start: Timespec, script: seq<Attempt>)
        returns (result: Result, sent: seq<seq<Kevent>>, waits: seq<Option<Timespec>>)
      requires Valid() && nchanges == |changes|
      requires Normal(start) && (ts.Some? ==> 0 <= ts.value.nsec <= NANO_PER_SEC)
      requires forall a :: a in script ==> match a
                 case Delivers(evs) => |evs| <= nevents
                 case Interrupted(at, room, _) => |room| <= nevents && Normal(at)
                 case Refuses(_) => true
      modifies this, events
      ensures Valid()
      ensures result.TypeError? <==> exists c :: c in changes && !c.Struct?
      ensures result.TypeError? ==> sent == [] && waits == []
      ensures !result.TypeError? ==> 1 <= |sent| == |waits| <= |script| + 1
      ensures forall k :: 0 <= k < |sent| ==>
                (forall c :: c in changes ==> c.Struct?) && sent[k] == if k == 0 then Structs(changes) else []
      ensures |waits| > 0 ==> waits[0] == old(ts)
      ensures old(ts).None? ==> forall k :: 0 <= k < |waits| ==> waits[k] == None
      ensures forall k :: 0 <= k < |sent| - 1 ==> script[k].Interrupted? && !script[k].closed
      ensures old(ts).Some? ==> forall k :: 0 <= k < |waits| - 1 ==>
                script[k].Interrupted? && Remaining(start, old(ts).value, script[k].at, waits[k + 1])
      ensures 1 <= |sent| <= |script| ==>
                match script[|sent| - 1]
                case Delivers(evs) => result == Yields(evs)
                case Refuses(closed) => result == if closed then IOError else SystemError
                case Interrupted(_, _, closed) => result == if closed then IOError else Expired
      ensures result.Expired? ==>
                && |sent| <= |script| && script[|sent| - 1].Interrupted? && old(ts).Some?
                && var at, deadline := Total(script[|sent| - 1].at), Total(start) + Total(old(ts).value);
                   if ExactSecond(start, old(ts).value) then at >= deadline else at > deadline
      ensures result.StillWaiting? <==> |sent| == |script| + 1
    {
      sent, waits := [], [];
      var ok := Prepare(changes);
      if !ok { return TypeError, sent, waits; }
      ghost var list := Structs(changes);
      ghost var asked := ts;
      var expire := if ts.Some? then ExpireAt(start, ts.value) else start;
      sent, waits := [events[..nchanges]], [ts];
      var i := 0;
      while i < |script|
        invariant 0 <= i <= |script| && |sent| == |waits| == i + 1 && Valid()
        invariant waits[0] == asked && waits[i] == ts && (ts.None? <==> asked.None?)
        invariant forall k :: 0 <= k <= i ==> sent[k] == if k == 0 then list else []
        invariant forall k :: 0 <= k < i ==> script[k].Interrupted? && !script[k].closed
        invariant asked.None? ==> forall k :: 0 <= k <= i ==> waits[k] == None
        invariant asked.Some? ==> expire == ExpireAt(start, asked.value)
        invariant asked.Some? ==> forall k :: 0 <= k < i ==>
                    script[k].Interrupted? && Remaining(start, asked.value, script[k].at, waits[k + 1])
      {
        var a := script[i];
        assert a in script;
        match a
        case Delivers(evs) =>
          Receive(evs);
          return Yields(events[..|evs|]), sent, waits;
        case Refuses(closed) =>
          return if closed then IOError else SystemError, sent, waits;
        case Interrupted(at, room, closed) =>
          Receive(room);
          if closed { return IOError, sent, waits; }
          nchanges := 0;
          if ts.Some? {
            DeadlineConserved(start, asked.value, at);
            NormalisedExactly(start, asked.value, at);
            if !Resumes(at, expire) { return Expired, sent, waits; }
            ts := Some(TsSub(expire, at));
          }
          sent, waits := sent + [events[..nchanges]], waits + [ts];
          i := i + 1;
      }
      return StillWaiting, sent, waits;
    }
  }
}
