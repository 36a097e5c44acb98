/** The worker shell: what `onMessage` does with one delivery, statement by statement, with every other process
    free to act at each await (packages/worker-runtime/src/runner.ts:109-255). */
module DeliveryRunner {
  import opened Basics
  import opened Delivery
  import opened DeliveryWorld
  import opened DeliverySlots

  /** How the slot gate answers: by the counter, or by throwing, perhaps after the script has run. */
  datatype GateReply = Answers | Throws(leaked: bool)

  /** How the handler ends; at a chunk boundary it throws JobCancelled if the flag is set. */
  datatype Outcome = Returns | Fails | ChecksFlag

  /** What the shell does not decide itself. */
  datatype Luck = Luck(readable: bool, gate: GateReply, deferred: Publish, outcome: Outcome, retried: Publish, released: bool)

  /** The ways a delivery can go. */
  datatype Course =
    | Refused | Unreadable | Deferred | Skipped | Finished | Stopped | RetryScheduled | RetryUnpublished | Exhausted

  predicate Claims(course: Course) {
    !(course.Refused? || course.Unreadable? || course.Deferred? || course.Skipped?)
  }

  function Ending(course: Course, luck: Luck): seq<Act> {
    match course
    case Refused => [Refuse, Nack]
    case Unreadable => [Unread]
    case Deferred => [Acquire, Defer(luck.deferred), if luck.deferred == Confirmed then Ack else Nack]
    case Skipped => [Ack]
    case Finished => [Complete, Ack]
    case Stopped => [CancelSeen, Ack]
    case RetryScheduled => [PublishRetry(Confirmed), WriteRetrying, Ack]
    case RetryUnpublished => [PublishRetry(luck.retried), Nack]
    case Exhausted => [WriteFailed, DeadLetter]
  }

  function Gate(luck: Luck): Act {
    if luck.gate.Answers? then Acquire else GateError(luck.gate.leaked)
  }

  /** How the slot goes back: by DECR, by DECR and the SET after it, or not at all when Redis fails. */
  datatype Giving = Returned | Floored | Leaked

  function Giveback(giving: Giving): seq<Act> {
    match giving
    case Returned => [Release]
    case Floored => [Release, Floor]
    case Leaked => [ReleaseLost]
  }

  /** Everything a delivery does to its message up to the release, in order. */
  function Script(course: Course, luck: Luck): seq<Act> {
    if course.Unreadable? || course.Refused? || course.Deferred? then Ending(course, luck)
    else [Gate(luck), Claim] + Ending(course, luck)
  }

  /** All of it; an unreadable message is not held any more. */
  function Acts(course: Course, luck: Luck, giving: Giving): seq<Act> {
    if course.Unreadable? then Script(course, luck) else Script(course, luck) + Giveback(giving)
  }

  predicate Settling(act: Act) { act.Ack? || act.Nack? || act.DeadLetter? || act.Unread? }

  /** Status writes and publishes after which the message is not needed any more. */
  predicate Durable(act: Act) {
    act.Complete? || act.CancelSeen? || act.WriteRetrying? || act.WriteFailed? || act == Defer(Confirmed)
  }

  predicate Releasing(act: Act) { act.Release? || act.Floor? || act.ReleaseLost? }

  /** The message is settled exactly once, and the slot given back after that. */
  predicate SettledOnce(s: seq<Act>) {
    && (exists i | 0 <= i < |s| :: Settling(s[i]))
    && (forall i, k | 0 <= i < |s| && 0 <= k < |s| && Settling(s[i]) && Settling(s[k]) :: i == k)
    && (forall i, k | 0 <= i < k < |s| && Settling(s[k]) :: !Releasing(s[i]))
  }

  /** It is acked or dead-lettered only right after a durable write or publish, or, if `skipped`, a claim. */
  predicate SettledDurably(s: seq<Act>, skipped: bool) {
    forall i | 0 <= i < |s| && (s[i].Ack? || s[i].DeadLetter?) :: i > 0 && (Durable(s[i - 1]) || (skipped && s[i - 1].Claim?))
  }

  /** The status of a retry is written only right after its publish was confirmed. */
  predicate PublishedFirst(s: seq<Act>) {
    forall i | 0 <= i < |s| && s[i].WriteRetrying? :: i > 0 && s[i - 1] == PublishRetry(Confirmed)
  }

  /** The last act of a script settles the message, and it alone. */
  lemma ScriptSettlesLast(course: Course, luck: Luck)
    ensures var s := Script(course, luck);
      && |s| > 0 && Settling(s[|s| - 1])
      && forall i | 0 <= i < |s| :: !Releasing(s[i]) && (i < |s| - 1 ==> !Settling(s[i]))
  {
  }

  lemma EveryCourseSettlesOnce(course: Course, luck: Luck, giving: Giving)
    ensures SettledOnce(Acts(course, luck, giving))
  {
    var s, t := Script(course, luck), Acts(course, luck, giving);
    ScriptSettlesLast(course, luck);
    assert t[|s| - 1] == s[|s| - 1];
    forall i | 0 <= i < |t| ensures Settling(t[i]) <==> i == |s| - 1 {
      if i < |s| { assert t[i] == s[i]; } else { assert t[i] == Giveback(giving)[i - |s|]; }
    }
    forall i | 0 <= i < |s| ensures !Releasing(t[i]) { assert t[i] == s[i]; }
  }

  predicate GivesBack(s: seq<Act>) {
    exists i | 0 <= i < |s| :: s[i].Release? || s[i].ReleaseLost?
  }

  /** The slot of every message that was readable is given back, or its return tried. */
  lemma GivenBackIfHeld(course: Course, luck: Luck, giving: Giving)
    ensures GivesBack(Acts(course, luck, giving)) <==> course != Unreadable
  {
    var s, t := Script(course, luck), Acts(course, luck, giving);
    ScriptSettlesLast(course, luck);
    if course != Unreadable { assert t[|s|] == Giveback(giving)[0]; }
  }

  lemma SettledOnlyAfterDurable(course: Course, luck: Luck, giving: Giving)
    ensures SettledDurably(Acts(course, luck, giving), course.Skipped?)
  {
  }

  lemma RetryStatusOnlyAfterPublish(course: Course, luck: Luck, giving: Giving)
    ensures PublishedFirst(Acts(course, luck, giving))
  {
  }

  /** What a delivery has added to its message's acts is in order. */
  lemma Orderly(before: seq<Act>, after: seq<Act>, course: Course, luck: Luck, giving: Giving)
    requires after == before + Acts(course, luck, giving)
    ensures SettledOnce(after[|before|..]) && SettledDurably(after[|before|..], course.Skipped?) && PublishedFirst(after[|before|..])
    ensures GivesBack(after[|before|..]) <==> course != Unreadable
  {
    assert after[|before|..] == Acts(course, luck, giving);
    EveryCourseSettlesOnce(course, luck, giving);
    SettledOnlyAfterDurable(course, luck, giving);
    RetryStatusOnlyAfterPublish(course, luck, giving);
    GivenBackIfHeld(course, luck, giving);
  }

  lemma Two(log: seq<Act>, a: Act, b: Act)
    ensures log + [a] + [b] == log + [a, b]
  {
  }

  lemma Three(log: seq<Act>, a: Act, b: Act, c: Act)
    ensures log + [a] + [b] + [c] == log + [a, b, c]
  {
  }

  lemma Whole(log: seq<Act>, course: Course, luck: Luck)
    ensures (course.Skipped? || Claims(course)) ==>
              log + [Gate(luck)] + ([Claim] + Ending(course, luck)) == log + Script(course, luck)
  {
    if course.Skipped? || Claims(course) {
      assert [Gate(luck), Claim] == [Gate(luck)] + [Claim];
    }
  }

  class Runner {
    const id: WorkerId
    var inFlight: nat
    var draining: bool

    constructor (id: WorkerId)
      ensures this.id == id && inFlight == 0 && !draining
    {
      this.id, inFlight, draining := id, 0, false;
    }

    /** The delivery is this worker's and stands at `pc`; `f` is what stays fixed about it. */
    predicate Mine(w: World, m: nat, pc: Pc, f: Facts)
      reads w
    {
      && m < |w.msgs| && w.msgs[m].place == Held(id, pc) && id in w.alive
      && w.msgs[m].job == f.job && w.msgs[m].attempt == f.attempt
      && f.job in w.jobs && w.jobs[f.job].maxAttempts == f.max
      && (pc == Received || pc == AtLimit ==> !w.msgs[m].slot)
    }

    /** `onMessage`: the acts are those of the course taken; so the message is settled once, only after what makes it
        superfluous is durable, and the slot given back after that. */
    method OnMessage(w: World, m: nat, luck: Luck, ghost f: Facts) returns (course: Course, giving: Giving)
      requires w.Valid() && Mine(w, m, Received, f)
      modifies w, this
      ensures w.Valid() && ActsOn(w.log, m) == ActsOn(old(w.log), m) + Acts(course, luck, giving)
      ensures var acts := ActsOn(w.log, m)[|ActsOn(old(w.log), m)|..];
              SettledOnce(acts) && SettledDurably(acts, course.Skipped?) && PublishedFirst(acts) && (GivesBack(acts) <==> course != Unreadable)
      ensures !course.Unreadable? ==> (giving.Leaked? <==> !luck.released)
      ensures giving.Floored? ==> f.job in w.jobs && w.jobs[f.job].project in w.expired
      ensures inFlight == old(inFlight) && draining == old(draining)
      ensures m < |w.msgs| && !w.msgs[m].slot && w.msgs[m].place == if course.Unreadable? then Dead else Gone
      ensures course.Refused? <==> draining
      ensures course.Unreadable? <==> !draining && !luck.readable
      ensures Explained(course, luck, f, w.flags) && Obeys(course, luck, f, old(w.flags))
      ensures Quiet(w) && !draining && luck.readable ==> Expected(course, luck, f, id, w.cfg, old(w.Now()))
      ensures f.job in w.jobs && (Quiet(w) && Concludes(course).Some? ==> w.jobs[f.job].status == Concludes(course).value)
    {
      course, giving := Serve(w, m, luck, f);
      Orderly(ActsOn(old(w.log), m), ActsOn(w.log, m), course, luck, giving);
    }

    method Serve(w: World, m: nat, luck: Luck, ghost f: Facts) returns (course: Course, giving: Giving)
      requires w.Valid() && Mine(w, m, Received, f)
      modifies w, this
      ensures w.Valid() && ActsOn(w.log, m) == ActsOn(old(w.log), m) + Acts(course, luck, giving)
      ensures !course.Unreadable? ==> (giving.Leaked? <==> !luck.released)
      ensures giving.Floored? ==> f.job in w.jobs && w.jobs[f.job].project in w.expired
      ensures inFlight == old(inFlight) && draining == old(draining)
      ensures m < |w.msgs| && !w.msgs[m].slot && w.msgs[m].place == if course.Unreadable? then Dead else Gone
      ensures course.Refused? <==> draining
      ensures course.Unreadable? <==> !draining && !luck.readable
      ensures Explained(course, luck, f, w.flags) && Obeys(course, luck, f, old(w.flags))
      ensures Quiet(w) && !draining && luck.readable ==> Expected(course, luck, f, id, w.cfg, old(w.Now()))
      ensures f.job in w.jobs && (Quiet(w) && Concludes(course).Some? ==> w.jobs[f.job].status == Concludes(course).value)
    {
      giving := Returned;
      if draining {
        TurnAway(w, m, luck, f);
        course := Refused;
        giving := Settle(w, m, course, luck, f);
        return;
      }
      inFlight := inFlight + 1;
      if luck.readable {
        course, giving := Handle(w, m, luck, f);
      } else {
        Do(w, m, Unread, f);
        course := Unreadable;
      }
      inFlight := inFlight - 1;
    }

    /** A readable delivery; while it is handled it counts as in flight. */
    method Handle(w: World, m: nat, luck: Luck, ghost f: Facts) returns (course: Course, giving: Giving)
      requires inFlight > 0 && w.Valid() && Mine(w, m, Received, f)
      modifies w
      ensures w.Valid() && ActsOn(w.log, m) == ActsOn(old(w.log), m) + Acts(course, luck, giving)
      ensures giving.Leaked? <==> !luck.released
      ensures giving.Floored? ==> f.job in w.jobs && w.jobs[f.job].project in w.expired
      ensures m < |w.msgs| && !w.msgs[m].slot && w.msgs[m].place == Gone
      ensures course.Deferred? || course.Skipped? || Claims(course)
      ensures Explained(course, luck, f, w.flags) && Obeys(course, luck, f, old(w.flags))
      ensures Quiet(w) ==> Expected(course, luck, f, id, w.cfg, old(w.Now()))
      ensures f.job in w.jobs && (Quiet(w) && Concludes(course).Some? ==> w.jobs[f.job].status == Concludes(course).value)
    {
      course := Proceed(w, m, luck, f);
      giving := Settle(w, m, course, luck, f);
    }

    /** Gate, then execution or deferral. */
    method Proceed(w: World, m: nat, luck: Luck, ghost f: Facts) returns (course: Course)
      requires inFlight > 0 && w.Valid() && Mine(w, m, Received, f)
      modifies w
      ensures w.Valid() && Mine(w, m, Acked, f) && ActsOn(w.log, m) == ActsOn(old(w.log), m) + Script(course, luck)
      ensures course.Deferred? || course.Skipped? || Claims(course)
      ensures Explained(course, luck, f, w.flags) && Obeys(course, luck, f, old(w.flags))
      ensures Quiet(w) ==> Expected(course, luck, f, id, w.cfg, old(w.Now()))
      ensures Quiet(w) && Concludes(course).Some? ==> w.jobs[f.job].status == Concludes(course).value
    {
      ghost var before := ActsOn(w.log, m);
      var gated := PassGate(w, m, luck, f);
      if gated {
        course := Execute(w, m, luck, f);
        Whole(before, course, luck);
      } else {
        PutOff(w, m, luck, f);
        course := Deferred;
        Three(before, Acquire, Defer(luck.deferred), if luck.deferred == Confirmed then Ack else Nack);
      }
    }

    /** A draining worker refuses new work. */
    method TurnAway(w: World, m: nat, luck: Luck, ghost f: Facts)
      requires w.Valid() && Mine(w, m, Received, f)
      modifies w
      ensures w.Valid() && Mine(w, m, Acked, f) && ActsOn(w.log, m) == ActsOn(old(w.log), m) + Script(Refused, luck)
    {
      ghost var before := ActsOn(w.log, m);
      Do(w, m, Refuse, f);
      Finish(w, m, Nack, NackDue, f);
      Two(before, Refuse, Nack);
    }

    /** The `finally` block. */
    method Settle(w: World, m: nat, course: Course, luck: Luck, ghost f: Facts) returns (giving: Giving)
      requires w.Valid() && Mine(w, m, Acked, f) && !course.Unreadable?
      modifies w
      ensures w.Valid() && m < |w.msgs| && w.msgs[m].place == Gone && !w.msgs[m].slot
      ensures forall log | ActsOn(old(w.log), m) == log + Script(course, luck) :: ActsOn(w.log, m) == log + Acts(course, luck, giving)
      ensures giving.Leaked? <==> !luck.released
      ensures giving.Floored? ==> f.job in w.jobs && w.jobs[f.job].project in w.expired
      ensures old(w.flags) <= w.flags && f.job in w.jobs && (Quiet(w) ==> w.jobs[f.job].status == old(w.jobs[f.job].status))
    {
      giving := GiveBack(w, m, luck, f);
      forall log | ActsOn(old(w.log), m) == log + Script(course, luck) ensures ActsOn(w.log, m) == log + Acts(course, luck, giving) {
        assert log + Script(course, luck) + Giveback(giving) == log + (Script(course, luck) + Giveback(giving));
      }
    }

    /** A step of the shell that is no statement on a table. */
    method Do(w: World, m: nat, act: Act, ghost f: Facts)
      requires act.Refuse? || act.Unread? || act.GateError?
      requires w.Valid() && Mine(w, m, Received, f)
      modifies w
      ensures w.Valid() && ActsOn(w.log, m) == ActsOn(old(w.log), m) + [act]
      ensures if act.Unread? then m < |w.msgs| && w.msgs[m].place == Dead && !w.msgs[m].slot
              else Mine(w, m, if act.Refuse? then NackDue else Gated, f)
      ensures w.flags == old(w.flags) && w.jobs == old(w.jobs) && w.beating == old(w.beating)
    {
      ActsPush(w.log, Work(m, act), m);
      w.Perform(Work(m, act));
      assert w.jobs == old(w.jobs);
    }

    /** True when the delivery may go on: it has a slot, or the gate threw. */
    method PassGate(w: World, m: nat, luck: Luck, ghost f: Facts) returns (gated: bool)
      requires w.Valid() && Mine(w, m, Received, f)
      modifies w
      ensures w.Valid() && Mine(w, m, if gated then Gated else AtLimit, f) && (!gated ==> luck.gate.Answers?)
      ensures ActsOn(w.log, m) == ActsOn(old(w.log), m) + [Gate(luck)]
      ensures old(w.flags) <= w.flags
      ensures Quiet(w) ==> w.jobs == old(w.jobs) && w.beating == old(w.beating) && (gated <==> !Full(luck, f, w.cfg, old(w.Now())))
    {
      w.Yield(Shell(m, id));
      if luck.gate.Throws? {
        Do(w, m, GateError(luck.gate.leaked), f);
        gated := true;
      } else {
        ActsPush(w.log, Work(m, Acquire), m);
        gated := w.AcquireSlot(m);
      }
    }

    /** At its limit the project's job is published again with a delay. */
    method PutOff(w: World, m: nat, luck: Luck, ghost f: Facts)
      requires w.Valid() && Mine(w, m, AtLimit, f)
      modifies w
      ensures w.Valid() && Mine(w, m, Acked, f)
      ensures ActsOn(w.log, m) == ActsOn(old(w.log), m) + [Defer(luck.deferred)] + [if luck.deferred == Confirmed then Ack else Nack]
      ensures old(w.flags) <= w.flags
    {
      var pub := luck.deferred;
      Send(w, m, false, pub, f);
      if pub == Confirmed {
        Finish(w, m, Ack, AckDue, f);
      } else {
        Finish(w, m, Nack, NackDue, f);
      }
    }

    method Finish(w: World, m: nat, act: Act, pc: Pc, ghost f: Facts)
      requires (act == Ack && pc == AckDue) || (act == Nack && pc == NackDue) || (act == DeadLetter && pc == DeadDue)
      requires w.Valid() && Mine(w, m, pc, f)
      modifies w
      ensures w.Valid() && Mine(w, m, Acked, f)
      ensures ActsOn(w.log, m) == ActsOn(old(w.log), m) + [act]
      ensures old(w.flags) <= w.flags && (Quiet(w) ==> w.jobs[f.job].status == old(w.jobs[f.job].status))
    {
      w.Yield(Shell(m, id));
      ActsPush(w.log, Work(m, act), m);
      if act.Nack? { w.Requeue(m); } else { w.Settle(m, act); }
    }

    method GiveBack(w: World, m: nat, luck: Luck, ghost f: Facts) returns (giving: Giving)
      requires w.Valid() && Mine(w, m, Acked, f)
      modifies w
      ensures w.Valid() && m < |w.msgs| && w.msgs[m].place == Gone && !w.msgs[m].slot
      ensures ActsOn(w.log, m) == ActsOn(old(w.log), m) + Giveback(giving)
      ensures giving.Leaked? <==> !luck.released
      ensures giving.Floored? ==> f.job in w.jobs && w.jobs[f.job].project in w.expired
      ensures old(w.flags) <= w.flags && f.job in w.jobs && (Quiet(w) ==> w.jobs[f.job].status == old(w.jobs[f.job].status))
    {
      w.Yield(Shell(m, id));
      giving := Leaked;
      if luck.released {
        giving := GiveOne(w, m, f);
      } else {
        ActsPush(w.log, Work(m, ReleaseLost), m);
        w.Perform(Work(m, ReleaseLost));
      }
    }

    method GiveOne(w: World, m: nat, ghost f: Facts) returns (giving: Giving)
      requires w.Valid() && Mine(w, m, Acked, f)
      modifies w
      ensures w.Valid() && m < |w.msgs| && w.msgs[m].place == Gone && !w.msgs[m].slot
      ensures ActsOn(w.log, m) == ActsOn(old(w.log), m) + Giveback(giving) && !giving.Leaked?
      ensures giving.Floored? ==> f.job in w.jobs && w.jobs[f.job].project in w.expired
      ensures old(w.flags) <= w.flags && f.job in w.jobs && (Quiet(w) ==> w.jobs[f.job].status == old(w.jobs[f.job].status))
    {
      ghost var before := ActsOn(w.log, m);
      var negative := Decrement(w, m, f);
      giving := if negative then Floored else Returned;
      if negative {
        FloorAfter(w, m, f);
        Two(before, Release, Floor);
      }
    }

    method Decrement(w: World, m: nat, ghost f: Facts) returns (negative: bool)
      requires w.Valid() && Mine(w, m, Acked, f)
      modifies w
      ensures w.Valid() && ActsOn(w.log, m) == ActsOn(old(w.log), m) + [Release]
      ensures m < |w.msgs| && !w.msgs[m].slot
      ensures if negative then Mine(w, m, BelowZero, f) else w.msgs[m].place == Gone
      ensures w.flags == old(w.flags) && f.job in w.jobs && w.jobs[f.job].status == old(w.jobs[f.job].status)
    {
      ActsPush(w.log, Work(m, Release), m);
      negative := w.ReleaseSlot(m);
    }

    /** The SET to zero, in its own turn. */
    method FloorAfter(w: World, m: nat, ghost f: Facts)
      requires w.Valid() && Mine(w, m, BelowZero, f) && !w.msgs[m].slot
      modifies w
      ensures w.Valid() && m < |w.msgs| && w.msgs[m].place == Gone && !w.msgs[m].slot
      ensures ActsOn(w.log, m) == ActsOn(old(w.log), m) + [Floor]
      ensures f.job in w.jobs && w.jobs[f.job].project in w.expired
      ensures old(w.flags) <= w.flags && (Quiet(w) ==> w.jobs[f.job].status == old(w.jobs[f.job].status))
    {
      w.Yield(Shell(m, id));
      assert Reachable(w.cfg, w.Now());
      FloorUnreachable(w.cfg, w.Now(), m);
      ActsPush(w.log, Work(m, Floor), m);
      w.FloorSlots(m);
    }

    method Send(w: World, m: nat, retry: bool, pub: Publish, ghost f: Facts)
      requires w.Valid() && Mine(w, m, if retry then Executing else AtLimit, f) && (retry ==> f.attempt < f.max)
      modifies w
      ensures w.Valid() && Mine(w, m, if pub != Confirmed then NackDue else if retry then RetryPublished else AckDue, f)
      ensures ActsOn(w.log, m) == ActsOn(old(w.log), m) + [if retry then PublishRetry(pub) else Defer(pub)]
      ensures old(w.flags) <= w.flags
    {
      w.Yield(Shell(m, id));
      ActsPush(w.log, Work(m, if retry then PublishRetry(pub) else Defer(pub)), m);
      w.PublishDelayed(m, retry, pub);
    }

    method TryClaim(w: World, m: nat, ghost f: Facts) returns (claimed: bool)
      requires w.Valid() && Mine(w, m, Gated, f)
      modifies w
      ensures w.Valid() && Mine(w, m, if claimed then Executing else AckDue, f)
      ensures ActsOn(w.log, m) == ActsOn(old(w.log), m) + [Claim]
      ensures old(w.flags) <= w.flags
      ensures Quiet(w) ==> (claimed <==> Claimable(old(w.jobs[f.job]), id, old(w.beating)))
    {
      w.Yield(Shell(m, id));
      ActsPush(w.log, Work(m, Claim), m);
      claimed := w.ClaimJob(m);
    }

    method Write(w: World, m: nat, act: Act, ghost f: Facts)
      requires act.Complete? || act.CancelSeen? || act.WriteRetrying? || (act.WriteFailed? && f.attempt >= f.max)
      requires w.Valid() && Mine(w, m, if act.WriteRetrying? then RetryPublished else Executing, f)
      requires act.CancelSeen? ==> f.job in w.flags
      modifies w
      ensures w.Valid() && Mine(w, m, if act.WriteFailed? then DeadDue else AckDue, f)
      ensures ActsOn(w.log, m) == ActsOn(old(w.log), m) + [act]
      ensures old(w.flags) <= w.flags
      ensures w.jobs[f.job].status ==
              match act { case Complete => Completed case WriteFailed => Failed case WriteRetrying => Retrying case _ => Cancelled }
    {
      w.Yield(Shell(m, id));
      ActsPush(w.log, Work(m, act), m);
      w.WriteStatus(m, act);
    }

    /** Claim, run the handler, and settle. */
    method Execute(w: World, m: nat, luck: Luck, ghost f: Facts) returns (course: Course)
      requires w.Valid() && Mine(w, m, Gated, f)
      modifies w
      ensures w.Valid() && Mine(w, m, Acked, f) && (course.Skipped? || Claims(course))
      ensures ActsOn(w.log, m) == ActsOn(old(w.log), m) + ([Claim] + Ending(course, luck))
      ensures Quiet(w) ==> (course.Skipped? <==> !Claimable(old(w.jobs[f.job]), id, old(w.beating)))
      ensures Explained(course, luck, f, w.flags) && Obeys(course, luck, f, old(w.flags)) && old(w.flags) <= w.flags
      ensures Quiet(w) && Concludes(course).Some? ==> w.jobs[f.job].status == Concludes(course).value
    {
      ghost var before := ActsOn(w.log, m);
      var claimed := TryClaim(w, m, f);
      if !claimed {
        Finish(w, m, Ack, AckDue, f);
        course := Skipped;
      } else if luck.outcome.Fails? {
        course := HandleFailure(w, m, luck, f);
      } else {
        course := Succeed(w, m, luck, f);
      }
      assert before + [Claim] + Ending(course, luck) == before + ([Claim] + Ending(course, luck));
    }

    /** The handler returns, or stops at a chunk boundary where it finds the flag. */
    method Succeed(w: World, m: nat, luck: Luck, ghost f: Facts) returns (course: Course)
      requires w.Valid() && Mine(w, m, Executing, f) && luck.outcome != Fails
      modifies w
      ensures w.Valid() && Mine(w, m, Acked, f) && Claims(course)
      ensures ActsOn(w.log, m) == ActsOn(old(w.log), m) + Ending(course, luck)
      ensures Explained(course, luck, f, w.flags) && Obeys(course, luck, f, old(w.flags)) && old(w.flags) <= w.flags
      ensures Quiet(w) && Concludes(course).Some? ==> w.jobs[f.job].status == Concludes(course).value
    {
      w.Yield(Shell(m, id));
      ghost var before := ActsOn(w.log, m);
      var stop := luck.outcome.ChecksFlag? && w.msgs[m].job in w.flags;
      var act := if stop then CancelSeen else Complete;
      Write(w, m, act, f);
      Finish(w, m, Ack, AckDue, f);
      Two(before, act, Ack);
      course := if stop then Stopped else Finished;
    }

    method HandleFailure(w: World, m: nat, luck: Luck, ghost f: Facts) returns (course: Course)
      requires w.Valid() && Mine(w, m, Executing, f) && luck.outcome == Fails
      modifies w
      ensures w.Valid() && Mine(w, m, Acked, f) && Claims(course)
      ensures ActsOn(w.log, m) == ActsOn(old(w.log), m) + Ending(course, luck)
      ensures Explained(course, luck, f, w.flags) && Obeys(course, luck, f, old(w.flags)) && old(w.flags) <= w.flags
      ensures Quiet(w) && Concludes(course).Some? ==> w.jobs[f.job].status == Concludes(course).value
    {
      w.Yield(Shell(m, id));
      if w.msgs[m].attempt < w.jobs[w.msgs[m].job].maxAttempts {
        course := Retry(w, m, luck, f);
      } else {
        GiveUp(w, m, f);
        course := Exhausted;
      }
    }

    method GiveUp(w: World, m: nat, ghost f: Facts)
      requires w.Valid() && Mine(w, m, Executing, f) && f.attempt >= f.max
      modifies w
      ensures w.Valid() && Mine(w, m, Acked, f)
      ensures ActsOn(w.log, m) == ActsOn(old(w.log), m) + [WriteFailed, DeadLetter]
      ensures old(w.flags) <= w.flags && (Quiet(w) ==> w.jobs[f.job].status == Failed)
    {
      ghost var before := ActsOn(w.log, m);
      Write(w, m, WriteFailed, f);
      Finish(w, m, DeadLetter, DeadDue, f);
      Two(before, WriteFailed, DeadLetter);
    }

    /** The delayed copy first; only then the status and the ack. */
    method Retry(w: World, m: nat, luck: Luck, ghost f: Facts) returns (course: Course)
      requires w.Valid() && Mine(w, m, Executing, f) && luck.outcome == Fails && f.attempt < f.max
      modifies w
      ensures w.Valid() && Mine(w, m, Acked, f) && Claims(course)
      ensures ActsOn(w.log, m) == ActsOn(old(w.log), m) + Ending(course, luck)
      ensures Explained(course, luck, f, w.flags) && Obeys(course, luck, f, old(w.flags)) && old(w.flags) <= w.flags
      ensures Quiet(w) && Concludes(course).Some? ==> w.jobs[f.job].status == Concludes(course).value
    {
      ghost var before := ActsOn(w.log, m);
      Send(w, m, true, luck.retried, f);
      if luck.retried == Confirmed {
        Write(w, m, WriteRetrying, f);
        Finish(w, m, Ack, AckDue, f);
        Three(before, PublishRetry(Confirmed), WriteRetrying, Ack);
        course := RetryScheduled;
      } else {
        Finish(w, m, Nack, NackDue, f);
        Two(before, PublishRetry(luck.retried), Nack);
        course := RetryUnpublished;
      }
    }
  }

  /** What stays fixed about a delivery: its job, its attempt number and the job's `max_attempts`. */
  datatype Facts = Facts(job: JobId, attempt: nat, max: nat)

  /** Why a claimed delivery ended as it did. */
  predicate Explained(course: Course, luck: Luck, f: Facts, flags: set<JobId>) {
    match course
    case Finished => luck.outcome != Fails
    case Stopped => luck.outcome == ChecksFlag && f.job in flags
    case RetryScheduled => luck.outcome == Fails && f.attempt < f.max && luck.retried == Confirmed
    case RetryUnpublished => luck.outcome == Fails && f.attempt < f.max && luck.retried != Confirmed
    case Exhausted => luck.outcome == Fails && f.attempt >= f.max
    case Deferred => luck.gate.Answers?
    case _ => true
  }

  /** A handler that checks the flag stops if the flag was set before it began. */
  predicate Obeys(course: Course, luck: Luck, f: Facts, flags: set<JobId>) {
    f.job in flags && luck.outcome == ChecksFlag && Claims(course) ==> course == Stopped
  }

  /** The project has no slot left, and the gate says so. */
  predicate Full(luck: Luck, f: Facts, cfg: Config, s: Sys) {
    luck.gate.Answers? && f.job in s.jobs && Slots(s, s.jobs[f.job].project) >= cfg.limit(s.jobs[f.job].project)
  }

  /** What the state before decides when nobody else is at work: at the limit the job is deferred, else it is executed
      exactly if it can be claimed. */
  predicate Expected(course: Course, luck: Luck, f: Facts, w: WorkerId, cfg: Config, s: Sys) {
    && f.job in s.jobs
    && (course.Deferred? <==> Full(luck, f, cfg, s))
    && (Claims(course) <==> !Full(luck, f, cfg, s) && Claimable(s.jobs[f.job], w, s.beating))
  }

  /** The job's status after a course that writes it. */
  function Concludes(course: Course): Option<Status> {
    match course
    case Finished => Some(Completed)
    case Stopped => Some(Cancelled)
    case RetryScheduled => Some(Retrying)
    case Exhausted => Some(Failed)
    case _ => None
  }
}
