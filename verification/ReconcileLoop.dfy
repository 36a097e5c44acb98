/** The reconcile loops over Docker's containers, in place (services/provisioner/src/reconcile.ts:31-80). Each
    project comes out as Reconcile.Tick says, from its own state and its own luck alone. */
module ReconcileLoop {
  import opened Basics
  import opened Reconcile

  datatype Container = Container(project: ProjectId, health: Health)

  /** No two containers are of one project. */
  ghost predicate OnePerProject(cs: map<ContainerId, Container>) {
    forall a, b | a in cs && b in cs && cs[a].project == cs[b].project :: a == b
  }

  ghost predicate Has(cs: map<ContainerId, Container>, p: ProjectId) {
    exists id :: id in cs && cs[id].project == p
  }

  ghost function ViewOf(cs: map<ContainerId, Container>, recorded: map<ProjectId, Recorded>, p: ProjectId): View {
    View(ContainerOf(cs, p), if p in recorded then Some(recorded[p]) else None)
  }

  ghost function ContainerOf(cs: map<ContainerId, Container>, p: ProjectId): Option<Health> {
    if Has(cs, p) then var id :| id in cs && cs[id].project == p; Some(cs[id].health) else None
  }

  lemma ContainerIs(cs: map<ContainerId, Container>, id: ContainerId)
    requires OnePerProject(cs) && id in cs
    ensures ContainerOf(cs, cs[id].project) == Some(cs[id].health)
  {
    assert Has(cs, cs[id].project);
  }

  /** Containers of other projects are the same in both. */
  ghost predicate SameElsewhere(a: map<ContainerId, Container>, b: map<ContainerId, Container>, p: ProjectId) {
    && (forall id | id in a && a[id].project != p :: id in b && b[id] == a[id])
    && (forall id | id in b && b[id].project != p :: id in a && a[id] == b[id])
  }

  lemma ElsewhereUnchanged(a: map<ContainerId, Container>, b: map<ContainerId, Container>, p: ProjectId, q: ProjectId)
    requires SameElsewhere(a, b, p) && OnePerProject(a) && OnePerProject(b) && q != p
    ensures ContainerOf(b, q) == ContainerOf(a, q)
  {
    if Has(b, q) {
      var id :| id in b && b[id].project == q;
      assert id in a && a[id].project == q;
    }
    if Has(a, q) {
      var id :| id in a && a[id].project == q;
      ContainerIs(a, id);
      ContainerIs(b, id);
    }
  }

  /** The calls made so far for a project, in order. */
  function CallsOf(calls: map<ProjectId, seq<Call>>, p: ProjectId): seq<Call> {
    if p in calls then calls[p] else []
  }

  /** After the calls `more` for `p`. */
  function Logged(was: map<ProjectId, seq<Call>>, p: ProjectId, more: seq<Call>): map<ProjectId, seq<Call>> {
    if more == [] then was else was[p := CallsOf(was, p) + more]
  }

  lemma LoggedJoin(was: map<ProjectId, seq<Call>>, p: ProjectId, x: seq<Call>, y: seq<Call>)
    ensures Logged(Logged(was, p, x), p, y) == Logged(was, p, x + y)
  {
    assert CallsOf(was, p) + x + y == CallsOf(was, p) + (x + y);
    if x == [] { assert x + y == y; }
    if y == [] { assert x + y == x; }
  }

  /** The lists a tick returns. */
  datatype Result = Result(created: seq<ProjectId>, removed: seq<ProjectId>, errored: seq<ProjectId>)

  function Filed(res: Result, p: ProjectId, verdict: Verdict): Result {
    match verdict
    case Nothing => res
    case Provisioned => res.(created := res.created + [p])
    case TornDown => res.(removed := res.removed + [p])
    case Errored => res.(errored := res.errored + [p])
  }

  /** The project is in the list of its verdict, once, and in no other. */
  predicate FiledAs(res: Result, p: ProjectId, verdict: Verdict) {
    && multiset(res.created)[p] == (if verdict == Provisioned then 1 else 0)
    && multiset(res.removed)[p] == (if verdict == TornDown then 1 else 0)
    && multiset(res.errored)[p] == (if verdict == Errored then 1 else 0)
  }

  lemma FilingOne(res: Result, p: ProjectId, verdict: Verdict, q: ProjectId, v: Verdict)
    requires FiledAs(res, q, if q == p then Nothing else v)
    ensures FiledAs(Filed(res, p, verdict), q, if q == p then verdict else v)
  {
  }

  /** The containers and the records, and the calls made so far. */
  datatype Tables = Tables(
    containers: map<ContainerId, Container>, recorded: map<ProjectId, Recorded>, calls: map<ProjectId, seq<Call>>)
  {
    ghost function See(p: ProjectId): View { ViewOf(containers, recorded, p) }
  }

  /** The tables as a tick found them, and what it was told. */
  datatype Before = Before(was: Tables, desired: set<ProjectId>, luck: ProjectId -> Luck)
  {
    ghost function Expect(p: ProjectId): Outcome {
      Tick(p in desired, was.See(p), luck(p))
    }
  }

  ghost predicate AllFiled(b: Before, ps: set<ProjectId>, res: Result) {
    forall p :: FiledAs(res, p, if p in ps then b.Expect(p).verdict else Nothing)
  }

  lemma FilingOneMore(b: Before, ps: set<ProjectId>, res: Result, p: ProjectId)
    requires AllFiled(b, ps, res) && p !in ps
    ensures AllFiled(b, ps + {p}, Filed(res, p, b.Expect(p).verdict))
  {
    forall q ensures FiledAs(Filed(res, p, b.Expect(p).verdict), q, if q in ps + {p} then b.Expect(q).verdict else Nothing) {
      FilingOne(res, p, b.Expect(p).verdict, q, if q in ps then b.Expect(q).verdict else Nothing);
    }
  }

  /** Containers of projects outside `ps` are the same in both. */
  ghost predicate SameOutside(a: map<ContainerId, Container>, b: map<ContainerId, Container>, ps: set<ProjectId>) {
    && (forall id | id in a && a[id].project !in ps :: id in b && b[id] == a[id])
    && (forall id | id in b && b[id].project !in ps :: id in a && a[id] == b[id])
  }

  /** Those of `ps` for which the tick makes a call. */
  ghost function Touched(b: Before, ps: set<ProjectId>): set<ProjectId> {
    set p | p in ps && b.Expect(p).calls != []
  }

  lemma OneMoreTouched(b: Before, ps: set<ProjectId>, p: ProjectId)
    ensures Touched(b, ps + {p}) == Touched(b, ps) + (if b.Expect(p).calls != [] then {p} else {})
  {
  }

  ghost predicate AllSeen(b: Before, ps: set<ProjectId>, t: Tables) {
    forall p :: t.See(p) == if p in ps then b.Expect(p).view else b.was.See(p)
  }

  ghost predicate AllCalled(b: Before, ps: set<ProjectId>, calls: map<ProjectId, seq<Call>>) {
    forall p :: CallsOf(calls, p) == if p in ps then CallsOf(b.was.calls, p) + b.Expect(p).calls else CallsOf(b.was.calls, p)
  }

  /** The project came out as `o` says, with its calls in their order; the others are untouched. */
  ghost predicate CameOut(was: Tables, now: Tables, p: ProjectId, verdict: Verdict, o: Outcome) {
    && now.See(p) == o.view && verdict == o.verdict && now.calls == Logged(was.calls, p, o.calls)
    && (forall q | q != p :: now.See(q) == was.See(q))
    && SameElsewhere(was.containers, now.containers, p)
    && (verdict == Nothing ==> now.containers == was.containers)
  }

  /** The projects `ps` have been dealt with, each as expected, and the others not at all. */
  ghost predicate Through(b: Before, ps: set<ProjectId>, res: Result, t: Tables) {
    && SameOutside(b.was.containers, t.containers, Touched(b, ps))
    && AllFiled(b, ps, res) && AllSeen(b, ps, t) && AllCalled(b, ps, t.calls)
  }

  lemma NothingMeansNoCalls(desired: bool, v: View, luck: Luck)
    ensures Tick(desired, v, luck).verdict == Nothing <==> Tick(desired, v, luck).calls == []
  {
  }

  lemma SeeingOneMore(b: Before, ps: set<ProjectId>, t: Tables, u: Tables, p: ProjectId)
    requires AllSeen(b, ps, t) && u.See(p) == b.Expect(p).view && forall q | q != p :: u.See(q) == t.See(q)
    ensures AllSeen(b, ps + {p}, u)
  {
  }

  lemma CallingOneMore(b: Before, ps: set<ProjectId>, calls: map<ProjectId, seq<Call>>, p: ProjectId)
    requires AllCalled(b, ps, calls) && p !in ps
    ensures AllCalled(b, ps + {p}, Logged(calls, p, b.Expect(p).calls))
  {
    var more := Logged(calls, p, b.Expect(p).calls);
    forall q ensures CallsOf(more, q) == if q in ps + {p} then CallsOf(b.was.calls, q) + b.Expect(q).calls else CallsOf(b.was.calls, q) {
      assert CallsOf(calls, q) + [] == CallsOf(calls, q);
    }
  }

  lemma TouchingOneMore(b: Before, ps: set<ProjectId>, t: Tables, u: Tables, p: ProjectId)
    requires SameOutside(b.was.containers, t.containers, Touched(b, ps)) && SameElsewhere(t.containers, u.containers, p)
    requires b.Expect(p).calls == [] ==> u.containers == t.containers
    ensures SameOutside(b.was.containers, u.containers, Touched(b, ps + {p}))
  {
    OneMoreTouched(b, ps, p);
    if b.Expect(p).calls != [] {
      OneMoreOutside(b.was.containers, t.containers, u.containers, Touched(b, ps), p);
    } else {
      assert Touched(b, ps) + {} == Touched(b, ps);
    }
  }

  lemma OneMore(b: Before, ps: set<ProjectId>, res: Result, t: Tables, u: Tables, p: ProjectId)
    requires Through(b, ps, res, t) && p !in ps && CameOut(t, u, p, b.Expect(p).verdict, b.Expect(p))
    ensures Through(b, ps + {p}, Filed(res, p, b.Expect(p).verdict), u)
  {
    NothingMeansNoCalls(p in b.desired, b.was.See(p), b.luck(p));
    SeeingOneMore(b, ps, t, u, p);
    CallingOneMore(b, ps, t.calls, p);
    TouchingOneMore(b, ps, t, u, p);
    FilingOneMore(b, ps, res, p);
  }

  lemma NoneYet(b: Before, ps: set<ProjectId>, t: Tables, p: ProjectId)
    requires SameOutside(b.was.containers, t.containers, Touched(b, ps)) && p !in ps && !Has(b.was.containers, p)
    ensures !Has(t.containers, p)
  {
    forall id | id in t.containers ensures t.containers[id].project != p {
      assert t.containers[id].project !in Touched(b, ps) ==> id in b.was.containers && b.was.containers[id] == t.containers[id];
    }
  }

  lemma OneMoreOutside(a: map<ContainerId, Container>, b: map<ContainerId, Container>, c: map<ContainerId, Container>,
                       ps: set<ProjectId>, p: ProjectId)
    requires SameOutside(a, b, ps) && SameElsewhere(b, c, p)
    ensures SameOutside(a, c, ps + {p})
  {
    forall id | id in a && a[id].project !in ps + {p} ensures id in c && c[id] == a[id] {
      assert id in b && b[id] == a[id];
    }
    forall id | id in c && c[id].project !in ps + {p} ensures id in a && a[id] == c[id] {
      assert id in b && b[id] == c[id];
    }
  }

  function Elements(xs: seq<ProjectId>): set<ProjectId> { set x | x in xs }

  lemma NextElement(xs: seq<ProjectId>, k: nat)
    requires Distinct(xs) && k < |xs|
    ensures xs[k] !in Elements(xs[..k]) && Elements(xs[..k + 1]) == Elements(xs[..k]) + {xs[k]}
  {
    assert xs[..k + 1] == xs[..k] + [xs[k]];
  }

  lemma AlreadyIn(ps: set<ProjectId>, p: ProjectId)
    requires p in ps
    ensures ps + {p} == ps
  {
  }

  lemma NextAfter(desired: set<ProjectId>, xs: seq<ProjectId>, k: nat)
    requires Distinct(xs) && k < |xs|
    ensures var ps := desired + Elements(xs[..k]);
      desired <= ps && (xs[k] in ps ==> xs[k] in desired) && ps + {xs[k]} == desired + Elements(xs[..k + 1])
  {
    NextElement(xs, k);
  }

  /** `ids` lists every container, `projects` the project of each. */
  predicate Listed(cs: map<ContainerId, Container>, ids: seq<ContainerId>, projects: seq<ProjectId>) {
    && |ids| == |projects|
    && (forall k | 0 <= k < |ids| :: ids[k] in cs && cs[ids[k]].project == projects[k])
    && (forall id | id in cs :: id in ids)
  }

  ghost predicate Indexed(cs: map<ContainerId, Container>, index: map<ProjectId, ContainerId>) {
    && (forall p | p in index :: index[p] in cs && cs[index[p]].project == p)
    && (forall p | p !in index :: !Has(cs, p))
  }

  /** One running container for each of `ps`, and no other. */
  ghost predicate ExactlyRunning(cs: map<ContainerId, Container>, ps: set<ProjectId>) {
    && OnePerProject(cs)
    && (forall p | p in ps :: exists id :: id in cs && cs[id] == Container(p, Running))
    && (forall id | id in cs :: cs[id].health == Running && cs[id].project in ps)
  }

  lemma SameViews(a: map<ProjectId, Recorded>, b: map<ProjectId, Recorded>)
    requires forall p :: (if p in a then Some(a[p]) else None) == (if p in b then Some(b[p]) else None)
    ensures a == b
  {
    assert forall p :: p in a <==> p in b;
  }

  /** The whole tick, project by project: state, list, calls; and the containers of projects without calls are the
      very same. */
  ghost predicate Ticked(b: Before, now: Tables, res: Result) {
    && (forall p :: now.See(p) == b.Expect(p).view)
    && (forall p :: FiledAs(res, p, b.Expect(p).verdict))
    && (forall p :: CallsOf(now.calls, p) == CallsOf(b.was.calls, p) + b.Expect(p).calls)
    && (forall id | id in b.was.containers && b.Expect(b.was.containers[id].project).calls == [] ::
          id in now.containers && now.containers[id] == b.was.containers[id])
    && (forall id | id in now.containers && b.Expect(now.containers[id].project).calls == [] ::
          id in b.was.containers && now.containers[id] == b.was.containers[id])
  }

  lemma ThroughAll(b: Before, ps: set<ProjectId>, res: Result, t: Tables)
    requires Through(b, ps, res, t) && forall p | p !in ps :: b.Expect(p) == Outcome(b.was.See(p), Nothing, [])
    ensures Ticked(b, t, res)
  {
    forall p
      ensures t.See(p) == b.Expect(p).view
      ensures FiledAs(res, p, b.Expect(p).verdict)
      ensures CallsOf(t.calls, p) == CallsOf(b.was.calls, p) + b.Expect(p).calls
    {
      assert t.See(p) == if p in ps then b.Expect(p).view else b.was.See(p);
      assert FiledAs(res, p, if p in ps then b.Expect(p).verdict else Nothing);
      assert CallsOf(b.was.calls, p) + [] == CallsOf(b.was.calls, p);
    }
  }

  /** The calls a tick adds create a container only right after readiness, and after the old one is removed. */
  lemma TickCreatesLast(b: Before, now: Tables, res: Result, p: ProjectId)
    requires Ticked(b, now, res)
    ensures |CallsOf(b.was.calls, p)| <= |CallsOf(now.calls, p)|
    ensures CreatesLast(CallsOf(now.calls, p)[|CallsOf(b.was.calls, p)|..], p in b.desired, b.was.See(p), b.luck(p))
  {
    CreateComesLast(p in b.desired, b.was.See(p), b.luck(p));
    assert CallsOf(now.calls, p) == CallsOf(b.was.calls, p) + b.Expect(p).calls;
    assert CallsOf(now.calls, p)[|CallsOf(b.was.calls, p)|..] == b.Expect(p).calls;
  }

  /** The lists tell the truth: what is reported created or removed was not so before and is now, and recorded; and an
      error is reported exactly when the project needed work and one of the calls it needed failed. */
  lemma ListsAreTruthful(b: Before, now: Tables, res: Result, p: ProjectId)
    requires Ticked(b, now, res)
    ensures p in res.created ==> p in b.desired && now.See(p) == View(Some(Running), Some(Up)) && b.was.See(p).container != Some(Running)
    ensures p in res.removed ==> p !in b.desired && now.See(p) == View(None, Some(Stopped)) && b.was.See(p).container.Some?
    ensures p in res.errored <==>
            (!Converged(p in b.desired, b.was.See(p)) &&
             ((b.was.See(p).container.Some? && b.luck(p).remove != Removed) || !b.luck(p).first || !b.luck(p).last
              || (p in b.desired && (!b.luck(p).ready || b.luck(p).create != Started))))
  {
    VerdictIsTruthful(p in b.desired, b.was.See(p), b.luck(p));
    assert FiledAs(res, p, b.Expect(p).verdict) && now.See(p) == b.Expect(p).view;
    assert p in res.created <==> multiset(res.created)[p] > 0;
    assert p in res.removed <==> multiset(res.removed)[p] > 0;
    assert p in res.errored <==> multiset(res.errored)[p] > 0;
  }

  /** After an error the record says `error`, or, if that could not be written, how far the tick had come; and the calls
      for a worker that is removed because it is not wanted begin with the record of `stopping`. */
  lemma TickRecords(b: Before, now: Tables, res: Result, p: ProjectId)
    requires Ticked(b, now, res)
    ensures p in res.errored ==>
              now.See(p).recorded == if b.luck(p).error then Some(Failed) else Interim(p in b.desired, b.was.See(p), b.luck(p))
    ensures var more := b.Expect(p).calls;
      && CallsOf(now.calls, p) == CallsOf(b.was.calls, p) + more
      && (p !in b.desired ==> forall i | 0 <= i < |more| && more[i] == Remove :: i > 0 && more[i - 1] == Record(Stopping))
  {
    ErrorIsRecorded(p in b.desired, b.was.See(p), b.luck(p));
    StoppingComesFirst(b.was.See(p), b.luck(p));
    assert FiledAs(res, p, b.Expect(p).verdict) && now.See(p) == b.Expect(p).view;
    assert p in res.errored <==> multiset(res.errored)[p] > 0;
  }

  /** A tick leaves a project's record stale that was not so before, exactly when only its last write failed. */
  lemma TickMakesStaleIff(b: Before, now: Tables, res: Result, p: ProjectId)
    requires Ticked(b, now, res)
    ensures Stale(p in b.desired, now.See(p)) && !Stale(p in b.desired, b.was.See(p)) <==>
            && !Converged(p in b.desired, b.was.See(p)) && (b.was.See(p).container.Some? ==> b.luck(p).remove == Removed)
            && b.luck(p).first && !b.luck(p).last && (p in b.desired ==> b.luck(p).ready && b.luck(p).create == Started)
  {
    StaleArises(p in b.desired, b.was.See(p), b.luck(p));
    assert now.See(p) == b.Expect(p).view;
  }

  /** A tick that finds every project as it should be makes no call and changes nothing. */
  lemma IdleTick(b: Before, now: Tables, res: Result)
    requires Ticked(b, now, res) && forall p :: Converged(p in b.desired, b.was.See(p))
    ensures now.containers == b.was.containers && now.recorded == b.was.recorded && res == Result([], [], [])
    ensures forall p :: CallsOf(now.calls, p) == CallsOf(b.was.calls, p)
  {
    forall p ensures b.Expect(p) == Outcome(b.was.See(p), Nothing, []) {
      GoodTickConverges(p in b.desired, b.was.See(p), b.luck(p));
    }
    forall p
      ensures (if p in b.was.recorded then Some(b.was.recorded[p]) else None) == (if p in now.recorded then Some(now.recorded[p]) else None)
      ensures FiledAs(res, p, Nothing)
      ensures CallsOf(now.calls, p) == CallsOf(b.was.calls, p)
    {
      assert now.See(p) == b.was.See(p);
      assert CallsOf(b.was.calls, p) + [] == CallsOf(b.was.calls, p);
    }
    SameViews(b.was.recorded, now.recorded);
    NothingFiled(res);
    assert now.containers == b.was.containers;
  }

  /** A tick without a failure leaves every project as it should be. */
  lemma GoodTick(b: Before, now: Tables, res: Result)
    requires Ticked(b, now, res) && forall p :: b.luck(p) == GOOD
    ensures forall p :: Converged(p in b.desired, now.See(p))
  {
    forall p ensures Converged(p in b.desired, now.See(p)) {
      GoodTickConverges(p in b.desired, b.was.See(p), GOOD);
    }
  }

  lemma AllConverged(t: Tables, desired: set<ProjectId>)
    requires OnePerProject(t.containers) && forall p :: Converged(p in desired, t.See(p))
    ensures ExactlyRunning(t.containers, desired)
  {
    forall p | p in desired ensures exists id :: id in t.containers && t.containers[id] == Container(p, Running) {
      assert Converged(p in desired, t.See(p));
      var id :| id in t.containers && t.containers[id].project == p;
      ContainerIs(t.containers, id);
    }
    forall id | id in t.containers ensures t.containers[id].health == Running && t.containers[id].project in desired {
      ContainerIs(t.containers, id);
      assert Converged(t.containers[id].project in desired, t.See(t.containers[id].project));
    }
  }

  lemma NothingFiled(res: Result)
    requires forall p {:trigger multiset(res.created)[p]} {:trigger multiset(res.removed)[p]} {:trigger multiset(res.errored)[p]} ::
               FiledAs(res, p, Nothing)
    ensures res == Result([], [], [])
  {
    Emptied(res.created);
    Emptied(res.removed);
    Emptied(res.errored);
  }

  lemma Emptied(xs: seq<ProjectId>)
    requires forall p :: multiset(xs)[p] == 0
    ensures xs == []
  {
    assert |xs| == |multiset(xs)|;
    assert multiset(xs) == multiset{};
  }

  class Provisioner {
    var containers: map<ContainerId, Container>
    var nextId: ContainerId
    var recorded: map<ProjectId, Recorded>
    ghost var calls: map<ProjectId, seq<Call>>

    constructor ()
      ensures Valid() && containers == map[] && recorded == map[]
    {
      containers, nextId, recorded, calls := map[], 0, map[], map[];
    }

    ghost predicate Valid()
      reads this
    {
      OnePerProject(containers) && forall id | id in containers :: id < nextId
    }

    ghost function Now(): Tables
      reads this
    {
      Tables(containers, recorded, calls)
    }

    // ---- calls ----------------------------------------------------------------------------------

    method SetState(p: ProjectId, ok: bool, state: Recorded)
      requires Valid()
      modifies `recorded, `calls
      ensures Valid() && Now().See(p) == Write(old(Now().See(p)), ok, state)
      ensures forall q | q != p :: Now().See(q) == old(Now().See(q))
      ensures calls == Logged(old(calls), p, [Record(state)])
    {
      calls := calls[p := CallsOf(calls, p) + [Record(state)]];
      if ok { recorded := recorded[p := state]; }
    }

    method RemoveContainer(id: ContainerId, p: ProjectId, luck: RemoveLuck)
      requires Valid() && id in containers && containers[id].project == p
      modifies `containers, `calls
      ensures Valid() && Now().See(p) == AfterRemove(old(Now().See(p)), luck)
      ensures forall q | q != p :: Now().See(q) == old(Now().See(q))
      ensures SameElsewhere(old(containers), containers, p) && calls == Logged(old(calls), p, [Remove])
    {
      ghost var was := containers;
      calls := calls[p := CallsOf(calls, p) + [Remove]];
      ContainerIs(containers, id);
      match luck {
        case Removed => containers := containers - {id};
        case OnlyStopped => containers := containers[id := Container(p, Exited)]; ContainerIs(containers, id);
        case Untouched =>
      }
      assert SameElsewhere(was, containers, p);
      forall q | q != p ensures ContainerOf(containers, q) == ContainerOf(was, q) { ElsewhereUnchanged(was, containers, p, q); }
    }

    /** `ensureProjectReady`: the schema and the queues. */
    method EnsureReady(p: ProjectId)
      requires Valid()
      modifies `calls
      ensures Valid() && calls == Logged(old(calls), p, [MakeReady])
      ensures forall q :: Now().See(q) == old(Now().See(q))
    {
      calls := calls[p := CallsOf(calls, p) + [MakeReady]];
    }

    method CreateContainer(p: ProjectId, luck: CreateLuck)
      requires Valid() && Now().See(p).container.None?
      modifies `containers, `nextId, `calls
      ensures Valid() && Now().See(p) == AfterCreate(old(Now().See(p)), luck)
      ensures forall q | q != p :: Now().See(q) == old(Now().See(q))
      ensures SameElsewhere(old(containers), containers, p) && calls == Logged(old(calls), p, [Create])
    {
      ghost var was := containers;
      assert !Has(containers, p);
      calls := calls[p := CallsOf(calls, p) + [Create]];
      if luck != NotCreated {
        containers := containers[nextId := Container(p, if luck == Started then Running else Created)];
        ContainerIs(containers, nextId);
        nextId := nextId + 1;
      }
      assert SameElsewhere(was, containers, p);
      forall q | q != p ensures ContainerOf(containers, q) == ContainerOf(was, q) { ElsewhereUnchanged(was, containers, p, q); }
    }

    // ---- one project ----------------------------------------------------------------------------

    /** The body of the first loop; `existing` is the project's container in the list read at the start. */
    method EnsureOne(p: ProjectId, existing: Option<ContainerId>, luck: Luck) returns (verdict: Verdict)
      requires Valid() && (existing.Some? ==> existing.value in containers && containers[existing.value].project == p)
      requires existing.None? ==> !Has(containers, p)
      modifies this
      ensures Valid() && CameOut(old(Now()), Now(), p, verdict, Ensure(old(Now().See(p)), luck))
      ensures verdict == Nothing ==> containers == old(containers) && recorded == old(recorded) && calls == old(calls)
    {
      ghost var before, done: seq<Call> := calls, [];
      if existing.Some? {
        ContainerIs(containers, existing.value);
        if containers[existing.value].health == Running { return Nothing; }
        RemoveContainer(existing.value, p, luck.remove);
        done := [Remove];
        if luck.remove != Removed {
          CatchError(p, luck, before, [Remove]);
          return Errored;
        }
      }
      ghost var v := Now().See(p);
      verdict := ProvisionOne(p, luck);
      ProvisionAfter(v, luck, done);
      LoggedJoin(before, p, done, Provision(v, luck, []).calls);
    }

    /** The catch block, after the calls `done`. */
    method CatchError(p: ProjectId, luck: Luck, ghost before: map<ProjectId, seq<Call>>, ghost done: seq<Call>)
      requires Valid() && calls == Logged(before, p, done)
      modifies `recorded, `calls
      ensures Valid() && Now().See(p) == Write(old(Now().See(p)), luck.error, Failed)
      ensures forall q | q != p :: Now().See(q) == old(Now().See(q))
      ensures calls == Logged(before, p, done + [Record(Failed)])
    {
      SetState(p, luck.error, Failed);
      LoggedJoin(before, p, done, [Record(Failed)]);
    }

    lemma ProvisionAfter(v: View, luck: Luck, done: seq<Call>)
      ensures Provision(v, luck, done) == Provision(v, luck, []).(calls := done + Provision(v, luck, []).calls)
    {
    }

    /** From the `provisioning` write on: the project has no container. */
    method ProvisionOne(p: ProjectId, luck: Luck) returns (verdict: Verdict)
      requires Valid() && Now().See(p).container.None?
      modifies this
      ensures Valid() && CameOut(old(Now()), Now(), p, verdict, Provision(old(Now().See(p)), luck, []))
      ensures verdict != Nothing
    {
      verdict := Errored;
      ghost var before := calls;
      SetState(p, luck.first, Provisioning);
      ghost var done := [Record(Provisioning)];
      if luck.first {
        EnsureReady(p);
        LoggedJoin(before, p, done, [MakeReady]);
        done := [Record(Provisioning), MakeReady];
        assert done == [Record(Provisioning)] + [MakeReady];
        if luck.ready {
          verdict := CreateAndRecord(p, luck, before);
          return;
        }
      }
      assert [] + done == done;
      CatchError(p, luck, before, done);
    }

    /** The create, right after readiness, and the `running` write. */
    method CreateAndRecord(p: ProjectId, luck: Luck, ghost before: map<ProjectId, seq<Call>>) returns (verdict: Verdict)
      requires Valid() && Now().See(p).container.None? && luck.first && luck.ready
      requires calls == Logged(before, p, [Record(Provisioning), MakeReady]) && Now().See(p).recorded == Some(Provisioning)
      modifies this
      ensures var o := Provision(old(Now().See(p)), luck, []);
        && Valid() && Now().See(p) == o.view && verdict == o.verdict && calls == Logged(before, p, o.calls)
        && (forall q | q != p :: Now().See(q) == old(Now().See(q))) && SameElsewhere(old(containers), containers, p)
      ensures verdict != Nothing
    {
      ghost var done := [Record(Provisioning), MakeReady];
      CreateContainer(p, luck.create);
      LoggedJoin(before, p, done, [Create]);
      done := [Record(Provisioning), MakeReady, Create];
      assert done == [Record(Provisioning), MakeReady] + [Create];
      verdict := Errored;
      if luck.create == Started {
        SetState(p, luck.last, Up);
        LoggedJoin(before, p, done, [Record(Up)]);
        done := [Record(Provisioning), MakeReady, Create, Record(Up)];
        assert done == [Record(Provisioning), MakeReady, Create] + [Record(Up)];
        assert [] + done == done;
        if luck.last { return Provisioned; }
      }
      assert [] + done == done;
      CatchError(p, luck, before, done);
    }

    /** The body of the second loop. */
    method TearDownOne(id: ContainerId, p: ProjectId, luck: Luck) returns (verdict: Verdict)
      requires Valid() && id in containers && containers[id].project == p
      modifies this
      ensures Valid() && CameOut(old(Now()), Now(), p, verdict, TearDown(old(Now().See(p)), luck))
      ensures verdict != Nothing
    {
      ContainerIs(containers, id);
      verdict := Errored;
      ghost var before := calls;
      SetState(p, luck.first, Stopping);
      ghost var done := [Record(Stopping)];
      if luck.first {
        RemoveContainer(id, p, luck.remove);
        LoggedJoin(before, p, done, [Remove]);
        done := [Record(Stopping), Remove];
        assert done == [Record(Stopping)] + [Remove];
        if luck.remove == Removed {
          SetState(p, luck.last, Stopped);
          LoggedJoin(before, p, done, [Record(Stopped)]);
          done := [Record(Stopping), Remove, Record(Stopped)];
          assert done == [Record(Stopping), Remove] + [Record(Stopped)];
          if luck.last { return TornDown; }
        }
      }
      CatchError(p, luck, before, done);
    }

    // ---- the tick -------------------------------------------------------------------------------

    /** `orchestrator.list`: every container once, with its project. */
    method List() returns (ids: seq<ContainerId>, projects: seq<ProjectId>)
      requires Valid()
      ensures Listed(containers, ids, projects) && Distinct(projects)
    {
      ids, projects := [], [];
      var rest := containers.Keys;
      while rest != {}
        invariant rest <= containers.Keys && |ids| == |projects| && Distinct(projects)
        invariant forall k {:trigger ids[k]} {:trigger projects[k]} | 0 <= k < |ids| ::
                    ids[k] in containers && ids[k] !in rest && containers[ids[k]].project == projects[k]
        invariant forall id | id in containers :: id in rest || id in ids
      {
        var id :| id in rest;
        ids, projects := ids + [id], projects + [containers[id].project];
        rest := rest - {id};
      }
    }

    /** The Map from project to container. */
    method ByProject(ids: seq<ContainerId>, projects: seq<ProjectId>) returns (index: map<ProjectId, ContainerId>)
      requires Listed(containers, ids, projects)
      ensures Indexed(containers, index)
    {
      index := map[];
      var k := 0;
      while k < |ids|
        invariant 0 <= k <= |ids|
        invariant forall p | p in index :: index[p] in containers && containers[index[p]].project == p
        invariant forall l | 0 <= l < k :: containers[ids[l]].project in index
      {
        index := index[projects[k] := ids[k]];
        k := k + 1;
      }
    }

    method EnsureTurn(ghost b: Before, ghost ps: set<ProjectId>, res: Result, p: ProjectId, existing: Option<ContainerId>, luck: Luck)
      returns (next: Result)
      requires Valid() && Through(b, ps, res, Now()) && p !in ps && p in b.desired && luck == b.luck(p)
      requires existing.Some? ==> existing.value in b.was.containers && b.was.containers[existing.value].project == p
      requires existing.None? ==> !Has(b.was.containers, p)
      modifies this
      ensures Valid() && Through(b, ps + {p}, next, Now())
    {
      ghost var t := Now();
      assert t.See(p) == b.was.See(p) && p !in Touched(b, ps);
      if existing.None? { NoneYet(b, ps, t, p); }
      var verdict := EnsureOne(p, existing, luck);
      next := Filed(res, p, verdict);
      OneMore(b, ps, res, t, Now(), p);
    }

    method TearDownTurn(ghost b: Before, ghost ps: set<ProjectId>, res: Result, id: ContainerId, p: ProjectId, luck: Luck)
      returns (next: Result)
      requires Valid() && Through(b, ps, res, Now()) && p !in ps && p !in b.desired && luck == b.luck(p)
      requires id in b.was.containers && b.was.containers[id].project == p
      modifies this
      ensures Valid() && Through(b, ps + {p}, next, Now())
    {
      ghost var t := Now();
      assert t.See(p) == b.was.See(p) && p !in Touched(b, ps);
      var verdict := TearDownOne(id, p, luck);
      next := Filed(res, p, verdict);
      OneMore(b, ps, res, t, Now(), p);
    }

    method EnsureNext(ghost b: Before, desired: seq<ProjectId>, k: nat, index: map<ProjectId, ContainerId>, luck: ProjectId -> Luck,
                      res: Result) returns (next: Result)
      requires Valid() && k < |desired| && Through(b, Elements(desired[..k]), res, Now()) && luck == b.luck
      requires b.desired == Elements(desired) && Distinct(desired) && Indexed(b.was.containers, index)
      modifies this
      ensures Valid() && Through(b, Elements(desired[..k + 1]), next, Now())
    {
      NextElement(desired, k);
      var p := desired[k];
      next := EnsureTurn(b, Elements(desired[..k]), res, p, if p in index then Some(index[p]) else None, luck(p));
    }

    method TearDownNext(ghost b: Before, ids: seq<ContainerId>, projects: seq<ProjectId>, k: nat, desired: set<ProjectId>,
                        luck: ProjectId -> Luck, res: Result) returns (next: Result)
      requires Valid() && k < |ids| && luck == b.luck && desired == b.desired
      requires Listed(b.was.containers, ids, projects) && Distinct(projects)
      requires Through(b, b.desired + Elements(projects[..k]), res, Now())
      modifies this
      ensures Valid() && Through(b, b.desired + Elements(projects[..k + 1]), next, Now())
    {
      ghost var ps := b.desired + Elements(projects[..k]);
      NextAfter(b.desired, projects, k);
      next := TearDownMaybe(b, ps, res, ids[k], projects[k], desired, luck);
    }

    /** The first loop. */
    method EnsureAll(ghost b: Before, desired: seq<ProjectId>, index: map<ProjectId, ContainerId>, luck: ProjectId -> Luck)
      returns (res: Result)
      requires Valid() && Through(b, {}, Result([], [], []), Now()) && luck == b.luck
      requires b.desired == Elements(desired) && Distinct(desired) && Indexed(b.was.containers, index)
      modifies this
      ensures Valid() && Through(b, b.desired, res, Now())
    {
      res := Result([], [], []);
      var k := 0;
      assert Elements(desired[..0]) == {};
      while k < |desired|
        invariant 0 <= k <= |desired| && Valid() && Through(b, Elements(desired[..k]), res, Now())
      {
        res := EnsureNext(b, desired, k, index, luck, res);
        k := k + 1;
      }
      assert desired[..k] == desired;
    }

    /** The second loop, over the list read at the start. */
    method TearDownRest(ghost b: Before, ids: seq<ContainerId>, projects: seq<ProjectId>, desired: set<ProjectId>,
                        luck: ProjectId -> Luck, soFar: Result) returns (res: Result)
      requires Valid() && Through(b, b.desired, soFar, Now()) && luck == b.luck && desired == b.desired
      requires Listed(b.was.containers, ids, projects) && Distinct(projects)
      modifies this
      ensures Valid() && Through(b, b.desired + Elements(projects), res, Now())
    {
      res := soFar;
      var k := 0;
      assert b.desired + Elements(projects[..0]) == b.desired;
      while k < |ids|
        invariant 0 <= k <= |ids| && Valid() && Through(b, b.desired + Elements(projects[..k]), res, Now())
      {
        res := TearDownNext(b, ids, projects, k, desired, luck, res);
        k := k + 1;
      }
      assert projects[..k] == projects;
    }

    /** The body of the second loop: projects that should have a worker are passed over. */
    method TearDownMaybe(ghost b: Before, ghost ps: set<ProjectId>, res: Result, id: ContainerId, p: ProjectId,
                         desired: set<ProjectId>, luck: ProjectId -> Luck) returns (next: Result)
      requires Valid() && Through(b, ps, res, Now()) && desired == b.desired <= ps && luck == b.luck && (p in ps ==> p in b.desired)
      requires id in b.was.containers && b.was.containers[id].project == p
      modifies this
      ensures Valid() && Through(b, ps + {p}, next, Now())
    {
      if p in desired {
        AlreadyIn(ps, p);
        next := res;
      } else {
        next := TearDownTurn(b, ps, res, id, p, luck(p));
      }
    }

    /** Projects that neither should have a container nor have one are left alone. */
    lemma RestIsNothing(b: Before, ids: seq<ContainerId>, projects: seq<ProjectId>, p: ProjectId)
      requires Listed(b.was.containers, ids, projects) && p !in b.desired && p !in projects
      ensures b.Expect(p) == Outcome(b.was.See(p), Nothing, [])
    {
      forall id | id in b.was.containers ensures b.was.containers[id].project != p {
        assert id in ids;
      }
    }

    method BothLoops(desired: seq<ProjectId>, luck: ProjectId -> Luck) returns (res: Result, ghost b: Before, ghost ps: set<ProjectId>)
      requires Valid() && Distinct(desired)
      modifies this
      ensures b == Before(old(Now()), Elements(desired), luck)
      ensures Valid() && Through(b, ps, res, Now()) && forall p | p !in ps :: b.Expect(p) == Outcome(b.was.See(p), Nothing, [])
    {
      b := Before(Now(), Elements(desired), luck);
      var ids, projects := List();
      var index := ByProject(ids, projects);
      res := EnsureAll(b, desired, index, luck);
      res := TearDownRest(b, ids, projects, Elements(desired), luck, res);
      ps := b.desired + Elements(projects);
      forall p | p !in ps ensures b.Expect(p) == Outcome(b.was.See(p), Nothing, []) {
        RestIsNothing(b, ids, projects, p);
      }
    }

    /** One tick. Each project ends as `Tick` says of its own state and luck, with the calls `Tick` says in that order,
        whatever happens to the others; and it is in the list of its verdict, once, or in none. */
    method ReconcileOnce(desired: seq<ProjectId>, luck: ProjectId -> Luck) returns (res: Result)
      requires Valid() && Distinct(desired)
      modifies this
      ensures Valid() && Ticked(Before(old(Now()), Elements(desired), luck), Now(), res)
    {
      ghost var b, ps;
      res, b, ps := BothLoops(desired, luck);
      ThroughAll(b, ps, res, Now());
    }

    /** Two ticks, the first without a failure: exactly one running container for each desired project and none for
        others, and the second tick makes no call and changes nothing. */
    method TwoTicks(desired: seq<ProjectId>, luck: ProjectId -> Luck) returns (first: Result, second: Result)
      requires Valid() && Distinct(desired)
      modifies this
      ensures Valid() && ExactlyRunning(containers, Elements(desired)) && second == Result([], [], [])
      ensures forall p :: CallsOf(calls, p) == CallsOf(old(calls), p) + Tick(p in Elements(desired), old(Now().See(p)), GOOD).calls
    {
      var good: ProjectId -> Luck := p => GOOD;
      ghost var a := Before(Now(), Elements(desired), good);
      first := ReconcileOnce(desired, good);
      GoodTick(a, Now(), first);
      AllConverged(Now(), Elements(desired));
      ghost var b := Before(Now(), Elements(desired), luck);
      second := ReconcileOnce(desired, luck);
      IdleTick(b, Now(), second);
      forall p ensures CallsOf(calls, p) == CallsOf(old(calls), p) + Tick(p in Elements(desired), old(Now().See(p)), GOOD).calls {
        assert CallsOf(b.was.calls, p) == CallsOf(a.was.calls, p) + a.Expect(p).calls;
      }
    }
  }
}
