/**
 Whole runs of the persistent all-reduce router: ranks that see the same calls and outcomes choose
 alike, counters count exactly what was counted, and no unstarted worker is launched outside capture.
 */
module PersistentArRuns {
  import opened Options
  import opened CallsiteRoutes
  import opened PersistentAr

  /** One step of a process; communicators are named by the order in which the program uses them. */
  datatype Event =
    | Invoke(comm: nat, call: Call)
    | Prepare(comm: nat, path: string, env: Env, exists_: string -> bool, created: bool)
    | StartWorkers(start: Start)

  /** What a rank chose: only calls choose. */
  datatype Answer = Chose(choice: Choice) | Ready(ok: bool)

  /** One step on a rank whose communicator `i` is the pointer `phys(i)`. */
  function Step<C(==)>(phys: nat -> C, s: State<C>, e: Event): (State<C>, Answer) {
    match e
    case Invoke(comm, call) => var (s', choice) := Try(s, phys(comm), call); (s', Chose(choice))
    case Prepare(comm, path, env, exists_, created) => var (s', ok) := WithHandle(s, phys(comm), path, env, exists_, created); (s', Ready(ok))
    case StartWorkers(start) => var (s', ok) := StartAll(s, start); (s', Ready(ok))
  }

  function After<C(==)>(phys: nat -> C, events: seq<Event>): State<C> {
    if events == [] then Fresh() else Step(phys, After(phys, events[..|events| - 1]), events[|events| - 1]).0
  }

  /** What the rank answered at step `k`. */
  function AnswerAt<C(==)>(phys: nat -> C, events: seq<Event>, k: nat): Answer
    requires k < |events|
  {
    Step(phys, After(phys, events[..k]), events[k]).1
  }

  // ---------------------------------------------------------------- lockstep

  ghost predicate Injective<C(!new)>(phys: nat -> C) {
    forall i: nat, j: nat | phys(i) == phys(j) :: i == j
  }

  function Named(): nat -> nat {
    (i: nat) => i
  }

  function RenameKey<C>(phys: nat -> C, k: Key<nat>): Key<C> {
    Key(k.path, phys(k.comm))
  }

  function PairName<C>(phys: nat -> C): ((string, nat)) -> (string, C) {
    (p: (string, nat)) => (p.0, phys(p.1))
  }

  ghost predicate OneToOne<K(!new), L>(f: K -> L) {
    forall i, j | f(i) == f(j) :: i == j
  }

  /** A table whose keys are renamed. */
  ghost function Renamed<K(!new), L>(f: K -> L, m: map<K, nat>): (r: map<L, nat>)
    requires OneToOne(f)
  {
    map i | i in m :: f(i) := m[i]
  }

  lemma RenamedUpdate<K(!new), L>(f: K -> L, m: map<K, nat>, k: K, v: nat)
    requires OneToOne(f)
    ensures Renamed(f, m[k := v]) == Renamed(f, m)[f(k) := v]
    ensures Get(Renamed(f, m), f(k)) == Get(m, k)
  {
    var a, b := Renamed(f, m[k := v]), Renamed(f, m)[f(k) := v];
    forall x | x in a
      ensures x in b && a[x] == b[x]
    {
      var i :| i in m[k := v] && f(i) == x;
    }
    forall x | x in b
      ensures x in a
    {
      if x != f(k) {
        var i :| i in m && f(i) == x;
        assert i in m[k := v];
      } else {
        assert k in m[k := v];
      }
    }
  }

  lemma PairNameOneToOne<C(!new)>(phys: nat -> C)
    requires Injective(phys)
    ensures OneToOne(PairName(phys)) && OneToOne(phys)
  {
    forall p: (string, nat), q: (string, nat) | PairName(phys)(p) == PairName(phys)(q)
      ensures p == q
    {
      assert phys(p.1) == phys(q.1);
    }
  }

  lemma RenamedEmpty<K(!new), L>(f: K -> L, m: map<K, nat>)
    requires OneToOne(f) && m == map[]
    ensures Renamed(f, m) == map[]
  {
  }

  /** The tables with every communicator named by its pointer. */
  ghost function Image<C(!new)>(phys: nat -> C, s: State<nat>): State<C>
    requires Injective(phys)
  {
    PairNameOneToOne(phys);
    State(
      s.libraries,
      seq(|s.handles|, k requires 0 <= k < |s.handles| => RenameKey(phys, s.handles[k])),
      set k | k in s.started :: RenameKey(phys, k),
      Renamed(phys, s.sequences),
      Renamed(PairName(phys), s.occurrences))
  }

  lemma ImageOfFresh<C(!new)>(phys: nat -> C)
    requires Injective(phys)
    ensures Image(phys, Fresh()) == Fresh()
  {
    PairNameOneToOne(phys);
    var s: State<nat> := Fresh();
    RenamedEmpty(phys, s.sequences);
    RenamedEmpty(PairName(phys), s.occurrences);
    hide Renamed, PairName, OneToOne, Injective;
  }

  lemma ImageGet<C(!new)>(phys: nat -> C, s: State<nat>, i: nat, prefix: string)
    requires Injective(phys)
    ensures Get(Image(phys, s).sequences, phys(i)) == Get(s.sequences, i)
    ensures Get(Image(phys, s).occurrences, (prefix, phys(i))) == Get(s.occurrences, (prefix, i))
  {
    PairNameOneToOne(phys);
    RenamedUpdate(phys, s.sequences, i, 0);
    RenamedUpdate(PairName(phys), s.occurrences, (prefix, i), 0);
  }

  lemma ImageMembers<C(!new)>(phys: nat -> C, s: State<nat>, key: Key<nat>)
    requires Injective(phys)
    ensures RenameKey(phys, key) in Image(phys, s).handles <==> key in s.handles
    ensures RenameKey(phys, key) in Image(phys, s).started <==> key in s.started
  {
    var t := Image(phys, s);
    if key in s.handles {
      var k :| 0 <= k < |s.handles| && s.handles[k] == key;
      assert t.handles[k] == RenameKey(phys, key);
    }
    if RenameKey(phys, key) in t.handles {
      var k :| 0 <= k < |t.handles| && t.handles[k] == RenameKey(phys, key);
      assert s.handles[k] == key;
    }
  }

  lemma ImageCounted<C(!new)>(phys: nat -> C, s: State<nat>, i: nat)
    requires Injective(phys)
    ensures Image(phys, Counted(s, i)) == Counted(Image(phys, s), phys(i))
  {
    PairNameOneToOne(phys);
    RenamedUpdate(phys, s.sequences, i, Get(s.sequences, i) + 1);
    hide Renamed, Get, PairName;
  }

  lemma ImageNoted<C(!new)>(phys: nat -> C, s: State<nat>, i: nat, c: Call)
    requires Injective(phys)
    ensures Image(phys, Noted(s, i, c)) == Noted(Image(phys, s), phys(i), c)
    ensures Occurrence(Image(phys, s), phys(i), c) == Occurrence(s, i, c)
  {
    PairNameOneToOne(phys);
    RenamedUpdate(PairName(phys), s.occurrences, (c.kind.prefix, i), Get(s.occurrences, (c.kind.prefix, i)) + 1);
    hide Renamed, Get;
  }

  lemma ImageWithHandle<C(!new)>(phys: nat -> C, s: State<nat>, i: nat, path: string, env: Env, exists_: string -> bool, created: bool)
    requires Injective(phys)
    ensures WithHandle(Image(phys, s), phys(i), path, env, exists_, created)
         == (Image(phys, WithHandle(s, i, path, env, exists_, created).0), WithHandle(s, i, path, env, exists_, created).1)
  {
    ImageMembers(phys, s, Key(path, i));
    var s1 := s.(libraries := s.libraries + {path});
    assert Image(phys, s1) == Image(phys, s).(libraries := s1.libraries);
    var s2 := s1.(handles := s1.handles + [Key(path, i)]);
    assert Image(phys, s2).handles == Image(phys, s1).handles + [Key(path, phys(i))];
  }

  lemma ImageTry<C(!new)>(phys: nat -> C, s: State<nat>, i: nat, c: Call)
    requires Injective(phys)
    ensures Try(Image(phys, s), phys(i), c) == (Image(phys, Try(s, i, c).0), Try(s, i, c).1)
  {
    hide Image, WithHandle, Bypasses, RouteOf, RoutePath, Noted, Counted, Eligible, Occurrence, Get;
    ImageGet(phys, s, i, c.kind.prefix);
    ImageNoted(phys, s, i, c);
    ImageCounted(phys, Noted(s, i, c), i);
    var path := LaunchPath(s, i, c);
    ImageWithHandle(phys, Noted(s, i, c), i, path, c.env, c.exists_, c.created);
    var s1 := WithHandle(Noted(s, i, c), i, path, c.env, c.exists_, c.created).0;
    ImageMembers(phys, s1, Key(path, i));
    ImageCounted(phys, s1, i);
  }

  lemma {:induction false} ImageStartFrom<C(!new)>(phys: nat -> C, s: State<nat>, st: Start, k: nat)
    requires Injective(phys) && k <= |s.handles|
    ensures StartFrom(Image(phys, s), st, k) == (Image(phys, StartFrom(s, st, k).0), StartFrom(s, st, k).1)
    decreases |s.handles| - k
  {
    if k < |s.handles| {
      var key := s.handles[k];
      ImageMembers(phys, s, key);
      ImageStartFrom(phys, s, st, k + 1);
      var s1 := s.(started := s.started + {key});
      assert Image(phys, s1).started == Image(phys, s).started + {RenameKey(phys, key)};
      assert Image(phys, s1) == Image(phys, s).(started := Image(phys, s1).started);
      ImageStartFrom(phys, s1, st, k + 1);
    }
  }

  lemma ImageStep<C(!new)>(phys: nat -> C, s: State<nat>, e: Event)
    requires Injective(phys)
    ensures Step(phys, Image(phys, s), e) == (Image(phys, Step(Named(), s, e).0), Step(Named(), s, e).1)
  {
    match e
    case Invoke(comm, call) =>
      ImageTry(phys, s, comm, call);
    case Prepare(comm, path, env, exists_, created) =>
      ImageWithHandle(phys, s, comm, path, env, exists_, created);
    case StartWorkers(start) =>
      if start.enabled && start.deferWorker {
        ImageStartFrom(phys, s, start, 0);
      }
  }

  lemma {:induction false} ImageRun<C(!new)>(phys: nat -> C, events: seq<Event>)
    requires Injective(phys)
    ensures After(phys, events) == Image(phys, After(Named(), events))
  {
    if events == [] {
      ImageOfFresh(phys);
    } else {
      ImageRun(phys, events[..|events| - 1]);
      ImageStep(phys, After(Named(), events[..|events| - 1]), events[|events| - 1]);
    }
  }

  /**
   Two ranks, each with its own device and communicator pointers, that see the same calls, the same
   environment and the same create, start and launch outcomes answer alike at every step.
   */
  lemma Lockstep<C(!new), D(!new)>(mine: nat -> C, theirs: nat -> D, events: seq<Event>, k: nat)
    requires Injective(mine) && Injective(theirs) && k < |events|
    ensures AnswerAt(mine, events, k) == AnswerAt(theirs, events, k)
  {
    ImageRun(mine, events[..k]);
    ImageRun(theirs, events[..k]);
    ImageStep(mine, After(Named(), events[..k]), events[k]);
    ImageStep(theirs, After(Named(), events[..k]), events[k]);
  }

  // ---------------------------------------------------------------- counting

  /** Launches and bypasses among the calls on one communicator. */
  function Routed(events: seq<Event>, comm: nat): nat {
    if events == [] then 0
    else
      var k := |events| - 1;
      var a := AnswerAt(Named(), events, k);
      Routed(events[..k], comm)
      + (if events[k].Invoke? && events[k].comm == comm && (a == Chose(Sidecar) || a == Chose(Bypassed)) then 1 else 0)
  }

  /** Calls on one communicator that carry a prefix and get past the guards, whatever became of them. */
  function Seen(events: seq<Event>, comm: nat, prefix: string): nat {
    if events == [] then 0
    else
      var k := |events| - 1;
      Seen(events[..k], comm, prefix)
      + (if events[k].Invoke? && events[k].comm == comm && events[k].call.kind.prefix == prefix && Reaches(events[k].call) then 1 else 0)
  }

  lemma TryCounts(s: State<nat>, i: nat, c: Call, comm: nat, prefix: string)
    requires prefix != ""
    ensures Get(Try(s, i, c).0.sequences, comm)
         == Get(s.sequences, comm) + (if i == comm && (Try(s, i, c).1.Sidecar? || Try(s, i, c).1.Bypassed?) then 1 else 0)
    ensures Get(Try(s, i, c).0.occurrences, (prefix, comm))
         == Get(s.occurrences, (prefix, comm)) + (if i == comm && c.kind.prefix == prefix && Reaches(c) then 1 else 0)
  {
    hide Bypasses, RouteOf, RoutePath, WithHandle, Eligible, Get;
    var path := LaunchPath(s, i, c);
    NotedCounts(s, i, c, comm, prefix);
    CountedCounts(Noted(s, i, c), i, comm, prefix);
    WithHandleCounts(Noted(s, i, c), i, path, c.env, c.exists_, c.created);
    CountedCounts(WithHandle(Noted(s, i, c), i, path, c.env, c.exists_, c.created).0, i, comm, prefix);
    hide Noted, Counted;
  }

  lemma NotedCounts(s: State<nat>, i: nat, c: Call, comm: nat, prefix: string)
    requires prefix != ""
    ensures Noted(s, i, c).sequences == s.sequences
    ensures Get(Noted(s, i, c).occurrences, (prefix, comm))
         == Get(s.occurrences, (prefix, comm)) + (if i == comm && c.kind.prefix == prefix then 1 else 0)
  {
  }

  lemma CountedCounts(s: State<nat>, i: nat, comm: nat, prefix: string)
    ensures Counted(s, i).occurrences == s.occurrences
    ensures Get(Counted(s, i).sequences, comm) == Get(s.sequences, comm) + (if i == comm then 1 else 0)
  {
  }

  lemma WithHandleCounts(s: State<nat>, i: nat, path: string, env: Env, exists_: string -> bool, created: bool)
    ensures WithHandle(s, i, path, env, exists_, created).0.sequences == s.sequences
    ensures WithHandle(s, i, path, env, exists_, created).0.occurrences == s.occurrences
  {
  }

  lemma {:induction false} StartKeepsCounts<C>(s: State<C>, st: Start, k: nat)
    requires k <= |s.handles|
    ensures StartFrom(s, st, k).0 == s.(started := StartFrom(s, st, k).0.started)
    ensures s.started <= StartFrom(s, st, k).0.started
    ensures forall key | key in StartFrom(s, st, k).0.started && key !in s.started ::
              exists h | k <= h < |s.handles| :: s.handles[h] == key && st.exports(h) && st.starts(h)
    decreases |s.handles| - k
  {
    if k < |s.handles| {
      StartKeepsCounts(s, st, k + 1);
      StartKeepsCounts(s.(started := s.started + {s.handles[k]}), st, k + 1);
    }
  }

  /**
   A communicator's running number is the number of its launches and bypasses so far, and a prefix's
   occurrence number the number of its calls past the guards, bypassed or not, launched or not.
   */
  lemma {:induction false} CountersCount(events: seq<Event>, comm: nat, prefix: string)
    requires prefix != ""
    ensures Get(After(Named(), events).sequences, comm) == Routed(events, comm)
    ensures Get(After(Named(), events).occurrences, (prefix, comm)) == Seen(events, comm, prefix)
  {
    if events != [] {
      var k := |events| - 1;
      CountersCount(events[..k], comm, prefix);
      var s := After(Named(), events[..k]);
      match events[k]
      case Invoke(i, call) =>
        hide Try, Reaches;
        TryCounts(s, i, call, comm, prefix);
      case Prepare(_, _, _, _, _) =>
      case StartWorkers(start) =>
        if start.enabled && start.deferWorker {
          StartKeepsCounts(s, start, 0);
        }
    }
  }

  // ---------------------------------------------------------------- handles

  /** No key twice. */
  ghost predicate Distinct<C(!new)>(handles: seq<Key<C>>) {
    forall i, j | 0 <= i < j < |handles| :: handles[i] != handles[j]
  }

  /** A step only adds handles, and never one that is there. */
  lemma StepHandles<C(!new)>(phys: nat -> C, s: State<C>, e: Event)
    ensures s.handles <= Step(phys, s, e).0.handles
    ensures Distinct(s.handles) ==> Distinct(Step(phys, s, e).0.handles)
  {
    hide Bypasses, RouteOf, RoutePath, Eligible, Get;
    match e
    case Invoke(comm, call) =>
    case Prepare(_, _, _, _, _) =>
    case StartWorkers(start) =>
      if start.enabled && start.deferWorker {
        StartKeepsCounts(s, start, 0);
      }
  }

  /** Step `k` made the handle for `key`. */
  ghost predicate Makes<C>(phys: nat -> C, events: seq<Event>, k: nat, key: Key<C>)
    requires k < |events|
  {
    key !in After(phys, events[..k]).handles && key in After(phys, events[..k + 1]).handles
  }

  /** Handles are never dropped. */
  lemma {:induction false} HandlesGrow<C(!new)>(phys: nat -> C, events: seq<Event>, k: nat)
    requires k <= |events|
    ensures After(phys, events[..k]).handles <= After(phys, events).handles
    decreases |events|
  {
    if k == |events| {
      assert events[..k] == events;
    } else {
      var n := |events| - 1;
      HandlesGrow(phys, events[..n], k);
      assert events[..n][..k] == events[..k];
      StepHandles(phys, After(phys, events[..n]), events[n]);
    }
  }

  /** In any run a handle is made at most once for a library and a communicator. */
  lemma {:induction false} HandlesMadeOnce<C(!new)>(phys: nat -> C, events: seq<Event>)
    ensures Distinct(After(phys, events).handles)
    ensures forall j, k, key | 0 <= j < |events| && 0 <= k < |events| && Makes(phys, events, j, key) && Makes(phys, events, k, key) :: j == k
  {
    if events != [] {
      var n := |events| - 1;
      HandlesMadeOnce(phys, events[..n]);
      StepHandles(phys, After(phys, events[..n]), events[n]);
    }
    forall j, k, key | 0 <= j < |events| && 0 <= k < |events| && Makes(phys, events, j, key) && Makes(phys, events, k, key)
      ensures j == k
    {
      if j < k {
        MadeStays(phys, events, j, k, key);
      } else if k < j {
        MadeStays(phys, events, k, j, key);
      }
    }
  }

  lemma MadeStays<C(!new)>(phys: nat -> C, events: seq<Event>, j: nat, k: nat, key: Key<C>)
    requires j < k < |events| && Makes(phys, events, j, key)
    ensures key in After(phys, events[..k]).handles
  {
    HandlesGrow(phys, events[..k], j + 1);
    assert events[..k][..j + 1] == events[..j + 1];
  }

  // ---------------------------------------------------------------- settings without effect

  const NO_BYPASS := Bypass(None, Numels(None, UNSET), {}, {}, UNSET, {}, UNSET, NO_RESIDUE)
  const NO_SITE_ROUTE := SiteRoute("", None, Numels(None, UNSET), None, UNSET, NO_RESIDUE)

  /** Nothing but ranges of call numbers is configured. */
  predicate SiteRangesOnly(env: Env) {
    && RangesOnly(env.bypass, env.siteRoute)
    && !env.bypass.numels.Configured() && !env.siteRoute.numels.Configured()
  }

  /** The same call with no bypass and no call-site route configured. */
  function Cleared(e: Event): Event {
    match e
    case Invoke(comm, call) => Invoke(comm, call.(env := call.env.(bypass := NO_BYPASS, siteRoute := NO_SITE_ROUTE)))
    case _ => e
  }

  function AllCleared(events: seq<Event>): (cleared: seq<Event>)
    ensures |cleared| == |events| && forall k | 0 <= k < |events| :: cleared[k] == Cleared(events[k])
  {
    seq(|events|, k requires 0 <= k < |events| => Cleared(events[k]))
  }

  lemma NothingPicked(env: Env, kind: Kind, site: nat, numel: nat, occurrence: Option<nat>)
    requires SiteRangesOnly(env)
    ensures !Bypasses(env.bypass, kind, site, numel, occurrence)
    ensures RouteOf(env.siteRoute, kind, site, numel) == kind.route
  {
    RangeNeedsSizes(env.bypass, env.siteRoute, kind, site, numel, occurrence);
  }

  lemma TryCleared<C(!new)>(s: State<C>, comm: C, c: Call, d: Call)
    requires SiteRangesOnly(c.env) && d == c.(env := c.env.(bypass := NO_BYPASS, siteRoute := NO_SITE_ROUTE))
    ensures Try(s, comm, c) == Try(s, comm, d)
  {
    hide Bypasses, RouteOf, RoutePath, WithHandle, Get, SupportedNumel, RangesOnly;
    var site := Get(s.sequences, comm);
    NothingPicked(c.env, c.kind, site, c.numel, Occurrence(s, comm, c));
    NothingConfigured(d.env.bypass, d.env.siteRoute, d.kind, site, d.numel, Occurrence(s, comm, d));
    PathCleared(c.env, d.env, c.kind.route);
    ClearedHandle(Noted(s, comm, c), comm, LaunchPath(s, comm, c), c.env, d.env, c.exists_, c.created);
    hide Noted, Counted, Occurrence, SiteRangesOnly;
  }

  lemma PathCleared(a: Env, b: Env, route: string)
    requires a.routeLibraries == b.routeLibraries && a.library == b.library
    ensures RoutePath(a, route) == RoutePath(b, route)
  {
  }

  lemma ClearedHandle<C>(s: State<C>, comm: C, path: string, a: Env, b: Env, exists_: string -> bool, created: bool)
    ensures WithHandle(s, comm, path, a, exists_, created) == WithHandle(s, comm, path, b, exists_, created)
  {
  }

  lemma StepCleared<C(!new)>(phys: nat -> C, s: State<C>, e: Event)
    requires e.Invoke? ==> SiteRangesOnly(e.call.env)
    ensures Step(phys, s, e) == Step(phys, s, Cleared(e))
  {
    hide Try, SiteRangesOnly;
    if e.Invoke? {
      TryCleared(s, phys(e.comm), e.call, Cleared(e).call);
    }
  }

  /** Ranges of call numbers alone change nothing: every run goes as with nothing configured. */
  lemma {:induction false} RangesAloneDoNothing<C(!new)>(phys: nat -> C, events: seq<Event>)
    requires forall k | 0 <= k < |events| && events[k].Invoke? :: SiteRangesOnly(events[k].call.env)
    ensures After(phys, events) == After(phys, AllCleared(events))
    ensures forall k: nat | k < |events| :: AnswerAt(phys, events, k) == AnswerAt(phys, AllCleared(events), k)
  {
    hide SiteRangesOnly, Cleared, Step;
    if events != [] {
      var n := |events| - 1;
      var cleared := AllCleared(events);
      RangesAloneDoNothing(phys, events[..n]);
      assert cleared[..n] == AllCleared(events[..n]);
      StepCleared(phys, After(phys, events[..n]), events[n]);
      forall k: nat | k < n
        ensures AnswerAt(phys, events, k) == AnswerAt(phys, cleared, k)
      {
        EarlierAnswer(phys, events, n, k);
        EarlierAnswer(phys, cleared, n, k);
      }
    }
  }

  lemma EarlierAnswer<C(!new)>(phys: nat -> C, events: seq<Event>, n: nat, k: nat)
    requires k < n <= |events|
    ensures AnswerAt(phys, events[..n], k) == AnswerAt(phys, events, k)
  {
    assert events[..n][..k] == events[..k];
  }

  // ---------------------------------------------------------------- which calls are launched

  /** A call on another number of ranks falls back and leaves every table alone, whatever ran before. */
  lemma OtherWorldsUntouched<C(!new)>(phys: nat -> C, events: seq<Event>, k: nat)
    requires k < |events| && events[k].Invoke? && events[k].call.worldSize != 8
    ensures AnswerAt(phys, events, k) == Chose(Fallback)
    ensures After(phys, events[..k + 1]) == After(phys, events[..k])
  {
    assert events[..k + 1][..k] == events[..k];
    TryAnswers(After(phys, events[..k]), phys(events[k].comm), events[k].call);
    hide Try, Guarded;
    NotGuarded(After(phys, events[..k]), phys(events[k].comm), events[k].call);
  }

  lemma NotGuarded<C>(s: State<C>, comm: C, c: Call)
    requires c.worldSize != 8
    ensures !Guarded(c) && Try(s, comm, c) == (s, Fallback)
  {
  }

  /** An fp16 call of 5120 elements on eight ranks with nothing configured but the router and its library. */
  predicate IsPlainCall(c: Call) {
    && c.worldSize == 8 && c.half && c.cuda && c.contiguous && c.numel == 5120 && !c.nullComm
    && c.env.enabled && !c.env.captureOnly && !c.env.deferWorker && c.env.library != "" && c.env.routeLibraries == map[]
    && c.env.bypass.kind.None? && c.env.bypass.numels == Numels(None, Range(-1, -1)) && c.env.bypass.prefixes == {}
    && c.env.bypass.sites == {} && c.env.bypass.siteRange == Range(-1, -1) && c.env.bypass.residue.mod == 0
    && c.env.siteRoute.library == ""
  }

  /** In any run such a call is a launch if its library is there, its handle is created and the launch succeeds. */
  lemma PlainCallsLaunch<C(!new)>(phys: nat -> C, events: seq<Event>, k: nat)
    requires k < |events| && events[k].Invoke? && IsPlainCall(events[k].call)
    requires events[k].call.exists_(events[k].call.env.library) && events[k].call.created && events[k].call.launched
    ensures AnswerAt(phys, events, k) == Chose(Sidecar)
  {
    var s, comm, c := After(phys, events[..k]), phys(events[k].comm), events[k].call;
    TryAnswers(s, comm, c);
    RangeNeedsSizes(c.env.bypass, c.env.siteRoute, c.kind, if comm in s.sequences then s.sequences[comm] else 0, c.numel,
                    if c.kind.prefix == "" then None
                    else if (c.kind.prefix, comm) in s.occurrences then Some(s.occurrences[(c.kind.prefix, comm)]) else Some(0));
    hide Try, Bypasses, RoutesToSite;
    assert !Bypassing(s, comm, c) && Library(s, comm, c) == c.env.library;
  }

  /** The calls a list of running numbers picks, with nothing else configured for the bypass. */
  predicate ListsOnly(c: Call) {
    && c.env.bypass.kind.None? && c.env.bypass.numels == Numels(None, Range(-1, -1)) && c.env.bypass.prefixes == {}
    && c.env.bypass.sites != {}
  }

  /**
   With a list of running numbers, a live call on a communicator is bypassed exactly when the number of
   its launches and bypasses so far is on the list.
   */
  lemma ListedCallsBypassed(events: seq<Event>, k: nat)
    requires k < |events| && events[k].Invoke? && ListsOnly(events[k].call) && Live(events[k].call)
    ensures AnswerAt(Named(), events, k) == Chose(Bypassed)
       <==> Routed(events[..k], events[k].comm) in events[k].call.env.bypass.sites
  {
    var s, comm, c := After(Named(), events[..k]), events[k].comm, events[k].call;
    TryAnswers(s, comm, c);
    CountersCount(events[..k], comm, "x");
    ListedSites(c.env.bypass, c.kind, Routed(events[..k], comm), c.numel,
                if c.kind.prefix == "" then None
                else if (c.kind.prefix, comm) in s.occurrences then Some(s.occurrences[(c.kind.prefix, comm)]) else Some(0));
    hide Try, Bypasses, Live;
  }

  // ---------------------------------------------------------------- deferred workers

  /** The handles from `k` on whose library is loaded and whose worker can be started. */
  function Startable<C(==)>(s: State<C>, st: Start, k: nat): set<Key<C>>
    requires k <= |s.handles|
  {
    set h | k <= h < |s.handles| && s.handles[h].path in s.libraries && st.exports(h) && st.starts(h) :: s.handles[h]
  }

  lemma StartableStep<C>(s: State<C>, st: Start, k: nat)
    requires k < |s.handles|
    ensures Startable(s, st, k) == Startable(s, st, k + 1)
         + (if s.handles[k].path in s.libraries && st.exports(k) && st.starts(k) then {s.handles[k]} else {})
  {
  }

  lemma SameStartable<C>(s: State<C>, t: State<C>, st: Start, k: nat)
    requires k <= |s.handles| && t.handles == s.handles && t.libraries == s.libraries
    ensures Startable(t, st, k) == Startable(s, st, k)
  {
  }

  /** A request that does not fail starts exactly those; a lenient one never fails. */
  lemma {:induction false} StartsExactly<C(!new)>(s: State<C>, st: Start, k: nat)
    requires k <= |s.handles|
    ensures StartFrom(s, st, k).1 ==> StartFrom(s, st, k).0.started == s.started + Startable(s, st, k)
    ensures !st.strict ==> StartFrom(s, st, k).1
    decreases |s.handles| - k
  {
    if k < |s.handles| {
      var t := s.(started := s.started + {s.handles[k]});
      StartsExactly(s, st, k + 1);
      StartsExactly(t, st, k + 1);
      SameStartable(s, t, st, k + 1);
      StartableStep(s, st, k);
      hide Startable;
    }
  }

  /** Step `e` started the worker behind `key`. */
  ghost predicate Starts(events: seq<Event>, e: nat, key: Key<nat>) {
    && e < |events| && events[e].StartWorkers? && events[e].start.enabled && events[e].start.deferWorker
    && var s := After(Named(), events[..e]);
       exists h | 0 <= h < |s.handles| :: s.handles[h] == key && events[e].start.exports(h) && events[e].start.starts(h)
  }

  lemma TryKeepsStarted(s: State<nat>, i: nat, c: Call)
    ensures Try(s, i, c).0.started == s.started
  {
    hide Bypasses, RouteOf, RoutePath;
  }

  /** Only a successful start marks a worker as started. */
  lemma {:induction false} StartedByAStart(events: seq<Event>, key: Key<nat>) returns (e: nat)
    requires key in After(Named(), events).started
    ensures Starts(events, e, key)
  {
    var k := |events| - 1;
    var s := After(Named(), events[..k]);
    if key in s.started {
      e := StartedByAStart(events[..k], key);
      assert events[..k][..e] == events[..e];
    } else {
      match events[k]
      case Invoke(i, call) =>
        TryKeepsStarted(s, i, call);
      case Prepare(_, _, _, _, _) =>
      case StartWorkers(start) =>
        if start.enabled && start.deferWorker {
          StartKeepsCounts(s, start, 0);
        }
        e := k;
    }
  }

  /** With deferral on, a launch outside capture uses a handle whose worker an earlier step started. */
  lemma NoUnstartedLaunch(events: seq<Event>, k: nat) returns (e: nat)
    requires k < |events| && events[k].Invoke?
    requires events[k].call.env.deferWorker && !events[k].call.env.inCapture
    requires AnswerAt(Named(), events, k) == Chose(Sidecar)
    ensures e < k && Starts(events, e, Key(LaunchPath(After(Named(), events[..k]), events[k].comm, events[k].call), events[k].comm))
  {
    var s := After(Named(), events[..k]);
    var i, c := events[k].comm, events[k].call;
    LaunchIsStarted(s, i, c);
    e := StartedByAStart(events[..k], Key(LaunchPath(s, i, c), i));
    assert events[..k][..e] == events[..e];
  }

  lemma LaunchIsStarted(s: State<nat>, i: nat, c: Call)
    requires Try(s, i, c).1.Sidecar? && c.env.deferWorker && !c.env.inCapture
    ensures Key(LaunchPath(s, i, c), i) in s.started
  {
    hide Bypasses, RouteOf, RoutePath;
  }
}
