/**
 The persistent all-reduce router of one process: which calls go to the sidecar runtime, which are
 bypassed, and which fall back to the public all-reduce.
 */
module PersistentAr {
  import opened Options
  import opened CallsiteRoutes

  /** What the environment says when a call is made. */
  datatype Env = Env(
    enabled: bool,
    strict: bool,
    multirow: bool,
    captureOnly: bool,
    inCapture: bool,
    deferWorker: bool,
    library: string,
    routeLibraries: map<string, string>,
    bypass: Bypass,
    siteRoute: SiteRoute)

  /** One all-reduce call, and how the outside world answers it. */
  datatype Call = Call(
    env: Env,
    kind: Kind,
    half: bool,
    cuda: bool,
    contiguous: bool,
    numel: nat,
    worldSize: nat,
    nullComm: bool,
    exists_: string -> bool,   // the library file is there
    created: bool,             // creating a handle succeeds
    launched: bool)            // the launch returns zero

  datatype Choice = Fallback | Bypassed | Sidecar | Raised

  datatype Key<C> = Key(path: string, comm: C)

  /** The module's tables; communicators are named by `C`. */
  datatype State<C> = State(
    libraries: set<string>,
    handles: seq<Key<C>>,                // in the order they were created
    started: set<Key<C>>,
    sequences: map<C, nat>,
    occurrences: map<(string, C), nat>)

  function Fresh<C>(): State<C> {
    State({}, [], {}, map[], map[])
  }

  function Get<K(==)>(m: map<K, nat>, k: K): nat {
    if k in m then m[k] else 0
  }

  predicate SupportedNumel(multirow: bool, numel: nat) {
    numel == 5120 || (multirow && (numel == 10240 || numel == 20480 || numel == 40960))
  }

  function RoutePath(env: Env, route: string): string {
    if route != "default" && route in env.routeLibraries && env.routeLibraries[route] != "" then env.routeLibraries[route]
    else env.library
  }

  /** The guards that come before any table is touched. */
  predicate Eligible(c: Call) {
    c.env.enabled && c.half && c.cuda && c.contiguous && SupportedNumel(c.env.multirow, c.numel) && c.worldSize == 8
  }

  /** The call is counted: it has a communicator and is not held back until capture. */
  predicate Reaches(c: Call) {
    Eligible(c) && !c.nullComm && !(c.env.captureOnly && !c.env.inCapture)
  }

  function Fail(env: Env): Choice {
    if env.strict then Raised else Fallback
  }

  function Occurrence<C(==)>(s: State<C>, comm: C, c: Call): Option<nat> {
    if c.kind.prefix == "" then None else Some(Get(s.occurrences, (c.kind.prefix, comm)))
  }

  /** The prefix count moves on before the call is routed anywhere. */
  function Noted<C(==)>(s: State<C>, comm: C, c: Call): State<C> {
    if c.kind.prefix == "" then s
    else s.(occurrences := s.occurrences[(c.kind.prefix, comm) := Get(s.occurrences, (c.kind.prefix, comm)) + 1])
  }

  function Counted<C(==)>(s: State<C>, comm: C): State<C> {
    s.(sequences := s.sequences[comm := Get(s.sequences, comm) + 1])
  }

  function LaunchPath<C(==)>(s: State<C>, comm: C, c: Call): string {
    RoutePath(c.env, RouteOf(c.env.siteRoute, c.kind, Get(s.sequences, comm), c.numel))
  }

  /** `_get_handle_for_device`: loads the library and creates the handle, each at most once. */
  function WithHandle<C(==)>(s: State<C>, comm: C, path: string, env: Env, exists_: string -> bool, created: bool): (State<C>, bool) {
    if path == "" then (s, false)
    else if path !in s.libraries && !exists_(path) then (s, false)
    else
      var s1 := s.(libraries := s.libraries + {path});
      if Key(path, comm) in s1.handles then (s1, true)
      else if !created then (s1, false)
      else (s1.(handles := s1.handles + [Key(path, comm)]), true)
  }

  /** `try_all_reduce_inplace` */
  function Try<C(==)>(s: State<C>, comm: C, c: Call): (State<C>, Choice) {
    if !Eligible(c) then (s, Fallback)
    else if c.nullComm then (s, Fail(c.env))
    else if !Reaches(c) then (s, Fallback)
    else if Bypasses(c.env.bypass, c.kind, Get(s.sequences, comm), c.numel, Occurrence(s, comm, c)) then
      (Counted(Noted(s, comm, c), comm), Bypassed)
    else
      var path := LaunchPath(s, comm, c);
      var (s1, ok) := WithHandle(Noted(s, comm, c), comm, path, c.env, c.exists_, c.created);
      if !ok then (s1, Fail(c.env))
      else if c.env.deferWorker && Key(path, comm) !in s1.started && !c.env.inCapture then (s1, Fallback)
      else if !c.launched then (s1, Fail(c.env))
      else (Counted(s1, comm), Sidecar)
  }

  // ---------------------------------------------------------------- what a call is answered

  /** The call passes every guard: an eight-rank fp16 CUDA tensor of a supported size. */
  predicate Guarded(c: Call) {
    && c.env.enabled && c.half && c.cuda && c.contiguous && c.worldSize == 8
    && (c.numel == 5120 || (c.env.multirow && (c.numel == 2 * 5120 || c.numel == 4 * 5120 || c.numel == 8 * 5120)))
  }

  /** ... and is counted: it has a communicator, and is captured if only captured calls count. */
  predicate Live(c: Call) {
    Guarded(c) && !c.nullComm && (c.env.captureOnly ==> c.env.inCapture)
  }

  /** The bypass setting picks the call, by its running number and its prefix's occurrence number. */
  ghost predicate Bypassing<C>(s: State<C>, comm: C, c: Call) {
    Bypasses(c.env.bypass, c.kind, if comm in s.sequences then s.sequences[comm] else 0, c.numel,
             if c.kind.prefix == "" then None
             else if (c.kind.prefix, comm) in s.occurrences then Some(s.occurrences[(c.kind.prefix, comm)]) else Some(0))
  }

  /** The library the call is launched with: its route's own, or the default one. */
  function Library<C(==)>(s: State<C>, comm: C, c: Call): string {
    var site := if comm in s.sequences then s.sequences[comm] else 0;
    var route := if c.env.siteRoute.library != "" && RoutesToSite(c.env.siteRoute, c.kind, site, c.numel) then "callsite"
      else c.kind.route;
    if route != "default" && route in c.env.routeLibraries && c.env.routeLibraries[route] != "" then c.env.routeLibraries[route]
    else c.env.library
  }

  /** A handle can be had: the library is loaded or there to load, and the handle exists or is created. */
  predicate Handled<C(==)>(s: State<C>, comm: C, c: Call) {
    var path := Library(s, comm, c);
    path != "" && (path in s.libraries || c.exists_(path)) && (Key(path, comm) in s.handles || c.created)
  }

  /** The worker is deferred, not started, and the call is not captured. */
  predicate Held<C(==)>(s: State<C>, comm: C, c: Call, path: string) {
    c.env.deferWorker && Key(path, comm) !in s.started && !c.env.inCapture
  }

  /** Exactly when a call is bypassed, launched, refused with an error, or left to the public all-reduce. */
  ghost predicate AnswersRight<C>(s: State<C>, comm: C, c: Call, choice: Choice) {
    && (choice.Bypassed? <==> Live(c) && Bypassing(s, comm, c))
    && (choice.Sidecar? <==> Live(c) && !Bypassing(s, comm, c) && Handled(s, comm, c) && !Held(s, comm, c, Library(s, comm, c)) && c.launched)
    && (choice.Raised? <==>
          && c.env.strict && Guarded(c)
          && (c.nullComm || (Live(c) && !Bypassing(s, comm, c) && (!Handled(s, comm, c) || (!Held(s, comm, c, Library(s, comm, c)) && !c.launched)))))
    && (choice.Fallback? <==>
          || !Guarded(c)
          || (c.nullComm && !c.env.strict)
          || (!c.nullComm && c.env.captureOnly && !c.env.inCapture)
          || (Live(c) && !Bypassing(s, comm, c) && Handled(s, comm, c) && Held(s, comm, c, Library(s, comm, c)))
          || (Live(c) && !Bypassing(s, comm, c) && !c.env.strict && (!Handled(s, comm, c) || (!Held(s, comm, c, Library(s, comm, c)) && !c.launched))))
  }

  /** What a call does to the counters: a running number for what was launched or bypassed, an occurrence for what is live. */
  ghost predicate CountsRight<C>(s: State<C>, comm: C, c: Call, choice: Choice, t: State<C>) {
    && t.started == s.started
    && t.sequences == (if choice.Bypassed? || choice.Sidecar?
                       then s.sequences[comm := if comm in s.sequences then s.sequences[comm] + 1 else 1] else s.sequences)
    && t.occurrences == (if !Live(c) || c.kind.prefix == "" then s.occurrences
                         else if (c.kind.prefix, comm) in s.occurrences
                         then s.occurrences[(c.kind.prefix, comm) := s.occurrences[(c.kind.prefix, comm)] + 1]
                         else s.occurrences[(c.kind.prefix, comm) := 1])
  }

  /** ... and to the libraries and handles: what finding its handle loads and creates. */
  ghost predicate LoadsRight<C>(s: State<C>, comm: C, c: Call, t: State<C>) {
    var path := Library(s, comm, c);
    var asks := Live(c) && !Bypassing(s, comm, c);
    && t.libraries == (if asks && path != "" && (path in s.libraries || c.exists_(path)) then s.libraries + {path} else s.libraries)
    && t.handles == (if asks && Handled(s, comm, c) && Key(path, comm) !in s.handles then s.handles + [Key(path, comm)] else s.handles)
  }

  /** The router's steps, with each decision named. */
  lemma TrySteps<C>(s: State<C>, comm: C, c: Call)
    ensures var path := Library(s, comm, c);
            var (t, ok) := WithHandle(Noted(s, comm, c), comm, path, c.env, c.exists_, c.created);
            Try(s, comm, c) ==
              if !Guarded(c) then (s, Fallback)
              else if c.nullComm then (s, Fail(c.env))
              else if !Live(c) then (s, Fallback)
              else if Bypassing(s, comm, c) then (Counted(Noted(s, comm, c), comm), Bypassed)
              else if !ok then (t, Fail(c.env))
              else if Held(t, comm, c, path) then (t, Fallback)
              else if !c.launched then (t, Fail(c.env))
              else (Counted(t, comm), Sidecar)
  {
    hide Bypasses, RouteOf, RoutesToSite, Library, LaunchPath, WithHandle, Noted, Counted, Guarded, Eligible, Get;
    GuardsAre(c);
    PathIs(s, comm, c);
    BypassingIs(s, comm, c);
  }

  lemma TryAnswers<C>(s: State<C>, comm: C, c: Call)
    ensures AnswersRight(s, comm, c, Try(s, comm, c).1)
  {
    hide Library, WithHandle, Guarded, Bypassing, Try, Noted, Counted;
    TrySteps(s, comm, c);
    NotedKeeps(s, comm, c);
    HandleIs(Noted(s, comm, c), comm, Library(s, comm, c), c);
  }

  lemma TryMovesCounters<C>(s: State<C>, comm: C, c: Call)
    ensures CountsRight(s, comm, c, Try(s, comm, c).1, Try(s, comm, c).0)
  {
    hide Library, WithHandle, Guarded, Bypassing, Try, Held;
    TrySteps(s, comm, c);
    HandleCounts(Noted(s, comm, c), comm, Library(s, comm, c), c);
  }

  lemma TryMovesHandles<C>(s: State<C>, comm: C, c: Call)
    ensures LoadsRight(s, comm, c, Try(s, comm, c).0)
  {
    hide Library, WithHandle, Guarded, Bypassing, Try, Held, Noted, Counted;
    TrySteps(s, comm, c);
    NotedKeeps(s, comm, c);
    CountedKeeps(Noted(s, comm, c), comm);
    HandleIs(Noted(s, comm, c), comm, Library(s, comm, c), c);
    CountedKeeps(WithHandle(Noted(s, comm, c), comm, Library(s, comm, c), c.env, c.exists_, c.created).0, comm);
  }

  lemma CountedKeeps<C>(s: State<C>, comm: C)
    ensures Counted(s, comm).libraries == s.libraries && Counted(s, comm).handles == s.handles
  {
  }

  lemma HandleCounts<C>(s: State<C>, comm: C, path: string, c: Call)
    ensures var t := WithHandle(s, comm, path, c.env, c.exists_, c.created).0;
            t.sequences == s.sequences && t.occurrences == s.occurrences && t.started == s.started
  {
  }

  lemma NotedKeeps<C>(s: State<C>, comm: C, c: Call)
    ensures Noted(s, comm, c).libraries == s.libraries && Noted(s, comm, c).handles == s.handles
    ensures Noted(s, comm, c).started == s.started
  {
  }

  lemma GuardsAre(c: Call)
    ensures Eligible(c) <==> Guarded(c)
  {
  }

  lemma PathIs<C>(s: State<C>, comm: C, c: Call)
    ensures LaunchPath(s, comm, c) == Library(s, comm, c)
  {
    hide RoutesToSite;
  }

  lemma BypassingIs<C>(s: State<C>, comm: C, c: Call)
    ensures Bypassing(s, comm, c) <==> Bypasses(c.env.bypass, c.kind, Get(s.sequences, comm), c.numel, Occurrence(s, comm, c))
  {
    hide Bypasses;
  }

  /** Finding a handle, spelled out. */
  lemma HandleIs<C>(s: State<C>, comm: C, path: string, c: Call)
    ensures var (t, ok) := WithHandle(s, comm, path, c.env, c.exists_, c.created);
            var loads := path != "" && (path in s.libraries || c.exists_(path));
            && (ok <==> loads && (Key(path, comm) in s.handles || c.created))
            && t.started == s.started
            && t.libraries == (if loads then s.libraries + {path} else s.libraries)
            && t.handles == (if ok && Key(path, comm) !in s.handles then s.handles + [Key(path, comm)] else s.handles)
  {
  }

  /** A request to start the deferred workers; `exports` and `starts` answer per handle, in order. */
  datatype Start = Start(enabled: bool, strict: bool, deferWorker: bool, exports: nat -> bool, starts: nat -> bool)

  /** Handles from `k` on: each loaded, unstarted handle is started; a strict failure ends the loop. */
  function StartFrom<C(==)>(s: State<C>, st: Start, k: nat): (State<C>, bool)
    requires k <= |s.handles|
    decreases |s.handles| - k
  {
    if k == |s.handles| then (s, true)
    else if s.handles[k] in s.started || s.handles[k].path !in s.libraries then StartFrom(s, st, k + 1)
    else if !st.exports(k) || !st.starts(k) then (if st.strict then (s, false) else StartFrom(s, st, k + 1))
    else StartFrom(s.(started := s.started + {s.handles[k]}), st, k + 1)
  }

  function StartAll<C(==)>(s: State<C>, st: Start): (State<C>, bool) {
    if !st.enabled || !st.deferWorker then (s, true) else StartFrom(s, st, 0)
  }

  /** The module of one process, its tables keyed by device and communicator pointer. */
  type Comm = (int, int)

  class Router {
    var libraries: set<string>
    var handles: seq<Key<Comm>>
    var started: set<Key<Comm>>
    var sequences: map<Comm, nat>
    var occurrences: map<(string, Comm), nat>

    function Tables(): State<Comm>
      reads this
    {
      State(libraries, handles, started, sequences, occurrences)
    }

    constructor ()
      ensures Tables() == Fresh()
    {
      libraries, handles, started, sequences, occurrences := {}, [], {}, map[], map[];
    }

    method GetHandle(comm: Comm, path: string, env: Env, exists_: string -> bool, created: bool) returns (ok: bool)
      modifies this`libraries, this`handles
      ensures (Tables(), ok) == WithHandle(old(Tables()), comm, path, env, exists_, created)
      ensures ok <==> path != "" && (path in old(libraries) || exists_(path)) && (Key(path, comm) in old(handles) || created)
      ensures handles == if ok && Key(path, comm) !in old(handles) then old(handles) + [Key(path, comm)] else old(handles)
      ensures libraries == if path != "" && exists_(path) then old(libraries) + {path} else old(libraries)
    {
      if path == "" {
        return false;
      }
      if path !in libraries {
        if !exists_(path) {
          return false;
        }
        libraries := libraries + {path};
      } else {
        assert libraries + {path} == libraries;
      }
      if Key(path, comm) in handles {
        return true;
      }
      if !created {
        return false;
      }
      handles := handles + [Key(path, comm)];
      return true;
    }

    method TryAllReduceInplace(comm: Comm, c: Call) returns (choice: Choice)
      modifies this
      ensures (Tables(), choice) == Try(old(Tables()), comm, c)
      ensures AnswersRight(old(Tables()), comm, c, choice)
      ensures CountsRight(old(Tables()), comm, c, choice, Tables())
      ensures LoadsRight(old(Tables()), comm, c, Tables())
    {
      hide Bypasses, RouteOf, RoutePath, SupportedNumel, WithHandle, Get, AnswersRight, CountsRight, LoadsRight;
      TryAnswers(old(Tables()), comm, c);
      TryMovesCounters(old(Tables()), comm, c);
      TryMovesHandles(old(Tables()), comm, c);
      if !c.env.enabled { return Fallback; }
      if !c.half { return Fallback; }
      if !c.cuda || !c.contiguous { return Fallback; }
      if !SupportedNumel(c.env.multirow, c.numel) { return Fallback; }
      if c.worldSize != 8 { return Fallback; }
      if c.nullComm {
        return if c.env.strict then Raised else Fallback;
      }
      var site := Get(sequences, comm);
      if c.env.captureOnly && !c.env.inCapture {
        return Fallback;
      }
      var occurrence: Option<nat> := None;
      if c.kind.prefix != "" {
        var seen := Get(occurrences, (c.kind.prefix, comm));
        occurrence := Some(seen);
        occurrences := occurrences[(c.kind.prefix, comm) := seen + 1];
      }
      if Bypasses(c.env.bypass, c.kind, site, c.numel, occurrence) {
        sequences := sequences[comm := site + 1];
        return Bypassed;
      }
      var path := RoutePath(c.env, RouteOf(c.env.siteRoute, c.kind, site, c.numel));
      var ok := GetHandle(comm, path, c.env, c.exists_, c.created);
      if !ok {
        return if c.env.strict then Raised else Fallback;
      }
      if c.env.deferWorker && Key(path, comm) !in started && !c.env.inCapture {
        return Fallback;
      }
      if !c.launched {
        return if c.env.strict then Raised else Fallback;
      }
      sequences := sequences[comm := site + 1];
      return Sidecar;
    }

    method StartDeferredWorkers(st: Start) returns (count: nat, ok: bool)
      modifies this`started
      ensures (Tables(), ok) == StartAll(old(Tables()), st)
      ensures old(started) <= started && count == |started| - |old(started)|
    {
      count, ok := 0, true;
      if !st.enabled || !st.deferWorker {
        return;
      }
      var k := 0;
      while k < |handles|
        invariant k <= |handles|
        invariant StartFrom(Tables(), st, k) == StartFrom(old(Tables()), st, 0)
        invariant old(started) <= started && |started| == |old(started)| + count
      {
        var key := handles[k];
        if key in started || key.path !in libraries {
        } else if !st.exports(k) || !st.starts(k) {
          if st.strict {
            return count, false;
          }
        } else {
          started := started + {key};
          count := count + 1;
        }
        k := k + 1;
      }
    }
  }
}
