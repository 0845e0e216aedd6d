/** The bounded HTTP server: admission slots and the counters around them, as interleaved steps.

    Every accepted request is a path through `process_request` and its worker. Each step is one
    critical section or one non-blocking semaphore operation, so a run is any interleaving. */
module HttpSlots {
  /** Admitted: a permit is taken. Counted: `_active_requests` includes it, the worker is being
      started. Serving: the worker owns it. Leaving: no longer counted, the permit still taken.
      Gone: released. */
  datatype Phase = Admitted | Counted | Serving | Leaving | Gone

  datatype Server = Server(
    maximum: nat,
    slots: nat,
    active: nat,
    rejected: nat,
    interrupted: nat,
    paths: map<nat, Phase>)

  /** `WorkerDone` and `StartFailed` are the first half of `_release_request_slot`, `Release` the
      second. `StartInterrupted` is an exception that reaches the accepting thread after the
      worker already runs: both of them will then release. */
  datatype Step =
    | Admit(path: nat)
    | Refuse
    | CountIn(path: nat)
    | StartWorker(path: nat)
    | StartFailed(path: nat)
    | StartInterrupted(path: nat, second: nat)
    | WorkerDone(path: nat)
    | Release(path: nat)

  function NewServer(maxActiveRequests: int): Server {
    var maximum := if maxActiveRequests < 1 then 1 else maxActiveRequests;
    Server(maximum, maximum, 0, 0, 0, map[])
  }

  predicate In(s: Server, path: nat, phase: Phase) {
    path in s.paths && s.paths[path] == phase
  }

  predicate Enabled(s: Server, step: Step) {
    match step
    case Admit(p) => s.slots > 0 && p !in s.paths
    case Refuse => s.slots == 0
    case CountIn(p) => In(s, p, Admitted)
    case StartWorker(p) => In(s, p, Counted)
    case StartFailed(p) => In(s, p, Counted)
    case StartInterrupted(p, q) => In(s, p, Counted) && q !in s.paths
    case WorkerDone(p) => In(s, p, Serving)
    case Release(p) => In(s, p, Leaving)
  }

  /** `max(0, self._active_requests - 1)` */
  function Uncount(active: nat): nat {
    if active == 0 then 0 else active - 1
  }

  /** A bounded semaphore refuses to go over its initial value. */
  function Give(slots: nat, maximum: nat): nat {
    if slots < maximum then slots + 1 else slots
  }

  function Next(s: Server, step: Step): Server {
    match step
    case Admit(p) => s.(slots := if s.slots > 0 then s.slots - 1 else 0, paths := s.paths[p := Admitted])
    case Refuse => s.(rejected := s.rejected + 1)
    case CountIn(p) => s.(active := s.active + 1, paths := s.paths[p := Counted])
    case StartWorker(p) => s.(paths := s.paths[p := Serving])
    case StartFailed(p) => s.(active := Uncount(s.active), paths := s.paths[p := Leaving])
    case StartInterrupted(p, q) =>
      s.(interrupted := s.interrupted + 1, paths := s.paths[p := Serving][q := Counted])
    case WorkerDone(p) => s.(active := Uncount(s.active), paths := s.paths[p := Leaving])
    case Release(p) => s.(slots := Give(s.slots, s.maximum), paths := s.paths[p := Gone])
  }

  /** The clamp of the counter does not fire and the semaphore is not over-released. */
  predicate Clean(s: Server, step: Step) {
    match step
    case StartFailed(_) => s.active > 0
    case WorkerDone(_) => s.active > 0
    case Release(_) => s.slots < s.maximum
    case _ => true
  }

  // ----- runs -----

  function Run(s: Server, steps: seq<Step>): Server
    decreases |steps|
  {
    if steps == [] then s else Run(Next(s, steps[0]), steps[1..])
  }

  predicate Possible(s: Server, steps: seq<Step>)
    decreases |steps|
  {
    steps == [] || (Enabled(s, steps[0]) && Possible(Next(s, steps[0]), steps[1..]))
  }

  predicate CleanRun(s: Server, steps: seq<Step>)
    decreases |steps|
  {
    steps == [] || (Clean(s, steps[0]) && CleanRun(Next(s, steps[0]), steps[1..]))
  }

  /** Paths that still owe a release, and those still included in the active counter. */
  function Holding(paths: map<nat, Phase>): set<nat> {
    set p | p in paths && paths[p] != Gone
  }

  function Tallied(paths: map<nat, Phase>): set<nat> {
    set p | p in paths && (paths[p] == Counted || paths[p] == Serving)
  }

  /** Free permits and held slots make up the maximum; the counter counts exactly the tallied
      paths. Each interrupted start adds one path nobody paid for. */
  ghost predicate Balanced(s: Server) {
    && s.slots + |Holding(s.paths)| == s.maximum + s.interrupted
    && s.active + s.interrupted == |Tallied(s.paths)|
    && s.slots <= s.maximum
  }

  lemma TalliedHold(paths: map<nat, Phase>)
    ensures |Tallied(paths)| <= |Holding(paths)|
  {
    SubsetIsSmaller(Tallied(paths), Holding(paths));
  }

  lemma {:induction false} SubsetIsSmaller(a: set<nat>, b: set<nat>)
    requires a <= b
    ensures |a| <= |b|
    decreases a
  {
    if a != {} {
      var x :| x in a;
      SubsetIsSmaller(a - {x}, b - {x});
    }
  }

  lemma PathMoves(paths: map<nat, Phase>, p: nat, phase: Phase)
    ensures |Holding(paths[p := phase])| - |Holding(paths)|
            == (if phase != Gone then 1 else 0) - (if p in Holding(paths) then 1 else 0)
    ensures |Tallied(paths[p := phase])| - |Tallied(paths)|
            == (if phase == Counted || phase == Serving then 1 else 0) - (if p in Tallied(paths) then 1 else 0)
  {
    SetMoves(Holding(paths), Holding(paths[p := phase]), p);
    SetMoves(Tallied(paths), Tallied(paths[p := phase]), p);
  }

  lemma SetMoves(before: set<nat>, after: set<nat>, p: nat)
    requires after - {p} == before - {p}
    ensures |after| - |before| == (if p in after then 1 else 0) - (if p in before then 1 else 0)
  {
    assert p in after ==> after == (after - {p}) + {p};
    assert p !in after ==> after == after - {p};
    assert p in before ==> before == (before - {p}) + {p};
    assert p !in before ==> before == before - {p};
  }

  lemma CleanStepKeepsBalance(s: Server, step: Step)
    requires Balanced(s) && Enabled(s, step) && Clean(s, step)
    ensures Balanced(Next(s, step))
  {
    match step
    case Admit(p) => PathMoves(s.paths, p, Admitted);
    case Refuse =>
    case CountIn(p) => PathMoves(s.paths, p, Counted);
    case StartWorker(p) => PathMoves(s.paths, p, Serving);
    case StartFailed(p) => PathMoves(s.paths, p, Leaving);
    case StartInterrupted(p, q) =>
      PathMoves(s.paths, p, Serving);
      PathMoves(s.paths[p := Serving], q, Counted);
    case WorkerDone(p) => PathMoves(s.paths, p, Leaving);
    case Release(p) => PathMoves(s.paths, p, Gone);
  }

  lemma UninterruptedStepIsClean(s: Server, step: Step)
    requires Balanced(s) && Enabled(s, step) && s.interrupted == 0
    ensures Clean(s, step)
  {
    match step
    case StartFailed(p) => assert p in Tallied(s.paths);
    case WorkerDone(p) => assert p in Tallied(s.paths);
    case Release(p) => assert p in Holding(s.paths);
    case _ =>
  }

  lemma {:induction false} InterruptionsNeverUndone(s: Server, steps: seq<Step>)
    ensures Run(s, steps).interrupted >= s.interrupted
    decreases |steps|
  {
    if steps != [] { InterruptionsNeverUndone(Next(s, steps[0]), steps[1..]); }
  }

  lemma {:induction false} CleanRunKeepsBalance(s: Server, steps: seq<Step>)
    requires Balanced(s) && Possible(s, steps) && CleanRun(s, steps)
    ensures Balanced(Run(s, steps))
    decreases |steps|
  {
    if steps != [] {
      CleanStepKeepsBalance(s, steps[0]);
      CleanRunKeepsBalance(Next(s, steps[0]), steps[1..]);
    }
  }

  lemma {:induction false} UninterruptedRunIsClean(s: Server, steps: seq<Step>)
    requires Balanced(s) && Possible(s, steps)
    requires Run(s, steps).interrupted == 0
    ensures CleanRun(s, steps)
    decreases |steps|
  {
    if steps != [] {
      InterruptionsNeverUndone(s, steps);
      UninterruptedStepIsClean(s, steps[0]);
      CleanStepKeepsBalance(s, steps[0]);
      UninterruptedRunIsClean(Next(s, steps[0]), steps[1..]);
    }
  }

  function Refusals(steps: seq<Step>): nat {
    if steps == [] then 0 else (if steps[0].Refuse? then 1 else 0) + Refusals(steps[1..])
  }

  lemma {:induction false} RefusalsAreCounted(s: Server, steps: seq<Step>)
    ensures Run(s, steps).rejected == s.rejected + Refusals(steps) && Run(s, steps).maximum == s.maximum
    decreases |steps|
  {
    if steps != [] { RefusalsAreCounted(Next(s, steps[0]), steps[1..]); }
  }

  /** Every interleaving of accepts, starts, start failures and worker exits conserves the slots, never fires
      the clamp and never over-releases; a request is refused exactly when as many are held as were asked
      for, at least one, and every refusal is counted. */
  lemma SlotsAreConserved(maxActiveRequests: int, steps: seq<Step>)
    requires Possible(NewServer(maxActiveRequests), steps)
    requires Run(NewServer(maxActiveRequests), steps).interrupted == 0
    ensures var s := Run(NewServer(maxActiveRequests), steps);
            && s.slots + |Holding(s.paths)| == s.maximum
            && s.active == |Tallied(s.paths)| <= |Holding(s.paths)| <= s.maximum
            && (maxActiveRequests >= 1 ==> s.maximum == maxActiveRequests) && s.maximum >= 1
            && (maxActiveRequests <= 1 ==> s.maximum == 1)
            && (Enabled(s, Refuse) <==> |Holding(s.paths)| == s.maximum)
            && s.rejected == Refusals(steps)
    ensures CleanRun(NewServer(maxActiveRequests), steps)
  {
    var s0 := NewServer(maxActiveRequests);
    assert Holding(s0.paths) == {} && Tallied(s0.paths) == {};
    hide Run, Possible, CleanRun, Refusals, Holding, Tallied;
    UninterruptedRunIsClean(s0, steps);
    CleanRunKeepsBalance(s0, steps);
    TalliedHold(Run(s0, steps).paths);
    RefusalsAreCounted(s0, steps);
  }

  /** Once every path is gone the run was clean exactly when no start was interrupted; a clean
      drained server is as good as new. */
  lemma DrainedServerWasCleanIffUninterrupted(maxActiveRequests: int, steps: seq<Step>)
    requires Possible(NewServer(maxActiveRequests), steps)
    requires Holding(Run(NewServer(maxActiveRequests), steps).paths) == {}
    ensures var s := Run(NewServer(maxActiveRequests), steps);
            && (CleanRun(NewServer(maxActiveRequests), steps) <==> s.interrupted == 0)
            && (s.interrupted == 0 ==> s.slots == s.maximum && s.active == 0)
  {
    var s0 := NewServer(maxActiveRequests);
    var s := Run(s0, steps);
    assert Holding(s0.paths) == {} && Tallied(s0.paths) == {};
    TalliedHold(s.paths);
    if s.interrupted == 0 {
      SlotsAreConserved(maxActiveRequests, steps);
    }
    if CleanRun(s0, steps) {
      CleanRunKeepsBalance(s0, steps);
    }
  }

  /** A start interrupted after the worker runs is released twice: the clamp hides the second. */
  lemma InterruptedStartReleasesTwice()
    ensures var steps := [Admit(0), CountIn(0), StartInterrupted(0, 1), WorkerDone(0), StartFailed(1)];
            && Possible(NewServer(1), steps)
            && !CleanRun(NewServer(1), steps)
  {
    var s0 := NewServer(1);
    var s1 := Next(s0, Admit(0));
    var s2 := Next(s1, CountIn(0));
    var s3 := Next(s2, StartInterrupted(0, 1));
    var s4 := Next(s3, WorkerDone(0));
    var last := [StartFailed(1)];
    assert last[1..] == [];
    assert Possible(s4, last) && !CleanRun(s4, last);
    var tail := [StartInterrupted(0, 1), WorkerDone(0), StartFailed(1)];
    assert tail[1..][1..] == last;
    assert Possible(s2, tail) && !CleanRun(s2, tail);
    var steps := [Admit(0), CountIn(0)] + tail;
    assert steps[1..][1..] == tail;
  }

  /** The server object: its critical sections, one method each. `paths` records, for the
      specification, where every request is. */
  class BoundedThreadingHTTPServer {
    const maxActiveRequests: nat
    var requestSlots: nat
    var activeRequests: nat
    var rejectedRequests: nat
    ghost var interrupted: nat
    ghost var paths: map<nat, Phase>

    ghost function View(): Server
      reads this
    {
      Server(maxActiveRequests, requestSlots, activeRequests, rejectedRequests, interrupted, paths)
    }

    constructor (requested: int)
      ensures View() == NewServer(requested)
    {
      var maximum: nat := if requested < 1 then 1 else requested;
      maxActiveRequests := maximum;
      requestSlots, activeRequests, rejectedRequests := maximum, 0, 0;
      interrupted, paths := 0, map[];
    }

    /** `acquire(blocking=False)` and, when it fails, the counted refusal. */
    method TryAdmit(ghost path: nat) returns (admitted: bool)
      requires path !in paths
      modifies this
      ensures admitted == (old(requestSlots) > 0)
      ensures View() == Next(old(View()), if admitted then Admit(path) else Refuse)
      ensures old(Enabled(View(), if requestSlots > 0 then Admit(path) else Refuse))
    {
      admitted := requestSlots > 0;
      if admitted {
        requestSlots := requestSlots - 1;
        paths := paths[path := Admitted];
      } else {
        rejectedRequests := rejectedRequests + 1;
      }
    }

    method CountActive(ghost path: nat)
      requires In(View(), path, Admitted)
      modifies this
      ensures View() == Next(old(View()), CountIn(path))
    {
      activeRequests := activeRequests + 1;
      paths := paths[path := Counted];
    }

    /** First half of `_release_request_slot`, for a worker that ended or a start that failed. */
    method UncountActive(ghost path: nat)
      requires In(View(), path, Counted) || In(View(), path, Serving)
      modifies this
      ensures View() ==
              Next(old(View()), if old(In(View(), path, Counted)) then StartFailed(path) else WorkerDone(path))
    {
      activeRequests := if activeRequests == 0 then 0 else activeRequests - 1;
      paths := paths[path := Leaving];
    }

    /** Second half: give the permit back; `released` is false where the semaphore would raise. */
    method ReleaseSlot(ghost path: nat) returns (released: bool)
      requires In(View(), path, Leaving)
      modifies this
      ensures View() == Next(old(View()), Release(path))
      ensures released == old(Clean(View(), Release(path)))
    {
      released := requestSlots < maxActiveRequests;
      if released { requestSlots := requestSlots + 1; }
      paths := paths[path := Gone];
    }

    method RuntimeSnapshot() returns (active: nat, maximum: nat, rejected: nat)
      requires Balanced(View()) && interrupted == 0
      ensures active == |Tallied(paths)| <= maximum
      ensures maximum == maxActiveRequests && rejected == rejectedRequests
    {
      TalliedHold(paths);
      return activeRequests, maxActiveRequests, rejectedRequests;
    }
  }
}
