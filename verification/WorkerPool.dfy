/** The ordered worker pool: files are loaded and analysed by concurrent goroutines, at most
    `Workers` at a time and at most `Window` files ahead of the cursor, while the visitor is called
    serially and in file order.

    The pool is a transition system whose actions are the atomic steps of the main goroutine and of
    one goroutine per launched file. A run is any sequence of enabled actions, so a statement about
    every run is a statement about every interleaving. */
module WorkerPool {
  import opened Wrappers

  // What the pool moves around but never looks into.
  type Session(!new)
  type Lane(!new)
  type Report(!new)
  type Failure(!new)
  type Visitor(!new)

  /** One slot of the results array. The zero value has nothing in it. */
  datatype Outcome = Outcome(session: Option<Session>, report: Option<Report>, err: Option<Failure>)

  const ZERO := Outcome(None, None, None)

  /** The inputs of one call. Loading and analysing a file are functions of the file, and the
      visitor is a function of its own state and of what it is handed. */
  datatype Job = Job(
    files: seq<string>,
    procs: int,
    load: string -> Result<Session, Failure>,
    mainLane: Session -> Option<Lane>,
    analyze: (Session, Lane) -> Report,
    noRequests: Failure,
    visit: (Visitor, string, Outcome) -> (Visitor, Option<Failure>),
    start: Visitor)

  function Workers(j: Job): (w: nat)
    ensures 1 <= w <= 8
    ensures |j.files| < 2 ==> w == 1
  {
    var capped := if j.procs > 8 then 8 else j.procs;
    if capped < 1 || |j.files| < 2 then 1 else capped
  }

  function Window(j: Job): nat { 2 * Workers(j) }

  /** What the goroutine of file `i` stores, on its three return paths. */
  function Analyse(j: Job, i: nat): (r: Outcome)
    requires i < |j.files|
    ensures r.err.None? <==> r.report.Some?
    ensures r.report.Some? ==> r.session.Some?
  {
    match j.load(j.files[i])
    case Err(e) => Outcome(None, None, Some(e))
    case Ok(s) =>
      match j.mainLane(s)
      case None => Outcome(Some(s), None, Some(j.noRequests))
      case Some(lane) => Outcome(Some(s), Some(j.analyze(s, lane)), None)
  }

  // ----- The reference: the plain loop that analyses and visits files one after another

  datatype Call = Call(path: string, outcome: Outcome)

  datatype Verdict = Verdict(calls: seq<Call>, err: Option<Failure>, visitor: Visitor)

  /** The sequential loop from file `i` on, stopping at the first error the visitor returns. */
  function Sequential(j: Job, i: nat, v: Visitor): Verdict
    decreases |j.files| - i
  {
    if i >= |j.files| then Verdict([], None, v)
    else
      var r := Analyse(j, i);
      var (v', e) := j.visit(v, j.files[i], r);
      if e.Some? then Verdict([Call(j.files[i], r)], e, v')
      else
        var rest := Sequential(j, i + 1, v');
        Verdict([Call(j.files[i], r)] + rest.calls, rest.err, rest.visitor)
  }

  function Reference(j: Job): Verdict { Sequential(j, 0, j.start) }

  // ----- The pool

  /** Where the goroutine of one file is. It holds the semaphore in `Working` and `Stored`: the
      deferred function gives the semaphore back first and closes the file's channel second. */
  datatype Phase = Unlaunched | Queued | Working | Stored | Released | Closed

  datatype Main =
    | Filling
    | Waiting
    | Visiting(held: Outcome)
    | Draining(i: nat, err: Failure)
    | Returned(result: Option<Failure>)

  datatype Pool = Pool(
    phase: seq<Phase>,
    slot: seq<Outcome>,
    closes: seq<nat>,  // how often each ready channel was closed
    sem: nat,          // tokens in the semaphore channel
    next: nat,
    cursor: nat,
    main: Main,
    visitor: Visitor,
    visits: seq<Call>)

  datatype Action =
    // the main goroutine
    | Launch | StartWait | Receive | Visit | Drain | Return
    // the goroutine of file i
    | Acquire(i: nat) | Store(i: nat) | Release(i: nat) | Close(i: nat)

  function Init(j: Job): Pool {
    var n := |j.files|;
    Pool(seq(n, _ => Unlaunched), seq(n, _ => ZERO), seq(n, _ => 0), 0, 0, 0, Filling, j.start, [])
  }

  /** Every array of the call has one element per file. */
  predicate Sized(j: Job, p: Pool) {
    |p.phase| == |p.slot| == |p.closes| == |j.files|
  }

  /** Whether `launch(next)` runs once more before the main goroutine waits. */
  predicate CanLaunch(j: Job, p: Pool) {
    p.next < |j.files| && p.next < p.cursor + Window(j)
  }

  /** One atomic step, or nothing when the action cannot happen in this state. A send on the
      semaphore waits for room, a receive on it waits for a token, and a receive on a ready
      channel waits for that channel to be closed. */
  function Step(j: Job, p: Pool, a: Action): Option<Pool>
    requires Sized(j, p)
  {
    match a
    case Acquire(_) | Store(_) | Release(_) | Close(_) => WorkerStep(j, p, a)
    case _ => MainStep(j, p, a)
  }

  function MainStep(j: Job, p: Pool, a: Action): Option<Pool>
    requires Sized(j, p)
  {
    var n := |j.files|;
    match (p.main, a)
    case (Filling, Launch) =>
      if p.cursor < n && CanLaunch(j, p) then
        Some(p.(phase := p.phase[p.next := Queued], next := p.next + 1))
      else None
    case (Filling, StartWait) =>
      if p.cursor < n && !CanLaunch(j, p) then Some(p.(main := Waiting)) else None
    case (Filling, Return) =>
      if p.cursor >= n then Some(p.(main := Returned(None))) else None
    case (Waiting, Receive) =>
      if p.cursor < n && p.closes[p.cursor] > 0 then
        Some(p.(main := Visiting(p.slot[p.cursor]), slot := p.slot[p.cursor := ZERO]))
      else None
    case (Visiting(r), Visit) =>
      if p.cursor < n then
        var (v, e) := j.visit(p.visitor, j.files[p.cursor], r);
        var seen := p.(visitor := v, visits := p.visits + [Call(j.files[p.cursor], r)]);
        if e.Some? then Some(seen.(main := Draining(p.cursor + 1, e.value)))
        else Some(seen.(main := Filling, cursor := p.cursor + 1))
      else None
    case (Draining(i, e), Drain) =>
      if i < p.next && i < n && p.closes[i] > 0 then
        Some(p.(main := Draining(i + 1, e), slot := p.slot[i := ZERO]))
      else None
    case (Draining(i, e), Return) =>
      if i >= p.next then Some(p.(main := Returned(Some(e)))) else None
    case _ => None
  }

  function WorkerStep(j: Job, p: Pool, a: Action): Option<Pool>
    requires Sized(j, p)
  {
    var n := |j.files|;
    match a
    case Acquire(i) =>
      if i < n && p.phase[i] == Queued && p.sem < Workers(j) then
        Some(p.(phase := p.phase[i := Working], sem := p.sem + 1))
      else None
    case Store(i) =>
      if i < n && p.phase[i] == Working then
        Some(p.(phase := p.phase[i := Stored], slot := p.slot[i := Analyse(j, i)]))
      else None
    case Release(i) =>
      if i < n && p.phase[i] == Stored && p.sem > 0 then
        Some(p.(phase := p.phase[i := Released], sem := p.sem - 1))
      else None
    case Close(i) =>
      if i < n && p.phase[i] == Released then
        Some(p.(phase := p.phase[i := Closed], closes := p.closes[i := p.closes[i] + 1]))
      else None
    case _ => None
  }

  /** The state an interleaving leads to, or nothing when one of its actions was not enabled. */
  function Run(j: Job, acts: seq<Action>): (r: Option<Pool>)
    ensures r.Some? ==> Sized(j, r.value)
    decreases |acts|
  {
    if acts == [] then Some(Init(j))
    else
      match Run(j, acts[..|acts| - 1])
      case None => None
      case Some(p) => Step(j, p, acts[|acts| - 1])
  }

  // ----- Counting over files

  predicate Holds(ph: Phase) { ph.Working? || ph.Stored? }

  function Holding(phases: seq<Phase>): nat {
    if phases == [] then 0
    else Holding(phases[1..]) + if Holds(phases[0]) then 1 else 0
  }

  function StepsLeft(ph: Phase): nat {
    match ph
    case Unlaunched => 5
    case Queued => 4
    case Working => 3
    case Stored => 2
    case Released => 1
    case Closed => 0
  }

  function WorkLeft(phases: seq<Phase>): nat {
    if phases == [] then 0 else WorkLeft(phases[1..]) + StepsLeft(phases[0])
  }

  /** Results held in the array. */
  ghost function Live(slots: seq<Outcome>): nat {
    if slots == [] then 0 else Live(slots[1..]) + if slots[0] != ZERO then 1 else 0
  }

  lemma {:induction false} PhaseUpdate(s: seq<Phase>, i: nat, ph: Phase)
    requires i < |s|
    ensures Holding(s[i := ph]) + (if Holds(s[i]) then 1 else 0) == Holding(s) + (if Holds(ph) then 1 else 0)
    ensures WorkLeft(s[i := ph]) + StepsLeft(s[i]) == WorkLeft(s) + StepsLeft(ph)
  {
    var t := s[i := ph];
    if i == 0 {
      assert t[1..] == s[1..];
    } else {
      assert t[1..] == s[1..][i - 1 := ph];
      PhaseUpdate(s[1..], i - 1, ph);
    }
  }

  lemma {:induction false} SomebodyHolds(s: seq<Phase>)
    requires Holding(s) > 0
    ensures exists i :: 0 <= i < |s| && Holds(s[i])
  {
    if Holds(s[0]) {
    } else {
      SomebodyHolds(s[1..]);
      var i :| 0 <= i < |s[1..]| && Holds(s[1..][i]);
      assert s[i + 1] == s[1..][i];
    }
  }

  lemma {:induction false} NobodyHolds(s: seq<Phase>)
    requires forall i :: 0 <= i < |s| ==> !Holds(s[i])
    ensures Holding(s) == 0
  {
    if s != [] {
      NobodyHolds(s[1..]);
    }
  }

  lemma {:induction false} AllUnlaunched(s: seq<Phase>)
    requires forall i :: 0 <= i < |s| ==> s[i] == Unlaunched
    ensures WorkLeft(s) == 5 * |s|
  {
    if s != [] {
      AllUnlaunched(s[1..]);
    }
  }

  lemma {:induction false} LiveWithin(slots: seq<Outcome>, from: nat, to: nat)
    requires from <= to <= |slots|
    requires forall i :: 0 <= i < |slots| && slots[i] != ZERO ==> from <= i < to
    ensures Live(slots) <= to - from
  {
    if slots != [] {
      forall i | 0 <= i < |slots[1..]| && slots[1..][i] != ZERO
        ensures slots[i + 1] != ZERO
      {
      }
      LiveWithin(slots[1..], if from == 0 then 0 else from - 1, if to == 0 then 0 else to - 1);
    }
  }

  // ----- The invariant

  /** The first file whose result the main goroutine has not taken yet. */
  function Taken(p: Pool): nat {
    match p.main
    case Filling => p.cursor
    case Waiting => p.cursor
    case Visiting(_) => p.cursor + 1
    case Draining(i, _) => i
    case Returned(_) => p.next
  }

  predicate HasResult(ph: Phase) { ph.Stored? || ph.Released? || ph.Closed? }

  /** What the arrays and the semaphore hold. */
  ghost predicate Accounted(j: Job, p: Pool)
    requires Sized(j, p)
  {
    && p.sem == Holding(p.phase) <= Workers(j)
    && Taken(p) <= p.next
    && forall i :: 0 <= i < |j.files| ==>
         && (p.phase[i] == Unlaunched <==> p.next <= i)
         && p.closes[i] == (if p.phase[i] == Closed then 1 else 0)
         && (i < Taken(p) ==> p.phase[i] == Closed)
         && p.slot[i] == (if i >= Taken(p) && HasResult(p.phase[i]) then Analyse(j, i) else ZERO)
  }

  /** What is still to come completes what was already visited to the sequential loop's verdict. */
  ghost predicate Simulates(j: Job, p: Pool) {
    match p.main
    case Draining(_, e) => Verdict(p.visits, Some(e), p.visitor) == Reference(j)
    case Returned(e) => Verdict(p.visits, e, p.visitor) == Reference(j)
    case _ =>
      var rest := Sequential(j, p.cursor, p.visitor);
      Verdict(p.visits + rest.calls, rest.err, rest.visitor) == Reference(j)
  }

  ghost predicate Inv(j: Job, p: Pool) {
    && Sized(j, p)
    && p.cursor <= p.next <= |j.files|
    && p.next <= p.cursor + Window(j)
    && (p.main.Waiting? ==> p.cursor < |j.files| && !CanLaunch(j, p))
    && (p.main.Visiting? ==> p.cursor < |j.files| && p.main.held == Analyse(j, p.cursor))
    && (p.main.Draining? ==> p.cursor < p.main.i)
    && Accounted(j, p)
    && Simulates(j, p)
  }

  lemma InitInv(j: Job)
    ensures Inv(j, Init(j))
  {
    NobodyHolds(Init(j).phase);
    assert Init(j).visits + Reference(j).calls == Reference(j).calls;
  }

  lemma WorkerStepInv(j: Job, p: Pool, a: Action)
    requires Inv(j, p) && WorkerStep(j, p, a).Some?
    ensures Inv(j, WorkerStep(j, p, a).value)
  {
    hide Sequential, Reference, Holding, WorkLeft, Analyse, Workers;
    var q := WorkerStep(j, p, a).value;
    PhaseUpdate(p.phase, a.i, q.phase[a.i]);
  }

  lemma LaunchInv(j: Job, p: Pool)
    requires Inv(j, p) && MainStep(j, p, Launch).Some?
    ensures Inv(j, MainStep(j, p, Launch).value)
  {
    hide Sequential, Reference, Holding, WorkLeft, Analyse, Workers;
    PhaseUpdate(p.phase, p.next, Queued);
  }

  lemma VisitInv(j: Job, p: Pool)
    requires Inv(j, p) && MainStep(j, p, Visit).Some?
    ensures Inv(j, MainStep(j, p, Visit).value)
  {
    hide Holding, WorkLeft, Analyse, Workers, Reference;
    var q := MainStep(j, p, Visit).value;
    if q.main.Filling? {
      assert p.visits + Sequential(j, p.cursor, p.visitor).calls
          == q.visits + Sequential(j, q.cursor, q.visitor).calls;
    }
  }

  lemma ReturnInv(j: Job, p: Pool)
    requires Inv(j, p) && MainStep(j, p, Return).Some?
    ensures Inv(j, MainStep(j, p, Return).value)
  {
    hide Holding, WorkLeft, Analyse, Workers, Reference;
    if p.main.Filling? {
      assert p.visits + [] == p.visits;
    }
  }

  lemma MainStepInv(j: Job, p: Pool, a: Action)
    requires Inv(j, p) && MainStep(j, p, a).Some?
    ensures Inv(j, MainStep(j, p, a).value)
  {
    hide Sequential, Reference, Holding, WorkLeft, Analyse, Workers;
    match a {
      case Launch => LaunchInv(j, p);
      case Visit => VisitInv(j, p);
      case Return => ReturnInv(j, p);
      case _ =>
    }
  }

  /** The invariant holds in every state any interleaving reaches. */
  lemma {:induction false} ReachableInv(j: Job, acts: seq<Action>)
    requires Run(j, acts).Some?
    ensures Inv(j, Run(j, acts).value)
    decreases |acts|
  {
    if acts == [] {
      InitInv(j);
    } else {
      var before := acts[..|acts| - 1];
      ReachableInv(j, before);
      var p, a := Run(j, before).value, acts[|acts| - 1];
      match a {
        case Acquire(_) | Store(_) | Release(_) | Close(_) => WorkerStepInv(j, p, a);
        case _ => MainStepInv(j, p, a);
      }
    }
  }

  // ----- Main results

  /** Refinement. Whatever the interleaving, the visitor has been called on a prefix of what the
      sequential loop calls it on, and once the call returns the calls, the error and the visitor's
      final state are the sequential loop's. */
  lemma PoolRefinesSequentialLoop(j: Job, acts: seq<Action>)
    requires Run(j, acts).Some?
    ensures var p := Run(j, acts).value;
            p.visits <= Reference(j).calls &&
            (p.main.Returned? ==> Verdict(p.visits, p.main.result, p.visitor) == Reference(j))
  {
    ReachableInv(j, acts);
  }

  /** Bounds. The cursor, the launch index, the semaphore, the results alive (the one being visited
      or drained past included) and the closes of each channel, in every reachable state. */
  lemma PoolBounds(j: Job, acts: seq<Action>)
    requires Run(j, acts).Some?
    ensures var p := Run(j, acts).value;
            && p.cursor <= p.next <= |j.files|
            && p.next <= p.cursor + Window(j)
            && Holding(p.phase) == p.sem <= Workers(j) <= 8
            && Live(p.slot) + (if p.main.Visiting? || p.main.Draining? then 1 else 0) <= Window(j)
            && forall i :: 0 <= i < |j.files| ==> p.closes[i] <= 1
  {
    ReachableInv(j, acts);
    var p := Run(j, acts).value;
    LiveWithin(p.slot, Taken(p), p.next);
  }

  /** Handing over. When the main goroutine takes a slot, in the loop or while draining, the file's
      goroutine has finished with it: the result is complete and nothing writes the slot again. */
  lemma SlotHandedOver(j: Job, acts: seq<Action>, a: Action)
    requires Run(j, acts).Some? && Step(j, Run(j, acts).value, a).Some?
    requires a.Receive? || a.Drain?
    ensures var p := Run(j, acts).value;
            var i := Taken(p);
            && i < p.next
            && p.slot[i] == Analyse(j, i)
            && WorkerStep(j, p, Acquire(i)).None? && WorkerStep(j, p, Store(i)).None?
            && WorkerStep(j, p, Release(i)).None? && WorkerStep(j, p, Close(i)).None?
  {
    hide Run, Sequential, Reference, Holding, WorkLeft, Analyse, Simulates, Workers;
    ReachableInv(j, acts);
  }

  /** Progress. Until the call returns, some goroutine can always move. */
  lemma NeverStuck(j: Job, p: Pool)
    requires Inv(j, p) && !p.main.Returned?
    ensures exists a :: Step(j, p, a).Some?
  {
    match p.main {
      case Filling =>
        if p.cursor >= |j.files| {
          assert Step(j, p, Return).Some?;
        } else if CanLaunch(j, p) {
          assert Step(j, p, Launch).Some?;
        } else {
          assert Step(j, p, StartWait).Some?;
        }
      case Waiting =>
        if p.phase[p.cursor] == Closed {
          assert Step(j, p, Receive).Some?;
        } else {
          GoroutineMoves(j, p, p.cursor);
        }
      case Visiting(_) =>
        assert Step(j, p, Visit).Some?;
      case Draining(i, _) =>
        if i >= p.next {
          assert Step(j, p, Return).Some?;
        } else if p.phase[i] == Closed {
          assert Step(j, p, Drain).Some?;
        } else {
          GoroutineMoves(j, p, i);
        }
    }
  }

  /** An action of the goroutine of file `i`. */
  predicate Of(a: Action, i: nat) {
    a == Acquire(i) || a == Store(i) || a == Release(i) || a == Close(i)
  }

  /** A launched, unfinished goroutine moves, or waits for a full semaphore one of whose holders
      moves. */
  lemma GoroutineMoves(j: Job, p: Pool, i: nat)
    requires Inv(j, p) && i < p.next && p.phase[i] != Closed
    ensures || (exists a :: Of(a, i) && Step(j, p, a).Some?)
            || (&& p.phase[i] == Queued && p.sem == Workers(j)
                && exists k: nat, a :: k < |p.phase| && Holds(p.phase[k]) && Of(a, k) && Step(j, p, a).Some?)
  {
    hide Sequential, Reference, Holding, WorkLeft, Analyse, Simulates;
    match p.phase[i] {
      case Queued =>
        if p.sem < Workers(j) {
          assert Of(Acquire(i), i) && Step(j, p, Acquire(i)).Some?;
        } else {
          SomebodyHolds(p.phase);
          var k :| 0 <= k < |p.phase| && Holds(p.phase[k]);
          HolderMoves(j, p, k);
        }
      case Working => assert Of(Store(i), i) && Step(j, p, Store(i)).Some?;
      case Stored => HolderMoves(j, p, i);
      case Released => assert Of(Close(i), i) && Step(j, p, Close(i)).Some?;
    }
  }

  lemma HolderMoves(j: Job, p: Pool, k: nat)
    requires Inv(j, p) && k < |p.phase| && Holds(p.phase[k])
    ensures exists a :: Of(a, k) && Step(j, p, a).Some?
  {
    hide Sequential, Reference, Holding, WorkLeft, Analyse, Simulates;
    HolderCounted(p.phase, k);
    if p.phase[k].Working? {
      assert Of(Store(k), k) && Step(j, p, Store(k)).Some?;
    } else {
      assert Of(Release(k), k) && Step(j, p, Release(k)).Some?;
    }
  }

  lemma {:induction false} HolderCounted(s: seq<Phase>, i: nat)
    requires i < |s| && Holds(s[i])
    ensures Holding(s) > 0
  {
    if i > 0 {
      HolderCounted(s[1..], i - 1);
    }
  }

  /** Steps the main goroutine still has, beyond launching. */
  function MainLeft(j: Job, p: Pool): int {
    var ahead := |j.files| - p.cursor;
    match p.main
    case Filling => 3 * ahead + 1
    case Waiting => 3 * ahead
    case Visiting(_) => 3 * ahead - 1
    case Draining(i, _) => p.next - i + 1
    case Returned(_) => 0
  }

  /** What a run has left: it falls by one at least on every step. */
  function Measure(j: Job, p: Pool): int {
    WorkLeft(p.phase) + MainLeft(j, p)
  }

  lemma WorkerStepLowersMeasure(j: Job, p: Pool, a: Action)
    requires Inv(j, p) && WorkerStep(j, p, a).Some?
    ensures 0 <= Measure(j, WorkerStep(j, p, a).value) < Measure(j, p)
  {
    hide Sequential, Reference, Holding, WorkLeft, Analyse, Workers, Simulates;
    PhaseUpdate(p.phase, a.i, WorkerStep(j, p, a).value.phase[a.i]);
  }

  lemma StepLowersMeasure(j: Job, p: Pool, a: Action)
    requires Inv(j, p) && Step(j, p, a).Some?
    ensures 0 <= Measure(j, Step(j, p, a).value) < Measure(j, p)
  {
    hide Sequential, Reference, Holding, WorkLeft, Analyse, Workers, Simulates;
    match a {
      case Acquire(_) | Store(_) | Release(_) | Close(_) => WorkerStepLowersMeasure(j, p, a);
      case Launch => PhaseUpdate(p.phase, p.next, Queued);
      case _ =>
    }
  }

  /** Termination. No interleaving is longer than eight steps per file and one return. */
  lemma {:induction false} RunsAreBounded(j: Job, acts: seq<Action>)
    requires Run(j, acts).Some?
    ensures |acts| + Measure(j, Run(j, acts).value) <= 8 * |j.files| + 1
    ensures |acts| <= 8 * |j.files| + 1
    decreases |acts|
  {
    ReachableInv(j, acts);
    if acts == [] {
      AllUnlaunched(Init(j).phase);
    } else {
      var before := acts[..|acts| - 1];
      RunsAreBounded(j, before);
      ReachableInv(j, before);
      StepLowersMeasure(j, Run(j, before).value, acts[|acts| - 1]);
    }
  }

  /** Return. On either return path every launched goroutine has closed its channel, the semaphore
      and the results array are empty, and nothing is left that could still move. */
  lemma NothingOutlivesTheCall(j: Job, acts: seq<Action>, a: Action)
    requires Run(j, acts).Some? && Run(j, acts).value.main.Returned?
    ensures var p := Run(j, acts).value;
            && p.sem == 0 && p.next <= |j.files|
            && (forall i :: 0 <= i < p.next ==> p.phase[i] == Closed && p.closes[i] == 1)
            && (forall i :: 0 <= i < |j.files| ==> p.slot[i] == ZERO)
            && (p.main.result.None? ==> p.next == |j.files|)
            && Step(j, p, a).None?
  {
    ReachableInv(j, acts);
    var p := Run(j, acts).value;
    NobodyHolds(p.phase);
    if p.main.result.None? {
      NoErrorVisitsAll(j, 0, j.start);
      ReturnedCleanVisitedAll(j, acts);
    }
  }

  lemma {:induction false} NoErrorVisitsAll(j: Job, i: nat, v: Visitor)
    requires i <= |j.files| && Sequential(j, i, v).err.None?
    ensures |Sequential(j, i, v).calls| == |j.files| - i
    decreases |j.files| - i
  {
    if i < |j.files| {
      NoErrorVisitsAll(j, i + 1, j.visit(v, j.files[i], Analyse(j, i)).0);
    }
  }

  /** The number of visits says how far the cursor is. */
  lemma {:induction false} ReturnedCleanVisitedAll(j: Job, acts: seq<Action>)
    requires Run(j, acts).Some?
    ensures var p := Run(j, acts).value;
            |p.visits| == p.cursor + (match p.main
                                      case Draining(_, _) => 1
                                      case Returned(e) => if e.Some? then 1 else 0
                                      case _ => 0)
    decreases |acts|
  {
    if acts != [] {
      ReturnedCleanVisitedAll(j, acts[..|acts| - 1]);
    }
  }

  /** Every reachable state can be completed, so the calls of the sequential loop are not only the
      only ones a returning run can make: some run makes them. */
  lemma {:induction false} EveryRunCanReturn(j: Job, acts: seq<Action>)
    requires Run(j, acts).Some?
    ensures exists more :: acts <= more && Run(j, more).Some? && Run(j, more).value.main.Returned?
    decreases 8 * |j.files| + 1 - |acts|
  {
    RunsAreBounded(j, acts);
    ReachableInv(j, acts);
    var p := Run(j, acts).value;
    if p.main.Returned? {
      assert acts <= acts;
    } else {
      NeverStuck(j, p);
      var a :| Step(j, p, a).Some?;
      var longer := acts + [a];
      assert longer[..|longer| - 1] == acts;
      RunsAreBounded(j, longer);
      EveryRunCanReturn(j, longer);
      var more :| longer <= more && Run(j, more).Some? && Run(j, more).value.main.Returned?;
      assert acts <= more;
    }
  }
}
