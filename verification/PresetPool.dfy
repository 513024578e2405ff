/** workflows/presets/reader.go, LoadAllDetails: a fan-out of Detail calls bounded by a semaphore of
    width 8, joined by a wait group, while other goroutines call Detail on the same presets. */
module PresetPool {
  import opened Errors
  import opened Presets

  const MAX_PARALLEL := 8

  /** Who calls Detail: the pool's goroutine for preset i, or somebody else. */
  datatype Who = Worker(i: nat) | Outside(k: nat)

  /** Where a Detail call is. */
  datatype InCall =
    | Idle
    | Entering(p: nat)                      // in p.mu.Lock
    | Inside(p: nat)                        // holds p.mu
    | Asking(p: nat)                        // in GetPreset, p.mu held
    | Leaving(p: nat, r: Result<Detail>)    // about to unlock and return
  {
    predicate Holds(q: nat) {
      (Inside? || Asking? || Leaving?) && p == q
    }
  }

  /** Where a pool goroutine is. */
  datatype Stage =
    | Calling
    | Ended(r: Result<Detail>)
    | Recorded(r: Result<Detail>)   // the first error is noted
    | Released(r: Result<Detail>)   // the semaphore token is given back
    | Gone(r: Result<Detail>)       // wg.Done was called
  {
    predicate HasToken() {
      Calling? || Ended? || Recorded?
    }

    /** Its Detail call ended like this. */
    predicate Brought(r: Result<Detail>) {
      !Calling? && this.r == r
    }

    predicate BroughtOk() {
      !Calling? && r.Ok?
    }
  }

  datatype Main =
    | Select(i: nat)              // waiting for a token or for the context
    | Add(i: nat)                 // has the token
    | Spawn(i: nat)               // has called wg.Add
    | WaitAll(gaveUp: bool)
    | Returned(gaveUp: bool, error: Option<Error>)

  /** One preset: its cache, its mutex and the GetPreset requests sent for it. */
  datatype Slot = Slot(cache: Cache, mu: Option<Who>, asked: nat)

  datatype State = State(
    ctxErr: Option<Error>, main: Main, sem: nat, wg: nat, workers: seq<Stage>, first: Option<Error>,
    slots: seq<Slot>, calls: map<Who, InCall>, failures: nat, records: seq<nat>)
  {
    function At(w: Who): InCall {
      if w in calls then calls[w] else Idle
    }

    function Move(w: Who, c: InCall): State {
      this.(calls := calls[w := c])
    }

    function Keep(p: nat, s: Slot): State
      requires p < |slots|
    {
      this.(slots := slots[p := s])
    }

    function Advance(i: nat, s: Stage): State
      requires i < |workers|
    {
      this.(workers := workers[i := s])
    }
  }

  function Initial(n: nat): State {
    State(None, if n == 0 then WaitAll(false) else Select(0), 0, 0, [], None,
          seq(n, i => Slot(FRESH, None, 0)), map[], 0, [])
  }

  datatype Action =
    | EndContext(e: Error)
    | TakeToken
    | GiveUp
    | AddOne
    | StartWorker
    | JoinAll
    | CallDetail(k: nat, p: nat)
    | Lock(w: Who)
    | Look(w: Who)
    | Answer(w: Who, r: Result<Detail>)
    | Unlock(w: Who)
    | Record(i: nat)
    | Release(i: nat)
    | WgDone(i: nat)

  predicate Enabled(s: State, a: Action) {
    match a
    case EndContext(_) => s.ctxErr.None? && !s.main.Returned?
    case TakeToken => s.main.Select? && s.sem < MAX_PARALLEL
    case GiveUp => s.main.Select? && s.ctxErr.Some?
    case AddOne => s.main.Add?
    case StartWorker => s.main.Spawn?
    case JoinAll => s.main.WaitAll? && s.wg == 0
    case CallDetail(k, p) => s.At(Outside(k)).Idle? && p < |s.slots|
    case Lock(w) => s.At(w).Entering? && s.At(w).p < |s.slots| && s.slots[s.At(w).p].mu.None?
    case Look(w) => s.At(w).Inside? && s.At(w).p < |s.slots|
    case Answer(w, _) => s.At(w).Asking? && s.At(w).p < |s.slots|
    case Unlock(w) => s.At(w).Leaving? && s.At(w).p < |s.slots| && (w.Worker? ==> w.i < |s.workers|)
    case Record(i) => i < |s.workers| && s.workers[i].Ended?
    case Release(i) => i < |s.workers| && s.workers[i].Recorded? && s.sem > 0
    case WgDone(i) => i < |s.workers| && s.workers[i].Released? && s.wg > 0
  }

  function Next(s: State, a: Action): State
    requires Enabled(s, a)
  {
    match a
    case EndContext(e) => s.(ctxErr := Some(e))
    case TakeToken => s.(sem := s.sem + 1, main := Add(s.main.i))
    case GiveUp => s.(main := WaitAll(true))
    case AddOne => s.(wg := s.wg + 1, main := Spawn(s.main.i))
    case StartWorker =>
      var i := s.main.i;
      s.(workers := s.workers + [Calling], main := if i + 1 < |s.slots| then Select(i + 1) else WaitAll(false))
      .Move(Worker(i), Entering(i))
    case JoinAll =>
      s.(main := Returned(s.main.gaveUp, if !s.main.gaveUp && s.first.Some? then s.first else s.ctxErr))
    case CallDetail(k, p) => s.Move(Outside(k), Entering(p))
    case Lock(w) =>
      var p := s.At(w).p;
      s.Keep(p, s.slots[p].(mu := Some(w))).Move(w, Inside(p))
    case Look(w) =>
      var p := s.At(w).p;
      var slot := s.slots[p];
      if slot.cache.loaded then
        var c := DetailCall(slot.cache, Err(Canceled));
        s.Keep(p, slot.(cache := c.left)).Move(w, Leaving(p, c.answer))
      else
        s.Keep(p, slot.(asked := slot.asked + 1)).Move(w, Asking(p))
    case Answer(w, r) =>
      var p := s.At(w).p;
      var slot := s.slots[p];
      s.(failures := s.failures + if r.Err? then 1 else 0)
      .Keep(p, slot.(cache := DetailCall(slot.cache, r).left)).Move(w, Leaving(p, r))
    case Unlock(w) =>
      var c := s.At(w);
      var s' := s.Keep(c.p, s.slots[c.p].(mu := None)).Move(w, Idle);
      if w.Worker? then s'.Advance(w.i, Ended(c.r)) else s'
    case Record(i) =>
      var r := s.workers[i].r;
      s.(first := if r.Err? && s.first.None? then Some(r.error) else s.first, records := s.records + [i])
      .Advance(i, Recorded(r))
    case Release(i) => s.(sem := s.sem - 1).Advance(i, Released(s.workers[i].r))
    case WgDone(i) => s.(wg := s.wg - 1).Advance(i, Gone(s.workers[i].r))
  }

  predicate Possible(n: nat, run: seq<Action>)
    decreases |run|, 0
  {
    run == [] || (Possible(n, run[..|run| - 1]) && Enabled(After(n, run[..|run| - 1]), run[|run| - 1]))
  }

  function After(n: nat, run: seq<Action>): State
    requires Possible(n, run)
    decreases |run|, 1
  {
    if run == [] then Initial(n) else Next(After(n, run[..|run| - 1]), run[|run| - 1])
  }

  // ------------------------------------------------------------------ counting goroutines

  /** How many goroutines hold a token. */
  function Tokens(ws: seq<Stage>): nat {
    if ws == [] then 0 else Tokens(ws[..|ws| - 1]) + if ws[|ws| - 1].HasToken() then 1 else 0
  }

  /** How many have not called wg.Done. */
  function Alive(ws: seq<Stage>): nat {
    if ws == [] then 0 else Alive(ws[..|ws| - 1]) + if ws[|ws| - 1].Gone? then 0 else 1
  }

  /** How many are in their Detail call. */
  function InFlight(ws: seq<Stage>): nat {
    if ws == [] then 0 else InFlight(ws[..|ws| - 1]) + if ws[|ws| - 1].Calling? then 1 else 0
  }

  lemma {:induction false} CountsMove(ws: seq<Stage>, i: nat, st: Stage)
    requires i < |ws|
    ensures Tokens(ws[i := st]) == Tokens(ws) + (if st.HasToken() then 1 else 0) - (if ws[i].HasToken() then 1 else 0)
    ensures Alive(ws[i := st]) == Alive(ws) + (if st.Gone? then 0 else 1) - (if ws[i].Gone? then 0 else 1)
  {
    var ws', n := ws[i := st], |ws| - 1;
    if i == n {
      assert ws'[..n] == ws[..n];
    } else {
      assert ws'[..n] == ws[..n][i := st];
      CountsMove(ws[..n], i, st);
    }
  }

  lemma CountsGrow(ws: seq<Stage>)
    ensures Tokens(ws + [Calling]) == Tokens(ws) + 1 && Alive(ws + [Calling]) == Alive(ws) + 1
  {
    assert (ws + [Calling])[..|ws|] == ws;
  }

  lemma {:induction false} NobodyAlive(ws: seq<Stage>)
    requires Alive(ws) == 0
    ensures forall i | 0 <= i < |ws| :: ws[i].Gone?
  {
    if ws != [] {
      NobodyAlive(ws[..|ws| - 1]);
      assert forall i | 0 <= i < |ws| - 1 :: ws[i] == ws[..|ws| - 1][i];
    }
  }

  lemma {:induction false} SomebodyAlive(ws: seq<Stage>, tokens: bool) returns (i: nat)
    requires if tokens then Tokens(ws) > 0 else Alive(ws) > 0
    ensures i < |ws| && !ws[i].Gone? && (tokens ==> ws[i].HasToken())
  {
    i := |ws| - 1;
    if ws[i].Gone? || (tokens && !ws[i].HasToken()) {
      i := SomebodyAlive(ws[..i], tokens);
    }
  }

  lemma {:induction false} CallsHoldTokens(ws: seq<Stage>)
    ensures InFlight(ws) <= Tokens(ws)
  {
    if ws != [] {
      CallsHoldTokens(ws[..|ws| - 1]);
    }
  }

  lemma {:induction false} HolderCounts(ws: seq<Stage>, i: nat)
    requires i < |ws|
    ensures ws[i].HasToken() ==> Tokens(ws) > 0
    ensures !ws[i].Gone? ==> Alive(ws) > 0
  {
    if i < |ws| - 1 {
      HolderCounts(ws[..|ws| - 1], i);
    }
  }

  // ------------------------------------------------------------------ the invariant

  /** The semaphore and the wait group count what they are meant to count. */
  ghost predicate Counted(s: State) {
    && s.sem == Tokens(s.workers) + (if s.main.Add? || s.main.Spawn? then 1 else 0)
    && s.sem <= MAX_PARALLEL
    && s.wg == Alive(s.workers) + (if s.main.Spawn? then 1 else 0)
  }

  /** How far the loop is. */
  predicate Progress(s: State) {
    match s.main
    case Select(i) => i == |s.workers| < |s.slots|
    case Add(i) => i == |s.workers| < |s.slots|
    case Spawn(i) => i == |s.workers| < |s.slots|
    case WaitAll(gaveUp) => |s.workers| <= |s.slots| && (if gaveUp then s.ctxErr.Some? else |s.workers| == |s.slots|)
    case Returned(gaveUp, e) =>
      && (forall i | 0 <= i < |s.workers| :: s.workers[i].Gone?)
      && |s.workers| <= |s.slots|
      && if gaveUp then s.ctxErr.Some? && e == s.ctxErr
         else |s.workers| == |s.slots| && e == if s.first.Some? then s.first else s.ctxErr
  }

  /** The k-th goroutine to look at `first` was the first of them to bring an error, this one. */
  ghost predicate FirstFailure(s: State, k: nat, e: Error) {
    && k < |s.records| && s.records[k] < |s.workers| && s.workers[s.records[k]].Brought(Err(e))
    && forall j | 0 <= j < k :: s.records[j] < |s.workers| && s.workers[s.records[j]].BroughtOk()
  }

  /** `first` is the first error recorded, and everybody past recording has been recorded. */
  ghost predicate Recorders(s: State) {
    && (forall i | i in s.records :: i < |s.workers| && !s.workers[i].Calling? && !s.workers[i].Ended?)
    && (forall i: nat | i < |s.workers| && !s.workers[i].Calling? && !s.workers[i].Ended? :: i in s.records)
    && (match s.first
        case None =>
          forall k | 0 <= k < |s.records| :: s.records[k] < |s.workers| && s.workers[s.records[k]].BroughtOk()
        case Some(e) => exists k: nat :: FirstFailure(s, k, e))
  }

  /** No recorded failure is lost. */
  predicate Noted(s: State) {
    s.first.None? ==>
      forall i | 0 <= i < |s.workers| :: s.workers[i].Calling? || s.workers[i].Ended? || s.workers[i].r.Ok?
  }

  /** One goroutine at a time in each preset; a pool goroutine is in its own preset's call. */
  ghost predicate Located(s: State, w: Who) {
    var c := s.At(w);
    && (!c.Idle? ==> c.p < |s.slots|)
    && (forall p | 0 <= p < |s.slots| :: s.slots[p].mu == Some(w) <==> c.Holds(p))
    && (w.Worker? ==> (!c.Idle? <==> w.i < |s.workers| && s.workers[w.i].Calling?) && (!c.Idle? ==> c.p == w.i))
  }

  /** While no fetch has failed, a preset is asked for once and its cache is never in doubt. */
  predicate Sparing(s: State, p: nat)
    requires p < |s.slots|
  {
    var slot := s.slots[p];
    s.failures == 0 ==>
      && slot.cache.loadErr.None?
      && slot.asked == (if slot.cache.loaded || (slot.mu.Some? && s.At(slot.mu.value) == Asking(p)) then 1 else 0)
      && (slot.mu.Some? && s.At(slot.mu.value) == Asking(p) ==> !slot.cache.loaded)
      && (slot.mu.Some? && s.At(slot.mu.value).Leaving? ==> s.At(slot.mu.value).r.Ok? && slot.cache.loaded)
  }

  /** While no fetch has failed, a finished pool goroutine has brought a detail, and its preset's cache holds
      one. */
  predicate Warm(s: State, i: nat)
    requires i < |s.workers|
  {
    s.failures == 0 && !s.workers[i].Calling? ==> s.workers[i].r.Ok? && i < |s.slots| && s.slots[i].cache.loaded
  }

  ghost predicate Inv(s: State) {
    && Counted(s) && Progress(s) && Noted(s) && Recorders(s)
    && (forall i: nat | i < |s.workers| :: Warm(s, i))
    && (forall w: Who :: Located(s, w))
    && (forall p | 0 <= p < |s.slots| :: Sparing(s, p))
  }

  /** A step inside some goroutine's Detail call. */
  predicate InDetail(a: Action) {
    a.Lock? || a.Look? || a.Answer? || a.Unlock?
  }

  /** A pool goroutine cleaning up after its call. */
  predicate CleansUp(a: Action) {
    a.Record? || a.Release? || a.WgDone?
  }

  lemma CountedByCleanup(s: State, a: Action)
    requires Counted(s) && Enabled(s, a) && CleansUp(a)
    ensures Counted(Next(s, a))
  {
    CountsMove(s.workers, a.i, Next(s, a).workers[a.i]);
  }

  lemma CountedByDetail(s: State, a: Action)
    requires Counted(s) && Enabled(s, a) && InDetail(a)
    requires a.Unlock? && a.w.Worker? ==> s.workers[a.w.i].Calling?
    ensures Counted(Next(s, a))
  {
    if a.Unlock? && a.w.Worker? {
      CountsMove(s.workers, a.w.i, Ended(s.At(a.w).r));
    }
  }

  lemma CountedKept(s: State, a: Action)
    requires Counted(s) && Enabled(s, a)
    requires a.Unlock? && a.w.Worker? ==> s.workers[a.w.i].Calling?
    ensures Counted(Next(s, a))
  {
    if CleansUp(a) {
      CountedByCleanup(s, a);
    } else if InDetail(a) {
      CountedByDetail(s, a);
    } else if a.StartWorker? {
      CountsGrow(s.workers);
    }
  }

  lemma ProgressKept(s: State, a: Action)
    requires Counted(s) && Progress(s) && Noted(s) && Enabled(s, a)
    requires a.Unlock? && a.w.Worker? ==> s.workers[a.w.i].Calling?
    ensures Progress(Next(s, a)) && Noted(Next(s, a))
  {
    if a.JoinAll? {
      NobodyAlive(s.workers);
    }
  }

  /** A step that moves neither `w` nor any mutex. */
  lemma LocatedElsewhere(s: State, s': State, w: Who)
    requires Located(s, w) && s'.At(w) == s.At(w) && |s'.slots| == |s.slots|
    requires forall p | 0 <= p < |s.slots| :: s'.slots[p].mu == s.slots[p].mu
    requires w.Worker? ==>
               (w.i < |s'.workers| && s'.workers[w.i].Calling? <==> w.i < |s.workers| && s.workers[w.i].Calling?)
    ensures Located(s', w)
  {
  }

  /** `w` itself moves inside its call. */
  lemma LocatedInside(s: State, a: Action)
    requires Progress(s) && Enabled(s, a) && InDetail(a) && Located(s, a.w)
    ensures Located(Next(s, a), a.w)
  {
    var s', q := Next(s, a), s.At(a.w).p;
    forall p | 0 <= p < |s.slots| && p != q
      ensures s'.slots[p].mu == s.slots[p].mu
    {
    }
  }

  /** Somebody else moves inside a call. */
  lemma LocatedBeside(s: State, a: Action, w: Who)
    requires Progress(s) && Enabled(s, a) && InDetail(a) && a.w != w && Located(s, a.w) && Located(s, w)
    ensures Located(Next(s, a), w)
  {
    var s', q := Next(s, a), s.At(a.w).p;
    assert s'.At(w) == s.At(w);
    forall p | 0 <= p < |s.slots| && p != q
      ensures s'.slots[p].mu == s.slots[p].mu
    {
    }
  }

  lemma LocatedKept(s: State, a: Action, w: Who)
    requires Progress(s) && Enabled(s, a) && Located(s, w)
    requires InDetail(a) ==> Located(s, a.w)
    ensures Located(Next(s, a), w)
  {
    var s' := Next(s, a);
    if InDetail(a) {
      if a.w == w {
        LocatedInside(s, a);
      } else {
        LocatedBeside(s, a, w);
      }
    } else if s'.At(w) == s.At(w) {
      LocatedElsewhere(s, s', w);
    }
  }

  lemma SparingKept(s: State, a: Action, p: nat)
    requires p < |s.slots| && Sparing(s, p) && Enabled(s, a)
    requires s.slots[p].mu.Some? ==> s.At(s.slots[p].mu.value).Holds(p)
    requires InDetail(a) ==> Located(s, a.w)
    requires a.StartWorker? ==> s.At(Worker(s.main.i)).Idle?
    ensures Sparing(Next(s, a), p)
  {
  }

  /** How a step changes what the goroutines brought: it stays. */
  lemma BroughtStays(s: State, a: Action, i: nat)
    requires Enabled(s, a) && i < |s.workers| && !s.workers[i].Calling?
    requires a.Unlock? && a.w.Worker? ==> s.workers[a.w.i].Calling?
    ensures i < |Next(s, a).workers| && Next(s, a).workers[i].Brought(s.workers[i].r)
  {
  }

  lemma FirstFailureStays(s: State, a: Action, k: nat, e: Error)
    requires FirstFailure(s, k, e) && Recorders(s) && Enabled(s, a)
    requires a.Unlock? && a.w.Worker? ==> s.workers[a.w.i].Calling?
    ensures FirstFailure(Next(s, a), k, e)
  {
    var s' := Next(s, a);
    forall j | 0 <= j <= k
      ensures s'.records[j] == s.records[j] && s'.workers[s.records[j]].Brought(s.workers[s.records[j]].r)
    {
      assert s.records[j] in s.records;
      BroughtStays(s, a, s.records[j]);
    }
  }

  lemma RecordersKept(s: State, a: Action)
    requires Recorders(s) && Enabled(s, a)
    requires a.Unlock? && a.w.Worker? ==> s.workers[a.w.i].Calling?
    ensures Recorders(Next(s, a))
  {
    var s' := Next(s, a);
    if a.Record? {
      RecordOneMore(s, a.i);
    } else {
      forall i | i in s.records ensures i < |s'.workers| && s'.workers[i].Brought(s.workers[i].r) {
        BroughtStays(s, a, i);
      }
      if s.first.Some? {
        var k: nat :| FirstFailure(s, k, s.first.value);
        FirstFailureStays(s, a, k, s.first.value);
      }
    }
  }

  lemma RecordOneMore(s: State, i: nat)
    requires Recorders(s) && Enabled(s, Record(i))
    ensures Recorders(Next(s, Record(i)))
  {
    var s' := Next(s, Record(i));
    var n := |s.records|;
    if s.first.Some? {
      var k: nat :| FirstFailure(s, k, s.first.value);
      assert FirstFailure(s', k, s.first.value);
    } else if s.workers[i].r.Err? {
      assert FirstFailure(s', n, s.workers[i].r.error);
    }
  }

  lemma WarmKept(s: State, a: Action, i: nat)
    requires Enabled(s, a) && i < |Next(s, a).workers| && Progress(s)
    requires i < |s.workers| ==> Warm(s, i)
    requires forall p | 0 <= p < |s.slots| :: Sparing(s, p)
    requires InDetail(a) ==> Located(s, a.w)
    ensures Warm(Next(s, a), i)
  {
    if InDetail(a) {
      assert Sparing(s, s.At(a.w).p);
    }
  }

  lemma StepKeepsInv(s: State, a: Action)
    requires Inv(s) && Enabled(s, a)
    ensures Inv(Next(s, a))
  {
    var s' := Next(s, a);
    if InDetail(a) {
      assert Located(s, a.w);
    }
    if a.StartWorker? {
      assert Located(s, Worker(s.main.i));
    }
    CountedKept(s, a);
    ProgressKept(s, a);
    forall w: Who ensures Located(s', w) {
      assert Located(s, w);
      LocatedKept(s, a, w);
    }
    forall p | 0 <= p < |s'.slots| ensures Sparing(s', p) {
      assert Sparing(s, p);
      if s.slots[p].mu.Some? {
        assert Located(s, s.slots[p].mu.value);
      }
      SparingKept(s, a, p);
    }
    RecordersKept(s, a);
    forall i: nat | i < |s'.workers| ensures Warm(s', i) {
      WarmKept(s, a, i);
    }
  }

  lemma {:induction false} RunsKeepInv(n: nat, run: seq<Action>)
    requires Possible(n, run)
    ensures Inv(After(n, run)) && |After(n, run).slots| == n
  {
    if run != [] {
      RunsKeepInv(n, run[..|run| - 1]);
      StepKeepsInv(After(n, run[..|run| - 1]), run[|run| - 1]);
    }
  }

  // ------------------------------------------------------------------ what every run promises

  /** However many presets there are and whatever else calls Detail, at most 8 of the pool's calls are
      in flight. */
  lemma AtMostEightInFlight(n: nat, run: seq<Action>)
    requires Possible(n, run)
    ensures InFlight(After(n, run).workers) <= 8
  {
    RunsKeepInv(n, run);
    CallsHoldTokens(After(n, run).workers);
  }

  /** When LoadAllDetails returns, every goroutine it started is gone; and it returns nil only if it
      started one for every preset and each one's Detail call succeeded. */
  lemma ReturnsAfterAll(n: nat, run: seq<Action>, i: nat)
    requires Possible(n, run) && After(n, run).main.Returned?
    ensures var s := After(n, run);
            && (i < |s.workers| ==> s.workers[i].Gone?)
            && (s.main.error.None? && i < n ==> i < |s.workers| && s.workers[i].r.Ok?)
  {
    RunsKeepInv(n, run);
  }

  /** What LoadAllDetails returns, in every run: nil exactly when the context is alive and every preset's
      Detail call succeeded; otherwise the context's error or that of some goroutine. */
  lemma NilIff(n: nat, run: seq<Action>)
    requires Possible(n, run) && After(n, run).main.Returned?
    ensures var s := After(n, run);
            && (s.main.error.None? <==>
                  s.ctxErr.None? && |s.workers| == n && forall i: nat | i < n :: s.workers[i].BroughtOk())
            && (s.main.error.Some? ==>
                  s.main.error == s.ctxErr
                  || exists i: nat :: i < |s.workers| && s.workers[i].Brought(Err(s.main.error.value)))
  {
    RunsKeepInv(n, run);
    var s := After(n, run);
    assert Progress(s) && Recorders(s);
    if s.first.Some? {
      var k: nat :| FirstFailure(s, k, s.first.value);
      assert s.workers[s.records[k]].Brought(Err(s.first.value));
    } else {
      forall i: nat | i < |s.workers| ensures s.workers[i].BroughtOk() {
        assert s.workers[i].Gone? && i in s.records;
        var k :| 0 <= k < |s.records| && s.records[k] == i;
      }
    }
  }

  /** When the loop was not given up, the error is that of the goroutine that recorded one first, if any
      did, and the context's otherwise; when it was, it is the context's. */
  lemma FirstErrorWins(n: nat, run: seq<Action>)
    requires Possible(n, run) && After(n, run).main.Returned?
    ensures var s := After(n, run);
            if s.main.gaveUp then s.main.error == s.ctxErr && s.ctxErr.Some?
            else if exists i: nat :: i < |s.workers| && !s.workers[i].BroughtOk()
            then s.main.error.Some? && exists k: nat :: FirstFailure(s, k, s.main.error.value)
            else s.main.error == s.ctxErr
  {
    RunsKeepInv(n, run);
    var s := After(n, run);
    assert Progress(s) && Recorders(s);
    if s.first.Some? {
      var k: nat :| FirstFailure(s, k, s.first.value);
    } else {
      forall i: nat | i < |s.workers| ensures s.workers[i].BroughtOk() {
        assert s.workers[i].Gone? && i in s.records;
        var k :| 0 <= k < |s.records| && s.records[k] == i;
      }
    }
  }

  /** While no fetch fails and the context lives, it returns nil, with every preset's detail in its cache and
      asked for exactly once. */
  lemma WarmsEveryCache(n: nat, run: seq<Action>, p: nat)
    requires Possible(n, run) && After(n, run).main.Returned? && p < n
    requires After(n, run).failures == 0 && After(n, run).ctxErr.None?
    ensures var s := After(n, run);
            && s.main.error.None?
            && p < |s.slots| && s.slots[p].cache.loaded && s.slots[p].cache.loadErr.None? && s.slots[p].asked == 1
  {
    RunsKeepInv(n, run);
    var s := After(n, run);
    assert Progress(s);
    forall i: nat | i < |s.workers| ensures s.workers[i].BroughtOk() && s.slots[i].cache.loaded {
      assert Warm(s, i) && s.workers[i].Gone?;
    }
    NilIff(n, run);
    assert Sparing(s, p);
  }

  /** No presets, or all of them fine, and a live context: nil. */
  lemma EmptyPoolReturnsNil()
    ensures Possible(0, [JoinAll]) && After(0, [JoinAll]).main == Returned(false, None)
  {
    assert [JoinAll][..0] == [];
  }

  /** In runs where no fetch fails, every preset is asked for at most once, whoever calls Detail. */
  lemma AtMostOneRequestEach(n: nat, run: seq<Action>, p: nat)
    requires Possible(n, run) && After(n, run).failures == 0 && p < n
    ensures p < |After(n, run).slots| && After(n, run).slots[p].asked <= 1
  {
    RunsKeepInv(n, run);
    assert Sparing(After(n, run), p);
  }

  /** A goroutine inside a Detail call can move, or the one that holds its preset can. */
  lemma CallerCanMove(s: State, w: Who) returns (a: Action)
    requires Inv(s) && !s.At(w).Idle?
    ensures Enabled(s, a) && InDetail(a)
  {
    assert Located(s, w);
    var p := s.At(w).p;
    var v := if s.At(w).Entering? && s.slots[p].mu.Some? then s.slots[p].mu.value else w;
    assert Located(s, v);
    match s.At(v)
    case Entering(_) => a := Lock(v);
    case Inside(_) => a := Look(v);
    case Asking(_) => a := Answer(v, Err(Canceled));
    case Leaving(_, _) => a := Unlock(v);
  }

  /** LoadAllDetails cannot deadlock: until it returns, something other than new calls and the end of
      the context can happen. */
  lemma NeverStuck(n: nat, run: seq<Action>) returns (a: Action)
    requires Possible(n, run) && !After(n, run).main.Returned?
    ensures Enabled(After(n, run), a) && !a.CallDetail? && !a.EndContext?
  {
    RunsKeepInv(n, run);
    var s := After(n, run);
    if s.main.Add? {
      a := AddOne;
    } else if s.main.Spawn? {
      a := StartWorker;
    } else if s.main.Select? && s.sem < MAX_PARALLEL {
      a := TakeToken;
    } else if s.main.WaitAll? && s.wg == 0 {
      a := JoinAll;
    } else {
      a := SomeWorkerCanMove(s);
    }
  }

  lemma SomeWorkerCanMove(s: State) returns (a: Action)
    requires Inv(s) && (s.main.Select? || s.main.WaitAll?)
    requires s.main.Select? ==> s.sem == MAX_PARALLEL
    requires s.main.WaitAll? ==> s.wg > 0
    ensures Enabled(s, a) && !a.CallDetail? && !a.EndContext?
  {
    var i := SomebodyAlive(s.workers, s.main.Select?);
    HolderCounts(s.workers, i);
    match s.workers[i]
    case Calling =>
      assert Located(s, Worker(i));
      a := CallerCanMove(s, Worker(i));
    case Ended(_) => a := Record(i);
    case Recorded(_) => a := Release(i);
    case Released(_) => a := WgDone(i);
  }

  // ------------------------------------------------------------------ termination

  /** The steps a Detail call has left. */
  function CallLeft(c: InCall): nat {
    match c
    case Idle => 0
    case Leaving(_, _) => 1
    case Asking(_) => 2
    case Inside(_) => 3
    case Entering(_) => 4
  }

  /** The steps a pool goroutine has left, those of its call aside. */
  function StageLeft(st: Stage): nat {
    match st
    case Calling => 3
    case Ended(_) => 3
    case Recorded(_) => 2
    case Released(_) => 1
    case Gone(_) => 0
  }

  function WorkersLeft(s: State, k: nat): nat
    requires k <= |s.workers|
  {
    if k == 0 then 0
    else WorkersLeft(s, k - 1) + StageLeft(s.workers[k - 1]) + CallLeft(s.At(Worker(k - 1)))
  }

  function OutsidersLeft(s: State, m: nat): nat {
    if m == 0 then 0 else OutsidersLeft(s, m - 1) + CallLeft(s.At(Outside(m - 1)))
  }

  /** Ten steps a preset: three for the loop, four for the call, three to clean up. */
  function MainLeft(s: State): int {
    match s.main
    case Select(i) => 10 * (|s.slots| - i) + 2
    case Add(i) => 10 * (|s.slots| - i) + 1
    case Spawn(i) => 10 * (|s.slots| - i)
    case WaitAll(_) => 1
    case Returned(_, _) => 0
  }

  /** All steps left, of the pool and of the outside callers below `m`. */
  function Left(s: State, m: nat): int {
    MainLeft(s) + WorkersLeft(s, |s.workers|) + OutsidersLeft(s, m)
  }

  /** Not a new call from outside and not the context's end. */
  predicate Finishing(a: Action, m: nat) {
    !a.EndContext? && !a.CallDetail? && (InDetail(a) && a.w.Outside? ==> a.w.k < m)
  }

  lemma {:induction false} WorkersFrame(s: State, s': State, k: nat, except: int)
    requires k <= |s.workers| && k <= |s'.workers|
    requires forall i: nat | i < k && i != except ::
               s'.workers[i] == s.workers[i] && s'.At(Worker(i)) == s.At(Worker(i))
    requires 0 <= except < k ==>
               StageLeft(s'.workers[except]) + CallLeft(s'.At(Worker(except)))
               < StageLeft(s.workers[except]) + CallLeft(s.At(Worker(except)))
    ensures if 0 <= except < k then WorkersLeft(s', k) < WorkersLeft(s, k) else WorkersLeft(s', k) == WorkersLeft(s, k)
  {
    if k > 0 {
      WorkersFrame(s, s', k - 1, except);
    }
  }

  lemma {:induction false} OutsidersFrame(s: State, s': State, m: nat, except: int)
    requires forall k: nat | k < m && k != except :: s'.At(Outside(k)) == s.At(Outside(k))
    requires 0 <= except < m ==> CallLeft(s'.At(Outside(except))) < CallLeft(s.At(Outside(except)))
    ensures if 0 <= except < m then OutsidersLeft(s', m) < OutsidersLeft(s, m)
            else OutsidersLeft(s', m) == OutsidersLeft(s, m)
  {
    if m > 0 {
      OutsidersFrame(s, s', m - 1, except);
    }
  }

  lemma MainStepSpends(s: State, a: Action, m: nat)
    requires Progress(s) && Enabled(s, a) && Finishing(a, m) && !InDetail(a) && !CleansUp(a)
    ensures Left(Next(s, a), m) < Left(s, m)
  {
    var s' := Next(s, a);
    WorkersFrame(s, s', |s.workers|, -1);
    OutsidersFrame(s, s', m, -1);
  }

  lemma DetailStepSpends(s: State, a: Action, m: nat)
    requires Enabled(s, a) && Finishing(a, m) && InDetail(a) && Located(s, a.w)
    ensures Left(Next(s, a), m) < Left(s, m)
  {
    var s' := Next(s, a);
    assert CallLeft(s'.At(a.w)) < CallLeft(s.At(a.w));
    WorkersFrame(s, s', |s.workers|, if a.w.Worker? then a.w.i else -1);
    OutsidersFrame(s, s', m, if a.w.Outside? then a.w.k else -1);
  }

  lemma CleanupSpends(s: State, a: Action, m: nat)
    requires Enabled(s, a) && CleansUp(a)
    ensures Left(Next(s, a), m) < Left(s, m)
  {
    var s' := Next(s, a);
    WorkersFrame(s, s', |s.workers|, a.i);
    OutsidersFrame(s, s', m, -1);
  }

  lemma StepSpends(s: State, a: Action, m: nat)
    requires Inv(s) && Enabled(s, a) && Finishing(a, m)
    ensures Left(Next(s, a), m) < Left(s, m)
  {
    if InDetail(a) {
      assert Located(s, a.w);
      DetailStepSpends(s, a, m);
    } else if CleansUp(a) {
      CleanupSpends(s, a, m);
    } else {
      MainStepSpends(s, a, m);
    }
  }

  lemma LastStepSpends(n: nat, run: seq<Action>, m: nat)
    requires Possible(n, run) && run != [] && Finishing(run[|run| - 1], m)
    ensures 0 <= Left(After(n, run), m) < Left(After(n, run[..|run| - 1]), m)
  {
    RunsKeepInv(n, run);
    RunsKeepInv(n, run[..|run| - 1]);
    StepSpends(After(n, run[..|run| - 1]), run[|run| - 1], m);
  }

  /** LoadAllDetails ends under every scheduler: once, after `k` steps, no new calls come from outside,
      only so many more steps can happen. */
  lemma {:induction false} EveryScheduleEnds(n: nat, run: seq<Action>, k: nat, m: nat)
    requires Possible(n, run) && k <= |run| && Possible(n, run[..k])
    requires forall i | k <= i < |run| :: Finishing(run[i], m)
    ensures |run| - k <= Left(After(n, run[..k]), m) - Left(After(n, run), m)
  {
    if k == |run| {
      assert run[..k] == run;
    } else {
      var init := run[..|run| - 1];
      assert init[..k] == run[..k];
      LastStepSpends(n, run, m);
      EveryScheduleEnds(n, init, k, m);
    }
  }

  lemma AtFirst(n: nat)
    ensures Possible(n, []) && Left(After(n, []), 0) <= 10 * n + 2
  {
  }

  /** With nobody else about, a whole run over n presets is at most 10 n + 2 steps long. */
  lemma TenStepsAPreset(n: nat, run: seq<Action>)
    requires Possible(n, run) && forall i | 0 <= i < |run| :: Finishing(run[i], 0)
    ensures |run| <= 10 * n + 2
  {
    AtFirst(n);
    assert run[..0] == [];
    EveryScheduleEnds(n, run, 0, 0);
    if run != [] {
      LastStepSpends(n, run, 0);
    }
  }
}
