/** workflows/scans/compare.go, fetchScansConcurrent: two fetches race under one cancellable context,
    the first error wins and cancels the other. */
module CompareFetch {
  import opened Errors

  datatype Side = Old | New

  /** Why a fetch failed: by itself, because the caller's context ended, or because the other one's
      failure cancelled the shared context. */
  datatype Cause = Own(e: Error) | ParentEnded | SiblingFailed

  datatype Worker<T> =
    | Fetching
    | Failed(c: Cause)        // about to lock firstErrMu
    | Holding(c: Cause)       // holds firstErrMu, firstErr not looked at yet
    | Wrote(c: Cause)         // has set firstErr, about to call cancel
    | Leaving(c: Cause)       // about to unlock
    | DoneOk(list: T)         // result stored, wg.Done called
    | DoneErr(c: Cause)
  {
    predicate Done() {
      DoneOk? || DoneErr?
    }

    /** The result variable this worker writes. */
    function Result(): Option<T> {
      if DoneOk? then Some(list) else None
    }

    predicate InLock() {
      Holding? || Wrote? || Leaving?
    }
  }

  /** The two result variables, nil where nothing was stored, or the first error. */
  datatype Outcome<T> = Both(was: Option<T>, now: Option<T>) | Error(c: Cause)

  datatype State<T> = State(
    was: Worker<T>, now: Worker<T>, lock: Option<Side>, firstErr: Option<Cause>,
    cancelled: bool, parentEnded: bool, returned: Option<Outcome<T>>)
  {
    function Of(s: Side): Worker<T> {
      if s.Old? then was else now
    }

    function With(s: Side, w: Worker<T>): State<T> {
      if s.Old? then this.(was := w) else this.(now := w)
    }
  }

  function Initial<T>(): State<T> {
    State(Fetching, Fetching, None, None, false, false, None)
  }

  datatype Action<T> =
    | Succeed(s: Side, list: T)
    | Fail(s: Side, c: Cause)
    | Lock(s: Side)
    | Look(s: Side)
    | Cancel(s: Side)
    | Unlock(s: Side)
    | EndParent
    | Join                      // wg.Wait returns and fetchScansConcurrent with it

  predicate Enabled<T>(st: State<T>, a: Action<T>) {
    match a
    case Succeed(s, _) => st.Of(s).Fetching?
    case Fail(s, c) => st.Of(s).Fetching? && (c.ParentEnded? ==> st.parentEnded) && (c.SiblingFailed? ==> st.cancelled)
    case Lock(s) => st.Of(s).Failed? && st.lock.None?
    case Look(s) => st.Of(s).Holding?
    case Cancel(s) => st.Of(s).Wrote?
    case Unlock(s) => st.Of(s).Leaving?
    case EndParent => true
    case Join => st.was.Done() && st.now.Done() && st.returned.None?
  }

  function Next<T>(st: State<T>, a: Action<T>): State<T>
    requires Enabled(st, a)
  {
    match a
    case Succeed(s, list) => st.With(s, DoneOk(list))
    case Fail(s, c) => st.With(s, Failed(c))
    case Lock(s) => st.(lock := Some(s)).With(s, Holding(st.Of(s).c))
    case Look(s) =>
      var c := st.Of(s).c;
      if st.firstErr.None? then st.(firstErr := Some(c)).With(s, Wrote(c)) else st.With(s, Leaving(c))
    case Cancel(s) => st.(cancelled := true).With(s, Leaving(st.Of(s).c))
    case Unlock(s) => st.(lock := None).With(s, DoneErr(st.Of(s).c))
    case EndParent => st.(parentEnded := true)
    case Join =>
      st.(returned := Some(
        if st.firstErr.Some? then Error(st.firstErr.value)
        else Both(st.was.Result(), st.now.Result())))
  }

  predicate Possible<T>(run: seq<Action<T>>)
    decreases |run|, 0
  {
    run == [] || (Possible(run[..|run| - 1]) && Enabled(After(run[..|run| - 1]), run[|run| - 1]))
  }

  function After<T>(run: seq<Action<T>>): State<T>
    requires Possible(run)
    decreases |run|, 1
  {
    if run == [] then Initial() else Next(After(run[..|run| - 1]), run[|run| - 1])
  }

  predicate Blames<T>(w: Worker<T>, c: Cause) {
    !w.Fetching? && !w.DoneOk? && w.c == c
  }

  ghost predicate WorkerOk<T>(st: State<T>, s: Side) {
    var w := st.Of(s);
    && (w.InLock() <==> st.lock == Some(s))
    && (w.Wrote? || w.Leaving? || w.DoneErr? ==> st.firstErr.Some?)
    && (Blames(w, SiblingFailed) ==> st.cancelled)
    && (w.Wrote? ==> st.firstErr == Some(w.c))
  }

  /** The first error is somebody's own or the caller's. */
  ghost predicate Genuine<T>(st: State<T>) {
    st.firstErr.Some? ==> st.firstErr.value != SiblingFailed && exists s: Side :: Blames(st.Of(s), st.firstErr.value)
  }

  ghost predicate Inv<T>(st: State<T>) {
    && WorkerOk(st, Old) && WorkerOk(st, New)
    && (st.cancelled ==> st.firstErr.Some?)
    && Genuine(st)
    && (st.firstErr.Some? && !st.was.Wrote? && !st.now.Wrote? ==> st.cancelled)
    && (st.returned.Some? ==>
          && st.was.Done() && st.now.Done()
          && (match st.returned.value
              case Both(o, n) => st.was.DoneOk? && st.now.DoneOk? && o == Some(st.was.list) && n == Some(st.now.list)
              case Error(c) => st.firstErr == Some(c)))
  }

  lemma WorkersKept<T>(st: State<T>, a: Action<T>, s: Side)
    requires Inv(st) && Enabled(st, a)
    ensures WorkerOk(Next(st, a), s)
  {
    assert WorkerOk(st, s) && (a.Lock? || a.Look? || a.Cancel? || a.Unlock? ==> WorkerOk(st, a.s));
  }

  lemma GenuineKept<T>(st: State<T>, a: Action<T>)
    requires Inv(st) && Enabled(st, a)
    ensures Genuine(Next(st, a))
  {
    var st' := Next(st, a);
    if st'.firstErr.Some? {
      var s := if st.firstErr.Some? then (if Blames(st.was, st.firstErr.value) then Old else New) else a.s;
      assert Blames(st'.Of(s), st'.firstErr.value);
    }
  }

  lemma StepKeepsInv<T>(st: State<T>, a: Action<T>)
    requires Inv(st) && Enabled(st, a)
    ensures Inv(Next(st, a))
  {
    WorkersKept(st, a, Old);
    WorkersKept(st, a, New);
    GenuineKept(st, a);
  }

  lemma {:induction false} RunsKeepInv<T>(run: seq<Action<T>>)
    requires Possible(run)
    ensures Inv(After(run))
  {
    if run != [] {
      RunsKeepInv(run[..|run| - 1]);
      StepKeepsInv(After(run[..|run| - 1]), run[|run| - 1]);
    }
  }

  /** In every interleaving: when the call returns both goroutines have ended; it returns both lists
      exactly when both fetches succeeded; and the error it returns is one a fetch really met, never the
      one the internal cancel provoked in the other. */
  lemma FirstErrorIsGenuine<T>(run: seq<Action<T>>)
    requires Possible(run) && After(run).returned.Some?
    ensures var st := After(run);
            && st.was.Done() && st.now.Done()
            && (st.returned.value.Both? <==> st.was.DoneOk? && st.now.DoneOk?)
            && (st.returned.value.Both? ==> st.returned.value == Both(Some(st.was.list), Some(st.now.list)))
            && (st.returned.value.Error? ==>
                  var c := st.returned.value.c;
                  c != SiblingFailed && (st.was == DoneErr(c) || st.now == DoneErr(c)))
  {
    RunsKeepInv(run);
    var st := After(run);
    if st.returned.value.Error? {
      var s: Side :| Blames(st.Of(s), st.firstErr.value);
      assert st.Of(s) == DoneErr(st.firstErr.value);
    }
  }

  /** Once the first error is recorded and its goroutine has left the lock, the other fetch's context is
      cancelled; nothing else ever cancels it. */
  lemma FirstErrorCancels<T>(run: seq<Action<T>>)
    requires Possible(run)
    ensures var st := After(run);
            && (st.cancelled ==> st.firstErr.Some?)
            && (st.firstErr.Some? && st.lock.None? ==> st.cancelled)
            && (st.returned.Some? && st.returned.value.Error? ==> st.cancelled)
  {
    RunsKeepInv(run);
    var st := After(run);
    assert WorkerOk(st, Old) && WorkerOk(st, New);
  }

  /** Until it returns, something can happen that is not the caller's context ending. */
  lemma SomebodyCanMove<T>(run: seq<Action<T>>) returns (a: Action<T>)
    requires Possible(run) && After(run).returned.None?
    ensures Enabled(After(run), a) && !a.EndParent?
  {
    RunsKeepInv(run);
    var st := After(run);
    var s := if st.lock.Some? then st.lock.value else if st.was.Done() then New else Old;
    match st.Of(s)
    case Fetching => a := Fail(s, Own(Canceled));
    case Failed(_) => a := Lock(s);
    case Holding(_) => a := Look(s);
    case Wrote(_) => a := Cancel(s);
    case Leaving(_) => a := Unlock(s);
    case DoneOk(_) => a := Join;
    case DoneErr(_) => a := Join;
  }

  /** The steps a goroutine has left. */
  function WorkerLeft<T>(w: Worker<T>): nat {
    match w
    case Fetching => 5
    case Failed(_) => 4
    case Holding(_) => 3
    case Wrote(_) => 2
    case Leaving(_) => 1
    case DoneOk(_) => 0
    case DoneErr(_) => 0
  }

  function Left<T>(st: State<T>): nat {
    WorkerLeft(st.was) + WorkerLeft(st.now) + if st.returned.None? then 1 else 0
  }

  /** The steps of a run, the end of the caller's context aside. */
  function Steps<T>(run: seq<Action<T>>): nat {
    if run == [] then 0 else Steps(run[..|run| - 1]) + if run[|run| - 1].EndParent? then 0 else 1
  }

  lemma StepSpends<T>(st: State<T>, a: Action<T>)
    requires Enabled(st, a)
    ensures Left(Next(st, a)) + (if a.EndParent? then 0 else 1) <= Left(st)
  {
  }

  /** The call ends under every scheduler, after at most eleven steps. */
  lemma {:induction false} EveryScheduleEnds<T>(run: seq<Action<T>>)
    requires Possible(run)
    ensures Steps(run) + Left(After(run)) <= 11
  {
    if run != [] {
      EveryScheduleEnds(run[..|run| - 1]);
      StepSpends(After(run[..|run| - 1]), run[|run| - 1]);
    }
  }
}
