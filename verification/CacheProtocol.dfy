/** auth/token_cache.go under concurrency: any number of goroutines run Token, Refresh and Close one
    machine step at a time.  The mutex is held across the whole fetch, and the token and the
    generation are written separately.  The steps are shown to refine the atomic register of
    TokenCache, with every operation taking effect once, between its call and its return. */
module CacheProtocol {
  import opened Errors
  import opened TokenCache

  type Pid = nat

  /** Where one goroutine is.  `since` is the length of the commit log when it called, `at` the
      position of its own commit. */
  datatype Phase =
    | Idle
    | Waiting(op: Op, since: nat)                            // in mu.Lock
    | Locked(op: Op, since: nat)                             // holds mu, has read nothing yet
    | Fetching(op: Op, since: nat)                           // inside fetcher.fetch
    | Fetched(op: Op, since: nat, tok: string)               // IAM granted tok, nothing stored
    | Stored(op: Op, since: nat, tok: string, was: string)   // token written, generation not
    | Committed(op: Op, since: nat, at: nat, reply: Reply)   // about to run the deferred unlock
    | Returning(op: Op, since: nat, at: nat, reply: Reply)   // unlocked, reply not yet consumed
  {
    predicate Critical() {
      Locked? || Fetching? || Fetched? || Stored? || Committed?
    }

    predicate Pending() {
      Fetched? || Stored?
    }
  }

  /** One operation taking effect: what it asked IAM, what it replied and the register it left. */
  datatype Commit = Commit(pid: Pid, op: Op, asked: seq<Result<string>>, reply: Reply, left: Register)

  /** The shared memory, the goroutines, and what an observer remembers: the commits in order, the
      tokens IAM granted, the generations that drew a 401, the generations a Close dropped, and those a
      Refresh replaced that named no generation on record as rejected. */
  datatype State = State(
    lock: Option<Pid>, token: string, gen: nat, phases: map<Pid, Phase>,
    log: seq<Commit>, granted: seq<string>, rejected: set<nat>, dropped: set<nat>, forced: set<nat>)
  {
    function Phase(p: Pid): Phase {
      if p in phases then phases[p] else Idle
    }

    function With(p: Pid, ph: Phase): State {
      this.(phases := phases[p := ph])
    }

    /** The phase of the lock's holder. */
    function Holder(): Phase {
      if lock.Some? then Phase(lock.value) else Idle
    }

    /** The register the memory stands for: a half-done store does not count. */
    function Abs(): Register {
      Register(if Holder().Stored? then Holder().was else token, gen)
    }

    /** The operation of `p` takes effect now. */
    function Take(p: Pid, asked: seq<Result<string>>, reply: Reply): State
      requires !Phase(p).Idle?
    {
      var ph := Phase(p);
      this.(log := log + [Commit(p, ph.op, asked, reply, Register(token, gen))])
      .With(p, Committed(ph.op, ph.since, |log|, reply))
    }
  }

  const INITIAL := State(None, "", 0, map[], [], [], {}, {}, {})

  datatype Action =
    | Call(p: Pid, op: Op)
    | Acquire(p: Pid)
    | Decide(p: Pid)
    | Answer(p: Pid, answer: Result<string>)
    | Store(p: Pid)
    | Bump(p: Pid)
    | Unlock(p: Pid)
    | Return(p: Pid)
    | Reject(gen: nat)   // the API answers 401 to an issued generation

  predicate Enabled(s: State, a: Action) {
    match a
    case Call(p, _) => s.Phase(p).Idle?
    case Acquire(p) => s.Phase(p).Waiting? && s.lock.None?
    case Decide(p) => s.Phase(p).Locked?
    case Answer(p, answer) => s.Phase(p).Fetching? && Plausible(answer)
    case Store(p) => s.Phase(p).Fetched?
    case Bump(p) => s.Phase(p).Stored?
    case Unlock(p) => s.Phase(p).Committed?
    case Return(p) => s.Phase(p).Returning?
    case Reject(g) => 1 <= g <= s.gen
  }

  /** A refresh of a generation that has not drawn a 401. */
  predicate Unprovoked(s: State, op: Op) {
    op.RefreshOp? && op.stale !in s.rejected
  }

  function Next(s: State, a: Action): State
    requires Enabled(s, a)
  {
    match a
    case Call(p, op) => s.With(p, Waiting(op, |s.log|))
    case Acquire(p) =>
      var ph := s.Phase(p);
      s.(lock := Some(p)).With(p, Locked(ph.op, ph.since))
    case Decide(p) =>
      var ph := s.Phase(p);
      if ph.op.CloseOp? then
        s.(token := "", dropped := s.dropped + {s.gen}).Take(p, [], Closed)
      else if s.token != "" && (ph.op.TokenOp? || s.gen > ph.op.stale) then
        s.Take(p, [], Granted(s.token, s.gen))
      else
        s.With(p, Fetching(ph.op, ph.since))
    case Answer(p, answer) =>
      var ph := s.Phase(p);
      (match answer
       case Ok(t) =>
         s.(granted := s.granted + [t], forced := s.forced + if Unprovoked(s, ph.op) then {s.gen} else {})
         .With(p, Fetched(ph.op, ph.since, t))
       case Err(e) => s.Take(p, [answer], Denied(e)))
    case Store(p) =>
      var ph := s.Phase(p);
      s.(token := ph.tok).With(p, Stored(ph.op, ph.since, ph.tok, s.token))
    case Bump(p) =>
      var ph := s.Phase(p);
      s.(gen := s.gen + 1).Take(p, [Ok(ph.tok)], Granted(s.token, s.gen + 1))
    case Unlock(p) =>
      var ph := s.Phase(p);
      s.(lock := None).With(p, Returning(ph.op, ph.since, ph.at, ph.reply))
    case Return(p) => s.With(p, Idle)
    case Reject(g) => s.(rejected := s.rejected + {g})
  }

  /** The schedule `run` can happen, and the state it leads to. */
  predicate Possible(run: seq<Action>)
    decreases |run|, 0
  {
    run == [] || (Possible(run[..|run| - 1]) && Enabled(After(run[..|run| - 1]), run[|run| - 1]))
  }

  function After(run: seq<Action>): State
    requires Possible(run)
    decreases |run|, 1
  {
    if run == [] then INITIAL else Next(After(run[..|run| - 1]), run[|run| - 1])
  }

  // ------------------------------------------------------------------ the atomic register

  /** The register before commit i. */
  function Before(log: seq<Commit>, i: nat): Register
    requires i <= |log|
  {
    if i == 0 then EMPTY else log[i - 1].left
  }

  /** The log is a sequential run of the atomic register: each commit starts from the register the
      one before it left and gives the reply the atomic operation gives there. */
  ghost predicate Sequential(log: seq<Commit>) {
    forall i | 0 <= i < |log| :: StepOf(log, i)
  }

  ghost predicate StepOf(log: seq<Commit>, i: nat)
    requires i < |log|
  {
    Performed(Before(log, i), log[i].op, log[i].asked, log[i].left, log[i].reply)
  }

  // ------------------------------------------------------------------ the invariant

  ghost predicate OneHolder(s: State) {
    forall p: Pid :: s.Phase(p).Critical() <==> s.lock == Some(p)
  }

  /** A generation names one grant: the register, a half-done store and every reply agree on it. */
  predicate Named(s: State, r: Reply) {
    r.Granted? ==> 1 <= r.gen <= s.gen && r.gen <= |s.granted| && r.token == s.granted[r.gen - 1]
  }

  ghost predicate GrantsInOrder(s: State) {
    && |s.granted| == s.gen + (if s.Holder().Pending() then 1 else 0)
    && (s.Holder().Pending() ==> s.granted[s.gen] == s.Holder().tok)
    && (s.Holder().Stored? ==> s.token == s.Holder().tok)
    && (s.Abs().token != "" ==> s.gen >= 1 && s.Abs().token == s.granted[s.gen - 1])
    && (forall t | t in s.granted :: t != "")
  }

  ghost predicate LogExplains(s: State) {
    && Sequential(s.log)
    && Before(s.log, |s.log|) == s.Abs()
    && (forall c | c in s.log :: Named(s, c.reply))
  }

  /** The operation of `p` has taken effect once, at `at`, or not at all since its call. */
  ghost predicate InProgress(s: State, p: Pid) {
    var ph := s.Phase(p);
    !ph.Idle? ==>
      && ph.since <= |s.log|
      && (forall i | ph.since <= i < |s.log| && s.log[i].pid == p :: (ph.Committed? || ph.Returning?) && i == ph.at)
      && (ph.Committed? || ph.Returning? ==>
            && ph.since <= ph.at < |s.log|
            && s.log[ph.at].pid == p && s.log[ph.at].op == ph.op && s.log[ph.at].reply == ph.reply)
      && (ph.Fetching? || ph.Pending() ==> !Hit(s.Abs(), ph.op))
  }

  /** Every superseded generation was paid for: a 401 on it, a Close that dropped it, or a refresh
      nobody's 401 asked for. */
  ghost predicate Paid(s: State) {
    && (forall g | g in s.rejected :: 1 <= g <= s.gen)
    && (forall g | g in s.dropped :: g <= s.gen)
    && (forall g | 1 <= g < |s.granted| :: g in s.rejected || g in s.dropped || g in s.forced)
    && (s.Abs().token == "" ==> s.gen == 0 || s.gen in s.dropped)
    && |s.dropped| <= Closes(s.log)
  }

  function Closes(log: seq<Commit>): nat {
    if log == [] then 0
    else Closes(log[..|log| - 1]) + (if log[|log| - 1].op.CloseOp? then 1 else 0)
  }

  /** Until a Close, the cache is empty only before the first grant. */
  ghost predicate Unbroken(s: State) {
    forall i | 0 <= i < |s.log| :: s.dropped == {} && Before(s.log, i).token == "" ==> Before(s.log, i).gen == 0
  }

  ghost predicate Inv(s: State) {
    Unbroken(s) && OneHolder(s) && GrantsInOrder(s) && LogExplains(s) && (forall p: Pid :: InProgress(s, p)) && Paid(s)
  }

  /** The goroutine that takes a step other than a rejection. */
  predicate Actor(a: Action, p: Pid) {
    !a.Reject? && a.p == p
  }

  /** Either nothing visible happens, or one operation takes effect on the atomic register. */
  ghost predicate Refined(s: State, a: Action, s': State) {
    if s'.log == s.log then s'.Abs() == s.Abs()
    else TookEffect(s, a, s')
  }

  ghost predicate TookEffect(s: State, a: Action, s': State) {
    && |s'.log| == |s.log| + 1
    && var c := s'.log[|s.log|];
    && s'.log == s.log + [c]
    && c.left == s'.Abs()
    && Actor(a, c.pid) && s.Phase(c.pid).Critical() && s.Phase(c.pid).op == c.op
    && Performed(s.Abs(), c.op, c.asked, c.left, c.reply)
  }

  /** What a step may use: the memory is consistent and the goroutine that moves is. */
  ghost predicate Sound(s: State, a: Action) {
    && GrantsInOrder(s)
    && (!a.Reject? ==> InProgress(s, a.p) && (s.Phase(a.p).Critical() <==> s.lock == Some(a.p)))
  }

  /** The refinement step. */
  lemma StepRefines(s: State, a: Action)
    requires Sound(s, a) && Enabled(s, a)
    ensures Refined(s, a, Next(s, a))
  {
    if a.Bump? {
      assert s.granted[s.gen] in s.granted;
    }
  }

  lemma {:induction false} LogExtends(log: seq<Commit>, c: Commit)
    requires Sequential(log) && Performed(Before(log, |log|), c.op, c.asked, c.left, c.reply)
    ensures Sequential(log + [c])
    ensures Closes(log + [c]) == Closes(log) + if c.op.CloseOp? then 1 else 0
  {
    var log' := log + [c];
    assert log'[..|log|] == log;
    forall i | 0 <= i < |log'|
      ensures StepOf(log', i)
    {
      if i < |log| {
        assert StepOf(log, i);
        assert Before(log', i) == Before(log, i);
      }
    }
  }

  lemma LockKept(s: State, a: Action)
    requires OneHolder(s) && Enabled(s, a)
    ensures OneHolder(Next(s, a))
  {
  }

  lemma GrantsKept(s: State, a: Action)
    requires Sound(s, a) && Enabled(s, a)
    ensures GrantsInOrder(Next(s, a)) && s.granted <= Next(s, a).granted
  {
  }

  lemma NamesKept(s: State, a: Action, r: Reply)
    requires Sound(s, a) && Enabled(s, a) && Named(s, r)
    ensures Named(Next(s, a), r)
  {
  }

  lemma CommitIsNamed(s: State, a: Action)
    requires Sound(s, a) && Enabled(s, a) && TookEffect(s, a, Next(s, a))
    ensures Named(Next(s, a), Next(s, a).log[|s.log|].reply)
  {
    var s' := Next(s, a);
    var c := s'.log[|s.log|];
    GrantsKept(s, a);
    OperationLaws(s.Abs(), c.op, c.asked, c.left, c.reply);
  }

  lemma LogKept(s: State, a: Action)
    requires Sound(s, a) && LogExplains(s) && Enabled(s, a)
    ensures LogExplains(Next(s, a))
  {
    var s' := Next(s, a);
    StepRefines(s, a);
    if s'.log != s.log {
      LogExtends(s.log, s'.log[|s.log|]);
      CommitIsNamed(s, a);
    }
    forall c | c in s'.log ensures Named(s', c.reply) {
      if c in s.log {
        NamesKept(s, a, c.reply);
      }
    }
  }

  lemma OwnProgressKept(s: State, a: Action)
    requires Sound(s, a) && Enabled(s, a) && !a.Reject?
    ensures InProgress(Next(s, a), a.p)
  {
    StepRefines(s, a);
  }

  lemma OthersProgressKept(s: State, a: Action, q: Pid)
    requires Sound(s, a) && Enabled(s, a) && !Actor(a, q)
    requires InProgress(s, q) && (s.Phase(q).Critical() <==> s.lock == Some(q))
    ensures InProgress(Next(s, a), q)
  {
    var s' := Next(s, a);
    StepRefines(s, a);
    assert s'.Phase(q) == s.Phase(q);
    if s.Phase(q).Critical() {
      assert s'.Abs() == s.Abs();
    }
  }

  /** The generation a grant replaces is paid for. */
  lemma GrantIsPaid(s: State, a: Action)
    requires Sound(s, a) && Paid(s) && Enabled(s, a) && a.Answer? && a.answer.Ok?
    ensures s.gen == 0 || s.gen in s.rejected || s.gen in s.dropped || s.gen in Next(s, a).forced
    ensures Next(s, a).granted == s.granted + [a.answer.value] && |s.granted| == s.gen
  {
    assert s.Holder() == s.Phase(a.p) && !Hit(s.Abs(), s.Phase(a.p).op);
  }

  lemma GrantsStay(s: State, a: Action)
    requires Enabled(s, a) && !(a.Answer? && a.answer.Ok?)
    ensures Next(s, a).granted == s.granted
  {
  }

  lemma RecordsGrow(s: State, a: Action)
    requires Enabled(s, a)
    ensures var s' := Next(s, a); s.rejected <= s'.rejected && s.dropped <= s'.dropped && s.forced <= s'.forced
  {
  }

  lemma SupersededArePaid(s: State, a: Action)
    requires Sound(s, a) && Paid(s) && Enabled(s, a)
    ensures var s' := Next(s, a);
            forall g | 1 <= g < |s'.granted| :: g in s'.rejected || g in s'.dropped || g in s'.forced
  {
    RecordsGrow(s, a);
    if a.Answer? && a.answer.Ok? {
      GrantIsPaid(s, a);
    } else {
      GrantsStay(s, a);
    }
  }

  lemma EmptyIsPaid(s: State, a: Action)
    requires Sound(s, a) && Paid(s) && Enabled(s, a)
    ensures var s' := Next(s, a);
            && (forall g | g in s'.rejected :: 1 <= g <= s'.gen)
            && (forall g | g in s'.dropped :: g <= s'.gen)
            && (s'.Abs().token == "" ==> s'.gen == 0 || s'.gen in s'.dropped)
  {
    if a.Bump? {
      assert s.granted[s.gen] in s.granted;
    }
  }

  lemma ClosesKept(s: State, a: Action)
    requires Sound(s, a) && LogExplains(s) && Enabled(s, a) && |s.dropped| <= Closes(s.log)
    ensures |Next(s, a).dropped| <= Closes(Next(s, a).log)
  {
    var s' := Next(s, a);
    StepRefines(s, a);
    if s'.log != s.log {
      LogExtends(s.log, s'.log[|s.log|]);
    }
  }

  lemma UnbrokenKept(s: State, a: Action)
    requires Sound(s, a) && Unbroken(s) && Paid(s) && Before(s.log, |s.log|) == s.Abs() && Enabled(s, a)
    requires Refined(s, a, Next(s, a))
    ensures Unbroken(Next(s, a))
  {
    var s' := Next(s, a);
    assert s.dropped <= s'.dropped;
    if s'.log != s.log {
      UnbrokenGrows(s, s');
    }
  }

  /** One more commit, made on a register that was in order. */
  lemma UnbrokenGrows(s: State, s': State)
    requires Unbroken(s) && s.dropped <= s'.dropped
    requires |s'.log| == |s.log| + 1 && s'.log[..|s.log|] == s.log
    requires s'.dropped == {} && Before(s.log, |s.log|).token == "" ==> Before(s.log, |s.log|).gen == 0
    ensures Unbroken(s')
  {
    forall i | 0 <= i < |s'.log|
      ensures s'.dropped == {} && Before(s'.log, i).token == "" ==> Before(s'.log, i).gen == 0
    {
      assert Before(s'.log, i) == Before(s.log, i);
    }
  }

  lemma InvIsSound(s: State, a: Action)
    requires Inv(s) && Enabled(s, a)
    ensures Sound(s, a)
  {
    if !a.Reject? {
      assert InProgress(s, a.p);
    }
  }

  lemma StepKeepsInv(s: State, a: Action)
    requires Inv(s) && Enabled(s, a)
    ensures Inv(Next(s, a)) && Refined(s, a, Next(s, a))
  {
    InvIsSound(s, a);
    StepRefines(s, a);
    LockKept(s, a);
    GrantsKept(s, a);
    LogKept(s, a);
    SupersededArePaid(s, a);
    EmptyIsPaid(s, a);
    ClosesKept(s, a);
    UnbrokenKept(s, a);
    forall q: Pid ensures InProgress(Next(s, a), q) {
      assert InProgress(s, q);
      if Actor(a, q) {
        OwnProgressKept(s, a);
      } else {
        OthersProgressKept(s, a, q);
      }
    }
  }

  lemma {:induction false} RunsKeepInv(run: seq<Action>)
    requires Possible(run)
    ensures Inv(After(run))
  {
    if run != [] {
      RunsKeepInv(run[..|run| - 1]);
      StepKeepsInv(After(run[..|run| - 1]), run[|run| - 1]);
    }
  }

  // ------------------------------------------------------------------ what every run promises

  /** The whole numbers lo..hi-1. */
  function Range(lo: nat, hi: nat): (r: set<nat>)
    ensures forall g :: g in r <==> lo <= g < hi
  {
    if lo >= hi then {} else Range(lo, hi - 1) + {hi - 1}
  }

  lemma {:induction false} RangeSize(lo: nat, hi: nat)
    requires lo <= hi
    ensures |Range(lo, hi)| == hi - lo
    decreases hi - lo
  {
    if lo < hi {
      RangeSize(lo, hi - 1);
    }
  }

  lemma SubsetSize<T>(a: set<T>, b: set<T>)
    requires a <= b
    ensures |a| <= |b|
  {
    assert b == a + (b - a);
  }

  lemma GrantsArePaidFor(s: State)
    requires Paid(s)
    ensures |s.granted| <= 1 + |s.rejected| + Closes(s.log) + |s.forced|
    ensures |s.granted| <= 1 + |s.rejected + s.dropped + s.forced|
  {
    var n, paid := |s.granted|, s.rejected + s.dropped + s.forced;
    if n > 0 {
      assert Range(1, n) <= paid;
      RangeSize(1, n);
      SubsetSize(Range(1, n), paid);
    }
    SumBoundsUnion(s.rejected, s.dropped);
    SumBoundsUnion(s.rejected + s.dropped, s.forced);
  }

  /** Every Refresh of the run names a generation that had drawn a 401 by then. */
  predicate Polite(run: seq<Action>)
    requires Possible(run)
  {
    run == [] ||
    var init, a := run[..|run| - 1], run[|run| - 1];
    Polite(init) && (a.Call? && a.op.RefreshOp? ==> a.op.stale in After(init).rejected)
  }

  /** Nobody's refresh is unprovoked. */
  ghost predicate Provoked(s: State) {
    s.forced == {} && forall p: Pid :: !s.Phase(p).Idle? ==> !Unprovoked(s, s.Phase(p).op)
  }

  lemma ProvokedKept(s: State, a: Action)
    requires Provoked(s) && Enabled(s, a) && (a.Call? && a.op.RefreshOp? ==> a.op.stale in s.rejected)
    ensures Provoked(Next(s, a))
  {
    var s' := Next(s, a);
    forall p: Pid | !s'.Phase(p).Idle? ensures !Unprovoked(s', s'.Phase(p).op) {
      assert !s.Phase(p).Idle? ==> !Unprovoked(s, s.Phase(p).op);
    }
  }

  lemma {:induction false} PoliteRunsForceNothing(run: seq<Action>)
    requires Possible(run) && Polite(run)
    ensures Provoked(After(run))
  {
    if run != [] {
      PoliteRunsForceNothing(run[..|run| - 1]);
      ProvokedKept(After(run[..|run| - 1]), run[|run| - 1]);
    }
  }

  /** In every run, every fetch that succeeds after the first is paid for: by a generation that drew a
      401, by a Close, or by a refresh that no 401 asked for.  Where every refresh follows a 401 on
      the generation it names and nobody closes, the fetches are at most one more than the distinct
      generations that drew a 401. */
  lemma {:induction false} FetchesArePaidFor(run: seq<Action>)
    requires Possible(run)
    ensures var s := After(run); |s.granted| <= 1 + |s.rejected| + Closes(s.log) + |s.forced|
    ensures var s := After(run); |s.granted| <= 1 + |s.rejected + s.dropped + s.forced|
    ensures Polite(run) ==> After(run).forced == {}
  {
    RunsKeepInv(run);
    GrantsArePaidFor(After(run));
    if Polite(run) {
      PoliteRunsForceNothing(run);
    }
  }

  lemma SumBoundsUnion<T>(a: set<T>, b: set<T>)
    ensures |a + b| <= |a| + |b|
  {
    assert a + b == a + (b - a);
    SubsetSize(b - a, b);
  }

  /** In every run, whatever was handed out under one generation is one token, granted by IAM, that
      no later step (a Close included) renames; and the generation counts IAM's grants exactly when
      no store is half done. */
  lemma {:induction false} GenerationsAreNames(run: seq<Action>, i: nat, j: nat)
    requires Possible(run) && i < |After(run).log| && j < |After(run).log|
    ensures var s := After(run); var a := s.log[i].reply; var b := s.log[j].reply;
            && (a.Granted? && b.Granted? && a.gen == b.gen ==>
                  a.token == b.token && 1 <= a.gen <= |s.granted| && a.token == s.granted[a.gen - 1])
            && (!s.Holder().Pending() ==> s.gen == |s.granted|)
  {
    RunsKeepInv(run);
    var s := After(run);
    assert s.log[i] in s.log && s.log[j] in s.log;
  }

  /** Commit i asked IAM and was granted a token. */
  predicate Fetches(c: Commit) {
    c.asked != [] && c.asked[0].Ok?
  }

  lemma {:induction false} GenerationsRise(log: seq<Commit>, i: nat, j: nat)
    requires Sequential(log) && i <= j <= |log|
    ensures Before(log, i).gen <= Before(log, j).gen
    decreases j
  {
    if i < j {
      GenerationsRise(log, i, j - 1);
      assert StepOf(log, j - 1);
    }
  }

  /** Until a Close, a refresh of an issued generation fetches only while that generation is current. */
  lemma RefreshFetchesNext(s: State, g: nat, i: nat)
    requires Sequential(s.log) && Unbroken(s) && s.dropped == {}
    requires i < |s.log| && s.log[i].op == RefreshOp(g) && g <= Before(s.log, i).gen
    ensures s.log[i].reply.Granted? ==> s.log[i].reply.gen > g
    ensures Fetches(s.log[i]) ==> s.log[i].reply.Granted? && s.log[i].reply.gen == g + 1
    ensures s.log[i].asked != [] <==> Before(s.log, i).gen == g
    ensures Fetches(s.log[i]) ==> s.log[i].left.gen == g + 1
  {
    assert StepOf(s.log, i);
  }

  lemma SecondRefreshDoesNotAsk(s: State, g: nat, i: nat, j: nat)
    requires Sequential(s.log) && Unbroken(s) && s.dropped == {} && i < j < |s.log|
    requires s.log[j].op == RefreshOp(g) && g <= Before(s.log, j).gen
    requires Fetches(s.log[i]) && s.log[i].left.gen > g
    ensures s.log[j].asked == []
  {
    GenerationsRise(s.log, i + 1, j);
    RefreshFetchesNext(s, g, j);
  }

  lemma OneFetchPerGeneration(s: State, g: nat, i: nat, j: nat)
    requires Sequential(s.log) && Unbroken(s) && s.dropped == {} && i < j < |s.log|
    requires s.log[i].op == RefreshOp(g) && s.log[j].op == RefreshOp(g) && g <= Before(s.log, i).gen
    ensures s.log[i].reply.Granted? ==> s.log[i].reply.gen > g
    ensures s.log[j].reply.Granted? ==> s.log[j].reply.gen > g
    ensures Fetches(s.log[i]) ==> s.log[i].reply.Granted? && s.log[i].reply.gen == g + 1
    ensures Fetches(s.log[i]) ==> s.log[j].asked == []
  {
    GenerationsRise(s.log, i, j);
    RefreshFetchesNext(s, g, i);
    RefreshFetchesNext(s, g, j);
    if Fetches(s.log[i]) {
      SecondRefreshDoesNotAsk(s, g, i, j);
    }
  }

  /** In every run without Close, all refreshes of an issued generation g share one successful fetch: it
      is the one that creates generation g + 1, no later one asks IAM at all, and whatever any of them
      is granted is newer than g. */
  lemma {:induction false} RefreshersShareOneFetch(run: seq<Action>, s: State, g: nat, i: nat, j: nat)
    requires Possible(run) && s == After(run) && s.dropped == {} && i < j < |s.log|
    requires s.log[i].op == RefreshOp(g) && s.log[j].op == RefreshOp(g) && g <= Before(s.log, i).gen
    ensures s.log[i].reply.Granted? ==> s.log[i].reply.gen > g
    ensures s.log[j].reply.Granted? ==> s.log[j].reply.gen > g
    ensures Fetches(s.log[i]) ==> s.log[i].reply.Granted? && s.log[i].reply.gen == g + 1
    ensures Fetches(s.log[i]) ==> s.log[j].asked == []
  {
    RunsKeepInv(run);
    OneFetchPerGeneration(s, g, i, j);
  }

  /** The commit that created generation h. */
  lemma {:induction false} CreatorOf(log: seq<Commit>, i: nat, h: nat) returns (k: nat)
    requires Sequential(log) && i <= |log| && 1 <= h <= Before(log, i).gen
    ensures k < i && Fetches(log[k]) && log[k].left.gen == h
    decreases i
  {
    assert StepOf(log, i - 1);
    if Before(log, i - 1).gen < h {
      k := i - 1;
    } else {
      k := CreatorOf(log, i - 1, h);
    }
  }

  /** Which refreshes ask IAM: until a Close, a refresh of an issued generation asks exactly when no
      fetch before it has been granted a newer one; when fetches fail, each waiting refresh asks. */
  lemma RefreshAsksIff(s: State, g: nat, i: nat)
    requires Sequential(s.log) && Unbroken(s) && s.dropped == {}
    requires i < |s.log| && s.log[i].op == RefreshOp(g) && g <= Before(s.log, i).gen
    ensures s.log[i].asked == [] <==> exists k | 0 <= k < i :: Fetches(s.log[k]) && s.log[k].left.gen == g + 1
  {
    RefreshFetchesNext(s, g, i);
    if s.log[i].asked == [] {
      var k := CreatorOf(s.log, i, g + 1);
      assert Fetches(s.log[k]) && s.log[k].left.gen == g + 1;
    } else {
      forall k | 0 <= k < i ensures !(Fetches(s.log[k]) && s.log[k].left.gen == g + 1) {
        GenerationsRise(s.log, k + 1, i);
      }
    }
  }

  /** Linearizability: at every moment of every run the commit log is a sequential run of the atomic
      register that explains the memory, and an operation that has returned took effect exactly
      once, after its call and before its return, with the reply it returns. */
  lemma OperationsLinearize(run: seq<Action>, p: Pid)
    requires Possible(run)
    ensures var s := After(run); Sequential(s.log) && Before(s.log, |s.log|) == s.Abs()
    ensures var s := After(run); var ph := s.Phase(p);
            ph.Returning? ==>
              && ph.since <= ph.at < |s.log|
              && s.log[ph.at].pid == p && s.log[ph.at].op == ph.op && s.log[ph.at].reply == ph.reply
              && forall i | ph.since <= i < |s.log| && s.log[i].pid == p :: i == ph.at
  {
    RunsKeepInv(run);
    assert InProgress(After(run), p);
  }

  /** Nobody is ever stuck: while some operation is unfinished, some goroutine can move. */
  lemma SomebodyCanMove(run: seq<Action>, p: Pid)
    returns (a: Action)
    requires Possible(run) && !After(run).Phase(p).Idle?
    ensures Enabled(After(run), a) && !a.Reject? && !a.Call?
  {
    RunsKeepInv(run);
    var s := After(run);
    var q := if s.lock.Some? then s.lock.value else p;
    match s.Phase(q)
    case Waiting(_, _) => a := Acquire(q);
    case Locked(_, _) => a := Decide(q);
    case Fetching(_, _) => a := Answer(q, Err(Canceled));
    case Fetched(_, _, _) => a := Store(q);
    case Stored(_, _, _, _) => a := Bump(q);
    case Committed(_, _, _, _) => a := Unlock(q);
    case Returning(_, _, _, _) => a := Return(q);
  }

  // ------------------------------------------------------------------ termination

  /** The steps an operation has left. */
  function StepsLeft(ph: Phase): nat {
    match ph
    case Idle => 0
    case Waiting(_, _) => 7
    case Locked(_, _) => 6
    case Fetching(_, _) => 5
    case Fetched(_, _, _) => 4
    case Stored(_, _, _, _) => 3
    case Committed(_, _, _, _) => 2
    case Returning(_, _, _, _) => 1
  }

  /** The steps the goroutines below `n` have left. */
  function Load(s: State, n: nat): nat {
    if n == 0 then 0 else Load(s, n - 1) + StepsLeft(s.Phase(n - 1))
  }

  lemma {:induction false} LoadMoves(s: State, s': State, p: Pid, n: nat)
    requires forall q: Pid | q != p :: s'.Phase(q) == s.Phase(q)
    requires StepsLeft(s'.Phase(p)) < StepsLeft(s.Phase(p))
    ensures if p < n then Load(s', n) < Load(s, n) else Load(s', n) == Load(s, n)
  {
    if n > 0 {
      LoadMoves(s, s', p, n - 1);
    }
  }

  /** Neither a new operation nor the API's doing. */
  predicate Finishing(a: Action, n: nat) {
    !a.Call? && !a.Reject? && a.p < n
  }

  lemma StepSpends(s: State, a: Action, n: nat)
    requires Enabled(s, a) && Finishing(a, n)
    ensures Load(Next(s, a), n) < Load(s, n)
  {
    LoadMoves(s, Next(s, a), a.p, n);
  }

  /** Whatever the scheduler does, operations finish: after `k` steps of any run, the goroutines below
      `n` can take at most 7 n more before each of them has returned or needs a new call. */
  lemma {:induction false} EveryScheduleEnds(run: seq<Action>, k: nat, n: nat)
    requires Possible(run) && k <= |run| && Possible(run[..k])
    requires forall i | k <= i < |run| :: Finishing(run[i], n)
    ensures |run| - k + Load(After(run), n) <= Load(After(run[..k]), n) <= 7 * n
  {
    if k == |run| {
      assert run[..k] == run;
      LoadIsBounded(After(run), n);
    } else {
      var init := run[..|run| - 1];
      assert init[..k] == run[..k];
      EveryScheduleEnds(init, k, n);
      StepSpends(After(init), run[|run| - 1], n);
    }
  }

  lemma {:induction false} LoadIsBounded(s: State, n: nat)
    ensures Load(s, n) <= 7 * n
  {
    if n > 0 {
      LoadIsBounded(s, n - 1);
    }
  }

  // ------------------------------------------------------------------ after a Close

  /** From a Close to the next grant the register is empty, at the generation the Close met. */
  lemma {:induction false} EmptySinceClose(log: seq<Commit>, i: nat, j: nat)
    requires Sequential(log) && i < j <= |log| && log[i].op.CloseOp?
    requires forall k | i < k < j :: !Fetches(log[k])
    ensures Before(log, j) == Register("", Before(log, i).gen)
  {
    assert StepOf(log, j - 1);
    if i < j - 1 {
      EmptySinceClose(log, i, j - 1);
    }
  }

  /** From a grant to the next Close the register holds a token, of that generation or a newer one. */
  lemma {:induction false} HeldSinceGrant(log: seq<Commit>, k: nat, j: nat)
    requires Sequential(log) && k < j <= |log| && Fetches(log[k])
    requires forall c | k < c < j :: !log[c].op.CloseOp?
    ensures Before(log, j).token != "" && Before(log, j).gen > Before(log, k).gen
  {
    assert StepOf(log, j - 1);
    assert log[j - 1].asked != [] ==> log[j - 1].asked[0] in log[j - 1].asked;
    if k < j - 1 {
      HeldSinceGrant(log, k, j - 1);
    }
  }

  /** In every run, the first Token or Refresh after a Close asks IAM exactly once, fails exactly when
      IAM does, and is otherwise granted the next generation: a Close never silences the cache. */
  lemma CloseNeverSilences(run: seq<Action>, i: nat, j: nat)
    requires Possible(run) && i < j < |After(run).log|
    requires forall k | i <= k < j :: After(run).log[k].op.CloseOp?
    requires !After(run).log[j].op.CloseOp?
    ensures var log := After(run).log;
            && |log[j].asked| == 1
            && log[j].reply == match log[j].asked[0]
                               case Ok(t) => Granted(t, Before(log, i).gen + 1)
                               case Err(e) => Denied(e)
  {
    RunsKeepInv(run);
    var log := After(run).log;
    forall k | i < k < j ensures !Fetches(log[k]) {
      assert StepOf(log, k);
    }
    EmptySinceClose(log, i, j);
    assert StepOf(log, j);
  }

  /** In every run, a Token after a Close asks IAM exactly when no operation since that Close was
      granted a token; it is denied exactly when IAM denied it, and every grant is newer than
      whatever the Close dropped. */
  lemma TokenAfterClose(run: seq<Action>, i: nat, j: nat)
    requires Possible(run) && i < j < |After(run).log|
    requires var log := After(run).log; log[i].op.CloseOp? && log[j].op.TokenOp?
    requires forall k | i < k < j :: !After(run).log[k].op.CloseOp?
    ensures var log := After(run).log;
            && (log[j].asked == [] <==> exists k | i < k < j :: Fetches(log[k]))
            && (log[j].reply.Denied? <==> log[j].asked != [] && log[j].asked[0].Err?)
            && (log[j].reply.Granted? ==> log[j].reply.gen > Before(log, i).gen)
  {
    RunsKeepInv(run);
    var log := After(run).log;
    assert StepOf(log, j);
    if k :| i < k < j && Fetches(log[k]) {
      GenerationsRise(log, i, k);
      HeldSinceGrant(log, k, j);
    } else {
      EmptySinceClose(log, i, j);
    }
  }

  lemma Extend(run: seq<Action>, a: Action)
    requires Possible(run) && Enabled(After(run), a)
    ensures Possible(run + [a]) && After(run + [a]) == Next(After(run), a)
  {
    assert (run + [a])[..|run|] == run;
  }

  /** A lone goroutine closes the cache. */
  lemma CloseRun(run: seq<Action>, p: Pid) returns (run': seq<Action>)
    requires Possible(run) && After(run).lock.None? && After(run).Phase(p).Idle?
    ensures Possible(run')
    ensures var s, s' := After(run), After(run');
            && s'.lock.None? && s'.Phase(p).Idle? && s'.token == "" && s'.gen == s.gen
            && s'.log == s.log + [Commit(p, CloseOp, [], Closed, Register("", s.gen))]
  {
    run' := run;
    Extend(run', Call(p, CloseOp));
    run' := run' + [Call(p, CloseOp)];
    Extend(run', Acquire(p));
    run' := run' + [Acquire(p)];
    Extend(run', Decide(p));
    run' := run' + [Decide(p)];
    Extend(run', Unlock(p));
    run' := run' + [Unlock(p)];
    Extend(run', Return(p));
    run' := run' + [Return(p)];
  }

  /** A lone goroutine asks an empty cache for a token, and IAM grants `t`. */
  lemma TokenRun(run: seq<Action>, p: Pid, t: string) returns (run': seq<Action>)
    requires Possible(run) && After(run).lock.None? && After(run).Phase(p).Idle?
    requires After(run).token == "" && t != ""
    ensures Possible(run')
    ensures var s, s' := After(run), After(run');
            && s'.lock.None? && s'.Phase(p).Idle? && s'.token == t && s'.gen == s.gen + 1
            && s'.log == s.log + [Commit(p, TokenOp, [Ok(t)], Granted(t, s.gen + 1), Register(t, s.gen + 1))]
  {
    run' := StoreRun(run, p, t);
    Extend(run', Bump(p));
    run' := run' + [Bump(p)];
    Extend(run', Unlock(p));
    run' := run' + [Unlock(p)];
    Extend(run', Return(p));
    run' := run' + [Return(p)];
  }

  lemma StoreRun(run: seq<Action>, p: Pid, t: string) returns (run': seq<Action>)
    requires Possible(run) && After(run).lock.None? && After(run).Phase(p).Idle?
    requires After(run).token == "" && t != ""
    ensures Possible(run')
    ensures var s, s' := After(run), After(run');
            s'.Phase(p) == Stored(TokenOp, |s.log|, t, "") && s'.token == t && s'.gen == s.gen && s'.log == s.log
  {
    run' := run;
    Extend(run', Call(p, TokenOp));
    run' := run' + [Call(p, TokenOp)];
    Extend(run', Acquire(p));
    run' := run' + [Acquire(p)];
    Extend(run', Decide(p));
    run' := run' + [Decide(p)];
    Extend(run', Answer(p, Ok(t)));
    run' := run' + [Answer(p, Ok(t))];
    Extend(run', Store(p));
    run' := run' + [Store(p)];
  }

  /** Token, Close, Token: the third operation asks IAM again and succeeds. */
  lemma TokenAfterCloseExample() returns (run: seq<Action>)
    ensures Possible(run)
    ensures After(run).log == [
              Commit(0, TokenOp, [Ok("a")], Granted("a", 1), Register("a", 1)),
              Commit(0, CloseOp, [], Closed, Register("", 1)),
              Commit(0, TokenOp, [Ok("b")], Granted("b", 2), Register("b", 2))]
  {
    run := TokenRun([], 0, "a");
    run := CloseRun(run, 0);
    run := TokenRun(run, 0, "b");
  }
}
