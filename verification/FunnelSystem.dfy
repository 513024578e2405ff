/** Many Executor.Do calls over one token cache: every call is a run of the Funnel automaton, every
    Token and Refresh goes through the machine steps of CacheProtocol, and the API answers as it likes. */
module FunnelSystem {
  import opened Errors
  import opened Retry
  import opened TokenCache
  import C = CacheProtocol
  import F = Funnel

  type Pid = C.Pid

  /** The cache and, for each goroutine that called Do, the answers its call has had. */
  datatype World = World(cache: C.State, runs: map<Pid, seq<F.Event>>)

  const INITIAL := World(C.INITIAL, map[])

  datatype Action =
    | Start(p: Pid)                      // a goroutine calls Do
    | Local(p: Pid, e: F.Event)          // the context, the API or the timer answers a call
    | Ask(p: Pid)                        // a call enters Token or Refresh
    | Inside(a: C.Action)                // a machine step inside the cache
    | Got(p: Pid)                        // Token or Refresh returns to its call
    | Close(p: Pid)                      // a goroutine outside any Do calls Close
    | Closed(p: Pid)                     // and Close returns

  function At(pol: Policy, w: World, p: Pid): F.Call
    requires p in w.runs && F.Possible(pol, w.runs[p])
  {
    F.After(pol, w.runs[p])
  }

  /** The operation a call asks the cache for. */
  function Wanted(c: F.Call): Op
    requires c.pc.AskToken? || c.pc.AskRefresh?
  {
    if c.pc.AskToken? then TokenOp else RefreshOp(c.stale)
  }

  /** How a reply of the cache looks to the call. */
  function Heard(c: F.Call, r: Reply): F.Event
    requires (c.pc.AskToken? || c.pc.AskRefresh?) && !r.Closed?
  {
    if c.pc.AskToken? then (if r.Granted? then F.TokenOk(r.token, r.gen) else F.TokenErr(r.error))
    else (if r.Granted? then F.RefreshOk(r.token, r.gen) else F.RefreshErr(r.error))
  }

  predicate Inner(a: C.Action) {
    a.Acquire? || a.Decide? || a.Answer? || a.Store? || a.Bump? || a.Unlock?
  }

  /** The cache's step that goes with an action, if any. */
  function CacheStep(pol: Policy, w: World, a: Action): Option<C.Action> {
    match a
    case Start(_) => None
    case Local(_, e) => if e.Sent? && e.status == 401 then Some(C.Reject(e.gen)) else None
    case Ask(p) =>
      if p in w.runs && F.Possible(pol, w.runs[p]) && (At(pol, w, p).pc.AskToken? || At(pol, w, p).pc.AskRefresh?)
      then Some(C.Call(p, Wanted(At(pol, w, p)))) else None
    case Inside(step) => Some(step)
    case Got(p) => Some(C.Return(p))
    case Close(p) => Some(C.Call(p, CloseOp))
    case Closed(p) => Some(C.Return(p))
  }

  /** What the calls themselves decide: which action can happen, whatever the cache thinks of it. */
  predicate Offered(pol: Policy, w: World, a: Action) {
    match a
    case Start(p) => p !in w.runs && w.cache.Phase(p).Idle?
    case Local(p, e) =>
      && p in w.runs && F.Possible(pol, w.runs[p])
      && F.Fits(pol, At(pol, w, p), e)
      && !At(pol, w, p).pc.AskToken? && !At(pol, w, p).pc.AskRefresh?
    case Ask(p) =>
      && p in w.runs && F.Possible(pol, w.runs[p]) && w.cache.Phase(p).Idle?
      && (At(pol, w, p).pc.AskToken? || At(pol, w, p).pc.AskRefresh?)
    case Inside(step) => Inner(step) && C.Enabled(w.cache, step)
    case Got(p) =>
      && p in w.runs && F.Possible(pol, w.runs[p]) && w.cache.Phase(p).Returning?
      && (At(pol, w, p).pc.AskToken? || At(pol, w, p).pc.AskRefresh?)
      && !w.cache.Phase(p).reply.Closed?
    case Close(p) => p !in w.runs && w.cache.Phase(p).Idle?
    case Closed(p) => p !in w.runs && w.cache.Phase(p).Returning?
  }

  predicate Enabled(pol: Policy, w: World, a: Action) {
    Offered(pol, w, a) && (CacheStep(pol, w, a).Some? ==> C.Enabled(w.cache, CacheStep(pol, w, a).value))
  }

  /** The answer an action brings to a call. */
  function Brought(pol: Policy, w: World, a: Action): F.Event
    requires Enabled(pol, w, a) && (a.Local? || a.Got?)
  {
    if a.Local? then a.e else Heard(At(pol, w, a.p), w.cache.Phase(a.p).reply)
  }

  function Next(pol: Policy, w: World, a: Action): World
    requires Enabled(pol, w, a)
  {
    var cache := if CacheStep(pol, w, a).Some? then C.Next(w.cache, CacheStep(pol, w, a).value) else w.cache;
    match a
    case Start(p) => World(cache, w.runs[p := []])
    case Local(p, _) => World(cache, w.runs[p := w.runs[p] + [Brought(pol, w, a)]])
    case Got(p) => World(cache, w.runs[p := w.runs[p] + [Brought(pol, w, a)]])
    case _ => World(cache, w.runs)
  }

  predicate Possible(pol: Policy, run: seq<Action>)
    decreases |run|, 0
  {
    run == [] || (Possible(pol, run[..|run| - 1]) && Enabled(pol, After(pol, run[..|run| - 1]), run[|run| - 1]))
  }

  function After(pol: Policy, run: seq<Action>): World
    requires Possible(pol, run)
    decreases |run|, 1
  {
    if run == [] then INITIAL else Next(pol, After(pol, run[..|run| - 1]), run[|run| - 1])
  }

  // ------------------------------------------------------------------ the invariant

  /** The generation exists and `token` is what IAM granted under it. */
  predicate Bearer(s: C.State, token: string, gen: nat) {
    1 <= gen <= s.gen && gen <= |s.granted| && token == s.granted[gen - 1]
  }

  /** What a call that is waiting for the cache may count on. */
  ghost predicate Waits(s: C.State, p: Pid, c: F.Call) {
    var ph := s.Phase(p);
    !ph.Idle? ==>
      && (c.pc.AskToken? || c.pc.AskRefresh?) && ph.op == Wanted(c)
      && ph.since <= |s.log| && C.Before(s.log, ph.since).gen >= c.gen
  }

  /** What a call knows is true of the cache. */
  ghost predicate Knows(s: C.State, c: F.Call) {
    && c.gen <= s.gen
    && (c.pc.Send? || c.pc.Resend? || c.pc.AskRefresh? ==> Bearer(s, c.token, c.gen))
    && (c.pc.AskRefresh? ==> c.stale == c.gen && c.stale in s.rejected)
  }

  /** Every send carried the token IAM granted under its generation, and a 401 is on record. */
  ghost predicate Sent(s: C.State, es: seq<F.Event>) {
    forall i | 0 <= i < |es| && (es[i].Sent? || es[i].NotSent?) ::
      Bearer(s, es[i].token, es[i].gen) && (es[i].Sent? && es[i].status == 401 ==> es[i].gen in s.rejected)
  }

  ghost predicate CallOk(pol: Policy, s: C.State, p: Pid, es: seq<F.Event>) {
    && F.Possible(pol, es) && F.Rises(pol, es)
    && Waits(s, p, F.After(pol, es))
    && Knows(s, F.After(pol, es))
    && Sent(s, es)
  }

  /** The generations on record as rejected are exactly those some call was answered 401 to. */
  ghost predicate Blamed(w: World) {
    forall g | g in w.cache.rejected :: exists p :: p in w.runs && F.Rejected(g, w.runs[p])
  }

  ghost predicate Inv(pol: Policy, w: World) {
    && C.Inv(w.cache)
    && (forall p | p in w.runs :: CallOk(pol, w.cache, p, w.runs[p]))
    && (forall p: Pid :: Outsider(w, p))
    && Blamed(w)
    && w.cache.forced == {}
  }

  /** The cache only grows: the log, the grants, the generations and the rejections. */
  ghost predicate Grows(s: C.State, s': C.State) {
    && |s.log| <= |s'.log| && s'.log[..|s.log|] == s.log
    && |s.granted| <= |s'.granted| && s'.granted[..|s.granted|] == s.granted
    && s.gen <= s'.gen && s.rejected <= s'.rejected
  }

  lemma StepGrows(s: C.State, a: C.Action)
    requires C.Sound(s, a) && C.Enabled(s, a)
    ensures Grows(s, C.Next(s, a))
  {
    C.StepRefines(s, a);
    C.GrantsKept(s, a);
  }

  lemma CacheGrows(s: C.State, a: C.Action)
    requires C.Inv(s) && C.Enabled(s, a)
    ensures C.Inv(C.Next(s, a)) && Grows(s, C.Next(s, a))
  {
    C.StepKeepsInv(s, a);
    C.InvIsSound(s, a);
    StepGrows(s, a);
  }

  lemma KnowledgeLasts(s: C.State, s': C.State, c: F.Call, es: seq<F.Event>)
    requires Grows(s, s')
    ensures Knows(s, c) ==> Knows(s', c)
    ensures Sent(s, es) ==> Sent(s', es)
    ensures forall k: nat | k <= |s.log| :: C.Before(s'.log, k) == C.Before(s.log, k)
  {
  }

  /** The reply a waiting call gets never goes below what it holds, and names a real grant. */
  lemma RepliesRise(s: C.State, p: Pid, c: F.Call)
    requires C.Inv(s) && Waits(s, p, c) && s.Phase(p).Returning?
    requires c.pc.AskRefresh? ==> c.stale == c.gen
    ensures !s.Phase(p).reply.Closed?
    ensures var r := s.Phase(p).reply;
            r.Granted? ==> Bearer(s, r.token, r.gen) && r.gen >= c.gen && (c.pc.AskRefresh? ==> r.gen > c.gen)
  {
    var ph := s.Phase(p);
    assert C.InProgress(s, p);
    assert s.log[ph.at] in s.log;
    assert C.StepOf(s.log, ph.at);
    C.GenerationsRise(s.log, ph.since, ph.at);
  }

  /** The cache refuses nothing the calls offer; the generations they want refreshed have been issued and
      rejected, and the sends answered 401 carried an issued one. */
  lemma NothingIsRefused(pol: Policy, w: World, a: Action)
    requires Inv(pol, w) && Offered(pol, w, a)
    ensures Enabled(pol, w, a)
    ensures a.Ask? && At(pol, w, a.p).pc.AskRefresh? ==>
              At(pol, w, a.p).stale in w.cache.rejected && 1 <= At(pol, w, a.p).stale <= w.cache.gen
  {
    if a.Local? || a.Ask? || a.Got? {
      assert CallOk(pol, w.cache, a.p, w.runs[a.p]);
    }
  }

  lemma SentOneMore(s: C.State, es: seq<F.Event>, e: F.Event)
    requires Sent(s, es)
    requires e.Sent? || e.NotSent? ==> Bearer(s, e.token, e.gen) && (e.Sent? && e.status == 401 ==> e.gen in s.rejected)
    ensures Sent(s, es + [e])
  {
    forall i | 0 <= i < |es + [e]| && ((es + [e])[i].Sent? || (es + [e])[i].NotSent?)
      ensures Bearer(s, (es + [e])[i].token, (es + [e])[i].gen)
      ensures (es + [e])[i].Sent? && (es + [e])[i].status == 401 ==> (es + [e])[i].gen in s.rejected
    {
      assert i < |es| ==> (es + [e])[i] == es[i];
    }
  }

  lemma CallSteps(pol: Policy, s: C.State, s': C.State, p: Pid, es: seq<F.Event>, e: F.Event)
    requires CallOk(pol, s, p, es) && Grows(s, s') && s'.Phase(p).Idle?
    requires F.Fits(pol, F.After(pol, es), e) && F.Rising(F.After(pol, es), e)
    requires e.TokenOk? || e.RefreshOk? ==> Bearer(s', e.token, e.gen)
    requires e.Sent? && e.status == 401 ==> e.gen in s'.rejected
    ensures CallOk(pol, s', p, es + [e])
  {
    F.Extend(pol, es, e);
    assert (es + [e])[..|es|] == es;
    KnowledgeLasts(s, s', F.After(pol, es), es);
    SentOneMore(s', es, e);
  }

  /** The cache's view of a call is the same, or the call has left it or just entered it. */
  predicate Undisturbed(s: C.State, s': C.State, p: Pid) {
    var ph, ph' := s.Phase(p), s'.Phase(p);
    ph'.Idle? || (!ph.Idle? && ph'.op == ph.op && ph'.since == ph.since)
  }

  lemma WaitLasts(s: C.State, s': C.State, p: Pid, c: F.Call)
    requires Waits(s, p, c) && Undisturbed(s, s', p)
    requires |s.log| <= |s'.log| && s'.log[..|s.log|] == s.log
    ensures Waits(s', p, c)
  {
    if !s'.Phase(p).Idle? && s.Phase(p).since > 0 {
      assert s'.log[s.Phase(p).since - 1] == s.log[s.Phase(p).since - 1];
    }
  }

  /** A call that gets no answer keeps what it knows. */
  lemma CallWaits(pol: Policy, s: C.State, s': C.State, p: Pid, es: seq<F.Event>)
    requires CallOk(pol, s, p, es) && Grows(s, s')
    requires Undisturbed(s, s', p) || Waits(s', p, F.After(pol, es))
    ensures CallOk(pol, s', p, es)
  {
    var c := F.After(pol, es);
    KnowledgeLasts(s, s', c, es);
    if Undisturbed(s, s', p) {
      WaitLasts(s, s', p, c);
    }
  }

  /** What a call was answered stays on its record. */
  lemma RejectionLasts(pol: Policy, w: World, a: Action, p: Pid, g: nat)
    requires Enabled(pol, w, a) && p in w.runs && F.Rejected(g, w.runs[p])
    ensures p in Next(pol, w, a).runs && F.Rejected(g, Next(pol, w, a).runs[p])
  {
    var es, es' := w.runs[p], Next(pol, w, a).runs[p];
    var i :| 0 <= i < |es| && es[i].Sent? && es[i].gen == g && es[i].status == 401;
    assert es'[i] == es[i];
  }

  lemma BlameKept(pol: Policy, w: World, a: Action)
    requires Enabled(pol, w, a) && Blamed(w)
    ensures Blamed(Next(pol, w, a))
  {
    var w' := Next(pol, w, a);
    forall g | g in w'.cache.rejected
      ensures exists p :: p in w'.runs && F.Rejected(g, w'.runs[p])
    {
      if g in w.cache.rejected {
        var p :| p in w.runs && F.Rejected(g, w.runs[p]);
        RejectionLasts(pol, w, a, p, g);
      } else {
        var es := w'.runs[a.p];
        assert es[|es| - 1] == a.e;
        assert F.Rejected(g, es);
      }
    }
  }

  /** The action answers the call of `p`. */
  predicate Answers(a: Action, p: Pid) {
    (a.Local? || a.Got?) && a.p == p
  }

  lemma AnsweredCallKept(pol: Policy, w: World, a: Action)
    requires C.Inv(w.cache) && Enabled(pol, w, a) && (a.Local? || a.Got?)
    requires CallOk(pol, w.cache, a.p, w.runs[a.p])
    requires Grows(w.cache, Next(pol, w, a).cache)
    ensures CallOk(pol, Next(pol, w, a).cache, a.p, Next(pol, w, a).runs[a.p])
  {
    if a.Got? {
      RepliesRise(w.cache, a.p, At(pol, w, a.p));
    }
    CallSteps(pol, w.cache, Next(pol, w, a).cache, a.p, w.runs[a.p], Brought(pol, w, a));
  }

  lemma PhaseMoves(s: C.State, a: C.Action, p: Pid)
    requires C.Enabled(s, a)
    ensures var ph, ph' := s.Phase(p), C.Next(s, a).Phase(p);
            ph' == ph || ph'.Idle? || (a == C.Call(p, ph'.op) && ph' == C.Waiting(ph'.op, |s.log|))
            || (!ph.Idle? && ph'.op == ph.op && ph'.since == ph.since)
  {
  }

  lemma WaitingCallKept(pol: Policy, w: World, a: Action, p: Pid)
    requires Enabled(pol, w, a) && p in w.runs && !Answers(a, p)
    requires CallOk(pol, w.cache, p, w.runs[p]) && C.LogExplains(w.cache)
    requires Grows(w.cache, Next(pol, w, a).cache)
    ensures CallOk(pol, Next(pol, w, a).cache, p, w.runs[p])
  {
    if CacheStep(pol, w, a).Some? {
      PhaseMoves(w.cache, CacheStep(pol, w, a).value, p);
    }
    CallWaits(pol, w.cache, Next(pol, w, a).cache, p, w.runs[p]);
  }

  lemma CallKept(pol: Policy, w: World, a: Action, p: Pid)
    requires C.Inv(w.cache) && Enabled(pol, w, a) && p in Next(pol, w, a).runs
    requires if p in w.runs then CallOk(pol, w.cache, p, w.runs[p]) else a == Start(p)
    requires Grows(w.cache, Next(pol, w, a).cache)
    ensures CallOk(pol, Next(pol, w, a).cache, p, Next(pol, w, a).runs[p])
  {
    if p in w.runs {
      if Answers(a, p) {
        AnsweredCallKept(pol, w, a);
      } else {
        WaitingCallKept(pol, w, a, p);
      }
    }
  }

  ghost predicate Outsider(w: World, p: Pid) {
    p in w.runs || w.cache.Phase(p).Idle? || w.cache.Phase(p).op.CloseOp?
  }

  lemma OutsiderKept(pol: Policy, w: World, a: Action, p: Pid)
    requires Enabled(pol, w, a) && Outsider(w, p)
    ensures Outsider(Next(pol, w, a), p)
  {
    if CacheStep(pol, w, a).Some? {
      PhaseMoves(w.cache, CacheStep(pol, w, a).value, p);
    }
  }

  lemma CacheKept(pol: Policy, w: World, a: Action)
    requires C.Inv(w.cache) && Enabled(pol, w, a)
    ensures C.Inv(Next(pol, w, a).cache) && Grows(w.cache, Next(pol, w, a).cache)
  {
    if CacheStep(pol, w, a).Some? {
      CacheGrows(w.cache, CacheStep(pol, w, a).value);
    }
  }

  /** A goroutine in the middle of a refresh was answered 401 under the generation it names. */
  lemma RefreshIsProvoked(pol: Policy, w: World, p: Pid)
    requires Outsider(w, p) && (p in w.runs ==> CallOk(pol, w.cache, p, w.runs[p])) && !w.cache.Phase(p).Idle?
    ensures !C.Unprovoked(w.cache, w.cache.Phase(p).op)
  {
  }

  /** Every refresh follows a 401 on the generation it names. */
  lemma NothingForced(pol: Policy, w: World, a: Action)
    requires Enabled(pol, w, a) && w.cache.forced == {}
    requires a.Inside? ==> Outsider(w, a.a.p) && (a.a.p in w.runs ==> CallOk(pol, w.cache, a.a.p, w.runs[a.a.p]))
    ensures Next(pol, w, a).cache.forced == {}
  {
    if a.Inside? && a.a.Answer? {
      RefreshIsProvoked(pol, w, a.a.p);
    }
  }

  lemma StepKeepsInv(pol: Policy, w: World, a: Action)
    requires Inv(pol, w) && Enabled(pol, w, a)
    ensures Inv(pol, Next(pol, w, a)) && Grows(w.cache, Next(pol, w, a).cache)
  {
    var w' := Next(pol, w, a);
    CacheKept(pol, w, a);
    BlameKept(pol, w, a);
    if a.Inside? {
      assert Outsider(w, a.a.p);
    }
    NothingForced(pol, w, a);
    forall p | p in w'.runs ensures CallOk(pol, w'.cache, p, w'.runs[p]) {
      CallKept(pol, w, a, p);
    }
    forall p: Pid ensures Outsider(w', p) {
      assert Outsider(w, p);
      OutsiderKept(pol, w, a, p);
    }
  }

  lemma {:induction false} RunsKeepInv(pol: Policy, run: seq<Action>)
    requires Possible(pol, run)
    ensures Inv(pol, After(pol, run))
  {
    if run != [] {
      RunsKeepInv(pol, run[..|run| - 1]);
      StepKeepsInv(pol, After(pol, run[..|run| - 1]), run[|run| - 1]);
    }
  }

  // ------------------------------------------------------------------ what every run promises

  lemma RejectionIsOnRecord(pol: Policy, s: C.State, p: Pid, es: seq<F.Event>, g: nat)
    requires CallOk(pol, s, p, es) && F.Rejected(g, es)
    ensures g in s.rejected
  {
    var i :| 0 <= i < |es| && es[i].Sent? && es[i].gen == g && es[i].status == 401;
  }

  /** For any number of concurrent Do calls and Closes, in any interleaving: IAM grants at most one
      token more than there are distinct generations some call was answered 401 to, plus one per
      Close. */
  lemma GrantsAreBounded(pol: Policy, run: seq<Action>)
    requires Possible(pol, run)
    ensures var w := After(pol, run);
            && |w.cache.granted| <= 1 + |w.cache.rejected| + C.Closes(w.cache.log)
            && forall g :: g in w.cache.rejected <==> exists p :: p in w.runs && F.Rejected(g, w.runs[p])
  {
    RunsKeepInv(pol, run);
    var w := After(pol, run);
    C.GrantsArePaidFor(w.cache);
    forall g, p | p in w.runs && F.Rejected(g, w.runs[p])
      ensures g in w.cache.rejected
    {
      RejectionIsOnRecord(pol, w.cache, p, w.runs[p], g);
    }
  }

  /** Every call of every run is a run of the automaton with rising generations, and every request it
      sent carried exactly the token IAM granted under the generation it names. */
  lemma CallsAreWellServed(pol: Policy, run: seq<Action>, p: Pid, i: nat)
    requires Possible(pol, run) && p in After(pol, run).runs && i < |After(pol, run).runs[p]|
    ensures var w := After(pol, run); var es := w.runs[p];
            && F.Possible(pol, es) && F.Rises(pol, es)
            && (es[i].Sent? || es[i].NotSent? ==> Bearer(w.cache, es[i].token, es[i].gen))
  {
    RunsKeepInv(pol, run);
    assert CallOk(pol, After(pol, run).cache, p, After(pol, run).runs[p]);
  }

  /** However many calls run, one of them hands back a 401 only after the API rejected two different
      generations in that very call. */
  lemma Returned401MeansTwoRejections(pol: Policy, run: seq<Action>, p: Pid)
    returns (older: nat, newer: nat)
    requires Possible(pol, run) && p in After(pol, run).runs
    requires F.Possible(pol, After(pol, run).runs[p])
    requires At(pol, After(pol, run), p).pc == F.Done(F.Response(401))
    ensures var es := After(pol, run).runs[p];
            older < newer && F.Rejected(older, es) && F.Rejected(newer, es)
    ensures {older, newer} <= After(pol, run).cache.rejected
  {
    RunsKeepInv(pol, run);
    var w := After(pol, run);
    assert CallOk(pol, w.cache, p, w.runs[p]);
    older, newer := F.Returned401MeansTwoRejections(pol, w.runs[p]);
    RejectionIsOnRecord(pol, w.cache, p, w.runs[p], older);
    RejectionIsOnRecord(pol, w.cache, p, w.runs[p], newer);
  }

  /** Commit i is the one the operation of `p` in progress has just made. */
  predicate Current(s: C.State, p: Pid, i: nat) {
    var ph := s.Phase(p);
    (ph.Committed? || ph.Returning?) && ph.at == i
  }

  /** A denied operation was the last of its call. */
  ghost predicate DeniedEnds(s: C.State, p: Pid, c: F.Call) {
    forall i | 0 <= i < |s.log| && s.log[i].pid == p && s.log[i].reply.Denied? ::
      Current(s, p, i) || (s.Phase(p).Idle? && c.pc.Done?)
  }

  ghost predicate RefreshSticks(s: C.State, p: Pid, c: F.Call) {
    forall i | 0 <= i < |s.log| && s.log[i].pid == p && s.log[i].op.RefreshOp? ::
      Current(s, p, i) || (c.refreshed && !c.pc.AskRefresh?)
  }

  /** Nothing of `p` follows a denial, and it refreshed at most once. */
  ghost predicate Orderly(log: seq<C.Commit>, p: Pid) {
    forall i, j | 0 <= i < j < |log| && log[i].pid == p && log[j].pid == p ::
      !log[i].reply.Denied? && !(log[i].op.RefreshOp? && log[j].op.RefreshOp?)
  }

  /** A goroutine outside Do has only ever called Close. */
  ghost predicate OnlyCloses(log: seq<C.Commit>, p: Pid) {
    forall i | 0 <= i < |log| && log[i].pid == p :: log[i].op.CloseOp? && !log[i].reply.Denied?
  }

  ghost predicate Past(pol: Policy, w: World, p: Pid)
    requires p in w.runs ==> F.Possible(pol, w.runs[p])
  {
    if p in w.runs then
      var c := At(pol, w, p);
      DeniedEnds(w.cache, p, c) && RefreshSticks(w.cache, p, c) && Orderly(w.cache.log, p)
      && (c.pc.AskRefresh? ==> c.refreshed)
    else OnlyCloses(w.cache.log, p)
  }

  /** A machine step of `p` itself: nothing visible, or its operation takes effect and is current. */
  ghost predicate OwnStep(s: C.State, s': C.State, p: Pid) {
    && !s.Phase(p).Idle? && !s'.Phase(p).Idle? && s'.Phase(p).op == s.Phase(p).op
    && if s'.log == s.log then forall i: nat | Current(s, p, i) :: Current(s', p, i)
       else
         && |s'.log| == |s.log| + 1 && s'.log[..|s.log|] == s.log
         && s'.log[|s.log|].pid == p && s'.log[|s.log|].op == s.Phase(p).op
         && (s'.log[|s.log|].op.CloseOp? ==> !s'.log[|s.log|].reply.Denied?)
         && Current(s', p, |s.log|) && forall i: nat :: !Current(s, p, i)
  }

  lemma InnerStepIsOwn(s: C.State, a: C.Action)
    requires C.Sound(s, a) && C.Enabled(s, a) && Inner(a)
    ensures OwnStep(s, C.Next(s, a), a.p)
  {
    C.StepRefines(s, a);
  }

  lemma PastSurvivesOwnStep(s: C.State, s': C.State, p: Pid, c: F.Call)
    requires OwnStep(s, s', p)
    requires Waits(s, p, c) && (c.pc.AskRefresh? ==> c.refreshed)
    requires DeniedEnds(s, p, c) && RefreshSticks(s, p, c) && Orderly(s.log, p)
    ensures DeniedEnds(s', p, c) && RefreshSticks(s', p, c) && Orderly(s'.log, p)
  {
  }

  lemma OutsiderOnlyCloses(s: C.State, s': C.State, p: Pid)
    requires OwnStep(s, s', p) && OnlyCloses(s.log, p) && s.Phase(p).op.CloseOp?
    ensures OnlyCloses(s'.log, p)
  {
  }

  /** A step of somebody else, or one that leaves the log alone. */
  lemma PastSurvivesOthers(s: C.State, s': C.State, p: Pid, c: F.Call)
    requires s'.Phase(p) == s.Phase(p)
    requires |s.log| <= |s'.log| && s'.log[..|s.log|] == s.log
    requires forall i | |s.log| <= i < |s'.log| :: s'.log[i].pid != p
    ensures DeniedEnds(s, p, c) ==> DeniedEnds(s', p, c)
    ensures RefreshSticks(s, p, c) ==> RefreshSticks(s', p, c)
    ensures Orderly(s.log, p) ==> Orderly(s'.log, p)
    ensures OnlyCloses(s.log, p) ==> OnlyCloses(s'.log, p)
  {
    assert forall i | 0 <= i < |s'.log| && s'.log[i].pid == p :: i < |s.log| && s.log[i] == s'.log[i];
  }

  lemma OthersInnerStep(s: C.State, a: C.Action, p: Pid, c: F.Call)
    requires C.Sound(s, a) && C.Enabled(s, a) && Inner(a) && a.p != p
    ensures var s' := C.Next(s, a);
            && (DeniedEnds(s, p, c) ==> DeniedEnds(s', p, c))
            && (RefreshSticks(s, p, c) ==> RefreshSticks(s', p, c))
            && (Orderly(s.log, p) ==> Orderly(s'.log, p))
            && (OnlyCloses(s.log, p) ==> OnlyCloses(s'.log, p))
  {
    PastSurvivesOthers(s, C.Next(s, a), p, c);
  }

  lemma InnerStepKeepsPast(pol: Policy, w: World, a: C.Action, p: Pid)
    requires C.Inv(w.cache) && Inner(a) && C.Enabled(w.cache, a)
    requires p in w.runs ==> CallOk(pol, w.cache, p, w.runs[p])
    requires Outsider(w, p) && Past(pol, w, p)
    ensures Past(pol, World(C.Next(w.cache, a), w.runs), p)
  {
    C.InvIsSound(w.cache, a);
    var s' := C.Next(w.cache, a);
    if a.p != p {
      OthersInnerStep(w.cache, a, p, if p in w.runs then At(pol, w, p) else F.START);
    } else {
      InnerStepIsOwn(w.cache, a);
      if p in w.runs {
        PastSurvivesOwnStep(w.cache, s', p, At(pol, w, p));
      } else {
        OutsiderOnlyCloses(w.cache, s', p);
      }
    }
  }

  /** An answer that is not the cache's. */
  lemma LocalAnswerKeepsPast(pol: Policy, s: C.State, s': C.State, p: Pid, c: F.Call, e: F.Event)
    requires s.Phase(p).Idle? && s'.Phase(p).Idle? && s'.log == s.log
    requires F.Fits(pol, c, e) && !c.pc.AskToken? && !c.pc.AskRefresh?
    requires DeniedEnds(s, p, c) && RefreshSticks(s, p, c)
    ensures var c' := F.Step(pol, c, e);
            DeniedEnds(s', p, c') && RefreshSticks(s', p, c') && (c'.pc.AskRefresh? ==> c'.refreshed)
  {
  }

  /** The cache's answer: what was current becomes past. */
  lemma ReplyKeepsPast(pol: Policy, s: C.State, s': C.State, p: Pid, c: F.Call)
    requires s.Phase(p).Returning? && !s.Phase(p).reply.Closed? && s'.Phase(p).Idle? && s'.log == s.log
    requires (c.pc.AskToken? || c.pc.AskRefresh?) && s.Phase(p).op == Wanted(c) && C.InProgress(s, p)
    requires F.Fits(pol, c, Heard(c, s.Phase(p).reply)) && (c.pc.AskRefresh? ==> c.refreshed)
    requires DeniedEnds(s, p, c) && RefreshSticks(s, p, c)
    ensures var c' := F.Step(pol, c, Heard(c, s.Phase(p).reply));
            DeniedEnds(s', p, c') && RefreshSticks(s', p, c') && !c'.pc.AskRefresh?
  {
  }

  lemma AnswerKeepsPast(pol: Policy, w: World, a: Action)
    requires (a.Local? || a.Got?) && Enabled(pol, w, a) && C.InProgress(w.cache, a.p)
    requires CallOk(pol, w.cache, a.p, w.runs[a.p]) && Past(pol, w, a.p)
    requires F.Possible(pol, Next(pol, w, a).runs[a.p])
    ensures Past(pol, Next(pol, w, a), a.p)
  {
    var c, e, s' := At(pol, w, a.p), Brought(pol, w, a), Next(pol, w, a).cache;
    F.Extend(pol, w.runs[a.p], e);
    if a.Local? {
      LocalAnswerKeepsPast(pol, w.cache, s', a.p, c, e);
    } else {
      ReplyKeepsPast(pol, w.cache, s', a.p, c);
    }
  }

  /** A call enters the cache, or something happens to somebody else: the log stays. */
  lemma OtherStepKeepsPast(pol: Policy, w: World, a: Action, p: Pid)
    requires Enabled(pol, w, a) && !a.Inside? && !Answers(a, p)
    requires (p in w.runs ==> CallOk(pol, w.cache, p, w.runs[p])) && Outsider(w, p) && Past(pol, w, p)
    requires p in Next(pol, w, a).runs ==> F.Possible(pol, Next(pol, w, a).runs[p])
    ensures Past(pol, Next(pol, w, a), p)
  {
    var s, s' := w.cache, Next(pol, w, a).cache;
    assert s'.log == s.log;
    if p in w.runs {
      assert s'.Phase(p) == s.Phase(p) || (a == Ask(p) && s.Phase(p).Idle?);
    }
  }

  lemma StepKeepsPast(pol: Policy, w: World, a: Action, p: Pid)
    requires Inv(pol, w) && Enabled(pol, w, a) && Past(pol, w, p)
    requires p in Next(pol, w, a).runs ==> F.Possible(pol, Next(pol, w, a).runs[p])
    ensures Past(pol, Next(pol, w, a), p)
  {
    assert Outsider(w, p) && C.InProgress(w.cache, p);
    assert p in w.runs ==> CallOk(pol, w.cache, p, w.runs[p]);
    if a.Inside? {
      InnerStepKeepsPast(pol, w, a.a, p);
    } else if Answers(a, p) {
      AnswerKeepsPast(pol, w, a);
    } else {
      OtherStepKeepsPast(pol, w, a, p);
    }
  }

  lemma {:induction false} RunsKeepPast(pol: Policy, run: seq<Action>, p: Pid)
    requires Possible(pol, run)
    ensures Inv(pol, After(pol, run)) && Past(pol, After(pol, run), p)
  {
    if run != [] {
      RunsKeepPast(pol, run[..|run| - 1], p);
      StepKeepsInv(pol, After(pol, run[..|run| - 1]), run[|run| - 1]);
      StepKeepsPast(pol, After(pol, run[..|run| - 1]), run[|run| - 1], p);
    }
  }

  /** Every refresh was made by a Do call that had been answered 401 under the generation it names. */
  ghost predicate RefreshesBlamed(w: World) {
    forall i | 0 <= i < |w.cache.log| && w.cache.log[i].op.RefreshOp? :: RefreshBlamed(w, i)
  }

  ghost predicate RefreshBlamed(w: World, i: nat)
    requires i < |w.cache.log| && w.cache.log[i].op.RefreshOp?
  {
    var c := w.cache.log[i];
    && c.pid in w.runs && F.Rejected(c.op.stale, w.runs[c.pid])
    && c.op.stale <= C.Before(w.cache.log, i).gen
  }

  /** The refresh that takes effect now is a rejected call's, of an issued generation. */
  lemma CommitIsBlamed(pol: Policy, w: World, p: Pid)
    requires Outsider(w, p) && (p in w.runs ==> CallOk(pol, w.cache, p, w.runs[p]))
    requires w.cache.Phase(p).Critical() && w.cache.Phase(p).op.RefreshOp?
    ensures p in w.runs && F.Rejected(w.cache.Phase(p).op.stale, w.runs[p])
    ensures w.cache.Phase(p).op.stale <= w.cache.gen
  {
    F.RunSees(pol, w.runs[p]);
  }

  lemma OldRefreshStaysBlamed(pol: Policy, w: World, a: Action, i: nat)
    requires Enabled(pol, w, a) && i < |w.cache.log| && w.cache.log[i].op.RefreshOp? && RefreshBlamed(w, i)
    requires var log' := Next(pol, w, a).cache.log; |w.cache.log| <= |log'| && log'[..|w.cache.log|] == w.cache.log
    ensures Next(pol, w, a).cache.log[i] == w.cache.log[i] && RefreshBlamed(Next(pol, w, a), i)
  {
    var s := w.cache;
    RejectionLasts(pol, w, a, s.log[i].pid, s.log[i].op.stale);
    assert Next(pol, w, a).cache.log[i] == s.log[i];
    assert C.Before(Next(pol, w, a).cache.log, i) == C.Before(s.log, i);
  }

  /** The commit a machine step makes is its goroutine's. */
  lemma CommitIsActors(s: C.State, a: C.Action)
    requires C.Sound(s, a) && C.Enabled(s, a) && C.Next(s, a).log != s.log
    ensures var log' := C.Next(s, a).log;
            && |log'| == |s.log| + 1 && !a.Reject? && log'[|s.log|].pid == a.p
            && log'[|s.log|].op == s.Phase(a.p).op && s.Phase(a.p).Critical()
            && C.Before(log', |s.log|).gen == C.Before(s.log, |s.log|).gen
  {
    C.StepRefines(s, a);
  }

  /** What is known of the goroutine that takes a machine step. */
  ghost predicate ActorOk(pol: Policy, w: World, a: C.Action) {
    C.Sound(w.cache, a) && Inner(a) && Outsider(w, a.p) && (a.p in w.runs ==> CallOk(pol, w.cache, a.p, w.runs[a.p]))
  }

  lemma NewRefreshIsBlamed(pol: Policy, w: World, a: C.Action)
    requires ActorOk(pol, w, a) && C.Enabled(w.cache, a) && C.Next(w.cache, a).log != w.cache.log
    requires C.LogExplains(w.cache)
    ensures var w' := World(C.Next(w.cache, a), w.runs);
            && |w'.cache.log| == |w.cache.log| + 1
            && (w'.cache.log[|w.cache.log|].op.RefreshOp? ==> RefreshBlamed(w', |w.cache.log|))
  {
    CommitIsActors(w.cache, a);
    if w.cache.Phase(a.p).op.RefreshOp? {
      CommitIsBlamed(pol, w, a.p);
    }
  }

  lemma OldRefreshesStayBlamed(pol: Policy, w: World, a: Action)
    requires Enabled(pol, w, a) && RefreshesBlamed(w)
    requires var log' := Next(pol, w, a).cache.log; |w.cache.log| <= |log'| && log'[..|w.cache.log|] == w.cache.log
    ensures var w' := Next(pol, w, a);
            forall i | 0 <= i < |w.cache.log| && w'.cache.log[i].op.RefreshOp? :: RefreshBlamed(w', i)
  {
    var log' := Next(pol, w, a).cache.log;
    forall i | 0 <= i < |w.cache.log| && log'[i].op.RefreshOp? ensures RefreshBlamed(Next(pol, w, a), i) {
      assert log'[i] == w.cache.log[i] && RefreshBlamed(w, i);
      OldRefreshStaysBlamed(pol, w, a, i);
    }
  }

  /** What a step adds to the log, at most one commit, is blamed. */
  lemma NewRefreshesAreBlamed(pol: Policy, w: World, a: Action)
    requires Enabled(pol, w, a) && C.LogExplains(w.cache) && (a.Inside? ==> ActorOk(pol, w, a.a))
    ensures var w' := Next(pol, w, a);
            forall i | |w.cache.log| <= i < |w'.cache.log| && w'.cache.log[i].op.RefreshOp? :: RefreshBlamed(w', i)
  {
    if a.Inside? {
      assert Next(pol, w, a) == World(C.Next(w.cache, a.a), w.runs);
      if C.Next(w.cache, a.a).log != w.cache.log {
        NewRefreshIsBlamed(pol, w, a.a);
      }
    } else {
      assert Next(pol, w, a).cache.log == w.cache.log;
    }
  }

  lemma RefreshBlameKept(pol: Policy, w: World, a: Action)
    requires Inv(pol, w) && Enabled(pol, w, a) && RefreshesBlamed(w)
    ensures RefreshesBlamed(Next(pol, w, a))
  {
    CacheKept(pol, w, a);
    if a.Inside? {
      C.InvIsSound(w.cache, a.a);
      assert Outsider(w, a.a.p);
    }
    OldRefreshesStayBlamed(pol, w, a);
    NewRefreshesAreBlamed(pol, w, a);
  }

  lemma {:induction false} RunsKeepRefreshBlame(pol: Policy, run: seq<Action>)
    requires Possible(pol, run)
    ensures RefreshesBlamed(After(pol, run))
  {
    if run != [] {
      RunsKeepRefreshBlame(pol, run[..|run| - 1]);
      RunsKeepInv(pol, run[..|run| - 1]);
      RefreshBlameKept(pol, After(pol, run[..|run| - 1]), run[|run| - 1]);
    }
  }

  /** Without Close, any two refreshes of one generation belong to two different Do calls that were
      both answered 401 under it, at most one of them fetches, that fetch creates the next generation,
      and both are granted something newer than what was rejected. */
  lemma RefreshersShareOneFetch(pol: Policy, run: seq<Action>, w: World, i: nat, j: nat)
    requires Possible(pol, run) && w == After(pol, run) && w.cache.dropped == {} && i < j < |w.cache.log|
    requires w.cache.log[i].op.RefreshOp? && w.cache.log[j].op == w.cache.log[i].op
    ensures var a, b, g := w.cache.log[i], w.cache.log[j], w.cache.log[i].op.stale;
            && a.pid != b.pid && a.pid in w.runs && b.pid in w.runs
            && F.Rejected(g, w.runs[a.pid]) && F.Rejected(g, w.runs[b.pid])
            && (C.Fetches(a) ==> b.asked == [])
            && (a.reply.Granted? ==> a.reply.gen > g) && (b.reply.Granted? ==> b.reply.gen > g)
            && (C.Fetches(a) ==> a.reply.Granted? && a.reply.gen == g + 1)
  {
    RunsKeepRefreshBlame(pol, run);
    assert RefreshBlamed(w, i) && RefreshBlamed(w, j);
    RunsKeepPast(pol, run, w.cache.log[i].pid);
    C.OneFetchPerGeneration(w.cache, w.cache.log[i].op.stale, i, j);
  }

  /** Which of the Do calls answered 401 under one generation ask IAM: those whose refresh comes before
      the first grant of the next generation, and no other.  While IAM refuses, each of them asks. */
  lemma RefreshAsksIff(pol: Policy, run: seq<Action>, w: World, i: nat)
    requires Possible(pol, run) && w == After(pol, run) && w.cache.dropped == {}
    requires i < |w.cache.log| && w.cache.log[i].op.RefreshOp?
    ensures var log := w.cache.log;
            log[i].asked == [] <==>
            exists k | 0 <= k < i :: C.Fetches(log[k]) && log[k].left.gen == log[i].op.stale + 1
  {
    RunsKeepRefreshBlame(pol, run);
    RunsKeepInv(pol, run);
    assert RefreshBlamed(w, i);
    C.RefreshAsksIff(w.cache, w.cache.log[i].op.stale, i);
  }

  /** Commit i is a token request of `p` to IAM, successful or not. */
  predicate AsksIam(s: C.State, p: Pid, i: nat) {
    i < |s.log| && s.log[i].pid == p && s.log[i].asked != []
  }

  lemma RequestFacts(s: C.State, p: Pid, i: nat)
    requires C.Sequential(s.log) && C.Unbroken(s) && s.dropped == {} && AsksIam(s, p, i)
    ensures s.log[i].op.TokenOp? || s.log[i].op.RefreshOp?
    ensures s.log[i].op.TokenOp? ==> C.Before(s.log, i).gen == 0
    ensures s.log[i].reply.Denied? || C.Before(s.log, i + 1).gen > 0
  {
    assert C.StepOf(s.log, i);
  }

  /** Two of them without Close cannot both have been for Token, nor both for Refresh. */
  lemma TwoRequestsDiffer(s: C.State, p: Pid, i: nat, j: nat)
    requires C.Sequential(s.log) && C.Unbroken(s) && s.dropped == {}
    requires i < j && AsksIam(s, p, i) && AsksIam(s, p, j)
    requires !s.log[i].reply.Denied? && !(s.log[i].op.RefreshOp? && s.log[j].op.RefreshOp?)
    ensures s.log[i].op.TokenOp? != s.log[j].op.TokenOp?
  {
    RequestFacts(s, p, i);
    RequestFacts(s, p, j);
    C.GenerationsRise(s.log, i + 1, j);
  }

  /** Without Close, one Do makes at most two token requests to IAM: one because nothing was cached
      and one because of a 401. */
  lemma AtMostTwoFetches(pol: Policy, run: seq<Action>, s: C.State, p: Pid, i: nat, j: nat, k: nat)
    requires Possible(pol, run) && p in After(pol, run).runs && s == After(pol, run).cache
    requires s.dropped == {} && i < j < k
    ensures !AsksIam(s, p, i) || !AsksIam(s, p, j) || !AsksIam(s, p, k)
  {
    RunsKeepPast(pol, run, p);
    if AsksIam(s, p, i) && AsksIam(s, p, j) && AsksIam(s, p, k) {
      TwoRequestsDiffer(s, p, i, j);
      TwoRequestsDiffer(s, p, j, k);
      TwoRequestsDiffer(s, p, i, k);
      assert false;
    }
  }

  /** The token requests of `p` to IAM among the first k commits. */
  function Asks(s: C.State, p: Pid, k: nat): nat {
    if k == 0 then 0 else Asks(s, p, k - 1) + if AsksIam(s, p, k - 1) then 1 else 0
  }

  lemma {:induction false} LastAsk(s: C.State, p: Pid, k: nat) returns (i: nat)
    requires Asks(s, p, k) > 0
    ensures i < k && AsksIam(s, p, i) && Asks(s, p, i) == Asks(s, p, k) - 1
  {
    if AsksIam(s, p, k - 1) {
      i := k - 1;
    } else {
      i := LastAsk(s, p, k - 1);
    }
  }

  lemma {:induction false} AsksAtMostTwice(pol: Policy, run: seq<Action>, s: C.State, p: Pid, k: nat)
    requires Possible(pol, run) && p in After(pol, run).runs && s == After(pol, run).cache && s.dropped == {}
    ensures Asks(s, p, k) <= 2
  {
    if Asks(s, p, k) > 2 {
      var c := LastAsk(s, p, k);
      var b := LastAsk(s, p, c);
      var a := LastAsk(s, p, b);
      AtMostTwoFetches(pol, run, s, p, a, b, c);
    }
  }

  // ------------------------------------------------------------------ termination

  /** The answers a call can still get. */
  function AnswersLeft(pol: Policy, es: seq<F.Event>): int {
    4 * Budget(pol) + 2 - |es|
  }

  /** The steps goroutine `p` has left: up to eight for every answer, seven of them inside the cache. */
  function StepsLeft(pol: Policy, w: World, p: Pid): int {
    var inside := C.StepsLeft(w.cache.Phase(p));
    if p !in w.runs then inside
    else 8 * AnswersLeft(pol, w.runs[p]) + if inside == 0 then 0 else inside - 8
  }

  /** A call whose answer is still to come has room for it. */
  lemma StepsLeftIsNat(pol: Policy, w: World, p: Pid)
    requires p in w.runs ==> CallOk(pol, w.cache, p, w.runs[p])
    ensures 0 <= StepsLeft(pol, w, p) <= 32 * Budget(pol) + 16
  {
    if p in w.runs {
      F.RunSpends(pol, w.runs[p]);
      F.CostCountsAnswers(w.runs[p]);
    }
  }

  /** The goroutine an action is about. */
  function Mover(a: Action): Pid
    requires a.Inside? ==> Inner(a.a)
  {
    match a
    case Start(p) => p
    case Local(p, _) => p
    case Ask(p) => p
    case Inside(step) => step.p
    case Got(p) => p
    case Close(p) => p
    case Closed(p) => p
  }

  lemma OthersStand(pol: Policy, w: World, a: Action, q: Pid)
    requires Enabled(pol, w, a) && q != Mover(a)
    ensures StepsLeft(pol, Next(pol, w, a), q) == StepsLeft(pol, w, q)
  {
    assert Next(pol, w, a).cache.Phase(q) == w.cache.Phase(q);
  }

  lemma MoverSpends(pol: Policy, w: World, a: Action)
    requires Enabled(pol, w, a) && !a.Start? && !a.Close?
    requires var p := Mover(a); p in w.runs ==> CallOk(pol, w.cache, p, w.runs[p])
    ensures StepsLeft(pol, Next(pol, w, a), Mover(a)) < StepsLeft(pol, w, Mover(a))
  {
  }

  /** The steps the goroutines below `n` have left. */
  function Left(pol: Policy, w: World, n: nat): int {
    if n == 0 then 0 else Left(pol, w, n - 1) + StepsLeft(pol, w, n - 1)
  }

  lemma {:induction false} LeftMoves(pol: Policy, w: World, w': World, p: Pid, n: nat)
    requires forall q: Pid | q != p :: StepsLeft(pol, w', q) == StepsLeft(pol, w, q)
    requires StepsLeft(pol, w', p) < StepsLeft(pol, w, p)
    ensures if p < n then Left(pol, w', n) < Left(pol, w, n) else Left(pol, w', n) == Left(pol, w, n)
  {
    if n > 0 {
      LeftMoves(pol, w, w', p, n - 1);
    }
  }

  lemma {:induction false} LeftIsNat(pol: Policy, w: World, n: nat)
    requires forall p | p in w.runs :: CallOk(pol, w.cache, p, w.runs[p])
    ensures 0 <= Left(pol, w, n) <= (32 * Budget(pol) + 16) * n
  {
    if n > 0 {
      LeftIsNat(pol, w, n - 1);
      StepsLeftIsNat(pol, w, n - 1);
      assert (32 * Budget(pol) + 16) * n == (32 * Budget(pol) + 16) * (n - 1) + (32 * Budget(pol) + 16);
    }
  }

  /** Neither a new call nor a new Close. */
  predicate Finishing(a: Action, n: nat) {
    !a.Start? && !a.Close? && (a.Inside? ==> Inner(a.a)) && Mover(a) < n
  }

  lemma StepSpends(pol: Policy, w: World, a: Action, n: nat)
    requires Inv(pol, w) && Enabled(pol, w, a) && Finishing(a, n)
    ensures Left(pol, Next(pol, w, a), n) < Left(pol, w, n)
  {
    var w' := Next(pol, w, a);
    forall q: Pid | q != Mover(a) ensures StepsLeft(pol, w', q) == StepsLeft(pol, w, q) {
      OthersStand(pol, w, a, q);
    }
    MoverSpends(pol, w, a);
    LeftMoves(pol, w, w', Mover(a), n);
  }

  /** Whatever the scheduler, the API, IAM and the contexts do, calls finish: after `k` steps of any run,
      n goroutines can take only so many more before each needs a new Do or Close; N attempts a call
      make that at most 32 N + 16 steps each. */
  lemma {:induction false} EveryScheduleEnds(pol: Policy, run: seq<Action>, k: nat, n: nat)
    requires Possible(pol, run) && k <= |run| && Possible(pol, run[..k])
    requires forall i | k <= i < |run| :: Finishing(run[i], n)
    ensures |run| - k <= Left(pol, After(pol, run[..k]), n) - Left(pol, After(pol, run), n)
    ensures |run| - k <= (32 * Budget(pol) + 16) * n
  {
    RunsKeepInv(pol, run);
    LeftIsNat(pol, After(pol, run), n);
    RunsKeepInv(pol, run[..k]);
    LeftIsNat(pol, After(pol, run[..k]), n);
    if k == |run| {
      assert run[..k] == run;
    } else {
      var init := run[..|run| - 1];
      assert init[..k] == run[..k];
      EveryScheduleEnds(pol, init, k, n);
      RunsKeepInv(pol, init);
      StepSpends(pol, After(pol, init), run[|run| - 1], n);
    }
  }

  /** A call that is not waiting for the cache can get an answer. */
  lemma CallerCanMove(pol: Policy, w: World, p: Pid) returns (a: Action)
    requires Inv(pol, w) && p in w.runs && F.Possible(pol, w.runs[p])
    requires var pc := At(pol, w, p).pc; !pc.Done? && !pc.AskToken? && !pc.AskRefresh?
    ensures Offered(pol, w, a) && a.Local? && a.p == p
  {
    var c := At(pol, w, p);
    match c.pc
    case Head => a := Local(p, F.CtxErr(Canceled));
    case Send => a := Local(p, F.NotSent(c.token, c.gen, Canceled, false));
    case Resend => a := Local(p, F.NotSent(c.token, c.gen, Canceled, false));
    case Nap => a := Local(p, F.Woken(Canceled));
  }

  /** A goroutine inside the cache can move, or the one that holds the lock can. */
  lemma WaiterCanMove(s: C.State, p: Pid) returns (a: C.Action)
    requires C.Inv(s) && !s.Phase(p).Idle? && !s.Phase(p).Returning?
    ensures Inner(a) && C.Enabled(s, a)
  {
    assert C.OneHolder(s);
    var q := if s.lock.Some? then s.lock.value else p;
    match s.Phase(q)
    case Waiting(_, _) => a := C.Acquire(q);
    case Locked(_, _) => a := C.Decide(q);
    case Fetching(_, _) => a := C.Answer(q, Err(Canceled));
    case Fetched(_, _, _) => a := C.Store(q);
    case Stored(_, _, _, _) => a := C.Bump(q);
    case Committed(_, _, _, _) => a := C.Unlock(q);
  }

  /** No call is ever stuck: while one is unfinished, something other than a new call or Close can
      happen. */
  lemma SomebodyCanMove(pol: Policy, run: seq<Action>, w: World, p: Pid) returns (a: Action)
    requires Possible(pol, run) && w == After(pol, run)
    requires p in w.runs && F.Possible(pol, w.runs[p]) && !At(pol, w, p).pc.Done?
    ensures Enabled(pol, w, a) && !a.Start? && !a.Close?
  {
    RunsKeepInv(pol, run);
    assert CallOk(pol, w.cache, p, w.runs[p]);
    var c := At(pol, w, p);
    if !c.pc.AskToken? && !c.pc.AskRefresh? {
      a := CallerCanMove(pol, w, p);
    } else if w.cache.Phase(p).Idle? {
      a := Ask(p);
    } else if w.cache.Phase(p).Returning? {
      RepliesRise(w.cache, p, c);
      a := Got(p);
    } else {
      var step := WaiterCanMove(w.cache, p);
      a := Inside(step);
    }
    NothingIsRefused(pol, w, a);
  }
}
