/** internal/transport/executor.go: what one Executor.Do call does, as an automaton over the answers
    it gets.  The context, the authenticator, the API and the timer are adversaries: a run is any
    sequence of their answers. */
module Funnel {
  import opened Errors
  import opened Numbers
  import opened Retry

  datatype Outcome = Response(status: int) | Failed(error: Error)

  datatype Pc =
    | Head                      // about to look at the context
    | AskToken                  // in Authenticator.Token
    | Send                      // in the first send of the attempt
    | AskRefresh                // in Authenticator.Refresh
    | Resend                    // in the off-budget send
    | Nap                       // sleeping before the next attempt
    | Done(outcome: Outcome)

  /** `gen` is the generation of the newest token held; `stale` the one given to Refresh. */
  datatype Call = Call(pc: Pc, attempt: int, refreshed: bool, token: string, gen: nat, stale: nat)

  const START := Call(Head, 1, false, "", 0, 0)

  /** `transient` is the verdict of the text-based network classifier, false on cancellation. */
  datatype Event =
    | CtxOk
    | CtxErr(e: Error)
    | TokenOk(token: string, gen: nat)
    | TokenErr(e: Error)
    | Sent(token: string, gen: nat, status: int)
    | NotSent(token: string, gen: nat, e: Error, transient: bool)
    | RefreshOk(token: string, gen: nat)
    | RefreshErr(e: Error)
    | Slept(d: int)
    | Woken(e: Error)

  /** `e` answers what the call is waiting for. */
  predicate Fits(p: Policy, c: Call, e: Event) {
    match c.pc
    case Head => e.CtxOk? || e.CtxErr?
    case AskToken => e.TokenOk? || e.TokenErr?
    case Send | Resend =>
      && (e.Sent? || e.NotSent?) && e.token == c.token && e.gen == c.gen
      && (e.NotSent? && e.e.IsCancellation() ==> !e.transient)
    case AskRefresh => e.RefreshOk? || e.RefreshErr?
    case Nap => (e.Slept? && IsDelay(p, c.attempt, e.d)) || e.Woken?
    case Done(_) => false
  }

  /** Errors leave Do as catalog errors. */
  function Wrap(e: Error, attempt: int): Error {
    if e.HasCommunication() || e.HasAuth() then e else CommunicationError(0, attempt, Some(e))
  }

  function Fail(c: Call, e: Error): Call {
    c.(pc := Done(Failed(Wrap(e, c.attempt))))
  }

  /** The attempt ended with a retryable failure. */
  function Again(p: Policy, c: Call, e: Error): Call {
    if c.attempt == Budget(p) then Fail(c, e) else c.(pc := Nap)
  }

  /** A response that is not going to be refreshed away. */
  function Classify(p: Policy, c: Call, status: int): Call {
    if ClassifyStatus(status) == Retryable then Again(p, c, CommunicationError(status, c.attempt, None))
    else c.(pc := Done(Response(status)))
  }

  function Step(p: Policy, c: Call, e: Event): Call
    requires Fits(p, c, e)
  {
    match e
    case CtxOk => c.(pc := AskToken)
    case CtxErr(x) => Fail(c, x)
    case TokenOk(t, g) => c.(pc := Send, token := t, gen := g)
    case TokenErr(x) => Fail(c, x)
    case NotSent(_, _, x, transient) =>
      if c.pc.Send? && x.IsCancellation() then Fail(c, x)
      else if transient then Again(p, c, x)
      else Fail(c, CommunicationError(0, c.attempt, Some(x)))
    case Sent(_, _, status) =>
      if c.pc.Send? && status == 401 && !c.refreshed then c.(pc := AskRefresh, refreshed := true, stale := c.gen)
      else Classify(p, c, status)
    case RefreshOk(t, g) => c.(pc := Resend, token := t, gen := g)
    case RefreshErr(x) => Fail(c, x)
    case Slept(_) => c.(pc := Head, attempt := c.attempt + 1)
    case Woken(x) => Fail(c, x)
  }

  /** The answers `es` can come in this order, and where they leave the call. */
  predicate Possible(p: Policy, es: seq<Event>)
    decreases |es|, 0
  {
    es == [] || (Possible(p, es[..|es| - 1]) && Fits(p, After(p, es[..|es| - 1]), es[|es| - 1]))
  }

  function After(p: Policy, es: seq<Event>): Call
    requires Possible(p, es)
    decreases |es|, 1
  {
    if es == [] then START else Step(p, After(p, es[..|es| - 1]), es[|es| - 1])
  }

  lemma Extend(p: Policy, es: seq<Event>, e: Event)
    requires Possible(p, es) && Fits(p, After(p, es), e)
    ensures Possible(p, es + [e]) && After(p, es + [e]) == Step(p, After(p, es), e)
    ensures Cost(es + [e]) == Cost(es).Plus(e)
  {
    assert (es + [e])[..|es|] == es;
  }

  // ------------------------------------------------------------------ counting

  /** What a sequence of answers cost.  `resends` counts the refreshes that led to a second send. */
  datatype Bill = Bill(sends: int, tokens: int, refreshes: int, resends: int, waited: int, answers: int)
  {
    function Plus(e: Event): Bill {
      Bill(
        sends + (if e.Sent? || e.NotSent? then 1 else 0),
        tokens + (if e.TokenOk? || e.TokenErr? then 1 else 0),
        refreshes + (if e.RefreshOk? || e.RefreshErr? then 1 else 0),
        resends + (if e.RefreshOk? then 1 else 0),
        waited + (if e.Slept? then e.d else 0),
        answers + 1)
    }
  }

  function Cost(es: seq<Event>): Bill {
    if es == [] then Bill(0, 0, 0, 0, 0, 0) else Cost(es[..|es| - 1]).Plus(es[|es| - 1])
  }

  lemma {:induction false} CostCountsAnswers(es: seq<Event>)
    ensures Cost(es).answers == |es|
  {
    if es != [] {
      CostCountsAnswers(es[..|es| - 1]);
    }
  }

  function LongestDelay(p: Policy): int {
    if p.maxDelay > 0 then p.maxDelay else 0
  }

  /** What has been spent when the call is at `c`, exactly. */
  predicate Spent(p: Policy, c: Call, b: Bill) {
    var k, r := c.attempt, b.resends;
    && 1 <= k <= Budget(p)
    && (c.pc.AskRefresh? || c.pc.Resend? ==> c.refreshed)
    && b.refreshes == (if c.refreshed && !c.pc.AskRefresh? then 1 else 0)
    && 0 <= r <= b.refreshes
    && (c.pc.Done? || c.pc.AskRefresh? || r == b.refreshes)
    && 0 <= b.waited <= (k - 1) * LongestDelay(p)
    && b.answers <= 4 * (k - 1) + 2 * b.refreshes + 4
    && match c.pc
       case Head => b.sends == k - 1 + r && b.tokens == k - 1 && b.answers <= 4 * (k - 1) + 2 * r
       case AskToken => b.sends == k - 1 + r && b.tokens == k - 1 && b.answers <= 4 * (k - 1) + 2 * r + 1
       case Send => b.sends == k - 1 + r && b.tokens == k && b.answers <= 4 * (k - 1) + 2 * r + 2
       case AskRefresh => b.sends == k && r == 0 && b.tokens == k && b.answers <= 4 * (k - 1) + 3
       case Resend => b.sends == k && r == 1 && b.tokens == k && b.answers <= 4 * (k - 1) + 4
       case Nap => b.sends == k + r && b.tokens == k && b.answers <= 4 * (k - 1) + 2 * r + 3 && k < Budget(p)
       case Done(Response(_)) => b.sends == k + r && r == b.refreshes && b.tokens == k
       case Done(Failed(_)) => k - 1 + r <= b.sends <= k + r && k - 1 <= b.tokens <= k
  }

  lemma StepSpends(p: Policy, c: Call, b: Bill, e: Event)
    requires Fits(p, c, e) && Spent(p, c, b)
    ensures Spent(p, Step(p, c, e), b.Plus(e))
  {
    if e.Slept? {
      assert c.attempt * LongestDelay(p) == (c.attempt - 1) * LongestDelay(p) + LongestDelay(p);
    }
  }

  lemma {:induction false} RunSpends(p: Policy, es: seq<Event>)
    requires Possible(p, es)
    ensures Spent(p, After(p, es), Cost(es))
  {
    if es != [] {
      var init := es[..|es| - 1];
      RunSpends(p, init);
      StepSpends(p, After(p, init), Cost(init), es[|es| - 1]);
    }
  }

  /** The budget of one Do, whatever it meets: with N effective attempts at most N + 1 sends, one
      Refresh, N token requests, N - 1 sleeps' worth of waiting, and 4N + 2 answers in all before it
      is done.  A returned response cost exactly one send per attempt and one more for the refresh. */
  lemma DoStaysInBudget(p: Policy, es: seq<Event>)
    requires Possible(p, es)
    ensures var n := Budget(p); var c := After(p, es); var b := Cost(es);
            && b.sends <= n + 1
            && b.refreshes <= 1
            && b.tokens <= n
            && b.waited <= (n - 1) * LongestDelay(p)
            && |es| <= 4 * n + 2
            && (c.pc.Done? && c.pc.outcome.Response? ==> b.sends == c.attempt + b.refreshes)
  {
    RunSpends(p, es);
    CostCountsAnswers(es);
    Scale(After(p, es).attempt - 1, Budget(p) - 1, LongestDelay(p));
  }

  // ------------------------------------------------------------------ what comes back

  /** What the call hands back, in terms of its last answer: never a retryable status, and always a
      catalog error. An error status reaches the caller as a CommunicationError with that status only
      after the whole budget. */
  lemma OutcomeIsCatalogued(p: Policy, es: seq<Event>)
    requires Possible(p, es) && After(p, es).pc.Done?
    ensures es != []
    ensures var last := es[|es| - 1];
            match After(p, es).pc.outcome
            case Response(status) => last.Sent? && last.status == status && ClassifyStatus(status) != Retryable
            case Failed(e) =>
              && (e.HasCommunication() || e.HasAuth())
              && (last.Sent? ==> After(p, es).attempt == Budget(p) && ClassifyStatus(last.status) == Retryable
                                 && e == CommunicationError(last.status, Budget(p), None))
  {
    assert es != [];
    var init := es[..|es| - 1];
    RunSpends(p, init);
  }

  /** The error an answer carries. */
  function Trouble(e: Event): Option<Error> {
    match e
    case CtxErr(x) => Some(x)
    case TokenErr(x) => Some(x)
    case NotSent(_, _, x, _) => Some(x)
    case RefreshErr(x) => Some(x)
    case Woken(x) => Some(x)
    case _ => None
  }

  /** A send failed in a way that is neither retried nor taken for the caller's cancellation. */
  predicate Hopeless(c: Call, e: Event) {
    e.NotSent? && !e.transient && !(c.pc.Send? && e.e.IsCancellation())
  }

  /** The call failed on an answer that carried an error. */
  predicate FailsOnError(p: Policy, es: seq<Event>) {
    && Possible(p, es) && es != []
    && After(p, es).pc.Done? && After(p, es).pc.outcome.Failed?
    && Trouble(es[|es| - 1]).Some?
  }

  /** Every failure that is not a status comes from an error the call met, and keeps its kind: it reads
      as an AuthError exactly when that error does, and as cancelled exactly when that error does. */
  lemma FailuresKeepTheirKind(p: Policy, es: seq<Event>)
    requires Possible(p, es) && es != [] && !es[|es| - 1].Sent?
    requires After(p, es).pc.Done? && After(p, es).pc.outcome.Failed?
    ensures FailsOnError(p, es)
    ensures var x, e := After(p, es).pc.outcome.error, Trouble(es[|es| - 1]).value;
            x.HasAuth() == e.HasAuth() && x.IsCancellation() == e.IsCancellation()
  {
    var e := Trouble(es[|es| - 1]).value;
    var w := CommunicationError(0, After(p, es).attempt, Some(e));
    assert w.HasAuth() == e.HasAuth() && w.IsCancellation() == e.IsCancellation();
  }

  /** Do hands the error it met back as it is exactly when that error is from the catalog already and
      did not come from a hopeless send; every other one comes back inside a CommunicationError.  So
      a bare cancellation never comes back. */
  lemma RawErrorReturnedIff(p: Policy, es: seq<Event>)
    requires FailsOnError(p, es)
    ensures var last := es[|es| - 1];
            var x, e, c := After(p, es).pc.outcome.error, Trouble(last).value, After(p, es[..|es| - 1]);
            && (x == e <==> (e.HasCommunication() || e.HasAuth()) && !Hopeless(c, last))
            && (x != e ==> x == CommunicationError(0, c.attempt, Some(e)))
            && x != Canceled && x != DeadlineExceeded
  {
    var e := Trouble(es[|es| - 1]).value;
    var w := CommunicationError(0, After(p, es[..|es| - 1]).attempt, Some(e));
    assert e < w;
  }

  /** Cancellation ends the call at once, wherever it is noticed, and never comes back bare. */
  lemma CancellationEndsTheCall(p: Policy, es: seq<Event>)
    requires Possible(p, es) && es != []
    requires Trouble(es[|es| - 1]).Some? && Trouble(es[|es| - 1]).value.IsCancellation()
    ensures FailsOnError(p, es)
    ensures var x := After(p, es).pc.outcome.error;
            x.IsCancellation() && (x.HasCommunication() || x.HasAuth()) && x != Canceled && x != DeadlineExceeded
  {
    assert FailsOnError(p, es);
    FailuresKeepTheirKind(p, es);
    RawErrorReturnedIff(p, es);
  }

  /** An answer after which the same request may be sent again: a lost response that looks transient, or
      one of four server errors. */
  predicate WorthRetrying(e: Event) {
    (e.NotSent? && e.transient) || (e.Sent? && e.status in {500, 502, 503, 504})
  }

  /** What every answer leads to, in terms of how many tokens were asked for and whether a refresh was:
      a request worth retrying is retried until the attempts are used up, and fails only then; a first
      401 is refreshed away; every other status is handed back; every other error ends the call. */
  lemma AnswersDecide(p: Policy, es: seq<Event>)
    requires Possible(p, es) && es != []
    ensures var last, c, n := es[|es| - 1], After(p, es), if p.maxAttempts < 1 then 1 else p.maxAttempts;
            match last
            case CtxOk => c.pc.AskToken?
            case TokenOk(t, g) => c.pc.Send? && c.token == t && c.gen == g
            case RefreshOk(t, g) => c.pc.Resend? && c.token == t && c.gen == g
            case Slept(_) => c.pc.Head? && c.attempt == Cost(es).tokens + 1 <= n
            case Sent(_, _, status) =>
              if WorthRetrying(last) then GoesOn(c, Cost(es).tokens, n)
              else if status == 401 && Cost(es).refreshes == 0 then c.pc.AskRefresh? && c.stale == last.gen
              else c.pc == Done(Response(status))
            case NotSent(_, _, _, transient) =>
              if transient then GoesOn(c, Cost(es).tokens, n) else c.pc.Done? && c.pc.outcome.Failed?
            case _ => c.pc.Done? && c.pc.outcome.Failed?
  {
    var init := es[..|es| - 1];
    RunSpends(p, init);
    RunSpends(p, es);
    assert After(p, es) == Step(p, After(p, init), es[|es| - 1]);
    assert Cost(es) == Cost(init).Plus(es[|es| - 1]);
  }

  /** After attempt k of n failed retryably: a sleep and another one, or the end. */
  predicate GoesOn(c: Call, k: int, n: int) {
    c.attempt == k <= n && if k < n then c.pc.Nap? else c.pc.Done? && c.pc.outcome.Failed?
  }

  /** Three attempts and a refused connection on the first: the call sleeps and will try again. */
  lemma TransientFailureIsRetried()
    ensures var p, es := Policy(3, 15 * SECOND, false),
                         [CtxOk, TokenOk("t", 1), NotSent("t", 1, Transport(111), true)];
            Possible(p, es) && After(p, es).pc == Nap
  {
    var p, lost := Policy(3, 15 * SECOND, false), NotSent("t", 1, Transport(111), true);
    assert !Transport(111).IsCancellation();
    Extend(p, [], CtxOk);
    assert [] + [CtxOk] == [CtxOk];
    Extend(p, [CtxOk], TokenOk("t", 1));
    assert [CtxOk] + [TokenOk("t", 1)] == [CtxOk, TokenOk("t", 1)];
    Extend(p, [CtxOk, TokenOk("t", 1)], lost);
    assert [CtxOk, TokenOk("t", 1)] + [lost] == [CtxOk, TokenOk("t", 1), lost];
  }

  /** A call under a cancelled context: the caller gets a CommunicationError, not the cancellation. */
  lemma CancellationIsWrapped(p: Policy)
    ensures Possible(p, [CtxErr(Canceled)])
    ensures After(p, [CtxErr(Canceled)]).pc == Done(Failed(CommunicationError(0, 1, Some(Canceled))))
  {
    assert [CtxErr(Canceled)][..0] == [];
  }

  /** IAM cannot be reached: the caller gets no AuthError. */
  lemma AuthFailureNeedNotBeAuthError(p: Policy)
    ensures var es := [CtxOk, TokenErr(Transport(111))];
            && Possible(p, es)
            && After(p, es).pc == Done(Failed(CommunicationError(0, 1, Some(Transport(111)))))
            && !After(p, es).pc.outcome.error.HasAuth()
  {
    var es := [CtxOk, TokenErr(Transport(111))];
    assert es[..1] == [CtxOk] && [CtxOk][..0] == [];
    assert !Transport(111).HasAuth() && !Transport(111).HasCommunication();
  }

  // ------------------------------------------------------------------ the attempt loop

  /** How the closure that Do retries ends on an answer, if it does. */
  function Ending(c: Call, e: Event): (a: Option<Attempt>)
    ensures a.Some? && a.value.RetryWith? <==> WorthRetrying(e) && !(c.pc.Send? && e.NotSent? && e.e.IsCancellation())
    ensures a.Some? && a.value.Succeeded? ==> e.Sent?
    ensures a.Some? && a.value.FatalWith? ==> Trouble(e).Some?
    ensures a.None? ==> e == CtxOk || e.CtxErr? || e.TokenOk? || e.RefreshOk? || e.Slept? || e.Woken?
                        || (e.Sent? && e.status == 401 && !c.refreshed)
  {
    match e
    case TokenErr(x) => Some(FatalWith(x))
    case RefreshErr(x) => Some(FatalWith(x))
    case NotSent(_, _, x, transient) =>
      Some(if c.pc.Send? && x.IsCancellation() then FatalWith(x)
           else if transient then RetryWith(x)
           else FatalWith(CommunicationError(0, c.attempt, Some(x))))
    case Sent(_, _, status) =>
      if c.pc.Send? && status == 401 && !c.refreshed then None
      else if ClassifyStatus(status) == Retryable then Some(RetryWith(CommunicationError(status, c.attempt, None)))
      else Some(Succeeded)
    case _ => None
  }

  /** The attempt loop's environment, with one more answer known. */
  function Learn(s: Script, c: Call, e: Event): Script {
    match e
    case CtxErr(x) => s.(ctx := i => if i == c.attempt then Some(x) else s.ctx(i))
    case Woken(x) => s.(sleep := i => if i == c.attempt then Some(x) else s.sleep(i))
    case _ =>
      var a := Ending(c, e);
      if a.Some? then s.(run := i => if i == c.attempt then a.value else s.run(i)) else s
  }

  /** What the answers of a run tell about the environment of retry.Do. */
  function ScriptOf(p: Policy, es: seq<Event>): Script
    requires Possible(p, es)
  {
    if es == [] then Script(_ => None, _ => Succeeded, _ => None)
    else Learn(ScriptOf(p, es[..|es| - 1]), After(p, es[..|es| - 1]), es[|es| - 1])
  }

  /** The loop over `s` is where the call is. */
  ghost predicate Mirrors(p: Policy, c: Call, s: Script) {
    var n, a := Budget(p), c.attempt;
    && 1 <= a <= n
    && (forall j | 1 <= j < a :: Continues(n, s, j))
    && (forall j | j > a :: s.ctx(j).None? && s.sleep(j).None?)
    && match c.pc
       case Done(o) =>
         && !Continues(n, s, a)
         && (match StopError(n, s, a) case None => o.Response? case Some(e) => o == Failed(Wrap(e, a)))
       case Nap => s.ctx(a).None? && s.sleep(a).None? && s.run(a).RetryWith? && a < n
       case _ => s.ctx(a).None? && s.sleep(a).None?
  }

  lemma StepMirrors(p: Policy, c: Call, s: Script, e: Event)
    requires Fits(p, c, e) && Mirrors(p, c, s)
    ensures Mirrors(p, Step(p, c, e), Learn(s, c, e))
  {
    var n, s' := Budget(p), Learn(s, c, e);
    forall j | 1 <= j < c.attempt ensures Continues(n, s', j) {
      assert Continues(n, s, j);
    }
  }

  lemma {:induction false} RunMirrors(p: Policy, es: seq<Event>)
    requires Possible(p, es)
    ensures Mirrors(p, After(p, es), ScriptOf(p, es))
  {
    if es != [] {
      var init := es[..|es| - 1];
      RunMirrors(p, init);
      StepMirrors(p, After(p, init), ScriptOf(p, init), es[|es| - 1]);
    }
  }

  /** Every finished call is a run of retry.Do: it stops at the attempt where that loop stops, with a
      response exactly when the loop succeeds and otherwise with the loop's error, wrapped. */
  lemma CallIsARetryLoop(p: Policy, es: seq<Event>)
    requires Possible(p, es) && After(p, es).pc.Done?
    ensures var s, c := ScriptOf(p, es), After(p, es);
            && StopsAt(Budget(p), s, c.attempt)
            && match StopError(Budget(p), s, c.attempt)
               case None => c.pc.outcome.Response?
               case Some(e) => c.pc.outcome == Failed(Wrap(e, c.attempt))
  {
    RunMirrors(p, es);
  }

  // ------------------------------------------------------------------ generations

  /** What the built-in cache promises one caller: the generations it hands out do not fall, and a
      Refresh moves past the generation it was given. */
  predicate Rising(c: Call, e: Event) {
    (e.TokenOk? ==> e.gen >= c.gen) && (e.RefreshOk? ==> e.gen > c.gen)
  }

  ghost predicate Rises(p: Policy, es: seq<Event>)
    requires Possible(p, es)
  {
    es == [] || (Rises(p, es[..|es| - 1]) && Rising(After(p, es[..|es| - 1]), es[|es| - 1]))
  }

  /** The API answered 401 to a send that carried generation `g`. */
  ghost predicate Rejected(g: nat, es: seq<Event>) {
    exists i :: 0 <= i < |es| && es[i].Sent? && es[i].gen == g && es[i].status == 401
  }

  ghost predicate Sees(c: Call, es: seq<Event>) {
    && (forall i | 0 <= i < |es| && (es[i].Sent? || es[i].NotSent?) :: es[i].gen <= c.gen)
    && (c.refreshed ==> Rejected(c.stale, es))
    && (c.refreshed && !c.pc.AskRefresh? && (c.pc.Done? ==> c.pc.outcome.Response?) ==> c.gen > c.stale)
    && (c.pc.AskRefresh? ==> c.refreshed && c.gen == c.stale)
    && (c.pc.Resend? ==> c.refreshed)
    && (c.pc == Done(Response(401)) ==> c.refreshed && Rejected(c.gen, es))
  }

  lemma StepSees(p: Policy, c: Call, es: seq<Event>, e: Event)
    requires Fits(p, c, e) && Sees(c, es) && Rising(c, e)
    ensures Sees(Step(p, c, e), es + [e])
  {
    var es', c' := es + [e], Step(p, c, e);
    assert es'[|es|] == e;
    assert forall g | Rejected(g, es) :: Rejected(g, es') by {
      forall g | Rejected(g, es) ensures Rejected(g, es') {
        var i :| 0 <= i < |es| && es[i].Sent? && es[i].gen == g && es[i].status == 401;
        assert es'[i] == es[i];
      }
    }
  }

  lemma {:induction false} RunSees(p: Policy, es: seq<Event>)
    requires Possible(p, es) && Rises(p, es)
    ensures Sees(After(p, es), es)
  {
    if es != [] {
      var init, e := es[..|es| - 1], es[|es| - 1];
      RunSees(p, init);
      StepSees(p, After(p, init), init, e);
      assert es == init + [e];
    }
  }

  /** The generations one call sends with never fall, and the re-send after a 401 uses a strictly
      newer one. */
  lemma {:induction false} GenerationsNeverFall(p: Policy, es: seq<Event>, i: nat, j: nat)
    requires Possible(p, es) && Rises(p, es) && i < j < |es|
    requires (es[i].Sent? || es[i].NotSent?) && (es[j].Sent? || es[j].NotSent?)
    ensures es[i].gen <= es[j].gen
    ensures es[j - 1].RefreshOk? ==> es[i].gen < es[j].gen
    decreases |es|
  {
    var init := es[..|es| - 1];
    if j < |es| - 1 {
      GenerationsNeverFall(p, init, i, j);
    } else if es[j - 1].RefreshOk? {
      assert init[..|init| - 1] == es[..j - 1] && i < j - 1;
      RunSees(p, es[..j - 1]);
      assert es[..j - 1][i] == es[i];
    } else {
      RunSees(p, init);
      assert init[i] == es[i];
    }
  }

  /** Do hands back a 401 response only after the API answered 401 to two different generations in
      that call. */
  lemma Returned401MeansTwoRejections(p: Policy, es: seq<Event>)
    returns (older: nat, newer: nat)
    requires Possible(p, es) && Rises(p, es) && After(p, es).pc == Done(Response(401))
    ensures older < newer && Rejected(older, es) && Rejected(newer, es)
  {
    RunSees(p, es);
    older, newer := After(p, es).stale, After(p, es).gen;
  }
}
