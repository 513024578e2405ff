/** internal/transport/executor.go: the request funnel as it is written, with the response bodies and
    the timeout's cancel function as objects.  What the call talks to records every answer it gives;
    other goroutines use the same token cache between any two uses of it.  Every call is the run of
    the Funnel automaton that these answers make up. */
module Executor {
  import opened Errors
  import opened Retry
  import opened TokenCache
  import opened Funnel

  /** The cancelTimeout closure and the variable it captures: `armed` is timeoutCancel != nil. */
  class Canceller {
    ghost const limited: bool
    var armed: bool
    ghost var fired: nat

    ghost predicate Valid()
      reads this
    {
      (armed ==> limited) && fired == if limited && !armed then 1 else 0
    }

    constructor (timeout: int)
      ensures Valid() && limited == (timeout > 0) == armed
    {
      limited := timeout > 0;
      armed := timeout > 0;
      fired := 0;
    }

    method Cancel()
      requires Valid()
      modifies this
      ensures Valid() && !armed
    {
      if armed {
        armed := false;
        fired := fired + 1;
      }
    }
  }

  class Body {
    var open: bool

    constructor ()
      ensures open
    {
      open := true;
    }

    /** drain: read a little, then close. */
    method Drain()
      modifies this
      ensures !open
    {
      open := false;
    }
  }

  /** What Response.Body is: the transport's body, or that body wrapped in bodyWithCancel. */
  datatype Stream = Plain(body: Body) | WithCancel(body: Body, cancel: Canceller)

  /** Response.Body.Close: the second and later calls release nothing more. */
  method Close(s: Stream)
    requires s.WithCancel? ==> s.cancel.Valid()
    modifies s.body, if s.WithCancel? then {s.cancel} else {}
    ensures !s.body.open
    ensures s.WithCancel? ==> s.cancel.Valid() && !s.cancel.armed
    ensures s.WithCancel? && s.cancel.limited ==> s.cancel.fired == 1
  {
    s.body.Drain();
    if s.WithCancel? {
      s.cancel.Cancel();
    }
  }

  datatype Answer = Arrived(status: int, stream: Body) | Lost(e: Error, transient: bool)

  /** The automaton's answer for a send of this token. */
  function Told(token: string, gen: nat, a: Answer): Event {
    match a
    case Arrived(status, _) => Sent(token, gen, status)
    case Lost(e, transient) => NotSent(token, gen, e, transient)
  }

  /** An answer that came, with the body it opened. */
  datatype Got = Got(status: int, body: Body)

  predicate Carries(e: Event) {
    e.TokenOk? || e.RefreshOk? || e.Sent? || e.NotSent?
  }

  /** A token handed out or sent is the one IAM granted under its generation, and a denial is IAM's. */
  predicate Vouched(e: Event, answers: seq<Result<string>>) {
    && (Carries(e) ==> Holds(answers, e.token, e.gen))
    && (e.TokenErr? || e.RefreshErr? ==> Err(e.e) in answers)
  }

  ghost predicate Backed(events: seq<Event>, answers: seq<Result<string>>) {
    forall i | 0 <= i < |events| :: Vouched(events[i], answers)
  }

  lemma BackedOneMore(events: seq<Event>, e: Event, before: seq<Result<string>>, after: seq<Result<string>>)
    requires Backed(events, before) && before <= after && Vouched(e, after)
    ensures Backed(events + [e], after)
  {
    GrantsGrow(before, after);
    forall i | 0 <= i < |events| ensures Vouched(events[i], after) {
      assert Vouched(events[i], before);
    }
  }

  lemma BackedTail(start: seq<Event>, es: seq<Event>, answers: seq<Result<string>>)
    requires Backed(start + es, answers)
    ensures Backed(es, answers)
  {
    forall i | 0 <= i < |es| ensures Vouched(es[i], answers) {
      assert (start + es)[|start| + i] == es[i];
    }
  }

  /** Whatever the other goroutines do with the cache, one whole operation at a time. */
  method Others(cache: Cached)
    requires cache.Valid()
    modifies cache, cache.fetcher
    ensures cache.Valid() && cache.gen >= old(cache.gen)
    ensures old(cache.fetcher.answers) <= cache.fetcher.answers
  {
    var steps: nat := *;
    while steps > 0
      invariant cache.Valid() && cache.gen >= old(cache.gen)
      invariant old(cache.fetcher.answers) <= cache.fetcher.answers
    {
      var pick: int, stale: nat := *, *;
      ghost var before := cache.Value();
      if pick == 0 {
        var r := cache.Token();
      } else if pick == 1 {
        var r := cache.Refresh(stale);
      } else {
        cache.Close();
      }
      assert cache.gen >= before.gen;
      steps := steps - 1;
    }
  }

  /** All that Do talks to: the context, the authenticator with the cache behind it, the API and the
      timer.  Nobody else writes `events`, what they answered in order; `answers` are the responses
      that came, `taken` the bodies they opened. */
  class Environment {
    const cache: Cached
    ghost var events: seq<Event>
    ghost var answers: seq<Got>
    ghost var taken: set<Body>

    ghost predicate Valid()
      reads this, cache, cache.fetcher
    {
      cache.Valid() && Backed(events, cache.fetcher.answers)
    }

    constructor (cache: Cached)
      requires cache.Valid()
      ensures Valid() && this.cache == cache && events == [] && answers == [] && taken == {}
    {
      this.cache := cache;
      events, answers, taken := [], [], {};
    }

    /** ctx.Err(). */
    method ContextErr() returns (e: Option<Error>)
      requires Valid()
      modifies `events
      ensures Valid() && events == old(events) + [match e case None => CtxOk case Some(x) => CtxErr(x)]
    {
      e := *;
      events := events + [match e case None => CtxOk case Some(x) => CtxErr(x)];
    }

    /** retry.Sleep. */
    method Sleep(d: int) returns (e: Option<Error>)
      requires Valid()
      modifies `events
      ensures Valid() && events == old(events) + [match e case None => Slept(d) case Some(x) => Woken(x)]
    {
      e := *;
      events := events + [match e case None => Slept(d) case Some(x) => Woken(x)];
    }

    /** IAM gave this error to a request made since. */
    twostate predicate IamDenied(e: Error)
      reads cache.fetcher
    {
      exists i | old(|cache.fetcher.answers|) <= i < |cache.fetcher.answers| :: cache.fetcher.answers[i] == Err(e)
    }

    /** Authenticator.Token: the cache's reply, with other goroutines at the cache before and after. */
    method Token() returns (r: Reply)
      requires Valid()
      modifies cache, cache.fetcher, `events
      ensures Valid() && cache.gen >= old(cache.gen) && !r.Closed?
      ensures events == old(events) + [if r.Granted? then TokenOk(r.token, r.gen) else TokenErr(r.error)]
      ensures r.Granted? ==> old(cache.gen) <= r.gen <= cache.gen && Holds(cache.fetcher.answers, r.token, r.gen)
      ensures r.Denied? ==> IamDenied(r.error)
    {
      Others(cache);
      ghost var before, register := cache.fetcher.answers, cache.Value();
      r := cache.Token();
      ghost var asked := cache.fetcher.answers[|before|..];
      OperationLaws(register, TokenOp, asked, cache.Value(), r);
      assert r.Denied? ==> cache.fetcher.answers[|before|] == asked[0];
      AfterReply(old(cache.fetcher.answers), r, if r.Granted? then TokenOk(r.token, r.gen) else TokenErr(r.error));
    }

    /** Authenticator.Refresh, of a generation the cache has issued. */
    method Refresh(stale: nat) returns (r: Reply)
      requires Valid() && stale <= cache.gen
      modifies cache, cache.fetcher, `events
      ensures Valid() && cache.gen >= old(cache.gen) && !r.Closed?
      ensures events == old(events) + [if r.Granted? then RefreshOk(r.token, r.gen) else RefreshErr(r.error)]
      ensures r.Granted? ==> stale < r.gen <= cache.gen && Holds(cache.fetcher.answers, r.token, r.gen)
      ensures r.Denied? ==> IamDenied(r.error)
    {
      Others(cache);
      ghost var before, register := cache.fetcher.answers, cache.Value();
      r := cache.Refresh(stale);
      ghost var asked := cache.fetcher.answers[|before|..];
      OperationLaws(register, RefreshOp(stale), asked, cache.Value(), r);
      assert r.Denied? ==> cache.fetcher.answers[|before|] == asked[0];
      AfterReply(old(cache.fetcher.answers), r, if r.Granted? then RefreshOk(r.token, r.gen) else RefreshErr(r.error));
    }

    /** The reply is on its way to the caller; others may use the cache again. */
    method AfterReply(ghost start: seq<Result<string>>, r: Reply, ghost e: Event)
      requires cache.Valid() && start <= cache.fetcher.answers && Backed(events, start)
      requires r == (if e.TokenOk? || e.RefreshOk? then Granted(e.token, e.gen)
                     else if e.TokenErr? || e.RefreshErr? then Denied(e.e) else Closed)
      requires match r
               case Granted(token, gen) => cache.Value() == Register(token, gen) && token != ""
               case Denied(x) => Err(x) in cache.fetcher.answers
               case Closed => false
      modifies cache, cache.fetcher, `events
      ensures Valid() && events == old(events) + [e] && cache.gen >= old(cache.gen)
      ensures old(cache.fetcher.answers) <= cache.fetcher.answers
      ensures r.Granted? ==> Holds(cache.fetcher.answers, r.token, r.gen)
    {
      Others(cache);
      GrantsGrow(old(cache.fetcher.answers), cache.fetcher.answers);
      BackedOneMore(events, e, start, cache.fetcher.answers);
      events := events + [e];
    }

    /** sendOnce: the request is built, the Before interceptors run, the API answers; any of the three
        can fail in any way, and only an answer opens a body.  Only a granted token may be sent. */
    method SendOnce(token: string, ghost gen: nat) returns (a: Answer)
      requires Valid() && Holds(cache.fetcher.answers, token, gen)
      modifies this
      ensures Valid() && events == old(events) + [Told(token, gen, a)]
      ensures a.Arrived? ==> fresh(a.stream) && a.stream.open && taken == old(taken) + {a.stream}
      ensures a.Arrived? ==> answers == old(answers) + [Got(a.status, a.stream)]
      ensures a.Lost? ==> taken == old(taken) && answers == old(answers) && (a.e.IsCancellation() ==> !a.transient)
    {
      var answered: bool := *;
      if answered {
        var status: int := *;
        var body := new Body();
        a := Arrived(status, body);
        taken := taken + {body};
        answers := answers + [Got(status, body)];
      } else {
        var e: Error := *;
        var transient: bool := *;
        a := Lost(e, transient && !e.IsCancellation());
      }
      BackedOneMore(events, Told(token, gen, a), cache.fetcher.answers, cache.fetcher.answers);
      events := events + [Told(token, gen, a)];
    }

    /** The last answer that came is `status`, with this body. */
    ghost predicate Latest(status: int, body: Body)
      reads this
    {
      answers != [] && answers[|answers| - 1] == Got(status, body)
    }
  }

  /** The random source: Int63n(bound), asked only with a positive bound. */
  method Draw(bound: int) returns (d: int)
    ensures bound > 0 ==> 0 <= d < bound
  {
    d := *;
    if bound > 0 && !(0 <= d < bound) {
      d := 0;
    }
  }

  datatype Request = Request(given: bool, verb: string, url: string, timeout: int)

  datatype Reaction = Reaction(status: int, stream: Stream)

  class Executor {
    const policy: Policy
    const timeout: int
    const env: Environment

    constructor (policy: Policy, timeout: int, env: Environment)
      ensures this.policy == WithDefault(policy) && this.timeout == timeout && this.env == env
    {
      this.policy := WithDefault(policy);
      this.timeout := timeout;
      this.env := env;
    }

    /** The outcome of the call, and what becomes of every resource it took: on success the status and
        the body returned are those of the API's last answer, that body is the only open one, and
        closing it is what cancels the timeout; on failure no body is open and the timeout has been
        cancelled. */
    ghost predicate Released(r: Result<Reaction>, timer: Canceller, taken: set<Body>)
      reads timer, taken, env
    {
      && timer.Valid()
      && match r
         case Ok(re) =>
           && re.stream.body in taken && env.Latest(re.status, re.stream.body)
           && (forall b | b in taken :: b.open <==> b == re.stream.body)
           && timer.armed == timer.limited
           && re.stream == (if timer.limited then WithCancel(re.stream.body, timer) else Plain(re.stream.body))
         case Err(_) =>
           && (forall b | b in taken :: !b.open)
           && !timer.armed
    }

    /** `es` is a run of the automaton, and exactly what the environment has answered since `start`. */
    ghost predicate Tracks(start: seq<Event>, es: seq<Event>)
      reads env
    {
      Possible(policy, es) && Rises(policy, es) && env.events == start + es
    }

    ghost predicate Refused(req: Request) {
      !req.given || req.verb == "" || req.url == ""
    }

    method Do(req: Request, readError: Option<Error>)
        returns (r: Result<Reaction>, timer: Canceller, ghost es: seq<Event>)
      requires env.Valid()
      modifies env, env.cache, env.cache.fetcher
      ensures env.Valid()
      ensures fresh(timer) && fresh(env.taken - old(env.taken)) && old(env.taken) <= env.taken
      ensures Released(r, timer, env.taken - old(env.taken))
      ensures Tracks(old(env.events), es) && Backed(es, env.cache.fetcher.answers)
      ensures Refused(req) <==> r.Err? && r.error.ConfigurationError?
      ensures Refused(req) || readError.Some? ==> es == [] && env.taken == old(env.taken)
      ensures !Refused(req) ==>
                && timer.limited == ((if req.timeout == 0 then timeout else req.timeout) > 0)
                && (if readError.Some? then r == Err(CommunicationError(0, 1, readError))
                    else After(policy, es).pc
                         == Done(match r case Ok(re) => Response(re.status) case Err(e) => Failed(e)))
      ensures r.Ok? ==> es != [] && es[|es| - 1].Sent? && es[|es| - 1].status == r.value.status
                        && !WorthRetrying(es[|es| - 1])
      ensures r.Err? && es != [] && WorthRetrying(es[|es| - 1]) ==>
                Cost(es).tokens == if policy.maxAttempts < 1 then 1 else policy.maxAttempts
    {
      es := [];
      timer := new Canceller(0);
      if !req.given {
        return Err(ConfigurationError("request")), timer, es;
      }
      if req.verb == "" {
        return Err(ConfigurationError("request.Method")), timer, es;
      }
      if req.url == "" {
        return Err(ConfigurationError("request.URL")), timer, es;
      }
      timer := new Canceller(if req.timeout == 0 then timeout else req.timeout);
      if readError.Some? {
        timer.Cancel();
        return Err(CommunicationError(0, 1, readError)), timer, es;
      }
      var outcome: Result<(int, Body)>;
      ghost var taken;
      outcome, es, taken := Attempts();
      assert env.taken - old(env.taken) == taken;
      BackedTail(old(env.events), es, env.cache.fetcher.answers);
      LastAnswer(es);
      match outcome
      case Err(e) =>
        timer.Cancel();
        return Err(e), timer, es;
      case Ok(answer) =>
        if timer.armed {
          return Ok(Reaction(answer.0, WithCancel(answer.1, timer))), timer, es;
        }
        timer.Cancel();
        return Ok(Reaction(answer.0, Plain(answer.1))), timer, es;
    }

    /** A finished call ended on a status not worth retrying, or used up its attempts. */
    lemma LastAnswer(es: seq<Event>)
      requires Possible(policy, es) && After(policy, es).pc.Done?
      ensures es != []
      ensures After(policy, es).pc.outcome.Response? ==>
                && es[|es| - 1].Sent? && es[|es| - 1].status == After(policy, es).pc.outcome.status
                && !WorthRetrying(es[|es| - 1])
      ensures After(policy, es).pc.outcome.Failed? && WorthRetrying(es[|es| - 1]) ==>
                Cost(es).tokens == if policy.maxAttempts < 1 then 1 else policy.maxAttempts
    {
      OutcomeIsCatalogued(policy, es);
      AnswersDecide(policy, es);
    }

    /** retry.Do around the closure of Do, and the wrapping of its error. */
    method Attempts() returns (r: Result<(int, Body)>, ghost es: seq<Event>, ghost taken: set<Body>)
      requires env.Valid()
      modifies env, env.cache, env.cache.fetcher
      ensures env.Valid() && fresh(taken) && env.taken == old(env.taken) + taken && taken !! old(env.taken)
      ensures Tracks(old(env.events), es)
      ensures match r
              case Ok(answer) => After(policy, es).pc == Done(Response(answer.0))
                                 && answer.1 in taken && env.Latest(answer.0, answer.1)
                                 && forall b | b in taken :: b.open <==> b == answer.1
              case Err(e) => After(policy, es).pc == Done(Failed(e)) && !e.ConfigurationError?
                             && forall b | b in taken :: !b.open
    {
      var n := Budget(policy);
      var refreshedAfter401 := false;
      var attempt := 1;
      es, taken := [], {};
      while true
        invariant 1 <= attempt <= n
        invariant env.Valid() && fresh(taken) && env.taken == old(env.taken) + taken && taken !! old(env.taken)
        invariant Tracks(old(env.events), es)
        invariant Starts(attempt, refreshedAfter401, es)
        invariant forall b | b in taken :: !b.open
        decreases n - attempt
      {
        var verdict: Verdict;
        ghost var more: set<Body>;
        verdict, refreshedAfter401, es, more := Attempt(attempt, refreshedAfter401, old(env.events), es);
        taken := taken + more;
        match verdict
        case Answered(status, body) =>
          return Ok((status, body)), es, taken;
        case GaveUp(e) =>
          return Err(Wrap(e, attempt)), es, taken;
        case TryAgain =>
          attempt := attempt + 1;
      }
    }

    /** The call is at the head of the loop. */
    ghost predicate Starts(attempt: int, refreshed: bool, es: seq<Event>)
      requires Possible(policy, es)
      reads env.cache
    {
      var c := After(policy, es);
      c.pc == Head && c.attempt == attempt && c.refreshed == refreshed && c.gen <= env.cache.gen
    }

    /** The state `c` an attempt ends in, and which of the bodies it took is still open: none, or the
        last answer's. */
    ghost predicate Leads(v: Verdict, attempt: int, refreshed: bool, c: Call, taken: set<Body>, gen: nat)
      reads taken, env
    {
      match v
      case Answered(status, body) =>
        && c.pc == Done(Response(status)) && body in taken && env.Latest(status, body)
        && forall b | b in taken :: b.open <==> b == body
      case GaveUp(e) =>
        c.pc == Done(Failed(Wrap(e, attempt))) && forall b | b in taken :: !b.open
      case TryAgain =>
        && c.pc == Head && c.attempt == attempt + 1 <= Budget(policy) && c.gen <= gen && c.refreshed == refreshed
        && forall b | b in taken :: !b.open
    }

    /** One iteration of the retry loop: look at the context, run the closure, sleep if it says so. */
    method Attempt(attempt: int, refreshed: bool, ghost start: seq<Event>, ghost sofar: seq<Event>)
        returns (v: Verdict, refreshedAfter401: bool, ghost es: seq<Event>, ghost taken: set<Body>)
      requires env.Valid() && 1 <= attempt <= Budget(policy)
      requires Tracks(start, sofar) && Starts(attempt, refreshed, sofar)
      modifies env, env.cache, env.cache.fetcher
      ensures env.Valid() && fresh(taken) && env.taken == old(env.taken) + taken
      ensures Tracks(start, es)
      ensures Leads(v, attempt, refreshedAfter401, After(policy, es), taken, env.cache.gen)
    {
      taken, refreshedAfter401 := {}, refreshed;
      var denied, token, usedGen;
      denied, token, usedGen, es := Authorize(attempt, start, sofar);
      if denied.Some? {
        return GaveUp(denied.value), refreshedAfter401, es, taken;
      }
      v, refreshedAfter401, es, taken := SendAndJudge(token, usedGen, attempt, refreshed, start, es);
    }

    /** Look at the context and get a token, perhaps by fetching one. */
    method Authorize(attempt: int, ghost start: seq<Event>, ghost sofar: seq<Event>)
        returns (denied: Option<Error>, token: string, gen: nat, ghost es: seq<Event>)
      requires env.Valid()
      requires Tracks(start, sofar)
      requires var c := After(policy, sofar); c.pc == Head && c.attempt == attempt && c.gen <= env.cache.gen
      modifies env`events, env.cache, env.cache.fetcher
      ensures env.Valid()
      ensures Tracks(start, es)
      ensures var c, c' := After(policy, sofar), After(policy, es);
              match denied
              case Some(e) => c'.pc == Done(Failed(Wrap(e, attempt)))
              case None => c' == c.(pc := Funnel.Send, token := token, gen := gen) && gen <= env.cache.gen
                           && Holds(env.cache.fetcher.answers, token, gen)
    {
      token, gen := "", 0;
      var ctx := env.ContextErr();
      if ctx.Some? {
        es := Note(start, sofar, CtxErr(ctx.value));
        return ctx, token, gen, es;
      }
      es := Note(start, sofar, CtxOk);
      var reply := env.Token();
      if reply.Denied? {
        es := Note(start, es, TokenErr(reply.error));
        return Some(reply.error), token, gen, es;
      }
      es := Note(start, es, TokenOk(reply.token, reply.gen));
      return None, reply.token, reply.gen, es;
    }

    /** One send, remembered. */
    method Transmit(token: string, gen: nat, ghost start: seq<Event>, ghost sofar: seq<Event>)
        returns (answer: Answer, ghost es: seq<Event>, ghost taken: set<Body>)
      requires env.Valid() && Tracks(start, sofar) && Holds(env.cache.fetcher.answers, token, gen)
      requires var c := After(policy, sofar);
               (c.pc == Funnel.Send || c.pc == Funnel.Resend) && c.token == token && c.gen == gen
      modifies env
      ensures env.Valid() && fresh(taken) && env.taken == old(env.taken) + taken
      ensures answer.Lost? ==> taken == {} && (answer.e.IsCancellation() ==> !answer.transient)
      ensures answer.Arrived? ==>
                taken == {answer.stream} && answer.stream.open && env.Latest(answer.status, answer.stream)
      ensures Tracks(start, es)
      ensures Fits(policy, After(policy, sofar), Told(token, gen, answer))
      ensures After(policy, es) == Step(policy, After(policy, sofar), Told(token, gen, answer))
    {
      answer := env.SendOnce(token, gen);
      es := Note(start, sofar, Told(token, gen, answer));
      taken := if answer.Lost? then {} else {answer.stream};
    }

    /** The first send of the attempt and everything that depends on its answer. */
    method SendAndJudge(token: string, usedGen: nat, attempt: int, refreshed: bool,
                        ghost start: seq<Event>, ghost sofar: seq<Event>)
        returns (v: Verdict, refreshedAfter401: bool, ghost es: seq<Event>, ghost taken: set<Body>)
      requires env.Valid() && 1 <= attempt <= Budget(policy)
      requires Tracks(start, sofar) && Holds(env.cache.fetcher.answers, token, usedGen)
      requires var c := After(policy, sofar);
               && c.pc == Funnel.Send && c.attempt == attempt && c.refreshed == refreshed
               && c.token == token && c.gen == usedGen <= env.cache.gen
      modifies env, env.cache, env.cache.fetcher
      ensures env.Valid() && fresh(taken) && env.taken == old(env.taken) + taken
      ensures Tracks(start, es)
      ensures Leads(v, attempt, refreshedAfter401, After(policy, es), taken, env.cache.gen)
    {
      var answer;
      answer, es, taken := Transmit(token, usedGen, start, sofar);
      if answer.Lost? {
        v, es := TransportError(answer, attempt, start, es);
        return v, refreshed, es, taken;
      }
      ghost var more;
      v, refreshedAfter401, es, more := Judge(answer, usedGen, attempt, refreshed, start, es);
      return v, refreshedAfter401, es, taken + more;
    }

    /** The first send got an answer: a first 401 is refreshed away and its body closed, anything else
        is final. */
    method Judge(answer: Answer, usedGen: nat, attempt: int, refreshed: bool,
                 ghost start: seq<Event>, ghost sofar: seq<Event>)
        returns (v: Verdict, refreshedAfter401: bool, ghost es: seq<Event>, ghost more: set<Body>)
      requires env.Valid() && 1 <= attempt <= Budget(policy)
      requires answer.Arrived? && answer.stream.open && answer.stream in env.taken
      requires env.Latest(answer.status, answer.stream)
      requires Tracks(start, sofar)
      requires var c := After(policy, sofar);
               && c.attempt == attempt && c.gen == usedGen <= env.cache.gen
               && (if answer.status == 401 && !refreshed then c.pc == AskRefresh && c.refreshed
                   else c.refreshed == refreshed && c == Classify(policy, c, answer.status))
      modifies env, env.cache, env.cache.fetcher, answer.stream
      ensures env.Valid() && fresh(more) && env.taken == old(env.taken) + more
      ensures Tracks(start, es)
      ensures Leads(v, attempt, refreshedAfter401, After(policy, es), {answer.stream} + more, env.cache.gen)
      ensures answer.status == 401 && !refreshed ==> !answer.stream.open && refreshedAfter401
    {
      refreshedAfter401, more := refreshed, {};
      if answer.status == 401 && !refreshedAfter401 {
        answer.stream.Drain();
        refreshedAfter401 := true;
        v, es, more := RefreshAndResend(usedGen, attempt, start, sofar);
        return v, refreshedAfter401, es, more;
      }
      v, es := Finish(answer, attempt, start, sofar);
      return v, refreshedAfter401, es, more;
    }

    /** The first send got no answer. */
    method TransportError(answer: Answer, attempt: int, ghost start: seq<Event>, ghost sofar: seq<Event>)
        returns (v: Verdict, ghost es: seq<Event>)
      requires env.Valid() && answer.Lost? && 1 <= attempt <= Budget(policy)
      requires Tracks(start, sofar)
      requires var c := After(policy, sofar);
               && c.attempt == attempt
               && (c == if answer.e.IsCancellation() then Fail(c, answer.e)
                        else if answer.transient then Again(policy, c, answer.e)
                        else Fail(c, CommunicationError(0, attempt, Some(answer.e))))
      modifies env`events
      ensures env.Valid() && Tracks(start, es)
      ensures var c := After(policy, sofar); Leads(v, attempt, c.refreshed, After(policy, es), {}, c.gen)
    {
      es := sofar;
      if answer.e.IsCancellation() {
        return GaveUp(answer.e), es;
      }
      if answer.transient {
        v, es := BackOff(attempt, answer.e, start, es);
        return v, es;
      }
      return GaveUp(CommunicationError(0, attempt, Some(answer.e))), es;
    }

    /** The 401 branch: one refresh, one send off the budget, and the common handling of its answer. */
    method RefreshAndResend(usedGen: nat, attempt: int, ghost start: seq<Event>, ghost sofar: seq<Event>)
        returns (v: Verdict, ghost es: seq<Event>, ghost taken: set<Body>)
      requires env.Valid() && 1 <= attempt <= Budget(policy)
      requires Tracks(start, sofar)
      requires var c := After(policy, sofar);
               c.pc == AskRefresh && c.refreshed && c.attempt == attempt && c.gen == usedGen <= env.cache.gen
      modifies env, env.cache, env.cache.fetcher
      ensures env.Valid() && fresh(taken) && env.taken == old(env.taken) + taken
      ensures Tracks(start, es)
      ensures Leads(v, attempt, true, After(policy, es), taken, env.cache.gen)
    {
      taken := {};
      var denied, token, gen;
      denied, token, gen, es := Reauthorize(usedGen, attempt, start, sofar);
      if denied.Some? {
        return GaveUp(denied.value), es, taken;
      }
      v, es, taken := Resend(token, gen, attempt, start, es);
    }

    method Reauthorize(usedGen: nat, attempt: int, ghost start: seq<Event>, ghost sofar: seq<Event>)
        returns (denied: Option<Error>, token: string, gen: nat, ghost es: seq<Event>)
      requires env.Valid()
      requires Tracks(start, sofar)
      requires var c := After(policy, sofar);
               c.pc == AskRefresh && c.attempt == attempt && c.gen == usedGen <= env.cache.gen
      modifies env`events, env.cache, env.cache.fetcher
      ensures env.Valid()
      ensures Tracks(start, es)
      ensures var c, c' := After(policy, sofar), After(policy, es);
              match denied
              case Some(e) => c'.pc == Done(Failed(Wrap(e, attempt)))
              case None => c' == c.(pc := Funnel.Resend, token := token, gen := gen) && usedGen < gen <= env.cache.gen
                           && Holds(env.cache.fetcher.answers, token, gen)
    {
      token, gen := "", 0;
      var reply := env.Refresh(usedGen);
      if reply.Denied? {
        es := Note(start, sofar, RefreshErr(reply.error));
        return Some(reply.error), token, gen, es;
      }
      es := Note(start, sofar, RefreshOk(reply.token, reply.gen));
      return None, reply.token, reply.gen, es;
    }

    /** The off-budget send. */
    method Resend(token: string, gen: nat, attempt: int, ghost start: seq<Event>, ghost sofar: seq<Event>)
        returns (v: Verdict, ghost es: seq<Event>, ghost taken: set<Body>)
      requires 1 <= attempt <= Budget(policy)
      requires env.Valid() && Tracks(start, sofar) && Holds(env.cache.fetcher.answers, token, gen)
      requires var c := After(policy, sofar);
               && c.pc == Funnel.Resend && c.refreshed && c.attempt == attempt
               && c.token == token && c.gen == gen
      modifies env
      ensures env.Valid() && fresh(taken) && env.taken == old(env.taken) + taken
      ensures Tracks(start, es)
      ensures Leads(v, attempt, true, After(policy, es), taken, gen)
    {
      var answer;
      answer, es, taken := Transmit(token, gen, start, sofar);
      if answer.Lost? {
        if !answer.transient {
          return GaveUp(CommunicationError(0, attempt, Some(answer.e))), es, taken;
        }
        v, es := BackOff(attempt, answer.e, start, es);
        return v, es, taken;
      }
      v, es := Finish(answer, attempt, start, es);
    }

    /** The switch on the response's class. */
    method Finish(answer: Answer, attempt: int, ghost start: seq<Event>, ghost sofar: seq<Event>)
        returns (v: Verdict, ghost es: seq<Event>)
      requires answer.Arrived? && answer.stream.open && env.Latest(answer.status, answer.stream)
      requires env.Valid() && Tracks(start, sofar) && 1 <= attempt <= Budget(policy)
      requires var c := After(policy, sofar); c.attempt == attempt && c == Classify(policy, c, answer.status)
      modifies env`events, answer.stream
      ensures env.Valid() && Tracks(start, es)
      ensures var c, c' := After(policy, sofar), After(policy, es);
              Leads(v, attempt, c.refreshed, c', {answer.stream}, c.gen)
    {
      es := sofar;
      if ClassifyStatus(answer.status) == Retryable {
        answer.stream.Drain();
        v, es := BackOff(attempt, CommunicationError(answer.status, attempt, None), start, es);
        return v, es;
      }
      return Answered(answer.status, answer.stream), es;
    }

    /** The loop's handling of a retryable failure. */
    method BackOff(attempt: int, e: Error, ghost start: seq<Event>, ghost sofar: seq<Event>)
        returns (v: Verdict, ghost es: seq<Event>)
      requires env.Valid() && Tracks(start, sofar) && 1 <= attempt <= Budget(policy)
      requires var c := After(policy, sofar);
               c.attempt == attempt && c.pc == if attempt == Budget(policy) then Done(Failed(Wrap(e, attempt))) else Nap
      modifies env`events
      ensures env.Valid() && Tracks(start, es)
      ensures var c, c' := After(policy, sofar), After(policy, es);
              match v
              case TryAgain => c' == c.(pc := Head, attempt := attempt + 1) && attempt < Budget(policy)
              case GaveUp(x) => c'.pc == Done(Failed(Wrap(x, attempt)))
              case Answered(_, _) => false
    {
      es := sofar;
      if attempt == Budget(policy) {
        return GaveUp(e), es;
      }
      var draw := Draw(DrawBound(policy, attempt));
      var delay := NextDelay(policy, attempt, draw);
      var woken := env.Sleep(delay);
      if woken.Some? {
        es := Note(start, es, Woken(woken.value));
        return GaveUp(woken.value), es;
      }
      es := Note(start, es, Slept(delay));
      return TryAgain, es;
    }

    /** Remember the answer the environment has just given. */
    ghost method Note(start: seq<Event>, es: seq<Event>, e: Event) returns (es': seq<Event>)
      requires Possible(policy, es) && Rises(policy, es) && env.events == start + es + [e]
      requires Fits(policy, After(policy, es), e) && Rising(After(policy, es), e)
      ensures Tracks(start, es')
      ensures After(policy, es') == Step(policy, After(policy, es), e)
    {
      es' := es + [e];
      assert es'[..|es|] == es;
      Extend(policy, es, e);
      assert start + es + [e] == start + (es + [e]);
    }
  }

  datatype Verdict = Answered(status: int, body: Body) | GaveUp(e: Error) | TryAgain
}
