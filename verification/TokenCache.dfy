/** auth/token_cache.go: the generation-tracked token register and the class that implements it. */
module TokenCache {
  import opened Errors

  /** The cached token and its generation; the empty token means "nothing cached". */
  datatype Register = Register(token: string, gen: nat)

  datatype Op = TokenOp | RefreshOp(stale: nat) | CloseOp

  /** What an operation hands back: a token and its generation, an error, or nothing (Close). */
  datatype Reply = Granted(token: string, gen: nat) | Denied(error: Error) | Closed

  const EMPTY := Register("", 0)

  /** The operation is answered without asking IAM. */
  predicate Hit(r: Register, op: Op) {
    match op
    case TokenOp => r.token != ""
    case RefreshOp(stale) => r.token != "" && r.gen > stale
    case CloseOp => true
  }

  /** The operations as atomic steps on the register; `fetched` is IAM's answer when one is needed. */
  function Apply(r: Register, op: Op, fetched: Result<string>): (Register, Reply) {
    if op.CloseOp? then (r.(token := ""), Closed)
    else if Hit(r, op) then (r, Granted(r.token, r.gen))
    else match fetched
         case Ok(t) => (Register(t, r.gen + 1), Granted(t, r.gen + 1))
         case Err(e) => (r, Denied(e))
  }

  /** IAM never grants the empty token (TokenFetch.PostForm). */
  predicate Plausible(fetched: Result<string>) {
    fetched.Ok? ==> fetched.value != ""
  }

  /** The tokens IAM granted, oldest first. */
  function Grants(answers: seq<Result<string>>): seq<string> {
    if answers == [] then []
    else
      var init := Grants(answers[..|answers| - 1]);
      var last := answers[|answers| - 1];
      if last.Ok? then init + [last.value] else init
  }

  /** Earlier grants stay where they are. */
  lemma {:induction false} GrantsGrow(before: seq<Result<string>>, after: seq<Result<string>>)
    requires before <= after
    ensures Grants(before) <= Grants(after)
  {
    if |before| == |after| {
      assert before == after;
    } else {
      GrantsGrow(before, after[..|after| - 1]);
    }
  }

  /** The token is what IAM granted under this generation. */
  predicate Holds(answers: seq<Result<string>>, token: string, gen: nat) {
    1 <= gen <= |Grants(answers)| && token == Grants(answers)[gen - 1]
  }

  /** IAM as the cache sees it: any answer at all, except an empty token. */
  class Fetcher {
    ghost var answers: seq<Result<string>>

    constructor ()
      ensures answers == []
    {
      answers := [];
    }

    method Fetch() returns (r: Result<string>)
      modifies this
      ensures answers == old(answers) + [r] && Plausible(r)
    {
      r := *;
      if r.Ok? && r.value == "" {
        r := Err(AuthError(200, None));
      }
      answers := answers + [r];
    }
  }

  class Cached {
    const fetcher: Fetcher
    var token: string
    var gen: nat

    ghost function Value(): Register
      reads this
    {
      Register(token, gen)
    }

    /** The generation counts IAM's grants, and the token in the register is the latest of them. */
    ghost predicate Valid()
      reads this, fetcher
    {
      && gen == |Grants(fetcher.answers)|
      && (token != "" ==> Holds(fetcher.answers, token, gen))
    }

    constructor (fetcher: Fetcher)
      requires fetcher.answers == []
      ensures Valid() && Value() == EMPTY && this.fetcher == fetcher
    {
      this.fetcher := fetcher;
      token, gen := "", 0;
    }

    /** One critical section of Token or Refresh, for an operation that misses. */
    method FetchLocked() returns (r: Reply)
      requires Valid()
      modifies this, fetcher
      ensures Valid()
      ensures |fetcher.answers| == |old(fetcher.answers)| + 1
      ensures fetcher.answers[..|old(fetcher.answers)|] == old(fetcher.answers)
      ensures var a := fetcher.answers[|old(fetcher.answers)|];
              && Plausible(a)
              && r == (match a case Ok(t) => Granted(t, old(gen) + 1) case Err(e) => Denied(e))
              && Value() == (match a case Ok(t) => Register(t, old(gen) + 1) case Err(_) => old(Value()))
    {
      ghost var before := fetcher.answers;
      var answer := fetcher.Fetch();
      assert fetcher.answers[..|before|] == before;
      if answer.Err? {
        return Denied(answer.error);
      }
      token := answer.value;
      gen := gen + 1;
      return Granted(token, gen);
    }

    method Token() returns (r: Reply)
      requires Valid()
      modifies this, fetcher
      ensures Valid() && old(fetcher.answers) <= fetcher.answers
      ensures Performed(old(Value()), TokenOp, fetcher.answers[|old(fetcher.answers)|..], Value(), r)
    {
      if token != "" {
        return Granted(token, gen);
      }
      r := FetchLocked();
    }

    method Refresh(staleGen: nat) returns (r: Reply)
      requires Valid()
      modifies this, fetcher
      ensures Valid() && old(fetcher.answers) <= fetcher.answers
      ensures Performed(old(Value()), RefreshOp(staleGen), fetcher.answers[|old(fetcher.answers)|..], Value(), r)
    {
      if token != "" && gen > staleGen {
        return Granted(token, gen);
      }
      r := FetchLocked();
    }

    /** The token is forgotten, the generation is not; both fetchers' close functions do nothing. */
    method Close()
      requires Valid()
      modifies this
      ensures Valid()
      ensures Performed(old(Value()), CloseOp, [], Value(), Closed)
    {
      token := "";
    }
  }

  /** `before` became `after` by one atomic operation that asked IAM exactly when it had to. */
  predicate Performed(before: Register, op: Op, asked: seq<Result<string>>, after: Register, r: Reply) {
    && |asked| == (if Hit(before, op) then 0 else 1)
    && (forall a | a in asked :: Plausible(a))
    && (after, r) == Apply(before, op, if asked == [] then Err(Canceled) else asked[0])
  }

  /** What one operation does to the register, in the caller's terms: generations never fall, a
      failure changes nothing, a successful Refresh moves strictly past an issued generation, and
      whatever is granted is the current non-empty content. */
  lemma OperationLaws(before: Register, op: Op, asked: seq<Result<string>>, after: Register, r: Reply)
    requires before.token != "" ==> before.gen >= 1
    requires Performed(before, op, asked, after, r)
    ensures before.gen <= after.gen <= before.gen + 1
    ensures r.Denied? ==> after == before && asked == [Err(r.error)]
    ensures r.Granted? ==> after == Register(r.token, r.gen) && r.token != "" && r.gen >= 1
    ensures r.Granted? && op.RefreshOp? && op.stale <= before.gen ==> r.gen > op.stale
    ensures after.gen > before.gen <==> asked != [] && asked[0].Ok?
    ensures after.gen == before.gen && after.token != "" ==> after == before
  {
    if asked != [] {
      assert asked[0] in asked;
    }
  }
}
