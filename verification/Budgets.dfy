/** How the retry budgets stack: item walk over page retries over the funnel's attempts. */
module Budgets {
  import opened Errors
  import opened Retry
  import TokenFetch
  import F = Funnel
  import S = FunnelSystem
  import opened Numbers
  import opened Pages
  import opened Pagination

  /** The API sends of a sequence of Do calls. */
  function Sends(p: Policy, dos: seq<seq<F.Event>>): int {
    if dos == [] then 0 else Sends(p, dos[..|dos| - 1]) + F.Cost(dos[|dos| - 1]).sends
  }

  lemma {:induction false} SendsOfDos(p: Policy, dos: seq<seq<F.Event>>)
    requires forall es | es in dos :: F.Possible(p, es)
    ensures Sends(p, dos) <= |dos| * (Budget(p) + 1)
  {
    if dos != [] {
      SendsOfDos(p, dos[..|dos| - 1]);
      F.DoStaysInBudget(p, dos[|dos| - 1]);
      assert |dos| * (Budget(p) + 1) == (|dos| - 1) * (Budget(p) + 1) + (Budget(p) + 1);
    }
  }

  /** Page walk over page attempts over request attempts. */
  lemma BudgetsMultiply(p: Policy, dos: seq<seq<F.Event>>, most: nat, attempts: nat, walked: nat)
    requires forall es | es in dos :: F.Possible(p, es)
    requires |dos| <= attempts * walked && walked <= most
    ensures Sends(p, dos) <= most * attempts * (Budget(p) + 1)
  {
    SendsOfDos(p, dos);
    Scale(walked, most, attempts);
    assert attempts * walked == walked * attempts;
    Scale(|dos|, most * attempts, Budget(p) + 1);
  }

  /** However many of the `calls` Do calls behind as many fetch calls went wrong, and how: together they
      make at most `most` API sends. */
  ghost predicate SendsStayWithin(p: Policy, calls: int, most: int) {
    forall dos: seq<seq<F.Event>> | |dos| == calls && forall es | es in dos :: F.Possible(p, es) ::
      Sends(p, dos) <= most
  }

  /** (ceil(m/P) + 1)(R + 1)(N + 1), for R page retries and N attempts a request; no page is fetched at all
      with a negative R. */
  function MostSends(m: nat, size: int, retries: int, p: Policy): int
    requires size > 0
  {
    (Ceil(m, size) + 1) * (if retries < 0 then 0 else retries + 1) * (Budget(p) + 1)
  }

  /** The sends behind a walk that read at most `last` pages and the empty one, or failed before that. */
  lemma WalkSends<T(!new)>(p: Policy, cfg: Config, m: Mark<T>, n: Mark<T>, out: seq<T>, error: Option<Error>,
                           items: nat)
    requires cfg.pageSize > 0 && Follows(cfg, m, n, out, error)
    requires n.pages - m.pages <= Ceil(items, cfg.pageSize) + if error.Some? then 0 else 1
    ensures SendsStayWithin(p, n.calls - m.calls, MostSends(items, cfg.pageSize, cfg.retriesMax, p))
  {
    CeilBounds(items, cfg.pageSize);
    var walked := n.pages - m.pages + if error.Some? then 1 else 0;
    forall dos: seq<seq<F.Event>> | |dos| == n.calls - m.calls && forall es | es in dos :: F.Possible(p, es)
      ensures Sends(p, dos) <= MostSends(items, cfg.pageSize, cfg.retriesMax, p)
    {
      BudgetsMultiply(p, dos, Ceil(items, cfg.pageSize) + 1, cfg.Attempts(), walked);
    }
  }

  /** A Collect over a list of m items in pages of P, with R page retries and every fetch call a Do of
      at most N attempts, makes at most (ceil(m/P) + 1)(R + 1)(N + 1) API sends, whatever those Do
      calls meet and whether or not the walk ends in an error. */
  method CollectSends<T(!new)>(it: Iterator<T>, list: seq<T>, p: Policy)
      returns (out: seq<T>, error: Option<Error>)
    requires it.Valid() && Serves(it.page, it.cfg.offsetInit, it.cfg.Stride(), it.cfg.pageSize, list)
    modifies it
    ensures it.Valid() && it.yielded == old(it.yielded) + out <= list
    ensures error.None? && it.cfg.retriesMax >= 0 ==> it.yielded == list
    ensures SendsStayWithin(p, it.calls - old(it.calls), MostSends(|list|, it.cfg.pageSize, it.cfg.retriesMax, p))
  {
    ghost var before, last := it.Here(), Ceil(|list|, it.cfg.pageSize);
    assert last >= 0 && it.Ends(last) by {
      EndOfList(it.page, it.cfg.offsetInit, it.cfg.Stride(), it.cfg.pageSize, list);
    }
    out, error := it.Collect(last);
    assert it.yielded <= list && (error.None? && it.cfg.retriesMax >= 0 ==> it.yielded == list) by {
      it.WalksTheList(list);
    }
    WalkSends(p, it.cfg, before, it.Here(), out, error, |list|);
  }

  /** The attempts of one token request under the auth policy, whatever it met; none without a client. */
  ghost predicate Attempted(auth: Policy, iam: TokenFetch.Iam, attempts: nat) {
    attempts == 0 || StopsAt(Budget(WithDefault(auth)), TokenFetch.Scripted(iam), attempts)
  }

  /** The attempts of all token requests of `p` among the first k commits. */
  function TokenAttempts(s: S.C.State, p: S.Pid, attempts: nat -> nat, k: nat): nat {
    if k == 0 then 0
    else TokenAttempts(s, p, attempts, k - 1) + if S.AsksIam(s, p, k - 1) then attempts(k - 1) else 0
  }

  lemma {:induction false} AttemptsOfAsks(s: S.C.State, p: S.Pid, attempts: nat -> nat, most: nat, k: nat)
    requires forall i: nat | S.AsksIam(s, p, i) :: attempts(i) <= most
    ensures TokenAttempts(s, p, attempts, k) <= most * S.Asks(s, p, k)
  {
    if k > 0 {
      AttemptsOfAsks(s, p, attempts, most, k - 1);
      assert most * (S.Asks(s, p, k - 1) + 1) == most * S.Asks(s, p, k - 1) + most;
    }
  }

  lemma TwoFetchesWorth(auth: Policy, s: S.C.State, p: S.Pid, attempts: nat -> nat, iam: nat -> TokenFetch.Iam, k: nat)
    requires S.Asks(s, p, k) <= 2
    requires forall i: nat | S.AsksIam(s, p, i) :: Attempted(auth, iam(i), attempts(i))
    ensures TokenAttempts(s, p, attempts, k) <= 2 * Budget(WithDefault(auth))
  {
    var n := Budget(WithDefault(auth));
    forall i: nat | S.AsksIam(s, p, i) ensures attempts(i) <= n {
      assert Attempted(auth, iam(i), attempts(i));
    }
    AttemptsOfAsks(s, p, attempts, n, k);
    Scale(S.Asks(s, p, k), 2, n);
    assert n * S.Asks(s, p, k) == S.Asks(s, p, k) * n;
  }

  /** Token requests stack too: in every run without Close, one Do sends the token endpoint at most twice
      as many requests as one token fetch may make, failed fetches included; `attempts(i)` is what the
      fetch of commit i took, and `iam(i)` what it met. */
  lemma TokenRequestsOfOneDo(pol: Policy, auth: Policy, run: seq<S.Action>, s: S.C.State, p: S.Pid,
                             attempts: nat -> nat, iam: nat -> TokenFetch.Iam)
    requires S.Possible(pol, run) && p in S.After(pol, run).runs && s == S.After(pol, run).cache && s.dropped == {}
    requires forall i: nat | S.AsksIam(s, p, i) :: Attempted(auth, iam(i), attempts(i))
    ensures TokenAttempts(s, p, attempts, |s.log|) <= 2 * Budget(WithDefault(auth))
  {
    S.AsksAtMostTwice(pol, run, s, p, |s.log|);
    TwoFetchesWorth(auth, s, p, attempts, iam, |s.log|);
  }
}
