/** pagination/iterator.go: the stateful item iterator over a paginated upstream.  Every page fetch can
    fail in any way; an answer, when there is one, is the page the upstream has at that offset. */
module Pagination {
  import opened Errors
  import opened Numbers
  import opened Pages

  datatype Config = Config(
    pageSize: int, offsetInit: int, byCount: bool, retriesMax: int, retryDelay: int,
    retryable: Option<Error -> bool>)
  {
    function WithDefaults(): Config {
      Config(
        if pageSize == 0 then 100 else pageSize,
        offsetInit,
        byCount,
        if retriesMax == 0 then 5 else retriesMax,
        if retryDelay == 0 then 3_000_000_000 else if retryDelay < 0 then 0 else retryDelay,
        retryable)
    }

    function Stride(): int {
      if byCount then pageSize else 1
    }

    /** An error after which the page may be asked for again. */
    predicate MayRetry(e: Error) {
      !e.IsCancellation() && (retryable.Some? ==> retryable.value(e))
    }

    /** From the failures `was` to the failures `now`: an error comes back only if something failed, and is
        the last failure met; every failure before it was one that may be retried. */
    predicate Met(was: seq<Error>, now: seq<Error>, error: Option<Error>) {
      && was <= now
      && (error.Some? ==> |now| > |was| && error.value == now[|now| - 1])
      && forall i | |was| <= i < |now| - (if error.Some? then 1 else 0) :: MayRetry(now[i])
    }

    /** The fetch calls one page may take. */
    function Attempts(): nat {
      if retriesMax < 0 then 0 else retriesMax + 1
    }
  }

  /** How one attempt at a page ended: with the page, with an error that ends the fetch, or with one that
      may be retried. */
  datatype Try = Got | Stop(e: Error) | Again(e: Error)

  /** The context, the upstream or the timer: trouble or none. */
  method Trouble() returns (e: Option<Error>) {
    e := *;
  }

  /** What an observer of an iterator counts and remembers. */
  datatype Mark<T> = Mark(
    pages: nat, calls: nat, interruptions: nat, failures: seq<Error>, naps: seq<int>, yielded: seq<T>)

  /** Every failure but one that comes back is followed by a sleep of the configured length. */
  predicate Rested(delay: int, was: seq<int>, now: seq<int>, retried: int) {
    was <= now && |now| - |was| == retried && forall i | |was| <= i < |now| :: now[i] == delay
  }

  /** Between two moments `out` was handed out and `error` came back.  Every page read took at least one
      fetch call and no page more than its allowance; the failures met are as `Met` says, with a sleep
      after each that was retried; and an error that may be retried used up its page's allowance unless
      the context cut the work short. */
  ghost predicate Follows<T(!new)>(cfg: Config, m: Mark<T>, n: Mark<T>, out: seq<T>, error: Option<Error>) {
    var pages, calls := n.pages - m.pages, n.calls - m.calls;
    && n.yielded == m.yielded + out
    && 0 <= pages <= calls <= cfg.Attempts() * (pages + if error.Some? then 1 else 0)
    && cfg.Met(m.failures, n.failures, error)
    && Rested(cfg.retryDelay, m.naps, n.naps, |n.failures| - |m.failures| - if error.Some? then 1 else 0)
    && n.interruptions >= m.interruptions
    && (error.Some? && n.interruptions == m.interruptions && cfg.MayRetry(error.value) ==>
          calls >= pages + cfg.Attempts())
  }

  /** One page read, or the error that kept it from being read. */
  lemma OnePage<T(!new)>(cfg: Config, m: Mark<T>, n: Mark<T>, error: Option<Error>)
    requires n.yielded == m.yielded && n.interruptions >= m.interruptions
    requires n.pages == m.pages + if error.Some? || cfg.retriesMax < 0 then 0 else 1
    requires n.pages - m.pages <= n.calls - m.calls <= cfg.Attempts()
    requires cfg.Met(m.failures, n.failures, error)
    requires Rested(cfg.retryDelay, m.naps, n.naps, |n.failures| - |m.failures| - if error.Some? then 1 else 0)
    requires error.Some? && n.interruptions == m.interruptions && cfg.MayRetry(error.value) ==>
               n.calls - m.calls == cfg.Attempts()
    ensures Follows(cfg, m, n, [], error)
  {
    var k := n.pages - m.pages + if error.Some? then 1 else 0;
    assert k == 0 ==> cfg.Attempts() == 0;
    assert k > 0 ==> k == 1 && cfg.Attempts() * k == cfg.Attempts();
    assert m.yielded + [] == m.yielded;
  }

  lemma FollowsThen<T(!new)>(cfg: Config, a: Mark<T>, b: Mark<T>, c: Mark<T>, out: seq<T>, more: seq<T>,
                             error: Option<Error>)
    requires Follows(cfg, a, b, out, None) && Follows(cfg, b, c, more, error)
    ensures Follows(cfg, a, c, out + more, error)
  {
    var x, y := b.pages - a.pages, c.pages - b.pages + if error.Some? then 1 else 0;
    assert cfg.Attempts() * x + cfg.Attempts() * y == cfg.Attempts() * (x + y);
    assert c.yielded == a.yielded + (out + more);
  }

  /** The consumer wanted another item after each it saw but the last. */
  ghost predicate AskedFor<T(!new)>(goOn: seq<T> -> bool, seen: seq<T>) {
    forall k | 0 < k < |seen| :: goOn(seen[..k])
  }

  lemma AskedForOneMore<T(!new)>(goOn: seq<T> -> bool, seen: seq<T>, item: T)
    requires AskedFor(goOn, seen) && (seen == [] || goOn(seen))
    ensures AskedFor(goOn, seen + [item])
  {
    forall k | 0 < k < |seen + [item]| ensures goOn((seen + [item])[..k]) {
      assert (seen + [item])[..k] == seen[..k];
      assert k == |seen| ==> seen[..k] == seen;
    }
  }

  class Iterator<T(!new)> {
    const cfg: Config
    const page: (int, int) -> seq<T>

    var offset: int
    var exhausted: bool
    var buffer: seq<T>

    ghost var pages: nat        // successful page fetches
    ghost var calls: nat        // fetch calls, failed ones included
    ghost var yielded: seq<T>   // items handed out
    ghost var interruptions: nat    // times the context cut a fetch or a sleep short
    ghost var failures: seq<Error>  // what failing fetches and interruptions reported, in order
    ghost var naps: seq<int>        // the sleeps between attempts

    ghost function PageAt(i: nat): seq<T> {
      Page(page, cfg.offsetInit, cfg.Stride(), cfg.pageSize, i)
    }

    /** The failure-free stream up to page k. */
    ghost function Stream(k: nat): seq<T> {
      Flat(page, cfg.offsetInit, cfg.Stride(), cfg.pageSize, k)
    }

    ghost predicate Ends(last: nat) {
      EndsAt(page, cfg.offsetInit, cfg.Stride(), cfg.pageSize, last)
    }

    /** Nothing is lost and nothing repeated: what was handed out and what is buffered is the stream up
        to the current offset; only the page that ended the walk was empty; every fetch call got a page
        or reported a failure. */
    ghost predicate Valid()
      reads this
    {
      && offset == cfg.offsetInit + pages * cfg.Stride()
      && yielded + buffer == Stream(pages)
      && (forall i: nat | i + 1 < pages :: PageAt(i) != [])
      && (pages > 0 && !exhausted ==> PageAt(pages - 1) != [])
      && (exhausted ==> buffer == [])
      && (exhausted && cfg.retriesMax >= 0 ==> pages > 0 && Ends(pages - 1))
      && (cfg.retriesMax < 0 ==> pages == calls == interruptions == 0)
      && |failures| == calls - pages + interruptions
    }

    constructor (cfg: Config, page: (int, int) -> seq<T>)
      ensures Valid() && this.cfg == cfg.WithDefaults() && this.page == page
      ensures Here() == Mark(0, 0, 0, [], [], []) && !exhausted
    {
      this.cfg := cfg.WithDefaults();
      this.page := page;
      offset := cfg.offsetInit;
      exhausted, buffer := false, [];
      pages, calls, yielded, interruptions, failures, naps := 0, 0, [], 0, [], [];
    }

    /** Everything a failed call leaves alone. */
    twostate predicate NothingConsumed()
      reads this
    {
      && offset == old(offset) && exhausted == old(exhausted) && buffer == old(buffer)
      && pages == old(pages) && yielded == old(yielded)
    }

    ghost function Here(): Mark<T>
      reads this
    {
      Mark(pages, calls, interruptions, failures, naps, yielded)
    }

    /** ctx.Err(). */
    method Interruption() returns (e: Option<Error>)
      modifies `interruptions, `failures
      ensures interruptions == old(interruptions) + if e.Some? then 1 else 0
      ensures failures == old(failures) + if e.Some? then [e.value] else []
    {
      e := Trouble();
      if e.Some? {
        interruptions := interruptions + 1;
        failures := failures + [e.value];
      }
    }

    /** The sleep between two attempts, which the context may cut short. */
    method Sleep(d: int) returns (e: Option<Error>)
      modifies `interruptions, `failures, `naps
      ensures interruptions == old(interruptions) + if e.Some? then 1 else 0
      ensures failures == old(failures) + if e.Some? then [e.value] else []
      ensures naps == old(naps) + [d]
    {
      naps := naps + [d];
      e := Interruption();
    }

    /** One call of the page fetcher: the page at this offset, or an error. */
    method Fetch(off: int, limit: int) returns (items: seq<T>, e: Option<Error>)
      modifies `calls, `failures
      ensures calls == old(calls) + 1
      ensures failures == old(failures) + if e.Some? then [e.value] else []
      ensures e.None? ==> items == page(off, limit)
    {
      calls := calls + 1;
      items := [];
      e := Trouble();
      if e.None? {
        return page(off, limit), None;
      }
      failures := failures + [e.value];
    }

    /** One attempt at the current page. */
    method TryOnce() returns (t: Try)
      modifies `offset, `buffer, `pages, `calls, `interruptions, `failures
      ensures t.Got? ==>
                && pages == old(pages) + 1 && buffer == page(old(offset), cfg.pageSize)
                && offset == old(offset) + cfg.Stride() && calls == old(calls) + 1 && failures == old(failures)
      ensures !t.Got? ==> NothingConsumed() && failures == old(failures) + [t.e]
      ensures t.Again? ==> cfg.MayRetry(t.e) && calls == old(calls) + 1
      ensures t.Stop? ==>
                || (interruptions == old(interruptions) + 1 && calls == old(calls))
                || (interruptions == old(interruptions) && calls == old(calls) + 1 && !cfg.MayRetry(t.e))
      ensures !t.Stop? ==> interruptions == old(interruptions)
    {
      var ctxErr := Interruption();
      if ctxErr.Some? {
        return Stop(ctxErr.value);
      }
      var items, err := Fetch(offset, cfg.pageSize);
      if err.None? {
        buffer := items;
        pages := pages + 1;
        AdvanceOffset();
        return Got;
      }
      if err.value.IsCancellation() {
        return Stop(err.value);
      }
      if cfg.retryable.Some? && !cfg.retryable.value(err.value) {
        return Stop(err.value);
      }
      return Again(err.value);
    }

    /** The next page, or the last failure met.  Nothing but an interruption keeps an error that may be
        retried from being retried to the end of the budget. */
    method FetchNextPage() returns (error: Option<Error>)
      requires Valid() && buffer == [] && !exhausted
      modifies this
      ensures yielded == old(yielded) && exhausted == old(exhausted)
      ensures error.Some? || cfg.retriesMax < 0 ==> NothingConsumed()
      ensures error.None? && cfg.retriesMax >= 0 ==>
                && pages == old(pages) + 1 && buffer == page(old(offset), cfg.pageSize)
                && offset == old(offset) + cfg.Stride()
                && calls > old(calls)
      ensures cfg.retriesMax < 0 ==> error.None? && interruptions == old(interruptions)
      ensures old(calls) <= calls <= old(calls) + cfg.Attempts()
      ensures cfg.Met(old(failures), failures, error) && interruptions >= old(interruptions)
      ensures Rested(cfg.retryDelay, old(naps), naps, |failures| - |old(failures)| - if error.Some? then 1 else 0)
      ensures error.Some? && interruptions == old(interruptions) && cfg.MayRetry(error.value) ==>
                calls == old(calls) + cfg.Attempts()
      ensures |failures| == calls - pages + interruptions
    {
      var maxAttempts := cfg.retriesMax + 1;
      var lastErr := None;
      var attempt := 1;
      while attempt <= maxAttempts
        invariant if maxAttempts >= 1 then 1 <= attempt <= maxAttempts else attempt == 1
        invariant NothingConsumed() && calls == old(calls) + attempt - 1 && interruptions == old(interruptions)
        invariant attempt == 1 ==> lastErr.None?
        invariant cfg.Met(old(failures), failures, None) && |failures| == calls - pages + interruptions
        invariant Rested(cfg.retryDelay, old(naps), naps, |failures| - |old(failures)|)
      {
        var t := TryOnce();
        match t
        case Got =>
          return None;
        case Stop(e) =>
          return Some(e);
        case Again(e) =>
          lastErr := Some(e);
          if attempt == maxAttempts {
            break;
          }
          var sleepErr := Sleep(cfg.retryDelay);
          if sleepErr.Some? {
            return sleepErr;
          }
        attempt := attempt + 1;
      }
      return lastErr;
    }

    method AdvanceOffset()
      modifies `offset
      ensures offset == old(offset) + cfg.Stride()
    {
      if cfg.byCount {
        offset := offset + cfg.pageSize;
      } else {
        offset := offset + 1;
      }
    }

    lemma NextOffset(k: nat)
      ensures cfg.offsetInit + (k + 1) * cfg.Stride() == cfg.offsetInit + k * cfg.Stride() + cfg.Stride()
    {
    }

    /** An empty page after non-empty ones is the end. */
    lemma EmptyPageEnds(k: nat)
      requires PageAt(k) == [] && forall i: nat | i < k :: PageAt(i) != []
      ensures Ends(k)
    {
      forall i: nat | i < k ensures Page(page, cfg.offsetInit, cfg.Stride(), cfg.pageSize, i) != [] {
        assert PageAt(i) != [];
      }
    }

    /** Some page ends the stream, and all the items before it were handed out. */
    ghost predicate EndIsTrue()
      reads this
    {
      exists k: nat :: Ends(k) && yielded == Stream(k)
    }

    /** When the iterator says that the stream has ended, that is the truth exactly when the retry
        setting is not negative or there was nothing to hand out. */
    lemma EndIsTrueIff()
      requires Valid() && exhausted
      ensures EndIsTrue() <==> cfg.retriesMax >= 0 || PageAt(0) == []
    {
      assert yielded == yielded + buffer;
      if cfg.retriesMax >= 0 {
        assert Ends(pages - 1) && PageAt(pages - 1) == [];
        assert Stream(pages) == Stream(pages - 1) + PageAt(pages - 1);
      } else if PageAt(0) == [] {
        EmptyPageEnds(0);
        assert Ends(0) && yielded == Stream(0);
      } else {
        forall k: nat | Ends(k) ensures Stream(k) != [] {
          assert Stream(1) == Stream(0) + PageAt(0);
          FlatGrows(page, cfg.offsetInit, cfg.Stride(), cfg.pageSize, 1, k);
        }
      }
    }

    /** One item, the end of the stream, or an error, which consumes nothing. */
    method Next() returns (item: Option<T>, error: Option<Error>)
      requires Valid()
      modifies this
      ensures Valid()
      ensures error.Some? ==> item.None? && NothingConsumed() && !exhausted
      ensures Follows(cfg, old(Here()), Here(), if item.Some? then [item.value] else [], error)
      ensures item.Some? ==> (pages == old(pages) && |buffer| < |old(buffer)|) || pages == old(pages) + 1
      ensures item.None? && error.None? ==>
                && exhausted
                && (EndIsTrue() <==> cfg.retriesMax >= 0 || PageAt(0) == [])
      ensures cfg.retriesMax < 0 ==> item.None? && error.None?
      ensures pages <= old(pages) + 1
    {
      ghost var before := Here();
      if exhausted && |buffer| == 0 {
        EndIsTrueIff();
        return None, None;
      }
      if |buffer| == 0 {
        error := Refill();
        if error.Some? {
          return None, error;
        }
        if |buffer| == 0 {
          EndIsTrueIff();
          return None, None;
        }
      }
      ghost var filled := Here();
      var first := TakeFirst();
      FollowsThen(cfg, before, filled, Here(), [], [first], None);
      assert [] + [first] == [first];
      return Some(first), None;
    }

    /** Next's last step: the first buffered item is handed out. */
    method TakeFirst() returns (item: T)
      requires Valid() && buffer != []
      modifies this
      ensures Valid() && !exhausted
      ensures item == old(buffer[0]) && buffer == old(buffer[1..])
      ensures pages == old(pages) && yielded == old(yielded) + [item]
      ensures Follows(cfg, old(Here()), Here(), [item], None)
    {
      item := buffer[0];
      assert yielded + buffer == (yielded + [item]) + buffer[1..];
      yielded := yielded + [item];
      buffer := buffer[1..];
    }

    /** Next's branch for an empty buffer: the next page, which may turn out to be the end. */
    method Refill() returns (error: Option<Error>)
      requires Valid() && buffer == [] && !exhausted
      modifies this
      ensures Valid() && yielded == old(yielded)
      ensures error.Some? ==> NothingConsumed()
      ensures error.None? && buffer == [] ==> exhausted
      ensures error.None? && buffer != [] ==> !exhausted && pages == old(pages) + 1
      ensures old(pages) <= pages <= old(pages) + if error.Some? then 0 else 1
      ensures cfg.retriesMax < 0 ==> error.None?
      ensures Follows(cfg, old(Here()), Here(), [], error)
    {
      ghost var before := Here();
      error := FetchNextPage();
      OnePage(cfg, before, Here(), error);
      if error.Some? {
        return error;
      }
      if pages > old(pages) {
        NextOffset(old(pages));
        assert buffer == PageAt(old(pages)) && yielded + [] == yielded;
        assert yielded + buffer == Stream(pages);
      }
      if |buffer| == 0 {
        exhausted := true;
        if pages > old(pages) {
          EmptyPageEnds(old(pages));
        }
      }
    }

    /** range over All: the consumer sees the items one by one; `goOn` is whether it wants another after
        those it has seen. */
    method All(goOn: seq<T> -> bool, ghost last: nat) returns (seen: seq<T>, error: Option<Error>, broke: bool)
      requires Valid() && Ends(last)
      modifies this
      ensures Valid() && Follows(cfg, old(Here()), Here(), seen, error)
      ensures AskedFor(goOn, seen)
      ensures broke ==> seen != [] && !goOn(seen) && error.None?
      ensures !broke ==> seen == [] || goOn(seen)
      ensures !broke && error.None? ==> exhausted
      ensures !broke && error.None? && cfg.retriesMax >= 0 ==> pages == last + 1 && yielded == Stream(last)
    {
      seen, error, broke := [], None, false;
      while true
        invariant Valid() && Follows(cfg, old(Here()), Here(), seen, None)
        invariant AskedFor(goOn, seen) && (seen == [] || goOn(seen))
        decreases last + 1 - pages, |buffer|
      {
        ghost var before := Here();
        var item;
        item, error := Next();
        StopsAtEnd(last);
        FollowsThen(cfg, old(Here()), before, Here(), seen, if item.Some? then [item.value] else [], error);
        assert seen + [] == seen;
        if error.Some? {
          return seen, error, false;
        }
        if item.None? {
          return seen, None, false;
        }
        AskedForOneMore(goOn, seen, item.value);
        seen := seen + [item.value];
        if !goOn(seen) {
          return seen, None, true;
        }
      }
    }

    /** The walk cannot pass the page that ends the stream. */
    lemma StopsAtEnd(last: nat)
      requires Valid() && Ends(last)
      ensures pages <= last + 1
      ensures pages == last + 1 ==> exhausted
      ensures exhausted && cfg.retriesMax >= 0 ==> pages == last + 1 && yielded == Stream(last)
    {
      assert pages > last + 1 ==> PageAt(last) != [];
      if exhausted && cfg.retriesMax >= 0 {
        assert PageAt(pages - 1) == [];
        assert yielded == yielded + buffer;
      }
    }

    /** Over an upstream that serves a list of m items in pages of P, what has been handed out is always
        a prefix of the list, and at the true end it is the list itself, after ceil(m / P) + 1
        successful page fetches. */
    lemma WalksTheList(list: seq<T>)
      requires Valid() && Serves(page, cfg.offsetInit, cfg.Stride(), cfg.pageSize, list)
      ensures yielded <= list
      ensures exhausted && cfg.retriesMax >= 0 ==> yielded == list && pages == Ceil(|list|, cfg.pageSize) + 1
    {
      EndOfList(page, cfg.offsetInit, cfg.Stride(), cfg.pageSize, list);
      FlatOfList(page, cfg.offsetInit, cfg.Stride(), cfg.pageSize, list, pages);
      assert yielded <= yielded + buffer;
      StopsAtEnd(Ceil(|list|, cfg.pageSize));
    }

    /** Everything that is left, or what came before an error. */
    method Collect(ghost last: nat) returns (out: seq<T>, error: Option<Error>)
      requires Valid() && Ends(last)
      modifies this
      ensures Valid() && Follows(cfg, old(Here()), Here(), out, error)
      ensures error.None? ==> exhausted && (cfg.retriesMax >= 0 ==> pages == last + 1 && yielded == Stream(last))
      ensures pages <= (if error.Some? then last else last + 1)
    {
      out := [];
      while true
        invariant Valid() && Follows(cfg, old(Here()), Here(), out, None)
        decreases last + 1 - pages, |buffer|
      {
        ghost var before := Here();
        var item;
        item, error := Next();
        StopsAtEnd(last);
        FollowsThen(cfg, old(Here()), before, Here(), out, if item.Some? then [item.value] else [], error);
        assert out + [] == out;
        if error.Some? {
          return out, error;
        }
        if item.None? {
          return out, None;
        }
        out := out + [item.value];
      }
    }
  }

  // ------------------------------------------------------------------ whole walks

  /** An upstream that serves a list in the style of the configuration: by item offset, or by page
      number counted from the initial value. */
  function Upstream<T>(c: Config, list: seq<T>): (int, int) -> seq<T> {
    if c.byCount then (off: int, limit: int) => Slice(list, off, limit)
    else (n: int, limit: int) => Slice(list, (n - c.offsetInit) * limit, limit)
  }

  /** What the walk came to, seen from outside. */
  datatype Walk<T> = Walk(
    out: seq<T>, error: Option<Error>, pages: nat, failures: seq<Error>, interruptions: nat, naps: seq<int>)

  /** The page fetch that failed with `e` must not be repeated. */
  predicate Final(retryable: Option<Error -> bool>, e: Error) {
    Canceled in e.Chain() || DeadlineExceeded in e.Chain() || (retryable.Some? && !retryable.value(e))
  }

  /** What a walk over a whole list promises, in terms of what was configured: a zero page size means 100,
      a zero retry setting 5, a zero delay three seconds and a negative one none.  Without an error it
      returns the list after ceil(m / P) + 1 pages.  An error is the last failure met.  A final failure
      ends the walk at once; without one, and without an interruption, only more failures than retries
      do.  Each retry comes after one sleep of the configured length. */
  ghost predicate Delivers<T(!new)>(cfg: Config, list: seq<T>, w: Walk<T>)
    requires cfg.pageSize >= 0
  {
    var size := if cfg.pageSize == 0 then 100 else cfg.pageSize;
    var retries := if cfg.retriesMax == 0 then 5 else cfg.retriesMax;
    var delay := if cfg.retryDelay == 0 then 3_000_000_000 else if cfg.retryDelay < 0 then 0 else cfg.retryDelay;
    var n := |w.failures|;
    && (w.error.None? && retries > 0 ==> w.out == list && w.pages == Ceil(|list|, size) + 1)
    && (w.error.Some? ==> w.out <= list && n > 0 && w.error.value == w.failures[n - 1])
    && (forall i | 0 <= i < n && Final(cfg.retryable, w.failures[i]) :: i == n - 1 && w.error.Some?)
    && (w.error.Some? && w.interruptions == 0 && !Final(cfg.retryable, w.error.value) ==> n > retries)
    && |w.naps| == n - (if w.error.Some? then 1 else 0) && forall d | d in w.naps :: d == delay
  }

  /** With no retry test configured, a walk that is not interrupted and meets no cancellation and no more
      failures than retries returns the list. */
  lemma FewFailuresDoNoHarm<T(!new)>(cfg: Config, list: seq<T>, w: Walk<T>)
    requires cfg.pageSize >= 0 && Delivers(cfg, list, w) && cfg.retriesMax >= 0
    requires cfg.retryable.None? && w.interruptions == 0 && forall e | e in w.failures :: !e.IsCancellation()
    requires |w.failures| <= if cfg.retriesMax == 0 then 5 else cfg.retriesMax
    ensures w.error.None? && w.out == list
  {
    if w.error.Some? {
      assert w.error.value in w.failures;
      w.error.value.KindsAreInTheChain();
    }
  }

  lemma FinalIff(cfg: Config, e: Error)
    ensures cfg.MayRetry(e) <==> !Final(cfg.retryable, e)
  {
    e.KindsAreInTheChain();
  }

  /** From a fresh iterator's point of view to the caller's. */
  lemma WalkDelivers<T(!new)>(cfg: Config, m: Mark<T>, n: Mark<T>, list: seq<T>, w: Walk<T>)
    requires cfg.pageSize >= 0 && m == Mark(0, 0, 0, [], [], []) && Follows(cfg.WithDefaults(), m, n, w.out, w.error)
    requires |n.failures| == n.calls - n.pages + n.interruptions && w.out <= list
    requires w == Walk(w.out, w.error, n.pages, n.failures, n.interruptions, n.naps)
    requires w.error.None? && cfg.retriesMax >= 0 ==>
               w.out == list && w.pages == Ceil(|list|, cfg.WithDefaults().pageSize) + 1
    requires cfg.retriesMax < 0 ==> w.error.None? && n.failures == []
    ensures Delivers(cfg, list, w)
  {
    forall e: Error ensures cfg.WithDefaults().MayRetry(e) <==> !Final(cfg.retryable, e) {
      FinalIff(cfg.WithDefaults(), e);
    }
  }

  /** New and then Collect, over an upstream that serves `list`. */
  method CollectList<T(!new)>(cfg: Config, page: (int, int) -> seq<T>, list: seq<T>)
      returns (out: seq<T>, error: Option<Error>, ghost w: Walk<T>)
    requires cfg.pageSize >= 0
    requires var size := if cfg.pageSize == 0 then 100 else cfg.pageSize;
             Serves(page, cfg.offsetInit, if cfg.byCount then size else 1, size, list)
    ensures w.out == out && w.error == error && Delivers(cfg, list, w) && out <= list
  {
    ghost var c := cfg.WithDefaults();
    var it := new Iterator(cfg, page);
    ghost var start, last := it.Here(), Ceil(|list|, c.pageSize);
    assert last >= 0 && it.Ends(last) by {
      EndOfList(page, c.offsetInit, c.Stride(), c.pageSize, list);
    }
    out, error := it.Collect(last);
    assert it.yielded == out && out <= list by {
      it.WalksTheList(list);
    }
    w := Walk(out, error, it.pages, it.failures, it.interruptions, it.naps);
    assert error.None? && c.retriesMax >= 0 ==> out == list && it.pages == last + 1 by {
      it.WalksTheList(list);
    }
    WalkDelivers(cfg, start, it.Here(), list, w);
  }

  /** In both addressing styles, whatever the page size and the starting point: the walk returns the
      list, from the initial offset on when that is an item offset. */
  method CollectInEitherStyle<T(!new)>(cfg: Config, list: seq<T>)
      returns (out: seq<T>, error: Option<Error>, ghost w: Walk<T>)
    requires cfg.pageSize >= 0
    requires cfg.byCount ==> 0 <= cfg.offsetInit <= |list|
    ensures var rest := if cfg.byCount then list[cfg.offsetInit..] else list;
            w.out == out && w.error == error && Delivers(cfg, rest, w) && out <= rest
  {
    var c := cfg.WithDefaults();
    if cfg.byCount {
      BothStylesServe(list, cfg.offsetInit, 0, c.pageSize);
      out, error, w := CollectList(cfg, Upstream(c, list), list[cfg.offsetInit..]);
    } else {
      BothStylesServe(list, 0, cfg.offsetInit, c.pageSize);
      out, error, w := CollectList(cfg, Upstream(c, list), list);
    }
  }

  /** A negative retry setting over a stream of one item: the first Next reports its end. */
  method NegativeRetriesExample() returns (item: Option<int>, error: Option<Error>, ghost lost: bool)
    ensures item.None? && error.None? && lost
  {
    var page := (off: int, limit: int) => if off < 100 then [7] else [];
    var it := new Iterator(Config(100, 0, true, -1, 0, None), page);
    item, error := it.Next();
    lost := it.yielded == [] && it.PageAt(0) == [7] && !it.EndIsTrue();
  }
}
