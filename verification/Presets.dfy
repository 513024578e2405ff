/** workflows/presets/reader.go: the level-2 cache of one preset, as it is written. */
module Presets {
  import opened Errors

  type Detail = string

  /** The fields of a Preset. */
  datatype Cache = Cache(loaded: bool, loadErr: Option<Error>, detail: Detail)

  const FRESH := Cache(false, None, "")

  /** One call of Detail: whether it asks the platform, what it answers, and what it leaves. */
  datatype Call = Call(asked: bool, answer: Result<Detail>, left: Cache)

  /** Detail, given what the platform says if it is asked. */
  function DetailCall(c: Cache, platform: Result<Detail>): Call {
    if c.loaded then
      if c.loadErr.Some? then Call(false, Err(c.loadErr.value), c.(loaded := false, loadErr := None))
      else Call(false, Ok(c.detail), c)
    else match platform
         case Err(e) => Call(true, platform, c.(loaded := false, loadErr := Some(e)))
         case Ok(d) => Call(true, platform, c.(loaded := true, detail := d))
  }

  class Preset {
    var loaded: bool
    var loadErr: Option<Error>
    var detail: Detail
    ghost var asked: nat   // GetPreset requests sent

    function Value(): Cache
      reads this
    {
      Cache(loaded, loadErr, detail)
    }

    constructor ()
      ensures Value() == FRESH && asked == 0
    {
      loaded, loadErr, detail, asked := false, None, "", 0;
    }

    /** `platform` is what GetPreset answers if it is sent. */
    method Detail(platform: Result<Detail>) returns (r: Result<Detail>)
      modifies this
      ensures var c := DetailCall(old(Value()), platform);
              Value() == c.left && r == c.answer && asked == old(asked) + if c.asked then 1 else 0
    {
      if loaded {
        if loadErr.Some? {
          var err := loadErr.value;
          loaded := false;
          loadErr := None;
          return Err(err);
        }
        return Ok(detail);
      }
      asked := asked + 1;
      loaded := true;
      match platform
      case Err(e) =>
        loadErr := Some(e);
        loaded := false;
        return Err(e);
      case Ok(d) =>
        detail := d;
        return Ok(d);
    }
  }

  /** The state after calls whose platform answers would be `ps`. */
  function After(ps: seq<Result<Detail>>): Cache {
    if ps == [] then FRESH else DetailCall(After(ps[..|ps| - 1]), ps[|ps| - 1]).left
  }

  /** Call i of the run. */
  function CallOf(ps: seq<Result<Detail>>, i: nat): Call
    requires i < |ps|
  {
    DetailCall(After(ps[..i]), ps[i])
  }

  lemma AfterOneMore(ps: seq<Result<Detail>>, i: nat)
    requires i < |ps|
    ensures After(ps[..i + 1]) == CallOf(ps, i).left
  {
    assert ps[..i + 1][..i] == ps[..i];
  }

  /** The documented promise "once loaded, served from the cache" holds for the call after a successful
      fetch exactly when the call before that fetch did not fail at the platform; otherwise that call
      hands back the old failure without asking. */
  lemma CacheServesIff(ps: seq<Result<Detail>>, k: nat)
    requires k + 1 < |ps| && CallOf(ps, k).asked && CallOf(ps, k).answer.Ok?
    ensures var next := CallOf(ps, k + 1);
            var failedBefore := k > 0 && CallOf(ps, k - 1).asked && CallOf(ps, k - 1).answer.Err?;
            && !next.asked
            && (next.answer == CallOf(ps, k).answer <==> !failedBefore)
            && (failedBefore ==> next.answer == CallOf(ps, k - 1).answer)
  {
    AfterOneMore(ps, k);
    if k > 0 {
      AfterOneMore(ps, k - 1);
      LoadErrIsFresh(ps, k - 1);
    }
  }

  /** All calls: the platform is asked by the first one and after every error handed out, and by no
      other.  A call that does not ask repeats the answer before it, unless that answer came from a
      fetch right after a failed one: then it hands out that failure again. */
  lemma CallsAskIff(ps: seq<Result<Detail>>, i: nat)
    requires 0 < i < |ps|
    ensures CallOf(ps, 0).asked
    ensures CallOf(ps, i).asked <==> CallOf(ps, i - 1).answer.Err?
    ensures CallOf(ps, i).asked ==> CallOf(ps, i).answer == ps[i]
    ensures !CallOf(ps, i).asked ==>
              var stale := i > 1 && CallOf(ps, i - 1).asked && CallOf(ps, i - 2).asked && CallOf(ps, i - 2).answer.Err?;
              CallOf(ps, i).answer == CallOf(ps, if stale then i - 2 else i - 1).answer
  {
    assert ps[..0] == [];
    AfterOneMore(ps, i - 1);
    LoadedHoldsAnswer(ps, i - 1);
    if i > 1 {
      AfterOneMore(ps, i - 2);
      LoadErrIsFresh(ps, i - 2);
    }
  }

  /** After an answer without error the cache holds it, perhaps next to an old failure. */
  lemma LoadedHoldsAnswer(ps: seq<Result<Detail>>, i: nat)
    requires i < |ps|
    ensures var c := CallOf(ps, i);
            && (c.left.loaded <==> c.answer.Ok?)
            && (c.left.loaded ==> Ok(c.left.detail) == c.answer)
  {
  }

  /** A load error is only remembered from the call just made. */
  lemma LoadErrIsFresh(ps: seq<Result<Detail>>, i: nat)
    requires i < |ps|
    ensures var c := CallOf(ps, i);
            !c.left.loaded && c.left.loadErr.Some? ==> c.asked && c.answer == Err(c.left.loadErr.value)
  {
  }

  /** In a run where no fetch fails, the platform is asked once, by the first call, and every call
      answers with what it said. */
  lemma {:induction false} OneFetchWhenNoneFails(ps: seq<Result<Detail>>, i: nat)
    requires i < |ps| && forall p | p in ps :: p.Ok?
    ensures CallOf(ps, i).asked == (i == 0) && CallOf(ps, i).answer == ps[0]
    ensures After(ps[..i + 1]) == Cache(true, None, ps[0].value)
  {
    AfterOneMore(ps, i);
    assert ps[i] in ps;
    if i == 0 {
      assert ps[..0] == [];
    } else {
      OneFetchWhenNoneFails(ps, i - 1);
    }
  }

  /** A failure, a success, and then the old failure again. */
  lemma StaleErrorExample(e: Error, d: Detail)
    ensures var ps := [Err(e), Ok(d), Ok(d)];
            CallOf(ps, 1).answer == Ok(d) && CallOf(ps, 2).answer == Err(e) && !CallOf(ps, 2).asked
  {
    var ps := [Err(e), Ok(d), Ok(d)];
    assert ps[..0] == [];
    AfterOneMore(ps, 0);
    AfterOneMore(ps, 1);
  }
}
