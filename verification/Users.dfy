/** workflows/users/reader.go: the cached user catalog, its three indices and its own paging loop. */
module Users {
  import opened Errors
  import opened Numbers
  import opened Pages
  import Pagination

  datatype User = User(id: string, email: string, username: string)

  datatype Field = Id | Email | Username

  function Get(u: User, f: Field): string {
    match f case Id => u.id case Email => u.email case Username => u.username
  }

  /** Which users the index of a field holds: all for the id, those with a value for the others. */
  predicate Indexed(u: User, f: Field) {
    f.Id? || Get(u, f) != ""
  }

  /** The last match of a scan from the front, or nothing. */
  function LastMatch(users: seq<User>, f: Field, key: string): Option<User> {
    if users == [] then None
    else
      var last := users[|users| - 1];
      if Indexed(last, f) && Get(last, f) == key then Some(last) else LastMatch(users[..|users| - 1], f, key)
  }

  /** What the last match is, without the scan; the empty email and username are never found. */
  lemma {:induction false} LastMatchIsTheLast(users: seq<User>, f: Field, key: string)
    ensures match LastMatch(users, f, key)
            case None => forall i | 0 <= i < |users| :: Get(users[i], f) != key || (key == "" && !f.Id?)
            case Some(u) =>
              && (key != "" || f.Id?)
              && exists i | 0 <= i < |users| ::
                   users[i] == u && Get(u, f) == key && forall j | i < j < |users| :: Get(users[j], f) != key
  {
    if users != [] {
      var init, n := users[..|users| - 1], |users| - 1;
      LastMatchIsTheLast(init, f, key);
      if Indexed(users[n], f) && Get(users[n], f) == key {
        assert users[n] == users[n];
      } else if LastMatch(init, f, key).Some? {
        var i :| 0 <= i < |init| && init[i] == LastMatch(init, f, key).value && Get(init[i], f) == key
                 && forall j | i < j < |init| :: Get(init[j], f) != key;
        assert users[i] == init[i];
        assert forall j | i < j < |users| :: Get(users[j], f) != key;
      }
    }
  }

  /** The faults of one load: what goes wrong with its fetches, by number. */
  type Faults = nat -> Option<Error>

  /** The fetches 0..last all succeed. */
  ghost predicate Flawless(fault: Faults, last: nat) {
    forall i: nat | i <= last :: fault(i).None?
  }

  /** Fetch i is the first to fail, and the error is its. */
  ghost predicate FailsAt(fault: Faults, i: nat, e: Error) {
    fault(i) == Some(e) && forall j: nat | j < i :: fault(j).None?
  }

  /** fetchAllUsers: pages of 100 until one is short; the first failing fetch loses everything. */
  method FetchAllUsers(page: (int, int) -> seq<User>, fault: Faults, ghost short: nat)
      returns (r: Result<seq<User>>, fetches: nat)
    requires FirstShort(page, 0, 100, 100, short)
    ensures r.Ok? <==> Flawless(fault, short)
    ensures r.Ok? ==> r.value == Flat(page, 0, 100, 100, short + 1) && fetches == short + 1
    ensures r.Err? ==> fetches <= short && FailsAt(fault, fetches, r.error)
  {
    var all := [];
    var offset := 0;
    fetches := 0;
    while true
      invariant fetches <= short && forall j: nat | j < fetches :: fault(j).None?
      invariant offset == 100 * fetches && all == Flat(page, 0, 100, 100, fetches)
      decreases short - fetches
    {
      var err := fault(fetches);
      if err.Some? {
        return Err(err.value), fetches;
      }
      var items := page(offset, 100);
      assert items == Page(page, 0, 100, 100, fetches);
      fetches := fetches + 1;
      all := all + items;
      if |items| < 100 {
        return Ok(all), fetches;
      }
      offset := offset + 100;
    }
  }

  /** For every list-backed upstream with pages of 100, the user loop and New followed by Collect: each
      returns the list unless it meets a failure, in floor(m / 100) + 1 and ceil(m / 100) + 1 fetches. */
  method ReadBothWays(page: (int, int) -> seq<User>, fault: Faults, list: seq<User>)
      returns (all: Result<seq<User>>, fetches: nat, out: seq<User>, error: Option<Error>,
               ghost w: Pagination.Walk<User>)
    requires Serves(page, 0, 100, 100, list)
    ensures all.Ok? <==> Flawless(fault, |list| / 100)
    ensures all.Ok? ==> all.value == list && fetches == |list| / 100 + 1
    ensures w.out == out && w.error == error && (w.failures == [] ==> error.None?)
    ensures error.None? ==> out == list && w.pages == Ceil(|list|, 100) + 1
    ensures all.Ok? && error.None? ==> all.value == out && fetches == w.pages - if |list| % 100 == 0 then 0 else 1
  {
    EndOfList(page, 0, 100, 100, list);
    all, fetches := FetchAllUsers(page, fault, |list| / 100);
    out, error, w := Pagination.CollectList(Pagination.Config(100, 0, true, 0, 0, None), page, list);
  }

  /** The map answers every lookup on a field as the scan of the list does. */
  ghost predicate Agrees(m: map<string, User>, list: seq<User>, f: Field) {
    forall key: string :: (if key in m then Some(m[key]) else None) == LastMatch(list, f, key)
  }

  lemma AgreesWithOneMore(m: map<string, User>, list: seq<User>, u: User, f: Field)
    requires Agrees(m, list, f)
    ensures Agrees(if Indexed(u, f) then m[Get(u, f) := u] else m, list + [u], f)
  {
    assert (list + [u])[..|list|] == list;
    forall key: string
      ensures var m' := if Indexed(u, f) then m[Get(u, f) := u] else m;
              (if key in m' then Some(m'[key]) else None) == LastMatch(list + [u], f, key)
    {
      assert (if key in m then Some(m[key]) else None) == LastMatch(list, f, key);
    }
  }

  class UserReader {
    const hasBackend: bool
    const page: (int, int) -> seq<User>
    ghost const short: nat

    var loaded: bool
    var users: seq<User>
    var byId: map<string, User>
    var byEmail: map<string, User>
    var byUsername: map<string, User>

    ghost predicate Valid()
      reads this
    {
      && FirstShort(page, 0, 100, 100, short)
      && (loaded ==> users == Flat(page, 0, 100, 100, short + 1)
                     && Agrees(byId, users, Id) && Agrees(byEmail, users, Email) && Agrees(byUsername, users, Username))
    }

    constructor (hasBackend: bool, page: (int, int) -> seq<User>, ghost short: nat)
      requires FirstShort(page, 0, 100, 100, short)
      ensures Valid() && !loaded && this.page == page && this.hasBackend == hasBackend
    {
      this.hasBackend, this.page, this.short := hasBackend, page, short;
      loaded, users := false, [];
      byId, byEmail, byUsername := map[], map[], map[];
    }

    /** A load is tried when there is none, and succeeds exactly when none of its fetches fails. */
    ghost predicate Loads(fault: Faults, was: bool) {
      was || (hasBackend && Flawless(fault, short))
    }

    /** The error of a load that does not succeed. */
    ghost predicate LoadFails(fault: Faults, e: Error) {
      if !hasBackend then e == ConfigurationError("backend")
      else exists i: nat | i <= short :: FailsAt(fault, i, e)
    }

    method EnsureLoaded(fault: Faults) returns (error: Option<Error>)
      requires Valid()
      modifies this
      ensures Valid()
      ensures old(loaded) ==> users == old(users)
      ensures error.None? == loaded == Loads(fault, old(loaded))
      ensures error.Some? ==> LoadFails(fault, error.value)
    {
      if loaded {
        return None;
      }
      if !hasBackend {
        return Some(ConfigurationError("backend"));
      }
      var all, fetches := FetchAllUsers(page, fault, short);
      if all.Err? {
        return Some(all.error);
      }
      users := all.value;
      byId, byEmail, byUsername := map[], map[], map[];
      var i := 0;
      while i < |users|
        invariant 0 <= i <= |users| && users == all.value && !loaded
        invariant Agrees(byId, users[..i], Id)
        invariant Agrees(byEmail, users[..i], Email)
        invariant Agrees(byUsername, users[..i], Username)
      {
        var u := users[i];
        AgreesWithOneMore(byId, users[..i], u, Id);
        AgreesWithOneMore(byEmail, users[..i], u, Email);
        AgreesWithOneMore(byUsername, users[..i], u, Username);
        assert users[..i + 1] == users[..i] + [u];
        byId := byId[u.id := u];
        if u.email != "" {
          byEmail := byEmail[u.email := u];
        }
        if u.username != "" {
          byUsername := byUsername[u.username := u];
        }
        i := i + 1;
      }
      assert users[..|users|] == users;
      loaded := true;
      return None;
    }

    method List(fault: Faults) returns (r: Result<seq<User>>)
      requires Valid()
      modifies this
      ensures Valid()
      ensures r.Ok? == loaded == Loads(fault, old(loaded))
      ensures r.Ok? ==> r.value == users == Flat(page, 0, 100, 100, short + 1)
      ensures old(loaded) ==> r == Ok(old(users))
      ensures r.Err? ==> LoadFails(fault, r.error)
    {
      var err := EnsureLoaded(fault);
      if err.Some? {
        return Err(err.value);
      }
      return Ok(users);
    }

    /** ByID, ByEmail and ByUsername: the last match in the list, whatever was called before. */
    method By(f: Field, key: string, fault: Faults) returns (r: Result<Option<User>>)
      requires Valid()
      modifies this
      ensures Valid()
      ensures r.Ok? == loaded == Loads(fault, old(loaded))
      ensures r.Ok? ==> r.value == LastMatch(users, f, key) && users == Flat(page, 0, 100, 100, short + 1)
      ensures old(loaded) ==> r == Ok(LastMatch(old(users), f, key))
      ensures r.Err? ==> LoadFails(fault, r.error)
    {
      var err := EnsureLoaded(fault);
      if err.Some? {
        return Err(err.value);
      }
      match f
      case Id => return Ok(if key in byId then Some(byId[key]) else None);
      case Email => return Ok(if key in byEmail then Some(byEmail[key]) else None);
      case Username => return Ok(if key in byUsername then Some(byUsername[key]) else None);
    }
  }
}
