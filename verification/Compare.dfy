/** workflows/scans/compare.go: the difference of two scans' findings and the not-exploitable table. */
module Compare {
  import opened Errors

  datatype IdentityKey = SimilarityId | ResultHash

  datatype Finding = Finding(
    similarityId: string, resultHash: string, severity: string, engine: string, state: string, query: string)

  /** The filters; None is the nil map that lets everything pass. */
  datatype Options = Options(identity: IdentityKey, severities: Option<set<string>>, engines: Option<set<string>>)
  {
    predicate WantSeverity(s: string) {
      severities.None? || s in severities.value
    }

    predicate WantEngine(t: string) {
      engines.None? || t in engines.value
    }

    predicate Wants(r: Finding) {
      WantSeverity(r.severity) && WantEngine(r.engine)
    }

    function IdOf(r: Finding): string {
      match identity case ResultHash => r.resultHash case SimilarityId => r.similarityId
    }
  }

  /** Findings by identity. */
  type Index = map<string, Finding>

  /** The filtered findings by identity; a later finding replaces an earlier one. */
  function ById(rs: seq<Finding>, o: Options): Index {
    if rs == [] then map[]
    else
      var r, init := rs[|rs| - 1], ById(rs[..|rs| - 1], o);
      if o.Wants(r) then init[o.IdOf(r) := r] else init
  }

  /** The identities of the filtered findings. */
  function Ids(rs: seq<Finding>, o: Options): set<string> {
    set r | r in rs && o.Wants(r) :: o.IdOf(r)
  }

  lemma {:induction false} ByIdHoldsTheIds(rs: seq<Finding>, o: Options)
    ensures ById(rs, o).Keys == Ids(rs, o)
    ensures forall id | id in ById(rs, o) :: var r := ById(rs, o)[id]; r in rs && o.Wants(r) && o.IdOf(r) == id
  {
    if rs != [] {
      ByIdHoldsTheIds(rs[..|rs| - 1], o);
      assert rs == rs[..|rs| - 1] + [rs[|rs| - 1]];
    }
  }

  /** The finding passes the filters, a missing one letting everything pass. */
  predicate Passes(r: Finding, o: Options) {
    && (o.severities.Some? ==> r.severity in o.severities.value)
    && (o.engines.Some? ==> r.engine in o.engines.value)
  }

  function Identity(r: Finding, o: Options): string {
    if o.identity.ResultHash? then r.resultHash else r.similarityId
  }

  predicate IsOf(r: Finding, o: Options, id: string) {
    Passes(r, o) && Identity(r, o) == id
  }

  /** Finding i passes, and no later one that does has its identity. */
  predicate IsLast(rs: seq<Finding>, o: Options, i: nat) {
    && i < |rs| && Passes(rs[i], o)
    && forall j | i < j < |rs| :: !IsOf(rs[j], o, Identity(rs[i], o))
  }

  predicate MapsTo(m: Index, id: string, r: Finding) {
    id in m && m[id] == r
  }

  lemma LastBefore(rs: seq<Finding>, o: Options, i: nat)
    requires rs != [] && IsLast(rs, o, i) && i < |rs| - 1
    ensures IsLast(rs[..|rs| - 1], o, i)
  {
    var init := rs[..|rs| - 1];
    forall j | i < j < |init| ensures !IsOf(init[j], o, Identity(init[i], o)) {
      assert init[j] == rs[j];
    }
  }

  lemma {:induction false} LastIsHeld(rs: seq<Finding>, o: Options, i: nat)
    requires IsLast(rs, o, i)
    ensures MapsTo(ById(rs, o), Identity(rs[i], o), rs[i])
  {
    var init, n := rs[..|rs| - 1], |rs| - 1;
    assert o.Wants(rs[n]) == Passes(rs[n], o) && o.IdOf(rs[n]) == Identity(rs[n], o);
    if i < n {
      LastBefore(rs, o, i);
      LastIsHeld(init, o, i);
      assert !IsOf(rs[n], o, Identity(rs[i], o));
    }
  }

  lemma {:induction false} HeldIsLast(rs: seq<Finding>, o: Options, id: string) returns (i: nat)
    requires id in ById(rs, o)
    ensures IsLast(rs, o, i) && Identity(rs[i], o) == id
  {
    var init, n := rs[..|rs| - 1], |rs| - 1;
    assert o.Wants(rs[n]) == Passes(rs[n], o) && o.IdOf(rs[n]) == Identity(rs[n], o);
    if IsOf(rs[n], o, id) {
      i := n;
    } else {
      i := HeldIsLast(init, o, id);
      forall j | i < j < |rs| ensures !IsOf(rs[j], o, Identity(rs[i], o)) {
        assert j < n ==> rs[j] == init[j];
      }
    }
  }

  /** The map holds the last finding of every identity: of several with one identity the later wins. */
  lemma LastWins(rs: seq<Finding>, o: Options)
    ensures forall i: nat | IsLast(rs, o, i) :: MapsTo(ById(rs, o), Identity(rs[i], o), rs[i])
    ensures forall id | id in ById(rs, o) :: exists i: nat :: IsLast(rs, o, i) && Identity(rs[i], o) == id
  {
    forall i: nat | IsLast(rs, o, i) ensures MapsTo(ById(rs, o), Identity(rs[i], o), rs[i]) {
      LastIsHeld(rs, o, i);
    }
    forall id | id in ById(rs, o) ensures exists i: nat :: IsLast(rs, o, i) && Identity(rs[i], o) == id {
      var i := HeldIsLast(rs, o, id);
    }
  }

  // ------------------------------------------------------------------ the difference

  datatype Bucket = Bucket(added: nat, resolved: nat, recurrent: nat)
  {
    function Plus(b: Bucket): Bucket {
      Bucket(added + b.added, resolved + b.resolved, recurrent + b.recurrent)
    }
  }

  const NOTHING := Bucket(0, 0, 0)

  /** Counts by severity. */
  type Buckets = map<string, Bucket>

  datatype Comparison = Comparison(bySeverity: Buckets, totals: Bucket)

  function Get(m: Buckets, s: string): Bucket {
    if s in m then m[s] else NOTHING
  }

  /** The identities of `m` with severity `s`. */
  function Having(m: Index, ids: set<string>, s: string): set<string> {
    set id | id in ids && id in m && m[id].severity == s
  }

  /** The set algebra: which identities each count is about. */
  function Added(was: Index, now: Index, s: string): set<string> {
    Having(now, now.Keys - was.Keys, s)
  }

  function Recurrent(was: Index, now: Index, s: string): set<string> {
    Having(now, now.Keys * was.Keys, s)
  }

  function Resolved(was: Index, now: Index, s: string): set<string> {
    Having(was, was.Keys - now.Keys, s)
  }

  function BucketOf(was: Index, now: Index, s: string): Bucket {
    Bucket(|Added(was, now, s)|, |Resolved(was, now, s)|, |Recurrent(was, now, s)|)
  }

  function Severities(m: Index, ids: set<string>): set<string> {
    set id | id in ids && id in m :: m[id].severity
  }

  function TotalOf(was: Index, now: Index): Bucket {
    Bucket(|now.Keys - was.Keys|, |was.Keys - now.Keys|, |now.Keys * was.Keys|)
  }

  function Table(was: Index, now: Index): Buckets {
    map s | s in Severities(now, now.Keys) + Severities(was, was.Keys - now.Keys) :: BucketOf(was, now, s)
  }

  /** The comparison as a function of the two scans and the options. */
  function Expected(oldRes: seq<Finding>, newRes: seq<Finding>, o: Options): Comparison {
    var was, now := ById(oldRes, o), ById(newRes, o);
    Comparison(Table(was, now), TotalOf(was, now))
  }

  lemma HavingOneMore(m: Index, ids: set<string>, id: string, s: string)
    requires id in m && id !in ids
    ensures |Having(m, ids + {id}, s)| == |Having(m, ids, s)| + if m[id].severity == s then 1 else 0
  {
    if m[id].severity == s {
      assert Having(m, ids + {id}, s) == Having(m, ids, s) + {id};
    } else {
      assert Having(m, ids + {id}, s) == Having(m, ids, s);
    }
  }

  /** The filtering loop. */
  method Fill(rs: seq<Finding>, o: Options) returns (byId: Index)
    ensures byId == ById(rs, o)
  {
    byId := map[];
    for i := 0 to |rs|
      invariant byId == ById(rs[..i], o)
    {
      assert rs[..i + 1][..i] == rs[..i];
      var r := rs[i];
      if !o.WantSeverity(r.severity) || !o.WantEngine(r.engine) {
        continue;
      }
      byId := byId[o.IdOf(r) := r];
    }
    assert rs[..|rs|] == rs;
  }

  /** What the table must be after the entries `done` of the new scan. */
  ghost predicate CountedNew(tab: Buckets, was: Index, now: Index, done: set<string>) {
    && tab.Keys == Severities(now, done)
    && forall s: string ::
         Get(tab, s) == Bucket(|Having(now, done - was.Keys, s)|, 0, |Having(now, done * was.Keys, s)|)
  }

  /** `order` lists the elements of `s`, each once. */
  ghost predicate Enumerates(order: seq<string>, s: set<string>) {
    (forall i, j | 0 <= i < j < |order| :: order[i] != order[j]) && forall x :: x in order <==> x in s
  }

  lemma EnumeratesOneLess(order: seq<string>, s: set<string>)
    requires order != [] && Enumerates(order, s)
    ensures var last := order[|order| - 1];
            last in s && Enumerates(order[..|order| - 1], s - {last}) && s == s - {last} + {last}
  {
    assert order == order[..|order| - 1] + [order[|order| - 1]];
  }

  /** One entry of the new scan is counted. */
  function NoteNew(was: Index, now: Index, tab: Buckets, id: string): Buckets
    requires id in now
  {
    var b := Get(tab, now[id].severity);
    tab[now[id].severity := if id in was then b.(recurrent := b.recurrent + 1) else b.(added := b.added + 1)]
  }

  function NoteAllNew(was: Index, now: Index, order: seq<string>): Buckets
    requires forall id | id in order :: id in now
  {
    if order == [] then map[]
    else NoteNew(was, now, NoteAllNew(was, now, order[..|order| - 1]), order[|order| - 1])
  }

  /** New and recurrent: walk the new scan's map in any order. */
  method WalkNew(was: Index, now: Index) returns (tab: Buckets, ghost order: seq<string>)
    ensures Enumerates(order, now.Keys) && tab == NoteAllNew(was, now, order)
  {
    tab, order := map[], [];
    var todo := now.Keys;
    while todo != {}
      invariant todo <= now.Keys && Enumerates(order, now.Keys - todo)
      invariant tab == NoteAllNew(was, now, order)
      decreases |todo|
    {
      var id :| id in todo;
      var sev := now[id].severity;
      var bkt := Get(tab, sev);
      if id in was {
        bkt := bkt.(recurrent := bkt.recurrent + 1);
      } else {
        bkt := bkt.(added := bkt.added + 1);
      }
      tab := tab[sev := bkt];
      todo := todo - {id};
      assert (order + [id])[..|order|] == order;
      order := order + [id];
    }
    assert now.Keys - todo == now.Keys;
  }

  lemma OneMoreNew(was: Index, now: Index, tab: Buckets, done: set<string>, id: string, s: string)
    requires id in now && id !in done
    requires Get(tab, s) == Bucket(|Having(now, done - was.Keys, s)|, 0, |Having(now, done * was.Keys, s)|)
    ensures Get(NoteNew(was, now, tab, id), s)
            == Bucket(|Having(now, (done + {id}) - was.Keys, s)|, 0, |Having(now, (done + {id}) * was.Keys, s)|)
  {
    if id in was {
      assert (done + {id}) * was.Keys == done * was.Keys + {id} && (done + {id}) - was.Keys == done - was.Keys;
      HavingOneMore(now, done * was.Keys, id, s);
    } else {
      assert (done + {id}) - was.Keys == done - was.Keys + {id} && (done + {id}) * was.Keys == done * was.Keys;
      HavingOneMore(now, done - was.Keys, id, s);
    }
  }

  lemma {:induction false} AllNewCounted(was: Index, now: Index, order: seq<string>, done: set<string>)
    requires Enumerates(order, done) && forall id | id in order :: id in now
    ensures CountedNew(NoteAllNew(was, now, order), was, now, done)
  {
    var tab := NoteAllNew(was, now, order);
    if order == [] {
      assert done == {};
      assert forall s: string :: Having(now, done - was.Keys, s) == {} && Having(now, done * was.Keys, s) == {};
    } else {
      var init, id := order[..|order| - 1], order[|order| - 1];
      EnumeratesOneLess(order, done);
      AllNewCounted(was, now, init, done - {id});
      assert Severities(now, done) == Severities(now, done - {id}) + {now[id].severity};
      forall s: string
        ensures Get(tab, s) == Bucket(|Having(now, done - was.Keys, s)|, 0, |Having(now, done * was.Keys, s)|)
      {
        OneMoreNew(was, now, NoteAllNew(was, now, init), done - {id}, id, s);
      }
    }
  }

  /** One entry of the old scan is looked at. */
  function NoteOld(was: Index, now: Index, tab: Buckets, id: string): Buckets
    requires id in was
  {
    if id in now then tab
    else
      var b := Get(tab, was[id].severity);
      tab[was[id].severity := b.(resolved := b.resolved + 1)]
  }

  function NoteAllOld(was: Index, now: Index, start: Buckets, order: seq<string>): Buckets
    requires forall id | id in order :: id in was
  {
    if order == [] then start
    else NoteOld(was, now, NoteAllOld(was, now, start, order[..|order| - 1]), order[|order| - 1])
  }

  /** Resolved: walk the old scan's map in any order. */
  method WalkOld(was: Index, now: Index, start: Buckets)
      returns (tab: Buckets, ghost order: seq<string>)
    ensures Enumerates(order, was.Keys) && tab == NoteAllOld(was, now, start, order)
  {
    tab, order := start, [];
    var todo := was.Keys;
    while todo != {}
      invariant todo <= was.Keys && Enumerates(order, was.Keys - todo)
      invariant tab == NoteAllOld(was, now, start, order)
      decreases |todo|
    {
      var id :| id in todo;
      todo := todo - {id};
      assert (order + [id])[..|order|] == order;
      order := order + [id];
      if id in now {
        continue;
      }
      var bkt := Get(tab, was[id].severity);
      tab := tab[was[id].severity := bkt.(resolved := bkt.resolved + 1)];
    }
    assert was.Keys - todo == was.Keys;
  }

  /** What the table must be after the entries `done` of the old scan, too. */
  ghost predicate CountedAll(tab: Buckets, was: Index, now: Index, done: set<string>) {
    && tab.Keys == Severities(now, now.Keys) + Severities(was, done - now.Keys)
    && forall s: string ::
         Get(tab, s) == Bucket(|Added(was, now, s)|, |Having(was, done - now.Keys, s)|, |Recurrent(was, now, s)|)
  }

  lemma OneMoreOld(was: Index, now: Index, tab: Buckets, done: set<string>, id: string, s: string)
    requires id in was && id !in done
    requires Get(tab, s) == Bucket(|Added(was, now, s)|, |Having(was, done - now.Keys, s)|, |Recurrent(was, now, s)|)
    ensures Get(NoteOld(was, now, tab, id), s)
            == Bucket(|Added(was, now, s)|, |Having(was, (done + {id}) - now.Keys, s)|, |Recurrent(was, now, s)|)
  {
    if id in now {
      assert (done + {id}) - now.Keys == done - now.Keys;
    } else {
      assert (done + {id}) - now.Keys == done - now.Keys + {id};
      HavingOneMore(was, done - now.Keys, id, s);
    }
  }

  lemma NoOldCounted(was: Index, now: Index, start: Buckets)
    requires CountedNew(start, was, now, now.Keys)
    ensures CountedAll(start, was, now, {})
  {
    assert {} - now.Keys == {};
    forall s: string
      ensures Get(start, s) == Bucket(|Added(was, now, s)|, |Having(was, {} - now.Keys, s)|, |Recurrent(was, now, s)|)
    {
      assert Get(start, s) == Bucket(|Having(now, now.Keys - was.Keys, s)|, 0, |Having(now, now.Keys * was.Keys, s)|);
      assert Having(was, {} - now.Keys, s) == {};
    }
  }

  lemma OneMoreOldCounted(was: Index, now: Index, before: Buckets, done: set<string>, id: string)
    requires CountedAll(before, was, now, done) && id in was && id !in done
    ensures CountedAll(NoteOld(was, now, before, id), was, now, done + {id})
  {
    var tab := NoteOld(was, now, before, id);
    if id in now {
      assert done + {id} - now.Keys == done - now.Keys;
    } else {
      assert done + {id} - now.Keys == (done - now.Keys) + {id};
      assert Severities(was, done + {id} - now.Keys) == Severities(was, done - now.Keys) + {was[id].severity};
    }
    forall s: string
      ensures Get(tab, s)
              == Bucket(|Added(was, now, s)|, |Having(was, done + {id} - now.Keys, s)|, |Recurrent(was, now, s)|)
    {
      OneMoreOld(was, now, before, done, id, s);
    }
  }

  lemma {:induction false} AllOldCounted(was: Index, now: Index, start: Buckets, order: seq<string>, done: set<string>)
    requires CountedNew(start, was, now, now.Keys)
    requires Enumerates(order, done) && forall id | id in order :: id in was
    ensures CountedAll(NoteAllOld(was, now, start, order), was, now, done)
  {
    if order == [] {
      assert done == {};
      NoOldCounted(was, now, start);
    } else {
      var init, id := order[..|order| - 1], order[|order| - 1];
      EnumeratesOneLess(order, done);
      AllOldCounted(was, now, start, init, done - {id});
      OneMoreOldCounted(was, now, NoteAllOld(was, now, start, init), done - {id}, id);
    }
  }

  /** The identities of `ids` whose severity is among `sevs`. */
  function Within(m: Index, ids: set<string>, sevs: set<string>): set<string> {
    set id | id in ids && id in m && m[id].severity in sevs
  }

  lemma WithinOneMore(m: Index, ids: set<string>, sevs: set<string>, s: string)
    requires s !in sevs
    ensures |Within(m, ids, sevs + {s})| == |Within(m, ids, sevs)| + |Having(m, ids, s)|
  {
    assert Within(m, ids, sevs + {s}) == Within(m, ids, sevs) + Having(m, ids, s);
  }

  /** The counts over the severities `sevs` together. */
  function Part(was: Index, now: Index, sevs: set<string>): Bucket {
    Bucket(|Within(now, now.Keys - was.Keys, sevs)|, |Within(was, was.Keys - now.Keys, sevs)|,
           |Within(now, now.Keys * was.Keys, sevs)|)
  }

  lemma PartOneMore(was: Index, now: Index, sevs: set<string>, s: string)
    requires s !in sevs
    ensures Part(was, now, sevs + {s}) == Part(was, now, sevs).Plus(BucketOf(was, now, s))
  {
    WithinOneMore(now, now.Keys - was.Keys, sevs, s);
    WithinOneMore(was, was.Keys - now.Keys, sevs, s);
    WithinOneMore(now, now.Keys * was.Keys, sevs, s);
  }

  lemma WithinEverything(m: Index, ids: set<string>, sevs: set<string>)
    requires ids <= m.Keys && Severities(m, ids) <= sevs
    ensures Within(m, ids, sevs) == ids && Within(m, ids, {}) == {}
  {
  }

  lemma PartOfAll(was: Index, now: Index, sevs: set<string>)
    requires sevs == Severities(now, now.Keys) + Severities(was, was.Keys - now.Keys)
    ensures Part(was, now, sevs) == TotalOf(was, now)
    ensures Part(was, now, {}) == NOTHING
  {
    WithinEverything(now, now.Keys - was.Keys, sevs);
    WithinEverything(was, was.Keys - now.Keys, sevs);
    WithinEverything(now, now.Keys * was.Keys, sevs);
  }

  /** The sum of the buckets listed in `order`. */
  function SumOf(tab: Buckets, order: seq<string>): Bucket {
    if order == [] then NOTHING else SumOf(tab, order[..|order| - 1]).Plus(Get(tab, order[|order| - 1]))
  }

  lemma {:induction false} PartialSum(was: Index, now: Index, order: seq<string>, done: set<string>)
    requires Enumerates(order, done) && done <= Table(was, now).Keys
    ensures SumOf(Table(was, now), order) == Part(was, now, done)
  {
    if order == [] {
      PartOfAll(was, now, Table(was, now).Keys);
      assert done == {};
    } else {
      var init, s := order[..|order| - 1], order[|order| - 1];
      EnumeratesOneLess(order, done);
      PartialSum(was, now, init, done - {s});
      PartOneMore(was, now, done - {s}, s);
    }
  }

  /** An enumeration of the table's severities, in any order, sums to the totals. */
  lemma EveryOrderSums(was: Index, now: Index, order: seq<string>)
    requires Enumerates(order, Table(was, now).Keys)
    ensures SumOf(Table(was, now), order) == TotalOf(was, now)
  {
    PartialSum(was, now, order, Table(was, now).Keys);
    PartOfAll(was, now, Table(was, now).Keys);
  }

  /** Totals: add the buckets up, in any order. */
  method Sum(tab: Buckets) returns (t: Bucket, ghost order: seq<string>)
    ensures Enumerates(order, tab.Keys)
    ensures t == SumOf(tab, order)
  {
    t, order := NOTHING, [];
    var todo := tab.Keys;
    while todo != {}
      invariant todo <= tab.Keys && Enumerates(order, tab.Keys - todo)
      invariant t == SumOf(tab, order)
      decreases |todo|
    {
      var s :| s in todo;
      t := t.Plus(tab[s]);
      assert (order + [s])[..|order|] == order;
      order := order + [s];
      todo := todo - {s};
    }
    assert tab.Keys - todo == tab.Keys;
  }

  lemma CountedIsTable(tab: Buckets, was: Index, now: Index)
    requires CountedAll(tab, was, now, was.Keys)
    ensures tab == Table(was, now)
  {
    forall s | s in tab ensures tab[s] == BucketOf(was, now, s) {
      assert Get(tab, s)
             == Bucket(|Added(was, now, s)|, |Having(was, was.Keys - now.Keys, s)|, |Recurrent(was, now, s)|);
    }
  }

  /** diffResults: whatever order the maps are walked in, the result is the one function of the input. */
  method DiffResults(oldRes: seq<Finding>, newRes: seq<Finding>, o: Options) returns (c: Comparison)
    ensures c == Expected(oldRes, newRes, o)
    ensures CountsLastFindings(c, oldRes, newRes, o)
  {
    var was := Fill(oldRes, o);
    var now := Fill(newRes, o);
    var tab, order := WalkNew(was, now);
    AllNewCounted(was, now, order, now.Keys);
    ghost var start := tab;
    tab, order := WalkOld(was, now, tab);
    AllOldCounted(was, now, start, order, was.Keys);
    CountedIsTable(tab, was, now);
    var t, listed := Sum(tab);
    EveryOrderSums(was, now, listed);
    ExpectedCountsLastFindings(oldRes, newRes, o);
    return Comparison(tab, t);
  }

  // ------------------------------------------------------------------ what the counts count

  /** Some finding of `rs` that passes has the identity. */
  ghost predicate Present(rs: seq<Finding>, o: Options, id: string) {
    exists r | r in rs :: IsOf(r, o, id)
  }

  /** The places of the last findings of severity `s` in `rs` whose identity is, or is not, present in the
      other scan. */
  ghost function LastPlaces(rs: seq<Finding>, other: seq<Finding>, o: Options, s: string, shared: bool): set<nat> {
    set i: nat | i < |rs| && IsLast(rs, o, i) && rs[i].severity == s && Present(other, o, Identity(rs[i], o)) == shared
  }

  lemma {:induction false} ImageSize(places: set<nat>, ids: set<string>, rs: seq<Finding>, o: Options)
    requires forall i | i in places :: i < |rs| && Identity(rs[i], o) in ids
    requires forall i, j | i in places && j in places && Identity(rs[i], o) == Identity(rs[j], o) :: i == j
    requires forall id | id in ids :: exists i :: i in places && Identity(rs[i], o) == id
    ensures |places| == |ids|
  {
    if places == {} {
      assert ids == {};
    } else {
      var i :| i in places;
      var id := Identity(rs[i], o);
      forall x | x in ids - {id} ensures exists j :: j in places - {i} && Identity(rs[j], o) == x {
        var j :| j in places && Identity(rs[j], o) == x;
        assert j in places - {i};
      }
      ImageSize(places - {i}, ids - {id}, rs, o);
    }
  }

  lemma PresentIff(rs: seq<Finding>, o: Options, id: string)
    ensures id in ById(rs, o) <==> Present(rs, o, id)
  {
    ByIdHoldsTheIds(rs, o);
    assert forall r: Finding :: o.Wants(r) == Passes(r, o) && o.IdOf(r) == Identity(r, o);
    if Present(rs, o, id) {
      var r :| r in rs && IsOf(r, o, id);
      assert o.IdOf(r) in Ids(rs, o);
    }
    if id in ById(rs, o) {
      assert IsOf(ById(rs, o)[id], o, id);
    }
  }

  lemma OneLastPlace(rs: seq<Finding>, o: Options, i: nat, j: nat)
    requires IsLast(rs, o, i) && IsLast(rs, o, j) && Identity(rs[i], o) == Identity(rs[j], o)
    ensures i == j
  {
    assert i < j ==> IsOf(rs[j], o, Identity(rs[i], o));
    assert j < i ==> IsOf(rs[i], o, Identity(rs[j], o));
  }

  lemma CountedUnderLast(rs: seq<Finding>, other: seq<Finding>, o: Options, s: string, shared: bool)
    ensures var m, n := ById(rs, o), ById(other, o);
            |LastPlaces(rs, other, o, s, shared)| == |Having(m, if shared then m.Keys * n.Keys else m.Keys - n.Keys, s)|
  {
    var m, n, places := ById(rs, o), ById(other, o), LastPlaces(rs, other, o, s, shared);
    var ids := Having(m, if shared then m.Keys * n.Keys else m.Keys - n.Keys, s);
    LastWins(rs, o);
    forall i | i in places ensures i < |rs| && Identity(rs[i], o) in ids {
      PresentIff(other, o, Identity(rs[i], o));
      assert MapsTo(m, Identity(rs[i], o), rs[i]);
    }
    forall i, j | i in places && j in places && Identity(rs[i], o) == Identity(rs[j], o) ensures i == j {
      OneLastPlace(rs, o, i, j);
    }
    forall id | id in ids ensures exists i :: i in places && Identity(rs[i], o) == id {
      var i: nat :| IsLast(rs, o, i) && Identity(rs[i], o) == id;
      assert MapsTo(m, Identity(rs[i], o), rs[i]);
      PresentIff(other, o, id);
      assert i in places;
    }
    ImageSize(places, ids, rs, o);
  }

  /** What a comparison counts, in terms of the two lists of findings alone: every identity once, under the
      severity of the last finding that has it, in the new scan if it is there and in the old one
      otherwise; a severity is listed exactly when something is counted under it. */
  ghost predicate CountsLastFindings(c: Comparison, oldRes: seq<Finding>, newRes: seq<Finding>, o: Options) {
    forall s: string ::
      && Get(c.bySeverity, s) == Bucket(
           |LastPlaces(newRes, oldRes, o, s, false)|,
           |LastPlaces(oldRes, newRes, o, s, false)|,
           |LastPlaces(newRes, oldRes, o, s, true)|)
      && (s in c.bySeverity <==> Get(c.bySeverity, s) != NOTHING)
  }

  lemma ListedIffCounted(was: Index, now: Index, s: string)
    ensures Get(Table(was, now), s) == BucketOf(was, now, s)
    ensures s in Table(was, now) <==> BucketOf(was, now, s) != NOTHING
  {
    if s in Severities(now, now.Keys) {
      var id :| id in now && now[id].severity == s;
      assert id in Added(was, now, s) || id in Recurrent(was, now, s);
    } else if s in Severities(was, was.Keys - now.Keys) {
      var id :| id in was && id !in now && was[id].severity == s;
      assert id in Resolved(was, now, s);
    } else {
      assert Added(was, now, s) == {} && Resolved(was, now, s) == {} && Recurrent(was, now, s) == {};
    }
  }

  lemma ExpectedCountsLastFindings(oldRes: seq<Finding>, newRes: seq<Finding>, o: Options)
    ensures CountsLastFindings(Expected(oldRes, newRes, o), oldRes, newRes, o)
  {
    var was, now := ById(oldRes, o), ById(newRes, o);
    forall s: string
      ensures BucketOf(was, now, s) == Bucket(
                |LastPlaces(newRes, oldRes, o, s, false)|,
                |LastPlaces(oldRes, newRes, o, s, false)|,
                |LastPlaces(newRes, oldRes, o, s, true)|)
      ensures Get(Table(was, now), s) == BucketOf(was, now, s)
      ensures s in Table(was, now) <==> BucketOf(was, now, s) != NOTHING
    {
      ListedIffCounted(was, now, s);
      CountedUnderLast(newRes, oldRes, o, s, false);
      CountedUnderLast(oldRes, newRes, o, s, false);
      CountedUnderLast(newRes, oldRes, o, s, true);
    }
  }

  /** A duplicated identity is counted under its later finding. */
  lemma LaterFindingIsCounted()
    ensures var o := Options(SimilarityId, None, None);
            var high, low := Finding("1", "", "HIGH", "", "", ""), Finding("1", "", "LOW", "", "", "");
            var c := Expected([], [high, low], o);
            Get(c.bySeverity, "LOW") == Bucket(1, 0, 0) && Get(c.bySeverity, "HIGH") == NOTHING
  {
    var o := Options(SimilarityId, None, None);
    var high, low := Finding("1", "", "HIGH", "", "", ""), Finding("1", "", "LOW", "", "", "");
    var rs := [high, low];
    assert rs[..1] == [high] && [high][..0] == [];
    assert ById([high], o) == map["1" := high];
    assert ById(rs, o) == map["1" := low];
    var was, now: Index := map[], map["1" := low];
    assert "HIGH" != "LOW" by { assert |"HIGH"| != |"LOW"|; }
    ListedIffCounted(was, now, "LOW");
    ListedIffCounted(was, now, "HIGH");
    assert Added(was, now, "LOW") == {"1"} && Resolved(was, now, "LOW") == {} && Recurrent(was, now, "LOW") == {};
    assert Added(was, now, "HIGH") == {} && Resolved(was, now, "HIGH") == {} && Recurrent(was, now, "HIGH") == {};
  }

  // ------------------------------------------------------------------ laws of the difference

  /** Conservation: new and recurrent make up the new scan's identities, resolved and recurrent the
      old one's. */
  lemma IdentitiesAreConserved(oldRes: seq<Finding>, newRes: seq<Finding>, o: Options)
    ensures var t := Expected(oldRes, newRes, o).totals;
            && t.added + t.recurrent == |Ids(newRes, o)|
            && t.resolved + t.recurrent == |Ids(oldRes, o)|
  {
    ByIdHoldsTheIds(oldRes, o);
    ByIdHoldsTheIds(newRes, o);
    var a, b := Ids(newRes, o), Ids(oldRes, o);
    assert a == (a - b) + (a * b) && b == (b - a) + (a * b);
  }

  /** Totals is the sum of the buckets, however they are enumerated. */
  lemma TotalsSumTheBuckets(oldRes: seq<Finding>, newRes: seq<Finding>, o: Options, order: seq<string>)
    requires Enumerates(order, Expected(oldRes, newRes, o).bySeverity.Keys)
    ensures SumOf(Expected(oldRes, newRes, o).bySeverity, order) == Expected(oldRes, newRes, o).totals
  {
    EveryOrderSums(ById(oldRes, o), ById(newRes, o), order);
  }

  /** Swapping the scans swaps New and Resolved, per severity and in total, and keeps total Recurrent. */
  lemma SwappingSwaps(oldRes: seq<Finding>, newRes: seq<Finding>, o: Options, s: string)
    ensures var c, d := Expected(oldRes, newRes, o), Expected(newRes, oldRes, o);
            && Get(c.bySeverity, s).added == Get(d.bySeverity, s).resolved
            && Get(c.bySeverity, s).resolved == Get(d.bySeverity, s).added
            && c.totals.added == d.totals.resolved && c.totals.resolved == d.totals.added
            && c.totals.recurrent == d.totals.recurrent
  {
    var was, now := ById(oldRes, o), ById(newRes, o);
    assert now.Keys * was.Keys == was.Keys * now.Keys;
    var c, d := Expected(oldRes, newRes, o), Expected(newRes, oldRes, o);
    if s !in c.bySeverity {
      assert Added(was, now, s) == {} && Resolved(was, now, s) == {};
    }
    if s !in d.bySeverity {
      assert Added(now, was, s) == {} && Resolved(now, was, s) == {};
    }
  }

  /** Per severity Recurrent is not symmetric: a finding whose severity changed is counted under its
      severity in the second scan. */
  lemma RecurrentIsNotSymmetricPerSeverity()
    ensures var o := Options(SimilarityId, None, None);
            var high, low := Finding("1", "", "HIGH", "", "", ""), Finding("1", "", "LOW", "", "", "");
            && Get(Expected([high], [low], o).bySeverity, "LOW").recurrent == 1
            && Get(Expected([low], [high], o).bySeverity, "LOW").recurrent == 0
  {
    var o := Options(SimilarityId, None, None);
    var high, low := Finding("1", "", "HIGH", "", "", ""), Finding("1", "", "LOW", "", "", "");
    assert [high][..0] == [] && [low][..0] == [];
    assert ById([high], o) == map["1" := high] && ById([low], o) == map["1" := low];
    assert Recurrent(ById([high], o), ById([low], o), "LOW") == {"1"};
    assert Recurrent(ById([low], o), ById([high], o), "LOW") == {};
    assert "1" in ById([low], o).Keys;
  }

  /** The net change and the new findings over consecutive scans. */
  function NetChange(scans: seq<seq<Finding>>, o: Options): int {
    if |scans| < 2 then 0
    else
      var t := Expected(scans[|scans| - 2], scans[|scans| - 1], o).totals;
      NetChange(scans[..|scans| - 1], o) + t.added - t.resolved
  }

  function AllAdded(scans: seq<seq<Finding>>, o: Options): int {
    if |scans| < 2 then 0
    else AllAdded(scans[..|scans| - 1], o) + Expected(scans[|scans| - 2], scans[|scans| - 1], o).totals.added
  }

  /** Over any chain of scans the net changes telescope, and no finding is new overall without being
      new at some step. */
  lemma {:induction false} ChainsTelescope(scans: seq<seq<Finding>>, o: Options)
    requires |scans| > 0
    ensures var t := Expected(scans[0], scans[|scans| - 1], o).totals;
            && NetChange(scans, o) == t.added - t.resolved
            && t.added <= AllAdded(scans, o)
  {
    var n := |scans|;
    IdentitiesAreConserved(scans[0], scans[n - 1], o);
    if n == 1 {
      ByIdHoldsTheIds(scans[0], o);
      var k := ById(scans[0], o).Keys;
      assert k - k == {};
    } else {
      var init := scans[..n - 1];
      assert init[0] == scans[0] && init[n - 2] == scans[n - 2];
      ChainsTelescope(init, o);
      IdentitiesAreConserved(scans[0], scans[n - 2], o);
      IdentitiesAreConserved(scans[n - 2], scans[n - 1], o);
      Triangle(ById(scans[0], o).Keys, ById(scans[n - 2], o).Keys, ById(scans[n - 1], o).Keys);
    }
  }

  lemma Triangle<T>(a: set<T>, b: set<T>, c: set<T>)
    ensures |c - a| <= |b - a| + |c - b|
  {
    var u := (b - a) + ((c - b) - (b - a));
    assert c - a <= u;
    assert u == (c - a) + (u - (c - a));
    assert c - b == ((c - b) - (b - a)) + ((c - b) * (b - a));
  }

  /** In `rs`, findings of wanted engines with one identity have one severity. */
  predicate SeverityDetermined(rs: seq<Finding>, o: Options) {
    forall i, j | 0 <= i < |rs| && 0 <= j < |rs| && o.WantEngine(rs[i].engine) && o.WantEngine(rs[j].engine)
      && o.IdOf(rs[i]) == o.IdOf(rs[j]) :: rs[i].severity == rs[j].severity
  }

  function Restrict(m: Index, sevs: set<string>): Index {
    map id | id in m && m[id].severity in sevs :: m[id]
  }

  lemma RestrictUpdate(m: Index, id: string, r: Finding, sevs: set<string>)
    requires id in m ==> m[id].severity == r.severity
    ensures Restrict(m[id := r], sevs) == if r.severity in sevs then Restrict(m, sevs)[id := r] else Restrict(m, sevs)
  {
  }

  lemma SameIdSameSeverity(init: seq<Finding>, r: Finding, o: Options)
    requires SeverityDetermined(init + [r], o) && o.Wants(r) && o.IdOf(r) in ById(init, o)
    ensures ById(init, o)[o.IdOf(r)].severity == r.severity
  {
    ByIdHoldsTheIds(init, o);
    var q, rs := ById(init, o)[o.IdOf(r)], init + [r];
    var i :| 0 <= i < |init| && init[i] == q;
    assert rs[i] == q && rs[|init|] == r;
  }

  lemma {:induction false} FilterIsRestriction(rs: seq<Finding>, o: Options, sevs: set<string>)
    requires o.severities.None? && SeverityDetermined(rs, o)
    ensures ById(rs, o.(severities := Some(sevs))) == Restrict(ById(rs, o), sevs)
  {
    if rs != [] {
      var init, r := rs[..|rs| - 1], rs[|rs| - 1];
      assert rs == init + [r];
      assert SeverityDetermined(init, o) by {
        assert forall i | 0 <= i < |init| :: init[i] == rs[i];
      }
      FilterIsRestriction(init, o, sevs);
      if o.Wants(r) {
        if o.IdOf(r) in ById(init, o) {
          SameIdSameSeverity(init, r, o);
        }
        RestrictUpdate(ById(init, o), o.IdOf(r), r, sevs);
      }
    }
  }

  /** When identity determines severity across both scans, filtering by severity before the diff is the
      same as restricting the unfiltered diff to those severities. */
  lemma FilteringCommutes(oldRes: seq<Finding>, newRes: seq<Finding>, o: Options, sevs: set<string>, s: string)
    requires o.severities.None? && SeverityDetermined(oldRes + newRes, o)
    ensures var all, some := Expected(oldRes, newRes, o), Expected(oldRes, newRes, o.(severities := Some(sevs)));
            && (s in some.bySeverity <==> s in all.bySeverity && s in sevs)
            && Get(some.bySeverity, s) == (if s in sevs then Get(all.bySeverity, s) else NOTHING)
  {
    var both := oldRes + newRes;
    assert SeverityDetermined(oldRes, o) by {
      assert forall i | 0 <= i < |oldRes| :: both[i] == oldRes[i];
    }
    assert SeverityDetermined(newRes, o) by {
      assert forall i | 0 <= i < |newRes| :: both[|oldRes| + i] == newRes[i];
    }
    FilterIsRestriction(oldRes, o, sevs);
    FilterIsRestriction(newRes, o, sevs);
    var was, now := ById(oldRes, o), ById(newRes, o);
    SharedIdentitiesAgree(oldRes, newRes, o);
    RestrictionKeepsBuckets(was, now, sevs, s);
  }

  lemma {:induction false} SumsAgree(a: Buckets, b: Buckets, order: seq<string>)
    requires forall s | s in order :: Get(a, s) == Get(b, s)
    ensures SumOf(a, order) == SumOf(b, order)
  {
    if order != [] {
      SumsAgree(a, b, order[..|order| - 1]);
    }
  }

  lemma SumOfKept(all: Buckets, some: Buckets, sevs: set<string>, order: seq<string>)
    requires forall s :: s in some <==> s in all && s in sevs
    requires forall s | s in sevs :: Get(some, s) == Get(all, s)
    requires Enumerates(order, all.Keys * sevs)
    ensures Enumerates(order, some.Keys) && SumOf(some, order) == SumOf(all, order)
  {
    assert some.Keys == all.Keys * sevs;
    SumsAgree(some, all, order);
  }

  /** And the totals of the filtered diff are the sum of the kept buckets of the unfiltered one. */
  lemma FilteredTotals(oldRes: seq<Finding>, newRes: seq<Finding>, o: Options, sevs: set<string>, order: seq<string>)
    requires o.severities.None? && SeverityDetermined(oldRes + newRes, o)
    requires Enumerates(order, Expected(oldRes, newRes, o).bySeverity.Keys * sevs)
    ensures Expected(oldRes, newRes, o.(severities := Some(sevs))).totals
            == SumOf(Expected(oldRes, newRes, o).bySeverity, order)
  {
    var filtered := o.(severities := Some(sevs));
    var all, some := Expected(oldRes, newRes, o).bySeverity, Expected(oldRes, newRes, filtered).bySeverity;
    forall s: string
      ensures s in some <==> s in all && s in sevs
      ensures s in sevs ==> Get(some, s) == Get(all, s)
    {
      FilteringCommutes(oldRes, newRes, o, sevs, s);
    }
    SumOfKept(all, some, sevs, order);
    TotalsSumTheBuckets(oldRes, newRes, filtered, order);
  }

  lemma SharedIdentitiesAgree(oldRes: seq<Finding>, newRes: seq<Finding>, o: Options)
    requires SeverityDetermined(oldRes + newRes, o)
    ensures var was, now := ById(oldRes, o), ById(newRes, o);
            forall id | id in was && id in now :: was[id].severity == now[id].severity
  {
    var was, now, both := ById(oldRes, o), ById(newRes, o), oldRes + newRes;
    ByIdHoldsTheIds(oldRes, o);
    ByIdHoldsTheIds(newRes, o);
    forall id | id in was && id in now ensures was[id].severity == now[id].severity {
      var i :| 0 <= i < |oldRes| && oldRes[i] == was[id];
      var j :| 0 <= j < |newRes| && newRes[j] == now[id];
      assert both[i] == was[id] && both[|oldRes| + j] == now[id];
    }
  }

  lemma RestrictionKeepsBuckets(was: Index, now: Index, sevs: set<string>, s: string)
    requires forall id | id in was && id in now :: was[id].severity == now[id].severity
    ensures var was', now' := Restrict(was, sevs), Restrict(now, sevs);
            && BucketOf(was', now', s) == (if s in sevs then BucketOf(was, now, s) else NOTHING)
            && (s in Severities(now', now'.Keys) + Severities(was', was'.Keys - now'.Keys)
                <==> s in sevs && s in Severities(now, now.Keys) + Severities(was, was.Keys - now.Keys))
  {
    var was', now' := Restrict(was, sevs), Restrict(now, sevs);
    if s in sevs {
      assert Added(was', now', s) == Added(was, now, s);
      assert Resolved(was', now', s) == Resolved(was, now, s);
      assert Recurrent(was', now', s) == Recurrent(was, now, s);
      assert forall id | id in now && now[id].severity == s :: id in now';
      assert forall id | id in was.Keys - now.Keys && was[id].severity == s :: id in was'.Keys - now'.Keys;
      assert forall id | id in was'.Keys - now'.Keys :: id in was.Keys - now.Keys;
    } else {
      assert Added(was', now', s) == {} && Resolved(was', now', s) == {} && Recurrent(was', now', s) == {};
    }
  }
}
