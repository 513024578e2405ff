/** workflows/scans/compare.go, groupNotExploitable: the suppressed findings of the new scan grouped by
    query name, filled in from a map in any order and sorted by an unstable sort. */
module NotExploitable {
  import opened Compare

  datatype Group = Group(name: string, severity: string, count: nat)

  predicate Suppressed(r: Finding, o: Options) {
    (r.state == "NOT_EXPLOITABLE" || r.state == "PROPOSED_NOT_EXPLOITABLE") && o.Wants(r)
  }

  function NameOf(r: Finding): string {
    if r.query == "" then "(unnamed)" else r.query
  }

  /** How many suppressed findings have this name. */
  function Count(rs: seq<Finding>, o: Options, name: string): nat {
    if rs == [] then 0
    else
      var r := rs[|rs| - 1];
      Count(rs[..|rs| - 1], o, name) + if Suppressed(r, o) && NameOf(r) == name then 1 else 0
  }

  /** The severity of the first of them. */
  function FirstSeverity(rs: seq<Finding>, o: Options, name: string): string {
    if rs == [] then ""
    else
      var init, r := rs[..|rs| - 1], rs[|rs| - 1];
      if Count(init, o, name) == 0 && Suppressed(r, o) && NameOf(r) == name then r.severity
      else FirstSeverity(init, o, name)
  }

  function GroupOf(rs: seq<Finding>, o: Options, name: string): Group {
    Group(name, FirstSeverity(rs, o, name), Count(rs, o, name))
  }

  function AllSuppressed(rs: seq<Finding>, o: Options): nat {
    if rs == [] then 0 else AllSuppressed(rs[..|rs| - 1], o) + if Suppressed(rs[|rs| - 1], o) then 1 else 0
  }

  // ------------------------------------------------------------------ the order of the table

  /** Go's string comparison. */
  predicate Less(a: string, b: string) {
    b != [] && (a == [] || a[0] < b[0] || (a[0] == b[0] && Less(a[1..], b[1..])))
  }

  /** Count descending, then name. */
  predicate Precedes(g: Group, h: Group) {
    g.count > h.count || (g.count == h.count && Less(g.name, h.name))
  }

  lemma {:induction false} LessIsTotal(a: string, b: string)
    ensures Less(a, b) || a == b || Less(b, a)
    ensures !(Less(a, b) && Less(b, a)) && !Less(a, a)
  {
    if a != [] {
      if b != [] && a[0] == b[0] {
        LessIsTotal(a[1..], b[1..]);
        assert a == [a[0]] + a[1..] && b == [b[0]] + b[1..];
      }
      LessIsIrreflexive(a);
    }
  }

  lemma {:induction false} LessIsIrreflexive(a: string)
    ensures !Less(a, a)
  {
    if a != [] {
      LessIsIrreflexive(a[1..]);
    }
  }

  lemma {:induction false} LessIsTransitive(a: string, b: string, c: string)
    requires Less(a, b) && Less(b, c)
    ensures Less(a, c)
  {
    if a != [] && a[0] == b[0] == c[0] {
      LessIsTransitive(a[1..], b[1..], c[1..]);
    }
  }

  lemma PrecedesIsTransitive(g: Group, h: Group, k: Group)
    requires !Precedes(h, g) && !Precedes(k, h)
    ensures !Precedes(k, g)
  {
    LessIsTotal(g.name, h.name);
    LessIsTotal(h.name, k.name);
    LessIsTotal(g.name, k.name);
    if Less(g.name, h.name) && Less(h.name, k.name) {
      LessIsTransitive(g.name, h.name, k.name);
    }
  }

  /** What any sort with this comparison guarantees: no element precedes an earlier one. */
  ghost predicate Ordered(gs: seq<Group>) {
    forall i, j | 0 <= i < j < |gs| :: !Precedes(gs[j], gs[i])
  }

  /** sort.Slice: some arrangement of the same groups that is ordered; nothing is promised about groups
      that compare equal.  The body is one such sort. */
  method Sort(gs: seq<Group>) returns (out: seq<Group>)
    ensures multiset(out) == multiset(gs) && Ordered(out)
  {
    out := [];
    for i := 0 to |gs|
      invariant multiset(out) == multiset(gs[..i]) && Ordered(out)
    {
      assert gs[..i + 1] == gs[..i] + [gs[i]];
      out := Insert(out, gs[i]);
    }
    assert gs[..|gs|] == gs;
  }

  method Insert(gs: seq<Group>, g: Group) returns (out: seq<Group>)
    requires Ordered(gs)
    ensures multiset(out) == multiset(gs) + multiset{g} && Ordered(out)
  {
    var k := 0;
    while k < |gs| && Precedes(gs[k], g)
      invariant 0 <= k <= |gs|
      invariant forall j | 0 <= j < k :: Precedes(gs[j], g)
    {
      k := k + 1;
    }
    InsertKeepsOrder(gs, g, k);
    assert gs == gs[..k] + gs[k..];
    return gs[..k] + [g] + gs[k..];
  }

  lemma InsertKeepsOrder(gs: seq<Group>, g: Group, k: nat)
    requires Ordered(gs) && k <= |gs|
    requires forall j | 0 <= j < k :: Precedes(gs[j], g)
    requires k < |gs| ==> !Precedes(gs[k], g)
    ensures Ordered(gs[..k] + [g] + gs[k..])
  {
    var out := gs[..k] + [g] + gs[k..];
    forall i, j | 0 <= i < j < |out| ensures !Precedes(out[j], out[i]) {
      if j == k {
        LessIsTotal(gs[i].name, g.name);
      } else if i == k && j > k + 1 {
        PrecedesIsTransitive(g, gs[k], gs[j - 1]);
      }
    }
  }

  // ------------------------------------------------------------------ the table

  /** The table: one row per name with a suppressed finding, with its count and first severity, in
      strict order. */
  ghost predicate IsTable(out: seq<Group>, rs: seq<Finding>, o: Options) {
    && (forall g :: g in out <==> g.count > 0 && g == GroupOf(rs, o, g.name))
    && (forall i, j | 0 <= i < j < |out| :: Precedes(out[i], out[j]) && out[i].name != out[j].name)
  }

  /** The grouping loop: the map's rows after the findings. */
  ghost predicate Grouped(counts: map<string, Group>, rs: seq<Finding>, o: Options) {
    forall name: string ::
      (name in counts <==> Count(rs, o, name) > 0) && (name in counts ==> counts[name] == GroupOf(rs, o, name))
  }

  method Tally(rs: seq<Finding>, o: Options) returns (counts: map<string, Group>)
    ensures Grouped(counts, rs, o)
  {
    counts := map[];
    for i := 0 to |rs|
      invariant Grouped(counts, rs[..i], o)
    {
      assert rs[..i + 1][..i] == rs[..i];
      var r := rs[i];
      if r.state != "NOT_EXPLOITABLE" && r.state != "PROPOSED_NOT_EXPLOITABLE" {
        continue;
      }
      if !o.WantSeverity(r.severity) || !o.WantEngine(r.engine) {
        continue;
      }
      var name := if r.query == "" then "(unnamed)" else r.query;
      var g := if name in counts then counts[name] else Group(name, r.severity, 0);
      counts := counts[name := g.(count := g.count + 1)];
    }
    assert rs[..|rs|] == rs;
  }

  /** The rows of the map, in any order. */
  method Rows(counts: map<string, Group>) returns (out: seq<Group>)
    requires forall name | name in counts :: counts[name].name == name
    ensures forall g :: g in out <==> g.name in counts && counts[g.name] == g
    ensures forall i, j | 0 <= i < j < |out| :: out[i].name != out[j].name
  {
    out := [];
    var todo := counts.Keys;
    while todo != {}
      invariant todo <= counts.Keys
      invariant forall g :: g in out <==> g.name in counts && g.name !in todo && counts[g.name] == g
      invariant forall i, j | 0 <= i < j < |out| :: out[i].name != out[j].name
      decreases |todo|
    {
      var name :| name in todo;
      out := out + [counts[name]];
      todo := todo - {name};
    }
  }

  lemma SortedRowsAreStrict(rows: seq<Group>, out: seq<Group>)
    requires multiset(out) == multiset(rows) && Ordered(out)
    requires forall i, j | 0 <= i < j < |rows| :: rows[i].name != rows[j].name
    ensures forall g :: g in out <==> g in rows
    ensures forall i, j | 0 <= i < j < |out| :: Precedes(out[i], out[j]) && out[i].name != out[j].name
  {
    assert forall g :: g in out <==> g in multiset(out);
    assert forall g :: g in rows <==> g in multiset(rows);
    forall i, j | 0 <= i < j < |out| ensures Precedes(out[i], out[j]) && out[i].name != out[j].name {
      if out[i].name == out[j].name {
        DistinctNamesOnce(rows, out, i, j);
        assert false;
      }
      LessIsTotal(out[i].name, out[j].name);
    }
  }

  lemma DistinctNamesOnce(rows: seq<Group>, out: seq<Group>, i: nat, j: nat)
    requires multiset(out) == multiset(rows) && i < j < |out|
    requires forall i, j | 0 <= i < j < |rows| :: rows[i].name != rows[j].name
    ensures out[i].name != out[j].name
  {
    if out[i].name == out[j].name {
      assert out[i] in multiset(rows) && out[j] in multiset(rows);
      assert out[i] in rows && out[j] in rows;
      assert out[i] == out[j];
      var rest := out[..i] + out[i + 1..];
      assert out == out[..i] + [out[i]] + out[i + 1..];
      assert rest[j - 1] == out[j];
      assert multiset(out)[out[i]] >= 2;
      OnceInRows(rows, out[i]);
      assert false;
    }
  }

  lemma {:induction false} OnceInRows(rows: seq<Group>, g: Group)
    requires forall i, j | 0 <= i < j < |rows| :: rows[i].name != rows[j].name
    ensures multiset(rows)[g] <= 1
  {
    if rows != [] {
      var init, last := rows[..|rows| - 1], rows[|rows| - 1];
      OnceInRows(init, g);
      assert rows == init + [last];
      if last == g {
        assert forall k | 0 <= k < |init| :: init[k] == rows[k] && init[k].name != g.name;
        assert g !in init;
      }
    }
  }

  /** `a` and `b` agree up to some place, where `a` ends or has the smaller character. */
  ghost predicate Alphabetic(a: string, b: string) {
    exists k: nat :: AlphabeticAt(a, b, k)
  }

  predicate AlphabeticAt(a: string, b: string, k: nat) {
    k <= |a| && k < |b| && a[..k] == b[..k] && (k == |a| || a[k] < b[k])
  }

  lemma {:induction false} LessIsAlphabetic(a: string, b: string)
    requires Less(a, b)
    ensures Alphabetic(a, b)
  {
    if a == [] || a[0] < b[0] {
      assert AlphabeticAt(a, b, 0);
    } else {
      LessIsAlphabetic(a[1..], b[1..]);
      var k: nat :| AlphabeticAt(a[1..], b[1..], k);
      assert a[..k + 1] == [a[0]] + a[1..][..k] && b[..k + 1] == [b[0]] + b[1..][..k];
      assert AlphabeticAt(a, b, k + 1);
    }
  }

  /** Counts never rise, and groups of one count are in name order. */
  ghost predicate Descending(out: seq<Group>) {
    forall i, j | 0 <= i < j < |out| ::
      out[i].count >= out[j].count && (out[i].count == out[j].count ==> Alphabetic(out[i].name, out[j].name))
  }

  /** The finding is a suppressed one of this name that passes the filters. */
  predicate Shown(r: Finding, o: Options, name: string) {
    && r.state in {"NOT_EXPLOITABLE", "PROPOSED_NOT_EXPLOITABLE"}
    && (o.severities.Some? ==> r.severity in o.severities.value)
    && (o.engines.Some? ==> r.engine in o.engines.value)
    && name == if r.query == "" then "(unnamed)" else r.query
  }

  function ShownAt(rs: seq<Finding>, o: Options, name: string): set<nat> {
    set i: nat | i < |rs| && Shown(rs[i], o, name)
  }

  lemma ShownIff(r: Finding, o: Options, name: string)
    ensures Shown(r, o, name) <==> Suppressed(r, o) && NameOf(r) == name
  {
  }

  lemma PlacesOneMore(init: seq<Finding>, r: Finding, o: Options, name: string)
    ensures |ShownAt(init + [r], o, name)| == |ShownAt(init, o, name)| + if Shown(r, o, name) then 1 else 0
  {
    var before, after := ShownAt(init, o, name), ShownAt(init + [r], o, name);
    forall i: nat ensures i in after <==> i in before || (i == |init| && Shown(r, o, name)) {
      assert i < |init| ==> (init + [r])[i] == init[i];
    }
    if Shown(r, o, name) {
      assert after == before + {|init|};
    } else {
      assert after == before;
    }
  }

  lemma {:induction false} CountIsPlaces(rs: seq<Finding>, o: Options, name: string)
    ensures Count(rs, o, name) == |ShownAt(rs, o, name)|
  {
    if rs == [] {
      assert ShownAt(rs, o, name) == {};
    } else {
      var init, r := rs[..|rs| - 1], rs[|rs| - 1];
      CountIsPlaces(init, o, name);
      ShownIff(r, o, name);
      PlacesOneMore(init, r, o, name);
      assert rs == init + [r];
    }
  }

  /** Finding i is the first of its row. */
  predicate IsFirst(rs: seq<Finding>, o: Options, name: string, i: nat) {
    i < |rs| && Shown(rs[i], o, name) && forall j: nat | j < i :: !Shown(rs[j], o, name)
  }

  lemma {:induction false} FirstSeverityIsFirst(rs: seq<Finding>, o: Options, name: string) returns (i: nat)
    requires Count(rs, o, name) > 0
    ensures IsFirst(rs, o, name, i) && FirstSeverity(rs, o, name) == rs[i].severity
  {
    var init, n := rs[..|rs| - 1], |rs| - 1;
    ShownIff(rs[n], o, name);
    if Count(init, o, name) > 0 {
      i := FirstSeverityIsFirst(init, o, name);
      assert forall j: nat | j < n :: init[j] == rs[j];
    } else {
      i := n;
      CountIsPlaces(init, o, name);
      forall j: nat | j < n ensures !Shown(rs[j], o, name) {
        assert j !in ShownAt(init, o, name) && init[j] == rs[j];
      }
    }
  }

  /** What a row says: how many findings of its name there are, and the severity of the first of them. */
  lemma RowsMean(rs: seq<Finding>, o: Options, name: string)
    ensures GroupOf(rs, o, name).count == |ShownAt(rs, o, name)|
    ensures GroupOf(rs, o, name).count > 0 ==>
              exists i: nat :: IsFirst(rs, o, name, i) && GroupOf(rs, o, name).severity == rs[i].severity
  {
    CountIsPlaces(rs, o, name);
    if Count(rs, o, name) > 0 {
      var i := FirstSeverityIsFirst(rs, o, name);
    }
  }

  lemma TableDescends(out: seq<Group>, rs: seq<Finding>, o: Options)
    requires IsTable(out, rs, o)
    ensures Descending(out)
  {
    forall i, j | 0 <= i < j < |out| && out[i].count == out[j].count
      ensures Alphabetic(out[i].name, out[j].name)
    {
      LessIsAlphabetic(out[i].name, out[j].name);
    }
  }

  method GroupNotExploitable(newRes: seq<Finding>, o: Options) returns (out: seq<Group>)
    ensures IsTable(out, newRes, o) && Descending(out)
  {
    var counts := Tally(newRes, o);
    var rows := Rows(counts);
    out := Sort(rows);
    SortedRowsAreStrict(rows, out);
    TableDescends(out, newRes, o);
  }

  /** The table is a function of the findings and the options: no order of the map and no choice of the
      sort can change it. */
  lemma TableIsUnique(a: seq<Group>, b: seq<Group>, rs: seq<Finding>, o: Options)
    requires IsTable(a, rs, o) && IsTable(b, rs, o)
    ensures a == b
  {
    SameRowsSameTable(a, b);
  }

  ghost predicate Strict(out: seq<Group>) {
    forall i, j | 0 <= i < j < |out| :: Precedes(out[i], out[j])
  }

  lemma {:induction false} SameRowsSameTable(a: seq<Group>, b: seq<Group>)
    requires Strict(a) && Strict(b) && forall g :: g in a <==> g in b
    ensures a == b
    decreases |a|
  {
    EmptyTogether(a, b);
    if a != [] {
      HeadsAgree(a, b);
      assert forall g :: g in a[1..] <==> g in b[1..] by {
        HeadIsElsewhere(a);
        HeadIsElsewhere(b);
      }
      SameRowsSameTable(a[1..], b[1..]);
      assert a == [a[0]] + a[1..] && b == [b[0]] + b[1..];
    }
  }

  lemma EmptyTogether(a: seq<Group>, b: seq<Group>)
    requires forall g :: g in a <==> g in b
    ensures a == [] <==> b == []
  {
    assert a != [] ==> a[0] in a;
    assert b != [] ==> b[0] in b;
  }

  lemma HeadsAgree(a: seq<Group>, b: seq<Group>)
    requires Strict(a) && Strict(b) && a != [] && forall g :: g in a <==> g in b
    ensures b != [] && a[0] == b[0]
  {
    assert a[0] in b;
    assert b[0] in a;
    var i :| 0 <= i < |b| && b[i] == a[0];
    var j :| 0 <= j < |a| && a[j] == b[0];
    LessIsTotal(a[0].name, b[0].name);
  }

  lemma HeadIsElsewhere(a: seq<Group>)
    requires Strict(a) && a != []
    ensures forall g :: g in a[1..] <==> g in a && g != a[0]
  {
    LessIsIrreflexive(a[0].name);
    assert a == [a[0]] + a[1..];
    forall g | g in a[1..] ensures g != a[0] {
      var k :| 0 <= k < |a[1..]| && a[1..][k] == g;
      assert Precedes(a[0], a[k + 1]);
    }
  }

  /** The names and counts of a table. */
  function Outline(out: seq<Group>): seq<(string, nat)> {
    seq(|out|, i requires 0 <= i < |out| => (out[i].name, out[i].count))
  }

  lemma {:induction false} CountsArePermutable(rs: seq<Finding>, rs': seq<Finding>, o: Options, name: string)
    requires multiset(rs) == multiset(rs')
    ensures Count(rs, o, name) == Count(rs', o, name)
    decreases |rs|
  {
    assert |rs| == |multiset(rs)| == |multiset(rs')| == |rs'|;
    if rs != [] {
      var init, r := rs[..|rs| - 1], rs[|rs| - 1];
      assert rs == init + [r];
      assert r in multiset(rs');
      var k :| 0 <= k < |rs'| && rs'[k] == r;
      var left, right := rs'[..k], rs'[k + 1..];
      assert rs' == left + [r] + right;
      SameRest(init, left, right, r);
      CountsArePermutable(init, left + right, o, name);
      CountSplits(left, right, o, name);
      CountSplits(left + [r], right, o, name);
      assert (left + [r])[..k] == left;
    }
  }

  lemma SameRest<T>(init: seq<T>, left: seq<T>, right: seq<T>, r: T)
    requires multiset(init + [r]) == multiset(left + [r] + right)
    ensures multiset(init) == multiset(left + right)
  {
    assert multiset(init + [r]) == multiset(init) + multiset{r};
    assert multiset(left + [r] + right) == multiset(left + right) + multiset{r};
    assert multiset(init) == multiset(init) + multiset{r} - multiset{r};
    assert multiset(left + right) == multiset(left + right) + multiset{r} - multiset{r};
  }

  lemma {:induction false} CountSplits(a: seq<Finding>, b: seq<Finding>, o: Options, name: string)
    ensures Count(a + b, o, name) == Count(a, o, name) + Count(b, o, name)
  {
    if b == [] {
      assert a + b == a;
    } else {
      CountSplits(a, b[..|b| - 1], o, name);
      assert (a + b)[..|a + b| - 1] == a + b[..|b| - 1];
    }
  }

  /** Permuting the findings changes neither the names nor the counts nor their order. */
  lemma OutlineIsPermutable(a: seq<Group>, b: seq<Group>, rs: seq<Finding>, rs': seq<Finding>, o: Options)
    requires multiset(rs) == multiset(rs') && IsTable(a, rs, o) && IsTable(b, rs', o)
    ensures Outline(a) == Outline(b)
  {
    var a' := Blank(a);
    var b' := Blank(b);
    forall g ensures g in a' <==> g in b' {
      BlankRows(a, rs, o, g);
      BlankRows(b, rs', o, g);
      CountsArePermutable(rs, rs', o, g.name);
    }
    SameRowsSameTable(a', b');
    assert |a| == |a'| == |b'| == |b|;
    forall i | 0 <= i < |a| ensures Outline(a)[i] == Outline(b)[i] {
      assert a'[i] == b'[i];
    }
  }

  /** The table without its severities. */
  function Blank(out: seq<Group>): seq<Group> {
    seq(|out|, i requires 0 <= i < |out| => out[i].(severity := ""))
  }

  lemma BlankRows(out: seq<Group>, rs: seq<Finding>, o: Options, g: Group)
    requires IsTable(out, rs, o)
    ensures g in Blank(out) <==> g.severity == "" && g.count > 0 && g.count == Count(rs, o, g.name)
  {
    var full := GroupOf(rs, o, g.name);
    if g.severity == "" && g.count > 0 && g.count == Count(rs, o, g.name) {
      assert full in out;
      var i :| 0 <= i < |out| && out[i] == full;
      assert Blank(out)[i] == g;
    }
    if g in Blank(out) {
      var i :| 0 <= i < |out| && Blank(out)[i] == g;
      assert out[i] in out;
    }
  }

  /** The counts in a table. */
  function SumCounts(out: seq<Group>): nat {
    if out == [] then 0 else SumCounts(out[..|out| - 1]) + out[|out| - 1].count
  }

  /** The number of suppressed findings whose name is listed. */
  function Listed(rs: seq<Finding>, o: Options, names: seq<string>): nat {
    if rs == [] then 0
    else
      var r := rs[|rs| - 1];
      Listed(rs[..|rs| - 1], o, names) + if Suppressed(r, o) && NameOf(r) in names then 1 else 0
  }

  lemma {:induction false} ListedOneMore(rs: seq<Finding>, o: Options, names: seq<string>, name: string)
    requires name !in names
    ensures Listed(rs, o, names + [name]) == Listed(rs, o, names) + Count(rs, o, name)
  {
    if rs != [] {
      ListedOneMore(rs[..|rs| - 1], o, names, name);
    }
  }

  lemma {:induction false} ListedNone(rs: seq<Finding>, o: Options)
    ensures Listed(rs, o, []) == 0
  {
    if rs != [] {
      ListedNone(rs[..|rs| - 1], o);
    }
  }

  function Names(out: seq<Group>): seq<string> {
    seq(|out|, i requires 0 <= i < |out| => out[i].name)
  }

  lemma {:induction false} PrefixSum(out: seq<Group>, rs: seq<Finding>, o: Options)
    requires forall i | 0 <= i < |out| :: out[i].count == Count(rs, o, out[i].name)
    requires forall i, j | 0 <= i < j < |out| :: out[i].name != out[j].name
    ensures SumCounts(out) == Listed(rs, o, Names(out))
  {
    if out == [] {
      ListedNone(rs, o);
    } else {
      var init, g := out[..|out| - 1], out[|out| - 1];
      PrefixSum(init, rs, o);
      assert Names(out) == Names(init) + [g.name];
      ListedOneMore(rs, o, Names(init), g.name);
    }
  }

  lemma {:induction false} EverySuppressedIsListed(rs: seq<Finding>, o: Options, names: seq<string>)
    requires forall r | r in rs && Suppressed(r, o) :: NameOf(r) in names
    ensures Listed(rs, o, names) == AllSuppressed(rs, o)
  {
    if rs != [] {
      assert rs[|rs| - 1] in rs;
      EverySuppressedIsListed(rs[..|rs| - 1], o, names);
    }
  }

  lemma {:induction false} SuppressedCounts(rs: seq<Finding>, o: Options, r: Finding)
    requires r in rs && Suppressed(r, o)
    ensures Count(rs, o, NameOf(r)) > 0
  {
    if rs[|rs| - 1] != r {
      SuppressedCounts(rs[..|rs| - 1], o, r);
    }
  }

  /** Conservation: the counts add up to the suppressed findings that pass the filters. */
  lemma CountsAddUp(out: seq<Group>, rs: seq<Finding>, o: Options)
    requires IsTable(out, rs, o)
    ensures SumCounts(out) == AllSuppressed(rs, o)
  {
    assert forall i | 0 <= i < |out| :: out[i] in out;
    PrefixSum(out, rs, o);
    forall r | r in rs && Suppressed(r, o) ensures NameOf(r) in Names(out) {
      SuppressedCounts(rs, o, r);
      var g := GroupOf(rs, o, NameOf(r));
      assert g in out;
      var i :| 0 <= i < |out| && out[i] == g;
      assert Names(out)[i] == NameOf(r);
    }
    EverySuppressedIsListed(rs, o, Names(out));
  }
}
