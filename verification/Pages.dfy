/** What a paginated upstream is, independently of who walks it: the flat stream its pages make up, and
    the first page that ends it. */
module Pages {
  import opened Numbers

  /** The items of pages 0..k-1, where page i is fetched at offset init + i * stride. */
  function Flat<T>(page: (int, int) -> seq<T>, init: int, stride: int, size: int, k: nat): seq<T> {
    if k == 0 then [] else Flat(page, init, stride, size, k - 1) + page(init + (k - 1) * stride, size)
  }

  function Page<T>(page: (int, int) -> seq<T>, init: int, stride: int, size: int, i: nat): seq<T> {
    page(init + i * stride, size)
  }

  /** Page `last` is the first empty one. */
  ghost predicate EndsAt<T(!new)>(page: (int, int) -> seq<T>, init: int, stride: int, size: int, last: nat) {
    && Page(page, init, stride, size, last) == []
    && forall i: nat | i < last :: Page(page, init, stride, size, i) != []
  }

  /** Page `last` is the first one with fewer than `size` items. */
  ghost predicate FirstShort<T(!new)>(page: (int, int) -> seq<T>, init: int, stride: int, size: int, last: nat) {
    && |Page(page, init, stride, size, last)| < size
    && forall i: nat | i < last :: |Page(page, init, stride, size, i)| >= size
  }

  function Slice<T>(list: seq<T>, from: int, limit: int): seq<T> {
    if from < 0 || limit <= 0 || from >= |list| then []
    else if from + limit <= |list| then list[from..from + limit]
    else list[from..]
  }

  /** The pages are the list cut into pieces of `size`. */
  ghost predicate Serves<T(!new)>(page: (int, int) -> seq<T>, init: int, stride: int, size: int, list: seq<T>) {
    size > 0 && forall i: nat :: Page(page, init, stride, size, i) == Slice(list, i * size, size)
  }

  /** An upstream addressed by item offset, and one addressed by page number, both serve their list:
      the first from the initial offset on, the second from its first page number on. */
  lemma BothStylesServe<T(!new)>(list: seq<T>, init: nat, first: int, size: int)
    requires size > 0 && init <= |list|
    ensures Serves((off: int, limit: int) => Slice(list, off, limit), init, size, size, list[init..])
    ensures Serves((n: int, limit: int) => Slice(list, (n - first) * limit, limit), first, 1, size, list)
  {
    var byOffset := (off: int, limit: int) => Slice(list, off, limit);
    var byPage := (n: int, limit: int) => Slice(list, (n - first) * limit, limit);
    forall i: nat
      ensures Page(byOffset, init, size, size, i) == Slice(list[init..], i * size, size)
      ensures Page(byPage, first, 1, size, i) == Slice(list, i * size, size)
    {
      assert i * size >= 0;
    }
  }

  lemma {:induction false} FlatOfList<T(!new)>(
      page: (int, int) -> seq<T>, init: int, stride: int, size: int, list: seq<T>, k: nat)
    requires Serves(page, init, stride, size, list)
    ensures Flat(page, init, stride, size, k) == list[..if k * size <= |list| then k * size else |list|]
  {
    if k > 0 {
      FlatOfList(page, init, stride, size, list, k - 1);
      assert k * size == (k - 1) * size + size;
      assert Page(page, init, stride, size, k - 1) == Slice(list, (k - 1) * size, size);
    } else {
      assert k * size == 0;
    }
  }

  /** How long the pieces of a list are. */
  lemma PieceLength<T(!new)>(page: (int, int) -> seq<T>, init: int, stride: int, size: int, list: seq<T>, i: nat)
    requires Serves(page, init, stride, size, list)
    ensures Page(page, init, stride, size, i) == [] <==> |list| <= i * size
    ensures |Page(page, init, stride, size, i)| < size <==> |list| < (i + 1) * size
  {
    assert Page(page, init, stride, size, i) == Slice(list, i * size, size);
    assert (i + 1) * size == i * size + size;
    Scale(0, i, size);
  }

  /** A list of m items in pages of `size` ends at page ceil(m / size), and its first short page is
      page floor(m / size). */
  lemma EndOfList<T(!new)>(page: (int, int) -> seq<T>, init: int, stride: int, size: int, list: seq<T>)
    requires Serves(page, init, stride, size, list)
    ensures Ceil(|list|, size) >= 0 && EndsAt(page, init, stride, size, Ceil(|list|, size))
    ensures |list| / size >= 0 && FirstShort(page, init, stride, size, |list| / size)
    ensures Flat(page, init, stride, size, Ceil(|list|, size)) == list
    ensures Flat(page, init, stride, size, |list| / size + 1) == list
  {
    var e, s := Ceil(|list|, size), |list| / size;
    CeilBounds(|list|, size);
    FloorBounds(|list|, size);
    PieceLength(page, init, stride, size, list, e);
    PieceLength(page, init, stride, size, list, s);
    forall i: nat | i < e ensures Page(page, init, stride, size, i) != [] {
      PieceLength(page, init, stride, size, list, i);
      Scale(i, e - 1, size);
    }
    forall i: nat | i < s ensures |Page(page, init, stride, size, i)| >= size {
      PieceLength(page, init, stride, size, list, i);
      Scale(i + 1, s, size);
    }
    FlatOfList(page, init, stride, size, list, e);
    FlatOfList(page, init, stride, size, list, s + 1);
  }

  lemma {:induction false} FlatGrows<T(!new)>(
      page: (int, int) -> seq<T>, init: int, stride: int, size: int, i: nat, j: nat)
    requires i <= j
    ensures |Flat(page, init, stride, size, i)| <= |Flat(page, init, stride, size, j)|
    ensures |Flat(page, init, stride, size, i)| == |Flat(page, init, stride, size, j)| ==>
              forall k: nat | i <= k < j :: Page(page, init, stride, size, k) == []
  {
    if i < j {
      FlatGrows(page, init, stride, size, i, j - 1);
    }
  }

  /** Stopping at the first short page and stopping at the first empty page read the same stream
      exactly when nothing follows the first short page. */
  lemma StopRulesAgreeIff<T(!new)>(page: (int, int) -> seq<T>, init: int, stride: int, size: int, short: nat, last: nat)
    requires size > 0
    requires FirstShort(page, init, stride, size, short) && EndsAt(page, init, stride, size, last)
    ensures Flat(page, init, stride, size, short + 1) == Flat(page, init, stride, size, last)
            <==> Page(page, init, stride, size, short) == [] || Page(page, init, stride, size, short + 1) == []
  {
    assert short <= last;
    if last > short + 1 {
      FlatGrows(page, init, stride, size, short + 1, last);
      assert Page(page, init, stride, size, short + 1) != [];
    } else if last == short {
      assert Page(page, init, stride, size, short) == [];
    }
  }

  /** A short page in the middle: one item at offset 0, one at offset 100, nothing from 200 on. */
  function ShortInTheMiddle(off: int, limit: int): seq<int> {
    if off < 100 then [7] else if off < 200 then [8] else []
  }

  /** On it the first rule stops after one item and the second reads both. */
  lemma StopRulesDiffer()
    ensures FirstShort(ShortInTheMiddle, 0, 100, 100, 0) && EndsAt(ShortInTheMiddle, 0, 100, 100, 2)
    ensures Flat(ShortInTheMiddle, 0, 100, 100, 0 + 1) == [7]
    ensures Flat(ShortInTheMiddle, 0, 100, 100, 2) == [7, 8]
  {
    assert Flat(ShortInTheMiddle, 0, 100, 100, 1) == Flat(ShortInTheMiddle, 0, 100, 100, 0) + [7];
  }
}
