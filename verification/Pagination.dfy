/** Offset and cursor pagination of a list. */
module Pagination {
  import opened Prelude

  datatype Page<T> = Page(
    items: seq<T>, total: nat, page: nat, limit: nat, totalPages: nat, hasMore: bool, nextCursor: Option<nat>)

  datatype Fault = ArithmeticOverflow

  /** u32 arithmetic that stops at the top instead of wrapping. */
  function SaturatingSub(a: nat, b: nat): nat { if a > b then a - b else 0 }

  function SaturatingMul(a: nat, b: nat): nat { if a * b > U32_MAX then U32_MAX else a * b }

  /** `as u32`. */
  function Low32(n: nat): nat { n % (U32_MAX + 1) }

  function Ceiling(total: nat, limit: nat): nat
    requires limit > 0
  {
    (total + limit - 1) / limit
  }

  /** The response constructor computes `total + limit - 1` in u32, from the left: the sum aborts unless it fits. */
  function TotalPages(total: nat, limit: nat): Result<nat, Fault> {
    if limit == 0 then Ok(0)
    else if total + limit > U32_MAX then Err(ArithmeticOverflow)
    else Ok(Ceiling(total, limit))
  }

  function FromOffset<T>(items: seq<T>, offset: nat, page: nat, limit: nat): Result<Page<T>, Fault> {
    var end := if offset + limit < |items| then offset + limit else |items|;
    var shown := if offset < |items| && limit > 0 then items[offset..end] else [];
    var totalPages :- TotalPages(Low32(|items|), limit);
    var more := limit > 0 && end < |items|;
    Ok(Page(shown, Low32(|items|), page, limit, totalPages, more, if more then Some(end) else None))
  }

  function Paginate<T>(items: seq<T>, page: nat, limit: nat): Result<Page<T>, Fault> {
    FromOffset(items, SaturatingMul(SaturatingSub(page, 1), limit), page, limit)
  }

  function FromCursor<T>(items: seq<T>, cursor: Option<nat>, limit: nat): Result<Page<T>, Fault> {
    var offset := if cursor.Some? then cursor.value else 0;
    if limit == 0 then FromOffset(items, offset, 1, limit)
    else if offset / limit + 1 > U32_MAX then Err(ArithmeticOverflow)
    else FromOffset(items, offset, offset / limit + 1, limit)
  }

  /** Requests that follow `nextCursor` until there is none: the pages shown, in order. */
  function Walk<T>(items: seq<T>, cursor: Option<nat>, limit: nat): Result<seq<Page<T>>, Fault>
    requires limit > 0
    decreases SaturatingSub(|items|, if cursor.Some? then cursor.value else 0)
  {
    var page :- FromCursor(items, cursor, limit);
    if page.nextCursor.Some? then
      CursorAdvances(items, cursor, limit);
      var rest :- Walk(items, page.nextCursor, limit);
      Ok([page] + rest)
    else Ok([page])
  }

  lemma CursorAdvances<T>(items: seq<T>, cursor: Option<nat>, limit: nat)
    requires limit > 0 && FromCursor(items, cursor, limit).Ok?
    requires FromCursor(items, cursor, limit).value.nextCursor.Some?
    ensures var offset := if cursor.Some? then cursor.value else 0;
      offset < FromCursor(items, cursor, limit).value.nextCursor.value < |items|
  {}

  function Shown<T>(pages: seq<Page<T>>): seq<T> {
    if pages == [] then [] else pages[0].items + Shown(pages[1..])
  }

  // ---------- what the walk shows ----------

  /** A numbered request is answered if and only if total plus limit fits 32 bits; the page does not matter. */
  lemma AnsweredIff<T>(items: seq<T>, page: nat, limit: nat)
    requires |items| <= U32_MAX
    ensures Paginate(items, page, limit).Ok? <==> limit == 0 || |items| + limit <= U32_MAX
  {}

  /** A cursor request is answered if and only if, besides, it is not the last cursor with pages of one item: there
      the page number does not fit. */
  lemma CursorAnsweredIff<T>(items: seq<T>, cursor: nat, limit: nat)
    requires |items| <= U32_MAX && cursor <= U32_MAX
    ensures FromCursor(items, Some(cursor), limit).Ok?
            <==> limit == 0 || (|items| + limit <= U32_MAX && !(cursor == U32_MAX && limit == 1))
  {
    if limit > 0 { PageNumberFitsIff(cursor, limit); }
  }

  lemma PageNumberFitsIff(offset: nat, limit: nat)
    requires limit > 0 && offset <= U32_MAX
    ensures offset / limit + 1 <= U32_MAX <==> !(offset == U32_MAX && limit == 1)
  {
    if limit == 1 {
      QuotientIs(offset, 1, offset);
    } else {
      assert 2 * (offset / limit) <= offset by { MultiplyKeepsOrder(2, limit, offset / limit); }
    }
  }

  lemma {:induction false} WalkFrom<T>(items: seq<T>, offset: nat, limit: nat)
    requires limit > 0 && |items| + limit <= U32_MAX && (offset == 0 || offset < |items|)
    ensures Walk(items, Some(offset), limit).Ok?
    ensures Shown(Walk(items, Some(offset), limit).value) == items[offset..]
    decreases SaturatingSub(|items|, offset)
  {
    PageNumberFitsIff(offset, limit);
    var page := FromCursor(items, Some(offset), limit).value;
    if page.nextCursor.Some? {
      WalkFrom(items, offset + limit, limit);
      var rest := Walk(items, Some(offset + limit), limit).value;
      assert ([page] + rest)[1..] == rest;
      assert items[offset..] == items[offset..offset + limit] + items[offset + limit..];
    } else {
      assert Shown([page]) == page.items + Shown([page][1..]);
    }
  }

  /** Without a cursor or from zero, the walk is the same. */
  lemma WalkFromNothing<T>(items: seq<T>, limit: nat)
    requires limit > 0
    ensures Walk(items, None, limit) == Walk(items, Some(0), limit)
  {
    assert FromCursor(items, None, limit) == FromCursor(items, Some(0), limit);
  }

  /** For any list shorter than 2^32 and any positive limit: following the cursor from nothing ends, without a
      fault, if and only if total plus limit fits 32 bits, and then the pages make up the list. */
  lemma WalkShowsAll<T>(items: seq<T>, limit: nat)
    requires limit > 0 && |items| <= U32_MAX
    ensures Walk(items, None, limit).Ok? <==> |items| + limit <= U32_MAX
    ensures Walk(items, None, limit).Ok? ==> Shown(Walk(items, None, limit).value) == items
  {
    WalkFromNothing(items, limit);
    CursorAnsweredIff(items, 0, limit);
    if |items| + limit <= U32_MAX {
      WalkFrom(items, 0, limit);
      assert items[0..] == items;
    }
  }

  /** The smallest failing cases: one item with the largest limit, and the last cursor with pages of one item. */
  lemma LargestRequestsFail()
    ensures Walk([true], None, U32_MAX) == Err(ArithmeticOverflow)
    ensures FromCursor([true], Some(U32_MAX), 1) == Err(ArithmeticOverflow)
  {
    CursorAnsweredIff([true], 0, U32_MAX);
    CursorAnsweredIff([true], U32_MAX, 1);
  }

  // ---------- pages by number and pages by cursor ----------

  /** Saturation never changes an answer: where the product saturates, both offsets are past the end. */
  lemma SaturationIsHarmless<T>(items: seq<T>, page: nat, limit: nat)
    requires page > 0 && |items| <= U32_MAX
    ensures Paginate(items, page, limit) == FromOffset(items, (page - 1) * limit, page, limit)
  {}

  /** The page at cursor `(k - 1) * limit` is page `k`, down to its number. */
  lemma CursorPageIsNumberedPage<T>(items: seq<T>, k: nat, limit: nat)
    requires 0 < k <= U32_MAX && limit > 0 && |items| <= U32_MAX
    ensures FromCursor(items, Some((k - 1) * limit), limit) == Paginate(items, k, limit)
  {
    SaturationIsHarmless(items, k, limit);
    MultipleDivides(k - 1, limit);
  }

  lemma {:induction false} MultiplyKeepsOrder(a: nat, b: nat, d: nat)
    requires a <= b
    ensures a * d <= b * d
  {
    assert b * d == a * d + (b - a) * d;
  }

  lemma QuotientIs(n: nat, d: nat, q: nat)
    requires d > 0 && q * d <= n < q * d + d
    ensures n / d == q
  {
    var p := n / d;
    assert p * d <= n < p * d + d;
    assert (p + 1) * d == p * d + d && (q + 1) * d == q * d + d;
    if p < q { MultiplyKeepsOrder(p + 1, q, d); }
    if q < p { MultiplyKeepsOrder(q + 1, p, d); }
  }

  lemma MultipleDivides(k: nat, limit: nat)
    requires limit > 0
    ensures k * limit / limit == k
  {
    QuotientIs(k * limit, limit, k);
  }

  function Stride(offset: nat, i: nat, limit: nat): nat
    decreases i
  {
    if i == 0 then offset else Stride(offset + limit, i - 1, limit)
  }

  lemma {:induction false} StrideIs(offset: nat, i: nat, limit: nat)
    ensures Stride(offset, i, limit) == offset + i * limit
    decreases i
  {
    if i > 0 {
      StrideIs(offset + limit, i - 1, limit);
      assert i * limit == limit + (i - 1) * limit;
    }
  }

  /** Each page is the cursor page one limit further on than the page before. */
  ghost predicate Strided<T>(pages: seq<Page<T>>, items: seq<T>, offset: nat, limit: nat) {
    pages == []
    || (FromCursor(items, Some(offset), limit) == Ok(pages[0]) && Strided(pages[1..], items, offset + limit, limit))
  }

  lemma {:induction false} WalkIsStrided<T>(items: seq<T>, offset: nat, limit: nat)
    requires limit > 0 && Walk(items, Some(offset), limit).Ok?
    ensures Strided(Walk(items, Some(offset), limit).value, items, offset, limit)
    decreases SaturatingSub(|items|, offset)
  {
    var page := FromCursor(items, Some(offset), limit).value;
    if page.nextCursor.Some? {
      WalkIsStrided(items, offset + limit, limit);
      var rest := Walk(items, Some(offset + limit), limit).value;
      assert ([page] + rest)[1..] == rest;
    } else {
      assert [page][1..] == [];
    }
  }

  lemma {:induction false} StridedAt<T>(pages: seq<Page<T>>, items: seq<T>, offset: nat, limit: nat, i: nat)
    requires Strided(pages, items, offset, limit) && i < |pages|
    ensures FromCursor(items, Some(Stride(offset, i, limit)), limit) == Ok(pages[i])
    decreases i
  {
    if i > 0 { StridedAt(pages[1..], items, offset + limit, limit, i - 1); }
  }

  /** A walk has no more pages than items left, but at least one. */
  lemma {:induction false} WalkIsShort<T>(items: seq<T>, offset: nat, limit: nat)
    requires limit > 0 && Walk(items, Some(offset), limit).Ok?
    ensures |Walk(items, Some(offset), limit).value| <= if offset < |items| then |items| - offset else 1
    decreases SaturatingSub(|items|, offset)
  {
    if offset + limit < |items| { WalkIsShort(items, offset + limit, limit); }
  }

  /** The i-th page of the walk is the page `paginate` gives for number i, counting from one. */
  lemma WalkMatchesNumbers<T>(items: seq<T>, limit: nat, i: nat)
    requires limit > 0 && Walk(items, None, limit).Ok? && |items| <= U32_MAX && i < |Walk(items, None, limit).value|
    ensures Paginate(items, i + 1, limit) == Ok(Walk(items, None, limit).value[i])
  {
    WalkFromNothing(items, limit);
    WalkIsStrided(items, 0, limit);
    WalkIsShort(items, 0, limit);
    StridedPage(Walk(items, Some(0), limit).value, items, limit, i);
  }

  lemma StridedPage<T>(pages: seq<Page<T>>, items: seq<T>, limit: nat, i: nat)
    requires limit > 0 && |items| <= U32_MAX && Strided(pages, items, 0, limit) && i < |pages|
    requires |pages| <= U32_MAX
    ensures Paginate(items, i + 1, limit) == Ok(pages[i])
  {
    StridedAt(pages, items, 0, limit, i);
    StrideIs(0, i, limit);
    CursorPageIsNumberedPage(items, i + 1, limit);
  }

  /** How many steps of `limit` it takes to cover `left` items. */
  function Steps(left: nat, limit: nat): nat
    requires limit > 0
  {
    if left <= limit then 1 else 1 + Steps(left - limit, limit)
  }

  lemma {:induction false} StepsAreCeiling(left: nat, limit: nat)
    requires limit > 0 && left > 0
    ensures Steps(left, limit) == Ceiling(left, limit)
  {
    if left <= limit {
      QuotientIs(left + limit - 1, limit, 1);
    } else {
      StepsAreCeiling(left - limit, limit);
      CeilingStep(left, limit);
    }
  }

  lemma {:induction false} WalkLength<T>(items: seq<T>, offset: nat, limit: nat)
    requires limit > 0 && offset < |items| && Walk(items, Some(offset), limit).Ok?
    ensures |Walk(items, Some(offset), limit).value| == Steps(|items| - offset, limit)
    decreases SaturatingSub(|items|, offset)
  {
    if offset + limit < |items| { WalkLength(items, offset + limit, limit); }
  }

  lemma CeilingStep(left: nat, limit: nat)
    requires 0 < limit < left
    ensures Ceiling(left, limit) == Ceiling(left - limit, limit) + 1
  {
    var q := Ceiling(left - limit, limit);
    assert q * limit <= left - 1 < q * limit + limit;
    assert (q + 1) * limit == q * limit + limit;
    QuotientIs(left + limit - 1, limit, q + 1);
  }

  /** The page count a response reports is the number of pages a walk has. */
  lemma PagesAreReported<T>(items: seq<T>, limit: nat)
    requires limit > 0 && 0 < |items| <= U32_MAX && Walk(items, None, limit).Ok?
    ensures Paginate(items, 1, limit).Ok?
    ensures Paginate(items, 1, limit).value.totalPages == |Walk(items, None, limit).value|
  {
    WalkShowsAll(items, limit);
    WalkFromNothing(items, limit);
    WalkLength(items, 0, limit);
    StepsAreCeiling(|items|, limit);
  }

  // ---------- one page ----------

  /** A page from an offset, field by field. */
  lemma PageIs<T>(items: seq<T>, offset: nat, page: nat, limit: nat)
    requires FromOffset(items, offset, page, limit).Ok?
    ensures var r := FromOffset(items, offset, page, limit).value;
      && r.total == |items| % 0x1_0000_0000 && r.page == page && r.limit == limit
      && |r.items| == (if offset >= |items| then 0 else if offset + limit < |items| then limit else |items| - offset)
      && (forall i :: 0 <= i < |r.items| ==> r.items[i] == items[offset + i])
      && (r.hasMore <==> limit > 0 && offset + limit < |items|)
      && (if r.hasMore then r.nextCursor == Some(offset + limit) else r.nextCursor == None)
      && (if limit == 0 then r.totalPages == 0
          else r.totalPages * limit >= r.total && (r.totalPages > 0 ==> (r.totalPages - 1) * limit < r.total))
  {
    if limit > 0 { CeilingIs(|items| % 0x1_0000_0000, limit); }
  }

  lemma CeilingIs(total: nat, limit: nat)
    requires limit > 0
    ensures Ceiling(total, limit) * limit >= total
    ensures Ceiling(total, limit) > 0 ==> (Ceiling(total, limit) - 1) * limit < total
  {
    var q := (total + limit - 1) / limit;
    assert q * limit + (total + limit - 1) % limit == total + limit - 1;
    assert (q - 1) * limit == q * limit - limit;
  }

  /** Page numbers count from one, and zero is read as one; without a cursor the first page is page one. */
  lemma PageStarts<T>(items: seq<T>, page: nat, limit: nat)
    requires (if page == 0 then 0 else (page - 1) * limit) <= U32_MAX
    ensures Paginate(items, page, limit) == FromOffset(items, if page == 0 then 0 else (page - 1) * limit, page, limit)
    ensures FromCursor(items, None, 0) == FromOffset(items, 0, 1, 0)
  {}
}
