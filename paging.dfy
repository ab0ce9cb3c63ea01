/**
  Page arithmetic shared by the list handlers: `Math.ceil(total / limit)` as it reaches the JSON
  response, JavaScript's `Array.prototype.slice`, and MongoDB's `skip`/`limit` cursor window.
*/
module Paging {
  import opened Wrappers

  /** `Math.ceil(total / limit)` for a positive limit: the least number of pages of `limit` items
      that hold `total` items. */
  function CeilDiv(total: nat, limit: nat): (q: nat)
    requires limit > 0
    ensures total <= q * limit
    ensures q == 0 || (q - 1) * limit < total
  {
    var d := total / limit;
    var m := total % limit;
    assert total == d * limit + m;
    if m == 0 then d
    else
      assert (d + 1) * limit == d * limit + limit;
      d + 1
  }

  /** The `pages` field of a list response: `Math.ceil(total / limit)` after `JSON.stringify`. A zero
      limit gives `Infinity` or `NaN`, both serialised as `null`, here `None`. */
  function Pages(total: nat, limit: int): (r: Option<int>)
    ensures limit > 0 ==> r == Some(CeilDiv(total, limit))
    ensures r.None? <==> limit == 0
    ensures limit < 0 ==> r.Some? && r.value <= 0
  {
    if limit > 0 then Some(CeilDiv(total, limit))
    else if limit == 0 then None
    else Some(-(total / (-limit)))
  }

  /** JavaScript's reading of a `slice` bound: a negative index counts from the end, and the
      result is clamped to `[0, len]`. */
  function SliceIndex(i: int, len: nat): (r: nat)
    ensures r <= len
    ensures 0 <= i <= len ==> r == i
    ensures i > len ==> r == len
    ensures i < 0 ==> r == if len + i < 0 then 0 else len + i
  {
    if i < 0 then (if len + i < 0 then 0 else len + i)
    else if i > len then len
    else i
  }

  /** `s.slice(start, end)` */
  function JsSlice<T>(s: seq<T>, start: int, end: int): seq<T> {
    var a := SliceIndex(start, |s|);
    var b := SliceIndex(end, |s|);
    if a < b then s[a..b] else []
  }

  /** MongoDB's `cursor.skip(skip).limit(limit)`: a negative skip is an error (HTTP 500 in every
      handler), a zero limit means no limit, and a negative limit is read as its absolute value. */
  function Window<T>(s: seq<T>, skip: int, limit: int): (r: Result<seq<T>>)
    ensures r.Err? <==> skip < 0
    ensures r.Err? ==> r.status == 500
  {
    if skip < 0 then Err(500)
    else
      var rest := if skip < |s| then s[skip..] else [];
      var n := if limit < 0 then -limit else limit;
      Ok(if limit == 0 || n >= |rest| then rest else rest[..n])
  }

  /** Page `page` of `limit` items holds the items at positions `[(page-1)*limit, page*limit)` that
      exist, and never more than `limit` of them. */
  lemma SliceIsPage<T>(s: seq<T>, page: int, limit: int)
    requires page >= 1 && limit >= 1
    ensures var lo := (page - 1) * limit;
            var r := JsSlice(s, lo, lo + limit);
            |r| <= limit
            && (lo >= |s| ==> r == [])
            && (lo < |s| ==> r == s[lo..if lo + limit < |s| then lo + limit else |s|])
  {
    assert (page - 1) * limit >= 0;
  }

  /** Every item is on exactly the page that position arithmetic predicts, and that page is within
      the advertised page count. */
  lemma {:induction false} ItemOnItsPage<T>(s: seq<T>, limit: int, k: int)
    requires limit >= 1 && 0 <= k < |s|
    ensures var page := k / limit + 1;
            var lo := (page - 1) * limit;
            page <= CeilDiv(|s|, limit)
            && k - lo == k % limit
            && JsSlice(s, lo, lo + limit)[k % limit] == s[k]
  {
    var page := k / limit + 1;
    var lo := (page - 1) * limit;
    assert lo == (k / limit) * limit;
    assert k == lo + k % limit;
    var q := CeilDiv(|s|, limit);
    MulMono(q, page - 1, limit);
    SliceIsPage(s, page, limit);
  }

  lemma MulMono(a: int, b: int, c: nat)
    ensures a <= b ==> a * c <= b * c
  {
  }

  /** A MongoDB window from a non-negative offset is the JavaScript slice of the same span. */
  lemma WindowAt<T>(s: seq<T>, lo: int, limit: int)
    requires lo >= 0 && limit >= 1
    ensures Window(s, lo, limit) == Ok(JsSlice(s, lo, lo + limit))
  {
    if lo < |s| {
      var rest := s[lo..];
      if limit < |rest| {
        assert rest[..limit] == s[lo..lo + limit];
      } else {
        assert rest == s[lo..|s|];
      }
    }
  }

  /** Both pagination styles agree: MongoDB's `skip((page-1)*limit).limit(limit)` returns the same
      items as JavaScript's `slice((page-1)*limit, page*limit)` for every page and positive limit. */
  lemma WindowIsSlice<T>(s: seq<T>, page: int, limit: int)
    requires page >= 1 && limit >= 1
    ensures Window(s, (page - 1) * limit, limit) == Ok(JsSlice(s, (page - 1) * limit, page * limit))
  {
    var lo := (page - 1) * limit;
    MulMono(0, page - 1, limit);
    assert page * limit == lo + limit;
    WindowAt(s, lo, limit);
  }

  /** A window only holds elements of the list it was cut from. */
  lemma WindowWithin<T>(s: seq<T>, skip: int, limit: int)
    requires Window(s, skip, limit).Ok?
    ensures forall i :: 0 <= i < |Window(s, skip, limit).value| ==>
              Window(s, skip, limit).value[i] in s
  {
    var rest := if skip < |s| then s[skip..] else [];
    forall i | 0 <= i < |rest| ensures rest[i] in s {
      assert rest[i] == s[skip + i];
    }
  }
}
