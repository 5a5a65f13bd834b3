/** The template collection: the search filter, lookup by id and the
    normalisation of a template's download statistics. */
module SuratList {
  import opened Common

  /** A document template ("format surat") as listed by the store. */
  datatype FormatSurat = FormatSurat(id: string, nama: string, downloadUrl: string, totalDownloads: nat)

  /** One point of a template's monthly download series. */
  datatype DownloadStats = DownloadStats(month: string, year: int, downloadCount: int)

  /** The search predicate: the lower-cased name contains the lower-cased query. */
  predicate Matches(f: FormatSurat, query: string)
  {
    Contains(Lower(f.nama), Lower(query))
  }

  /** `formatSurat.filter(...)`: the templates matching the query, in list order. */
  function Filter(xs: seq<FormatSurat>, query: string): (r: seq<FormatSurat>)
    ensures |r| <= |xs|
    ensures forall x :: x in r ==> x in xs && Matches(x, query)
    ensures forall x :: x in xs && Matches(x, query) ==> x in r
  {
    if xs == [] then []
    else (if Matches(xs[0], query) then [xs[0]] else []) + Filter(xs[1..], query)
  }

  /** `a` is `b` with some elements removed, the rest kept in order. */
  ghost predicate SubsequenceOf<T>(a: seq<T>, b: seq<T>)
    decreases |b|
  {
    a == [] || (b != [] && ((a[0] == b[0] && SubsequenceOf(a[1..], b[1..])) || SubsequenceOf(a, b[1..])))
  }

  /** The filtered view is an order-preserving subsequence of the list. */
  lemma {:induction false} FilterIsSubsequence(xs: seq<FormatSurat>, query: string)
    ensures SubsequenceOf(Filter(xs, query), xs)
  {
    if xs != [] {
      FilterIsSubsequence(xs[1..], query);
      var r := Filter(xs, query);
      if Matches(xs[0], query) {
        assert r[0] == xs[0] && r[1..] == Filter(xs[1..], query);
      } else {
        assert r == Filter(xs[1..], query);
      }
    }
  }

  /** Nothing that matches is dropped, duplicates included, and nothing that
      does not match is kept. */
  lemma {:induction false} FilterCounts(xs: seq<FormatSurat>, query: string, x: FormatSurat)
    ensures multiset(Filter(xs, query))[x] == if Matches(x, query) then multiset(xs)[x] else 0
  {
    if xs != [] {
      FilterCounts(xs[1..], query, x);
      assert xs == [xs[0]] + xs[1..];
    }
  }

  /** An empty query keeps the whole list. */
  lemma {:induction false} FilterEmptyQuery(xs: seq<FormatSurat>)
    ensures Filter(xs, "") == xs
  {
    if xs != [] {
      ContainsEmpty(Lower(xs[0].nama));
      assert Lower("") == "";
      FilterEmptyQuery(xs[1..]);
    }
  }

  /** Filtering the filtered view again changes nothing. */
  lemma {:induction false} FilterIdempotent(xs: seq<FormatSurat>, query: string)
    ensures Filter(Filter(xs, query), query) == Filter(xs, query)
  {
    if xs != [] {
      FilterIdempotent(xs[1..], query);
      var rest := Filter(xs[1..], query);
      if Matches(xs[0], query) {
        var r := [xs[0]] + rest;
        assert r[0] == xs[0] && r[1..] == rest;
        assert Filter(r, query) == [xs[0]] + Filter(rest, query);
      } else {
        assert Filter(xs, query) == rest;
      }
    }
  }

  /** `xs.find(f => f.id === id)`: the first template with that id. */
  function FindById(xs: seq<FormatSurat>, id: string): (r: Option<FormatSurat>)
    ensures r.None? <==> forall k :: 0 <= k < |xs| ==> xs[k].id != id
    ensures r.Some? ==> exists k :: 0 <= k < |xs| && xs[k] == r.value && r.value.id == id &&
                                    forall j :: 0 <= j < k ==> xs[j].id != id
  {
    if xs == [] then None
    else if xs[0].id == id then Some(xs[0])
    else
      var r := FindById(xs[1..], id);
      assert forall k :: 1 <= k < |xs| ==> xs[k] == xs[1..][k - 1];
      r
  }

  /** `selectedFormat?.totalDownloads || 0`. */
  function TotalDownloadsOf(xs: seq<FormatSurat>, id: string): nat
  {
    match FindById(xs, id)
    case Some(f) => f.totalDownloads
    case None => 0
  }

  /** The series shown for a template: the store's series when it has points,
      otherwise one synthetic point for the given month and year holding the
      template's current total. */
  function NormalizeStats(result: Option<seq<DownloadStats>>, xs: seq<FormatSurat>, id: string,
                          month: string, year: int): (r: seq<DownloadStats>)
    ensures r != []
    ensures (result.None? || result.value == []) ==> |r| == 1 && r[0].month == month && r[0].year == year
    ensures result.Some? && result.value != [] ==> r == result.value
  {
    if result.None? || result.value == [] then
      [DownloadStats(month, year, TotalDownloadsOf(xs, id))]
    else
      result.value
  }

  /** The synthetic point's count is the total of the first template with
      that id, or 0 when the list has none. */
  lemma SyntheticPointCount(xs: seq<FormatSurat>, id: string, month: string, year: int, k: nat)
    requires k < |xs| && xs[k].id == id
    requires forall j :: 0 <= j < k ==> xs[j].id != id
    ensures NormalizeStats(None, xs, id, month, year) == [DownloadStats(month, year, xs[k].totalDownloads)]
    ensures NormalizeStats(Some([]), xs, id, month, year) == NormalizeStats(None, xs, id, month, year)
  {
  }

  /** With no template of that id loaded, the synthetic point counts 0. */
  lemma SyntheticPointUnknownId(xs: seq<FormatSurat>, id: string, month: string, year: int)
    requires forall f :: f in xs ==> f.id != id
    ensures NormalizeStats(None, xs, id, month, year) == [DownloadStats(month, year, 0)]
    ensures NormalizeStats(Some([]), xs, id, month, year) == [DownloadStats(month, year, 0)]
  {
  }

  /** A template with 7 downloads and no history yet, in March 2024. */
  lemma EmptyHistoryScenario()
    ensures NormalizeStats(Some([]), [FormatSurat("t1", "Surat Domisili", "u", 7)], "t1", "March", 2024)
            == [DownloadStats("March", 2024, 7)]
  {
  }
}
