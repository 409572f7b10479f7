/**
 * The dynamic sitemap entries: one URL per tracked candidate with complete
 * metadata, read from the store the trending tracker writes. States are
 * visited in the order of the state table and, within a state, slugs in the
 * order of its index.
 */
module Sitemap {
  import opened Wrappers
  import opened Text
  import opened Trending
  import opened UfPreference

  datatype ChangeFreq = Monthly | Yearly

  /** `lastmod`: the last access, or 31 December of the election year when no access time is stored. */
  datatype LastMod = AccessedAt(ms: int) | YearEnd(ano: int)

  datatype SitemapUrl = SitemapUrl(loc: string, priority: real, changefreq: ChangeFreq, lastmod: LastMod)

  const RecentYear := 2022

  /** `storage.getItem<CandidatoMeta>(key)`: absent unless metadata is stored there. */
  function StoredMeta(items: map<string, Value>, key: string): Option<CandidatoMeta> {
    if key in items && items[key].Meta? then Some(items[key].meta) else None
  }

  /** The URL written for a candidate whose metadata passes the inclusion rule. */
  function UrlOf(slug: string, meta: CandidatoMeta): SitemapUrl {
    var recent := meta.anoEleicao >= RecentYear;
    SitemapUrl(
      "/candidato/" + slug,
      if recent then 0.8 else 0.5,
      if recent then Monthly else Yearly,
      if meta.lastAccess != 0 then AccessedAt(meta.lastAccess) else YearEnd(meta.anoEleicao))
  }

  /** Metadata is complete when it names an office and counts votes. */
  predicate HasGoodData(meta: CandidatoMeta) {
    meta.cargo != [] && meta.totalVotos > 0
  }

  /** The entry for one indexed slug, if any. */
  function Entry(items: map<string, Value>, uf: string, slug: string): (r: Option<SitemapUrl>)
    ensures r.Some? <==> StoredMeta(items, MetaKey(uf, slug)).Some? && HasGoodData(StoredMeta(items, MetaKey(uf, slug)).value)
    ensures r.Some? ==> r.value.loc == "/candidato/" + slug
  {
    var meta := StoredMeta(items, MetaKey(uf, slug));
    if meta.Some? && HasGoodData(meta.value) then Some(UrlOf(slug, meta.value)) else None
  }

  /** The entries for a list of slugs of one state, in order. */
  function SlugUrls(items: map<string, Value>, uf: string, slugs: seq<string>): seq<SitemapUrl> {
    if slugs == [] then []
    else
      var e := Entry(items, uf, slugs[|slugs| - 1]);
      SlugUrls(items, uf, slugs[..|slugs| - 1]) + (if e.Some? then [e.value] else [])
  }

  /** The entries for the first `n` states of `ufs`, state after state. */
  function UrlsUpTo(items: map<string, Value>, ufs: seq<string>, n: nat): seq<SitemapUrl>
    requires n <= |ufs|
  {
    if n == 0 then []
    else UrlsUpTo(items, ufs, n - 1) + SlugUrls(items, ufs[n - 1], StoredIndex(items, IndexKey(ufs[n - 1])))
  }

  /** The sitemap over the whole state table. */
  function AllUrls(items: map<string, Value>): seq<SitemapUrl> {
    UrlsUpTo(items, Estados, |Estados|)
  }

  /** The two nested loops over the states and their indexes. */
  method CollectUrls(items: map<string, Value>, ufs: seq<string>) returns (urls: seq<SitemapUrl>)
    ensures urls == UrlsUpTo(items, ufs, |ufs|)
  {
    urls := [];
    for i := 0 to |ufs|
      invariant urls == UrlsUpTo(items, ufs, i)
    {
      var found := CollectState(items, ufs[i]);
      urls := urls + found;
    }
  }

  /** The inner loop: the entries of one state's indexed slugs, in index order. */
  method CollectState(items: map<string, Value>, uf: string) returns (urls: seq<SitemapUrl>)
    ensures urls == SlugUrls(items, uf, StoredIndex(items, IndexKey(uf)))
  {
    var slugs := StoredIndex(items, IndexKey(uf));
    urls := [];
    for j := 0 to |slugs|
      invariant urls == SlugUrls(items, uf, slugs[..j])
    {
      SlugUrlsStep(items, uf, slugs, j);
      var meta := StoredMeta(items, MetaKey(uf, slugs[j]));
      if meta.Some? && meta.value.cargo != [] && meta.value.totalVotos > 0 {
        urls := urls + [UrlOf(slugs[j], meta.value)];
      }
    }
    assert slugs[..|slugs|] == slugs;
  }

  /** One more slug adds its entry, if it has one, at the end. */
  lemma SlugUrlsStep(items: map<string, Value>, uf: string, slugs: seq<string>, j: nat)
    requires j < |slugs|
    ensures var e := Entry(items, uf, slugs[j]);
      SlugUrls(items, uf, slugs[..j + 1]) == SlugUrls(items, uf, slugs[..j]) + (if e.Some? then [e.value] else [])
  {
    assert slugs[..j + 1][..j] == slugs[..j];
  }

  /** The sitemap handler; a read that throws anywhere yields no URL at all. */
  method Urls(items: map<string, Value>, readFails: bool) returns (urls: seq<SitemapUrl>)
    ensures readFails ==> urls == []
    ensures !readFails ==> urls == AllUrls(items)
  {
    if readFails {
      return [];
    }
    urls := CollectUrls(items, Estados);
  }

  // ---------------------------------------------------------------------------
  // Properties

  /** A URL is listed for a state's slugs exactly when it is the entry of one of them. */
  lemma {:induction false} SlugUrlsMembers(items: map<string, Value>, uf: string, slugs: seq<string>, u: SitemapUrl)
    ensures u in SlugUrls(items, uf, slugs) <==> exists k :: 0 <= k < |slugs| && Entry(items, uf, slugs[k]) == Some(u)
    decreases |slugs|
  {
    if slugs != [] {
      var init := slugs[..|slugs| - 1];
      SlugUrlsMembers(items, uf, init, u);
      if u in SlugUrls(items, uf, slugs) && u !in SlugUrls(items, uf, init) {
        assert Entry(items, uf, slugs[|slugs| - 1]) == Some(u);
      }
      if k :| 0 <= k < |slugs| && Entry(items, uf, slugs[k]) == Some(u) {
        if k < |init| {
          assert init[k] == slugs[k];
        }
      }
    }
  }

  /** The index of state `uf` lists a slug whose entry is `u`. */
  predicate StateLists(items: map<string, Value>, uf: string, u: SitemapUrl) {
    var slugs := StoredIndex(items, IndexKey(uf));
    exists k :: 0 <= k < |slugs| && Entry(items, uf, slugs[k]) == Some(u)
  }

  /** A URL is listed exactly when some state's index lists a slug whose entry it is. */
  lemma UrlsUpToMembers(items: map<string, Value>, ufs: seq<string>, n: nat, u: SitemapUrl)
    requires n <= |ufs|
    ensures u in UrlsUpTo(items, ufs, n) <==> exists i :: 0 <= i < n && StateLists(items, ufs[i], u)
  {
    if u in UrlsUpTo(items, ufs, n) {
      var i := ListingState(items, ufs, n, u);
    }
    if i :| 0 <= i < n && StateLists(items, ufs[i], u) {
      ListedUpTo(items, ufs, n, i, u);
    }
  }

  /** A listed URL comes from one of the first `n` states. */
  lemma {:induction false} ListingState(items: map<string, Value>, ufs: seq<string>, n: nat, u: SitemapUrl) returns (i: nat)
    requires n <= |ufs| && u in UrlsUpTo(items, ufs, n)
    ensures i < n && StateLists(items, ufs[i], u)
  {
    StateListsMembers(items, ufs[n - 1], u);
    if u in UrlsUpTo(items, ufs, n - 1) {
      i := ListingState(items, ufs, n - 1, u);
    } else {
      i := n - 1;
    }
  }

  /** Whatever one of the first `n` states lists is in the sitemap. */
  lemma {:induction false} ListedUpTo(items: map<string, Value>, ufs: seq<string>, n: nat, i: nat, u: SitemapUrl)
    requires i < n <= |ufs| && StateLists(items, ufs[i], u)
    ensures u in UrlsUpTo(items, ufs, n)
  {
    if i < n - 1 {
      ListedUpTo(items, ufs, n - 1, i, u);
    } else {
      StateListsMembers(items, ufs[n - 1], u);
    }
  }

  /** A state's own entries are exactly the URLs its index lists. */
  lemma StateListsMembers(items: map<string, Value>, uf: string, u: SitemapUrl)
    ensures u in SlugUrls(items, uf, StoredIndex(items, IndexKey(uf))) <==> StateLists(items, uf, u)
  {
    SlugUrlsMembers(items, uf, StoredIndex(items, IndexKey(uf)), u);
  }

  /**
   * Every URL is a candidate page; recent elections are monthly at priority
   * 0.8, older ones yearly at 0.5.
   */
  lemma {:induction false} UrlShapes(items: map<string, Value>, u: SitemapUrl)
    requires u in AllUrls(items)
    ensures |u.loc| >= 11 && u.loc[..11] == "/candidato/"
    ensures (u.priority == 0.8 && u.changefreq == Monthly) || (u.priority == 0.5 && u.changefreq == Yearly)
  {
    var ufs := Estados;
    UrlsUpToMembers(items, ufs, |ufs|, u);
    var i :| 0 <= i < |ufs| && StateLists(items, ufs[i], u);
    var slugs := StoredIndex(items, IndexKey(ufs[i]));
    var k :| 0 <= k < |slugs| && Entry(items, ufs[i], slugs[k]) == Some(u);
    var slug := slugs[k];
    assert u.loc == "/candidato/" + slug;
  }

  /**
   * A tracked access for a state of the table, whose body names an office
   * and a positive vote count, puts the candidate's page in the sitemap.
   */
  lemma TrackedIsListed(items: map<string, Value>, b: TrackBody, now: int, i: nat)
    requires ValidBody(Some(b)) && Truthy(b.cargo) && b.totalVotos.GetOr(0) > 0
    requires i < |Estados| && Estados[i] == Upper(b.uf.value)
    ensures var after := StoredAfter(items, b, now, OpCount(items, Upper(b.uf.value), b.slug.value));
      UrlOf(b.slug.value, MetaOf(b, now)) in AllUrls(after)
  {
    var uf := Upper(b.uf.value);
    var slug := b.slug.value;
    var after := StoredAfter(items, b, now, OpCount(items, uf, slug));
    TrackedStore(items, b, now);
    WithSlugSpec(StoredIndex(items, IndexKey(uf)), slug);
    var index := StoredIndex(after, IndexKey(uf));
    var k :| 0 <= k < |index| && index[k] == slug;
    var ufs := Estados;
    assert Entry(after, ufs[i], index[k]) == Some(UrlOf(slug, MetaOf(b, now)));
    assert StateLists(after, ufs[i], UrlOf(slug, MetaOf(b, now)));
    UrlsUpToMembers(after, ufs, |ufs|, UrlOf(slug, MetaOf(b, now)));
  }
}
