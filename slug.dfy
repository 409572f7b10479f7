/**
 * Candidate slugs: the URL-friendly text `slugify` produces, the
 * `uf-nome` slugs built from it, and the parsers that take a slug apart.
 *
 * `slugify` is a chain of regular-expression replacements; each stage is a
 * function here. Unicode NFD decomposition is not modelled: the input is
 * taken as already decomposed, so removing accents is removing the combining
 * marks U+0300..U+036F.
 */
module Slug {
  import opened Wrappers
  import opened Text
  import opened Seqs

  // ---------------------------------------------------------------------------
  // The stages of slugify

  predicate IsCombiningMark(c: char) { '\U{0300}' <= c <= '\U{036F}' }

  /** `.replace(/[̀-ͯ]/g, '')`. */
  function StripMarks(s: string): string {
    Filter(s, IsNotMark)
  }

  predicate IsNotMark(c: char) { !IsCombiningMark(c) }

  /** Drops the leading run of `c` (`.replace(/^-+/, '')` when `c` is `-`). */
  function DropLeading(s: string, c: char): (r: string)
    ensures |r| <= |s| && r == s[|s| - |r|..]
    ensures r != [] ==> r[0] != c
    ensures forall i :: 0 <= i < |s| - |r| ==> s[i] == c
    decreases |s|
  {
    if s != [] && s[0] == c then DropLeading(s[1..], c) else s
  }

  /** Drops the trailing run of `c` (`.replace(/-+$/, '')` when `c` is `-`). */
  function DropTrailing(s: string, c: char): (r: string)
    ensures |r| <= |s| && r == s[..|r|]
    ensures r != [] ==> r[|r| - 1] != c
    ensures forall i :: |r| <= i < |s| ==> s[i] == c
    decreases |s|
  {
    if s != [] && s[|s| - 1] == c then DropTrailing(s[..|s| - 1], c) else s
  }

  /** `.replace(/[^\w-]+/g, '')`. */
  function RemoveNonWord(s: string): string {
    Filter(s, IsWordOrHyphen)
  }

  predicate IsWordOrHyphen(c: char) { IsWordChar(c) || c == '-' }

  /** No two consecutive occurrences of `c`. */
  predicate NoDouble(s: string, c: char) {
    forall i :: 0 <= i < |s| - 1 ==> !(s[i] == c && s[i + 1] == c)
  }

  /** `.replace(/-{2,}/g, '-')`: every run of hyphens becomes one hyphen. */
  function CollapseHyphens(s: string): (r: string)
    ensures s != [] ==> r != [] && r[0] == s[0]
    ensures NoDouble(r, '-')
    decreases |s|
  {
    if s == [] then []
    else if s[0] == '-' then "-" + CollapseHyphens(DropLeading(s[1..], '-'))
    else [s[0]] + CollapseHyphens(s[1..])
  }

  /** The stages of `slugify` after white space has become hyphens. */
  function SlugFinish(h: string): string {
    DropTrailing(DropLeading(CollapseHyphens(RemoveNonWord(h)), '-'), '-')
  }

  /** The stages of `slugify` after accents are removed and case is lowered. */
  function SlugTail(s: string): string {
    SlugFinish(ReplaceSpaceRuns(Trim(s), '-'))
  }

  /** `slugify(text)`, also `_slugify` of the candidate endpoint. */
  function Slugify(text: string): string {
    SlugTail(Lower(StripMarks(text)))
  }

  // ---------------------------------------------------------------------------
  // What a slug looks like

  /** Every character of `s` satisfies `p`. */
  predicate AllChars(s: string, p: char -> bool) {
    forall i :: 0 <= i < |s| ==> p(s[i])
  }

  predicate IsSlugChar(c: char) { IsAsciiLower(c) || IsDigit(c) || c == '_' || c == '-' }

  /**
   * Lower-case ASCII letters, digits, `_` and single hyphens, with no hyphen
   * at either end.
   */
  predicate IsSlug(s: string) {
    && AllChars(s, IsSlugChar)
    && NoDouble(s, '-')
    && (s != [] ==> s[0] != '-' && s[|s| - 1] != '-')
  }

  lemma NoDoubleSlice(s: string, c: char, a: nat, b: nat)
    requires NoDouble(s, c) && a <= b <= |s|
    ensures NoDouble(s[a..b], c)
  {
    var t := s[a..b];
    forall i | 0 <= i < |t| - 1 ensures !(t[i] == c && t[i + 1] == c) {
      assert t[i] == s[a + i] && t[i + 1] == s[a + i + 1];
    }
  }

  lemma AllCharsSlice(s: string, p: char -> bool, a: nat, b: nat)
    requires AllChars(s, p) && a <= b <= |s|
    ensures AllChars(s[a..b], p)
  {
    forall i | 0 <= i < b - a ensures p(s[a..b][i]) {
      assert s[a..b][i] == s[a + i];
    }
  }

  lemma {:induction false} FilterAllChars(s: string, q: char -> bool, p: char -> bool)
    requires AllChars(s, p)
    ensures AllChars(Filter(s, q), p) && AllChars(Filter(s, q), q)
    decreases |s|
  {
    if s != [] {
      AllCharsSlice(s, p, 1, |s|);
      FilterAllChars(s[1..], q, p);
    }
  }

  lemma {:induction false} HyphenateAllChars(s: string, p: char -> bool)
    requires AllChars(s, p) && p('-')
    ensures AllChars(ReplaceSpaceRuns(s, '-'), p)
    decreases |s|
  {
    if s != [] {
      AllCharsSlice(s, p, 1, |s|);
      if IsSpace(s[0]) {
        var t := TrimStart(s[1..]);
        AllCharsSlice(s[1..], p, |s[1..]| - |t|, |s[1..]|);
        HyphenateAllChars(t, p);
        AllCharsCons('-', ReplaceSpaceRuns(t, '-'), p);
      } else {
        HyphenateAllChars(s[1..], p);
        AllCharsCons(s[0], ReplaceSpaceRuns(s[1..], '-'), p);
      }
    }
  }

  lemma AllCharsCons(x: char, s: string, p: char -> bool)
    requires p(x) && AllChars(s, p)
    ensures AllChars([x] + s, p)
  {
  }

  lemma {:induction false} CollapseAllChars(s: string, p: char -> bool)
    requires AllChars(s, p)
    ensures AllChars(CollapseHyphens(s), p)
    decreases |s|
  {
    if s != [] {
      AllCharsSlice(s, p, 1, |s|);
      if s[0] == '-' {
        var t := DropLeading(s[1..], '-');
        AllCharsSlice(s[1..], p, |s[1..]| - |t|, |s[1..]|);
        CollapseAllChars(t, p);
      } else {
        CollapseAllChars(s[1..], p);
      }
    }
  }

  predicate IsNotAsciiUpper(c: char) { !IsAsciiUpper(c) }

  lemma LoweredTrimmed(text: string)
    ensures AllChars(Trim(Lower(StripMarks(text))), IsNotAsciiUpper)
  {
    var l := Lower(StripMarks(text));
    assert AllChars(l, IsNotAsciiUpper);
    var t0 := TrimStart(l);
    AllCharsSlice(l, IsNotAsciiUpper, |l| - |t0|, |l|);
    AllCharsSlice(t0, IsNotAsciiUpper, 0, |TrimEnd(t0)|);
  }

  lemma WordsOnly(t: string)
    requires AllChars(t, IsNotAsciiUpper)
    ensures AllChars(RemoveNonWord(ReplaceSpaceRuns(t, '-')), IsSlugChar)
  {
    var h := ReplaceSpaceRuns(t, '-');
    HyphenateAllChars(t, IsNotAsciiUpper);
    FilterAllChars(h, IsWordOrHyphen, IsNotAsciiUpper);
  }

  lemma HyphensTrimmed(w: string)
    requires AllChars(w, IsSlugChar)
    ensures IsSlug(DropTrailing(DropLeading(CollapseHyphens(w), '-'), '-'))
  {
    CollapseAllChars(w, IsSlugChar);
    EdgeHyphensDropped(CollapseHyphens(w));
  }

  /** Dropping the hyphens at both ends of a string of slug characters without double hyphens leaves a slug. */
  lemma EdgeHyphensDropped(c: string)
    requires AllChars(c, IsSlugChar) && NoDouble(c, '-')
    ensures IsSlug(DropTrailing(DropLeading(c, '-'), '-'))
  {
    var d := DropLeading(c, '-');
    NoDoubleSlice(c, '-', |c| - |d|, |c|);
    AllCharsSlice(c, IsSlugChar, |c| - |d|, |c|);
    LeadingHyphenKept(d);
  }

  lemma LeadingHyphenKept(d: string)
    requires AllChars(d, IsSlugChar) && NoDouble(d, '-')
    requires d != [] ==> d[0] != '-'
    ensures IsSlug(DropTrailing(d, '-'))
  {
    var e := DropTrailing(d, '-');
    NoDoubleSlice(d, '-', 0, |e|);
    AllCharsSlice(d, IsSlugChar, 0, |e|);
    assert d[0..|e|] == e;
    if e != [] {
      assert e[0] == d[0];
    }
  }

  /** Whatever the input, `slugify` produces a slug. */
  lemma SlugifyIsSlug(text: string)
    ensures IsSlug(Slugify(text))
  {
    LoweredTrimmed(text);
    WordsOnly(Trim(Lower(StripMarks(text))));
    HyphensTrimmed(RemoveNonWord(ReplaceSpaceRuns(Trim(Lower(StripMarks(text))), '-')));
  }

  lemma {:induction false} FilterKeepsAll(s: string, p: char -> bool)
    requires AllChars(s, p)
    ensures Filter(s, p) == s
    decreases |s|
  {
    if s != [] {
      AllCharsSlice(s, p, 1, |s|);
      FilterKeepsAll(s[1..], p);
      assert [s[0]] + s[1..] == s;
    }
  }

  predicate IsNotUpper(c: char) { !IsAsciiUpper(c) && !IsLatinUpper(c) }

  lemma LowerFixes(s: string)
    requires AllChars(s, IsNotUpper)
    ensures Lower(s) == s
  {
  }

  predicate IsNotSpace(c: char) { !IsSpace(c) }

  lemma TrimFixes(s: string)
    requires AllChars(s, IsNotSpace)
    ensures Trim(s) == s
  {
  }

  lemma {:induction false} HyphenateFixes(s: string)
    requires AllChars(s, IsNotSpace)
    ensures ReplaceSpaceRuns(s, '-') == s
    decreases |s|
  {
    if s != [] {
      AllCharsSlice(s, IsNotSpace, 1, |s|);
      HyphenateFixes(s[1..]);
      assert [s[0]] + s[1..] == s;
    }
  }

  lemma {:induction false} CollapseFixes(s: string)
    requires NoDouble(s, '-')
    ensures CollapseHyphens(s) == s
    decreases |s|
  {
    if s != [] {
      NoDoubleSlice(s, '-', 1, |s|);
      CollapseFixes(s[1..]);
      if s[0] == '-' && |s| > 1 {
        assert s[1] != '-';
      }
      assert [s[0]] + s[1..] == s;
    }
  }

  /** Removing non-word characters and collapsing hyphens leave a slug unchanged. */
  lemma SlugCleanupFixes(s: string)
    requires IsSlug(s)
    ensures CollapseHyphens(RemoveNonWord(s)) == s
  {
    assert AllChars(s, IsWordOrHyphen);
    FilterKeepsAll(s, IsWordOrHyphen);
    CollapseFixes(s);
  }

  lemma SlugFinishFixes(s: string)
    requires IsSlug(s)
    ensures SlugFinish(s) == s
  {
    SlugCleanupFixes(s);
    var c := CollapseHyphens(RemoveNonWord(s));
    assert DropLeading(c, '-') == s;
    assert DropTrailing(s, '-') == s;
  }

  /** The stages after lower-casing leave a slug unchanged. */
  lemma SlugTailFixes(s: string)
    requires IsSlug(s)
    ensures SlugTail(s) == s
  {
    assert AllChars(s, IsNotSpace);
    TrimFixes(s);
    HyphenateFixes(s);
    SlugFinishFixes(s);
  }

  /** `slugify` leaves a slug unchanged. */
  lemma SlugifyFixesSlugs(s: string)
    requires IsSlug(s)
    ensures Slugify(s) == s
  {
    assert AllChars(s, IsNotMark) && AllChars(s, IsNotUpper);
    FilterKeepsAll(s, IsNotMark);
    assert StripMarks(s) == s;
    LowerFixes(s);
    SlugTailFixes(s);
  }

  /** Applying `slugify` twice is the same as applying it once. */
  lemma SlugifyIdempotent(text: string)
    ensures Slugify(Slugify(text)) == Slugify(text)
  {
    SlugifyIsSlug(text);
    SlugifyFixesSlugs(Slugify(text));
  }

  // ---------------------------------------------------------------------------
  // Candidate slugs

  /** `generateCandidatoSlug(uf, nmCandidato)`. */
  function GenerateCandidatoSlug(uf: string, nmCandidato: string): string {
    Slugify(uf) + "-" + Slugify(nmCandidato)
  }

  /** `generateCandidatoSlugFromUrna(uf, nmUrna)`: the same shape from the ballot name. */
  function GenerateCandidatoSlugFromUrna(uf: string, nmUrna: string): string {
    Slugify(uf) + "-" + Slugify(nmUrna)
  }

  datatype SlugParts = SlugParts(uf: string, nomeSlug: string)

  /**
   * `parseCandidatoSlug(slug)`: the part before the first hyphen, upper-cased,
   * and the rest; `None` when there is no hyphen or nothing before it.
   */
  function ParseCandidatoSlug(slug: string): Option<SlugParts> {
    var parts := Split(slug, '-');
    if |parts| < 2 then None
    else if parts[0] == [] then None
    else Some(SlugParts(Upper(parts[0]), Join(parts[1..], "-")))
  }

  /** The first part of a split is empty exactly when the string is empty or starts with the separator. */
  lemma SplitFirstEmpty(s: string, sep: char)
    ensures Split(s, sep)[0] == [] <==> s == [] || s[0] == sep
  {
  }

  /** The parser accepts exactly the slugs with a hyphen that do not start with one. */
  lemma ParseCandidatoSlugAccepts(slug: string)
    ensures ParseCandidatoSlug(slug).Some? <==> '-' in slug && slug[0] != '-'
  {
    SplitHasTwoParts(slug, '-');
    SplitFirstEmpty(slug, '-');
  }

  /** What the parser returns puts the slug back together around its first hyphen. */
  lemma ParseCandidatoSlugSplits(slug: string)
    requires ParseCandidatoSlug(slug).Some?
    ensures var parts := Split(slug, '-');
      var p := ParseCandidatoSlug(slug).value;
      && '-' !in parts[0]
      && slug == parts[0] + "-" + p.nomeSlug
      && p.uf == Upper(parts[0])
  {
    var parts := Split(slug, '-');
    SplitPartsHaveNoSep(slug, '-');
    assert parts[0] in parts;
    JoinSplit(slug, '-');
  }

  /** Splitting `a-b` at its first hyphen when `a` has none. */
  lemma SplitJoined(a: string, b: string)
    requires '-' !in a
    ensures |Split(a + "-" + b, '-')| >= 2
    ensures Split(a + "-" + b, '-')[0] == a
    ensures Join(Split(a + "-" + b, '-')[1..], "-") == b
  {
    SplitAfterPrefix(a, b, '-');
    assert a + "-" + b == a + ['-'] + b;
    var parts := Split(a + "-" + b, '-');
    assert parts[1..] == Split(b, '-');
    JoinSplit(b, '-');
  }

  /** A two-letter upper-case code, such as a state abbreviation. */
  predicate IsUfCode(uf: string) {
    |uf| == 2 && IsAsciiUpper(uf[0]) && IsAsciiUpper(uf[1])
  }

  lemma LowerUfCode(uf: string)
    requires IsUfCode(uf)
    ensures IsSlug(Lower(uf)) && Upper(Lower(uf)) == uf
    ensures '-' !in Lower(uf) && Lower(uf) != []
  {
    assert Lower(uf) == [LowerChar(uf[0]), LowerChar(uf[1])];
  }

  lemma StripMarksUfCode(uf: string)
    requires IsUfCode(uf)
    ensures StripMarks(uf) == uf
  {
    assert AllChars(uf, IsNotMark);
    FilterKeepsAll(uf, IsNotMark);
  }

  /** A state code slugifies to its lower-case form, which upper-cases back to it. */
  lemma SlugifyUfCode(uf: string)
    requires IsUfCode(uf)
    ensures Slugify(uf) == Lower(uf)
    ensures Upper(Lower(uf)) == uf
    ensures '-' !in Lower(uf) && Lower(uf) != []
  {
    StripMarksUfCode(uf);
    LowerUfCode(uf);
    SlugTailFixes(Lower(uf));
  }

  /**
   * Parsing a generated slug gives back the state code and the slug of the
   * name: `parseCandidatoSlug(generateCandidatoSlug('PE', n))` is `{ uf: 'PE', nomeSlug: slugify(n) }`.
   */
  lemma ParseGeneratedSlug(uf: string, nome: string)
    requires IsUfCode(uf)
    ensures ParseCandidatoSlug(GenerateCandidatoSlug(uf, nome)) == Some(SlugParts(uf, Slugify(nome)))
    ensures ParseCandidatoSlug(GenerateCandidatoSlugFromUrna(uf, nome)) == Some(SlugParts(uf, Slugify(nome)))
  {
    SlugifyUfCode(uf);
    SplitJoined(Lower(uf), Slugify(nome));
  }

  // ---------------------------------------------------------------------------
  // The slug as the two request handlers read it

  datatype RequestSlug = RequestSlug(uf: string, nomeSlug: string, nomeCompleto: string)

  /** `nomeSlug.toUpperCase().replace(/-/g, ' ')`. */
  function NomeCompleto(nomeSlug: string): (r: string)
    ensures |r| == |nomeSlug|
    ensures forall i :: 0 <= i < |r| ==> r[i] == if nomeSlug[i] == '-' then ' ' else UpperChar(nomeSlug[i])
  {
    if nomeSlug == [] then []
    else [if nomeSlug[0] == '-' then ' ' else UpperChar(nomeSlug[0])] + NomeCompleto(nomeSlug[1..])
  }

  /**
   * How the candidate and analysis endpoints read `?slug=`: 400 when it is
   * missing or empty, 400 when it has no hyphen, otherwise the upper-cased
   * first part, the rest, and the rest as an upper-case name with spaces.
   * Unlike `parseCandidatoSlug`, an empty first part is accepted.
   */
  function ParseRequestSlug(slug: Option<string>): (r: Result<RequestSlug>)
    ensures r.Err? <==> slug.None? || slug.value == [] || '-' !in slug.value
    ensures r.Err? ==> r.error.statusCode == 400
    ensures r.Ok? ==> slug.value == Split(slug.value, '-')[0] + "-" + r.value.nomeSlug
  {
    if slug.None? || slug.value == [] then Err(HttpError(400, "Parâmetro slug é obrigatório"))
    else
      var parts := Split(slug.value, '-');
      SplitHasTwoParts(slug.value, '-');
      if |parts| < 2 then Err(HttpError(400, "Formato de slug inválido"))
      else
        JoinSplit(slug.value, '-');
        var nomeSlug := Join(parts[1..], "-");
        Ok(RequestSlug(Upper(parts[0]), nomeSlug, NomeCompleto(nomeSlug)))
  }

  predicate IsPlainChar(c: char) { IsAsciiUpper(c) || IsDigit(c) || c == ' ' }

  /**
   * A name as the electoral records spell it: upper-case ASCII letters and
   * digits in words separated by single spaces.
   */
  predicate IsPlainName(n: string) {
    && AllChars(n, IsPlainChar)
    && NoDouble(n, ' ')
    && (n != [] ==> n[0] != ' ' && n[|n| - 1] != ' ')
  }

  /** Each space replaced by a hyphen, every other character kept. */
  function SpaceToHyphen(s: string): (r: string)
    ensures |r| == |s|
    ensures forall i :: 0 <= i < |s| ==> r[i] == if s[i] == ' ' then '-' else s[i]
  {
    if s == [] then [] else [if s[0] == ' ' then '-' else s[0]] + SpaceToHyphen(s[1..])
  }

  /** The slug of a plain name: lower case, a hyphen for each space. */
  function PlainSlug(n: string): string {
    SpaceToHyphen(Lower(n))
  }

  lemma {:induction false} HyphenateSingleSpaces(s: string)
    requires forall i :: 0 <= i < |s| ==> s[i] == ' ' || !IsSpace(s[i])
    requires NoDouble(s, ' ')
    ensures ReplaceSpaceRuns(s, '-') == SpaceToHyphen(s)
    decreases |s|
  {
    if s != [] {
      NoDoubleSlice(s, ' ', 1, |s|);
      HyphenateSingleSpaces(s[1..]);
      if s[0] == ' ' && |s| > 1 {
        assert s[1] != ' ';
        assert TrimStart(s[1..]) == s[1..];
      }
    }
  }

  predicate IsLoweredPlainChar(c: char) { IsAsciiLower(c) || IsDigit(c) || c == ' ' }

  /** The stages after lower-casing turn the single spaces of a lowered plain name into hyphens. */
  lemma PlainHyphenatedIsSlug(l: string)
    requires AllChars(l, IsLoweredPlainChar) && NoDouble(l, ' ')
    requires l != [] ==> l[0] != ' ' && l[|l| - 1] != ' '
    ensures IsSlug(SpaceToHyphen(l))
  {
    var p := SpaceToHyphen(l);
    assert AllChars(p, IsSlugChar);
    assert NoDouble(p, '-') by {
      forall i | 0 <= i < |p| - 1 ensures !(p[i] == '-' && p[i + 1] == '-') {
        assert !(l[i] == ' ' && l[i + 1] == ' ');
      }
    }
  }

  lemma PlainTrimmed(l: string)
    requires AllChars(l, IsLoweredPlainChar)
    requires l != [] ==> l[0] != ' ' && l[|l| - 1] != ' '
    ensures Trim(l) == l
  {
  }

  lemma PlainHyphenated(l: string)
    requires AllChars(l, IsLoweredPlainChar) && NoDouble(l, ' ')
    requires l != [] ==> l[0] != ' ' && l[|l| - 1] != ' '
    ensures SlugTail(l) == SlugFinish(SpaceToHyphen(l))
  {
    PlainTrimmed(l);
    PlainNoOtherSpace(l);
    HyphenateSingleSpaces(l);
    SlugTailOf(l, SpaceToHyphen(l));
  }

  lemma PlainNoOtherSpace(l: string)
    requires AllChars(l, IsLoweredPlainChar)
    ensures forall i :: 0 <= i < |l| ==> l[i] == ' ' || !IsSpace(l[i])
  {
    forall i | 0 <= i < |l| ensures l[i] == ' ' || !IsSpace(l[i]) {
      assert IsLoweredPlainChar(l[i]);
    }
  }

  /** `SlugTail` is `SlugFinish` after trimming and hyphenating. */
  lemma SlugTailOf(s: string, h: string)
    requires ReplaceSpaceRuns(Trim(s), '-') == h
    ensures SlugTail(s) == SlugFinish(h)
  {
  }

  lemma SlugTailOfPlain(l: string)
    requires AllChars(l, IsLoweredPlainChar) && NoDouble(l, ' ')
    requires l != [] ==> l[0] != ' ' && l[|l| - 1] != ' '
    ensures SlugTail(l) == SpaceToHyphen(l)
    ensures IsSlug(SpaceToHyphen(l))
  {
    PlainHyphenated(l);
    PlainHyphenatedIsSlug(l);
    SlugFinishFixes(SpaceToHyphen(l));
  }

  /** On a plain name `slugify` lower-cases and puts a hyphen for each space. */
  lemma SlugifyPlainName(n: string)
    requires IsPlainName(n)
    ensures Slugify(n) == PlainSlug(n)
    ensures IsSlug(PlainSlug(n))
  {
    assert AllChars(n, IsNotMark);
    FilterKeepsAll(n, IsNotMark);
    assert StripMarks(n) == n;
    LowerPlain(n);
    SlugTailOfPlain(Lower(n));
  }

  /** Lower-casing a plain name keeps its spaces where they were. */
  lemma LowerPlain(n: string)
    requires IsPlainName(n)
    ensures AllChars(Lower(n), IsLoweredPlainChar) && NoDouble(Lower(n), ' ')
    ensures Lower(n) != [] ==> Lower(n)[0] != ' ' && Lower(n)[|Lower(n)| - 1] != ' '
  {
    var l := Lower(n);
    assert AllChars(l, IsLoweredPlainChar);
    assert NoDouble(l, ' ') by {
      forall i | 0 <= i < |l| - 1 ensures !(l[i] == ' ' && l[i + 1] == ' ') {
        assert !(n[i] == ' ' && n[i + 1] == ' ');
      }
    }
  }

  /**
   * For a plain name the endpoints rebuild the name exactly from its slug:
   * `NUNES RAFAEL MENDES COELHO` → `pe-nunes-rafael-mendes-coelho` →
   * `NUNES RAFAEL MENDES COELHO`.
   */
  lemma NomeCompletoRoundTrip(uf: string, n: string)
    requires IsUfCode(uf) && IsPlainName(n)
    ensures ParseRequestSlug(Some(GenerateCandidatoSlug(uf, n))).Ok?
    ensures ParseRequestSlug(Some(GenerateCandidatoSlug(uf, n))).value == RequestSlug(uf, PlainSlug(n), n)
  {
    SlugifyUfCode(uf);
    SlugifyPlainName(n);
    assert GenerateCandidatoSlug(uf, n) == Lower(uf) + "-" + PlainSlug(n);
    ParseRequestJoined(Lower(uf), PlainSlug(n));
    NomeCompletoOfPlain(n);
  }

  lemma ParseRequestJoined(a: string, b: string)
    requires '-' !in a
    ensures ParseRequestSlug(Some(a + "-" + b)) == Ok(RequestSlug(Upper(a), b, NomeCompleto(b)))
  {
    SplitJoined(a, b);
  }

  lemma NomeCompletoOfPlain(n: string)
    requires IsPlainName(n)
    ensures NomeCompleto(PlainSlug(n)) == n
  {
    var b := PlainSlug(n);
    forall i | 0 <= i < |n| ensures NomeCompleto(b)[i] == n[i] {
      assert IsPlainChar(n[i]);
    }
  }

  // ---------------------------------------------------------------------------
  // The analysis endpoint's own slug

  /**
   * `gerarSlug(uf, nomeUrna)` of the cutoff-block analysis: the state code is
   * only lower-cased, and the name goes through the stages of `slugify`
   * except trimming and the removal of hyphens at either end.
   */
  function GerarSlug(uf: string, nomeUrna: string): string {
    Lower(uf) + "-" + CollapseHyphens(RemoveNonWord(ReplaceSpaceRuns(StripMarks(Lower(nomeUrna)), '-')))
  }

  lemma StripMarksOfLowerPlain(n: string)
    requires IsPlainName(n)
    ensures StripMarks(Lower(n)) == Lower(n)
    ensures AllChars(Lower(n), IsLoweredPlainChar) && NoDouble(Lower(n), ' ')
    ensures Lower(n) != [] ==> Lower(n)[0] != ' ' && Lower(n)[|Lower(n)| - 1] != ' '
  {
    LowerPlain(n);
    assert AllChars(Lower(n), IsNotMark);
    FilterKeepsAll(Lower(n), IsNotMark);
  }

  /**
   * On a state code and a plain ballot name the analysis endpoint's slug is
   * the site's `generateCandidatoSlugFromUrna` slug, so its links resolve.
   */
  lemma GerarSlugAgrees(uf: string, n: string)
    requires IsUfCode(uf) && IsPlainName(n)
    ensures GerarSlug(uf, n) == GenerateCandidatoSlugFromUrna(uf, n)
  {
    SlugifyUfCode(uf);
    SlugifyPlainName(n);
    GerarNamePlain(n);
  }

  lemma GerarNamePlain(n: string)
    requires IsPlainName(n)
    ensures CollapseHyphens(RemoveNonWord(ReplaceSpaceRuns(StripMarks(Lower(n)), '-'))) == PlainSlug(n)
  {
    StripMarksOfLowerPlain(n);
    var l := Lower(n);
    PlainNoOtherSpace(l);
    HyphenateSingleSpaces(l);
    PlainHyphenatedIsSlug(l);
    SlugCleanupFixes(SpaceToHyphen(l));
    assert ReplaceSpaceRuns(StripMarks(l), '-') == SpaceToHyphen(l);
  }
}
