// Article slugs (src/articles/article-slug.service.ts, src/articles/articles.repository.ts).
module Slugs {
  import opened Decimals
  import opened TextRuns

  const ARTICLE_SLUG_FALLBACK := "article"
  const SLUG_GENERATION_MAX_RETRIES := 3

  // ---------- The normal form ----------

  predicate IsAlnum(c: char) {
    'a' <= c <= 'z' || IsDigit(c)
  }

  // By their ASCII codes.
  lemma AlnumIff(c: char)
    ensures IsAlnum(c) <==> 97 <= c as int <= 122 || 48 <= c as int <= 57
  {
  }

  function NotAlnum(): char -> bool {
    c => !IsAlnum(c)
  }

  function IsHyphen(): char -> bool {
    c => c == '-'
  }

  // Non-empty groups of letters and digits, joined by single hyphens.
  ghost predicate NormalForm(s: string) {
    exists groups :: groups != [] && (forall g :: g in groups ==> IsRun(g, NotAlnum())) && s == Join(groups, '-')
  }

  // Trimming, lower-casing and the folding of accents, together: they leave a slug as it is.
  ghost predicate IsFolding(fold: string -> string) {
    forall s :: (forall c :: c in s ==> IsAlnum(c) || c == '-') ==> fold(s) == s
  }

  function ToBaseSlug(fold: string -> string, title: string): string {
    var slug := Strip(Collapse(fold(title), NotAlnum(), '-'), IsHyphen());
    if slug == "" then ARTICLE_SLUG_FALLBACK else slug
  }

  // The slug is exactly the runs of letters and digits of the folded title, in order, or the fallback when
  // there are none.
  lemma BaseSlugIsRuns(fold: string -> string, title: string)
    ensures var runs := Runs(fold(title), NotAlnum());
            ToBaseSlug(fold, title) == if runs == [] then "article" else Join(runs, '-')
  {
    CollapseStripIsJoin(fold(title), NotAlnum(), IsHyphen(), '-');
    RunsAreRuns(fold(title), NotAlnum());
    if Runs(fold(title), NotAlnum()) != [] {
      JoinEnds(Runs(fold(title), NotAlnum()), NotAlnum(), '-');
    }
  }

  lemma BaseSlugIsNormal(fold: string -> string, title: string)
    ensures NormalForm(ToBaseSlug(fold, title))
  {
    BaseSlugIsRuns(fold, title);
    RunsAreRuns(fold(title), NotAlnum());
    var runs := Runs(fold(title), NotAlnum());
    var groups := if runs == [] then [ARTICLE_SLUG_FALLBACK] else runs;
    assert ToBaseSlug(fold, title) == Join(groups, '-');
  }

  lemma {:induction false} JoinAlphabet(groups: seq<string>)
    requires forall g :: g in groups ==> IsRun(g, NotAlnum())
    ensures forall c :: c in Join(groups, '-') ==> IsAlnum(c) || c == '-'
    decreases |groups|
  {
    if groups != [] {
      assert groups[0] in groups;
      JoinAlphabet(groups[1..]);
      assert forall c :: c in groups[0] ==> IsAlnum(c);
    }
  }

  // A slug in normal form is its own base slug; so `ToBaseSlug` is idempotent.
  lemma BaseSlugOfNormal(fold: string -> string, s: string)
    requires IsFolding(fold) && NormalForm(s)
    ensures ToBaseSlug(fold, s) == s
  {
    var groups :| groups != [] && (forall g :: g in groups ==> IsRun(g, NotAlnum())) && s == Join(groups, '-');
    JoinAlphabet(groups);
    assert fold(s) == s;
    BaseSlugIsRuns(fold, s);
    RunsOfJoin(groups, NotAlnum(), '-');
  }

  lemma BaseSlugIdempotent(fold: string -> string, title: string)
    requires IsFolding(fold)
    ensures ToBaseSlug(fold, ToBaseSlug(fold, title)) == ToBaseSlug(fold, title)
  {
    BaseSlugIsNormal(fold, title);
    BaseSlugOfNormal(fold, ToBaseSlug(fold, title));
  }

  function Suffixed(base: string, n: nat): string {
    base + "-" + Decimal(n)
  }

  lemma {:induction false} JoinSnoc(groups: seq<string>, g: string)
    requires groups != []
    ensures Join(groups + [g], '-') == Join(groups, '-') + "-" + g
    decreases |groups|
  {
    if |groups| == 1 {
      assert (groups + [g])[1..] == [g];
    } else {
      assert (groups + [g])[1..] == groups[1..] + [g];
      JoinSnoc(groups[1..], g);
    }
  }

  lemma SuffixedIsNormal(base: string, n: nat)
    requires NormalForm(base)
    ensures NormalForm(Suffixed(base, n))
  {
    var groups :| groups != [] && (forall g :: g in groups ==> IsRun(g, NotAlnum())) && base == Join(groups, '-');
    JoinSnoc(groups, Decimal(n));
    assert Suffixed(base, n) == Join(groups + [Decimal(n)], '-');
  }

  lemma SuffixedInjective(base: string, m: nat, n: nat)
    requires Suffixed(base, m) == Suffixed(base, n)
    ensures m == n
  {
    assert Suffixed(base, m)[|base| + 1..] == Decimal(m) && Suffixed(base, n)[|base| + 1..] == Decimal(n);
    DecimalInjective(m, n);
  }
}
