// Allocating a free slug while other writers go on (src/articles/article-slug.service.ts and
// src/articles/articles.repository.ts).
module SlugAllocator {
  import opened Options
  import opened Cardinality
  import opened Decimals
  import opened Slugs

  type Pid = nat
  type ArticleId = nat

  // ---------- Errors ----------

  datatype Target = Names(names: seq<string>) | Text(text: string)

  datatype DbError = KnownRequest(code: string, target: Target) | OtherError

  predicate Includes(s: string, part: string) {
    part <= s || (s != "" && Includes(s[1..], part))
  }

  predicate IsSlugConflict(e: DbError) {
    e.KnownRequest? && e.code == "P2002" &&
    match e.target
    case Names(names) => "slug" in names
    case Text(text) => Includes(text, "slug")
  }

  // A unique-constraint violation (P2002) on the column `slug`: Prisma names the column, or the index it is part of.
  ghost predicate OnSlug(e: DbError) {
    e.KnownRequest? && e.code == "P2002" &&
    match e.target
    case Names(names) => exists i :: 0 <= i < |names| && names[i] == "slug"
    case Text(text) => exists k :: 0 <= k <= |text| && "slug" <= text[k..]
  }

  lemma {:induction false} IncludesIff(s: string, part: string)
    ensures Includes(s, part) <==> exists k :: 0 <= k <= |s| && part <= s[k..]
    decreases |s|
  {
    assert s[0..] == s;
    if s != "" {
      IncludesIff(s[1..], part);
      assert forall k :: 1 <= k <= |s| ==> s[k..] == s[1..][k - 1..];
      if Includes(s[1..], part) {
        var k :| 0 <= k <= |s[1..]| && part <= s[1..][k..];
        assert s[k + 1..] == s[1..][k..];
      }
    }
  }

  // The service recognises exactly those.
  lemma SlugConflictIff(e: DbError)
    ensures IsSlugConflict(e) <==> OnSlug(e)
  {
    if e.KnownRequest? && e.target.Text? {
      IncludesIff(e.target.text, "slug");
    }
  }

  datatype Result<+T> = Ok(value: T) | Err(error: DbError)

  // ---------- The article table ----------

  // One committed change of the table, and who made it.
  datatype Commit = SlugSet(author: Pid, id: ArticleId, slug: string) | Removed(author: Pid, id: ArticleId)

  type SlugTable = map<ArticleId, string>

  function Replay(t: SlugTable, commits: seq<Commit>): SlugTable
    decreases |commits|
  {
    if commits == [] then t
    else
      Replay(match commits[0]
             case SlugSet(_, id, slug) => t[id := slug]
             case Removed(_, id) => t - {id},
             commits[1..])
  }

  lemma {:induction false} ReplayAppended(t: SlugTable, commits: seq<Commit>, more: seq<Commit>)
    ensures Replay(t, commits + more) == Replay(Replay(t, commits), more)
    decreases |commits|
  {
    if commits == [] {
      assert commits + more == more;
    } else {
      var t1 := match commits[0] case SlugSet(_, id, slug) => t[id := slug] case Removed(_, id) => t - {id};
      ReplayAppended(t1, commits[1..], more);
      assert (commits + more)[0] == commits[0] && (commits + more)[1..] == commits[1..] + more;
    }
  }

  // The unique index on `slug`.
  ghost predicate UniqueSlugs(t: SlugTable) {
    forall i, j :: i in t && j in t && t[i] == t[j] ==> i == j
  }

  // No article but `exclude` has the slug.
  ghost predicate FreeFor(t: SlugTable, exclude: Option<ArticleId>, slug: string) {
    forall j :: j in t && Some(j) != exclude ==> t[j] != slug
  }

  // Some other article took the slug by a commit.
  ghost predicate TakenBy(commits: seq<Commit>, i: int, exclude: Option<ArticleId>, slug: string) {
    0 <= i < |commits| && commits[i].SlugSet? && commits[i].slug == slug && Some(commits[i].id) != exclude
  }

  lemma {:induction false} TakenMeansCommit(t: SlugTable, commits: seq<Commit>, exclude: Option<ArticleId>,
                                            slug: string)
    returns (i: nat)
    requires FreeFor(t, exclude, slug) && !FreeFor(Replay(t, commits), exclude, slug)
    ensures TakenBy(commits, i, exclude, slug)
    decreases |commits|
  {
    var c := commits[0];
    if c.SlugSet? && c.slug == slug && Some(c.id) != exclude {
      return 0;
    }
    var t1 := match c case SlugSet(_, id, s) => t[id := s] case Removed(_, id) => t - {id};
    var k := TakenMeansCommit(t1, commits[1..], exclude, slug);
    i := k + 1;
  }

  // The slugs the search looks at: `base` and `base-...`, except the excluded article's.
  function Family(t: SlugTable, exclude: Option<ArticleId>, base: string): set<string> {
    set i | i in t && Some(i) != exclude && (t[i] == base || base + "-" <= t[i]) :: t[i]
  }

  class ArticlesRepository {
    var slugs: SlugTable
    var nextId: ArticleId
    ghost var log: seq<Commit>
    // Whether every write gets an answer from the database, and none is stopped by a tag created meanwhile.
    const reliable: bool

    ghost predicate Valid()
      reads this
    {
      UniqueSlugs(slugs) && forall i :: i in slugs ==> i < nextId
    }

    constructor (reliable: bool)
      ensures Valid() && slugs == map[] && log == [] && this.reliable == reliable
    {
      slugs, nextId, log := map[], 0, [];
      this.reliable := reliable;
    }

    method Breaks() returns (broken: bool)
      ensures reliable ==> !broken
    {
      broken := *;
      if reliable {
        broken := false;
      }
    }

    method FindSlugsByBase(base: string, exclude: Option<ArticleId>) returns (used: set<string>)
      ensures used == Family(slugs, exclude, base)
    {
      used := set i | i in slugs && Some(i) != exclude && (slugs[i] == base || base + "-" <= slugs[i]) :: slugs[i];
    }

    // Other requests creating, renaming and deleting articles: the caller learns only that they are not its own
    // and that the table is what they made of it.
    method Interfere(ghost me: Pid)
      requires Valid()
      modifies this
      ensures Valid() && Since(old(slugs), old(log), me)
    {
      assert log == log + [] && Replay(slugs, []) == slugs;
    }

    // The table is `t` after commits of others appended to `before`.
    ghost predicate Since(t: SlugTable, before: seq<Commit>, me: Pid)
      reads this
    {
      && |before| <= |log| && log[..|before|] == before
      && slugs == Replay(t, log[|before|..])
      && forall c :: c in log[|before|..] ==> c.author != me
    }

    method Create(ghost me: Pid, slug: string) returns (r: Result<ArticleId>)
      requires Valid()
      modifies this
      ensures Valid()
      ensures r.Ok? ==> r.value !in old(slugs)
      ensures r.Ok? ==> slugs == old(slugs)[r.value := slug] && log == old(log) + [SlugSet(me, r.value, slug)]
      ensures r.Err? ==> slugs == old(slugs) && log == old(log)
      ensures r.Err? && OnSlug(r.error) ==> !FreeFor(old(slugs), None, slug)
      ensures !FreeFor(old(slugs), None, slug) ==> r.Err? && (reliable ==> OnSlug(r.error))
      ensures reliable && FreeFor(old(slugs), None, slug) ==> r.Ok?
    {
      var broken := Breaks();
      if broken {
        return Err(OtherError);
      }
      if i :| i in slugs && slugs[i] == slug {
        assert ["slug"][0] == "slug";
        return Err(KnownRequest("P2002", Names(["slug"])));
      }
      broken := Breaks();
      if broken {
        // A tag created meanwhile by someone else.
        NameIsNotSlug();
        return Err(KnownRequest("P2002", Names(["name"])));
      }
      var id := nextId;
      slugs, nextId, log := slugs[id := slug], id + 1, log + [SlugSet(me, id, slug)];
      return Ok(id);
    }

    method Update(ghost me: Pid, id: ArticleId, slug: string) returns (r: Result<ArticleId>)
      requires Valid()
      modifies this
      ensures Valid()
      ensures r.Ok? ==> r.value == id && slugs == old(slugs)[id := slug] && log == old(log) + [SlugSet(me, id, slug)]
      ensures r.Err? ==> slugs == old(slugs) && log == old(log)
      ensures r.Err? && OnSlug(r.error) ==> !FreeFor(old(slugs), Some(id), slug)
      ensures id !in old(slugs) ==> r == Err(NoSuchArticle())
      ensures id in old(slugs) && !FreeFor(old(slugs), Some(id), slug) ==> r.Err? && (reliable ==> OnSlug(r.error))
      ensures reliable && id in old(slugs) && FreeFor(old(slugs), Some(id), slug) ==> r.Ok?
    {
      if id !in slugs {
        return Err(NoSuchArticle());
      }
      var broken := Breaks();
      if broken {
        return Err(OtherError);
      }
      if i :| i in slugs && i != id && slugs[i] == slug {
        assert ["slug"][0] == "slug";
        return Err(KnownRequest("P2002", Names(["slug"])));
      }
      slugs, log := slugs[id := slug], log + [SlugSet(me, id, slug)];
      return Ok(id);
    }
  }

  // What Prisma answers to an update of a row that is not there.
  function NoSuchArticle(): DbError {
    KnownRequest("P2025", Names([]))
  }

  lemma NameIsNotSlug()
    ensures !OnSlug(KnownRequest("P2002", Names(["name"])))
  {
    assert "name"[0] != "slug"[0];
  }

  // ---------- The search ----------

  // The base if it is free, else the base with the least free number from 2 on.
  ghost predicate FirstFree(used: set<string>, base: string, slug: string) {
    slug !in used &&
    (slug == base || (base in used && exists n: nat :: IsLeast(used, base, n) && slug == Suffixed(base, n)))
  }

  ghost predicate IsLeast(used: set<string>, base: string, n: nat) {
    && 2 <= n <= |used| + 1
    && Suffixed(base, n) !in used
    && forall m: nat :: 2 <= m < n ==> Suffixed(base, m) in used
  }

  // The slug the search answers on a table.
  ghost predicate Proposed(t: SlugTable, exclude: Option<ArticleId>, base: string, slug: string) {
    FirstFree(Family(t, exclude, base), base, slug)
  }

  // The fetched slugs suffice: what the search proposes is free in the whole table.
  lemma ProposedIsFree(t: SlugTable, exclude: Option<ArticleId>, base: string, slug: string)
    requires Proposed(t, exclude, base, slug)
    ensures FreeFor(t, exclude, slug)
  {
    assert slug == base || base + "-" <= slug;
    assert forall j :: j in t && Some(j) != exclude && t[j] == slug ==> t[j] in Family(t, exclude, base);
  }

  // The first two articles of a title.
  lemma FirstTwo(used: set<string>, base: string, slug: string)
    requires FirstFree(used, base, slug)
    ensures base !in used ==> slug == base
    ensures base in used && base + "-2" !in used ==> slug == base + "-2"
  {
    assert Suffixed(base, 2) == base + "-2" by {
      assert Decimal(2) == "2";
    }
  }

  // Renaming excludes the article's own slug from the search, and only that: the search answers as if the article
  // were not there. So an article whose title still gives its slug keeps it.
  lemma RenamingIgnoresOwnSlug(t: SlugTable, id: ArticleId, base: string, slug: string)
    ensures Proposed(t, Some(id), base, slug) <==> Proposed(t - {id}, None, base, slug)
  {
    assert Family(t, Some(id), base) == Family(t - {id}, None, base);
  }

  lemma SameTitleKeepsSlug(t: SlugTable, id: ArticleId, base: string)
    requires UniqueSlugs(t) && id in t && t[id] == base
    ensures Proposed(t, Some(id), base, base)
  {
    assert base !in Family(t, Some(id), base);
  }

  // The fetched slugs leave the search no choice.
  lemma FirstFreeIsUnique(used: set<string>, base: string, a: string, b: string)
    requires FirstFree(used, base, a) && FirstFree(used, base, b)
    ensures a == b
  {
    if a != base && b != base {
      var m: nat :| IsLeast(used, base, m) && a == Suffixed(base, m);
      var n: nat :| IsLeast(used, base, n) && b == Suffixed(base, n);
      assert m == n;
    }
  }

  // The numbered slugs passed over so far.
  function Tried(base: string, suffix: nat): set<string> {
    set m: nat | 2 <= m < suffix :: Suffixed(base, m)
  }

  lemma SuffixIsNew(base: string, suffix: nat)
    ensures Suffixed(base, suffix) !in Tried(base, suffix)
  {
    if m: nat :| 2 <= m < suffix && Suffixed(base, m) == Suffixed(base, suffix) {
      SuffixedInjective(base, m, suffix);
      assert false;
    }
  }

  lemma TriedGrows(base: string, suffix: nat)
    requires suffix >= 2
    ensures Tried(base, suffix + 1) == Tried(base, suffix) + {Suffixed(base, suffix)}
  {
  }

  lemma BaseNotTried(base: string, suffix: nat)
    ensures base !in Tried(base, suffix)
  {
    assert forall m: nat :: |Suffixed(base, m)| > |base|;
  }

  // Each of them uses up one more slug of the finite set, besides the base: the pigeonhole behind the search.
  lemma {:induction false} TriedCount(base: string, suffix: nat)
    requires suffix >= 2
    ensures |Tried(base, suffix)| == suffix - 2
  {
    if suffix == 2 {
      assert Tried(base, suffix) == {};
    } else {
      TriedCount(base, suffix - 1);
      SuffixIsNew(base, suffix - 1);
      TriedGrows(base, suffix - 1);
    }
  }

  lemma SuffixBound(used: set<string>, base: string, suffix: nat)
    requires suffix >= 2 && base in used && Tried(base, suffix) <= used
    ensures suffix <= |used| + 1
  {
    TriedCount(base, suffix);
    BaseNotTried(base, suffix);
    CardinalityMonotone(Tried(base, suffix) + {base}, used);
  }

  method LeastFreeSuffix(used: set<string>, base: string) returns (suffix: nat)
    requires base in used
    ensures IsLeast(used, base, suffix)
  {
    suffix := 2;
    SuffixBound(used, base, suffix);
    while Suffixed(base, suffix) in used
      invariant 2 <= suffix <= |used| + 1
      invariant forall m: nat :: 2 <= m < suffix ==> Suffixed(base, m) in used
      decreases |used| + 1 - suffix
    {
      suffix := suffix + 1;
      SuffixBound(used, base, suffix);
    }
  }

  // What the callback writes, and with it which article the read leaves out.
  datatype WriteKind = CreateArticle | UpdateArticle(id: ArticleId)

  function Excluded(write: WriteKind): Option<ArticleId> {
    if write.UpdateArticle? then Some(write.id) else None
  }

  // Which row a successful write sets: a new one, or the article being renamed.
  ghost predicate WritesTo(write: WriteKind, t: SlugTable, id: ArticleId) {
    if write.UpdateArticle? then id == write.id else id !in t
  }

  // One attempt: the log when it read the table and when it wrote, and the slug it tried.
  datatype Window = Window(read: nat, write: nat, slug: string)

  // An article other than the excluded one took the slug, by someone else's commit, inside the window.
  ghost predicate Interfered(log: seq<Commit>, w: Window, me: Pid, exclude: Option<ArticleId>) {
    exists i :: w.read <= i < w.write && TakenBy(log, i, exclude, w.slug) && log[i].author != me
  }

  ghost predicate NoneBy(commits: seq<Commit>, me: Pid) {
    forall c :: c in commits ==> c.author != me
  }

  lemma InterferedLater(log: seq<Commit>, more: seq<Commit>, w: Window, me: Pid, exclude: Option<ArticleId>)
    requires Interfered(log, w, me, exclude) && w.write <= |log| && log <= more
    ensures Interfered(more, w, me, exclude)
  {
    var i :| w.read <= i < w.write && TakenBy(log, i, exclude, w.slug) && log[i].author != me;
    assert TakenBy(more, i, exclude, w.slug) && more[i] == log[i];
  }

  // Disjoint windows, one after the other, in each of which someone else took the slug being tried: as many
  // distinct interfering commits as windows.
  ghost predicate LostRaces(log: seq<Commit>, since: nat, windows: seq<Window>, me: Pid, exclude: Option<ArticleId>) {
    && (forall k :: 0 <= k < |windows| ==>
          since <= windows[k].read <= windows[k].write <= |log| && Interfered(log, windows[k], me, exclude))
    && (forall j, k :: 0 <= j < k < |windows| ==> windows[j].write <= windows[k].read)
  }

  lemma LostRacesLater(log: seq<Commit>, more: seq<Commit>, since: nat, windows: seq<Window>, me: Pid,
                       exclude: Option<ArticleId>)
    requires LostRaces(log, since, windows, me, exclude) && log <= more
    ensures LostRaces(more, since, windows, me, exclude)
  {
    forall k | 0 <= k < |windows|
      ensures Interfered(more, windows[k], me, exclude)
    {
      InterferedLater(log, more, windows[k], me, exclude);
    }
  }

  // A conflict is answered only after three distinct commits of others, in three disjoint windows.
  lemma ConflictMeansThreeCommits(log: seq<Commit>, since: nat, lost: seq<Window>, me: Pid, exclude: Option<ArticleId>)
    returns (i: nat, j: nat, k: nat)
    requires LostRaces(log, since, lost, me, exclude) && |lost| == 3
    ensures since <= i < j < k < |log|
    ensures lost[0].read <= i < lost[0].write <= lost[1].read <= j < lost[1].write <= lost[2].read <= k < lost[2].write
    ensures TakenBy(log, i, exclude, lost[0].slug) && TakenBy(log, j, exclude, lost[1].slug)
            && TakenBy(log, k, exclude, lost[2].slug)
    ensures log[i].author != me && log[j].author != me && log[k].author != me
  {
    i :| lost[0].read <= i < lost[0].write && TakenBy(log, i, exclude, lost[0].slug) && log[i].author != me;
    j :| lost[1].read <= j < lost[1].write && TakenBy(log, j, exclude, lost[1].slug) && log[j].author != me;
    k :| lost[2].read <= k < lost[2].write && TakenBy(log, k, exclude, lost[2].slug) && log[k].author != me;
  }

  // Where `execute` stands: the log grew by others' commits only, the table is what they made of it, and each
  // attempt so far lost its race.
  ghost predicate Standing(t0: SlugTable, log0: seq<Commit>, t: SlugTable, log: seq<Commit>, lost: seq<Window>, me: Pid,
                           exclude: Option<ArticleId>) {
    && log0 <= log
    && t == Replay(t0, log[|log0|..])
    && LostRaces(log, |log0|, lost, me, exclude)
    && NoneBy(log[|log0|..], me)
  }

  ghost predicate LostBy(lost: seq<Window>, now: nat) {
    forall w :: w in lost ==> w.write <= now
  }

  // One more window, after all others.
  lemma RaceLost(t0: SlugTable, log0: seq<Commit>, t: SlugTable, log: seq<Commit>, lost: seq<Window>, me: Pid,
                 exclude: Option<ArticleId>, w: Window)
    requires Standing(t0, log0, t, log, lost, me, exclude)
    requires |log0| <= w.read <= w.write == |log| && Interfered(log, w, me, exclude) && LostBy(lost, w.read)
    ensures Standing(t0, log0, t, log, lost + [w], me, exclude)
  {
    assert forall k :: 0 <= k < |lost| ==> lost[k] in lost;
  }

  // Others' commits, `theirs`, then perhaps the own one, `mine`.
  lemma StandingLater(t0: SlugTable, log0: seq<Commit>, t: SlugTable, log: seq<Commit>, lost: seq<Window>, me: Pid,
                      exclude: Option<ArticleId>, theirs: seq<Commit>, mine: seq<Commit>)
    requires Standing(t0, log0, t, log, lost, me, exclude) && NoneBy(theirs, me)
    ensures Standing(t0, log0, Replay(t, theirs), log + theirs, lost, me, exclude)
    ensures Replay(t, theirs + mine) == Replay(t0, (log + theirs + mine)[|log0|..])
    ensures LostRaces(log + theirs + mine, |log0|, lost, me, exclude)
  {
    assert (log + theirs)[|log0|..] == log[|log0|..] + theirs;
    ReplayAppended(t0, log[|log0|..], theirs);
    assert (log + theirs + mine)[|log0|..] == log[|log0|..] + (theirs + mine);
    ReplayAppended(t0, log[|log0|..], theirs + mine);
    LostRacesLater(log, log + theirs, |log0|, lost, me, exclude);
    LostRacesLater(log, log + theirs + mine, |log0|, lost, me, exclude);
  }

  datatype Outcome = Written(id: ArticleId, slug: string) | Conflict | Rethrown(error: DbError)

  class ArticleSlugService {
    const articles: ArticlesRepository
    const fold: string -> string

    constructor (articles: ArticlesRepository, fold: string -> string)
      ensures this.articles == articles && this.fold == fold
    {
      this.articles, this.fold := articles, fold;
    }

    method CreateCandidate(title: string, exclude: Option<ArticleId>) returns (slug: string)
      ensures Proposed(articles.slugs, exclude, ToBaseSlug(fold, title), slug)
      ensures FreeFor(articles.slugs, exclude, slug)
      ensures NormalForm(slug)
    {
      var base := ToBaseSlug(fold, title);
      BaseSlugIsNormal(fold, title);
      var used := articles.FindSlugsByBase(base, exclude);
      slug := base;
      if base in used {
        var suffix := LeastFreeSuffix(used, base);
        slug := Suffixed(base, suffix);
        SuffixedIsNormal(base, suffix);
      }
      ProposedIsFree(articles.slugs, exclude, base, slug);
    }

    method Write(ghost me: Pid, write: WriteKind, slug: string) returns (r: Result<ArticleId>)
      requires articles.Valid()
      modifies articles
      ensures articles.Valid()
      ensures r.Ok? ==> WritesTo(write, old(articles.slugs), r.value)
      ensures r.Ok? ==>
                && articles.slugs == old(articles.slugs)[r.value := slug]
                && articles.log == old(articles.log) + [SlugSet(me, r.value, slug)]
      ensures r.Err? ==> articles.slugs == old(articles.slugs) && articles.log == old(articles.log)
      ensures r.Err? && OnSlug(r.error) ==> !FreeFor(old(articles.slugs), Excluded(write), slug)
      ensures articles.reliable && r.Err? && !OnSlug(r.error) ==> write.UpdateArticle? && r.error == NoSuchArticle()
    {
      match write
      case CreateArticle => r := articles.Create(me, slug);
      case UpdateArticle(id) => r := articles.Update(me, id, slug);
    }

    // One read-to-write window, with what others committed in it and, after a success, the own commit.
    method Attempt(ghost me: Pid, title: string, write: WriteKind)
      returns (slug: string, r: Result<ArticleId>, ghost theirs: seq<Commit>, ghost mine: seq<Commit>)
      requires articles.Valid()
      modifies articles
      ensures articles.Valid() && NormalForm(slug)
      ensures Proposed(old(articles.slugs), Excluded(write), ToBaseSlug(fold, title), slug)
      ensures NoneBy(theirs, me) && mine == if r.Ok? then [SlugSet(me, r.value, slug)] else []
      ensures articles.log == old(articles.log) + theirs + mine
      ensures articles.slugs == Replay(old(articles.slugs), theirs + mine)
      ensures r.Ok? ==> WritesTo(write, Replay(old(articles.slugs), theirs), r.value)
      ensures r.Ok? ==> r.value in articles.slugs && articles.slugs[r.value] == slug
      ensures articles.reliable && r.Err? && !OnSlug(r.error) ==> write.UpdateArticle? && r.error == NoSuchArticle()
      ensures r.Err? && OnSlug(r.error) ==>
                Interfered(articles.log, Window(|old(articles.log)|, |articles.log|, slug), me, Excluded(write))
    {
      slug := CreateCandidate(title, Excluded(write));
      ghost var before, t := articles.log, articles.slugs;
      articles.Interfere(me);
      theirs := articles.log[|before|..];
      r := Write(me, write, slug);
      mine := if r.Ok? then [SlugSet(me, r.value, slug)] else [];
      ReplayAppended(t, theirs, mine);
      if r.Err? && OnSlug(r.error) {
        var i := TakenMeansCommit(t, theirs, Excluded(write), slug);
        assert theirs[i] in theirs && articles.log[|before| + i] == theirs[i];
        assert TakenBy(articles.log, |before| + i, Excluded(write), slug);
      }
    }

    // At most three writes, of which at most one takes effect; a conflict is reported only after three lost
    // races.
    method Execute(ghost me: Pid, title: string, write: WriteKind) returns (outcome: Outcome, ghost lost: seq<Window>)
      requires articles.Valid()
      modifies articles
      ensures articles.Valid()
      ensures !outcome.Written? ==>
                Standing(old(articles.slugs), old(articles.log), articles.slugs, articles.log, lost, me,
                         Excluded(write))
      ensures outcome.Conflict? ==> |lost| == 3
      ensures !outcome.Conflict? ==> |lost| <= 2
      ensures outcome.Rethrown? ==> !OnSlug(outcome.error)
      ensures articles.reliable && outcome.Rethrown? ==> write.UpdateArticle? && outcome.error == NoSuchArticle()
      ensures outcome.Written? ==>
                && NormalForm(outcome.slug)
                && OneOwnCommit(old(articles.slugs), old(articles.log), articles.slugs, articles.log, me, write,
                                outcome.id, outcome.slug)
                && ProposedSince(old(articles.slugs), |old(articles.log)|, articles.log, Excluded(write),
                                 ToBaseSlug(fold, title), outcome.slug)
                && LostRaces(articles.log, |old(articles.log)|, lost, me, Excluded(write))
    {
      ghost var t0, log0 := articles.slugs, articles.log;
      lost := [];
      var attempt := 0;
      while attempt < SLUG_GENERATION_MAX_RETRIES
        invariant 0 <= attempt == |lost| <= SLUG_GENERATION_MAX_RETRIES
        invariant articles.Valid()
        invariant Standing(t0, log0, articles.slugs, articles.log, lost, me, Excluded(write))
        invariant LostBy(lost, |articles.log|)
      {
        ghost var t, log := articles.slugs, articles.log;
        ghost var theirs, mine;
        var slug, r;
        slug, r, theirs, mine := Attempt(me, title, write);
        if r.Ok? {
          OwnCommitLast(t0, log0, t, log, lost, theirs, me, write, ToBaseSlug(fold, title), r.value, slug);
          return Written(r.value, slug), lost;
        }
        assert articles.log == log + theirs && theirs + mine == theirs;
        StandingLater(t0, log0, t, log, lost, me, Excluded(write), theirs, []);
        SlugConflictIff(r.error);
        if !IsSlugConflict(r.error) {
          return Rethrown(r.error), lost;
        }
        RaceLost(t0, log0, articles.slugs, articles.log, lost, me, Excluded(write),
                 Window(|log|, |articles.log|, slug));
        lost := lost + [Window(|log|, |articles.log|, slug)];
        attempt := attempt + 1;
      }
      outcome := Conflict;
    }
  }

  // The own commit is the last one and the only own one, it sets the row the caller asked for, and the table is
  // what all commits made of it.
  ghost predicate OneOwnCommit(t0: SlugTable, log0: seq<Commit>, t: SlugTable, log: seq<Commit>, me: Pid,
                               write: WriteKind, id: ArticleId, slug: string) {
    && |log0| < |log| && log0 <= log
    && t == Replay(t0, log[|log0|..])
    && log[|log| - 1] == SlugSet(me, id, slug)
    && NoneBy(log[|log0|..|log| - 1], me)
    && WritesTo(write, Replay(t0, log[|log0|..|log| - 1]), id)
  }

  // The slug is what the search answers on the table as it was at some moment of the call.
  ghost predicate ProposedSince(t0: SlugTable, since: nat, log: seq<Commit>, exclude: Option<ArticleId>, base: string,
                                slug: string) {
    exists read :: since <= read < |log| && Proposed(Replay(t0, log[since..read]), exclude, base, slug)
  }

  lemma OwnCommitLast(t0: SlugTable, log0: seq<Commit>, t: SlugTable, log: seq<Commit>, lost: seq<Window>,
                      theirs: seq<Commit>, me: Pid, write: WriteKind, base: string, id: ArticleId, slug: string)
    requires Standing(t0, log0, t, log, lost, me, Excluded(write)) && NoneBy(theirs, me)
    requires WritesTo(write, Replay(t, theirs), id) && Proposed(t, Excluded(write), base, slug)
    ensures var own := [SlugSet(me, id, slug)];
            && OneOwnCommit(t0, log0, Replay(t, theirs + own), log + theirs + own, me, write, id, slug)
            && ProposedSince(t0, |log0|, log + theirs + own, Excluded(write), base, slug)
            && LostRaces(log + theirs + own, |log0|, lost, me, Excluded(write))
  {
    var own := [SlugSet(me, id, slug)];
    var all := log + theirs + own;
    StandingLater(t0, log0, t, log, lost, me, Excluded(write), theirs, own);
    assert all[|log0|..|all| - 1] == (log + theirs)[|log0|..];
    assert all[|log0|..|log|] == log[|log0|..];
  }
}
