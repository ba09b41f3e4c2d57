/**
 * The fact-check page: the published posts of the page's list, newest first.
 * Dates are day keys.
 */
module FactCheck {
  import opened Seqs
  import opened CivilDates

  /** A post; its excerpt and body text are page copy and not part of this model. */
  datatype FactCheckPost = FactCheckPost(id: int, title: string, author: string, date: int, published: bool)

  /** The page's three posts; post 2 is private. */
  const AllFactCheckPosts: seq<FactCheckPost> := [
    FactCheckPost(1, "Security Issue Politicized", "Admin", DayKey(2024, 1, 15), true),
    FactCheckPost(2, "Telling the Truth", "Admin", DayKey(2024, 1, 10), false),
    FactCheckPost(3, "Budget Facts and Fiction", "Admin", DayKey(2024, 1, 20), true)
  ]

  predicate IsPublished(post: FactCheckPost) {
    post.published
  }

  /** The key of `(a, b) => b.date - a.date`: sorting by it ascending puts the newest post first. */
  function NewestFirst(post: FactCheckPost): int {
    -post.date
  }

  /**
   * `allFactCheckPosts.filter(post => post.published).sort(newest first)`:
   * only published posts, each published post exactly as often as in the
   * list, and dates never increasing along the result.
   */
  function FactCheckPosts(all: seq<FactCheckPost>): (r: seq<FactCheckPost>)
    ensures forall i :: 0 <= i < |r| ==> r[i].published
    ensures forall p :: multiset(r)[p] == if p.published then multiset(all)[p] else 0
    ensures forall i, j :: 0 <= i < j < |r| ==> r[i].date >= r[j].date
  {
    var published := Filter(all, IsPublished);
    var r := SortBy(published, NewestFirst);
    forall p
      ensures multiset(r)[p] == if p.published then multiset(all)[p] else 0
    {
      FilterCount(all, IsPublished, p);
    }
    forall i | 0 <= i < |r|
      ensures r[i].published
    {
      assert r[i] in multiset(r);
    }
    assert forall i, j :: 0 <= i < j < |r| ==> NewestFirst(r[i]) <= NewestFirst(r[j]);
    r
  }

  /** Posts of the same day keep their list order (`key` is minus the day). */
  lemma SameDayInListOrder(all: seq<FactCheckPost>, key: int)
    ensures WithKey(FactCheckPosts(all), NewestFirst, key) == WithKey(Filter(all, IsPublished), NewestFirst, key)
  {
    SortByStable(Filter(all, IsPublished), NewestFirst, key);
  }

  /** Post 2 is the only private post of the page. */
  lemma BuiltInPublished()
    ensures Filter(AllFactCheckPosts, IsPublished) == [AllFactCheckPosts[0], AllFactCheckPosts[2]]
  {
    var s := AllFactCheckPosts;
    assert s[1..][1..][1..] == [];
    assert Filter(s[1..][1..], IsPublished) == [s[2]];
    assert Filter(s[1..], IsPublished) == [s[2]];
  }

  /** Post 3 is five days newer than post 1. */
  lemma BuiltInDates()
    ensures AllFactCheckPosts[2].date == AllFactCheckPosts[0].date + 5
  {
    DayKeyShift(2024, 1, 15);
    DayKeyShift(2024, 1, 20);
  }

  /** On the page's own posts, post 2 is left out and post 3 (20 January) comes before post 1 (15 January). */
  lemma BuiltInPostsOrder()
    ensures FactCheckPosts(AllFactCheckPosts) == [AllFactCheckPosts[2], AllFactCheckPosts[0]]
  {
    var p1, p3 := AllFactCheckPosts[0], AllFactCheckPosts[2];
    BuiltInPublished();
    BuiltInDates();
    assert FactCheckPosts(AllFactCheckPosts) == SortBy([p1, p3], NewestFirst);
    NewerFirst(p1, p3);
  }

  /** Of two posts, the newer one is shown first. */
  lemma NewerFirst(older: FactCheckPost, newer: FactCheckPost)
    requires older.date < newer.date
    ensures SortBy([older, newer], NewestFirst) == [newer, older]
  {
    assert [older, newer][1..] == [newer];
    assert SortBy([newer], NewestFirst) == [newer] by {
      assert [newer][1..] == [];
    }
    assert InsertBy(older, [newer], NewestFirst) == [newer] + InsertBy(older, [], NewestFirst);
  }
}
