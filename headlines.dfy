/** The "Regional News" section (app.py, end of script): at most five headlines,
    each title shown once, the first article with a given title winning. */
module Headlines {
  import opened Wrappers
  import opened News

  const MAX_ARTICLE_COUNT: nat := 5

  /** Python's `articles[:MAX_ARTICLE_COUNT]`. */
  function Window(articles: seq<Article>): seq<Article> {
    if |articles| <= MAX_ARTICLE_COUNT then articles else articles[..MAX_ARTICLE_COUNT]
  }

  /** No earlier article of `w` has the title of `w[i]`. */
  predicate FirstWithTitle(w: seq<Article>, i: int)
    requires 0 <= i < |w|
  {
    forall j :: 0 <= j < i ==> w[j].title != w[i].title
  }

  /** The articles among the first `k` of `w` that are the first with their title, in order. */
  function FirstOccurrences(w: seq<Article>, k: nat): seq<Article>
    requires k <= |w|
  {
    if k == 0 then []
    else FirstOccurrences(w, k - 1) + (if FirstWithTitle(w, k - 1) then [w[k - 1]] else [])
  }

  ghost predicate TitlesDistinct(s: seq<Article>) {
    forall i, j :: 0 <= i < j < |s| ==> s[i].title != s[j].title
  }

  function TitlesOf(s: seq<Article>): set<Option<string>> {
    set a | a in s :: a.title
  }

  /** Only articles that are the first with their title are kept. */
  lemma {:induction false} KeptArticlesAreFirst(w: seq<Article>, k: nat)
    requires k <= |w|
    ensures forall a :: a in FirstOccurrences(w, k) ==>
              exists i :: 0 <= i < k && w[i] == a && FirstWithTitle(w, i)
  {
    if k > 0 {
      KeptArticlesAreFirst(w, k - 1);
    }
  }

  /** Every article that is the first with its title is kept. */
  lemma {:induction false} FirstArticlesAreKept(w: seq<Article>, k: nat)
    requires k <= |w|
    ensures forall i :: 0 <= i < k && FirstWithTitle(w, i) ==> w[i] in FirstOccurrences(w, k)
  {
    if k > 0 {
      FirstArticlesAreKept(w, k - 1);
      var prev := FirstOccurrences(w, k - 1);
      var kept := FirstOccurrences(w, k);
      assert kept == prev + (if FirstWithTitle(w, k - 1) then [w[k - 1]] else []);
      forall i | 0 <= i < k && FirstWithTitle(w, i)
        ensures w[i] in kept
      {
        if i < k - 1 {
          assert w[i] in prev;
        }
      }
    }
  }

  /** The kept articles have pairwise distinct titles, and there are at most `k` of them. */
  lemma {:induction false} KeptTitlesDistinct(w: seq<Article>, k: nat)
    requires k <= |w|
    ensures |FirstOccurrences(w, k)| <= k
    ensures TitlesDistinct(FirstOccurrences(w, k))
  {
    if k > 0 {
      KeptTitlesDistinct(w, k - 1);
      var prev := FirstOccurrences(w, k - 1);
      if FirstWithTitle(w, k - 1) {
        KeptArticlesAreFirst(w, k - 1);
        forall i | 0 <= i < |prev|
          ensures prev[i].title != w[k - 1].title
        {
          assert prev[i] in prev;
          var j :| 0 <= j < k - 1 && w[j] == prev[i] && FirstWithTitle(w, j);
        }
      }
    }
  }

  /** Every title among the first `k` articles is shown once. */
  lemma {:induction false} KeptTitlesCoverWindow(w: seq<Article>, k: nat)
    requires k <= |w|
    ensures TitlesOf(FirstOccurrences(w, k)) == TitlesOf(w[..k])
  {
    if k > 0 {
      KeptTitlesCoverWindow(w, k - 1);
      var last := w[k - 1];
      assert w[..k] == w[..k - 1] + [last];
      assert TitlesOf(w[..k]) == TitlesOf(w[..k - 1]) + {last.title};
      if !FirstWithTitle(w, k - 1) {
        var j :| 0 <= j < k - 1 && w[j].title == last.title;
        assert w[..k - 1][j] == w[j];
        assert w[j].title in TitlesOf(w[..k - 1]);
      } else {
        assert TitlesOf(FirstOccurrences(w, k)) == TitlesOf(FirstOccurrences(w, k - 1)) + {last.title};
      }
    }
  }

  /** The display loop: walks the first five articles, showing one whenever its title
      has not been shown yet, and records the titles shown so far. */
  method ShowUniqueHeadlines(articles: seq<Article>) returns (shown: seq<Article>)
    ensures shown == FirstOccurrences(Window(articles), |Window(articles)|)
    ensures |shown| <= MAX_ARTICLE_COUNT
    ensures TitlesDistinct(shown)
    ensures TitlesOf(shown) == TitlesOf(Window(articles))
  {
    var window := Window(articles);
    var shownTitles: set<Option<string>> := {};
    shown := [];
    for i := 0 to |window|
      invariant shown == FirstOccurrences(window, i)
      invariant shownTitles == TitlesOf(window[..i])
    {
      var title := window[i].title;
      assert window[..i + 1] == window[..i] + [window[i]];
      if title !in shownTitles {
        shown := shown + [window[i]];
        shownTitles := shownTitles + {title};
      } else {
        var a :| a in window[..i] && a.title == title;
      }
    }
    KeptTitlesDistinct(window, |window|);
    KeptTitlesCoverWindow(window, |window|);
    assert window[..|window|] == window;
  }
}
