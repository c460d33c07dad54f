/**
 * The spotlight search of the launcher: every application of the catalogue
 * with the name of its category, a case-insensitive substring filter with
 * title-prefix matches ranked first, and the keyboard selection over the
 * results.
 */
module Search {
  import opened Wrappers
  import opened SeqUtil
  import opened JsStrings
  import opened Catalog
  import opened Icons

  /** A search entry: the card's own members plus `category`, the name of its category. */
  datatype App = App(card: Card, category: string)

  /** `collectAllApps()`: the cards of every category but `all` and `favorites`, tagged with the category name. */
  function AllApps(cats: seq<Category>): seq<App> {
    if cats == [] then []
    else
      var last := cats[|cats| - 1];
      AllApps(cats[..|cats| - 1]) + (if last.id != AllId && last.id != FavoritesId then Tagged(last.cards, last.name) else [])
  }

  function Tagged(cards: seq<Card>, name: string): (apps: seq<App>)
    ensures |apps| == |cards|
    ensures forall k :: 0 <= k < |cards| ==> apps[k] == App(cards[k], name)
  {
    if cards == [] then [] else Tagged(cards[..|cards| - 1], name) + [App(cards[|cards| - 1], name)]
  }

  /** Category `c` contributes entry `a` to the search. */
  predicate Collects(c: Category, a: App) {
    c.id != AllId && c.id != FavoritesId && a.card in c.cards && a.category == c.name
  }

  /**
   * An entry is collected exactly when some category other than `all` and
   * `favorites` holds its card under its name. Neither the tech-mode rule
   * nor the NHQ rule of the card views applies here.
   */
  lemma {:induction false} AllAppsMembers(cats: seq<Category>, a: App)
    ensures a in AllApps(cats) <==> exists i :: 0 <= i < |cats| && Collects(cats[i], a)
  {
    if cats != [] {
      var init := cats[..|cats| - 1];
      var last := cats[|cats| - 1];
      var tail := if last.id != AllId && last.id != FavoritesId then Tagged(last.cards, last.name) else [];
      assert AllApps(cats) == AllApps(init) + tail;
      assert a in tail <==> Collects(last, a) by {
        TaggedMembers(last.cards, last.name, a);
      }
      AllAppsMembers(init, a);
      SomeCategoryCollects(cats, init, a);
    }
  }

  lemma SomeCategoryCollects(cats: seq<Category>, init: seq<Category>, a: App)
    requires cats != [] && init == cats[..|cats| - 1]
    ensures (exists i :: 0 <= i < |cats| && Collects(cats[i], a))
      <==> (exists i :: 0 <= i < |init| && Collects(init[i], a)) || Collects(cats[|cats| - 1], a)
  {
    if exists i :: 0 <= i < |cats| && Collects(cats[i], a) {
      var i :| 0 <= i < |cats| && Collects(cats[i], a);
      if i < |init| {
        assert init[i] == cats[i];
      }
    }
    if exists i :: 0 <= i < |init| && Collects(init[i], a) {
      var i :| 0 <= i < |init| && Collects(init[i], a);
      assert cats[i] == init[i];
    }
  }

  lemma TaggedMembers(cards: seq<Card>, name: string, a: App)
    ensures a in Tagged(cards, name) <==> a.card in cards && a.category == name
  {
    var apps := Tagged(cards, name);
    if a in apps {
      var k :| 0 <= k < |apps| && apps[k] == a;
    }
    if a.card in cards && a.category == name {
      var k :| 0 <= k < |cards| && cards[k] == a.card;
      assert apps[k] == a;
    }
  }

  // ----- performSearch -----

  /** The filter of `performSearch`: the lower-cased query occurs in the title, the description or the category. */
  predicate Matches(q: string, a: App) {
    Contains(ToLower(a.card.title), q) || Contains(ToLower(a.card.description), q) || Contains(ToLower(a.category), q)
  }

  /** The ranking key: the lower-cased title starts with the lower-cased query. */
  predicate TitleMatch(q: string, a: App) {
    StartsWith(ToLower(a.card.title), q)
  }

  function MatchesQuery(q: string): App -> bool {
    a => Matches(q, a)
  }

  function TitleFirst(q: string): App -> bool {
    a => TitleMatch(q, a)
  }

  /**
   * `performSearch(query)`: nothing for a blank query; otherwise the matching
   * entries, title-prefix matches first. The comparator ranks only by that
   * key and the sort is stable, so each group keeps the order of the
   * collected list.
   */
  function SearchResults(apps: seq<App>, query: string): seq<App> {
    if IsBlank(query) then []
    else
      var q := ToLower(query);
      var matching := Filter(apps, MatchesQuery(q));
      Filter(matching, TitleFirst(q)) + Filter(matching, Not(TitleFirst(q)))
  }

  /** A query made of white space alone finds nothing. */
  lemma WhitespaceQueryFindsNothing(apps: seq<App>, query: string)
    requires forall i :: 0 <= i < |query| ==> IsJsWhitespace(query[i])
    ensures SearchResults(apps, query) == []
  {
    BlankIffAllWhitespace(query);
  }

  /** An entry is a result exactly when the query is not blank and the entry matches it. */
  lemma ResultsMatch(apps: seq<App>, query: string, a: App)
    ensures a in SearchResults(apps, query) <==> !IsBlank(query) && a in apps && Matches(ToLower(query), a)
  {
    if !IsBlank(query) {
      var q := ToLower(query);
      var matching := Filter(apps, MatchesQuery(q));
      FilterContains(apps, MatchesQuery(q), a);
      FilterContains(matching, TitleFirst(q), a);
      FilterContains(matching, Not(TitleFirst(q)), a);
    }
  }

  /** The ranking only reorders: the results are a permutation of the matching entries. */
  lemma ResultsPermute(apps: seq<App>, query: string)
    requires !IsBlank(query)
    ensures multiset(SearchResults(apps, query)) == multiset(Filter(apps, MatchesQuery(ToLower(query))))
  {
    var q := ToLower(query);
    FilterSplitMultiset(Filter(apps, MatchesQuery(q)), TitleFirst(q));
  }

  /** No entry whose title starts with the query comes after one whose title does not. */
  lemma TitleMatchesFirst(apps: seq<App>, query: string, i: nat, j: nat)
    requires i < j < |SearchResults(apps, query)|
    requires TitleMatch(ToLower(query), SearchResults(apps, query)[j])
    ensures TitleMatch(ToLower(query), SearchResults(apps, query)[i])
  {
    var q := ToLower(query);
    var matching := Filter(apps, MatchesQuery(q));
    var first := Filter(matching, TitleFirst(q));
    var rest := Filter(matching, Not(TitleFirst(q)));
    FilterMembers(matching, TitleFirst(q));
    FilterMembers(matching, Not(TitleFirst(q)));
    assert SearchResults(apps, query)[i] == first[i];
  }

  /** Within each group the results keep the order of the collected list. */
  lemma ResultsStable(apps: seq<App>, query: string)
    requires !IsBlank(query)
    ensures var q := ToLower(query);
      Filter(SearchResults(apps, query), TitleFirst(q)) == Filter(Filter(apps, MatchesQuery(q)), TitleFirst(q))
    ensures var q := ToLower(query);
      Filter(SearchResults(apps, query), Not(TitleFirst(q))) == Filter(Filter(apps, MatchesQuery(q)), Not(TitleFirst(q)))
  {
    var q := ToLower(query);
    var matching := Filter(apps, MatchesQuery(q));
    var first := Filter(matching, TitleFirst(q));
    var rest := Filter(matching, Not(TitleFirst(q)));
    FilterMembers(matching, TitleFirst(q));
    FilterMembers(matching, Not(TitleFirst(q)));
    FilterConcat(first, rest, TitleFirst(q));
    FilterAll(first, TitleFirst(q));
    FilterNone(rest, TitleFirst(q));
    FilterConcat(first, rest, Not(TitleFirst(q)));
    FilterNone(first, Not(TitleFirst(q)));
    FilterAll(rest, Not(TitleFirst(q)));
  }

  // ----- the search panel -----

  /** The keys `handleKeyNavigation` reacts to, and any other key. */
  datatype Key = ArrowDown | ArrowUp | Enter | OtherKey

  /**
   * `handleKeyNavigation(e)` over the result items on screen: the new
   * selected index and the result opened, if any. The arrows move the
   * selection within the items; Enter on a selected item clicks it, which
   * closes the search and so resets the selection.
   */
  function Navigate(items: seq<App>, selected: int, key: Key): (r: (int, Option<App>))
    // only Enter on an item that exists opens something, and it opens that item
    ensures r.1.Some? <==> key == Enter && 0 <= selected < |items|
    ensures r.1.Some? ==> r.1.value == items[selected] && r.0 == -1
    // a selection within the items stays within them
    ensures -1 <= selected && (items != [] ==> selected < |items|) ==> -1 <= r.0 && (items != [] ==> r.0 < |items|)
    // the arrows move by one at most, and only while there is room
    ensures key == ArrowDown ==> r.0 == if selected < |items| - 1 then selected + 1 else selected
    ensures key == ArrowUp ==> r.0 == if selected > 0 then selected - 1 else selected
    ensures key == OtherKey ==> r == (selected, None)
    ensures key == Enter && !(0 <= selected < |items|) ==> r.0 == selected
  {
    match key
    case ArrowDown => (if selected < |items| - 1 then selected + 1 else selected, None)
    case ArrowUp => (if selected > 0 then selected - 1 else selected, None)
    case Enter => if 0 <= selected < |items| then (-1, Some(items[selected])) else (selected, None)
    case OtherKey => (selected, None)
  }

  /** The icon of result `a` names an image file (`iconValue.includes('.png')`). */
  predicate ShowsImage(a: App, darkMode: bool) {
    Contains(GetIconForTheme(a.card.icon, darkMode), ".png")
  }

  /**
   * The result items on screen after `renderResults(results)` as written,
   * when `shown` were on screen before. An image icon builds its path from
   * `ICON_BASE_PATH`, a name the page never declares (the constant lives in
   * `CONFIG`), so the render throws before the list is replaced and the
   * previous items stay on screen.
   */
  function RenderedAsWritten(shown: seq<App>, results: seq<App>, darkMode: bool): (items: seq<App>)
    ensures (exists k :: 0 <= k < |results| && ShowsImage(results[k], darkMode)) ==> items == shown
    ensures (forall k :: 0 <= k < |results| ==> !ShowsImage(results[k], darkMode)) ==> items == results
  {
    if exists k :: 0 <= k < |results| && ShowsImage(results[k], darkMode) then shown else results
  }

  /**
   * As written, a search whose one result shows an image icon, run on the
   * freshly opened (empty) panel, leaves no item on screen although the
   * result is selected, so Enter opens nothing; with the list drawn, Enter
   * opens that result.
   */
  lemma ImageResultCannotBeOpened(a: App, darkMode: bool)
    requires ShowsImage(a, darkMode)
    ensures RenderedAsWritten([], [a], darkMode) == []
    ensures Navigate(RenderedAsWritten([], [a], darkMode), 0, Enter) == (0, None)
    ensures Navigate([a], 0, Enter) == (-1, Some(a))
  {
    assert [a][0] == a;
  }

  /** The concrete case: a card whose icon is the file `b.png`. */
  lemma ImageIconBlocksEnter(darkMode: bool)
    ensures var a := App(Card("https://b", "B", "", Plain("b.png"), false, false), "C");
            && RenderedAsWritten([], [a], darkMode) == []
            && Navigate([], 0, Enter) == (0, None)
            && Navigate([a], 0, Enter) == (-1, Some(a))
  {
    var a := App(Card("https://b", "B", "", Plain("b.png"), false, false), "C");
    assert "b.png" == "b" + ".png";
    ContainsSuffix("b", ".png");
    ImageResultCannotBeOpened(a, darkMode);
  }

  /**
   * The state of the spotlight search: the collected entries, whether the
   * overlay is open, the results on screen and the selected index.
   */
  class Spotlight {
    var apps: seq<App>
    var active: bool
    var results: seq<App>
    var selectedIndex: int

    /** The selection is -1 or, while results are shown, one of them. */
    predicate Valid()
      reads this
    {
      -1 <= selectedIndex && (results != [] ==> selectedIndex < |results|)
    }

    constructor ()
      ensures Valid()
      ensures apps == [] && !active && results == [] && selectedIndex == -1
    {
      apps := [];
      active := false;
      results := [];
      selectedIndex := -1;
    }

    /** `collectAllApps()`, once the catalogue is loaded. */
    method CollectAllApps(categories: seq<Category>)
      requires Valid()
      modifies this
      ensures Valid()
      ensures apps == AllApps(categories)
      ensures active == old(active) && results == old(results) && selectedIndex == old(selectedIndex)
    {
      var collected: seq<App> := [];
      var i := 0;
      while i < |categories|
        invariant 0 <= i <= |categories|
        invariant collected == AllApps(categories[..i])
      {
        var category := categories[i];
        assert categories[..i + 1][..i] == categories[..i];
        if category.id != AllId && category.id != FavoritesId {
          var j := 0;
          while j < |category.cards|
            invariant 0 <= j <= |category.cards|
            invariant collected == AllApps(categories[..i]) + Tagged(category.cards[..j], category.name)
          {
            assert category.cards[..j + 1][..j] == category.cards[..j];
            collected := collected + [App(category.cards[j], category.name)];
            j := j + 1;
          }
          assert category.cards[..j] == category.cards;
        }
        i := i + 1;
      }
      assert categories[..i] == categories;
      apps := collected;
    }

    /** `openSearch()`: the overlay opens empty, with nothing selected. */
    method OpenSearch()
      modifies this
      ensures Valid()
      ensures active && results == [] && selectedIndex == -1 && apps == old(apps)
    {
      active := true;
      selectedIndex := -1;
      results := [];
    }

    /** `closeSearch()`: the overlay closes and is cleared. */
    method CloseSearch()
      modifies this
      ensures Valid()
      ensures !active && results == [] && selectedIndex == -1 && apps == old(apps)
    {
      active := false;
      selectedIndex := -1;
      results := [];
    }

    /**
     * `performSearch(query)`: a blank query clears the results and leaves the
     * index as it was; otherwise the first result is selected, or none.
     */
    method PerformSearch(query: string)
      requires Valid()
      modifies this
      ensures Valid()
      ensures results == SearchResults(apps, query)
      ensures selectedIndex == if IsBlank(query) then old(selectedIndex) else if results != [] then 0 else -1
      ensures apps == old(apps) && active == old(active)
    {
      if IsBlank(query) {
        results := [];
        return;
      }
      results := SearchResults(apps, query);
      selectedIndex := if |results| > 0 then 0 else -1;
    }

    /** The mouse entering result `index` selects it. */
    method Hover(index: nat)
      requires Valid() && index < |results|
      modifies this
      ensures Valid()
      ensures selectedIndex == index
      ensures apps == old(apps) && active == old(active) && results == old(results)
    {
      selectedIndex := index;
    }

    /**
     * `handleKeyNavigation(e)`: the arrows move the selection within the
     * results; Enter on a selected result opens it (returned here) and,
     * through the result's click handler, closes the search.
     */
    method HandleKey(key: Key) returns (launched: Option<App>)
      requires Valid()
      modifies this
      ensures Valid()
      ensures apps == old(apps)
      ensures (selectedIndex, launched) == Navigate(old(results), old(selectedIndex), key)
      ensures key == ArrowDown ==>
        (launched == None && results == old(results) && active == old(active)
         && selectedIndex == (if old(selectedIndex) < |results| - 1 then old(selectedIndex) + 1 else old(selectedIndex)))
      ensures key == ArrowUp ==>
        (launched == None && results == old(results) && active == old(active)
         && selectedIndex == (if old(selectedIndex) > 0 then old(selectedIndex) - 1 else old(selectedIndex)))
      ensures key == Enter && 0 <= old(selectedIndex) < |old(results)| ==>
        (launched == Some(old(results)[old(selectedIndex)]) && !active && results == [] && selectedIndex == -1)
      ensures (key == OtherKey || (key == Enter && !(0 <= old(selectedIndex) < |old(results)|))) ==>
        (launched == None && results == old(results) && active == old(active) && selectedIndex == old(selectedIndex))
    {
      launched := None;
      if key == ArrowDown {
        if selectedIndex < |results| - 1 {
          selectedIndex := selectedIndex + 1;
        }
      } else if key == ArrowUp {
        if selectedIndex > 0 {
          selectedIndex := selectedIndex - 1;
        }
      } else if key == Enter && selectedIndex >= 0 && selectedIndex < |results| {
        launched := Some(results[selectedIndex]);
        CloseSearch();
      }
    }
  }
}
