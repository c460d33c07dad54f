/**
 * The launcher's catalogue of applications as the page loads and shows it:
 * the shape check on the data file, the order of the category tabs in tech
 * mode (`renderTabs`) and the choice of cards for the current tab
 * (`renderCards`).
 */
module Catalog {
  import opened Wrappers
  import opened SeqUtil
  import opened Icons
  import opened UrlValidation

  /**
   * One application tile of the data file. `nhqOnly` is the truthiness of
   * the card's `nhqOnly` member; `tech` is whether its `tech` member is
   * exactly `true`.
   */
  datatype Card = Card(url: string, title: string, description: string, icon: IconData, nhqOnly: bool, tech: bool)

  datatype Category = Category(id: string, name: string, cards: seq<Card>)

  const AllId: string := "all"
  const FavoritesId: string := "favorites"
  const TechToolsId: string := "tech-tools"

  // ----- loadPortalData -----

  /**
   * The decoded body of the data file: unparsable JSON, or a value whose
   * `categories` member is an array (`Some`) or is not (`None`, which also
   * stands for a falsy value such as `null`).
   */
  datatype Body = Unparsable | Parsed(categories: Option<seq<Category>>)

  /** The outcome of fetching the data file. */
  datatype Fetched = NetworkError | Reply(ok: bool, body: Body)

  /**
   * `loadPortalData()`: the categories, or `None` on each path that reaches
   * the `catch` block. That block is meant to draw an error panel and answer
   * `null`; as written, its first statement is a `logger.error` call, which
   * calls itself without end and throws, so the returned promise rejects
   * instead and no panel is drawn.
   */
  function LoadPortalData(f: Fetched): (data: Option<seq<Category>>)
    ensures data.Some? <==> f.Reply? && f.ok && f.body.Parsed? && f.body.categories.Some?
    ensures data.Some? ==> data.value == f.body.categories.value
  {
    if f.NetworkError? || !f.ok then None
    else
      match f.body
      case Unparsable => None
      case Parsed(categories) => categories
  }

  // ----- renderTabs -----

  /** `findIndex(cat => cat.id === id)`: the first category with the id, or -1. */
  function FindIndex(cats: seq<Category>, id: string): (i: int)
    ensures -1 <= i < |cats|
    ensures i == -1 <==> forall k :: 0 <= k < |cats| ==> cats[k].id != id
    ensures 0 <= i ==> cats[i].id == id && forall k :: 0 <= k < i ==> cats[k].id != id
  {
    if cats == [] then -1
    else if cats[0].id == id then 0
    else
      var j := FindIndex(cats[1..], id);
      if j == -1 then -1 else j + 1
  }

  /** `splice(at, 0, x)`: a start beyond the end inserts at the end. */
  function InsertAt<T>(s: seq<T>, at: nat, x: T): (r: seq<T>)
    ensures |r| == |s| + 1
    ensures var k := if at <= |s| then at else |s|;
            r[k] == x && r[..k] == s[..k] && r[k + 1..] == s[k..]
  {
    var k := if at <= |s| then at else |s|;
    s[..k] + [x] + s[k..]
  }

  /**
   * The tab order: in tech mode, when both categories exist, the first
   * `tech-tools` category is spliced out and spliced back in at the old
   * index of `favorites` plus one.
   */
  function TechReordered(cats: seq<Category>, techMode: bool): seq<Category> {
    var t := FindIndex(cats, TechToolsId);
    var f := FindIndex(cats, FavoritesId);
    if techMode && t != -1 && f != -1 then Moved(cats, t, f + 1) else cats
  }

  /** Does any card have `tech === true`? */
  predicate HasTechCards(c: Category) {
    exists k :: 0 <= k < |c.cards| && c.cards[k].tech
  }

  /** Outside tech mode a `tech-tools` category with tech cards gets no tab. */
  function ShownTab(techMode: bool): Category -> bool {
    (c: Category) => techMode || !HasTechCards(c) || c.id != TechToolsId
  }

  /** The element at `t` spliced out and spliced back in at `at`. */
  function Moved<T>(s: seq<T>, t: nat, at: nat): seq<T>
    requires t < |s|
  {
    InsertAt(s[..t] + s[t + 1..], at, s[t])
  }

  lemma MovedPermutes<T>(s: seq<T>, t: nat, at: nat)
    requires t < |s|
    ensures |Moved(s, t, at)| == |s|
    ensures multiset(Moved(s, t, at)) == multiset(s)
  {
    var x := s[t];
    var rest := s[..t] + s[t + 1..];
    var k := if at <= |rest| then at else |rest|;
    assert Moved(s, t, at) == rest[..k] + [x] + rest[k..];
    assert rest[..k] + rest[k..] == rest;
    assert s[..t] + [x] + s[t + 1..] == s;
    calc {
      multiset(Moved(s, t, at));
      multiset(rest[..k]) + multiset{x} + multiset(rest[k..]);
      multiset(rest[..k] + rest[k..]) + multiset{x};
      multiset(s[..t]) + multiset(s[t + 1..]) + multiset{x};
      multiset(s[..t] + [x] + s[t + 1..]);
    }
  }

  /** Moving an element forward to `f + 1`, from behind `f`, puts it right after `s[f]`. */
  lemma MovedForward<T>(s: seq<T>, t: nat, f: nat)
    requires f < t < |s|
    ensures Moved(s, t, f + 1)[f] == s[f] && Moved(s, t, f + 1)[f + 1] == s[t]
  {
  }

  /** Moving an element back to `f + 1`, from before `f`, puts `s[f + 1]` between them. */
  lemma MovedBack<T>(s: seq<T>, t: nat, f: nat)
    requires t < f < |s| - 1
    ensures Moved(s, t, f + 1)[f - 1] == s[f] && Moved(s, t, f + 1)[f] == s[f + 1] && Moved(s, t, f + 1)[f + 1] == s[t]
  {
  }

  /** Moving an element back past the last one puts it last. */
  lemma MovedToEnd<T>(s: seq<T>, t: nat)
    requires t < |s| - 1
    ensures |Moved(s, t, |s|)| == |s|
    ensures Moved(s, t, |s|)[|s| - 2] == s[|s| - 1] && Moved(s, t, |s|)[|s| - 1] == s[t]
  {
  }

  /** A move changes nothing among the elements a filter that drops the moved one keeps. */
  lemma MovedKeepsOthers<T>(s: seq<T>, t: nat, at: nat, p: T -> bool)
    requires t < |s| && !p(s[t])
    ensures Filter(Moved(s, t, at), p) == Filter(s, p)
  {
    var rest := s[..t] + s[t + 1..];
    var k := if at <= |rest| then at else |rest|;
    assert rest[..k] + rest[k..] == rest;
    SplitAround(s, t);
    calc {
      Filter(Moved(s, t, at), p);
      Filter(rest[..k] + [s[t]] + rest[k..], p);
      { FilterInsertDropped(rest[..k], s[t], rest[k..], p); }
      Filter(rest, p);
      { FilterInsertDropped(s[..t], s[t], s[t + 1..], p); }
      Filter(s, p);
    }
  }

  /**
   * The moved element lands at `at`, or last when `at` is past the end, and
   * taking it out again gives the other elements in their old order.
   */
  lemma MovedLandsAt<T>(s: seq<T>, t: nat, at: nat)
    requires t < |s| && at <= |s|
    ensures var k := if at < |s| then at else |s| - 1;
            && |Moved(s, t, at)| == |s|
            && Moved(s, t, at)[k] == s[t]
            && Moved(s, t, at)[..k] + Moved(s, t, at)[k + 1..] == s[..t] + s[t + 1..]
  {
    var x := s[t];
    var rest := s[..t] + s[t + 1..];
    var k := if at < |s| then at else |s| - 1;
    var m := Moved(s, t, at);
    assert m == rest[..k] + [x] + rest[k..];
    assert m[..k] == rest[..k];
    assert m[k + 1..] == rest[k..];
    assert rest[..k] + rest[k..] == rest;
  }

  lemma SplitAround<T>(s: seq<T>, t: nat)
    requires t < |s|
    ensures s[..t] + [s[t]] + s[t + 1..] == s
  {
  }

  /** An element the filter drops makes no difference wherever it stands. */
  lemma FilterInsertDropped<T>(a: seq<T>, x: T, b: seq<T>, p: T -> bool)
    requires !p(x)
    ensures Filter(a + [x] + b, p) == Filter(a + b, p)
  {
    FilterConcat(a + [x], b, p);
    FilterSnoc(a, x, p);
    FilterConcat(a, b, p);
  }

  /** The reorder moves one category and keeps every category. */
  lemma ReorderPermutes(cats: seq<Category>, techMode: bool)
    ensures |TechReordered(cats, techMode)| == |cats|
    ensures multiset(TechReordered(cats, techMode)) == multiset(cats)
  {
    var t := FindIndex(cats, TechToolsId);
    var f := FindIndex(cats, FavoritesId);
    if techMode && t != -1 && f != -1 {
      MovedPermutes(cats, t, f + 1);
    }
  }

  /** Outside tech mode, or with either category missing, the order is the data file's. */
  lemma ReorderOnlyWithBoth(cats: seq<Category>, techMode: bool)
    requires !techMode || FindIndex(cats, TechToolsId) == -1 || FindIndex(cats, FavoritesId) == -1
    ensures TechReordered(cats, techMode) == cats
  {
  }

  /** A `tech-tools` category that came after `favorites` lands right after it. */
  lemma ReorderAfterFavorites(cats: seq<Category>, t: int, f: int)
    requires t == FindIndex(cats, TechToolsId) && f == FindIndex(cats, FavoritesId)
    requires 0 <= f < t
    ensures |TechReordered(cats, true)| == |cats|
    ensures TechReordered(cats, true)[f] == cats[f] && TechReordered(cats, true)[f + 1] == cats[t]
  {
    MovedPermutes(cats, t, f + 1);
    MovedForward(cats, t, f);
  }

  /**
   * A `tech-tools` category that came before `favorites` lands one place
   * further on: `favorites` has moved up by one, and the category that
   * followed it sits in between.
   */
  lemma ReorderBeforeFavorites(cats: seq<Category>, t: int, f: int)
    requires t == FindIndex(cats, TechToolsId) && f == FindIndex(cats, FavoritesId)
    requires 0 <= t < f < |cats| - 1
    ensures |TechReordered(cats, true)| == |cats|
    ensures TechReordered(cats, true)[f - 1] == cats[f]
    ensures TechReordered(cats, true)[f] == cats[f + 1]
    ensures TechReordered(cats, true)[f + 1] == cats[t]
  {
    MovedPermutes(cats, t, f + 1);
    MovedBack(cats, t, f);
  }

  /** When `favorites` was last, the insertion point is past the end and `tech-tools` follows it. */
  lemma ReorderFavoritesLast(cats: seq<Category>, t: int, f: int)
    requires t == FindIndex(cats, TechToolsId) && f == FindIndex(cats, FavoritesId)
    requires 0 <= t < f == |cats| - 1
    ensures |TechReordered(cats, true)| == |cats|
    ensures TechReordered(cats, true)[f - 1] == cats[f] && TechReordered(cats, true)[f] == cats[t]
  {
    MovedPermutes(cats, t, f + 1);
    MovedToEnd(cats, t);
  }

  /**
   * Apart from the moved category, every category keeps its relative order:
   * the moved one lands at the old index of `favorites` plus one (or last),
   * and taking it out of that place gives the data file's order without it.
   */
  lemma ReorderKeepsOthers(cats: seq<Category>, techMode: bool, t: int, f: int)
    requires t == FindIndex(cats, TechToolsId) && f == FindIndex(cats, FavoritesId)
    ensures Filter(TechReordered(cats, techMode), NotTechTools) == Filter(cats, NotTechTools)
    ensures techMode && t != -1 && f != -1 ==>
              var k := if f + 1 < |cats| then f + 1 else |cats| - 1;
              && |TechReordered(cats, techMode)| == |cats|
              && TechReordered(cats, techMode)[k] == cats[t]
              && TechReordered(cats, techMode)[..k] + TechReordered(cats, techMode)[k + 1..] == cats[..t] + cats[t + 1..]
  {
    if techMode && t != -1 && f != -1 {
      MovedKeepsOthers(cats, t, f + 1, NotTechTools);
      MovedLandsAt(cats, t, f + 1);
    }
  }

  function NotTechTools(c: Category): bool {
    c.id != TechToolsId
  }

  /**
   * The reorder at the start of `renderTabs()`: the list is copied and, in
   * tech mode, the first `tech-tools` category is spliced out and back in
   * after `favorites`.
   */
  method ReorderForTabs(categories: seq<Category>, techMode: bool) returns (toRender: seq<Category>)
    ensures toRender == TechReordered(categories, techMode)
  {
    toRender := categories;
    if techMode {
      var techToolsIndex := FindIndex(toRender, TechToolsId);
      var favoritesIndex := FindIndex(toRender, FavoritesId);
      if techToolsIndex != -1 && favoritesIndex != -1 {
        var techTools := toRender[techToolsIndex];
        toRender := toRender[..techToolsIndex] + toRender[techToolsIndex + 1..];
        toRender := InsertAt(toRender, favoritesIndex + 1, techTools);
      }
    }
  }

  /**
   * `renderTabs()`: the categories in tab order, each with a tab unless
   * it is a tech-only category outside tech mode. The buttons themselves
   * are not modelled.
   */
  method RenderTabs(categories: seq<Category>, techMode: bool) returns (tabs: seq<Category>)
    ensures tabs == Filter(TechReordered(categories, techMode), ShownTab(techMode))
  {
    var toRender := ReorderForTabs(categories, techMode);
    tabs := [];
    var i := 0;
    while i < |toRender|
      invariant 0 <= i <= |toRender|
      invariant toRender == TechReordered(categories, techMode)
      invariant tabs == Filter(toRender[..i], ShownTab(techMode))
    {
      var category := toRender[i];
      assert toRender[..i + 1] == toRender[..i] + [category];
      FilterSnoc(toRender[..i], category, ShownTab(techMode));
      if !(!techMode && HasTechCards(category) && category.id == TechToolsId) {
        tabs := tabs + [category];
      }
      i := i + 1;
    }
    assert toRender[..i] == toRender;
  }

  /** A category has a tab exactly when it is in the data file and is not hidden. */
  lemma TabsShown(categories: seq<Category>, techMode: bool, c: Category)
    ensures c in Filter(TechReordered(categories, techMode), ShownTab(techMode))
      <==> c in categories && (techMode || !HasTechCards(c) || c.id != TechToolsId)
  {
    ReorderPermutes(categories, techMode);
    assert c in TechReordered(categories, techMode) <==> c in multiset(categories);
    FilterContains(TechReordered(categories, techMode), ShownTab(techMode), c);
  }

  // ----- renderCards -----

  /** The favourites and all views draw from every category except `all`, `favorites` and, outside tech mode, `tech-tools`. */
  predicate Eligible(c: Category, techMode: bool) {
    c.id != AllId && c.id != FavoritesId && (techMode || c.id != TechToolsId)
  }

  /** NHQ-only cards are shown only on the headquarters network. */
  function Visible(isNHQ: bool): Card -> bool {
    (card: Card) => !card.nhqOnly || isNHQ
  }

  /** The favourites view keeps visible cards whose URL is a favourite. */
  function Starred(isNHQ: bool, favorites: seq<string>): Card -> bool {
    (card: Card) => (!card.nhqOnly || isNHQ) && card.url in favorites
  }

  /** The cards `keep` accepts, category by category, from the eligible categories. */
  function Gathered(cats: seq<Category>, techMode: bool, keep: Card -> bool): seq<Card> {
    if cats == [] then []
    else
      var last := cats[|cats| - 1];
      Gathered(cats[..|cats| - 1], techMode, keep) + (if Eligible(last, techMode) then Filter(last.cards, keep) else [])
  }

  /** The cards of the current tab, before the alphabetical sort of the all view. */
  function CardsFor(cats: seq<Category>, current: string, favorites: seq<string>, techMode: bool, isNHQ: bool): seq<Card> {
    if current == FavoritesId then Gathered(cats, techMode, Starred(isNHQ, favorites))
    else if current == AllId then Gathered(cats, techMode, Visible(isNHQ))
    else
      var i := FindIndex(cats, current);
      if i == -1 then [] else Filter(cats[i].cards, Visible(isNHQ))
  }

  /** A card is gathered exactly when `keep` accepts it and an eligible category holds it. */
  lemma {:induction false} GatheredMembers(cats: seq<Category>, techMode: bool, keep: Card -> bool, x: Card)
    ensures x in Gathered(cats, techMode, keep)
      <==> keep(x) && exists i :: 0 <= i < |cats| && Eligible(cats[i], techMode) && x in cats[i].cards
  {
    if cats != [] {
      var init := cats[..|cats| - 1];
      var last := cats[|cats| - 1];
      GatheredMembers(init, techMode, keep, x);
      FilterContains(last.cards, keep, x);
      if keep(x) && exists i :: 0 <= i < |cats| && Eligible(cats[i], techMode) && x in cats[i].cards {
        var i :| 0 <= i < |cats| && Eligible(cats[i], techMode) && x in cats[i].cards;
        if i < |init| {
          assert init[i] == cats[i];
        }
      }
      if exists i :: 0 <= i < |init| && Eligible(init[i], techMode) && x in init[i].cards {
        var i :| 0 <= i < |init| && Eligible(init[i], techMode) && x in init[i].cards;
        assert cats[i] == init[i];
      }
    }
  }

  /** The favourites view: visible favourites from the eligible categories, and nothing else. */
  lemma FavoritesView(cats: seq<Category>, favorites: seq<string>, techMode: bool, isNHQ: bool, x: Card)
    ensures x in CardsFor(cats, FavoritesId, favorites, techMode, isNHQ)
      <==> (x.url in favorites && (!x.nhqOnly || isNHQ)
           && exists i :: 0 <= i < |cats| && Eligible(cats[i], techMode) && x in cats[i].cards)
  {
    GatheredMembers(cats, techMode, Starred(isNHQ, favorites), x);
  }

  /** The all view: every visible card of the eligible categories. */
  lemma AllView(cats: seq<Category>, favorites: seq<string>, techMode: bool, isNHQ: bool, x: Card)
    ensures x in CardsFor(cats, AllId, favorites, techMode, isNHQ)
      <==> (!x.nhqOnly || isNHQ) && exists i :: 0 <= i < |cats| && Eligible(cats[i], techMode) && x in cats[i].cards
  {
    GatheredMembers(cats, techMode, Visible(isNHQ), x);
  }

  /**
   * Any other tab shows the visible cards of the first category with that id,
   * in their order; the tech-mode rule does not apply there.
   */
  lemma SingleView(cats: seq<Category>, current: string, favorites: seq<string>, techMode: bool, isNHQ: bool, i: nat)
    requires current != FavoritesId && current != AllId
    requires i < |cats| && cats[i].id == current && forall k :: 0 <= k < i ==> cats[k].id != current
    ensures CardsFor(cats, current, favorites, techMode, isNHQ) == Filter(cats[i].cards, Visible(isNHQ))
  {
  }

  /** A tab id no category carries shows no card. */
  lemma UnknownTabEmpty(cats: seq<Category>, current: string, favorites: seq<string>, techMode: bool, isNHQ: bool)
    requires current != FavoritesId && current != AllId
    requires forall k :: 0 <= k < |cats| ==> cats[k].id != current
    ensures CardsFor(cats, current, favorites, techMode, isNHQ) == []
  {
  }

  /**
   * The `forEach` loops over the categories and their cards that push every
   * card `keep` accepts, skipping the ineligible categories.
   */
  method GatherCards(cats: seq<Category>, techMode: bool, keep: Card -> bool) returns (cards: seq<Card>)
    ensures cards == Gathered(cats, techMode, keep)
  {
    cards := [];
    var i := 0;
    while i < |cats|
      invariant 0 <= i <= |cats|
      invariant cards == Gathered(cats[..i], techMode, keep)
    {
      var category := cats[i];
      assert cats[..i + 1][..i] == cats[..i];
      if Eligible(category, techMode) {
        var j := 0;
        while j < |category.cards|
          invariant 0 <= j <= |category.cards|
          invariant cards == Gathered(cats[..i], techMode, keep) + Filter(category.cards[..j], keep)
        {
          var card := category.cards[j];
          assert category.cards[..j + 1] == category.cards[..j] + [card];
          FilterSnoc(category.cards[..j], card, keep);
          if keep(card) {
            cards := cards + [card];
          }
          j := j + 1;
        }
        assert category.cards[..j] == category.cards;
      }
      i := i + 1;
    }
    assert cats[..i] == cats;
  }

  /** `renderCards()`: the cards to draw for the current tab, before the alphabetical sort of the all view. */
  method SelectCards(cats: seq<Category>, current: string, favorites: seq<string>, techMode: bool, isNHQ: bool)
    returns (cards: seq<Card>)
    ensures cards == CardsFor(cats, current, favorites, techMode, isNHQ)
  {
    if current == FavoritesId {
      cards := GatherCards(cats, techMode, Starred(isNHQ, favorites));
    } else if current == AllId {
      cards := GatherCards(cats, techMode, Visible(isNHQ));
    } else {
      var i := FindIndex(cats, current);
      cards := [];
      if i != -1 {
        cards := Filter(cats[i].cards, Visible(isNHQ));
      }
    }
  }

  /** A card is drawn only when its URL passes `isValidUrl`. */
  function HasValidUrl(card: Card): bool {
    IsValidUrl(Some(card.url))
  }

  /**
   * The cards `renderCards` draws, as written: logging a skipped card calls
   * `logger.error`, which calls itself without end and throws, so the first
   * card whose URL fails `isValidUrl` ends the `forEach` and no later card
   * is drawn.
   */
  function DrawnAsWritten(cards: seq<Card>): seq<Card> {
    TakeWhile(cards, HasValidUrl)
  }

  /** The cards drawn once a skipped card is only skipped: every card with a valid URL, in order. */
  function Drawn(cards: seq<Card>): seq<Card> {
    Filter(cards, HasValidUrl)
  }

  /** A selected card is drawn exactly when its URL is valid. */
  lemma DrawnCards(cards: seq<Card>, x: Card)
    ensures x in Drawn(cards) <==> x in cards && IsValidUrl(Some(x.url))
  {
    FilterContains(cards, HasValidUrl, x);
  }

  /**
   * As written, the page draws a prefix of the intended cards, and all of
   * them when no card is skipped.
   */
  lemma DrawnAsWrittenIsPrefix(cards: seq<Card>)
    ensures |DrawnAsWritten(cards)| <= |Drawn(cards)|
    ensures DrawnAsWritten(cards) == Drawn(cards)[..|DrawnAsWritten(cards)|]
    ensures (forall i :: 0 <= i < |cards| ==> HasValidUrl(cards[i])) ==> DrawnAsWritten(cards) == Drawn(cards)
  {
    TakeWhileIsFilterPrefix(cards, HasValidUrl);
  }

  /** A skipped card hides every card after it, though the intended page still draws them. */
  lemma SkippedCardHidesRest(bad: Card, good: Card)
    requires !HasValidUrl(bad) && HasValidUrl(good)
    ensures DrawnAsWritten([bad, good]) == []
    ensures Drawn([bad, good]) == [good]
  {
    TakeWhileStops(bad, good, HasValidUrl);
  }

  /** The concrete case: a `javascript:` card before a valid one hides the valid one. */
  lemma InvalidUrlStopsDrawing()
    ensures var bad := Card("javascript:x", "X", "", NoIcon, false, false);
            var good := Card("https://b", "B", "", NoIcon, false, false);
            && DrawnAsWritten([bad, good]) == []
            && Drawn([bad, good]) == [good]
  {
    JavascriptRejected();
    HttpsAccepted();
    SkippedCardHidesRest(Card("javascript:x", "X", "", NoIcon, false, false),
                         Card("https://b", "B", "", NoIcon, false, false));
  }
}
