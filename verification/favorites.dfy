/**
 * The favourites list (`FavoritesManager`): the URLs of the applications the
 * user starred, kept in the order they were added.
 */
module Favorites {
  import opened Wrappers
  import opened SeqUtil

  /** `Array.prototype.indexOf`: the first position of `x`, or -1. */
  function IndexOf<T(==)>(s: seq<T>, x: T): (i: int)
    ensures -1 <= i < |s|
    ensures i == -1 <==> x !in s
    ensures 0 <= i ==> s[i] == x && x !in s[..i]
  {
    if s == [] then -1
    else if s[0] == x then 0
    else
      var j := IndexOf(s[1..], x);
      if j == -1 then -1 else j + 1
  }

  /** The list after one toggle: the first occurrence is spliced out, or the URL is pushed. */
  function Toggled(s: seq<string>, url: string): seq<string> {
    var index := IndexOf(s, url);
    if index > -1 then s[..index] + s[index + 1..] else s + [url]
  }

  /** A toggle removes one copy of a present URL, or adds one copy of an absent URL. */
  lemma ToggleCounts(s: seq<string>, url: string)
    ensures url in s ==> multiset(Toggled(s, url)) == multiset(s) - multiset{url}
    ensures url !in s ==> multiset(Toggled(s, url)) == multiset(s) + multiset{url}
  {
    var index := IndexOf(s, url);
    if index > -1 {
      assert s == s[..index] + [url] + s[index + 1..];
    }
  }

  /** The other entries keep their order. */
  lemma {:induction false} ToggleKeepsOthers(s: seq<string>, url: string)
    ensures Filter(Toggled(s, url), Other(url)) == Filter(s, Other(url))
  {
    var index := IndexOf(s, url);
    if index > -1 {
      var before := s[..index];
      var after := s[index + 1..];
      assert s == before + ([url] + after);
      FilterConcat(before, [url] + after, Other(url));
      FilterConcat([url], after, Other(url));
      FilterConcat(before, after, Other(url));
    } else {
      FilterConcat(s, [url], Other(url));
    }
  }

  /** In a list without repeats, a toggle flips membership and adds no repeat. */
  lemma ToggleFlips(s: seq<string>, url: string)
    requires NoDuplicates(s)
    ensures url in Toggled(s, url) <==> url !in s
    ensures NoDuplicates(Toggled(s, url))
  {
    var index := IndexOf(s, url);
    if index > -1 {
      SpliceOut(s, index);
    } else {
      var t := s + [url];
      forall a, b | 0 <= a < b < |t| ensures t[a] != t[b] {
        if b == |s| { assert t[a] == s[a]; }
      }
      assert t[|s|] == url;
    }
  }

  /** Splicing one position out of a list without repeats removes its element for good. */
  lemma SpliceOut<T>(s: seq<T>, index: nat)
    requires index < |s| && NoDuplicates(s)
    ensures s[index] !in s[..index] + s[index + 1..]
    ensures NoDuplicates(s[..index] + s[index + 1..])
  {
    var t := s[..index] + s[index + 1..];
    forall k | 0 <= k < |t| ensures t[k] == s[if k < index then k else k + 1] {
    }
    forall a, b | 0 <= a < b < |t| ensures t[a] != t[b] {
      var a' := if a < index then a else a + 1;
      var b' := if b < index then b else b + 1;
      assert t[a] == s[a'] && t[b] == s[b'];
    }
  }

  /** Toggling an absent URL twice gives back the original list. */
  lemma ToggleAbsentTwice(s: seq<string>, url: string)
    requires url !in s
    ensures Toggled(Toggled(s, url), url) == s
  {
    var t := s + [url];
    assert IndexOf(t, url) == |s| by {
      assert t[|s|] == url && t[..|s|] == s;
    }
    assert t[..|s|] == s;
  }

  /** Toggling a present URL twice moves it to the end of a list without repeats. */
  lemma TogglePresentTwice(s: seq<string>, url: string)
    requires NoDuplicates(s) && url in s
    ensures Toggled(Toggled(s, url), url) == Filter(s, Other(url)) + [url]
  {
    ToggleFlips(s, url);
    var t := Toggled(s, url);
    assert Toggled(t, url) == t + [url];
    FilterAll(t, Other(url));
    ToggleKeepsOthers(s, url);
  }

  /**
   * The favourites list as the page holds it. It is read from local storage
   * on each call in the page; here it is a field, and `None` at construction
   * stands for a missing or empty stored value, which reads as empty. An
   * unparsable stored value is meant to read as empty as well, but the
   * `logger.error` call on that path throws, so the page's reading fails.
   */
  class FavoritesManager {
    var favorites: seq<string>

    constructor (stored: Option<seq<string>>)
      ensures favorites == if stored.Some? then stored.value else []
    {
      favorites := if stored.Some? then stored.value else [];
    }

    /** `isFavorite(url)`. */
    function IsFavorite(url: string): (b: bool)
      reads this
      ensures b <==> IndexOf(favorites, url) != -1
    {
      url in favorites
    }

    /** `toggleFavorite(url)`: the new list is saved and the URL's new status returned. */
    method ToggleFavorite(url: string) returns (nowFavorite: bool)
      modifies this
      ensures favorites == Toggled(old(favorites), url)
      ensures nowFavorite == IsFavorite(url)
    {
      var index := IndexOf(favorites, url);
      if index > -1 {
        favorites := favorites[..index] + favorites[index + 1..];
      } else {
        favorites := favorites + [url];
      }
      nowFavorite := url in favorites;
    }
  }
}
