/**
 * The favourite locations: the list of saved locations kept side by side
 * with the list of their "lat;lon" keys, and the toggle that adds a
 * location to both or removes it from both at the same index.
 */
module Favorites {
  import opened Base
  import opened Strings

  /** The fields of a saved location the favourites read (the rest is carried along unchanged). */
  datatype Location = Location(name: string, lat: real, lon: real)

  /** getFavoriteKey: `${lat};${lon}`. */
  function FavoriteKey(loc: Location): (r: string)
    ensures Split(r, ";") == [NumberToString(loc.lat), NumberToString(loc.lon)]
  {
    var lat, lon := NumberToString(loc.lat), NumberToString(loc.lon);
    NoSemicolon(lat);
    NoSemicolon(lon);
    SplitAfterHead(lat, lon, ";");
    SplitWithoutSeparatorStart(lon, ";");
    lat + ";" + lon
  }

  lemma NoSemicolon(s: string)
    requires NumeralText(s)
    ensures !ContainsChar(s, ';')
  {
  }

  /** favorites.map(getFavoriteKey) */
  function KeysOf(favs: seq<Location>): (keys: seq<string>)
    ensures |keys| == |favs| && forall i :: 0 <= i < |favs| ==> keys[i] == FavoriteKey(favs[i])
  {
    seq(|favs|, i requires 0 <= i < |favs| => FavoriteKey(favs[i]))
  }

  /** Array.prototype.indexOf: the first index of k, or -1. */
  function IndexOf(keys: seq<string>, k: string): (r: int)
    ensures -1 <= r < |keys|
    ensures r == -1 <==> k !in keys
    ensures r >= 0 ==> keys[r] == k && forall j :: 0 <= j < r ==> keys[j] != k
  {
    if keys == [] then -1
    else if keys[0] == k then 0
    else
      var r := IndexOf(keys[1..], k);
      if r == -1 then -1 else r + 1
  }

  /** xs.splice(i, 1) */
  function RemoveAt<T>(xs: seq<T>, i: nat): (r: seq<T>)
    requires i < |xs|
    ensures |r| == |xs| - 1
    ensures forall j :: 0 <= j < i ==> r[j] == xs[j]
    ensures forall j :: i <= j < |r| ==> r[j] == xs[j + 1]
  {
    xs[..i] + xs[i + 1..]
  }

  /** No key appears twice. */
  predicate Distinct(keys: seq<string>)
  {
    forall i, j :: 0 <= i < j < |keys| ==> keys[i] != keys[j]
  }

  /** The favourites after toggling loc: removed from where its key is, or appended. */
  function Toggled(favs: seq<Location>, loc: Location): (r: seq<Location>)
    ensures |r| == if FavoriteKey(loc) in KeysOf(favs) then |favs| - 1 else |favs| + 1
  {
    var i := IndexOf(KeysOf(favs), FavoriteKey(loc));
    if i >= 0 then RemoveAt(favs, i) else favs + [loc]
  }

  /** Removing at an index and taking the keys commute. */
  lemma KeysOfRemoveAt(favs: seq<Location>, i: nat)
    requires i < |favs|
    ensures KeysOf(RemoveAt(favs, i)) == RemoveAt(KeysOf(favs), i)
  {
  }

  lemma KeysOfAppend(favs: seq<Location>, loc: Location)
    ensures KeysOf(favs + [loc]) == KeysOf(favs) + [FavoriteKey(loc)]
  {
  }

  /** With distinct keys, toggling flips whether the location is a favourite and keeps the keys distinct. */
  lemma ToggleFlips(favs: seq<Location>, loc: Location)
    requires Distinct(KeysOf(favs))
    ensures var t := Toggled(favs, loc);
      Distinct(KeysOf(t)) &&
      (FavoriteKey(loc) in KeysOf(t) <==> FavoriteKey(loc) !in KeysOf(favs))
  {
    var keys := KeysOf(favs);
    var k := FavoriteKey(loc);
    var i := IndexOf(keys, k);
    if i >= 0 {
      KeysOfRemoveAt(favs, i);
    } else {
      KeysOfAppend(favs, loc);
    }
  }

  /** Toggling a location that is not a favourite twice gives back the same list. */
  lemma ToggleTwiceRestores(favs: seq<Location>, loc: Location)
    requires FavoriteKey(loc) !in KeysOf(favs)
    ensures Toggled(Toggled(favs, loc), loc) == favs
  {
    var t := favs + [loc];
    KeysOfAppend(favs, loc);
    assert IndexOf(KeysOf(t), FavoriteKey(loc)) == |favs|;
    assert RemoveAt(t, |favs|) == favs;
  }

  /** Taking an element out and putting it back at the end keeps the same elements. */
  lemma RemoveThenAppendSameElements(keys: seq<string>, i: nat)
    requires i < |keys|
    ensures multiset(RemoveAt(keys, i) + [keys[i]]) == multiset(keys)
  {
    assert keys == keys[..i] + [keys[i]] + keys[i + 1..];
  }

  /** Toggling a favourite twice moves it to the end; the keys are the same, counted with multiplicity. */
  lemma ToggleTwiceKeepsKeys(favs: seq<Location>, loc: Location)
    requires Distinct(KeysOf(favs)) && FavoriteKey(loc) in KeysOf(favs)
    ensures multiset(KeysOf(Toggled(Toggled(favs, loc), loc))) == multiset(KeysOf(favs))
  {
    var keys := KeysOf(favs);
    var i := IndexOf(keys, FavoriteKey(loc));
    var once := RemoveAt(favs, i);
    KeysOfRemoveAt(favs, i);
    ToggleFlips(favs, loc);
    assert Toggled(once, loc) == once + [loc];
    KeysOfAppend(once, loc);
    RemoveThenAppendSameElements(keys, i);
  }

  /** A location on screen: what it holds, and the flags the list view adds. */
  class FavoriteItem {
    var location: Location
    var isFavorite: bool
    /** The side a swipe menu was opened to; None once deleted. */
    var startingSide: Option<string>

    constructor(location: Location, isFavorite: bool, startingSide: Option<string>)
      ensures this.location == location && this.isFavorite == isFavorite && this.startingSide == startingSide
    {
      this.location := location;
      this.isFavorite := isFavorite;
      this.startingSide := startingSide;
    }
  }

  /** The favourites list, its keys, and the JSON setting they are saved to. */
  class FavoritesStore {
    var favorites: seq<Location>
    var favoritesKeys: seq<string>
    /** The locations last written to the 'favorites' setting. */
    var saved: seq<Location>

    /** The keys are the favourites' keys, index by index. */
    ghost predicate Valid()
      reads this
    {
      favoritesKeys == KeysOf(favorites)
    }

    /** Loading from the setting: the stored list and its keys. */
    constructor(stored: seq<Location>)
      ensures Valid() && favorites == stored && saved == stored
    {
      favorites := stored;
      favoritesKeys := KeysOf(stored);
      saved := stored;
    }

    /** The 'key:favorites' listener: replace the list with the stored one and recompute the keys. */
    method Reload(stored: seq<Location>)
      modifies this
      ensures Valid() && favorites == stored && saved == old(saved)
    {
      favorites := stored;
      favoritesKeys := KeysOf(stored);
    }

    /** isFavorite: false for no item, else whether its key is among the keys. */
    function IsFavorite(item: Option<Location>): (r: bool)
      reads this
      requires Valid()
      ensures r <==> item.Some? && exists i :: 0 <= i < |favorites| && FavoriteKey(favorites[i]) == FavoriteKey(item.value)
    {
      if item.Some? then
        var found := IndexOf(favoritesKeys, FavoriteKey(item.value)) != -1;
        assert found ==> favoritesKeys[IndexOf(favoritesKeys, FavoriteKey(item.value))] == FavoriteKey(item.value);
        found
      else false
    }

    /** toggleFavorite: flips the item's flag, updates both lists at the same index, drops startingSide and saves. */
    method ToggleFavorite(item: FavoriteItem)
      requires Valid()
      modifies this, item
      ensures Valid()
      ensures favorites == Toggled(old(favorites), old(item.location)) && saved == favorites
      ensures item.isFavorite == (FavoriteKey(item.location) !in KeysOf(old(favorites)))
      ensures item.location == old(item.location) && item.startingSide.None?
    {
      var key := FavoriteKey(item.location);
      var index := IndexOf(favoritesKeys, key);
      if index != -1 {
        item.isFavorite := false;
        KeysOfRemoveAt(favorites, index);
        favorites := RemoveAt(favorites, index);
        favoritesKeys := RemoveAt(favoritesKeys, index);
      } else {
        item.isFavorite := true;
        KeysOfAppend(favorites, item.location);
        favorites := favorites + [item.location];
        favoritesKeys := favoritesKeys + [key];
      }
      item.startingSide := None;
      saved := favorites;
    }
  }
}
