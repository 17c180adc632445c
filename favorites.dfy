/** The favorites list of the dashboard: places are identified by their
    coordinates, the "add favorite" button toggles the current city in and out
    of the list, and the button's highlight shows whether the current city is a
    favorite. */
module Favorites {
  import opened Options

  /** A resolved place. Two places are the same favorite when their latitude
      and longitude agree, whatever their names. */
  datatype Location = Location(name: string, country: string, lat: real, lon: real)

  function SamePlace(a: Location, b: Location): (same: bool)
    ensures same <==> a.(name := "", country := "") == b.(name := "", country := "")
  {
    a.lat == b.lat && a.lon == b.lon
  }

  /** No two favorites share coordinates. */
  predicate Unique(favorites: seq<Location>)
  {
    forall i, j :: 0 <= i < j < |favorites| ==> !SamePlace(favorites[i], favorites[j])
  }

  /** The position of the first favorite at the city's coordinates, or -1 when
      there is none (the array's `findIndex`). */
  function FindIndex(favorites: seq<Location>, city: Location): (i: int)
    ensures -1 <= i < |favorites|
    ensures i == -1 <==> forall j :: 0 <= j < |favorites| ==> !SamePlace(favorites[j], city)
    ensures i != -1 ==> SamePlace(favorites[i], city)
    ensures forall j :: 0 <= j < i ==> !SamePlace(favorites[j], city)
  {
    if favorites == [] then -1
    else if SamePlace(favorites[0], city) then 0
    else
      var i := FindIndex(favorites[1..], city);
      if i == -1 then -1 else i + 1
  }

  /** Whether some favorite is at the city's coordinates (the array's `some`). */
  function IsFavorite(favorites: seq<Location>, city: Location): (b: bool)
    ensures b <==> exists j :: 0 <= j < |favorites| && SamePlace(favorites[j], city)
    ensures b <==> FindIndex(favorites, city) != -1
  {
    if favorites == [] then false
    else SamePlace(favorites[0], city) || IsFavorite(favorites[1..], city)
  }

  /** The button highlight: off when no city is loaded, otherwise on exactly
      when the city is a favorite. */
  function ButtonActive(currentCity: Option<Location>, favorites: seq<Location>): (b: bool)
    ensures currentCity.None? ==> !b
    ensures currentCity.Some? ==>
      (b <==> exists j :: 0 <= j < |favorites| && SamePlace(favorites[j], currentCity.value))
  {
    match currentCity
    case None => false
    case Some(city) => IsFavorite(favorites, city)
  }

  /** The list after toggling `city`: appended at the end when no favorite is
      at its coordinates, otherwise the first such favorite is taken out and
      every other entry keeps its place in order. */
  function Toggled(favorites: seq<Location>, city: Location): (r: seq<Location>)
    ensures FindIndex(favorites, city) == -1 ==>
      |r| == |favorites| + 1 && r[|favorites|] == city &&
      forall j :: 0 <= j < |favorites| ==> r[j] == favorites[j]
    ensures FindIndex(favorites, city) != -1 ==>
      |r| == |favorites| - 1 &&
      (forall j :: 0 <= j < FindIndex(favorites, city) ==> r[j] == favorites[j]) &&
      (forall j :: FindIndex(favorites, city) <= j < |r| ==> r[j] == favorites[j + 1])
  {
    var i := FindIndex(favorites, city);
    if i == -1 then favorites + [city]
    else favorites[..i] + favorites[i + 1..]
  }

  /** Toggling a city that is not a favorite twice gives back the original
      list. */
  lemma ToggleTwiceRestores(favorites: seq<Location>, city: Location)
    requires !IsFavorite(favorites, city)
    ensures Toggled(Toggled(favorites, city), city) == favorites
  {
    var added := favorites + [city];
    forall j | 0 <= j < |favorites|
      ensures !SamePlace(added[j], city)
    {
      assert added[j] == favorites[j];
    }
    assert SamePlace(added[|favorites|], city);
    var i := FindIndex(added, city);
    assert i == |favorites|;
    assert added[..|favorites|] == favorites;
  }

  /** Toggling a city that is a favorite twice moves it to the end of the list,
      under the name and country of the city toggled. */
  lemma ToggleTwiceMovesToEnd(favorites: seq<Location>, city: Location)
    requires Unique(favorites)
    requires IsFavorite(favorites, city)
    ensures Toggled(Toggled(favorites, city), city)
         == favorites[..FindIndex(favorites, city)] + favorites[FindIndex(favorites, city) + 1..] + [city]
  {
    var i := FindIndex(favorites, city);
    var removed := favorites[..i] + favorites[i + 1..];
    forall j | 0 <= j < |removed|
      ensures !SamePlace(removed[j], city)
    {
      if j < i {
        assert removed[j] == favorites[j];
      } else {
        assert removed[j] == favorites[j + 1];
      }
    }
  }

  /** Toggling keeps the list free of coordinate duplicates. */
  lemma ToggledUnique(favorites: seq<Location>, city: Location)
    requires Unique(favorites)
    ensures Unique(Toggled(favorites, city))
  {
    var i := FindIndex(favorites, city);
    var r := Toggled(favorites, city);
    if i != -1 {
      forall a, b | 0 <= a < b < |r|
        ensures !SamePlace(r[a], r[b])
      {
        var a' := if a < i then a else a + 1;
        var b' := if b < i then b else b + 1;
        assert r[a] == favorites[a'] && r[b] == favorites[b'];
      }
    }
  }

  /** On a list without duplicates, toggling flips the city's membership. */
  lemma ToggleFlipsMembership(favorites: seq<Location>, city: Location)
    requires Unique(favorites)
    ensures IsFavorite(Toggled(favorites, city), city) == !IsFavorite(favorites, city)
  {
    var i := FindIndex(favorites, city);
    var r := Toggled(favorites, city);
    if i == -1 {
      assert SamePlace(r[|favorites|], city);
    } else {
      forall j | 0 <= j < |r|
        ensures !SamePlace(r[j], city)
      {
        if j < i {
          assert r[j] == favorites[j];
        } else {
          assert r[j] == favorites[j + 1];
          assert !SamePlace(favorites[i], favorites[j + 1]);
        }
      }
    }
  }

  /** Toggling a city leaves the membership of every place at other
      coordinates alone. */
  lemma ToggleKeepsOthers(favorites: seq<Location>, city: Location, other: Location)
    requires !SamePlace(other, city)
    ensures IsFavorite(Toggled(favorites, city), other) == IsFavorite(favorites, other)
  {
    var i := FindIndex(favorites, city);
    var r := Toggled(favorites, city);
    if IsFavorite(favorites, other) {
      var j :| 0 <= j < |favorites| && SamePlace(favorites[j], other);
      if i == -1 || j < i {
        assert r[j] == favorites[j];
      } else {
        assert j != i;
        assert r[j - 1] == favorites[j];
      }
    }
    if IsFavorite(r, other) {
      var j :| 0 <= j < |r| && SamePlace(r[j], other);
      if i == -1 {
        assert j < |favorites| && r[j] == favorites[j];
      } else if j < i {
        assert r[j] == favorites[j];
      } else {
        assert r[j] == favorites[j + 1];
      }
    }
  }

  /** The page state the favorites feature reads and writes: the city on
      display, the favorites list, the content of the list's local-storage
      slot (`None` while nothing is stored), and the highlight of the "add
      favorite" button. */
  class Session {
    var currentCity: Option<Location>
    var favorites: seq<Location>
    var savedFavorites: Option<seq<Location>>
    var buttonActive: bool

    /** Page start: the list is read back from storage, an empty slot giving
        an empty list, and storage is left untouched; no city is loaded yet,
        and the button shows whatever highlight the page markup gives it. */
    constructor (stored: Option<seq<Location>>, lit: bool)
      ensures currentCity == None
      ensures favorites == (if stored.Some? then stored.value else [])
      ensures savedFavorites == stored
      ensures buttonActive == lit
    {
      currentCity := None;
      favorites := if stored.Some? then stored.value else [];
      savedFavorites := stored;
      buttonActive := lit;
    }

    /** A successful lookup makes `city` the current city. */
    method SelectCity(city: Location)
      modifies this`currentCity
      ensures currentCity == Some(city)
    {
      currentCity := Some(city);
    }

    /** The "add favorite" button: with no current city nothing happens;
        otherwise the city is toggled in the list, the button is lit when the
        city was added, and the new list is written to storage. */
    method ToggleFavorite()
      modifies this`favorites, this`savedFavorites, this`buttonActive
      ensures old(currentCity).None? ==>
        favorites == old(favorites) && savedFavorites == old(savedFavorites) && buttonActive == old(buttonActive)
      ensures old(currentCity).Some? ==>
        favorites == Toggled(old(favorites), currentCity.value) &&
        savedFavorites == Some(favorites) &&
        buttonActive == !IsFavorite(old(favorites), currentCity.value)
      ensures old(currentCity).Some? && Unique(old(favorites)) ==>
        Unique(favorites) && buttonActive == ButtonActive(currentCity, favorites)
    {
      if currentCity == None {
        return;
      }
      var city := currentCity.value;
      ghost var was := favorites;
      var index := FindIndex(favorites, city);
      if index == -1 {
        favorites := favorites + [city];
        buttonActive := true;
      } else {
        favorites := favorites[..index] + favorites[index + 1..];
        buttonActive := false;
      }
      savedFavorites := Some(favorites);
      assert favorites == Toggled(was, city);
      if Unique(was) {
        ToggledUnique(was, city);
        ToggleFlipsMembership(was, city);
      }
    }

    /** Refreshes the button highlight from the list and the current city. */
    method UpdateFavoriteButton()
      modifies this`buttonActive
      ensures buttonActive == ButtonActive(currentCity, favorites)
    {
      if currentCity == None {
        buttonActive := false;
        return;
      }
      var city := currentCity.value;
      buttonActive := IsFavorite(favorites, city);
    }
  }
}
