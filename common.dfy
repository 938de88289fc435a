/** Shared vocabulary of the model: track records, configuration, random streams. */
module Common {

  datatype Option<+T> = None | Some(value: T) {
    function GetOr(default: T): T {
      match this
      case Some(v) => v
      case None => default
    }
  }

  /** How a run ends: normally, with "playlistsToInclude" missing from the configuration (after
      the Radio pass), or with a negative "numberOfRadioArtists" (before either playlist changes). */
  datatype Outcome = Done | MissingPlaylistsToInclude | NegativeRadioArtists

  type TrackId = string
  type ArtistId = string

  /** What the catalog reports for one track id: its name and its first artist
      (the artist id is absent when the track has no artists). */
  datatype TrackInfo = TrackInfo(name: string, artistName: string, artistId: Option<ArtistId>)

  /** One item of an id-keyed dictionary of track information. */
  datatype Entry = Entry(id: TrackId, info: TrackInfo)

  /** A stream of `random.random()` results; element i is the draw made for the i-th item of a loop. */
  type Draws = nat -> real

  /** A stream of random integers (for `randint`, `shuffle`, `sample`), reduced into range where used. */
  type Picks = nat -> nat

  /** The configuration options the core reads, after the program's defaults are applied. */
  datatype Config = Config(
    numberOfRadioArtists: int,
    radioArtistSongs: int,
    radioArtistRandomSongs: int,
    removeRadioSongsByWeight: bool,
    includeRadioInMaster: bool,
    includeDiscoverWeeklyInRadio: bool,
    weightModifier: real,
    playlistsToInclude: Option<seq<string>>,
    artistIHearTooMuch: bool,
    artistBlacklist: bool,
    splitTheDeck: bool)

  /** Python's truthiness of an optional id: present and non-empty. */
  predicate HasId(id: Option<ArtistId>) {
    id.Some? && id.value != ""
  }

  /** The value of key k, or the default when k is not a key. */
  function GetOr<K, V>(m: map<K, V>, k: K, default: V): V {
    if k in m then m[k] else default
  }

  function Min(a: nat, b: nat): nat {
    if a <= b then a else b
  }

  /** How many items a loop that stops once it holds `bound` of them can collect: a negative
      bound allows none. */
  function Clip(bound: int): nat {
    if bound < 0 then 0 else bound
  }

  predicate Distinct<T(==)>(s: seq<T>) {
    forall i, j :: 0 <= i < j < |s| ==> s[i] != s[j]
  }

  /** The keys of a dictionary are distinct. */
  predicate DistinctIds(es: seq<Entry>) {
    forall i, j :: 0 <= i < j < |es| ==> es[i].id != es[j].id
  }

  /** Dictionary lookup on an entry list: the information of the last entry with id t. */
  function Lookup(es: seq<Entry>, t: TrackId): (r: Option<TrackInfo>)
    ensures r.Some? <==> exists i :: 0 <= i < |es| && es[i].id == t
    ensures r.Some? ==> exists i :: 0 <= i < |es| && es[i] == Entry(t, r.value)
  {
    if es == [] then None
    else if es[|es| - 1].id == t then Some(es[|es| - 1].info)
    else
      var r := Lookup(es[..|es| - 1], t);
      assert forall i :: 0 <= i < |es| - 1 ==> es[..|es| - 1][i] == es[i];
      r
  }
}
