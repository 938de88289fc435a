/** The negative listening signals built once per run: how often each track occurs in the
    "too much" playlist, each track's position among the user's top tracks, and the artist-level
    sets derived from occurrence-weighted counts per artist name. */
module Signals {
  import opened Common
  import Catalog

  /** The signals handed to both the Radio generator and the Master assembler. */
  datatype History = History(
    topPositions: map<TrackId, nat>,
    tooMuchCounts: map<TrackId, nat>,
    artistTooMuch: set<ArtistId>,
    blacklistNames: set<string>)

  /** How often t is in the "too much" playlist, 0 when it is not. */
  function CountOf(counts: map<TrackId, nat>, t: TrackId): nat {
    GetOr(counts, t, 0)
  }

  /** The position of t among the top tracks, when it is one. */
  function PosOf(positions: map<TrackId, nat>, t: TrackId): Option<nat> {
    if t in positions then Some(positions[t]) else None
  }

  /** Counts the occurrences of every track id, duplicates included. */
  method CountOccurrences(tracks: seq<TrackId>) returns (counts: map<TrackId, nat>)
    ensures forall t :: t in counts <==> t in tracks
    ensures forall t :: CountOf(counts, t) == multiset(tracks)[t]
  {
    counts := map[];
    var i := 0;
    while i < |tracks|
      invariant 0 <= i <= |tracks|
      invariant forall t :: t in counts <==> t in tracks[..i]
      invariant forall t :: CountOf(counts, t) == multiset(tracks[..i])[t]
    {
      var t := tracks[i];
      assert tracks[..i + 1] == tracks[..i] + [t];
      counts := counts[t := CountOf(counts, t) + 1];
      i := i + 1;
    }
    assert tracks[..i] == tracks;
  }

  /** The dictionary from top track to its position: later positions overwrite earlier ones. */
  function TopPositions(top: seq<TrackId>): (pos: map<TrackId, nat>)
    ensures forall t :: t in pos <==> t in top
    ensures forall t :: t in pos ==> pos[t] < |top| && top[pos[t]] == t
    ensures forall t, j :: t in pos && pos[t] < j < |top| ==> top[j] != t
  {
    if top == [] then map[]
    else
      var n := |top| - 1;
      var prev := TopPositions(top[..n]);
      assert forall j :: 0 <= j < n ==> top[..n][j] == top[j];
      assert forall t :: t in top <==> t in top[..n] || t == top[n];
      prev[top[n] := n]
  }

  /** On a list without repeats, the position map is the inverse of indexing. */
  lemma TopPositionsInverse(top: seq<TrackId>, i: nat)
    requires Distinct(top) && i < |top|
    ensures PosOf(TopPositions(top), top[i]) == Some(i)
  {
    var pos := TopPositions(top);
    assert top[i] in pos;
    var p := pos[top[i]];
    assert p < |top| && top[p] == top[i];
    if p != i {
      assert false;
    }
  }

  /** The occurrence-weighted total of artist name `a` after the loop has seen `info`:
      each entry by `a` adds its occurrence count (1 when the count is missing).
      An empty artist name is never counted. */
  function NameTotal(info: seq<Entry>, occurrences: map<TrackId, nat>, a: string): nat {
    if info == [] then 0
    else
      var e := info[|info| - 1];
      NameTotal(info[..|info| - 1], occurrences, a)
      + (if a != "" && e.info.artistName == a then GetOr(occurrences, e.id, 1) else 0)
  }

  /** Builds `artistNameCounts` by walking the track information of the "too much" tracks. */
  method ArtistNameCounts(info: seq<Entry>, occurrences: map<TrackId, nat>) returns (names: map<string, nat>)
    ensures forall a :: a in names <==> a != "" && exists i :: 0 <= i < |info| && info[i].info.artistName == a
    ensures forall a :: GetOr(names, a, 0) == NameTotal(info, occurrences, a)
  {
    names := map[];
    var i := 0;
    while i < |info|
      invariant 0 <= i <= |info|
      invariant forall a :: a in names <==> a != "" && exists j :: 0 <= j < i && info[j].info.artistName == a
      invariant forall a :: GetOr(names, a, 0) == NameTotal(info[..i], occurrences, a)
    {
      var e := info[i];
      ghost var before := names;
      if e.info.artistName != "" {
        var count := GetOr(occurrences, e.id, 1);
        names := names[e.info.artistName := GetOr(names, e.info.artistName, 0) + count];
      }
      NameCountStep(info, occurrences, i, before, names);
      i := i + 1;
    }
    assert info[..i] == info;
  }

  /** One pass of `ArtistNameCounts`: adding entry `i` keeps both loop invariants. */
  lemma NameCountStep(info: seq<Entry>, occurrences: map<TrackId, nat>, i: nat,
                      names: map<string, nat>, names': map<string, nat>)
    requires i < |info|
    requires forall a :: a in names <==> a != "" && exists j :: 0 <= j < i && info[j].info.artistName == a
    requires forall a :: GetOr(names, a, 0) == NameTotal(info[..i], occurrences, a)
    requires names' == if info[i].info.artistName != "" then
                         names[info[i].info.artistName := GetOr(names, info[i].info.artistName, 0) + GetOr(occurrences, info[i].id, 1)]
                       else names
    ensures forall a :: a in names' <==> a != "" && exists j :: 0 <= j < i + 1 && info[j].info.artistName == a
    ensures forall a :: GetOr(names', a, 0) == NameTotal(info[..i + 1], occurrences, a)
  {
    assert info[..i + 1][..i] == info[..i];
    assert info[..i + 1][i] == info[i];
  }

  /** Builds `artistTooMuch`: the ids of artists whose name total is at least 3. */
  method ArtistsHeardTooMuch(info: seq<Entry>, names: map<string, nat>) returns (ids: set<ArtistId>)
    ensures forall id :: id in ids <==>
              exists i :: 0 <= i < |info| && info[i].info.artistId == Some(id) && id != ""
                          && GetOr(names, info[i].info.artistName, 0) >= 3
  {
    ids := {};
    var i := 0;
    while i < |info|
      invariant 0 <= i <= |info|
      invariant forall id :: id in ids <==>
                  exists j :: 0 <= j < i && info[j].info.artistId == Some(id) && id != ""
                              && GetOr(names, info[j].info.artistName, 0) >= 3
    {
      var e := info[i];
      if HasId(e.info.artistId) && GetOr(names, e.info.artistName, 0) >= 3 {
        ids := ids + {e.info.artistId.value};
      }
      i := i + 1;
    }
  }

  /** `artistTooMuch` membership: some entry carries artist id `id` under a name whose total is at least 3. */
  ghost predicate HeardTooMuch(info: seq<Entry>, occurrences: map<TrackId, nat>, id: ArtistId) {
    exists i :: 0 <= i < |info| && info[i].info.artistId == Some(id) && id != ""
                && NameTotal(info, occurrences, info[i].info.artistName) >= 3
  }

  /** Builds every signal of a run from the top tracks, the "too much" playlist and the catalog.
      The track information of the "too much" tracks is looked up for its distinct ids in
      first-occurrence order, which is what `TracksInfo(catalog, tooMuch)` denotes. */
  method BuildSignals(cfg: Config, top: seq<TrackId>, tooMuch: seq<TrackId>, catalog: map<TrackId, TrackInfo>)
    returns (h: History)
    ensures h.topPositions == TopPositions(top)
    ensures forall t :: t in h.tooMuchCounts <==> t in tooMuch
    ensures forall t :: CountOf(h.tooMuchCounts, t) == multiset(tooMuch)[t]
    ensures forall id :: id in h.artistTooMuch <==>
              cfg.artistIHearTooMuch && HeardTooMuch(Catalog.TracksInfo(catalog, tooMuch), h.tooMuchCounts, id)
    ensures forall n :: n in h.blacklistNames <==>
              cfg.artistBlacklist && NameTotal(Catalog.TracksInfo(catalog, tooMuch), h.tooMuchCounts, n) >= 10
    ensures "" !in h.blacklistNames
  {
    var positions := TopPositions(top);
    var counts := CountOccurrences(tooMuch);
    var artistTooMuch: set<ArtistId> := {};
    var blacklist: set<string> := {};
    ghost var info := Catalog.TracksInfo(catalog, tooMuch);
    if (cfg.artistIHearTooMuch || cfg.artistBlacklist) && tooMuch != [] {
      var occurrences := CountOccurrences(tooMuch);
      SameCounts(tooMuch, occurrences, counts);
      var tooMuchInfo := Catalog.TracksInfo(catalog, tooMuch);
      var names := ArtistNameCounts(tooMuchInfo, occurrences);
      if cfg.artistIHearTooMuch {
        artistTooMuch := ArtistsHeardTooMuch(tooMuchInfo, names);
        HeardTooMuchMatches(info, counts, names, artistTooMuch);
      }
      if cfg.artistBlacklist {
        blacklist := set n | n in names && names[n] >= 10;
        BlacklistMatches(info, counts, names, blacklist);
      }
    } else {
      NoInfoNoTotals(tooMuch, catalog, counts);
    }
    h := History(positions, counts, artistTooMuch, blacklist);
    EmptyNameTotal(info, counts);
  }

  lemma HeardTooMuchMatches(info: seq<Entry>, counts: map<TrackId, nat>, names: map<string, nat>, ids: set<ArtistId>)
    requires forall a :: GetOr(names, a, 0) == NameTotal(info, counts, a)
    requires forall id :: id in ids <==>
               exists i :: 0 <= i < |info| && info[i].info.artistId == Some(id) && id != ""
                           && GetOr(names, info[i].info.artistName, 0) >= 3
    ensures forall id :: id in ids <==> HeardTooMuch(info, counts, id)
  {
  }

  lemma BlacklistMatches(info: seq<Entry>, counts: map<TrackId, nat>, names: map<string, nat>, blacklist: set<string>)
    requires forall a :: GetOr(names, a, 0) == NameTotal(info, counts, a)
    requires blacklist == set n | n in names && names[n] >= 10
    ensures forall n :: n in blacklist <==> NameTotal(info, counts, n) >= 10
  {
    forall n ensures n in blacklist <==> NameTotal(info, counts, n) >= 10 {
      assert GetOr(names, n, 0) == NameTotal(info, counts, n);
    }
  }

  lemma SameCounts(tooMuch: seq<TrackId>, a: map<TrackId, nat>, b: map<TrackId, nat>)
    requires forall t :: t in a <==> t in tooMuch
    requires forall t :: t in b <==> t in tooMuch
    requires forall t :: CountOf(a, t) == multiset(tooMuch)[t]
    requires forall t :: CountOf(b, t) == multiset(tooMuch)[t]
    ensures a == b
  {
    forall t | t in a ensures a[t] == b[t] {
      assert CountOf(a, t) == CountOf(b, t);
    }
  }

  lemma NoInfoNoTotals(tooMuch: seq<TrackId>, catalog: map<TrackId, TrackInfo>, counts: map<TrackId, nat>)
    ensures tooMuch == [] ==> forall n :: NameTotal(Catalog.TracksInfo(catalog, tooMuch), counts, n) == 0
    ensures tooMuch == [] ==> forall id :: !HeardTooMuch(Catalog.TracksInfo(catalog, tooMuch), counts, id)
  {
  }

  /* ---- The occurrence weighting of the name totals ---- */

  /** How many positions of `s` hold a track whose information satisfies `sel`. */
  ghost function Positions(s: seq<TrackId>, info: seq<Entry>, sel: TrackInfo -> bool): nat {
    if s == [] then 0
    else
      var t := s[|s| - 1];
      Positions(s[..|s| - 1], info, sel) + (if Lookup(info, t).Some? && sel(Lookup(info, t).value) then 1 else 0)
  }

  /** The sum, over the entries whose information satisfies `sel`, of their multiplicity in `m`. */
  ghost function Weighted(info: seq<Entry>, sel: TrackInfo -> bool, m: multiset<TrackId>): nat {
    if info == [] then 0
    else
      var e := info[|info| - 1];
      Weighted(info[..|info| - 1], sel, m) + (if sel(e.info) then m[e.id] else 0)
  }

  function ByName(a: string): TrackInfo -> bool {
    (ti: TrackInfo) => ti.artistName == a
  }

  lemma {:induction false} WeightedAdd(info: seq<Entry>, sel: TrackInfo -> bool, m: multiset<TrackId>, x: TrackId)
    requires DistinctIds(info)
    ensures Weighted(info, sel, m + multiset{x})
            == Weighted(info, sel, m) + (if Lookup(info, x).Some? && sel(Lookup(info, x).value) then 1 else 0)
  {
    if info != [] {
      var init := info[..|info| - 1];
      var e := info[|info| - 1];
      assert DistinctIds(init);
      WeightedAdd(init, sel, m, x);
    }
  }

  /** Summing multiplicities over distinct entries counts the positions of `s`. */
  lemma {:induction false} WeightedCountsPositions(s: seq<TrackId>, info: seq<Entry>, sel: TrackInfo -> bool)
    requires DistinctIds(info)
    ensures Weighted(info, sel, multiset(s)) == Positions(s, info, sel)
  {
    if s == [] {
      WeightedEmpty(info, sel);
    } else {
      var init := s[..|s| - 1];
      var t := s[|s| - 1];
      assert s == init + [t];
      assert multiset(s) == multiset(init) + multiset{t};
      WeightedCountsPositions(init, info, sel);
      WeightedAdd(info, sel, multiset(init), t);
    }
  }

  lemma {:induction false} WeightedEmpty(info: seq<Entry>, sel: TrackInfo -> bool)
    ensures Weighted(info, sel, multiset{}) == 0
  {
    if info != [] {
      WeightedEmpty(info[..|info| - 1], sel);
    }
  }

  /** With the occurrence counts of `tooMuch` and entries drawn from it, the name total is the
      multiplicity-weighted sum over the entries by that name. */
  lemma {:induction false} NameTotalIsWeighted(info: seq<Entry>, occurrences: map<TrackId, nat>,
                                               tooMuch: seq<TrackId>, a: string)
    requires a != ""
    requires forall i :: 0 <= i < |info| ==> info[i].id in tooMuch
    requires forall t :: t in occurrences <==> t in tooMuch
    requires forall t :: CountOf(occurrences, t) == multiset(tooMuch)[t]
    ensures NameTotal(info, occurrences, a) == Weighted(info, ByName(a), multiset(tooMuch))
  {
    if info != [] {
      var init := info[..|info| - 1];
      var e := info[|info| - 1];
      assert forall i :: 0 <= i < |init| ==> init[i] == info[i];
      NameTotalIsWeighted(init, occurrences, tooMuch, a);
      assert e.id in occurrences;
      assert GetOr(occurrences, e.id, 1) == multiset(tooMuch)[e.id];
    }
  }

  /** The name total of artist `a` equals the number of positions of the "too much" playlist
      that hold a track by an artist of that name: repeated occurrences of one track count
      once each, and a track counts only through its own occurrences. */
  lemma NameTotalCountsOccurrences(tooMuch: seq<TrackId>, catalog: map<TrackId, TrackInfo>,
                                   occurrences: map<TrackId, nat>, a: string)
    requires a != ""
    requires forall t :: t in occurrences <==> t in tooMuch
    requires forall t :: CountOf(occurrences, t) == multiset(tooMuch)[t]
    ensures NameTotal(Catalog.TracksInfo(catalog, tooMuch), occurrences, a)
            == Positions(tooMuch, Catalog.TracksInfo(catalog, tooMuch), ByName(a))
  {
    var info := Catalog.TracksInfo(catalog, tooMuch);
    forall i | 0 <= i < |info| ensures info[i].id in tooMuch {
      assert Lookup(info, info[i].id).Some?;
    }
    NameTotalIsWeighted(info, occurrences, tooMuch, a);
    WeightedCountsPositions(tooMuch, info, ByName(a));
  }

  /** Tracks without an artist name are not totalled, so the empty name has total 0. */
  lemma {:induction false} EmptyNameTotal(info: seq<Entry>, occurrences: map<TrackId, nat>)
    ensures NameTotal(info, occurrences, "") == 0
  {
    if info != [] {
      EmptyNameTotal(info[..|info| - 1], occurrences);
    }
  }

  /** A positive name total belongs to a non-empty name that some entry carries. */
  lemma {:induction false} NameTotalPositive(info: seq<Entry>, occurrences: map<TrackId, nat>, a: string)
    requires NameTotal(info, occurrences, a) > 0
    ensures a != "" && exists i :: 0 <= i < |info| && info[i].info.artistName == a
  {
    var init := info[..|info| - 1];
    if NameTotal(init, occurrences, a) > 0 {
      NameTotalPositive(init, occurrences, a);
      var i :| 0 <= i < |init| && init[i].info.artistName == a;
      assert info[i] == init[i];
    }
  }
}
