/** The "[RX] Radio" generator: artists are sampled from the Master playlist, and for each one
    that is not blacklisted a handful of its top tracks is kept, some of them overwritten by
    tracks drawn from the more popular three quarters of its catalogue. */
module Radio {
  import opened Common
  import opened Seqs
  import Weight
  import Signals
  import Catalog
  import Blacklist
  import Shuffling

  /** An album track as the artist lookups report it: its id, its first artist's id and its
      popularity when one is reported. */
  datatype ReleaseTrack = ReleaseTrack(id: TrackId, primaryArtist: ArtistId, popularity: Option<int>)

  /** What the service answers for one artist: its top tracks, and the tracks of its albums and
      singles, album after album. */
  datatype Releases = Releases(topTracks: seq<TrackId>, albumTracks: seq<ReleaseTrack>)

  /** Every random choice of one Radio run. Streams indexed by `nat -> …` hold one stream per
      chosen artist, by the artist's position in the sample. */
  datatype RadioDice = RadioDice(
    artists: Picks,
    topDraws: nat -> Draws,
    poolOrder: nat -> Picks,
    replaceDraws: nat -> Draws,
    slots: nat -> Picks,
    radioOrder: Picks,
    appendOrder: Picks)

  /** The popularity of a track, 0 when none is reported. */
  function Popularity(t: ReleaseTrack): int {
    t.popularity.GetOr(0)
  }

  /** The ids of a list of album tracks. */
  function Ids(s: seq<ReleaseTrack>): seq<TrackId> {
    Project(s, (t: ReleaseTrack) => t.id)
  }

  /* ---- The candidate pool of one artist ---- */

  /** The album tracks whose first artist is the artist itself. */
  function ByPrimary(artistId: ArtistId): (nat, ReleaseTrack) -> bool {
    (i: nat, t: ReleaseTrack) => t.primaryArtist == artistId
  }

  /** Collects the album tracks credited first to the artist, in album order. */
  method MainArtistTracks(albumTracks: seq<ReleaseTrack>, artistId: ArtistId) returns (r: seq<ReleaseTrack>)
    ensures r == Select(albumTracks, ByPrimary(artistId))
    ensures forall t :: t in r <==> t in albumTracks && t.primaryArtist == artistId
  {
    r := [];
    var i := 0;
    while i < |albumTracks|
      invariant 0 <= i <= |albumTracks|
      invariant r == Select(albumTracks[..i], ByPrimary(artistId))
    {
      assert albumTracks[..i + 1][..i] == albumTracks[..i];
      if albumTracks[i].primaryArtist == artistId {
        r := r + [albumTracks[i]];
      }
      i := i + 1;
    }
    assert albumTracks[..i] == albumTracks;
    forall t ensures t in r <==> t in albumTracks && t.primaryArtist == artistId {
      SelectIn(albumTracks, ByPrimary(artistId), t);
    }
  }

  /** The values of the dictionary keyed by track id that keeps the first track of every id:
      one track per id, in first-occurrence order. */
  function FirstById(s: seq<ReleaseTrack>): (r: seq<ReleaseTrack>)
    ensures Distinct(Ids(r))
    ensures forall t :: t in r ==> t in s
    ensures forall i :: 0 <= i < |s| ==> s[i].id in Ids(r)
  {
    if s == [] then []
    else
      var init := s[..|s| - 1];
      var t := s[|s| - 1];
      var r := FirstById(init);
      assert forall i :: 0 <= i < |init| ==> init[i] == s[i];
      if t.id in Ids(r) then r
      else
        var r' := r + [t];
        assert Ids(r') == Ids(r) + [t.id];
        r'
  }

  /** Keeps the first track seen for every id. */
  method DedupById(tracks: seq<ReleaseTrack>) returns (unique: seq<ReleaseTrack>)
    ensures unique == FirstById(tracks)
  {
    unique := [];
    var seen: set<TrackId> := {};
    var i := 0;
    while i < |tracks|
      invariant 0 <= i <= |tracks|
      invariant unique == FirstById(tracks[..i])
      invariant forall id :: id in seen <==> id in Ids(unique)
    {
      assert tracks[..i + 1][..i] == tracks[..i];
      var t := tracks[i];
      if t.id !in seen {
        seen := seen + {t.id};
        assert Ids(unique + [t]) == Ids(unique) + [t.id];
        unique := unique + [t];
      }
      i := i + 1;
    }
    assert tracks[..i] == tracks;
  }

  predicate Descending(s: seq<ReleaseTrack>) {
    forall i, j :: 0 <= i < j < |s| ==> Popularity(s[i]) >= Popularity(s[j])
  }

  /** Places x after every element at least as popular, so equal popularities keep their order. */
  function Insert(s: seq<ReleaseTrack>, x: ReleaseTrack): (r: seq<ReleaseTrack>)
    requires Descending(s)
    ensures |r| == |s| + 1
    ensures multiset(r) == multiset(s) + multiset{x}
    ensures Descending(r)
  {
    if s == [] then [x]
    else if Popularity(s[0]) < Popularity(x) then
      assert forall i :: 0 <= i < |s| ==> Popularity(s[0]) >= Popularity(s[i]);
      [x] + s
    else
      assert s == [s[0]] + s[1..];
      var rest := Insert(s[1..], x);
      InsertBehindHead(s, x, rest);
      [s[0]] + rest
  }

  lemma InsertBehindHead(s: seq<ReleaseTrack>, x: ReleaseTrack, rest: seq<ReleaseTrack>)
    requires s != [] && Descending(s) && Popularity(s[0]) >= Popularity(x)
    requires multiset(rest) == multiset(s[1..]) + multiset{x} && Descending(rest)
    ensures Descending([s[0]] + rest)
  {
    forall j | 0 <= j < |rest| ensures Popularity(s[0]) >= Popularity(rest[j]) {
      assert rest[j] in multiset(rest);
      if rest[j] != x {
        assert rest[j] in s[1..];
        var k :| 0 <= k < |s| - 1 && s[1..][k] == rest[j];
        assert s[k + 1] == rest[j];
      }
    }
    var r := [s[0]] + rest;
    forall i, j | 0 <= i < j < |r| ensures Popularity(r[i]) >= Popularity(r[j]) {
      assert r[j] == rest[j - 1];
      if i > 0 {
        assert r[i] == rest[i - 1];
      }
    }
  }

  /** A stable sort by popularity, most popular first. */
  function SortByPopularity(s: seq<ReleaseTrack>): (r: seq<ReleaseTrack>)
    ensures |r| == |s|
    ensures multiset(r) == multiset(s)
    ensures Descending(r)
  {
    if s == [] then []
    else
      assert s == s[..|s| - 1] + [s[|s| - 1]];
      Insert(SortByPopularity(s[..|s| - 1]), s[|s| - 1])
  }

  /** The more popular three quarters of the sorted tracks, the count rounded down. */
  function Pool(unique: seq<ReleaseTrack>): seq<ReleaseTrack> {
    SortByPopularity(unique)[..(3 * |unique|) / 4]
  }

  /** The pool has the size of three quarters of the distinct tracks (rounded down), contains
      only those tracks and is ordered by popularity. */
  lemma PoolShape(unique: seq<ReleaseTrack>)
    ensures |Pool(unique)| == (3 * |unique|) / 4
    ensures forall t :: t in Pool(unique) ==> t in unique
    ensures Descending(Pool(unique))
  {
    var sorted := SortByPopularity(unique);
    forall t | t in Pool(unique) ensures t in unique {
      assert t in sorted;
      assert t in multiset(sorted);
    }
  }

  /** Without repeated ids among the distinct tracks there are none in the pool. */
  lemma PoolDistinct(unique: seq<ReleaseTrack>)
    requires Distinct(Ids(unique))
    ensures Distinct(Ids(Pool(unique)))
  {
    var sorted := SortByPopularity(unique);
    DistinctIdsPermutation(unique, sorted);
    var pool := Pool(unique);
    forall i, j | 0 <= i < j < |pool| ensures Ids(pool)[i] != Ids(pool)[j] {
      assert pool[i] == sorted[i] && pool[j] == sorted[j];
      assert Ids(sorted)[i] != Ids(sorted)[j];
    }
  }

  /** A track left out of the pool is never more popular than a track in it. */
  lemma PoolKeepsMostPopular(unique: seq<ReleaseTrack>, dropped: ReleaseTrack, kept: ReleaseTrack)
    requires dropped in unique && dropped !in Pool(unique) && kept in Pool(unique)
    ensures Popularity(dropped) <= Popularity(kept)
  {
    var sorted := SortByPopularity(unique);
    var k := (3 * |unique|) / 4;
    assert |sorted| == |multiset(sorted)| == |unique|;
    assert dropped in multiset(sorted);
    var j :| 0 <= j < |sorted| && sorted[j] == dropped;
    var i :| 0 <= i < k && sorted[..k][i] == kept;
  }

  /** Reordering a list whose ids are distinct keeps them distinct. */
  lemma DistinctIdsPermutation(a: seq<ReleaseTrack>, b: seq<ReleaseTrack>)
    requires multiset(a) == multiset(b) && Distinct(Ids(a))
    ensures Distinct(Ids(b))
  {
    assert Distinct(a) by {
      forall i, j | 0 <= i < j < |a| ensures a[i] != a[j] {
        assert Ids(a)[i] != Ids(a)[j];
      }
    }
    Shuffling.SubMultisetDistinct(b, a);
    forall i, j | 0 <= i < j < |b| ensures Ids(b)[i] != Ids(b)[j] {
      assert b[i] in multiset(a) && b[j] in multiset(a);
      var p :| 0 <= p < |a| && a[p] == b[i];
      var q :| 0 <= q < |a| && a[q] == b[j];
    }
  }

  /* ---- The songs of one artist ---- */

  /** The Radio weight of a track: no artist escalation, clamped to [0, 10]. */
  function RadioWeight(h: Signals.History, modifier: real, t: TrackId): (w: real)
    ensures 0.0 <= w <= 10.0
  {
    Weight.ComputeWeight(Signals.CountOf(h.tooMuchCounts, t), Signals.PosOf(h.topPositions, t), modifier, true, false, 0)
  }

  /** Whether the weighting keeps the track drawn for at position i (always, when it is off). */
  predicate PassesWeight(cfg: Config, h: Signals.History, draws: Draws, i: nat, t: TrackId) {
    !cfg.removeRadioSongsByWeight || Weight.Included(draws(i), RadioWeight(h, cfg.weightModifier, t))
  }

  function KeepTop(cfg: Config, h: Signals.History, draws: Draws): (nat, TrackId) -> bool {
    (i: nat, t: TrackId) => PassesWeight(cfg, h, draws, i, t)
  }

  /** The top selection of an artist: its top tracks that survive the weighting, at most
      `radioArtistSongs` of them. */
  function TopSelection(cfg: Config, h: Signals.History, top: seq<TrackId>, draws: Draws): seq<TrackId> {
    Take(Select(top, KeepTop(cfg, h, draws)), Clip(cfg.radioArtistSongs))
  }

  /** The first-collected top songs of the source loop, which stops once `radioArtistSongs` are kept. */
  method SelectTopSongs(cfg: Config, h: Signals.History, top: seq<TrackId>, draws: Draws)
    returns (topSongs: seq<TrackId>)
    ensures topSongs == TopSelection(cfg, h, top, draws)
    ensures |topSongs| <= Clip(cfg.radioArtistSongs)
    ensures IsSubseq(topSongs, top)
    ensures !cfg.removeRadioSongsByWeight ==> topSongs == Take(top, Clip(cfg.radioArtistSongs))
  {
    var cap := Clip(cfg.radioArtistSongs);
    var keep := KeepTop(cfg, h, draws);
    topSongs := [];
    var i := 0;
    while i < |top| && |topSongs| < cap
      invariant 0 <= i <= |top|
      invariant topSongs == Select(top[..i], keep)
      invariant |topSongs| <= cap
    {
      assert top[..i + 1][..i] == top[..i];
      var t := top[i];
      if PassesWeight(cfg, h, draws, i, t) {
        topSongs := topSongs + [t];
      }
      i := i + 1;
    }
    SelectUpTo(top, keep, i, cap, topSongs);
    SelectSubseq(top, keep);
    TakeSubseq(Select(top, keep), top, cap);
    if !cfg.removeRadioSongsByWeight {
      SelectAll(top, keep);
    }
  }

  /** Whether the replacement loop uses the pool track at position i: it is not one of the top
      songs and it survives the weighting. */
  predicate Replaces(cfg: Config, h: Signals.History, topSongs: seq<TrackId>, draws: Draws, i: nat, t: TrackId) {
    t !in topSongs && PassesWeight(cfg, h, draws, i, t)
  }

  function KeepReplacement(cfg: Config, h: Signals.History, topSongs: seq<TrackId>, draws: Draws): (nat, TrackId) -> bool {
    (i: nat, t: TrackId) => Replaces(cfg, h, topSongs, draws, i, t)
  }

  /** The pool tracks the replacement loop would use, in the shuffled pool's order. */
  function Eligible(cfg: Config, h: Signals.History, topSongs: seq<TrackId>, shuffled: seq<TrackId>, draws: Draws): seq<TrackId> {
    Select(shuffled, KeepReplacement(cfg, h, topSongs, draws))
  }

  /** Overwrites a random slot of a copy of the top songs with each eligible pool track, at most
      `radioArtistRandomSongs` times; with no top songs nothing is overwritten. */
  method ReplaceSongs(cfg: Config, h: Signals.History, topSongs: seq<TrackId>, shuffled: seq<TrackId>,
                      draws: Draws, slots: Picks)
    returns (finalSongs: seq<TrackId>, replacements: nat)
    ensures |finalSongs| == |topSongs|
    ensures replacements <= Clip(cfg.radioArtistRandomSongs)
    ensures topSongs == [] ==> replacements == 0
    ensures topSongs != [] ==>
              replacements == Min(Clip(cfg.radioArtistRandomSongs), |Eligible(cfg, h, topSongs, shuffled, draws)|)
    ensures replacements == 0 ==> finalSongs == topSongs
    ensures forall k :: 0 <= k < |finalSongs| ==>
              finalSongs[k] == topSongs[k] || finalSongs[k] in Take(Eligible(cfg, h, topSongs, shuffled, draws), replacements)
    ensures replacements > 0 ==> Take(Eligible(cfg, h, topSongs, shuffled, draws), replacements)[replacements - 1] in finalSongs
  {
    var a := new TrackId[|topSongs|](k requires 0 <= k < |topSongs| => topSongs[k]);
    assert a[..] == topSongs;
    var i;
    i, replacements := OverwriteSlots(cfg, h, topSongs, shuffled, draws, slots, a);
    finalSongs := a[..];
    ReplacedSlots(cfg, h, topSongs, shuffled, draws, i, replacements, finalSongs);
  }

  /** The replacement loop over the copy `a` of the top songs: it stops at the end of the pool
      or after `radioArtistRandomSongs` overwrites. */
  method OverwriteSlots(cfg: Config, h: Signals.History, topSongs: seq<TrackId>, shuffled: seq<TrackId>,
                        draws: Draws, slots: Picks, a: array<TrackId>)
    returns (i: nat, replacements: nat)
    requires a[..] == topSongs
    modifies a
    ensures i <= |shuffled| && replacements <= Clip(cfg.radioArtistRandomSongs)
    ensures i == |shuffled| || replacements == Clip(cfg.radioArtistRandomSongs)
    ensures Replaced(cfg, h, topSongs, shuffled, draws, i, replacements, a[..])
  {
    var cap := Clip(cfg.radioArtistRandomSongs);
    replacements := 0;
    i := 0;
    while i < |shuffled| && replacements < cap
      invariant 0 <= i <= |shuffled|
      invariant replacements <= cap
      invariant a.Length == |topSongs|
      invariant Replaced(cfg, h, topSongs, shuffled, draws, i, replacements, a[..])
    {
      var t := shuffled[i];
      ghost var cur, done := a[..], replacements;
      if Replaces(cfg, h, topSongs, draws, i, t) && a.Length > 0 {
        var j := slots(i) % a.Length;
        a[j] := t;
        assert a[..] == cur[j := t];
        replacements := replacements + 1;
      }
      ReplaceStep(cfg, h, topSongs, shuffled, draws, slots, i, done, cur, replacements, a[..]);
      i := i + 1;
    }
  }

  /** The state of the replacement loop after the first i pool tracks: one overwrite per eligible
      track seen (none without top songs), every slot keeping its top song or holding one of them. */
  ghost predicate Replaced(cfg: Config, h: Signals.History, topSongs: seq<TrackId>, shuffled: seq<TrackId>, draws: Draws,
                           i: nat, replacements: nat, cur: seq<TrackId>) {
    var used := Select(shuffled[..Min(i, |shuffled|)], KeepReplacement(cfg, h, topSongs, draws));
    && (topSongs == [] ==> replacements == 0)
    && (topSongs != [] ==> replacements == |used|)
    && Overwritten(cur, topSongs, used)
  }

  /** One pass of the replacement loop keeps its state. */
  lemma ReplaceStep(cfg: Config, h: Signals.History, topSongs: seq<TrackId>, shuffled: seq<TrackId>, draws: Draws,
                    slots: Picks, i: nat, replacements: nat, cur: seq<TrackId>, replacements': nat, next: seq<TrackId>)
    requires i < |shuffled| && |cur| == |topSongs|
    requires Replaced(cfg, h, topSongs, shuffled, draws, i, replacements, cur)
    requires var t := shuffled[i];
             if Replaces(cfg, h, topSongs, draws, i, t) && |cur| > 0
             then replacements' == replacements + 1 && next == cur[slots(i) % |cur| := t]
             else replacements' == replacements && next == cur
    ensures Replaced(cfg, h, topSongs, shuffled, draws, i + 1, replacements', next)
  {
    var keep := KeepReplacement(cfg, h, topSongs, draws);
    var t := shuffled[i];
    var sel := Select(shuffled[..i], keep);
    EligibleStep(cfg, h, topSongs, shuffled, draws, i);
    if Replaces(cfg, h, topSongs, draws, i, t) && |cur| > 0 {
      var j := slots(i) % |cur|;
      SlotsOverwrite(cur, topSongs, sel, j, t);
      assert cur[j := t][j] == t;
    } else {
      SlotsExtend(cur, topSongs, sel, Select(shuffled[..i + 1], keep));
    }
  }

  /** When the replacement loop stops, the overwrites used are the first eligible pool tracks,
      as many as allowed or all of them. */
  lemma ReplacedSlots(cfg: Config, h: Signals.History, topSongs: seq<TrackId>, shuffled: seq<TrackId>, draws: Draws,
                      i: nat, replacements: nat, finalSongs: seq<TrackId>)
    requires i <= |shuffled| && replacements <= Clip(cfg.radioArtistRandomSongs)
    requires i == |shuffled| || replacements == Clip(cfg.radioArtistRandomSongs)
    requires Replaced(cfg, h, topSongs, shuffled, draws, i, replacements, finalSongs)
    ensures topSongs != [] ==>
              replacements == Min(Clip(cfg.radioArtistRandomSongs), |Eligible(cfg, h, topSongs, shuffled, draws)|)
    ensures forall k :: 0 <= k < |finalSongs| ==>
              finalSongs[k] == topSongs[k] || finalSongs[k] in Take(Eligible(cfg, h, topSongs, shuffled, draws), replacements)
    ensures replacements == 0 ==> finalSongs == topSongs
    ensures replacements > 0 ==> Take(Eligible(cfg, h, topSongs, shuffled, draws), replacements)[replacements - 1] in finalSongs
  {
    var keep := KeepReplacement(cfg, h, topSongs, draws);
    var all := Select(shuffled, keep);
    SelectPrefix(shuffled, keep, i);
    if topSongs != [] {
      if i == |shuffled| {
        assert shuffled[..i] == shuffled;
      }
      assert Take(all, replacements) == Select(shuffled[..i], keep);
    }
    if replacements == 0 {
      assert forall k :: 0 <= k < |finalSongs| ==> finalSongs[k] == topSongs[k];
    }
  }

  lemma EligibleStep(cfg: Config, h: Signals.History, topSongs: seq<TrackId>, shuffled: seq<TrackId>, draws: Draws, i: nat)
    requires i < |shuffled|
    ensures var keep := KeepReplacement(cfg, h, topSongs, draws);
            Select(shuffled[..i + 1], keep)
            == Select(shuffled[..i], keep) + (if Replaces(cfg, h, topSongs, draws, i, shuffled[i]) then [shuffled[i]] else [])
  {
    assert shuffled[..i + 1][..i] == shuffled[..i];
  }

  /** Every slot of `cur` still holds its top song, or holds one of the tracks `used`. */
  ghost predicate SlotsFrom(cur: seq<TrackId>, topSongs: seq<TrackId>, used: seq<TrackId>) {
    |cur| == |topSongs| && forall k :: 0 <= k < |cur| ==> cur[k] == topSongs[k] || cur[k] in used
  }

  /** The slots of `cur` come from the top songs or the tracks `used`, and when there were top
      songs to overwrite, the last track used is in one of them. */
  ghost predicate Overwritten(cur: seq<TrackId>, topSongs: seq<TrackId>, used: seq<TrackId>) {
    && SlotsFrom(cur, topSongs, used)
    && (topSongs != [] && used != [] ==> used[|used| - 1] in cur)
  }

  lemma OverwrittenOf(cur: seq<TrackId>, topSongs: seq<TrackId>, used: seq<TrackId>, n: nat)
    requires |cur| == |topSongs| && |used| == n
    requires forall k :: 0 <= k < |cur| ==> cur[k] == topSongs[k] || cur[k] in used
    requires n > 0 ==> used[n - 1] in cur
    ensures Overwritten(cur, topSongs, used)
  { }

  lemma SlotsOverwrite(cur: seq<TrackId>, topSongs: seq<TrackId>, used: seq<TrackId>, j: nat, t: TrackId)
    requires SlotsFrom(cur, topSongs, used) && j < |cur|
    ensures SlotsFrom(cur[j := t], topSongs, used + [t])
  {
  }

  lemma SlotsExtend(cur: seq<TrackId>, topSongs: seq<TrackId>, used: seq<TrackId>, more: seq<TrackId>)
    requires SlotsFrom(cur, topSongs, used) && used <= more
    ensures SlotsFrom(cur, topSongs, more)
  {
    forall k | 0 <= k < |cur| && cur[k] != topSongs[k] ensures cur[k] in more {
      var m :| 0 <= m < |used| && used[m] == cur[k];
      assert more[m] == used[m];
    }
  }

  /** A track of `finalSongs` outside the top songs is a pool track. */
  lemma ReplacementsFromPool(cfg: Config, h: Signals.History, topSongs: seq<TrackId>, shuffled: seq<TrackId>,
                             draws: Draws, n: nat, t: TrackId)
    requires t in Take(Eligible(cfg, h, topSongs, shuffled, draws), n)
    ensures t in shuffled && t !in topSongs
  {
    var keep := KeepReplacement(cfg, h, topSongs, draws);
    assert t in Select(shuffled, keep);
    SelectIn(shuffled, keep, t);
  }

  /** The pool of one artist: its album tracks credited first to it, one per id, the more
      popular three quarters. */
  function ArtistPool(artistId: ArtistId, rel: Releases): seq<ReleaseTrack> {
    Pool(FirstById(Select(rel.albumTracks, ByPrimary(artistId))))
  }

  /** The pool holds no repeated id, and only album tracks credited first to the artist. */
  lemma ArtistPoolTracks(artistId: ArtistId, rel: Releases)
    ensures Distinct(Ids(ArtistPool(artistId, rel)))
    ensures forall x :: x in ArtistPool(artistId, rel) ==> x in rel.albumTracks && x.primaryArtist == artistId
  {
    var mine := Select(rel.albumTracks, ByPrimary(artistId));
    var unique := FirstById(mine);
    PoolShape(unique);
    PoolDistinct(unique);
    forall x | x in ArtistPool(artistId, rel) ensures x in rel.albumTracks && x.primaryArtist == artistId {
      assert x in unique && x in mine;
      SelectIn(rel.albumTracks, ByPrimary(artistId), x);
    }
  }

  /** Track t can come from the artist: one of its top tracks, or an album track credited first to it. */
  ghost predicate Contributes(artistId: ArtistId, rel: Releases, t: TrackId) {
    t in rel.topTracks || exists x :: x in rel.albumTracks && x.id == t && x.primaryArtist == artistId
  }

  /** The pool tracks the replacement loop of an artist uses: the first eligible tracks of its
      shuffled pool, at most `radioArtistRandomSongs` of them. */
  function UsedReplacements(cfg: Config, h: Signals.History, artistId: ArtistId, rel: Releases, topDraws: Draws,
                            poolOrder: Picks, replaceDraws: Draws): seq<TrackId> {
    var top := TopSelection(cfg, h, rel.topTracks, topDraws);
    var shuffled := Shuffling.Shuffled(Ids(ArtistPool(artistId, rel)), poolOrder);
    Take(Eligible(cfg, h, top, shuffled, replaceDraws), Clip(cfg.radioArtistRandomSongs))
  }

  /** The songs an artist that is not blacklisted adds to the Radio: one per slot of its top
      selection, each slot keeping its top track or holding one of the pool tracks used, and the
      last pool track used (when there are top songs to overwrite) is among them. */
  ghost predicate SongsOf(cfg: Config, h: Signals.History, artistId: ArtistId, rel: Releases, topDraws: Draws,
                          poolOrder: Picks, replaceDraws: Draws, songs: seq<TrackId>) {
    Overwritten(songs, TopSelection(cfg, h, rel.topTracks, topDraws),
                UsedReplacements(cfg, h, artistId, rel, topDraws, poolOrder, replaceDraws))
  }

  /** A pool track used as a replacement is a pool track outside the top selection. */
  lemma UsedFromPool(cfg: Config, h: Signals.History, artistId: ArtistId, rel: Releases, topDraws: Draws,
                     poolOrder: Picks, replaceDraws: Draws, t: TrackId)
    requires t in UsedReplacements(cfg, h, artistId, rel, topDraws, poolOrder, replaceDraws)
    ensures t in Ids(ArtistPool(artistId, rel))
    ensures t !in TopSelection(cfg, h, rel.topTracks, topDraws)
  {
    var top := TopSelection(cfg, h, rel.topTracks, topDraws);
    var shuffled := Shuffling.Shuffled(Ids(ArtistPool(artistId, rel)), poolOrder);
    ReplacementsFromPool(cfg, h, top, shuffled, replaceDraws, Clip(cfg.radioArtistRandomSongs), t);
    assert t in multiset(shuffled);
  }

  /** Whenever the source overwrites at least once (top songs, a positive replacement cap and an
      eligible pool track), the artist's songs differ from its top selection in some slot. */
  lemma ReplacementLands(cfg: Config, h: Signals.History, artistId: ArtistId, rel: Releases, topDraws: Draws,
                         poolOrder: Picks, replaceDraws: Draws, songs: seq<TrackId>)
    requires SongsOf(cfg, h, artistId, rel, topDraws, poolOrder, replaceDraws, songs)
    requires var top := TopSelection(cfg, h, rel.topTracks, topDraws);
             && top != [] && Clip(cfg.radioArtistRandomSongs) > 0
             && Eligible(cfg, h, top, Shuffling.Shuffled(Ids(ArtistPool(artistId, rel)), poolOrder), replaceDraws) != []
    ensures exists k :: 0 <= k < |songs| && songs[k] !in TopSelection(cfg, h, rel.topTracks, topDraws)
  {
    var used := UsedReplacements(cfg, h, artistId, rel, topDraws, poolOrder, replaceDraws);
    var t := used[|used| - 1];
    UsedFromPool(cfg, h, artistId, rel, topDraws, poolOrder, replaceDraws, t);
    var k :| 0 <= k < |songs| && songs[k] == t;
  }

  /** The Radio tracks of one artist that is not blacklisted. */
  method ArtistSongs(cfg: Config, h: Signals.History, artistId: ArtistId, rel: Releases,
                     topDraws: Draws, order: Picks, replaceDraws: Draws, slots: Picks)
    returns (songs: seq<TrackId>)
    ensures SongsOf(cfg, h, artistId, rel, topDraws, order, replaceDraws, songs)
    ensures cfg.radioArtistRandomSongs <= 0 ==> songs == TopSelection(cfg, h, rel.topTracks, topDraws)
    ensures |songs| <= Clip(cfg.radioArtistSongs)
    ensures |songs| <= |rel.topTracks|
    ensures forall t :: t in songs ==> t in rel.topTracks || t in Ids(ArtistPool(artistId, rel))
    ensures forall t :: t in songs ==> Contributes(artistId, rel, t)
  {
    var mine := MainArtistTracks(rel.albumTracks, artistId);
    var unique := DedupById(mine);
    var pool := Pool(unique);
    assert pool == ArtistPool(artistId, rel);
    var shuffled := Shuffling.Shuffle(Ids(pool), order);
    var topSongs := SelectTopSongs(cfg, h, rel.topTracks, topDraws);
    var replacements;
    songs, replacements := ReplaceSongs(cfg, h, topSongs, shuffled, replaceDraws, slots);
    ReplacedSongs(cfg, h, artistId, rel, topDraws, order, replaceDraws, replacements, songs);
    SongsContribute(cfg, h, artistId, rel, topDraws, order, replaceDraws, songs);
  }

  /** The slot facts of the replacement step, stated over the artist's top selection and its
      shuffled pool, are the artist's songs. */
  lemma ReplacedSongs(cfg: Config, h: Signals.History, artistId: ArtistId, rel: Releases, topDraws: Draws,
                      poolOrder: Picks, replaceDraws: Draws, n: nat, songs: seq<TrackId>)
    requires var top := TopSelection(cfg, h, rel.topTracks, topDraws);
             var eligible := Eligible(cfg, h, top, Shuffling.Shuffled(Ids(ArtistPool(artistId, rel)), poolOrder), replaceDraws);
             && |songs| == |top|
             && (top == [] ==> n == 0)
             && (top != [] ==> n == Min(Clip(cfg.radioArtistRandomSongs), |eligible|))
             && (forall k :: 0 <= k < |songs| ==> songs[k] == top[k] || songs[k] in Take(eligible, n))
             && (n > 0 ==> Take(eligible, n)[n - 1] in songs)
    ensures SongsOf(cfg, h, artistId, rel, topDraws, poolOrder, replaceDraws, songs)
  {
    var top := TopSelection(cfg, h, rel.topTracks, topDraws);
    var eligible := Eligible(cfg, h, top, Shuffling.Shuffled(Ids(ArtistPool(artistId, rel)), poolOrder), replaceDraws);
    OverwrittenOf(songs, top, Take(eligible, n), n);
    if top != [] {
      TakeMin(eligible, Clip(cfg.radioArtistRandomSongs));
      assert Take(eligible, n) == UsedReplacements(cfg, h, artistId, rel, topDraws, poolOrder, replaceDraws);
    }
  }

  /** Every song of an artist is one of its top tracks or an album track credited first to it. */
  lemma SongsContribute(cfg: Config, h: Signals.History, artistId: ArtistId, rel: Releases, topDraws: Draws,
                        poolOrder: Picks, replaceDraws: Draws, songs: seq<TrackId>)
    requires SongsOf(cfg, h, artistId, rel, topDraws, poolOrder, replaceDraws, songs)
    ensures forall t :: t in songs ==> t in rel.topTracks || t in Ids(ArtistPool(artistId, rel))
    ensures forall t :: t in songs ==> Contributes(artistId, rel, t)
  {
    forall t | t in songs ensures t in rel.topTracks || t in Ids(ArtistPool(artistId, rel)) {
      SongOrigin(cfg, h, artistId, rel, topDraws, poolOrder, replaceDraws, songs, t);
    }
    forall t | t in songs ensures Contributes(artistId, rel, t) {
      SongOrigin(cfg, h, artistId, rel, topDraws, poolOrder, replaceDraws, songs, t);
      if t !in rel.topTracks {
        PoolContributes(artistId, rel, t);
      }
    }
  }

  /** A song of an artist is one of its top tracks or a track of its pool. */
  lemma SongOrigin(cfg: Config, h: Signals.History, artistId: ArtistId, rel: Releases, topDraws: Draws,
                   poolOrder: Picks, replaceDraws: Draws, songs: seq<TrackId>, t: TrackId)
    requires SongsOf(cfg, h, artistId, rel, topDraws, poolOrder, replaceDraws, songs)
    requires t in songs
    ensures t in rel.topTracks || t in Ids(ArtistPool(artistId, rel))
  {
    var top := TopSelection(cfg, h, rel.topTracks, topDraws);
    var k :| 0 <= k < |songs| && songs[k] == t;
    if t == top[k] {
      TopSongsAreTop(cfg, h, rel.topTracks, topDraws, top, t);
    } else {
      UsedFromPool(cfg, h, artistId, rel, topDraws, poolOrder, replaceDraws, t);
    }
  }

  lemma TopSongsAreTop(cfg: Config, h: Signals.History, top: seq<TrackId>, draws: Draws, topSongs: seq<TrackId>, t: TrackId)
    requires topSongs == TopSelection(cfg, h, top, draws)
    requires t in topSongs
    ensures t in top
  {
    var keep := KeepTop(cfg, h, draws);
    assert t in Select(top, keep);
    SelectIn(top, keep, t);
  }

  /** A pool track is an album track credited first to the artist. */
  lemma PoolContributes(artistId: ArtistId, rel: Releases, t: TrackId)
    requires t in Ids(ArtistPool(artistId, rel))
    ensures Contributes(artistId, rel, t)
  {
    var pool := ArtistPool(artistId, rel);
    ArtistPoolTracks(artistId, rel);
    var k :| 0 <= k < |pool| && Ids(pool)[k] == t;
    assert pool[k] in pool;
  }

  /* ---- Choosing the artists ---- */

  /** Some track of the Master information is credited first to artist id `a` (a non-empty id). */
  ghost predicate Credited(info: seq<Entry>, a: ArtistId) {
    a != "" && exists i :: 0 <= i < |info| && info[i].info.artistId == Some(a)
  }

  /** The distinct artist ids credited on the Master tracks. */
  ghost function CreditedArtists(info: seq<Entry>): set<ArtistId> {
    set i | 0 <= i < |info| && HasId(info[i].info.artistId) :: info[i].info.artistId.value
  }

  /** The Master tracks grouped under artist `a`, in dictionary order. */
  function TracksBy(info: seq<Entry>, a: ArtistId): (r: seq<TrackId>)
    ensures (forall i :: 0 <= i < |info| ==> info[i].info.artistId != Some(a)) ==> r == []
  {
    if info == [] then []
    else
      var e := info[|info| - 1];
      TracksBy(info[..|info| - 1], a) + (if e.info.artistId == Some(a) then [e.id] else [])
  }

  /** The name recorded for artist `a`: the artist name of the last track credited to it. */
  function LastName(info: seq<Entry>, a: ArtistId): (r: Option<string>)
    ensures r.Some? <==> exists i :: 0 <= i < |info| && info[i].info.artistId == Some(a)
  {
    if info == [] then None
    else
      var e := info[|info| - 1];
      if e.info.artistId == Some(a) then Some(e.info.artistName)
      else
        assert forall i :: 0 <= i < |info| - 1 ==> info[..|info| - 1][i] == info[i];
        LastName(info[..|info| - 1], a)
  }

  /** The keys of the grouping of `info`: the credited artist ids, each once. */
  ghost predicate KeysOf(info: seq<Entry>, keys: seq<ArtistId>) {
    Distinct(keys) && forall a :: a in keys <==> Credited(info, a)
  }

  /** The track lists of the grouping of `info`: one per key. */
  ghost predicate TrackListsOf(info: seq<Entry>, keys: seq<ArtistId>, tracksOf: map<ArtistId, seq<TrackId>>) {
    (forall a :: a in tracksOf <==> a in keys) && forall a :: a in tracksOf ==> tracksOf[a] == TracksBy(info, a)
  }

  /** The names of the grouping of `info`: one per key, from its last track. */
  ghost predicate NamesOf(info: seq<Entry>, keys: seq<ArtistId>, names: map<ArtistId, string>) {
    (forall a :: a in names <==> a in keys) && forall a :: a in names ==> LastName(info, a) == Some(names[a])
  }

  /** Groups the Master tracks by their non-empty artist id: the keys in first-seen order, the
      track lists, and the name of every key. */
  method GroupByArtist(info: seq<Entry>)
    returns (keys: seq<ArtistId>, tracksOf: map<ArtistId, seq<TrackId>>, names: map<ArtistId, string>)
    ensures KeysOf(info, keys)
    ensures TrackListsOf(info, keys, tracksOf)
    ensures NamesOf(info, keys, names)
  {
    keys, tracksOf, names := [], map[], map[];
    var i := 0;
    while i < |info|
      invariant 0 <= i <= |info|
      invariant Grouped(info[..i], keys, tracksOf, names)
    {
      var e := info[i];
      if HasId(e.info.artistId) {
        var a := e.info.artistId.value;
        GroupAdd(info, i, keys, tracksOf, names);
        if a !in tracksOf {
          keys := keys + [a];
        }
        tracksOf := tracksOf[a := GetOr(tracksOf, a, []) + [e.id]];
        names := names[a := e.info.artistName];
      } else {
        GroupedSkip(info, i, keys, tracksOf, names);
      }
      i := i + 1;
    }
    assert info[..i] == info;
  }

  /** The three parts of the grouping of `info`. */
  ghost predicate Grouped(info: seq<Entry>, keys: seq<ArtistId>, tracksOf: map<ArtistId, seq<TrackId>>,
                          names: map<ArtistId, string>) {
    KeysOf(info, keys) && TrackListsOf(info, keys, tracksOf) && NamesOf(info, keys, names)
  }

  /** An entry with an artist id adds the id as a key when it is new, its track to the id's
      list, and its artist name as the id's name. */
  lemma GroupAdd(info: seq<Entry>, i: nat, keys: seq<ArtistId>, tracksOf: map<ArtistId, seq<TrackId>>,
                 names: map<ArtistId, string>)
    requires i < |info| && HasId(info[i].info.artistId)
    requires Grouped(info[..i], keys, tracksOf, names)
    ensures var a := info[i].info.artistId.value;
            Grouped(info[..i + 1], if a in tracksOf then keys else keys + [a],
                    tracksOf[a := GetOr(tracksOf, a, []) + [info[i].id]], names[a := info[i].info.artistName])
  {
    var a := info[i].info.artistId.value;
    assert a in tracksOf <==> a in keys;
    KeysAdd(info, i, keys, a in keys);
    TracksAdd(info, i, keys, tracksOf);
    NamesAdd(info, i, keys, names);
  }

  lemma KeysAdd(info: seq<Entry>, i: nat, keys: seq<ArtistId>, known: bool)
    requires i < |info| && HasId(info[i].info.artistId)
    requires KeysOf(info[..i], keys) && known == (info[i].info.artistId.value in keys)
    ensures KeysOf(info[..i + 1], if known then keys else keys + [info[i].info.artistId.value])
  {
    var keys' := if known then keys else keys + [info[i].info.artistId.value];
    forall b ensures b in keys' <==> Credited(info[..i + 1], b) {
      GroupStep(info, i, b);
    }
  }

  lemma TracksAdd(info: seq<Entry>, i: nat, keys: seq<ArtistId>, tracksOf: map<ArtistId, seq<TrackId>>)
    requires i < |info| && HasId(info[i].info.artistId)
    requires KeysOf(info[..i], keys) && TrackListsOf(info[..i], keys, tracksOf)
    ensures var a := info[i].info.artistId.value;
            TrackListsOf(info[..i + 1], if a in keys then keys else keys + [a],
                         tracksOf[a := GetOr(tracksOf, a, []) + [info[i].id]])
  {
    var a := info[i].info.artistId.value;
    var tracks' := tracksOf[a := GetOr(tracksOf, a, []) + [info[i].id]];
    forall b | b in tracks' ensures tracks'[b] == TracksBy(info[..i + 1], b) {
      GroupStep(info, i, b);
    }
  }

  lemma NamesAdd(info: seq<Entry>, i: nat, keys: seq<ArtistId>, names: map<ArtistId, string>)
    requires i < |info| && HasId(info[i].info.artistId)
    requires NamesOf(info[..i], keys, names)
    ensures var a := info[i].info.artistId.value;
            NamesOf(info[..i + 1], if a in keys then keys else keys + [a], names[a := info[i].info.artistName])
  {
    var a := info[i].info.artistId.value;
    var names' := names[a := info[i].info.artistName];
    forall b | b in names' ensures LastName(info[..i + 1], b) == Some(names'[b]) {
      GroupStep(info, i, b);
    }
  }

  /** An entry without a usable artist id changes nothing. */
  lemma GroupedSkip(info: seq<Entry>, i: nat, keys: seq<ArtistId>, tracksOf: map<ArtistId, seq<TrackId>>,
                    names: map<ArtistId, string>)
    requires i < |info| && !HasId(info[i].info.artistId)
    requires Grouped(info[..i], keys, tracksOf, names)
    ensures Grouped(info[..i + 1], keys, tracksOf, names)
  {
    forall b ensures b in keys <==> Credited(info[..i + 1], b) {
      GroupStep(info, i, b);
    }
    forall b | b in tracksOf ensures tracksOf[b] == TracksBy(info[..i + 1], b) {
      GroupStep(info, i, b);
    }
    forall b | b in names ensures LastName(info[..i + 1], b) == Some(names[b]) {
      GroupStep(info, i, b);
    }
  }

  /** What one more Master entry changes in the grouping's specification. */
  lemma GroupStep(info: seq<Entry>, i: nat, a: ArtistId)
    requires i < |info|
    ensures Credited(info[..i + 1], a) <==>
              Credited(info[..i], a) || (HasId(info[i].info.artistId) && info[i].info.artistId.value == a)
    ensures TracksBy(info[..i + 1], a)
            == TracksBy(info[..i], a) + (if info[i].info.artistId == Some(a) then [info[i].id] else [])
    ensures LastName(info[..i + 1], a)
            == if info[i].info.artistId == Some(a) then Some(info[i].info.artistName) else LastName(info[..i], a)
  {
    var prefix := info[..i + 1];
    assert prefix[..i] == info[..i];
    assert forall j :: 0 <= j < i ==> prefix[j] == info[..i][j];
  }

  /** The number of keys is the number of distinct credited artists. */
  lemma KeysCount(info: seq<Entry>, keys: seq<ArtistId>)
    requires KeysOf(info, keys)
    ensures |keys| == |CreditedArtists(info)|
  {
    DistinctCard(keys);
    forall a ensures a in (set x | x in keys) <==> a in CreditedArtists(info) {
      if Credited(info, a) {
        var i :| 0 <= i < |info| && info[i].info.artistId == Some(a);
        assert HasId(info[i].info.artistId);
      }
    }
    assert (set x | x in keys) == CreditedArtists(info);
  }

  /* ---- The whole Radio ---- */

  /** The Discover Weekly tracks that seed the Radio, when the option is on and the playlist exists. */
  function DiscoverSeed(cfg: Config, playlists: seq<Catalog.UserPlaylist>): seq<TrackId> {
    if cfg.includeDiscoverWeeklyInRadio then Catalog.FindByName(playlists, "Discover Weekly").GetOr([]) else []
  }

  /** The name recorded for a credited artist (empty for any other id). */
  function NameOf(info: seq<Entry>, a: ArtistId): string {
    LastName(info, a).GetOr("")
  }

  /** Track t can come from one of the chosen artists that is not blacklisted. */
  ghost predicate FromSampledArtist(cfg: Config, h: Signals.History, masterInfo: seq<Entry>,
                                    releases: ArtistId -> Releases, chosen: seq<ArtistId>, t: TrackId) {
    exists a :: a in chosen && !Blacklist.Blacklisted(cfg.artistBlacklist, h.blacklistNames, NameOf(masterInfo, a))
                && Contributes(a, releases(a), t)
  }

  /** The block of songs the chosen artist `a` adds to the Radio: nothing when its Master name
      is blacklisted, otherwise its songs drawn with `topDraws`, `poolOrder` and `replaceDraws`. */
  ghost predicate RadioBlock(cfg: Config, h: Signals.History, masterInfo: seq<Entry>, releases: ArtistId -> Releases,
                             dice: RadioDice, k: nat, a: ArtistId, block: seq<TrackId>) {
    if Blacklist.Blacklisted(cfg.artistBlacklist, h.blacklistNames, NameOf(masterInfo, a)) then block == []
    else SongsOf(cfg, h, a, releases(a), dice.topDraws(k), dice.poolOrder(k), dice.replaceDraws(k), block)
  }

  /** The blocks of the first |blocks| chosen artists, the k-th drawn with the k-th stream. */
  ghost predicate BlocksOf(cfg: Config, h: Signals.History, masterInfo: seq<Entry>, releases: ArtistId -> Releases,
                           dice: RadioDice, chosen: seq<ArtistId>, blocks: seq<seq<TrackId>>)
    decreases |blocks|
  {
    && |blocks| <= |chosen|
    && (blocks != [] ==>
          && BlocksOf(cfg, h, masterInfo, releases, dice, chosen, blocks[..|blocks| - 1])
          && RadioBlock(cfg, h, masterInfo, releases, dice, |blocks| - 1, chosen[|blocks| - 1], blocks[|blocks| - 1]))
  }

  /** One block per chosen artist, in the order of the sample. */
  ghost predicate RadioBlocks(cfg: Config, h: Signals.History, masterInfo: seq<Entry>, releases: ArtistId -> Releases,
                              dice: RadioDice, chosen: seq<ArtistId>, blocks: seq<seq<TrackId>>) {
    |blocks| == |chosen| && BlocksOf(cfg, h, masterInfo, releases, dice, chosen, blocks)
  }

  lemma BlocksStep(cfg: Config, h: Signals.History, masterInfo: seq<Entry>, releases: ArtistId -> Releases,
                   dice: RadioDice, chosen: seq<ArtistId>, blocks: seq<seq<TrackId>>, block: seq<TrackId>)
    requires BlocksOf(cfg, h, masterInfo, releases, dice, chosen, blocks) && |blocks| < |chosen|
    requires RadioBlock(cfg, h, masterInfo, releases, dice, |blocks|, chosen[|blocks|], block)
    ensures BlocksOf(cfg, h, masterInfo, releases, dice, chosen, blocks + [block])
  {
    assert (blocks + [block])[..|blocks|] == blocks;
  }

  /** The block of the k-th chosen artist. */
  lemma {:induction false} BlockAt(cfg: Config, h: Signals.History, masterInfo: seq<Entry>, releases: ArtistId -> Releases,
                                   dice: RadioDice, chosen: seq<ArtistId>, blocks: seq<seq<TrackId>>, k: nat)
    requires BlocksOf(cfg, h, masterInfo, releases, dice, chosen, blocks) && k < |blocks|
    ensures RadioBlock(cfg, h, masterInfo, releases, dice, k, chosen[k], blocks[k])
    decreases |blocks|
  {
    if k < |blocks| - 1 {
      var prefix := blocks[..|blocks| - 1];
      BlockAt(cfg, h, masterInfo, releases, dice, chosen, prefix, k);
      assert prefix[k] == blocks[k];
    }
  }

  /** Builds the Radio track list before its final shuffle: the Discover Weekly seed, then the
      block of every sampled artist, artist after artist. A negative "numberOfRadioArtists" makes
      the sample fail, and nothing is built. */
  method BuildRadio(cfg: Config, h: Signals.History, playlists: seq<Catalog.UserPlaylist>, masterInfo: seq<Entry>,
                    releases: ArtistId -> Releases, dice: RadioDice)
    returns (outcome: Outcome, radioTracks: seq<TrackId>, chosen: seq<ArtistId>, ghost blocks: seq<seq<TrackId>>)
    ensures outcome == Done || outcome == NegativeRadioArtists
    ensures outcome == NegativeRadioArtists <==> cfg.numberOfRadioArtists < 0
    ensures outcome == Done ==>
              && Distinct(chosen)
              && |chosen| == Min(Clip(cfg.numberOfRadioArtists), |CreditedArtists(masterInfo)|)
              && (forall a :: a in chosen ==> Credited(masterInfo, a))
              && RadioBlocks(cfg, h, masterInfo, releases, dice, chosen, blocks)
              && radioTracks == DiscoverSeed(cfg, playlists) + Concat(blocks)
    ensures outcome == Done ==>
              var seed := DiscoverSeed(cfg, playlists);
              |seed| <= |radioTracks| <= |seed| + |chosen| * Clip(cfg.radioArtistSongs)
              && forall k :: |seed| <= k < |radioTracks| ==> FromSampledArtist(cfg, h, masterInfo, releases, chosen, radioTracks[k])
  {
    radioTracks, chosen, blocks := [], [], [];
    if cfg.numberOfRadioArtists < 0 {
      return NegativeRadioArtists, radioTracks, chosen, blocks;
    }
    outcome := Done;
    var seed := DiscoverSeed(cfg, playlists);
    var names;
    chosen, names := ChooseArtists(masterInfo, cfg.numberOfRadioArtists, dice.artists);
    var songs;
    songs, blocks := SampledArtistSongs(cfg, h, masterInfo, names, chosen, releases, dice);
    radioTracks := seed + songs;
    forall k | |seed| <= k < |radioTracks|
      ensures FromSampledArtist(cfg, h, masterInfo, releases, chosen, radioTracks[k])
    {
      assert radioTracks[k] in songs;
      BlocksFromSampledArtists(cfg, h, masterInfo, releases, dice, chosen, blocks, radioTracks[k]);
    }
  }

  /** The random sample of distinct artists of the Master, as many as asked for or all of them
      when there are fewer, with the names of the chosen artists. */
  method ChooseArtists(masterInfo: seq<Entry>, numArtists: nat, pick: Picks)
    returns (chosen: seq<ArtistId>, names: map<ArtistId, string>)
    ensures Distinct(chosen)
    ensures |chosen| == Min(numArtists, |CreditedArtists(masterInfo)|)
    ensures forall a :: a in chosen ==> Credited(masterInfo, a)
    ensures forall a :: a in chosen ==> a in names && names[a] == NameOf(masterInfo, a)
  {
    var keys, tracksOf;
    keys, tracksOf, names := GroupByArtist(masterInfo);
    KeysCount(masterInfo, keys);
    chosen := Shuffling.Sample(keys, Min(numArtists, |keys|), pick);
    Shuffling.SubMultisetDistinct(chosen, keys);
    forall a | a in chosen ensures a in keys {
      assert a in multiset(chosen);
    }
  }

  /** The loop over the chosen artists: the block of every chosen artist, artist after artist. */
  method SampledArtistSongs(cfg: Config, h: Signals.History, masterInfo: seq<Entry>, names: map<ArtistId, string>,
                            chosen: seq<ArtistId>, releases: ArtistId -> Releases, dice: RadioDice)
    returns (songs: seq<TrackId>, ghost blocks: seq<seq<TrackId>>)
    requires forall a :: a in chosen ==> a in names && names[a] == NameOf(masterInfo, a)
    ensures RadioBlocks(cfg, h, masterInfo, releases, dice, chosen, blocks)
    ensures songs == Concat(blocks)
    ensures |songs| <= |chosen| * Clip(cfg.radioArtistSongs)
  {
    var cap := Clip(cfg.radioArtistSongs);
    songs, blocks := [], [];
    var k := 0;
    while k < |chosen|
      invariant 0 <= k <= |chosen|
      invariant |blocks| == k && songs == Concat(blocks)
      invariant BlocksOf(cfg, h, masterInfo, releases, dice, chosen, blocks)
      invariant |songs| <= k * cap
    {
      var more := NextBlock(cfg, h, masterInfo, names, chosen, releases, dice, k, blocks);
      ConcatAppend(blocks, more);
      songs := songs + more;
      blocks := blocks + [more];
      MulSucc(k, cap);
      k := k + 1;
    }
  }

  lemma MulSucc(a: nat, b: nat)
    ensures (a + 1) * b == a * b + b
  { }

  /** The block of the next chosen artist: nothing when its name is blacklisted, otherwise its songs. */
  method NextBlock(cfg: Config, h: Signals.History, masterInfo: seq<Entry>, names: map<ArtistId, string>,
                   chosen: seq<ArtistId>, releases: ArtistId -> Releases, dice: RadioDice, k: nat,
                   ghost blocks: seq<seq<TrackId>>)
    returns (more: seq<TrackId>)
    requires forall a :: a in chosen ==> a in names && names[a] == NameOf(masterInfo, a)
    requires BlocksOf(cfg, h, masterInfo, releases, dice, chosen, blocks) && k == |blocks| < |chosen|
    ensures BlocksOf(cfg, h, masterInfo, releases, dice, chosen, blocks + [more])
    ensures |more| <= Clip(cfg.radioArtistSongs)
  {
    var a := chosen[k];
    more := [];
    if !Blacklist.Blacklisted(cfg.artistBlacklist, h.blacklistNames, names[a]) {
      more := ArtistSongs(cfg, h, a, releases(a), dice.topDraws(k), dice.poolOrder(k),
                          dice.replaceDraws(k), dice.slots(k));
    }
    BlocksStep(cfg, h, masterInfo, releases, dice, chosen, blocks, more);
  }

  /** Every song of the blocks comes from a chosen artist that is not blacklisted. */
  lemma BlocksFromSampledArtists(cfg: Config, h: Signals.History, masterInfo: seq<Entry>, releases: ArtistId -> Releases,
                                 dice: RadioDice, chosen: seq<ArtistId>, blocks: seq<seq<TrackId>>, t: TrackId)
    requires RadioBlocks(cfg, h, masterInfo, releases, dice, chosen, blocks)
    requires t in Concat(blocks)
    ensures FromSampledArtist(cfg, h, masterInfo, releases, chosen, t)
  {
    ConcatIn(blocks, t);
    var k :| 0 <= k < |blocks| && t in blocks[k];
    BlockAt(cfg, h, masterInfo, releases, dice, chosen, blocks, k);
    BlockContributes(cfg, h, masterInfo, releases, dice, k, chosen[k], blocks[k], t);
  }

  /** A song of an artist's block comes from that artist, which is not blacklisted. */
  lemma BlockContributes(cfg: Config, h: Signals.History, masterInfo: seq<Entry>, releases: ArtistId -> Releases,
                         dice: RadioDice, k: nat, a: ArtistId, block: seq<TrackId>, t: TrackId)
    requires RadioBlock(cfg, h, masterInfo, releases, dice, k, a, block)
    requires t in block
    ensures !Blacklist.Blacklisted(cfg.artistBlacklist, h.blacklistNames, NameOf(masterInfo, a))
    ensures Contributes(a, releases(a), t)
  {
    SongOrigin(cfg, h, a, releases(a), dice.topDraws(k), dice.poolOrder(k), dice.replaceDraws(k), block, t);
    if t !in releases(a).topTracks {
      PoolContributes(a, releases(a), t);
    }
  }

  /** The radio tracks that are not in the Master, in radio order, repeats kept. */
  function NotInMaster(radio: seq<TrackId>, master: set<TrackId>): (r: seq<TrackId>)
    ensures forall t :: multiset(r)[t] == if t in master then 0 else multiset(radio)[t]
  {
    if radio == [] then []
    else
      var init, t := radio[..|radio| - 1], radio[|radio| - 1];
      assert radio == init + [t];
      NotInMaster(init, master) + (if t !in master then [t] else [])
  }
}
