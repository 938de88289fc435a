/** The "[RX] Master" assembly: the tracks of the configured playlists are gathered, reduced to one
    per "name - artist" key, filtered by the blacklist and by a weighted draw, and arranged,
    optionally splitting the deck with the first quarter of the previous Master. */
module Master {
  import opened Common
  import opened Seqs
  import Weight
  import Signals
  import Catalog
  import Blacklist
  import Shuffling

  /** Every random choice of one Master assembly. */
  datatype MasterDice = MasterDice(setOrder: Picks, inclusion: Draws, selectionOrder: Picks, bottomOrder: Picks)

  /* ---- Gathering the candidate tracks ---- */

  /** The tracks one entry of `playlistsToInclude` contributes: the liked songs for "Liked Songs",
      otherwise the first playlist of that name, or nothing when there is none. */
  function SourceTracks(name: string, liked: seq<TrackId>, playlists: seq<Catalog.UserPlaylist>): seq<TrackId> {
    if name == "Liked Songs" then liked else Catalog.FindByName(playlists, name).GetOr([])
  }

  function Sources(names: seq<string>, liked: seq<TrackId>, playlists: seq<Catalog.UserPlaylist>): seq<TrackId> {
    if names == [] then []
    else Sources(names[..|names| - 1], liked, playlists) + SourceTracks(names[|names| - 1], liked, playlists)
  }

  /** A raw id comes from some configured source, and every track of every source is there. */
  lemma {:induction false} SourcesCover(names: seq<string>, liked: seq<TrackId>, playlists: seq<Catalog.UserPlaylist>, t: TrackId)
    ensures t in Sources(names, liked, playlists) <==> exists n :: n in names && t in SourceTracks(n, liked, playlists)
  {
    if names != [] {
      var init := names[..|names| - 1];
      SourcesCover(init, liked, playlists, t);
      assert forall n :: n in names <==> n in init || n == names[|names| - 1];
    }
  }

  /** Extends `rawIds` with the tracks of every configured source, in configuration order. */
  method CollectSources(names: seq<string>, liked: seq<TrackId>, playlists: seq<Catalog.UserPlaylist>)
    returns (rawIds: seq<TrackId>)
    ensures rawIds == Sources(names, liked, playlists)
  {
    rawIds := [];
    var i := 0;
    while i < |names|
      invariant 0 <= i <= |names|
      invariant rawIds == Sources(names[..i], liked, playlists)
    {
      assert names[..i + 1][..i] == names[..i];
      var name := names[i];
      if name == "Liked Songs" {
        rawIds := rawIds + liked;
      } else {
        var found := Catalog.FindByName(playlists, name);
        if found.Some? {
          rawIds := rawIds + found.value;
        }
      }
      i := i + 1;
    }
    assert names[..i] == names;
  }

  /** The raw ids turned into a set and back into a list: every raw id once, in an order the set
      does not fix. The order is
      taken as an arbitrary rearrangement of the first-occurrence order. */
  method SetToList(rawIds: seq<TrackId>, order: Picks) returns (ids: seq<TrackId>)
    ensures Distinct(ids)
    ensures forall t :: t in ids <==> t in rawIds
  {
    var once: seq<TrackId> := [];
    var seen: set<TrackId> := {};
    var i := 0;
    while i < |rawIds|
      invariant 0 <= i <= |rawIds|
      invariant Distinct(once)
      invariant forall t :: t in seen <==> t in once
      invariant forall t :: t in once <==> t in rawIds[..i]
    {
      assert rawIds[..i + 1] == rawIds[..i] + [rawIds[i]];
      if rawIds[i] !in seen {
        once := once + [rawIds[i]];
        seen := seen + {rawIds[i]};
      }
      i := i + 1;
    }
    assert rawIds[..i] == rawIds;
    ids := Shuffling.Shuffle(once, order);
    Shuffling.SubMultisetDistinct(ids, once);
    forall t ensures t in ids <==> t in once {
      assert t in ids <==> t in multiset(ids);
    }
  }

  /* ---- One candidate per display key ---- */

  /** An item of `trackMap`: the key, and the id, name and artist name it maps to. */
  datatype Candidate = Candidate(key: string, id: TrackId, name: string, artist: string)

  /** The display key of a track: its name, a spaced hyphen, its artist name. */
  function DisplayKey(info: TrackInfo): string {
    info.name + " - " + info.artistName
  }

  function CandidateOf(e: Entry): Candidate {
    Candidate(DisplayKey(e.info), e.id, e.info.name, e.info.artistName)
  }

  predicate DistinctKeys(m: seq<Candidate>) {
    forall i, j :: 0 <= i < j < |m| ==> m[i].key != m[j].key
  }

  /** The keys stored in `m`. */
  function Keys(m: seq<Candidate>): set<string> {
    set c | c in m :: c.key
  }

  lemma KeysAppend(m: seq<Candidate>, c: Candidate)
    ensures Keys(m + [c]) == Keys(m) + {c.key}
  {
    assert forall x :: x in m + [c] <==> x in m || x == c;
  }

  /** The display keys of the entries of `es`. */
  function EntryKeys(es: seq<Entry>): set<string> {
    set e | e in es :: DisplayKey(e.info)
  }

  /** Stores `c` under its key: in place when the key is present, at the end otherwise. */
  function Put(m: seq<Candidate>, c: Candidate): (r: seq<Candidate>)
    requires DistinctKeys(m)
    ensures DistinctKeys(r)
    ensures Keys(r) == Keys(m) + {c.key}
    ensures forall j :: 0 <= j < |r| ==> if r[j].key == c.key then r[j] == c else r[j] in m
    ensures |r| <= |m| + 1
  {
    if m == [] then [c]
    else if m[|m| - 1].key == c.key then
      var r := m[..|m| - 1] + [c];
      assert m == m[..|m| - 1] + [m[|m| - 1]];
      r
    else
      var init := m[..|m| - 1];
      var rest := Put(init, c);
      assert m == init + [m[|m| - 1]];
      PutBehind(init, m[|m| - 1], c, rest);
      rest + [m[|m| - 1]]
  }

  /** Storing under a key other than the last one's keeps the last candidate at the end. */
  lemma PutBehind(init: seq<Candidate>, last: Candidate, c: Candidate, rest: seq<Candidate>)
    requires DistinctKeys(init + [last]) && last.key != c.key
    requires DistinctKeys(rest) && Keys(rest) == Keys(init) + {c.key}
    requires forall j :: 0 <= j < |rest| ==> if rest[j].key == c.key then rest[j] == c else rest[j] in init
    ensures DistinctKeys(rest + [last])
    ensures Keys(rest + [last]) == Keys(init + [last]) + {c.key}
    ensures forall j :: 0 <= j < |rest| + 1 ==>
              if (rest + [last])[j].key == c.key then (rest + [last])[j] == c else (rest + [last])[j] in init + [last]
  {
    var r := rest + [last];
    assert forall j :: 0 <= j < |rest| ==> r[j] == rest[j];
    KeysAppend(init, last);
    KeysAppend(rest, last);
    forall x | x in init ensures x.key != last.key {
      var i :| 0 <= i < |init| && init[i] == x;
      assert (init + [last])[i] == x && (init + [last])[|init|] == last;
    }
    assert last.key !in Keys(rest);
  }

  /** The entry `i` is the last one of `es` whose display key is `k`. */
  ghost predicate LastWithKey(es: seq<Entry>, i: int, k: string) {
    0 <= i < |es| && DisplayKey(es[i].info) == k && forall i' :: i < i' < |es| ==> DisplayKey(es[i'].info) != k
  }

  /** The dictionary from display key to candidate built over the track information: one
      candidate per display key, keys in first-seen order, each mapped to the last track with
      that key. */
  function TrackMap(es: seq<Entry>): (m: seq<Candidate>)
    ensures DistinctKeys(m)
    ensures |m| <= |es|
    ensures Keys(m) == EntryKeys(es)
    ensures MappedToLast(es, m)
  {
    if es == [] then []
    else
      var prev := TrackMap(es[..|es| - 1]);
      var m := Put(prev, CandidateOf(es[|es| - 1]));
      TrackMapStep(es, prev, m);
      m
  }

  /** Each candidate of `m` is the candidate of the last entry with its key. */
  ghost predicate MappedToLast(es: seq<Entry>, m: seq<Candidate>) {
    forall j :: 0 <= j < |m| ==> exists i :: LastWithKey(es, i, m[j].key) && m[j] == CandidateOf(es[i])
  }

  /** Storing the last entry adds its key, and every candidate is still the one of the last
      entry with its key. */
  lemma TrackMapStep(es: seq<Entry>, prev: seq<Candidate>, m: seq<Candidate>)
    requires es != []
    requires DistinctKeys(prev) && Keys(prev) == EntryKeys(es[..|es| - 1]) && MappedToLast(es[..|es| - 1], prev)
    requires m == Put(prev, CandidateOf(es[|es| - 1]))
    ensures Keys(m) == EntryKeys(es)
    ensures MappedToLast(es, m)
  {
    EntryKeysAppend(es[..|es| - 1], es[|es| - 1]);
    assert es == es[..|es| - 1] + [es[|es| - 1]];
    MappedStep(es[..|es| - 1], es[|es| - 1], prev, m);
  }

  lemma EntryKeysAppend(init: seq<Entry>, e: Entry)
    ensures EntryKeys(init + [e]) == EntryKeys(init) + {DisplayKey(e.info)}
  {
    assert forall x :: x in init + [e] <==> x in init || x == e;
  }

  lemma MappedStep(init: seq<Entry>, e: Entry, prev: seq<Candidate>, m: seq<Candidate>)
    requires DistinctKeys(prev) && MappedToLast(init, prev)
    requires m == Put(prev, CandidateOf(e))
    ensures MappedToLast(init + [e], m)
  {
    var es := init + [e];
    forall j | 0 <= j < |m| ensures exists i :: LastWithKey(es, i, m[j].key) && m[j] == CandidateOf(es[i]) {
      if m[j].key == DisplayKey(e.info) {
        assert LastWithKey(es, |es| - 1, m[j].key);
      } else {
        var jj :| 0 <= jj < |prev| && prev[jj] == m[j];
        var i :| LastWithKey(init, i, prev[jj].key) && prev[jj] == CandidateOf(init[i]);
        assert es[i] == init[i];
        assert LastWithKey(es, i, m[j].key);
      }
    }
  }

  /* ---- The Master weight ---- */

  /** The artist of track t escalates its penalty: the feature is on and t's artist id is one the
      user hears too much. */
  predicate Escalates(cfg: Config, h: Signals.History, allInfo: seq<Entry>, t: TrackId) {
    && cfg.artistIHearTooMuch
    && Lookup(allInfo, t).Some?
    && Lookup(allInfo, t).value.artistId.Some?
    && Lookup(allInfo, t).value.artistId.value in h.artistTooMuch
  }

  /** The escalation count: the "too much" counts summed over the candidate tracks credited to artist `a`. */
  function ArtistTotal(allInfo: seq<Entry>, counts: map<TrackId, nat>, a: ArtistId): nat {
    if allInfo == [] then 0
    else
      var e := allInfo[|allInfo| - 1];
      ArtistTotal(allInfo[..|allInfo| - 1], counts, a) + (if e.info.artistId == Some(a) then Signals.CountOf(counts, e.id) else 0)
  }

  /** The loop that computes `artistCount`. */
  method ArtistCount(allInfo: seq<Entry>, counts: map<TrackId, nat>, a: ArtistId) returns (n: nat)
    ensures n == ArtistTotal(allInfo, counts, a)
  {
    n := 0;
    var i := 0;
    while i < |allInfo|
      invariant 0 <= i <= |allInfo|
      invariant n == ArtistTotal(allInfo[..i], counts, a)
    {
      assert allInfo[..i + 1][..i] == allInfo[..i];
      var e := allInfo[i];
      if e.info.artistId == Some(a) && e.id in counts {
        n := n + counts[e.id];
      }
      i := i + 1;
    }
    assert allInfo[..i] == allInfo;
  }

  function EscalationCount(cfg: Config, h: Signals.History, allInfo: seq<Entry>, t: TrackId): nat {
    if Escalates(cfg, h, allInfo, t) then ArtistTotal(allInfo, h.tooMuchCounts, Lookup(allInfo, t).value.artistId.value) else 0
  }

  /** The Master weight of a track: not clamped, with the artist escalation. */
  function MasterWeight(cfg: Config, h: Signals.History, allInfo: seq<Entry>, t: TrackId): real {
    Weight.ComputeWeight(Signals.CountOf(h.tooMuchCounts, t), Signals.PosOf(h.topPositions, t), cfg.weightModifier,
                         false, Escalates(cfg, h, allInfo, t), EscalationCount(cfg, h, allInfo, t))
  }

  /** The escalation subtracts 3 or 2 times the modifier for 6 or more, or 3 to 5, too-much plays
      of the artist's candidate tracks, and nothing when it does not apply. */
  lemma MasterEscalation(cfg: Config, h: Signals.History, allInfo: seq<Entry>, t: TrackId)
    ensures var base := Weight.ComputeWeight(Signals.CountOf(h.tooMuchCounts, t), Signals.PosOf(h.topPositions, t),
                                             cfg.weightModifier, false, false, 0);
            var n := EscalationCount(cfg, h, allInfo, t);
            MasterWeight(cfg, h, allInfo, t)
            == if !Escalates(cfg, h, allInfo, t) then base
               else base - (if n >= 6 then 3.0 else if n >= 3 then 2.0 else 0.0) * cfg.weightModifier
  {
    var count, pos, m := Signals.CountOf(h.tooMuchCounts, t), Signals.PosOf(h.topPositions, t), cfg.weightModifier;
    var p := Weight.TooMuchPenalty(count) + Weight.RankPenalty(pos);
    var q := Weight.ArtistPenalty(EscalationCount(cfg, h, allInfo, t));
    assert ((p + q) as real) * m == (p as real) * m + (q as real) * m;
  }

  /** With the occurrence counts of the "too much" playlist, the escalation count of artist `a`
      is the number of its positions that hold a candidate track credited to `a`: plays of tracks
      that are not candidates do not count. */
  lemma ArtistTotalCountsPlays(allInfo: seq<Entry>, counts: map<TrackId, nat>, tooMuch: seq<TrackId>, a: ArtistId)
    requires DistinctIds(allInfo)
    requires forall t :: Signals.CountOf(counts, t) == multiset(tooMuch)[t]
    ensures ArtistTotal(allInfo, counts, a) == Signals.Positions(tooMuch, allInfo, ByArtist(a))
  {
    ArtistTotalIsWeighted(allInfo, counts, tooMuch, a);
    Signals.WeightedCountsPositions(tooMuch, allInfo, ByArtist(a));
  }

  function ByArtist(a: ArtistId): TrackInfo -> bool {
    (ti: TrackInfo) => ti.artistId == Some(a)
  }

  lemma {:induction false} ArtistTotalIsWeighted(allInfo: seq<Entry>, counts: map<TrackId, nat>, tooMuch: seq<TrackId>, a: ArtistId)
    requires forall t :: Signals.CountOf(counts, t) == multiset(tooMuch)[t]
    ensures ArtistTotal(allInfo, counts, a) == Signals.Weighted(allInfo, ByArtist(a), multiset(tooMuch))
  {
    if allInfo != [] {
      ArtistTotalIsWeighted(allInfo[..|allInfo| - 1], counts, tooMuch, a);
    }
  }

  /* ---- Selection ---- */

  /** Whether the candidate at position i is kept: not blacklisted, and its draw falls below
      a tenth of its weight. */
  predicate KeepsCandidate(cfg: Config, h: Signals.History, allInfo: seq<Entry>, draws: Draws, i: nat, c: Candidate) {
    !Blacklist.Blacklisted(cfg.artistBlacklist, h.blacklistNames, c.artist)
    && Weight.Included(draws(i), MasterWeight(cfg, h, allInfo, c.id))
  }

  function KeepMaster(cfg: Config, h: Signals.History, allInfo: seq<Entry>, draws: Draws): (nat, Candidate) -> bool {
    (i: nat, c: Candidate) => KeepsCandidate(cfg, h, allInfo, draws, i, c)
  }

  /** The track ids of a list of candidates. */
  function CandidateIds(cs: seq<Candidate>): seq<TrackId> {
    Project(cs, (c: Candidate) => c.id)
  }

  /** The weight computation of the Master loop for one track. */
  method CandidateWeight(cfg: Config, h: Signals.History, allInfo: seq<Entry>, t: TrackId) returns (weight: real)
    ensures weight == MasterWeight(cfg, h, allInfo, t)
  {
    var escalate := Escalates(cfg, h, allInfo, t);
    var artistCount := 0;
    if escalate {
      artistCount := ArtistCount(allInfo, h.tooMuchCounts, Lookup(allInfo, t).value.artistId.value);
    }
    weight := Weight.ComputeWeight(Signals.CountOf(h.tooMuchCounts, t), Signals.PosOf(h.topPositions, t),
                                   cfg.weightModifier, false, escalate, artistCount);
  }

  /** The weighting loop over `trackMap`. */
  method SelectMaster(cfg: Config, h: Signals.History, allInfo: seq<Entry>, cands: seq<Candidate>, draws: Draws)
    returns (selected: seq<TrackId>)
    ensures selected == CandidateIds(Select(cands, KeepMaster(cfg, h, allInfo, draws)))
  {
    var keep := KeepMaster(cfg, h, allInfo, draws);
    selected := [];
    var i := 0;
    while i < |cands|
      invariant 0 <= i <= |cands|
      invariant selected == CandidateIds(Select(cands[..i], keep))
    {
      var c := cands[i];
      var kept := false;
      if !Blacklist.Blacklisted(cfg.artistBlacklist, h.blacklistNames, c.artist) {
        var weight := CandidateWeight(cfg, h, allInfo, c.id);
        kept := draws(i) < weight / 10.0;
      }
      assert kept == keep(i, c);
      SelectStep(cands, keep, i);
      if kept {
        selected := selected + [c.id];
      }
      i := i + 1;
    }
    assert cands[..i] == cands;
  }

  /** One more candidate extends the selection by its id exactly when it is kept. */
  lemma SelectStep(cands: seq<Candidate>, keep: (nat, Candidate) -> bool, i: nat)
    requires i < |cands|
    ensures CandidateIds(Select(cands[..i + 1], keep))
            == CandidateIds(Select(cands[..i], keep)) + (if keep(i, cands[i]) then [cands[i].id] else [])
  {
    assert cands[..i + 1][..i] == cands[..i];
    var prev := Select(cands[..i], keep);
    if keep(i, cands[i]) {
      assert CandidateIds(prev + [cands[i]])[..|prev|] == CandidateIds(prev);
    }
  }

  /** A selected track comes from a candidate that is not blacklisted, and with draws that are
      never negative its weight is positive. */
  lemma SelectedAreAllowed(cfg: Config, h: Signals.History, allInfo: seq<Entry>, cands: seq<Candidate>,
                           draws: Draws, t: TrackId)
    requires t in CandidateIds(Select(cands, KeepMaster(cfg, h, allInfo, draws)))
    ensures exists c :: c in cands && c.id == t && !Blacklist.Blacklisted(cfg.artistBlacklist, h.blacklistNames, c.artist)
    ensures (forall i :: draws(i) >= 0.0) ==> MasterWeight(cfg, h, allInfo, t) > 0.0
  {
    var keep := KeepMaster(cfg, h, allInfo, draws);
    var sel := Select(cands, keep);
    var k :| 0 <= k < |sel| && CandidateIds(sel)[k] == t;
    SelectMember(cands, keep, k);
    var i :| 0 <= i < |cands| && cands[i] == sel[k] && keep(i, cands[i]);
    assert cands[i] in cands;
  }

  /** A selected track is one of the gathered ids, the catalog knows it, and its artist is not
      blacklisted. */
  lemma SelectedComeFromSources(cfg: Config, h: Signals.History, catalog: map<TrackId, TrackInfo>, ids: seq<TrackId>,
                                draws: Draws, t: TrackId)
    requires t in Selection(cfg, h, catalog, ids, draws)
    ensures t in ids && t in catalog
    ensures !Blacklist.Blacklisted(cfg.artistBlacklist, h.blacklistNames, catalog[t].artistName)
  {
    var allInfo := Catalog.TracksInfo(catalog, ids);
    var cands := TrackMap(allInfo);
    SelectedAreAllowed(cfg, h, allInfo, cands, draws, t);
    var c :| c in cands && c.id == t && !Blacklist.Blacklisted(cfg.artistBlacklist, h.blacklistNames, c.artist);
    var j :| 0 <= j < |cands| && cands[j] == c;
    var i :| LastWithKey(allInfo, i, c.key) && c == CandidateOf(allInfo[i]);
    assert Lookup(allInfo, t).Some?;
  }

  /** No candidate by a blacklisted artist reaches the selection, whatever the draws. */
  lemma BlacklistedNeverSelected(cfg: Config, h: Signals.History, allInfo: seq<Entry>, cands: seq<Candidate>,
                                 draws: Draws, c: Candidate)
    requires c in cands
    requires Blacklist.Blacklisted(cfg.artistBlacklist, h.blacklistNames, c.artist)
    ensures c !in Select(cands, KeepMaster(cfg, h, allInfo, draws))
  {
    SelectIn(cands, KeepMaster(cfg, h, allInfo, draws), c);
  }

  /** The selection of one Master pass from the gathered ids `ids`. */
  function Selection(cfg: Config, h: Signals.History, catalog: map<TrackId, TrackInfo>, ids: seq<TrackId>, draws: Draws): seq<TrackId> {
    var allInfo := Catalog.TracksInfo(catalog, ids);
    CandidateIds(Select(TrackMap(allInfo), KeepMaster(cfg, h, allInfo, draws)))
  }

  /** Gathers the configured sources, takes every id once, maps the candidates by display key
      and runs the weighted selection. */
  method SelectFromSources(cfg: Config, h: Signals.History, names: seq<string>, liked: seq<TrackId>,
                           playlists: seq<Catalog.UserPlaylist>, catalog: map<TrackId, TrackInfo>, dice: MasterDice)
    returns (ids: seq<TrackId>, selected: seq<TrackId>)
    ensures Distinct(ids)
    ensures forall t :: t in ids <==> t in Sources(names, liked, playlists)
    ensures selected == Selection(cfg, h, catalog, ids, dice.inclusion)
  {
    var rawIds := CollectSources(names, liked, playlists);
    ids := SetToList(rawIds, dice.setOrder);
    var allInfo := Catalog.TracksInfo(catalog, ids);
    var cands := TrackMap(allInfo);
    selected := SelectMaster(cfg, h, allInfo, cands, dice.inclusion);
  }

  /* ---- Arranging the new Master ---- */

  /** The two parts of a split deck: the first half of the shuffled selection stays on top, and
      its second half goes below together with the first quarter of the current Master. */
  datatype Deck = Deck(top: seq<TrackId>, bottom: seq<TrackId>)

  function CutDeck(shuffled: seq<TrackId>, current: seq<TrackId>): (d: Deck)
    ensures |d.top| == |shuffled| / 2 && d.top <= shuffled
    ensures |d.top| + |d.bottom| == |shuffled| + |current| / 4
    ensures multiset(d.top) + multiset(d.bottom) == multiset(shuffled) + multiset(current[..|current| / 4])
  {
    var half := |shuffled| / 2;
    assert shuffled == shuffled[..half] + shuffled[half..];
    Deck(shuffled[..half], shuffled[half..] + current[..|current| / 4])
  }

  /** The result of a split deck starts with the first half of some rearrangement of the selection. */
  ghost predicate StartsWithHalfOf(r: seq<TrackId>, selected: seq<TrackId>) {
    exists s: seq<TrackId> :: multiset(s) == multiset(selected) && |s| == |selected| && s[..|s| / 2] <= r
  }

  /** The new Master contents from a non-empty selection: a plain shuffle, or, with
      "splitTheDeck" and a non-empty current Master, the split deck with its bottom shuffled. */
  method ArrangeMaster(cfg: Config, selected: seq<TrackId>, current: seq<TrackId>, dice: MasterDice)
    returns (r: seq<TrackId>)
    ensures cfg.splitTheDeck && current != [] ==>
              |r| == |selected| + |current| / 4
              && multiset(r) == multiset(selected) + multiset(current[..|current| / 4])
              && StartsWithHalfOf(r, selected)
    ensures !(cfg.splitTheDeck && current != []) ==> |r| == |selected| && multiset(r) == multiset(selected)
  {
    var shuffled := Shuffling.Shuffle(selected, dice.selectionOrder);
    if cfg.splitTheDeck && current != [] {
      var deck := CutDeck(shuffled, current);
      var bottom := Shuffling.Shuffle(deck.bottom, dice.bottomOrder);
      r := deck.top + bottom;
      assert shuffled[..|shuffled| / 2] <= r;
    } else {
      r := shuffled;
    }
  }

  /** Splitting against an empty Master adds nothing: before the bottom half is reshuffled, top and bottom together are the shuffled selection. */
  lemma CutDeckEmptyCurrent(shuffled: seq<TrackId>)
    ensures CutDeck(shuffled, []).top + CutDeck(shuffled, []).bottom == shuffled
  {
  }
}
