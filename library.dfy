/** The two playlists the program rewrites, "[RX] Master" and "[RX] Radio", as the state of one
    object, and the two passes that rewrite them: first the Radio (which may append to the
    Master), then the Master. */
module Library {
  import opened Common
  import opened Seqs
  import Signals
  import Catalog
  import Shuffling
  import Radio
  import Master

  class Library {
    /** The track ids of "[RX] Master", in playlist order. */
    var master: seq<TrackId>
    /** The track ids of "[RX] Radio", in playlist order. */
    var radio: seq<TrackId>

    constructor (master0: seq<TrackId>, radio0: seq<TrackId>)
      ensures master == master0 && radio == radio0
    {
      master := master0;
      radio := radio0;
    }

    /** The Radio pass. With a negative "numberOfRadioArtists" the artist sample fails and the
        run ends with neither playlist changed. Otherwise the Radio is cleared and refilled with
        a shuffle of the Discover Weekly seed and the block of every sampled artist (`chosen`);
        with "includeRadioInMaster" the radio tracks not already in the Master are appended to it
        in shuffled order. */
    method GenerateRadio(cfg: Config, h: Signals.History, playlists: seq<Catalog.UserPlaylist>,
                         catalog: map<TrackId, TrackInfo>, releases: ArtistId -> Radio.Releases,
                         dice: Radio.RadioDice)
      returns (outcome: Outcome, chosen: seq<ArtistId>, toAdd: seq<TrackId>, ghost blocks: seq<seq<TrackId>>)
      modifies this
      ensures outcome == Done || outcome == NegativeRadioArtists
      ensures outcome == NegativeRadioArtists <==> cfg.numberOfRadioArtists < 0
      ensures outcome == NegativeRadioArtists ==> master == old(master) && radio == old(radio) && toAdd == []
      ensures outcome == Done ==>
                var masterInfo := Catalog.TracksInfo(catalog, old(master));
                && Distinct(chosen)
                && |chosen| == Min(Clip(cfg.numberOfRadioArtists), |Radio.CreditedArtists(masterInfo)|)
                && (forall a :: a in chosen ==> Radio.Credited(masterInfo, a))
                && Radio.RadioBlocks(cfg, h, masterInfo, releases, dice, chosen, blocks)
                && multiset(radio) == multiset(Radio.DiscoverSeed(cfg, playlists) + Concat(blocks))
                && RadioFrom(cfg, h, playlists, masterInfo, releases, chosen, radio)
      ensures outcome == Done ==> |radio| <= |Radio.DiscoverSeed(cfg, playlists)| + |chosen| * Clip(cfg.radioArtistSongs)
      ensures outcome == Done && cfg.includeRadioInMaster ==>
                master == old(master) + toAdd
                && forall t :: multiset(toAdd)[t] == if t in old(master) then 0 else multiset(radio)[t]
      ensures outcome == Done && !cfg.includeRadioInMaster ==> master == old(master) && toAdd == []
    {
      var masterInfo := Catalog.TracksInfo(catalog, master);
      var newRadio;
      toAdd := [];
      outcome, newRadio, chosen, blocks := ShuffledRadio(cfg, h, playlists, masterInfo, releases, dice);
      if outcome != Done {
        return;
      }
      radio := newRadio;
      if cfg.includeRadioInMaster {
        var currentMaster := set t | t in master;
        var newTracks := Radio.NotInMaster(radio, currentMaster);
        if newTracks != [] {
          toAdd := Shuffling.Shuffle(newTracks, dice.appendOrder);
          master := master + toAdd;
        }
      }
    }

    /** The Master pass. Without "playlistsToInclude" the pass stops before changing anything.
        Otherwise `ids` are the gathered track ids, once each, and `selected` the tracks the
        weighting keeps; when nothing is kept the Master stays as it is, otherwise it is
        replaced by the arranged selection. */
    method AssembleMaster(cfg: Config, h: Signals.History, liked: seq<TrackId>, playlists: seq<Catalog.UserPlaylist>,
                          catalog: map<TrackId, TrackInfo>, dice: Master.MasterDice)
      returns (outcome: Outcome, ids: seq<TrackId>, selected: seq<TrackId>)
      modifies this
      ensures radio == old(radio)
      ensures outcome == Done || outcome == MissingPlaylistsToInclude
      ensures outcome == MissingPlaylistsToInclude <==> cfg.playlistsToInclude.None?
      ensures cfg.playlistsToInclude.None? ==> master == old(master) && selected == []
      ensures cfg.playlistsToInclude.Some? ==>
                && Distinct(ids)
                && (forall t :: t in ids <==> t in Master.Sources(cfg.playlistsToInclude.value, liked, playlists))
                && selected == Master.Selection(cfg, h, catalog, ids, dice.inclusion)
      ensures selected == [] ==> master == old(master)
      ensures selected != [] && cfg.splitTheDeck && old(master) != [] ==>
                |master| == |selected| + |old(master)| / 4
                && multiset(master) == multiset(selected) + multiset(old(master)[..|old(master)| / 4])
                && Master.StartsWithHalfOf(master, selected)
      ensures selected != [] && !(cfg.splitTheDeck && old(master) != []) ==>
                |master| == |selected| && multiset(master) == multiset(selected)
    {
      ids, selected := [], [];
      if cfg.playlistsToInclude.None? {
        return MissingPlaylistsToInclude, ids, selected;
      }
      outcome := Done;
      ids, selected := Master.SelectFromSources(cfg, h, cfg.playlistsToInclude.value, liked, playlists, catalog, dice);
      if selected != [] {
        master := Master.ArrangeMaster(cfg, selected, master, dice);
      }
    }

    /** One run: the listening signals, then the Radio pass, then the Master pass, which is not
        reached when the Radio pass fails. */
    method Run(cfg: Config, top: seq<TrackId>, tooMuch: seq<TrackId>, liked: seq<TrackId>,
               playlists: seq<Catalog.UserPlaylist>, catalog: map<TrackId, TrackInfo>,
               releases: ArtistId -> Radio.Releases, radioDice: Radio.RadioDice, masterDice: Master.MasterDice)
      returns (outcome: Outcome, selected: seq<TrackId>)
      modifies this
      ensures outcome == NegativeRadioArtists <==> cfg.numberOfRadioArtists < 0
      ensures outcome == NegativeRadioArtists ==> master == old(master) && radio == old(radio) && selected == []
      ensures outcome == MissingPlaylistsToInclude <==> 0 <= cfg.numberOfRadioArtists && cfg.playlistsToInclude.None?
      ensures outcome != NegativeRadioArtists ==>
                |radio| <= |Radio.DiscoverSeed(cfg, playlists)| + Clip(cfg.numberOfRadioArtists) * Clip(cfg.radioArtistSongs)
      ensures !cfg.includeRadioInMaster && selected == [] ==> master == old(master)
      ensures cfg.playlistsToInclude.Some? && selected != [] && !cfg.splitTheDeck ==> multiset(master) == multiset(selected)
    {
      var h := Signals.BuildSignals(cfg, top, tooMuch, catalog);
      var chosen, toAdd;
      ghost var blocks;
      outcome, chosen, toAdd, blocks := GenerateRadio(cfg, h, playlists, catalog, releases, radioDice);
      selected := [];
      if outcome != Done {
        return;
      }
      MulMono(|chosen|, Clip(cfg.numberOfRadioArtists), Clip(cfg.radioArtistSongs));
      var ids;
      outcome, ids, selected := AssembleMaster(cfg, h, liked, playlists, catalog, masterDice);
    }
  }

  /** The new Radio contents: the built track list, shuffled when it is not empty. */
  method ShuffledRadio(cfg: Config, h: Signals.History, playlists: seq<Catalog.UserPlaylist>, masterInfo: seq<Entry>,
                       releases: ArtistId -> Radio.Releases, dice: Radio.RadioDice)
    returns (outcome: Outcome, radio: seq<TrackId>, chosen: seq<ArtistId>, ghost blocks: seq<seq<TrackId>>)
    ensures outcome == Done || outcome == NegativeRadioArtists
    ensures outcome == NegativeRadioArtists <==> cfg.numberOfRadioArtists < 0
    ensures outcome == Done ==>
              && Distinct(chosen)
              && |chosen| == Min(Clip(cfg.numberOfRadioArtists), |Radio.CreditedArtists(masterInfo)|)
              && (forall a :: a in chosen ==> Radio.Credited(masterInfo, a))
              && Radio.RadioBlocks(cfg, h, masterInfo, releases, dice, chosen, blocks)
              && multiset(radio) == multiset(Radio.DiscoverSeed(cfg, playlists) + Concat(blocks))
              && RadioFrom(cfg, h, playlists, masterInfo, releases, chosen, radio)
              && |radio| <= |Radio.DiscoverSeed(cfg, playlists)| + |chosen| * Clip(cfg.radioArtistSongs)
  {
    var radioTracks;
    outcome, radioTracks, chosen, blocks := Radio.BuildRadio(cfg, h, playlists, masterInfo, releases, dice);
    radio := [];
    if outcome != Done {
      return;
    }
    BuiltRadioFrom(cfg, h, playlists, masterInfo, releases, chosen, radioTracks);
    if radioTracks != [] {
      radio := Shuffling.Shuffle(radioTracks, dice.radioOrder);
      ShuffledRadioFrom(cfg, h, playlists, masterInfo, releases, chosen, radioTracks, radio);
    }
  }

  /** Every track of `tracks` is a Discover Weekly seed track or a song of a sampled artist. */
  ghost predicate RadioFrom(cfg: Config, h: Signals.History, playlists: seq<Catalog.UserPlaylist>, masterInfo: seq<Entry>,
                            releases: ArtistId -> Radio.Releases, chosen: seq<ArtistId>, tracks: seq<TrackId>) {
    forall t :: t in tracks ==> t in Radio.DiscoverSeed(cfg, playlists) || Radio.FromSampledArtist(cfg, h, masterInfo, releases, chosen, t)
  }

  /** The built radio list, the seed followed by artist songs, keeps the whole seed. */
  lemma BuiltRadioFrom(cfg: Config, h: Signals.History, playlists: seq<Catalog.UserPlaylist>, masterInfo: seq<Entry>,
                       releases: ArtistId -> Radio.Releases, chosen: seq<ArtistId>, tracks: seq<TrackId>)
    requires var seed := Radio.DiscoverSeed(cfg, playlists);
             |seed| <= |tracks| && tracks[..|seed|] == seed
             && forall k :: |seed| <= k < |tracks| ==> Radio.FromSampledArtist(cfg, h, masterInfo, releases, chosen, tracks[k])
    ensures RadioFrom(cfg, h, playlists, masterInfo, releases, chosen, tracks)
    ensures multiset(Radio.DiscoverSeed(cfg, playlists)) <= multiset(tracks)
  {
    var seed := Radio.DiscoverSeed(cfg, playlists);
    assert tracks == seed + tracks[|seed|..];
    forall t | t in tracks ensures t in seed || Radio.FromSampledArtist(cfg, h, masterInfo, releases, chosen, t) {
      var k :| 0 <= k < |tracks| && tracks[k] == t;
      if k < |seed| {
        assert seed[k] == t;
      }
    }
  }

  /** Shuffling keeps where every track comes from. */
  lemma ShuffledRadioFrom(cfg: Config, h: Signals.History, playlists: seq<Catalog.UserPlaylist>, masterInfo: seq<Entry>,
                          releases: ArtistId -> Radio.Releases, chosen: seq<ArtistId>, tracks: seq<TrackId>, shuffled: seq<TrackId>)
    requires RadioFrom(cfg, h, playlists, masterInfo, releases, chosen, tracks)
    requires multiset(shuffled) == multiset(tracks)
    ensures RadioFrom(cfg, h, playlists, masterInfo, releases, chosen, shuffled)
  {
    forall t | t in shuffled ensures t in tracks {
      assert t in multiset(shuffled);
    }
  }

  lemma MulMono(a: nat, b: nat, c: nat)
    requires a <= b
    ensures a * c <= b * c
  {
  }
}
