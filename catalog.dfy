/** Stand-ins for the answers of the streaming service: what a track-information lookup and a
    playlist-by-name lookup return. The transport (paging, batching, retries) is not modelled. */
module Catalog {
  import opened Common

  datatype UserPlaylist = UserPlaylist(name: string, tracks: seq<TrackId>)

  /** Track information for `ids`, as a dictionary keyed by id: one entry per distinct id the
      catalog knows, in the order the ids were first requested. */
  function TracksInfo(catalog: map<TrackId, TrackInfo>, ids: seq<TrackId>): (es: seq<Entry>)
    ensures DistinctIds(es)
    ensures forall t :: Lookup(es, t).Some? <==> t in ids && t in catalog
    ensures forall i :: 0 <= i < |es| ==> es[i].id in catalog && es[i].info == catalog[es[i].id]
  {
    if ids == [] then []
    else
      var es := TracksInfo(catalog, ids[..|ids| - 1]);
      var t := ids[|ids| - 1];
      assert forall u :: u in ids <==> u in ids[..|ids| - 1] || u == t;
      if t in catalog && Lookup(es, t).None? then
        var es' := es + [Entry(t, catalog[t])];
        assert forall u :: Lookup(es', u).Some? <==> Lookup(es, u).Some? || u == t by {
          forall u ensures Lookup(es', u).Some? <==> Lookup(es, u).Some? || u == t {
            assert es'[..|es'| - 1] == es;
          }
        }
        es'
      else es
  }

  /** The tracks of the first playlist whose name is exactly `name`, if there is one. */
  function FindByName(playlists: seq<UserPlaylist>, name: string): (r: Option<seq<TrackId>>)
    ensures r.Some? <==> exists i :: 0 <= i < |playlists| && playlists[i].name == name
    ensures r.Some? ==>
              exists i :: (0 <= i < |playlists| && playlists[i].name == name && playlists[i].tracks == r.value
                           && forall j :: 0 <= j < i ==> playlists[j].name != name)
  {
    if playlists == [] then None
    else if playlists[0].name == name then Some(playlists[0].tracks)
    else
      var r := FindByName(playlists[1..], name);
      assert forall i :: 0 < i < |playlists| ==> playlists[1..][i - 1] == playlists[i];
      if r.Some? then
        var k :| 0 <= k < |playlists[1..]| && playlists[1..][k].name == name
                 && playlists[1..][k].tracks == r.value
                 && forall j :: 0 <= j < k ==> playlists[1..][j].name != name;
        assert playlists[k + 1].tracks == r.value;
        assert forall j :: 0 <= j < k + 1 ==> playlists[j].name != name;
        r
      else r
  }
}
