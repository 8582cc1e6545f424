/** The pure helpers of the mixer page (`packages/app/src/App.tsx`): focus
    ids of the two columns, the navigation scope, the "act on the focused
    item" guards, the track map built from the mixer's channels, the search
    filter and the padded track column. */
module AppHelpers {
  import opened Common
  import opened Text
  import opened Sources

  // ---------------------------------------------------------------------
  // Focus ids
  // ---------------------------------------------------------------------

  const TrackPrefix := "track"
  const SourcePrefix := "source"

  /** `FID.x.to(id)`. */
  function FocusTo(prefix: string, id: string): (r: string)
    ensures StartsWith(r, prefix + "-") && r[|prefix| + 1..] == id
  {
    prefix + "-" + id
  }

  /** `FID.x.from(focusId)`: the first `prefix-` anywhere is removed. */
  function FocusFrom(prefix: string, focusId: string): (r: string)
    ensures |r| == |focusId| || |r| + |prefix| + 1 == |focusId|
  {
    ReplaceFirst(focusId, prefix + "-", "")
  }

  /** `from` undoes `to`. */
  lemma FocusRoundTrip(prefix: string, id: string)
    ensures FocusFrom(prefix, FocusTo(prefix, id)) == id
  {
    var f := FocusTo(prefix, id);
    ReplaceLeading(f, prefix + "-", "");
    assert f[|prefix + "-"|..] == id;
  }

  /** A focus id without the marker is returned as it is. */
  lemma FocusFromForeign(prefix: string, focusId: string)
    requires !Contains(focusId, prefix + "-")
    ensures FocusFrom(prefix, focusId) == focusId
  {
  }

  /** Focus ids of one column are told apart by the ids they carry. */
  lemma FocusToInjective(prefix: string, id: string, id': string)
    requires FocusTo(prefix, id) == FocusTo(prefix, id')
    ensures id == id'
  {
    FocusRoundTrip(prefix, id);
    FocusRoundTrip(prefix, id');
  }

  // ---------------------------------------------------------------------
  // Navigation scope
  // ---------------------------------------------------------------------

  /** `navigationTarget`: the prefix of the column the arrow keys move
      along, the source prefix when a focus id mentions `searchbar` or the
      source prefix, the track prefix otherwise (and with nothing focused). */
  function NavigationTarget(currentFocusId: Option<string>): (r: string)
    ensures r == SourcePrefix || r == TrackPrefix
    ensures r == SourcePrefix <==>
      currentFocusId.Some? && (Contains(currentFocusId.value, "searchbar") || Contains(currentFocusId.value, SourcePrefix))
    ensures currentFocusId.None? ==> r == TrackPrefix
  {
    assert |SourcePrefix| != |TrackPrefix|;
    match currentFocusId
    case None => TrackPrefix
    case Some(f) => if Contains(f, "searchbar") || Contains(f, SourcePrefix) then SourcePrefix else TrackPrefix
  }

  /** A pattern that starts with a character `p` lacks occurs in `p + s`
      only inside `s`. */
  lemma ContainsBehind(p: string, s: string, pat: string)
    requires |pat| > 0 && pat[0] !in p && Contains(p + s, pat)
    ensures Contains(s, pat)
  {
    var t := p + s;
    IndexOfFirst(t, pat);
    var i := IndexOf(t, pat).value;
    assert t[i..i + |pat|][0] == t[i];
    assert t[i] == pat[0];
    assert i >= |p|;
    var u, v := t[i..i + |pat|], s[i - |p|..i - |p| + |pat|];
    forall k | 0 <= k < |pat|
      ensures u[k] == v[k]
    {
      assert t[i + k] == s[i - |p| + k];
    }
    assert u == v;
    assert OccursAt(s, pat, i - |p|);
    IndexOfFirst(s, pat);
  }

  /** A focused source keeps navigation in the source column. */
  lemma SourceFocusNavigatesSources(id: string)
    ensures NavigationTarget(Some(FocusTo(SourcePrefix, id))) == SourcePrefix
  {
    var f := FocusTo(SourcePrefix, id);
    assert OccursAt(f, SourcePrefix, 0);
    IndexOfFirst(f, SourcePrefix);
  }

  /** A focused track keeps navigation in the track column, unless its id
      itself mentions `source` or `searchbar`. */
  lemma TrackFocusNavigatesTracks(id: string)
    requires !Contains(id, SourcePrefix) && !Contains(id, "searchbar")
    ensures NavigationTarget(Some(FocusTo(TrackPrefix, id))) == TrackPrefix
  {
    var p := TrackPrefix + "-";
    assert 's' !in p;
    assert FocusTo(TrackPrefix, id) == p + id;
    if Contains(p + id, SourcePrefix) {
      ContainsBehind(p, id, SourcePrefix);
    }
    if Contains(p + id, "searchbar") {
      ContainsBehind(p, id, "searchbar");
    }
  }

  // ---------------------------------------------------------------------
  // Tracks
  // ---------------------------------------------------------------------

  /** A mixer channel: its audio url and its volume. */
  datatype Channel<V> = Channel(url: string, volume: V)

  datatype Track<V> = Track(id: string, name: string, url: string, volume: V)

  /** The first source with the given id. */
  function FindSource(sources: seq<Source>, id: string): (r: Option<Source>)
    ensures r.None? <==> forall s <- sources :: s.id != id
    ensures r.Some? ==> r.value in sources && r.value.id == id
  {
    if |sources| == 0 then None
    else if sources[0].id == id then Some(sources[0])
    else
      assert forall s <- sources[1..] :: s in sources;
      assert forall s <- sources :: s == sources[0] || s in sources[1..];
      FindSource(sources[1..], id)
  }

  /** `find` stops at the first source with the id. */
  lemma {:induction false} FindSourceFirst(sources: seq<Source>, id: string)
    requires FindSource(sources, id).Some?
    ensures exists k :: 0 <= k < |sources| && sources[k] == FindSource(sources, id).value
                        && forall j :: 0 <= j < k ==> sources[j].id != id
  {
    if sources[0].id != id {
      var t := sources[1..];
      assert FindSource(sources, id) == FindSource(t, id);
      FindSourceFirst(t, id);
      var k :| 0 <= k < |t| && t[k] == FindSource(t, id).value
               && forall j :: 0 <= j < k ==> t[j].id != id;
      assert sources[k + 1] == t[k];
      forall j | 0 <= j < k + 1
        ensures sources[j].id != id
      {
        if j > 0 {
          assert sources[j] == t[j - 1];
        }
      }
    } else {
      assert sources[0] == FindSource(sources, id).value;
    }
  }

  /** `sources.find(s => s.id === id)?.name`. */
  function SourceName(sources: seq<Source>, id: string): (r: Option<string>)
    ensures r.None? <==> forall s <- sources :: s.id != id
    ensures r.Some? ==> exists s <- sources :: s.id == id && s.name == r.value
  {
    match FindSource(sources, id)
    case None => None
    case Some(s) => Some(s.name)
  }

  /** A falsy name (`undefined` or `""`) drops the channel. */
  predicate Named(name: Option<string>) {
    name.Some? && name.value != ""
  }

  /** The keys of `Object.entries(mixer.channels)`: each id once. */
  ghost predicate DistinctIds<V>(entries: seq<(string, Channel<V>)>) {
    forall i, j :: 0 <= i < j < |entries| ==> entries[i].0 != entries[j].0
  }

  /** The `tracks` reduce over the channel entries. */
  function Tracks<V>(entries: seq<(string, Channel<V>)>, sources: seq<Source>): map<string, Track<V>> {
    if |entries| == 0 then map[]
    else
      var acc := Tracks(entries[..|entries| - 1], sources);
      var (id, channel) := entries[|entries| - 1];
      var name := SourceName(sources, id);
      if !Named(name) then acc
      else acc[id := Track(id, name.value, channel.url, channel.volume)]
  }

  /** Every track comes from a channel whose id names a source, and carries
      that id and that name. */
  lemma {:induction false} TracksNamed<V>(entries: seq<(string, Channel<V>)>, sources: seq<Source>, id: string)
    requires id in Tracks(entries, sources)
    ensures var t := Tracks(entries, sources)[id];
      && t.id == id
      && Named(SourceName(sources, id)) && t.name == SourceName(sources, id).value
    ensures exists i :: 0 <= i < |entries| && entries[i].0 == id
  {
    var n := |entries|;
    var init, last := entries[..n - 1], entries[n - 1];
    var acc, r := Tracks(init, sources), Tracks(entries, sources);
    var name := SourceName(sources, last.0);
    if Named(name) {
      assert r == acc[last.0 := Track(last.0, name.value, last.1.url, last.1.volume)];
    } else {
      assert r == acc;
    }
    if Named(name) && last.0 == id {
      assert entries[n - 1].0 == id;
    } else {
      TracksNamed(init, sources, id);
      var i :| 0 <= i < |init| && init[i].0 == id;
      assert entries[i] == init[i];
    }
  }

  /** Every channel whose id names a source has a track. */
  lemma {:induction false} TracksCovers<V>(entries: seq<(string, Channel<V>)>, sources: seq<Source>, i: nat)
    requires i < |entries| && Named(SourceName(sources, entries[i].0))
    ensures entries[i].0 in Tracks(entries, sources)
  {
    var n := |entries|;
    var init, last := entries[..n - 1], entries[n - 1];
    var acc, r := Tracks(init, sources), Tracks(entries, sources);
    var name := SourceName(sources, last.0);
    if Named(name) {
      assert r == acc[last.0 := Track(last.0, name.value, last.1.url, last.1.volume)];
    } else {
      assert r == acc;
    }
    if i < n - 1 {
      assert init[i] == entries[i];
      TracksCovers(init, sources, i);
    }
  }

  /** A named channel that no later channel shares its id with is in the
      map with its own url and volume: a later channel with the same id
      would overwrite it. */
  lemma {:induction false} TracksLastWins<V>(entries: seq<(string, Channel<V>)>, sources: seq<Source>, i: nat)
    requires i < |entries| && Named(SourceName(sources, entries[i].0))
    requires forall j :: i < j < |entries| ==> entries[j].0 != entries[i].0
    ensures var e, r := entries[i], Tracks(entries, sources);
      e.0 in r && r[e.0] == Track(e.0, SourceName(sources, e.0).value, e.1.url, e.1.volume)
  {
    var n := |entries|;
    var init, last := entries[..n - 1], entries[n - 1];
    var acc, r := Tracks(init, sources), Tracks(entries, sources);
    var name := SourceName(sources, last.0);
    if Named(name) {
      assert r == acc[last.0 := Track(last.0, name.value, last.1.url, last.1.volume)];
    } else {
      assert r == acc;
    }
    if i < n - 1 {
      assert init[i] == entries[i];
      TracksLastWins(init, sources, i);
    }
  }

  /** With distinct ids, every named channel is in the map with its own url
      and volume. */
  lemma TracksEntry<V>(entries: seq<(string, Channel<V>)>, sources: seq<Source>, i: nat)
    requires DistinctIds(entries) && i < |entries| && Named(SourceName(sources, entries[i].0))
    ensures var e, r := entries[i], Tracks(entries, sources);
      e.0 in r && r[e.0] == Track(e.0, SourceName(sources, e.0).value, e.1.url, e.1.volume)
  {
    TracksLastWins(entries, sources, i);
  }

  /** The map holds exactly the channels whose id names a source. */
  lemma TracksKeys<V>(entries: seq<(string, Channel<V>)>, sources: seq<Source>)
    ensures Tracks(entries, sources).Keys ==
      set i | 0 <= i < |entries| && Named(SourceName(sources, entries[i].0)) :: entries[i].0
  {
    var r := Tracks(entries, sources);
    var named := set i | 0 <= i < |entries| && Named(SourceName(sources, entries[i].0)) :: entries[i].0;
    forall id | id in r
      ensures id in named
    {
      TracksNamed(entries, sources, id);
      var i :| 0 <= i < |entries| && entries[i].0 == id;
    }
    forall id | id in named
      ensures id in r
    {
      var i :| 0 <= i < |entries| && Named(SourceName(sources, entries[i].0)) && entries[i].0 == id;
      TracksCovers(entries, sources, i);
    }
  }

  // ---------------------------------------------------------------------
  // Acting on the focused item
  // ---------------------------------------------------------------------

  /** `withFocusedTrackDo(fn)`: the argument `fn` is called with, if it is
      called at all. */
  function WithFocusedTrackDo<V>(currentFocusId: Option<string>, tracks: map<string, Track<V>>): (call: Option<string>)
    ensures call.Some? <==> currentFocusId.Some? && FocusFrom(TrackPrefix, currentFocusId.value) in tracks
    ensures call.Some? ==> call.value == FocusFrom(TrackPrefix, currentFocusId.value) && call.value in tracks
  {
    match currentFocusId
    case None => None
    case Some(f) =>
      var id := FocusFrom(TrackPrefix, f);
      if id in tracks then Some(id) else None
  }

  /** A focused track is acted on with its own id. */
  lemma FocusedTrackActedOn<V>(id: string, tracks: map<string, Track<V>>)
    requires id in tracks
    ensures WithFocusedTrackDo(Some(FocusTo(TrackPrefix, id)), tracks) == Some(id)
  {
    FocusRoundTrip(TrackPrefix, id);
  }

  /** `withFocusedSourceDo(fn)`: the source `fn` is called with, if any. */
  function WithFocusedSourceDo(currentFocusId: Option<string>, filteredSources: seq<Source>): (call: Option<Source>)
    ensures call.Some? ==>
      && currentFocusId.Some?
      && call.value in filteredSources
      && call.value.id == FocusFrom(SourcePrefix, currentFocusId.value)
    ensures currentFocusId.Some? && call.None? ==>
      forall s <- filteredSources :: s.id != FocusFrom(SourcePrefix, currentFocusId.value)
  {
    match currentFocusId
    case None => None
    case Some(f) => FindSource(filteredSources, FocusFrom(SourcePrefix, f))
  }

  /** A focused source that is listed is acted on. */
  lemma FocusedSourceActedOn(id: string, filteredSources: seq<Source>, k: nat)
    requires k < |filteredSources| && filteredSources[k].id == id
    ensures WithFocusedSourceDo(Some(FocusTo(SourcePrefix, id)), filteredSources).Some?
    ensures WithFocusedSourceDo(Some(FocusTo(SourcePrefix, id)), filteredSources).value.id == id
  {
    FocusRoundTrip(SourcePrefix, id);
    assert filteredSources[k] in filteredSources;
  }

  // ---------------------------------------------------------------------
  // Search and the track column
  // ---------------------------------------------------------------------

  /** `filteredSources`; `results` stands for `search(searchQuery)`. */
  function FilteredSources(searchQuery: string, sources: seq<Source>, results: seq<Source>): (r: seq<Source>)
    ensures searchQuery == "" ==> r == sources
    ensures searchQuery != "" ==> r == results
  {
    if searchQuery == "" then sources else results
  }

  /** An empty query lists every source, so every source can be acted on. */
  lemma EmptyQueryActsOnAll(id: string, sources: seq<Source>, results: seq<Source>, k: nat)
    requires k < |sources| && sources[k].id == id
    ensures WithFocusedSourceDo(Some(FocusTo(SourcePrefix, id)), FilteredSources("", sources, results)).Some?
  {
    FocusedSourceActedOn(id, sources, k);
  }

  /** `placeholderTracksRange.length`. */
  const PlaceholderCount := 7

  /** The track column: the rendered tracks, then placeholders, cut to the
      longer of the two lists. */
  function TrackColumn<T>(tracksRender: seq<T>, placeholders: seq<T>): (r: seq<T>)
    ensures |r| == if |tracksRender| >= |placeholders| then |tracksRender| else |placeholders|
    ensures |tracksRender| >= |placeholders| ==> r == tracksRender
    ensures |tracksRender| < |placeholders| ==> r == tracksRender + placeholders[..|placeholders| - |tracksRender|]
  {
    var all := tracksRender + placeholders;
    var n := if |placeholders| >= |tracksRender| then |placeholders| else |tracksRender|;
    assert n <= |all|;
    assert |tracksRender| < |placeholders| ==> all[..n] == tracksRender + placeholders[..|placeholders| - |tracksRender|];
    all[..n]
  }

  /** With the seven placeholders the column always has at least seven
      rows, the real tracks first. */
  lemma ColumnStartsWithTracks<T>(tracksRender: seq<T>, placeholders: seq<T>)
    requires |placeholders| == PlaceholderCount
    ensures |TrackColumn(tracksRender, placeholders)| >= PlaceholderCount
    ensures TrackColumn(tracksRender, placeholders)[..|tracksRender|] == tracksRender
  {
  }
}
