/**
 What src/data_export.rs projects, drops and counts: tracks and their catalog identities, and the
 preference signals. Text fields other than identifiers are not part of this model.
 */
module ExportAccounting {
  import opened Sorting
  import opened Text

  /** `usize::MAX` of a 64-bit target. */
  const USIZE_MAX: nat := 0xFFFF_FFFF_FFFF_FFFF

  function SaturatingAdd(a: nat, b: nat): nat {
    if a + b > USIZE_MAX then USIZE_MAX else a + b
  }

  datatype Source = Youtube | SoundCloud | Audius | Jamendo | InternetArchive | OpenSubsonic | RadioBrowser | All

  function IdPrefix(s: Source): string {
    match s
    case Youtube => "yt"
    case SoundCloud => "sc"
    case Audius => "au"
    case Jamendo => "ja"
    case InternetArchive => "ia"
    case OpenSubsonic => "sub"
    case RadioBrowser => "rad"
    case All => "all"
  }

  function SourceSortKey(s: Source): string {
    match s
    case Youtube => "youtube"
    case SoundCloud => "soundcloud"
    case Audius => "audius"
    case Jamendo => "jamendo"
    case InternetArchive => "internet_archive"
    case OpenSubsonic => "open_subsonic"
    case RadioBrowser => "radio_browser"
    case All => "all"
  }

  datatype Song = Song(videoId: string, ytVideoId: Option<string>, localPath: bool, source: Source)

  datatype CatalogId = CatalogId(source: Source, id: string)

  datatype Track = Track(catalog: Option<CatalogId>, localOrigin: bool, source: Source)

  // ---------------------------------------------------------------- catalog identities

  predicate IdChar(c: char) {
    '0' <= c <= '9' || 'A' <= c <= 'Z' || 'a' <= c <= 'z' || c == '_' || c == '-'
  }

  predicate IsYoutubeVideoId(id: string) {
    |id| == 11 && forall i :: 0 <= i < |id| ==> IdChar(id[i])
  }

  predicate StartsWith(s: string, prefix: string) {
    |prefix| <= |s| && forall i :: 0 <= i < |prefix| ==> s[i] == prefix[i]
  }

  predicate LocalOrigin(song: Song) {
    song.localPath || StartsWith(song.videoId, "local:")
  }

  /** `safe` keeps an identifier that may be published, trimmed, or drops it. */
  function CatalogForSong(song: Song, safe: string -> Option<string>): Option<CatalogId> {
    if song.ytVideoId.Some? && IsYoutubeVideoId(song.ytVideoId.value) then Some(CatalogId(Youtube, song.ytVideoId.value))
    else if LocalOrigin(song) then None
    else if song.source == Youtube then
      if IsYoutubeVideoId(song.videoId) then Some(CatalogId(Youtube, song.videoId)) else None
    else if song.source == OpenSubsonic || song.source == All then None
    else
      var prefix := IdPrefix(song.source) + ":";
      if !StartsWith(song.videoId, prefix) then None
      else
        match safe(song.videoId[|prefix|..])
        case None => None
        case Some(id) => Some(CatalogId(song.source, id))
  }

  /** Without a YouTube id, neither local files nor server rows are ever given an identity. */
  lemma OnlyPortableIdentities(song: Song, safe: string -> Option<string>)
    requires CatalogForSong(song, safe).Some?
    ensures var c := CatalogForSong(song, safe).value;
      if c.source == Youtube then IsYoutubeVideoId(c.id) && (song.ytVideoId == Some(c.id) || song.videoId == c.id)
      else !LocalOrigin(song) && c.source == song.source && c.source != OpenSubsonic && c.source != All
  {
  }

  /** The catalogs that name their own rows, with the prefix of a row's id. */
  const ROW_PREFIXES := map[SoundCloud := "sc:", Audius := "au:", Jamendo := "ja:", InternetArchive := "ia:", RadioBrowser := "rad:"]

  /** Eleven characters of the URL-safe alphabet, by code point. */
  predicate YoutubeId(id: string) {
    |id| == 11 && forall c <- id ::
      var n := c as int; 48 <= n <= 57 || 65 <= n <= 90 || 97 <= n <= 122 || n == 95 || n == 45
  }

  predicate FromDisk(song: Song) {
    song.localPath || "local:" <= song.videoId
  }

  /** `c` identifies the song: a YouTube id, or what follows the prefix of its own catalog. */
  predicate Identifies(c: CatalogId, song: Song, safe: string -> Option<string>) {
    if song.ytVideoId.Some? && YoutubeId(song.ytVideoId.value) then c == CatalogId(Youtube, song.ytVideoId.value)
    else
      && !FromDisk(song) && c.source == song.source
      && ((song.source == Youtube && YoutubeId(song.videoId) && c.id == song.videoId)
          || (song.source in ROW_PREFIXES && ROW_PREFIXES[song.source] <= song.videoId
              && safe(song.videoId[|ROW_PREFIXES[song.source]|..]) == Some(c.id)))
  }

  lemma YoutubeIdIs(id: string)
    ensures IsYoutubeVideoId(id) <==> YoutubeId(id)
  {
    if IsYoutubeVideoId(id) {
      forall c <- id ensures IdChar(c) {
        var i :| 0 <= i < |id| && id[i] == c;
      }
    }
    assert forall i :: 0 <= i < |id| ==> id[i] in id;
  }

  lemma StartsWithIs(s: string, prefix: string)
    ensures StartsWith(s, prefix) <==> prefix <= s
  {
  }

  /** A song has the identity that identifies it, and otherwise none. */
  lemma IdentityIs(song: Song, safe: string -> Option<string>, c: CatalogId)
    ensures CatalogForSong(song, safe) == Some(c) <==> Identifies(c, song, safe)
  {
    YoutubeIdIs(song.videoId);
    if song.ytVideoId.Some? {
      YoutubeIdIs(song.ytVideoId.value);
    }
    StartsWithIs(song.videoId, "local:");
    StartsWithIs(song.videoId, IdPrefix(song.source) + ":");
    hide StartsWith, YoutubeId, IsYoutubeVideoId;
  }

  type Catalog = map<string, CatalogId>

  /** The keys under which a song's identity is found. */
  predicate KeyOf(key: string, song: Song, safe: string -> Option<string>) {
    && CatalogForSong(song, safe).Some?
    && (key == song.videoId || (song.ytVideoId == Some(key) && IsYoutubeVideoId(key)))
  }

  /** The identity under a key is that of the last song with the key, and there is one only for such keys. */
  ghost predicate IsCatalog(catalog: Catalog, songs: seq<Song>, safe: string -> Option<string>) {
    && (forall key <- catalog :: exists i :: LastWithKey(songs, i, key, safe) && CatalogForSong(songs[i], safe) == Some(catalog[key]))
    && (forall i, key :: 0 <= i < |songs| && KeyOf(key, songs[i], safe) ==> key in catalog)
  }

  predicate LastWithKey(songs: seq<Song>, i: int, key: string, safe: string -> Option<string>) {
    && 0 <= i < |songs| && KeyOf(key, songs[i], safe)
    && forall j :: i < j < |songs| ==> !KeyOf(key, songs[j], safe)
  }

  function Inserted(catalog: Catalog, song: Song, safe: string -> Option<string>): Catalog {
    match CatalogForSong(song, safe)
    case None => catalog
    case Some(c) =>
      var more := catalog[song.videoId := c];
      if song.ytVideoId.Some? && IsYoutubeVideoId(song.ytVideoId.value) then more[song.ytVideoId.value := c] else more
  }

  lemma InsertedIs(catalog: Catalog, song: Song, safe: string -> Option<string>, key: string)
    ensures key in Inserted(catalog, song, safe) <==> key in catalog || KeyOf(key, song, safe)
    ensures key in Inserted(catalog, song, safe) ==>
      if KeyOf(key, song, safe) then CatalogForSong(song, safe) == Some(Inserted(catalog, song, safe)[key])
      else key in catalog && Inserted(catalog, song, safe)[key] == catalog[key]
  {
  }

  lemma InsertedKeeps(catalog: Catalog, songs: seq<Song>, song: Song, safe: string -> Option<string>)
    requires IsCatalog(catalog, songs, safe)
    ensures IsCatalog(Inserted(catalog, song, safe), songs + [song], safe)
  {
    hide CatalogForSong, KeyOf, Inserted;
    var more, all := Inserted(catalog, song, safe), songs + [song];
    forall key <- more ensures exists i :: LastWithKey(all, i, key, safe) && CatalogForSong(all[i], safe) == Some(more[key]) {
      InsertedIs(catalog, song, safe, key);
      if KeyOf(key, song, safe) {
        assert LastWithKey(all, |songs|, key, safe);
      } else {
        var i :| LastWithKey(songs, i, key, safe) && CatalogForSong(songs[i], safe) == Some(catalog[key]);
        assert LastWithKey(all, i, key, safe);
      }
    }
    forall i, key | 0 <= i < |all| && KeyOf(key, all[i], safe) ensures key in more {
      InsertedIs(catalog, song, safe, key);
    }
  }

  method BuildCatalogMap(songs: seq<Song>, safe: string -> Option<string>) returns (catalog: Catalog)
    ensures IsCatalog(catalog, songs, safe)
  {
    catalog := map[];
    for i := 0 to |songs|
      invariant IsCatalog(catalog, songs[..i], safe)
    {
      var song := songs[i];
      InsertedKeeps(catalog, songs[..i], song, safe);
      assert songs[..i] + [song] == songs[..i + 1];
      var c := CatalogForSong(song, safe);
      ghost var was := catalog;
      if c.Some? {
        catalog := catalog[song.videoId := c.value];
        if song.ytVideoId.Some? && IsYoutubeVideoId(song.ytVideoId.value) {
          catalog := catalog[song.ytVideoId.value := c.value];
        }
      }
      assert catalog == Inserted(was, song, safe);
    }
    assert songs[..|songs|] == songs;
  }

  // ---------------------------------------------------------------- tracks

  /** How many of the tracks have no identity. */
  function Unidentified(tracks: seq<Track>): nat {
    if tracks == [] then 0 else Unidentified(tracks[..|tracks| - 1]) + if tracks[|tracks| - 1].catalog.None? then 1 else 0
  }

  lemma {:induction false} UnidentifiedPlus(a: seq<Track>, b: seq<Track>)
    ensures Unidentified(a + b) == Unidentified(a) + Unidentified(b)
    decreases |b|
  {
    if b == [] {
      assert a + b == a;
    } else {
      assert (a + b)[..|a + b| - 1] == a + b[..|b| - 1];
      UnidentifiedPlus(a, b[..|b| - 1]);
    }
  }

  /** One track a song, in order. */
  predicate Portable(tracks: seq<Track>, songs: seq<Song>, safe: string -> Option<string>) {
    && |tracks| == |songs|
    && forall i :: 0 <= i < |songs| ==> tracks[i] == Track(CatalogForSong(songs[i], safe), LocalOrigin(songs[i]), songs[i].source)
  }

  /** A track shows the identity of its song, whether it is a file, and where it comes from. */
  lemma PortableTells(tracks: seq<Track>, songs: seq<Song>, safe: string -> Option<string>, i: nat)
    requires Portable(tracks, songs, safe) && i < |tracks|
    ensures i < |songs| && tracks[i].source == songs[i].source && (tracks[i].localOrigin <==> FromDisk(songs[i]))
    ensures forall c :: tracks[i].catalog == Some(c) <==> Identifies(c, songs[i], safe)
  {
    hide CatalogForSong, Identifies;
    StartsWithIs(songs[i].videoId, "local:");
    forall c ensures tracks[i].catalog == Some(c) <==> Identifies(c, songs[i], safe) {
      IdentityIs(songs[i], safe, c);
    }
  }

  /** Every song becomes one track; the counter, shared by all lists, grows by those without an identity. */
  method ProjectTracks(songs: seq<Song>, safe: string -> Option<string>, count: nat) returns (tracks: seq<Track>, counted: nat)
    requires count <= USIZE_MAX
    ensures Portable(tracks, songs, safe)
    ensures counted == SaturatingAdd(count, Unidentified(tracks))
  {
    hide CatalogForSong, LocalOrigin;
    tracks, counted := [], count;
    for i := 0 to |songs|
      invariant |tracks| == i && counted == SaturatingAdd(count, Unidentified(tracks))
      invariant forall k :: 0 <= k < i ==> tracks[k] == Track(CatalogForSong(songs[k], safe), LocalOrigin(songs[k]), songs[k].source)
    {
      var catalog := CatalogForSong(songs[i], safe);
      if catalog.None? {
        counted := SaturatingAdd(counted, 1);
      }
      var more := tracks + [Track(catalog, LocalOrigin(songs[i]), songs[i].source)];
      assert more[..|more| - 1] == tracks;
      tracks := more;
    }
  }

  // ---------------------------------------------------------------- signals

  /** The fields of one track's signals in the serialised form; those missing or mistyped are `None`. */
  datatype Values = Values(playCount: Option<nat>, completedCount: Option<nat>, skipCount: Option<nat>,
                           lastPlayedAt: Option<int>, disliked: Option<bool>)

  datatype TrackSignal = TrackSignal(catalog: CatalogId, playCount: nat, completedCount: nat, skipCount: nat,
                                     lastPlayedAt: int, disliked: bool)

  /** An element of the serialised log: whether it is a pair, and its parts when they have the right type. */
  datatype LogEntry = LogEntry(pair: bool, id: Option<string>, at: Option<int>)

  datatype PlayEvent = PlayEvent(catalog: CatalogId, playedAt: int)

  datatype Raw = Raw(tracks: Option<seq<(string, Option<Values>)>>, playLog: Option<seq<LogEntry>>)

  /** `json` is the serialised form, if there is one. */
  datatype Signals = Signals(playLog: seq<(string, int)>, json: Option<Raw>)

  datatype Projection = Projection(tracks: seq<TrackSignal>, playLog: seq<PlayEvent>, omittedTracks: nat, omittedEvents: nat)

  const U32_MAX: nat := 0xFFFF_FFFF

  function JsonU32(v: Option<nat>): nat {
    match v
    case None => 0
    case Some(n) => if n > U32_MAX then U32_MAX else n
  }

  function CatalogForSignal(id: string, catalog: Catalog): Option<CatalogId> {
    if id in catalog then Some(catalog[id]) else if IsYoutubeVideoId(id) then Some(CatalogId(Youtube, id)) else None
  }

  function SignalOf(entry: (string, Option<Values>), catalog: Catalog): Option<TrackSignal> {
    match CatalogForSignal(entry.0, catalog)
    case None => None
    case Some(c) =>
      match entry.1
      case None => None
      case Some(v) =>
        Some(TrackSignal(c, JsonU32(v.playCount), JsonU32(v.completedCount), JsonU32(v.skipCount),
                         if v.lastPlayedAt.Some? then v.lastPlayedAt.value else 0, v.disliked == Some(true)))
  }

  function EventOf(entry: LogEntry, catalog: Catalog): Option<PlayEvent> {
    if !entry.pair || entry.id.None? then None
    else
      match CatalogForSignal(entry.id.value, catalog)
      case None => None
      case Some(c) => if entry.at.None? then None else Some(PlayEvent(c, entry.at.value))
  }

  /** The values that are there, in order. */
  function Present<T, U>(s: seq<T>, f: T -> Option<U>): (kept: seq<U>)
    ensures |kept| <= |s|
  {
    if s == [] then []
    else
      var n := |s| - 1;
      match f(s[n])
      case None => Present(s[..n], f)
      case Some(u) => Present(s[..n], f) + [u]
  }

  /** Source key first, then identity. */
  predicate SignalBefore(a: TrackSignal, b: TrackSignal) {
    var x, y := SourceSortKey(a.catalog.source), SourceSortKey(b.catalog.source);
    Below(x, y) || (x == y && Below(a.catalog.id, b.catalog.id))
  }

  lemma SignalBeforeIsOrder()
    ensures StrictWeak(SignalBefore)
  {
    forall a, b ensures !(SignalBefore(a, b) && SignalBefore(b, a)) {
      BelowTotal(SourceSortKey(a.catalog.source), SourceSortKey(b.catalog.source));
      BelowTotal(a.catalog.id, b.catalog.id);
    }
    forall a, b, c | SignalBefore(a, c) ensures SignalBefore(a, b) || SignalBefore(b, c) {
      SignalSplits(a, b, c);
    }
  }

  /** The sources in the order of their keys. */
  const SOURCES_BY_KEY := [All, Audius, InternetArchive, Jamendo, OpenSubsonic, RadioBrowser, SoundCloud, Youtube]

  function KeyHead(s: Source): char {
    match s
    case All => 'a'
    case Audius => 'a'
    case InternetArchive => 'i'
    case Jamendo => 'j'
    case OpenSubsonic => 'o'
    case RadioBrowser => 'r'
    case SoundCloud => 's'
    case Youtube => 'y'
  }

  lemma KeyHeads(s: Source)
    ensures |SourceSortKey(s)| > 2 && SourceSortKey(s)[0] == KeyHead(s)
    ensures s == All ==> SourceSortKey(s)[1] == 'l'
    ensures s == Audius ==> SourceSortKey(s)[1] == 'u'
  {
  }

  lemma BelowByFirst(a: string, b: string)
    requires a != "" && b != "" && a[0] < b[0]
    ensures Below(a, b)
  {
  }

  lemma BelowBySecond(a: string, b: string)
    requires |a| > 2 && |b| > 2 && a[0] == b[0] && a[1] != b[1]
    ensures Below(a, b) <==> a[1] < b[1]
  {
    assert a[1..][0] == a[1] && b[1..][0] == b[1];
  }

  lemma KeysInOrder(i: nat, j: nat)
    requires i < j < 8
    ensures Below(SourceSortKey(SOURCES_BY_KEY[i]), SourceSortKey(SOURCES_BY_KEY[j]))
  {
    var x, y := SOURCES_BY_KEY[i], SOURCES_BY_KEY[j];
    hide SourceSortKey, Below;
    KeyHeads(x);
    KeyHeads(y);
    if j == 1 {
      BelowBySecond(SourceSortKey(x), SourceSortKey(y));
    } else {
      BelowByFirst(SourceSortKey(x), SourceSortKey(y));
    }
  }

  /** Signals are sorted by source in this order, and of one source by identity. */
  lemma SignalBeforeIs(a: TrackSignal, b: TrackSignal, i: nat, j: nat)
    requires i < 8 && j < 8 && SOURCES_BY_KEY[i] == a.catalog.source && SOURCES_BY_KEY[j] == b.catalog.source
    ensures SignalBefore(a, b) <==> i < j || (i == j && Below(a.catalog.id, b.catalog.id))
  {
    if i < j {
      KeysInOrder(i, j);
    } else if j < i {
      KeysInOrder(j, i);
      BelowTotal(SourceSortKey(a.catalog.source), SourceSortKey(b.catalog.source));
    } else {
      BelowTotal(SourceSortKey(a.catalog.source), SourceSortKey(a.catalog.source));
    }
    hide Below, SourceSortKey;
  }

  lemma SignalSplits(a: TrackSignal, b: TrackSignal, c: TrackSignal)
    requires SignalBefore(a, c)
    ensures SignalBefore(a, b) || SignalBefore(b, c)
  {
    var x, y, z := SourceSortKey(a.catalog.source), SourceSortKey(b.catalog.source), SourceSortKey(c.catalog.source);
    hide SourceSortKey, Below;
    BelowTotal(x, y);
    BelowTotal(y, z);
    if Below(x, z) {
      BelowSplits(x, y, z);
    } else {
      BelowSplits(a.catalog.id, b.catalog.id, c.catalog.id);
    }
  }

  /** Every row is either exported, once, or counted as omitted. */
  predicate Accounts(p: Projection, signals: Signals, catalog: Catalog) {
    if signals.json.None? then
      && p.tracks == [] && p.playLog == []
      && p.omittedEvents == |signals.playLog| && p.omittedTracks == |set e <- signals.playLog :: e.0|
    else
      var tracks := if signals.json.value.tracks.Some? then signals.json.value.tracks.value else [];
      var log := if signals.json.value.playLog.Some? then signals.json.value.playLog.value else [];
      var kept := Present(tracks, (e: (string, Option<Values>)) => SignalOf(e, catalog));
      && multiset(p.tracks) == multiset(kept) && Ordered(p.tracks, SignalBefore)
      && p.playLog == Present(log, (e: LogEntry) => EventOf(e, catalog))
      && p.omittedTracks == SaturatingAdd(0, |tracks| - |kept|)
      && p.omittedEvents == SaturatingAdd(0, |log| - |p.playLog|)
  }

  method ProjectSignals(signals: Signals, catalog: Catalog) returns (p: Projection)
    ensures Accounts(p, signals, catalog)
  {
    if signals.json.None? {
      var ids := set e <- signals.playLog :: e.0;
      return Projection([], [], |ids|, |signals.playLog|);
    }
    var raw := signals.json.value;
    var tracks, omittedTracks := ProjectTrackSignals(if raw.tracks.Some? then raw.tracks.value else [], catalog);
    SignalBeforeIsOrder();
    var sorted := Sort(tracks, SignalBefore);
    assert |sorted| == |multiset(sorted)| == |multiset(tracks)| == |tracks|;
    var log, omittedEvents := ProjectPlayLog(if raw.playLog.Some? then raw.playLog.value else [], catalog);
    p := Projection(sorted, log, omittedTracks, omittedEvents);
  }

  method ProjectTrackSignals(entries: seq<(string, Option<Values>)>, catalog: Catalog) returns (kept: seq<TrackSignal>, omitted: nat)
    ensures kept == Present(entries, (e: (string, Option<Values>)) => SignalOf(e, catalog))
    ensures omitted == SaturatingAdd(0, |entries| - |kept|)
  {
    kept, omitted := [], 0;
    ghost var f := (e: (string, Option<Values>)) => SignalOf(e, catalog);
    for i := 0 to |entries|
      invariant kept == Present(entries[..i], f) && omitted == SaturatingAdd(0, i - |kept|)
    {
      assert entries[..i + 1][..i] == entries[..i];
      var signal := SignalOf(entries[i], catalog);
      match signal
      case None => omitted := SaturatingAdd(omitted, 1);
      case Some(s) => kept := kept + [s];
    }
    assert entries[..|entries|] == entries;
  }

  method ProjectPlayLog(entries: seq<LogEntry>, catalog: Catalog) returns (kept: seq<PlayEvent>, omitted: nat)
    ensures kept == Present(entries, (e: LogEntry) => EventOf(e, catalog))
    ensures omitted == SaturatingAdd(0, |entries| - |kept|)
  {
    kept, omitted := [], 0;
    ghost var f := (e: LogEntry) => EventOf(e, catalog);
    for i := 0 to |entries|
      invariant kept == Present(entries[..i], f) && omitted == SaturatingAdd(0, i - |kept|)
    {
      assert entries[..i + 1][..i] == entries[..i];
      var event := EventOf(entries[i], catalog);
      match event
      case None => omitted := SaturatingAdd(omitted, 1);
      case Some(e) => kept := kept + [e];
    }
    assert entries[..|entries|] == entries;
  }

  /** With a serialised form, exported and omitted rows add up to the source's. */
  lemma NothingLost(p: Projection, signals: Signals, catalog: Catalog, tracks: seq<(string, Option<Values>)>, log: seq<LogEntry>)
    requires signals.json == Some(Raw(Some(tracks), Some(log))) && |tracks| <= USIZE_MAX && |log| <= USIZE_MAX
    ensures Accounts(p, signals, catalog) ==>
      |p.tracks| + p.omittedTracks == |tracks| && |p.playLog| + p.omittedEvents == |log|
  {
    if Accounts(p, signals, catalog) {
      var kept := Present(tracks, (e: (string, Option<Values>)) => SignalOf(e, catalog));
      assert |p.tracks| == |multiset(p.tracks)| == |multiset(kept)| == |kept|;
    }
  }

  /** A count that is missing is 0, and one that is too large the largest. */
  predicate CountOf(n: nat, v: Option<nat>) {
    n == (if v.None? then 0 else if v.value < 0x1_0000_0000 then v.value else 0xFFFF_FFFF)
  }

  /** The identity an id is exported under: a known one, or its own if it is a YouTube id. */
  predicate Named(c: CatalogId, id: string, catalog: Catalog) {
    if id in catalog then c == catalog[id] else YoutubeId(id) && c == CatalogId(Youtube, id)
  }

  /** Every field of the exported signal is the row's own. */
  predicate Tells(t: TrackSignal, entry: (string, Option<Values>), catalog: Catalog) {
    && entry.1.Some? && Named(t.catalog, entry.0, catalog)
    && var v := entry.1.value;
      && CountOf(t.playCount, v.playCount) && CountOf(t.completedCount, v.completedCount) && CountOf(t.skipCount, v.skipCount)
      && (v.lastPlayedAt == Some(t.lastPlayedAt) || (v.lastPlayedAt.None? && t.lastPlayedAt == 0))
      && (t.disliked <==> v.disliked == Some(true))
  }

  predicate TellsEvent(e: PlayEvent, entry: LogEntry, catalog: Catalog) {
    entry.pair && entry.id.Some? && entry.at == Some(e.playedAt) && Named(e.catalog, entry.id.value, catalog)
  }

  lemma SignalIs(entry: (string, Option<Values>), catalog: Catalog, t: TrackSignal)
    ensures SignalOf(entry, catalog) == Some(t) <==> Tells(t, entry, catalog)
  {
    YoutubeIdIs(entry.0);
    hide YoutubeId, IsYoutubeVideoId;
  }

  lemma EventIs(entry: LogEntry, catalog: Catalog, e: PlayEvent)
    ensures EventOf(entry, catalog) == Some(e) <==> TellsEvent(e, entry, catalog)
  {
    if entry.id.Some? {
      YoutubeIdIs(entry.id.value);
    }
    hide YoutubeId, IsYoutubeVideoId;
  }

  /** What is present is where it came from, and everything that is something is present. */
  lemma {:induction false} PresentIs<T, U>(s: seq<T>, f: T -> Option<U>, u: U)
    ensures u in Present(s, f) <==> exists i :: 0 <= i < |s| && f(s[i]) == Some(u)
  {
    if s == [] {
    } else {
      var n := |s| - 1;
      PresentIs(s[..n], f, u);
      if i :| 0 <= i < |s| && f(s[i]) == Some(u) {
        assert i < n ==> s[..n][i] == s[i];
      }
    }
  }

  /** Exactly the rows that have an identity are exported, and each says what its row says. */
  lemma SignalsTell(p: Projection, signals: Signals, catalog: Catalog, tracks: seq<(string, Option<Values>)>, t: TrackSignal)
    requires Accounts(p, signals, catalog) && signals.json.Some? && signals.json.value.tracks == Some(tracks)
    ensures t in p.tracks <==> exists i :: 0 <= i < |tracks| && Tells(t, tracks[i], catalog)
  {
    var f := (e: (string, Option<Values>)) => SignalOf(e, catalog);
    PresentIs(tracks, f, t);
    assert t in p.tracks <==> t in multiset(p.tracks);
    assert t in Present(tracks, f) <==> t in multiset(Present(tracks, f));
    forall i | 0 <= i < |tracks| ensures f(tracks[i]) == Some(t) <==> Tells(t, tracks[i], catalog) {
      SignalIs(tracks[i], catalog, t);
    }
  }

  lemma EventsTell(p: Projection, signals: Signals, catalog: Catalog, log: seq<LogEntry>, e: PlayEvent)
    requires Accounts(p, signals, catalog) && signals.json.Some? && signals.json.value.playLog == Some(log)
    ensures e in p.playLog <==> exists i :: 0 <= i < |log| && TellsEvent(e, log[i], catalog)
  {
    var f := (x: LogEntry) => EventOf(x, catalog);
    PresentIs(log, f, e);
    forall i | 0 <= i < |log| ensures f(log[i]) == Some(e) <==> TellsEvent(e, log[i], catalog) {
      EventIs(log[i], catalog, e);
    }
  }

  // ---------------------------------------------------------------- snapshot

  datatype Library = Library(favorites: seq<Song>, history: seq<Song>, radioFavorites: seq<Song>, radioHistory: seq<Song>)

  datatype Snapshot = Snapshot(favorites: seq<Track>, history: seq<Track>, radioFavorites: seq<Track>, radioHistory: seq<Track>,
                               playlists: seq<seq<Track>>, signals: Projection, tracksWithoutStableId: nat)

  function Flat<T>(lists: seq<seq<T>>): seq<T> {
    if lists == [] then [] else Flat(lists[..|lists| - 1]) + lists[|lists| - 1]
  }

  lemma FlatNext<T>(lists: seq<seq<T>>, list: seq<T>)
    ensures Flat(lists + [list]) == Flat(lists) + list
  {
    assert (lists + [list])[..|lists|] == lists;
  }

  function AllTracks(s: Snapshot): seq<Track> {
    s.favorites + s.history + s.radioFavorites + s.radioHistory + Flat(s.playlists)
  }

  /** Every list keeps its length, and the one counter covers all of them. */
  method NewAt(library: Library, playlists: seq<seq<Song>>, signals: Signals, safe: string -> Option<string>)
    returns (s: Snapshot, ghost catalog: Catalog)
    ensures Portable(s.favorites, library.favorites, safe) && Portable(s.history, library.history, safe)
    ensures Portable(s.radioFavorites, library.radioFavorites, safe) && Portable(s.radioHistory, library.radioHistory, safe)
    ensures |s.playlists| == |playlists| && forall i :: 0 <= i < |playlists| ==> Portable(s.playlists[i], playlists[i], safe)
    ensures s.tracksWithoutStableId == SaturatingAdd(0, Unidentified(AllTracks(s)))
    ensures IsCatalog(catalog, library.favorites + library.history + library.radioFavorites + library.radioHistory + Flat(playlists), safe)
    ensures Accounts(s.signals, signals, catalog)
  {
    var known := BuildCatalogMap(library.favorites + library.history + library.radioFavorites + library.radioHistory + Flat(playlists), safe);
    catalog := known;
    hide IsCatalog, Accounts, Portable, Unidentified, Flat;
    var favorites, a := ProjectTracks(library.favorites, safe, 0);
    var history, b := ProjectTracks(library.history, safe, a);
    var radioFavorites, c := ProjectTracks(library.radioFavorites, safe, b);
    var radioHistory, count := ProjectTracks(library.radioHistory, safe, c);
    ghost var before := favorites + history + radioFavorites + radioHistory;
    UnidentifiedPlus(favorites, history);
    UnidentifiedPlus(favorites + history, radioFavorites);
    UnidentifiedPlus(favorites + history + radioFavorites, radioHistory);
    var portable, all := ProjectPlaylists(playlists, safe, count);
    UnidentifiedPlus(before, Flat(portable));
    var projection := ProjectSignals(signals, known);
    s := Snapshot(favorites, history, radioFavorites, radioHistory, portable, projection, all);
  }

  method ProjectPlaylists(playlists: seq<seq<Song>>, safe: string -> Option<string>, count: nat) returns (portable: seq<seq<Track>>, counted: nat)
    requires count <= USIZE_MAX
    ensures |portable| == |playlists| && forall i :: 0 <= i < |playlists| ==> Portable(portable[i], playlists[i], safe)
    ensures counted == SaturatingAdd(count, Unidentified(Flat(portable)))
  {
    portable, counted := [], count;
    assert Unidentified(Flat(portable)) == 0;
    hide Portable, Unidentified, Flat;
    for i := 0 to |playlists|
      invariant |portable| == i && forall k :: 0 <= k < i ==> Portable(portable[k], playlists[k], safe)
      invariant counted == SaturatingAdd(count, Unidentified(Flat(portable)))
    {
      var tracks;
      tracks, counted := ProjectTracks(playlists[i], safe, counted);
      FlatNext(portable, tracks);
      UnidentifiedPlus(Flat(portable), tracks);
      portable := portable + [tracks];
    }
  }

  // ---------------------------------------------------------------- size limit

  /** Passes writes on until one would exceed the limit. */
  class LimitedWriter {
    const max: nat
    var written: nat
    var exceeded: bool
    var inner: seq<int>

    ghost predicate Valid()
      reads this
    {
      written == |inner| && written <= max
    }

    constructor (max: nat)
      ensures Valid() && written == 0 && !exceeded && inner == [] && this.max == max
    {
      this.max, written, exceeded, inner := max, 0, false, [];
    }

    /** The inner writer may take only part of what fits, or fail. */
    method Write(buffer: seq<int>) returns (taken: Option<nat>)
      requires Valid()
      modifies this
      ensures Valid() && (taken.Some? ==> taken.value <= |buffer| && inner == old(inner) + buffer[..taken.value])
      ensures taken.None? ==> inner == old(inner)
      ensures exceeded <==> old(exceeded) || |old(inner)| + |buffer| > max
    {
      if |buffer| > max - written {
        exceeded := true;
        return None;
      }
      var fails: bool := *;
      var count: int := *;
      if fails || !(0 <= count <= |buffer|) {
        return None;
      }
      inner := inner + buffer[..count];
      written := written + count;
      taken := Some(count);
    }
  }
}
