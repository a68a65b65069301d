/** The read side, song_service/dist/controller.js: cache-aside reads of the album
    list, the song list and an album's songs, and the uncached single-song read. */
module SongService {
  import opened Wrappers
  import opened Seqs
  import opened Catalog
  import opened Cache
  import opened Platform

  /** A JSON response; `fromCache` is what the handler logs, "Cache hit" or not. */
  datatype Reply = Served(body: Body, fromCache: bool) | NotFound(message: string)

  datatype SongReply = SongFound(song: Song) | SongNotFound(message: string)

  /** What the handler's SQL queries produce on a miss, or None when it answers 404.
      The album list and song list are the whole tables; an album's entry is the
      first album row with that id together with exactly the songs whose
      `album_id` is that id, and it is absent exactly when no album has the id. */
  function Load(db: Db, q: Query): (r: Option<Body>)
    ensures q.AllAlbums? ==> r == Some(AlbumList(db.albums))
    ensures q.AllSongs? ==> r == Some(SongList(db.songs))
    ensures q.SongsOfAlbumQuery? ==>
      (r.None? <==> forall i :: 0 <= i < |db.albums| ==> db.albums[i].id != q.id)
    ensures q.SongsOfAlbumQuery? && r.Some? ==>
      && r.value.AlbumWithSongs?
      && (exists i :: IsFirstWithId(db.albums, q.id, i) && db.albums[i] == r.value.album)
      && (forall i :: 0 <= i < |r.value.songs| ==>
            r.value.songs[i] in db.songs && r.value.songs[i].albumId == q.id)
      && (forall i :: 0 <= i < |db.songs| && db.songs[i].albumId == q.id ==>
            db.songs[i] in r.value.songs)
  {
    match q
    case AllAlbums => Some(AlbumList(db.albums))
    case AllSongs => Some(SongList(db.songs))
    case SongsOfAlbumQuery(id) =>
      var album := AlbumsWithId(db.albums, id);
      if |album| == 0 then
        FilterEmptyIff(db.albums, (a: Album) => a.id == id);
        None
      else
        FirstMatch(db.albums, id);
        Some(AlbumWithSongs(SongsOfAlbum(db.songs, id), album[0]))
  }

  /** Row `i` is the earliest album with the id. */
  ghost predicate IsFirstWithId(albums: seq<Album>, id: nat, i: int)
  {
    0 <= i < |albums| && albums[i].id == id && forall j :: 0 <= j < i ==> albums[j].id != id
  }

  /** The first row of `SELECT * FROM albums WHERE id = ${id}` is the earliest album with that id. */
  lemma {:induction false} FirstMatch(albums: seq<Album>, id: nat)
    requires AlbumsWithId(albums, id) != []
    ensures exists i :: IsFirstWithId(albums, id, i) && albums[i] == AlbumsWithId(albums, id)[0]
  {
    var init, last := albums[..|albums| - 1], albums[|albums| - 1];
    var r, r0 := AlbumsWithId(albums, id), AlbumsWithId(init, id);
    assert r == r0 + (if last.id == id then [last] else []);
    if r0 != [] {
      FirstMatch(init, id);
      var i :| IsFirstWithId(init, id, i) && init[i] == r0[0];
      assert r[0] == r0[0];
      assert IsFirstWithId(albums, id, i) by {
        forall j | 0 <= j < i ensures albums[j].id != id {
          assert albums[j] == init[j];
        }
      }
    } else {
      var i := |albums| - 1;
      assert r == [last];
      forall j | 0 <= j < i ensures albums[j].id != id {
        assert albums[j] == init[j];
        assert init[j] !in r0;
      }
      assert IsFirstWithId(albums, id, i);
    }
  }

  /** The common shape of `getAllAlbums`, `getAllSongs` and `getAllSongOfAlbum`:
      consult Redis only when the client is ready; on a hit answer the stored value;
      on a miss run the SQL queries, answer 404 for an unknown album, otherwise
      `SET key … EX 1800` (again only when ready) and answer the loaded value.
      Reads never touch the tables, the clock or the flags, and write no key but their own. */
  function CacheAside(w: World, q: Query): (r: Step<Reply>)
    ensures r.world.db == w.db && r.world.now == w.now
    ensures r.world.songServiceReady == w.songServiceReady && r.world.adminServiceReady == w.adminServiceReady
    ensures r.world.cache - {KeyOf(q)} == w.cache - {KeyOf(q)}
  {
    var k := KeyOf(q);
    var cached := if w.songServiceReady then Get(w.cache, w.now, k) else None;
    if cached.Some? then Step(w, Served(cached.value, true))
    else
      match Load(w.db, q)
      case None => Step(w, NotFound("Album not found"))
      case Some(body) =>
        var w' := if w.songServiceReady then w.(cache := Set(w.cache, w.now, k, body, CacheExpiry)) else w;
        Step(w', Served(body, false))
  }

  /** `getSingleSong`: the first row with the id, or 404. It takes only the tables,
      so it can neither read nor write the cache. */
  function GetSingleSong(db: Db, id: nat): (r: SongReply)
    ensures r.SongFound? ==> r.song.id == id && r.song in db.songs
    ensures r.SongNotFound? <==> forall i :: 0 <= i < |db.songs| ==> db.songs[i].id != id
    ensures r.SongNotFound? ==> r.message == "Song not found"
  {
    var song := SongsWithId(db.songs, id);
    FilterEmptyIff(db.songs, (s: Song) => s.id == id);
    if |song| == 0 then SongNotFound("Song not found") else SongFound(song[0])
  }

  /** A hit answers the stored payload, changes nothing, and issues no SQL query:
      the answer is the same whatever the tables hold. */
  lemma CacheHitServesStoredPayload(w: World, q: Query, other: Db)
    requires w.songServiceReady && Live(w.cache, w.now, KeyOf(q))
    ensures CacheAside(w, q) == Step(w, Served(w.cache[KeyOf(q)].payload, true))
    ensures CacheAside(w.(db := other), q).reply == CacheAside(w, q).reply
  {
  }

  /** A miss answers what the SQL queries return and stores exactly that under the
      query's key with expiry now + 1800; an unknown album gets 404 and nothing is stored. */
  lemma CacheMissLoadsAndPopulates(w: World, q: Query)
    requires w.songServiceReady && !Live(w.cache, w.now, KeyOf(q))
    ensures Load(w.db, q).None? ==>
      CacheAside(w, q) == Step(w, NotFound("Album not found"))
    ensures Load(w.db, q).Some? ==>
      CacheAside(w, q) ==
        Step(w.(cache := w.cache[KeyOf(q) := Entry(Load(w.db, q).value, w.now + CacheExpiry)]),
             Served(Load(w.db, q).value, false))
  {
  }

  /** With the client not ready no cache read or write happens: the state is
      unchanged and the answer comes from the tables whatever Redis holds. */
  lemma NotReadyBypassesCache(w: World, q: Query, other: Store)
    requires !w.songServiceReady
    ensures CacheAside(w, q).world == w
    ensures CacheAside(w, q).reply ==
      if Load(w.db, q).Some? then Served(Load(w.db, q).value, false) else NotFound("Album not found")
    ensures CacheAside(w.(cache := other), q).reply == CacheAside(w, q).reply
  {
  }

  /** Deleting a key makes the next read of it a miss that runs the SQL queries. */
  lemma InvalidateThenReadLoads(w: World, q: Query, keys: set<string>)
    requires KeyOf(q) in keys
    ensures CacheAside(w.(cache := Del(w.cache, keys)), q).reply ==
      if Load(w.db, q).Some? then Served(Load(w.db, q).value, false) else NotFound("Album not found")
  {
  }

  /** Reads and the clock keep every entry within one `CacheExpiry` of the present. */
  lemma ReadsKeepExpiryBounded(w: World, q: Query, dt: nat)
    requires ExpiryBounded(w)
    ensures ExpiryBounded(CacheAside(w, q).world)
    ensures ExpiryBounded(Tick(w, dt))
  {
    var r := CacheAside(w, q).world;
    forall k | k in r.cache ensures r.cache[k].expiresAt <= r.now + CacheExpiry {
      if k != KeyOf(q) {
        assert k in r.cache - {KeyOf(q)};
      }
    }
  }

  /** Once `CacheExpiry` seconds have passed without a read, every read is a miss and
      answers the current tables: a stale value can be served for at most 1800 seconds. */
  lemma ReadAfterExpiryIsFresh(w: World, q: Query, dt: nat)
    requires ExpiryBounded(w) && dt >= CacheExpiry
    ensures CacheAside(Tick(w, dt), q).reply ==
      if Load(w.db, q).Some? then Served(Load(w.db, q).value, false) else NotFound("Album not found")
  {
    var k := KeyOf(q);
    assert !Live(w.cache, w.now + dt, k) by {
      if k in w.cache { assert w.cache[k].expiresAt <= w.now + CacheExpiry; }
    }
  }
}
