/** Whether what the readers of song_service serve agrees with the tables that the
    writers of admin_service change. The two services share the database and the
    Redis instance and nothing else: a writer keeps readers honest only through the
    keys it deletes. */
module Coherence {
  import opened Wrappers
  import opened Catalog
  import opened Cache
  import opened Platform
  import opened SongService
  import opened AdminService
  import Text

  /** Every live reader entry holds what the reader's SQL queries would load now. */
  ghost predicate Coherent(w: World)
  {
    forall q: Query :: Live(w.cache, w.now, KeyOf(q)) ==> Load(w.db, q) == Some(w.cache[KeyOf(q)].payload)
  }

  /** Reads preserve coherence: a hit changes nothing and a miss stores what it just loaded. */
  lemma ReadKeepsCoherent(w: World, q: Query)
    requires Coherent(w)
    ensures Coherent(CacheAside(w, q).world)
  {
    var r := CacheAside(w, q).world;
    forall q' | Live(r.cache, r.now, KeyOf(q'))
      ensures Load(r.db, q') == Some(r.cache[KeyOf(q')].payload)
    {
      if KeyOf(q') == KeyOf(q) {
        KeyOfInjective(q', q);
      } else {
        assert KeyOf(q') in r.cache - {KeyOf(q)};
      }
    }
  }

  /** Time passing only makes entries expire, so it preserves coherence. */
  lemma TickKeepsCoherent(w: World, dt: nat)
    requires Coherent(w)
    ensures Coherent(Tick(w, dt))
  {
  }

  /** An album insert leaves every existing album's entry as it was. */
  lemma RelationAfterAlbumInsert(db: Db, t: string, d: string, th: string, k: nat)
    requires Load(db, SongsOfAlbumQuery(k)).Some?
    ensures Load(InsertAlbum(db, t, d, th), SongsOfAlbumQuery(k)) == Load(db, SongsOfAlbumQuery(k))
  {
    AlbumsWithIdAppend(db.albums, Album(db.nextAlbumId, t, d, th), k);
  }

  /** A song insert leaves the entry of every other album as it was. */
  lemma RelationAfterSongInsert(db: Db, t: string, d: string, a: string, albumId: nat, k: nat)
    requires k != albumId
    ensures Load(InsertSong(db, t, d, a, albumId), SongsOfAlbumQuery(k)) == Load(db, SongsOfAlbumQuery(k))
  {
    var db' := InsertSong(db, t, d, a, albumId);
    SongsOfAlbumAppend(db.songs, Song(db.nextSongId, t, d, None, a, albumId), k);
    assert SongsOfAlbum(db'.songs, k) == SongsOfAlbum(db.songs, k);
    assert AlbumsWithId(db'.albums, k) == AlbumsWithId(db.albums, k);
  }

  /** A thumbnail update leaves the entry of an album that does not hold the song as it was. */
  lemma RelationAfterThumbnail(db: Db, id: nat, url: string, k: nat)
    requires RelationKey(k) !in RelationKeysOfSong(db.songs, id)
    ensures Load(SetThumbnail(db, id, url), SongsOfAlbumQuery(k)) == Load(db, SongsOfAlbumQuery(k))
  {
    forall i | 0 <= i < |db.songs| && db.songs[i].id == id ensures db.songs[i].albumId != k {
      assert RelationKey(db.songs[i].albumId) in RelationKeysOfSong(db.songs, id);
    }
    SongsOfAlbumAfterThumbnail(db.songs, id, url, k);
  }

  /** Deleting an album leaves every other album's entry as it was. */
  lemma RelationAfterAlbumDelete(db: Db, id: nat, k: nat)
    requires k != id
    ensures Load(DeleteAlbumCascade(db, id), SongsOfAlbumQuery(k)) == Load(db, SongsOfAlbumQuery(k))
  {
    AlbumsWithIdAfterDelete(db.albums, id, k);
    SongsOfAlbumAfterCascade(db.songs, id, k);
  }

  /** Deleting a song leaves the entry of an album that did not hold it as it was. */
  lemma RelationAfterSongDelete(db: Db, id: nat, k: nat)
    requires RelationKey(k) !in RelationKeysOfSong(db.songs, id)
    ensures Load(DeleteSongRow(db, id), SongsOfAlbumQuery(k)) == Load(db, SongsOfAlbumQuery(k))
  {
    forall i | 0 <= i < |db.songs| && db.songs[i].id == id ensures db.songs[i].albumId != k {
      assert RelationKey(db.songs[i].albumId) in RelationKeysOfSong(db.songs, id);
    }
    SongsOfAlbumAfterSongDelete(db.songs, id, k);
  }

  /** A write leaves the answer to every query whose key it does not delete as it
      was, once that answer existed: this is what the corrected key lists achieve. */
  lemma LoadOutsideIntendedFanOut(db: Db, m: Mutation, q: Query)
    requires KeyOf(q) !in IntendedFanOut(db, m) && Load(db, q).Some?
    ensures Load(Commit(db, m), q) == Load(db, q)
  {
    if q.SongsOfAlbumQuery? {
      var k := q.id;
      match m
      case CreateAlbum(t, d, th) => RelationAfterAlbumInsert(db, t, d, th, k);
      case CreateSong(t, d, a, albumId) => RelationAfterSongInsert(db, t, d, a, albumId, k);
      case AttachThumbnail(id, url) => RelationAfterThumbnail(db, id, url, k);
      case RemoveAlbum(id) => RelationAfterAlbumDelete(db, id, k);
      case RemoveSong(id) => RelationAfterSongDelete(db, id, k);
    }
  }

  /** Committing a write and deleting the corrected keys keeps every live entry true. */
  lemma IntendedWriteKeepsCoherent(w: World, m: Mutation)
    requires Coherent(w) && w.adminServiceReady
    ensures Coherent(CommitThenInvalidate(w, m, IntendedFanOut(w.db, m)))
  {
    var r := CommitThenInvalidate(w, m, IntendedFanOut(w.db, m));
    forall q | Live(r.cache, r.now, KeyOf(q))
      ensures Load(r.db, q) == Some(r.cache[KeyOf(q)].payload)
    {
      assert KeyOf(q) !in IntendedFanOut(w.db, m);
      assert Live(w.cache, w.now, KeyOf(q));
      LoadOutsideIntendedFanOut(w.db, m, q);
    }
  }

  /** With the corrected key lists every successful or failed handler keeps the cache
      coherent, as long as the admin service's Redis client is ready. */
  lemma IntendedHandlersKeepCoherent(w: World, role: Option<string>, title: string, description: string,
                                     id: nat, file: Option<string>, url: string)
    requires Coherent(w) && w.adminServiceReady
    ensures Coherent(AddAlbum(w, Intended, role, title, description, file, url).world)
    ensures Coherent(AddSong(w, Intended, role, title, description, id, file, url).world)
    ensures Coherent(AddThumbnail(w, Intended, role, id, file, url).world)
    ensures Coherent(DeleteAlbum(w, Intended, role, id).world)
    ensures Coherent(DeleteSong(w, Intended, role, id).world)
  {
    IntendedWriteKeepsCoherent(w, CreateAlbum(title, description, url));
    IntendedWriteKeepsCoherent(w, CreateSong(title, description, url, id));
    IntendedWriteKeepsCoherent(w, AttachThumbnail(id, url));
    IntendedWriteKeepsCoherent(w, RemoveAlbum(id));
    IntendedWriteKeepsCoherent(w, RemoveSong(id));
  }

  /** On a coherent world a read answers what the tables hold, hit or miss: the
      loaded body, or 404 when the tables have no such album. */
  lemma CoherentReadServesTables(w: World, q: Query)
    requires Coherent(w)
    ensures var r := CacheAside(w, q).reply;
      && (Load(w.db, q).Some? ==> r.Served? && r.body == Load(w.db, q).value)
      && (Load(w.db, q).None? ==> r == NotFound("Album not found"))
  {
  }

  /** With the corrected key list, an album list read at any later time (before any
      other write) contains the album just created. */
  lemma IntendedAddAlbumThenReadListsIt(w: World, title: string, description: string,
                                        file: string, url: string, dt: nat)
    requires Coherent(w) && w.adminServiceReady && file != ""
    ensures var s := AddAlbum(w, Intended, Some("admin"), title, description, Some(file), url);
      var created := Album(w.db.nextAlbumId, title, description, url);
      var r := CacheAside(Tick(s.world, dt), AllAlbums).reply;
      && s.reply == Done("Album Created", AlbumRow(created))
      && r == Served(AlbumList(w.db.albums + [created]), r.fromCache)
  {
    var s := AddAlbum(w, Intended, Some("admin"), title, description, Some(file), url);
    IntendedHandlersKeepCoherent(w, Some("admin"), title, description, 0, Some(file), url);
    TickKeepsCoherent(s.world, dt);
    CoherentReadServesTables(Tick(s.world, dt), AllAlbums);
  }

  /** With the corrected key list, reading a deleted album's songs at any later time
      (before any other write) answers 404. */
  lemma IntendedDeleteAlbumThenReadMisses(w: World, id: nat, dt: nat)
    requires Coherent(w) && w.adminServiceReady && AlbumsWithId(w.db.albums, id) != []
    ensures var s := DeleteAlbum(w, Intended, Some("admin"), id);
      && s.reply == Done("Album deleted", NoRow)
      && CacheAside(Tick(s.world, dt), SongsOfAlbumQuery(id)).reply == NotFound("Album not found")
  {
    var s := DeleteAlbum(w, Intended, Some("admin"), id);
    IntendedHandlersKeepCoherent(w, Some("admin"), "", "", id, None, "");
    TickKeepsCoherent(s.world, dt);
    CoherentReadServesTables(Tick(s.world, dt), SongsOfAlbumQuery(id));
    assert forall i :: 0 <= i < |s.world.db.albums| ==> s.world.db.albums[i].id != id;
  }

  /** Deleting an album clears exactly `albums`, `songs` and `album_songs_<id>` once
      corrected; the source's list leaves out the last. */
  lemma AlbumDeleteFanOut(db: Db, id: nat)
    ensures IntendedFanOut(db, RemoveAlbum(id)) == {"albums", "songs", "album_songs_" + Text.NatToString(id)}
    ensures FanOut(RemoveAlbum(id)) == {"albums", "songs"}
  {
  }

  // The handlers as written: each lemma names a live entry that a successful write
  // leaves in place, and shows a reader serving it unchanged from the cache for as
  // long as it stays live, although the tables now say otherwise.

  /** `addAlbum` deletes `"album"`, so a cached album list keeps being served without
      the new album until it expires. */
  lemma AddAlbumLeavesAlbumListStale(w: World, title: string, description: string,
                                     file: string, url: string, dt: nat)
    requires Coherent(w) && Valid(w.db) && w.songServiceReady && file != ""
    requires Live(w.cache, w.now + dt, AlbumsKey)
    ensures var s := AddAlbum(w, AsWritten, Some("admin"), title, description, Some(file), url);
      var created := Album(w.db.nextAlbumId, title, description, url);
      && s.reply == Done("Album Created", AlbumRow(created))
      && created in s.world.db.albums && created !in w.db.albums
      && CacheAside(Tick(s.world, dt), AllAlbums).reply == Served(AlbumList(w.db.albums), true)
      && !Coherent(s.world)
  {
    var s := AddAlbum(w, AsWritten, Some("admin"), title, description, Some(file), url);
    var created := Album(w.db.nextAlbumId, title, description, url);
    assert Live(w.cache, w.now, KeyOf(AllAlbums));
    assert created in s.world.db.albums;
    assert created !in w.db.albums;
    assert Live(s.world.cache, s.world.now, KeyOf(AllAlbums));
    assert Load(s.world.db, AllAlbums) != Some(s.world.cache[KeyOf(AllAlbums)].payload);
  }

  /** `deleteAlbum` never deletes `album_songs_<id>`, so the removed album and its
      removed songs are served from the cache while the tables answer 404. */
  lemma DeletedAlbumStillServed(w: World, id: nat, dt: nat)
    requires Coherent(w) && w.songServiceReady && AlbumsWithId(w.db.albums, id) != []
    requires Live(w.cache, w.now + dt, RelationKey(id))
    ensures var s := DeleteAlbum(w, AsWritten, Some("admin"), id);
      var cached := w.cache[RelationKey(id)].payload;
      && s.reply == Done("Album deleted", NoRow)
      && Load(s.world.db, SongsOfAlbumQuery(id)).None?
      && cached.AlbumWithSongs? && cached.album.id == id
      && CacheAside(Tick(s.world, dt), SongsOfAlbumQuery(id)).reply == Served(cached, true)
      && !Coherent(s.world)
  {
    var s := DeleteAlbum(w, AsWritten, Some("admin"), id);
    var q := SongsOfAlbumQuery(id);
    assert Live(w.cache, w.now, KeyOf(q));
    NoWriterEvictsRelation(RemoveAlbum(id), id);
    assert forall i :: 0 <= i < |s.world.db.albums| ==> s.world.db.albums[i].id != id;
    assert Live(s.world.cache, s.world.now, KeyOf(q));
  }

  /** `addSong` deletes only `"songs"`, so the cached entry of its album keeps being
      served without the new song. */
  lemma AddSongLeavesRelationStale(w: World, title: string, description: string, albumId: nat,
                                   file: string, url: string, dt: nat)
    requires Coherent(w) && Valid(w.db) && w.songServiceReady && file != ""
    requires AlbumsWithId(w.db.albums, albumId) != []
    requires Live(w.cache, w.now + dt, RelationKey(albumId))
    ensures var s := AddSong(w, AsWritten, Some("admin"), title, description, albumId, Some(file), url);
      var added := Song(w.db.nextSongId, title, description, None, url, albumId);
      var r := CacheAside(Tick(s.world, dt), SongsOfAlbumQuery(albumId)).reply;
      && s.reply == Done("Song added", NoRow)
      && added in s.world.db.songs
      && r == Served(AlbumWithSongs(SongsOfAlbum(w.db.songs, albumId), AlbumsWithId(w.db.albums, albumId)[0]), true)
      && added !in r.body.songs
      && !Coherent(s.world)
  {
    var s := AddSong(w, AsWritten, Some("admin"), title, description, albumId, Some(file), url);
    var added := Song(w.db.nextSongId, title, description, None, url, albumId);
    var q := SongsOfAlbumQuery(albumId);
    assert Live(w.cache, w.now, KeyOf(q));
    NoWriterEvictsRelation(CreateSong(title, description, url, albumId), albumId);
    assert added in s.world.db.songs by {
      assert s.world.db.songs[|w.db.songs|] == added;
    }
    var before := SongsOfAlbum(w.db.songs, albumId);
    assert added !in before;
    assert Live(s.world.cache, s.world.now, KeyOf(q));
    var loaded := Load(s.world.db, q);
    assert added in loaded.value.songs by {
      assert s.world.db.songs[|w.db.songs|] == added;
    }
    assert loaded != Some(s.world.cache[KeyOf(q)].payload);
  }

  /** `deleteSong` deletes only `"songs"`, so the cached entry of the song's album
      keeps serving the deleted song. */
  lemma DeletedSongStillServed(w: World, id: nat, i: nat, dt: nat)
    requires Coherent(w) && w.songServiceReady
    requires i < |w.db.songs| && w.db.songs[i].id == id
    requires Live(w.cache, w.now + dt, RelationKey(w.db.songs[i].albumId))
    ensures var s := DeleteSong(w, AsWritten, Some("admin"), id);
      var r := CacheAside(Tick(s.world, dt), SongsOfAlbumQuery(w.db.songs[i].albumId)).reply;
      && s.reply == Done("Song deleted", NoRow)
      && w.db.songs[i] !in s.world.db.songs
      && r.Served? && r.fromCache && r.body.AlbumWithSongs? && w.db.songs[i] in r.body.songs
      && !Coherent(s.world)
  {
    var song := w.db.songs[i];
    var q := SongsOfAlbumQuery(song.albumId);
    assert song in SongsWithId(w.db.songs, id);
    var s := DeleteSong(w, AsWritten, Some("admin"), id);
    assert Live(w.cache, w.now, KeyOf(q));
    NoWriterEvictsRelation(RemoveSong(id), song.albumId);
    assert song !in s.world.db.songs;
    assert Live(s.world.cache, s.world.now, KeyOf(q));
    var loaded := Load(s.world.db, q);
    assert loaded.Some?;
    assert song !in loaded.value.songs;
    assert loaded != Some(s.world.cache[KeyOf(q)].payload);
  }
}
