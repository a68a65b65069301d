/** The `albums` and `songs` tables of the SQL database that the admin service
    writes and the song service reads (schema in admin_service/src/index.ts),
    held in memory in insertion order, with the SQL statements the handlers run. */
module Catalog {
  import opened Wrappers
  import opened Seqs

  datatype Album = Album(id: nat, title: string, description: string, thumbnail: string)

  /** `album_id` is modelled as a plain id: the only writer that removes albums
      first removes their songs, so the `ON DELETE SET NULL` rule never fires. */
  datatype Song = Song(id: nat, title: string, description: string,
                       thumbnail: Option<string>, audio: string, albumId: nat)

  /** Both tables plus the next value of each `SERIAL` id sequence. */
  datatype Db = Db(albums: seq<Album>, songs: seq<Song>, nextAlbumId: nat, nextSongId: nat)

  /** Every stored id was drawn from its `SERIAL` sequence, so it is below the next value. */
  ghost predicate Valid(db: Db)
  {
    && (forall i :: 0 <= i < |db.albums| ==> db.albums[i].id < db.nextAlbumId)
    && (forall i :: 0 <= i < |db.songs| ==> db.songs[i].id < db.nextSongId)
  }

  /** `SELECT * FROM albums WHERE id = ${id}` */
  function AlbumsWithId(albums: seq<Album>, id: nat): seq<Album>
  {
    Filter(albums, (a: Album) => a.id == id)
  }

  /** `SELECT * FROM songs WHERE id = ${id}` */
  function SongsWithId(songs: seq<Song>, id: nat): seq<Song>
  {
    Filter(songs, (s: Song) => s.id == id)
  }

  /** `SELECT * FROM songs WHERE album_id = ${id}` */
  function SongsOfAlbum(songs: seq<Song>, albumId: nat): seq<Song>
  {
    Filter(songs, (s: Song) => s.albumId == albumId)
  }

  /** The rows `DELETE FROM albums WHERE id = ${id}` keeps. */
  function AlbumsWithoutId(albums: seq<Album>, id: nat): seq<Album>
  {
    Filter(albums, (a: Album) => a.id != id)
  }

  /** The rows `DELETE FROM songs WHERE album_id = ${id}` keeps. */
  function SongsWithoutAlbum(songs: seq<Song>, albumId: nat): seq<Song>
  {
    Filter(songs, (s: Song) => s.albumId != albumId)
  }

  /** The rows `DELETE FROM songs WHERE id = ${id}` keeps. */
  function SongsWithoutId(songs: seq<Song>, id: nat): seq<Song>
  {
    Filter(songs, (s: Song) => s.id != id)
  }

  /** `INSERT INTO albums (title, description, thumbnail) VALUES (...) RETURNING *`:
      the new row takes the next `SERIAL` id and is the only row added. */
  function InsertAlbum(db: Db, title: string, description: string, thumbnail: string): (r: Db)
    ensures r.albums == db.albums + [Album(db.nextAlbumId, title, description, thumbnail)]
    ensures r.songs == db.songs && r.nextAlbumId == db.nextAlbumId + 1 && r.nextSongId == db.nextSongId
    ensures Valid(db) ==> Valid(r)
  {
    db.(albums := db.albums + [Album(db.nextAlbumId, title, description, thumbnail)],
        nextAlbumId := db.nextAlbumId + 1)
  }

  /** `INSERT INTO songs (title, description, audio, album_id) VALUES (...)`. */
  function InsertSong(db: Db, title: string, description: string, audio: string, albumId: nat): (r: Db)
    ensures r.songs == db.songs + [Song(db.nextSongId, title, description, None, audio, albumId)]
    ensures r.albums == db.albums && r.nextSongId == db.nextSongId + 1 && r.nextAlbumId == db.nextAlbumId
    ensures Valid(db) ==> Valid(r)
  {
    db.(songs := db.songs + [Song(db.nextSongId, title, description, None, audio, albumId)],
        nextSongId := db.nextSongId + 1)
  }

  function WithThumbnail(s: Song, id: nat, url: string): Song
  {
    if s.id == id then s.(thumbnail := Some(url)) else s
  }

  /** The rows after `UPDATE songs SET thumbnail = ${url} WHERE id = ${id}`. */
  function ThumbnailRows(songs: seq<Song>, id: nat, url: string): (r: seq<Song>)
    ensures |r| == |songs|
    ensures forall i :: 0 <= i < |songs| ==> r[i] == WithThumbnail(songs[i], id, url)
  {
    seq(|songs|, i requires 0 <= i < |songs| => WithThumbnail(songs[i], id, url))
  }

  /** `UPDATE songs SET thumbnail = ${url} WHERE id = ${id}`: every row with that id
      gets the thumbnail, every other row and the row order stay as they were. */
  function SetThumbnail(db: Db, id: nat, url: string): (r: Db)
    ensures |r.songs| == |db.songs|
    ensures forall i :: 0 <= i < |db.songs| ==>
      r.songs[i] == if db.songs[i].id == id then db.songs[i].(thumbnail := Some(url)) else db.songs[i]
    ensures r.albums == db.albums && r.nextAlbumId == db.nextAlbumId && r.nextSongId == db.nextSongId
    ensures Valid(db) ==> Valid(r)
  {
    db.(songs := ThumbnailRows(db.songs, id, url))
  }

  /** `DELETE FROM songs WHERE album_id = ${id}` followed by `DELETE FROM albums WHERE id = ${id}`. */
  function DeleteAlbumCascade(db: Db, id: nat): (r: Db)
    ensures forall i :: 0 <= i < |r.albums| ==> r.albums[i] in db.albums && r.albums[i].id != id
    ensures forall i :: 0 <= i < |db.albums| && db.albums[i].id != id ==> db.albums[i] in r.albums
    ensures forall i :: 0 <= i < |r.songs| ==> r.songs[i] in db.songs && r.songs[i].albumId != id
    ensures forall i :: 0 <= i < |db.songs| && db.songs[i].albumId != id ==> db.songs[i] in r.songs
    ensures r.nextAlbumId == db.nextAlbumId && r.nextSongId == db.nextSongId
    ensures Valid(db) ==> Valid(r)
  {
    db.(songs := SongsWithoutAlbum(db.songs, id), albums := AlbumsWithoutId(db.albums, id))
  }

  /** `DELETE FROM songs WHERE id = ${id}`. */
  function DeleteSongRow(db: Db, id: nat): (r: Db)
    ensures forall i :: 0 <= i < |r.songs| ==> r.songs[i] in db.songs && r.songs[i].id != id
    ensures forall i :: 0 <= i < |db.songs| && db.songs[i].id != id ==> db.songs[i] in r.songs
    ensures r.albums == db.albums && r.nextAlbumId == db.nextAlbumId && r.nextSongId == db.nextSongId
    ensures Valid(db) ==> Valid(r)
  {
    db.(songs := SongsWithoutId(db.songs, id))
  }

  // How each write changes what the reader's queries return.

  lemma AlbumsWithIdAppend(albums: seq<Album>, a: Album, k: nat)
    ensures AlbumsWithId(albums + [a], k) == AlbumsWithId(albums, k) + (if a.id == k then [a] else [])
  {
    assert (albums + [a])[..|albums|] == albums;
  }

  lemma SongsOfAlbumAppend(songs: seq<Song>, s: Song, k: nat)
    ensures SongsOfAlbum(songs + [s], k) == SongsOfAlbum(songs, k) + (if s.albumId == k then [s] else [])
  {
    assert (songs + [s])[..|songs|] == songs;
  }

  /** Deleting album `id` leaves the rows of every other id as they were. */
  lemma {:induction false} AlbumsWithIdAfterDelete(albums: seq<Album>, id: nat, k: nat)
    requires k != id
    ensures AlbumsWithId(AlbumsWithoutId(albums, id), k) == AlbumsWithId(albums, k)
  {
    if albums != [] {
      var init, last := albums[..|albums| - 1], albums[|albums| - 1];
      AlbumsWithIdAfterDelete(init, id, k);
      assert AlbumsWithId(albums, k) == AlbumsWithId(init, k) + (if last.id == k then [last] else []);
      if last.id != id {
        assert AlbumsWithoutId(albums, id) == AlbumsWithoutId(init, id) + [last];
        AlbumsWithIdAppend(AlbumsWithoutId(init, id), last, k);
      } else {
        assert AlbumsWithoutId(albums, id) == AlbumsWithoutId(init, id);
      }
    }
  }

  /** Deleting the songs of album `id` leaves every other album's songs as they were. */
  lemma {:induction false} SongsOfAlbumAfterCascade(songs: seq<Song>, id: nat, k: nat)
    requires k != id
    ensures SongsOfAlbum(SongsWithoutAlbum(songs, id), k) == SongsOfAlbum(songs, k)
  {
    if songs != [] {
      var init, last := songs[..|songs| - 1], songs[|songs| - 1];
      SongsOfAlbumAfterCascade(init, id, k);
      assert SongsOfAlbum(songs, k) == SongsOfAlbum(init, k) + (if last.albumId == k then [last] else []);
      if last.albumId != id {
        assert SongsWithoutAlbum(songs, id) == SongsWithoutAlbum(init, id) + [last];
        SongsOfAlbumAppend(SongsWithoutAlbum(init, id), last, k);
      } else {
        assert SongsWithoutAlbum(songs, id) == SongsWithoutAlbum(init, id);
      }
    }
  }

  /** Deleting song `id` leaves the songs of an album that did not hold it as they were. */
  lemma {:induction false} SongsOfAlbumAfterSongDelete(songs: seq<Song>, id: nat, k: nat)
    requires forall i :: 0 <= i < |songs| && songs[i].id == id ==> songs[i].albumId != k
    ensures SongsOfAlbum(SongsWithoutId(songs, id), k) == SongsOfAlbum(songs, k)
  {
    if songs != [] {
      var init, last := songs[..|songs| - 1], songs[|songs| - 1];
      SongsOfAlbumAfterSongDelete(init, id, k);
      assert SongsOfAlbum(songs, k) == SongsOfAlbum(init, k) + (if last.albumId == k then [last] else []);
      if last.id != id {
        assert SongsWithoutId(songs, id) == SongsWithoutId(init, id) + [last];
        SongsOfAlbumAppend(SongsWithoutId(init, id), last, k);
      } else {
        assert SongsWithoutId(songs, id) == SongsWithoutId(init, id);
      }
    }
  }

  /** Setting the thumbnail of song `id` leaves the songs of an album that did not hold it as they were. */
  lemma {:induction false} SongsOfAlbumAfterThumbnail(songs: seq<Song>, id: nat, url: string, k: nat)
    requires forall i :: 0 <= i < |songs| && songs[i].id == id ==> songs[i].albumId != k
    ensures SongsOfAlbum(ThumbnailRows(songs, id, url), k) == SongsOfAlbum(songs, k)
  {
    if songs != [] {
      var init, last := songs[..|songs| - 1], songs[|songs| - 1];
      SongsOfAlbumAfterThumbnail(init, id, url, k);
      var rows := ThumbnailRows(songs, id, url);
      assert rows == ThumbnailRows(init, id, url) + [WithThumbnail(last, id, url)];
      SongsOfAlbumAppend(ThumbnailRows(init, id, url), WithThumbnail(last, id, url), k);
      assert SongsOfAlbum(songs, k) == SongsOfAlbum(init, k) + (if last.albumId == k then [last] else []);
    }
  }
}
