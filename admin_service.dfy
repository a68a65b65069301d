/** The write side, admin_service/src/controller.ts: each handler checks the
    caller's role and its input, runs its SQL writes and only then `DEL`s the fixed
    list of keys written in the source, provided its own Redis client is ready. */
module AdminService {
  import opened Wrappers
  import opened Seqs
  import opened Catalog
  import opened Cache
  import opened Platform

  /** The row a successful handler echoes back (`result[0]` of `RETURNING *`). */
  datatype Row = NoRow | AlbumRow(album: Album) | SongRow(song: Song)

  datatype AdminReply = Done(message: string, row: Row) | Failed(status: nat, message: string)

  /** The store write each handler commits once its checks pass. */
  datatype Mutation =
    | CreateAlbum(title: string, description: string, thumbnail: string)
    | CreateSong(title: string, description: string, audio: string, albumId: nat)
    | AttachThumbnail(songId: nat, url: string)
    | RemoveAlbum(id: nat)
    | RemoveSong(id: nat)

  function Commit(db: Db, m: Mutation): (r: Db)
    ensures Valid(db) ==> Valid(r)
  {
    match m
    case CreateAlbum(t, d, th) => InsertAlbum(db, t, d, th)
    case CreateSong(t, d, a, album) => InsertSong(db, t, d, a, album)
    case AttachThumbnail(id, url) => SetThumbnail(db, id, url)
    case RemoveAlbum(id) => DeleteAlbumCascade(db, id)
    case RemoveSong(id) => DeleteSongRow(db, id)
  }

  /** The key `addAlbum` deletes (controller.ts line 42); the reader uses `"albums"`. */
  const AlbumKeyAsWritten: string := "album"

  /** The keys each handler `DEL`s, exactly as the source lists them. */
  function FanOut(m: Mutation): set<string>
  {
    match m
    case CreateAlbum(_, _, _) => {AlbumKeyAsWritten}
    case CreateSong(_, _, _, _) => {SongsKey}
    case AttachThumbnail(_, _) => {SongsKey}
    case RemoveAlbum(_) => {SongsKey, AlbumsKey}
    case RemoveSong(_) => {SongsKey}
  }

  /** The cache entry a reader stores an album's songs under. */
  function RelationKey(albumId: nat): string
  {
    KeyOf(SongsOfAlbumQuery(albumId))
  }

  /** The relation keys of the albums that hold a row with song id `id`. */
  function RelationKeysOfSong(songs: seq<Song>, id: nat): set<string>
  {
    set i | 0 <= i < |songs| && songs[i].id == id :: RelationKey(songs[i].albumId)
  }

  /** The keys each write has to delete so that no reader entry outlives the rows it
      was loaded from: `"albums"` (not `"album"`) after an album insert, and the
      `album_songs_<id>` entry of every album whose songs the write changes. */
  function IntendedFanOut(db: Db, m: Mutation): set<string>
  {
    match m
    case CreateAlbum(_, _, _) => {AlbumsKey}
    case CreateSong(_, _, _, albumId) => {SongsKey, RelationKey(albumId)}
    case AttachThumbnail(id, _) => {SongsKey} + RelationKeysOfSong(db.songs, id)
    case RemoveAlbum(id) => {SongsKey, AlbumsKey, RelationKey(id)}
    case RemoveSong(id) => {SongsKey} + RelationKeysOfSong(db.songs, id)
  }

  /** Which invalidation the handlers perform: the key lists of the source, or the
      corrected ones. */
  datatype Policy = AsWritten | Intended

  function Invalidation(policy: Policy, db: Db, m: Mutation): set<string>
  {
    if policy.AsWritten? then FanOut(m) else IntendedFanOut(db, m)
  }

  /** Commit the write, then delete `keys` when the admin service's Redis client is
      ready; when it is not, the write still completes and the cache is left alone. */
  function CommitThenInvalidate(w: World, m: Mutation, keys: set<string>): (r: World)
    ensures r.db == Commit(w.db, m)
    ensures r.cache == if w.adminServiceReady then Del(w.cache, keys) else w.cache
    ensures r.now == w.now && r.songServiceReady == w.songServiceReady && r.adminServiceReady == w.adminServiceReady
  {
    var committed := w.(db := Commit(w.db, m));
    if committed.adminServiceReady then committed.(cache := Del(committed.cache, keys)) else committed
  }

  /** `req.user?.role !== "admin"` fails for a missing user or any other role. */
  predicate IsAdmin(role: Option<string>)
  {
    role == Some("admin")
  }

  const Unauthorized: AdminReply := Failed(401, "Unauthorized")
  const NoFile: AdminReply := Failed(400, "No file uploaded")
  const UploadError: AdminReply := Failed(500, "Error uploading file")

  /** `file` is the uploaded file's data-URI content (None: no file in the request;
      empty: `getBuffer` produced no content); `secureUrl` is what the object store
      returned for the upload. */
  function AddAlbum(w: World, policy: Policy, role: Option<string>, title: string, description: string,
                    file: Option<string>, secureUrl: string): (r: Step<AdminReply>)
    ensures !IsAdmin(role) ==> r == Step(w, Unauthorized)
    ensures r.reply.Failed? ==> r.world == w
    ensures r.reply.Done? ==> r.world.db == Commit(w.db, CreateAlbum(title, description, secureUrl))
    ensures Valid(w.db) ==> Valid(r.world.db)
    ensures IsAdmin(role) ==> (r.reply.Done? <==> file.Some? && file.value != "")
  {
    if !IsAdmin(role) then Step(w, Unauthorized)
    else if file.None? then Step(w, NoFile)
    else if file.value == "" then Step(w, UploadError)
    else
      var album := Album(w.db.nextAlbumId, title, description, secureUrl);
      var m := CreateAlbum(title, description, secureUrl);
      Step(CommitThenInvalidate(w, m, Invalidation(policy, w.db, m)),
           Done("Album Created", AlbumRow(album)))
  }

  function AddSong(w: World, policy: Policy, role: Option<string>, title: string, description: string, albumId: nat,
                   file: Option<string>, secureUrl: string): (r: Step<AdminReply>)
    ensures !IsAdmin(role) ==> r == Step(w, Unauthorized)
    ensures r.reply.Failed? ==> r.world == w
    ensures r.reply.Done? ==> r.world.db == Commit(w.db, CreateSong(title, description, secureUrl, albumId))
    ensures Valid(w.db) ==> Valid(r.world.db)
    ensures IsAdmin(role) ==>
      (r.reply.Done? <==> AlbumsWithId(w.db.albums, albumId) != [] && file.Some? && file.value != "")
  {
    if !IsAdmin(role) then Step(w, Unauthorized)
    else if AlbumsWithId(w.db.albums, albumId) == [] then Step(w, Failed(404, "Album not found"))
    else if file.None? then Step(w, NoFile)
    else if file.value == "" then Step(w, UploadError)
    else
      var m := CreateSong(title, description, secureUrl, albumId);
      Step(CommitThenInvalidate(w, m, Invalidation(policy, w.db, m)), Done("Song added", NoRow))
  }

  function AddThumbnail(w: World, policy: Policy, role: Option<string>, id: nat,
                        file: Option<string>, secureUrl: string): (r: Step<AdminReply>)
    ensures !IsAdmin(role) ==> r == Step(w, Unauthorized)
    ensures r.reply.Failed? ==> r.world == w
    ensures r.reply.Done? ==> r.world.db == Commit(w.db, AttachThumbnail(id, secureUrl))
    ensures Valid(w.db) ==> Valid(r.world.db)
    ensures IsAdmin(role) ==>
      (r.reply.Done? <==> SongsWithId(w.db.songs, id) != [] && file.Some? && file.value != "")
  {
    var song := SongsWithId(w.db.songs, id);
    if !IsAdmin(role) then Step(w, Unauthorized)
    else if song == [] then Step(w, Failed(404, "Song not found"))
    else if file.None? then Step(w, NoFile)
    else if file.value == "" then Step(w, UploadError)
    else
      var m := AttachThumbnail(id, secureUrl);
      Step(CommitThenInvalidate(w, m, Invalidation(policy, w.db, m)),
           Done("Thumbnail added", SongRow(song[0].(thumbnail := Some(secureUrl)))))
  }

  function DeleteAlbum(w: World, policy: Policy, role: Option<string>, id: nat): (r: Step<AdminReply>)
    ensures !IsAdmin(role) ==> r == Step(w, Unauthorized)
    ensures r.reply.Failed? ==> r.world == w
    ensures r.reply.Done? ==> r.world.db == Commit(w.db, RemoveAlbum(id))
    ensures Valid(w.db) ==> Valid(r.world.db)
    ensures IsAdmin(role) ==> (r.reply.Done? <==> AlbumsWithId(w.db.albums, id) != [])
  {
    if !IsAdmin(role) then Step(w, Unauthorized)
    else if AlbumsWithId(w.db.albums, id) == [] then Step(w, Failed(404, "Album not found"))
    else Step(CommitThenInvalidate(w, RemoveAlbum(id), Invalidation(policy, w.db, RemoveAlbum(id))), Done("Album deleted", NoRow))
  }

  function DeleteSong(w: World, policy: Policy, role: Option<string>, id: nat): (r: Step<AdminReply>)
    ensures !IsAdmin(role) ==> r == Step(w, Unauthorized)
    ensures r.reply.Failed? ==> r.world == w
    ensures r.reply.Done? ==> r.world.db == Commit(w.db, RemoveSong(id))
    ensures Valid(w.db) ==> Valid(r.world.db)
    ensures IsAdmin(role) ==> (r.reply.Done? <==> SongsWithId(w.db.songs, id) != [])
  {
    if !IsAdmin(role) then Step(w, Unauthorized)
    else if SongsWithId(w.db.songs, id) == [] then Step(w, Failed(404, "Song not found"))
    else Step(CommitThenInvalidate(w, RemoveSong(id), Invalidation(policy, w.db, RemoveSong(id))), Done("Song deleted", NoRow))
  }

  /** A caller who is not an admin gets 401 from every handler, with no store and no cache change. */
  lemma NonAdminChangesNothing(w: World, policy: Policy, role: Option<string>, title: string, description: string,
                               id: nat, file: Option<string>, url: string)
    requires !IsAdmin(role)
    ensures AddAlbum(w, policy, role, title, description, file, url) == Step(w, Failed(401, "Unauthorized"))
    ensures AddSong(w, policy, role, title, description, id, file, url) == Step(w, Failed(401, "Unauthorized"))
    ensures AddThumbnail(w, policy, role, id, file, url) == Step(w, Failed(401, "Unauthorized"))
    ensures DeleteAlbum(w, policy, role, id) == Step(w, Failed(401, "Unauthorized"))
    ensures DeleteSong(w, policy, role, id) == Step(w, Failed(401, "Unauthorized"))
  {
  }

  /** A request without a file gets 400 before any store write: for `addSong` and
      `addThumbnail` once the album or song has been found, for `addAlbum` at once. */
  lemma MissingFileWritesNothing(w: World, policy: Policy, title: string, description: string, id: nat, url: string)
    ensures AddAlbum(w, policy, Some("admin"), title, description, None, url) == Step(w, Failed(400, "No file uploaded"))
    ensures AlbumsWithId(w.db.albums, id) != [] ==>
      AddSong(w, policy, Some("admin"), title, description, id, None, url) == Step(w, Failed(400, "No file uploaded"))
    ensures SongsWithId(w.db.songs, id) != [] ==>
      AddThumbnail(w, policy, Some("admin"), id, None, url) == Step(w, Failed(400, "No file uploaded"))
  {
  }

  /** `addSong` for an album that does not exist answers 404 and inserts nothing. */
  lemma AddSongUnknownAlbum(w: World, policy: Policy, role: Option<string>, title: string, description: string,
                            albumId: nat, file: Option<string>, url: string)
    requires IsAdmin(role) && forall i :: 0 <= i < |w.db.albums| ==> w.db.albums[i].id != albumId
    ensures AddSong(w, policy, role, title, description, albumId, file, url) == Step(w, Failed(404, "Album not found"))
  {
    FilterEmptyIff(w.db.albums, (a: Album) => a.id == albumId);
  }

  /** A successful `addAlbum` appends exactly one album, the one it echoes, and then
      deletes only the key `"album"`: a cached `"albums"` entry is left as it was. */
  lemma AddAlbumEffect(w: World, title: string, description: string, file: string, url: string)
    requires file != ""
    ensures var s := AddAlbum(w, AsWritten, Some("admin"), title, description, Some(file), url);
      && s.reply == Done("Album Created", AlbumRow(Album(w.db.nextAlbumId, title, description, url)))
      && s.world.db.albums == w.db.albums + [Album(w.db.nextAlbumId, title, description, url)]
      && s.world.db.songs == w.db.songs
      && s.world.cache == (if w.adminServiceReady then w.cache - {"album"} else w.cache)
      && (AlbumsKey in w.cache ==> AlbumsKey in s.world.cache && s.world.cache[AlbumsKey] == w.cache[AlbumsKey])
  {
  }

  /** `addSong` and `addThumbnail` delete `"songs"` after their write and nothing else;
      in particular no `album_songs_*` key. */
  lemma SongWritesDeleteOnlySongs(w: World, title: string, description: string, id: nat,
                                  file: string, url: string)
    requires file != ""
    ensures AlbumsWithId(w.db.albums, id) != [] ==>
      var s := AddSong(w, AsWritten, Some("admin"), title, description, id, Some(file), url);
      && s.reply == Done("Song added", NoRow)
      && s.world.db == InsertSong(w.db, title, description, url, id)
      && s.world.cache == (if w.adminServiceReady then w.cache - {SongsKey} else w.cache)
    ensures SongsWithId(w.db.songs, id) != [] ==>
      var s := AddThumbnail(w, AsWritten, Some("admin"), id, Some(file), url);
      && s.reply.Done? && s.reply.message == "Thumbnail added"
      && s.world.db == SetThumbnail(w.db, id, url)
      && s.world.cache == (if w.adminServiceReady then w.cache - {SongsKey} else w.cache)
  {
  }

  /** `deleteAlbum`: 404 and no change for an unknown album; otherwise the album's
      songs and the album row go, then `"songs"` and `"albums"` are deleted. */
  lemma DeleteAlbumEffect(w: World, id: nat)
    ensures AlbumsWithId(w.db.albums, id) == [] ==>
      DeleteAlbum(w, AsWritten, Some("admin"), id) == Step(w, Failed(404, "Album not found"))
    ensures AlbumsWithId(w.db.albums, id) != [] ==>
      var s := DeleteAlbum(w, AsWritten, Some("admin"), id);
      && s.reply == Done("Album deleted", NoRow)
      && s.world.db == DeleteAlbumCascade(w.db, id)
      && s.world.cache == (if w.adminServiceReady then w.cache - {SongsKey, AlbumsKey} else w.cache)
  {
  }

  /** `deleteSong`: 404 and no change for an unknown song; otherwise exactly the rows
      with that id go and only `"songs"` is deleted. */
  lemma DeleteSongEffect(w: World, id: nat)
    ensures SongsWithId(w.db.songs, id) == [] ==>
      DeleteSong(w, AsWritten, Some("admin"), id) == Step(w, Failed(404, "Song not found"))
    ensures SongsWithId(w.db.songs, id) != [] ==>
      var s := DeleteSong(w, AsWritten, Some("admin"), id);
      && s.reply == Done("Song deleted", NoRow)
      && s.world.db == DeleteSongRow(w.db, id)
      && s.world.cache == (if w.adminServiceReady then w.cache - {SongsKey} else w.cache)
  {
  }

  /** No handler ever deletes an `album_songs_<id>` key, whatever the mutation. */
  lemma NoWriterEvictsRelation(m: Mutation, id: nat)
    ensures KeyOf(SongsOfAlbumQuery(id)) !in FanOut(m)
  {
    var k := KeyOf(SongsOfAlbumQuery(id));
    assert |k| > 12;
  }

  /** With the admin service's client not ready every write still commits and the
      cache is untouched. */
  lemma NotReadyStillCommits(w: World, m: Mutation, keys: set<string>)
    requires !w.adminServiceReady
    ensures CommitThenInvalidate(w, m, keys) == w.(db := Commit(w.db, m))
  {
  }
}
