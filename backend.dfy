/** The two Node services as one deployment whose state changes in place: the
    PostgreSQL tables, the shared Redis store, the clock and each service's
    `isReady` flag. Every handler runs to completion before the next starts, and
    each method is proved to do exactly what the corresponding step function does. */
module Backend {
  import opened Wrappers
  import opened Catalog
  import opened Cache
  import opened Platform
  import SongService
  import AdminService

  class Deployment {
    var albums: seq<Album>
    var songs: seq<Song>
    var nextAlbumId: nat
    var nextSongId: nat
    var cache: Store
    var now: nat
    var songServiceReady: bool
    var adminServiceReady: bool
    /** Which key lists the admin handlers delete. */
    const policy: AdminService.Policy

    function Tables(): Db
      reads this
    {
      Db(albums, songs, nextAlbumId, nextSongId)
    }

    function State(): World
      reads this
    {
      World(Tables(), cache, now, songServiceReady, adminServiceReady)
    }

    /** Empty tables (both `SERIAL` sequences at 1), an empty cache and the given flags. */
    constructor (policy: AdminService.Policy, songServiceReady: bool, adminServiceReady: bool)
      ensures State() == World(Db([], [], 1, 1), map[], 0, songServiceReady, adminServiceReady)
      ensures this.policy == policy
      ensures Valid(Tables())
    {
      albums, songs, nextAlbumId, nextSongId := [], [], 1, 1;
      cache, now := map[], 0;
      this.songServiceReady, this.adminServiceReady := songServiceReady, adminServiceReady;
      this.policy := policy;
    }

    /** Time passes. */
    method Tick(dt: nat)
      modifies this
      ensures State() == Platform.Tick(old(State()), dt)
    {
      now := now + dt;
    }

    /** The cache-aside read shared by the three list handlers of song_service. */
    method Read(q: Query) returns (r: SongService.Reply)
      modifies this
      ensures State() == SongService.CacheAside(old(State()), q).world
      ensures r == SongService.CacheAside(old(State()), q).reply
    {
      var k := KeyOf(q);
      if songServiceReady && Live(cache, now, k) {
        return SongService.Served(cache[k].payload, true);
      }
      var loaded := SongService.Load(Tables(), q);
      if loaded.None? {
        return SongService.NotFound("Album not found");
      }
      if songServiceReady {
        cache := cache[k := Entry(loaded.value, now + CacheExpiry)];
      }
      r := SongService.Served(loaded.value, false);
    }

    method GetAllAlbums() returns (r: SongService.Reply)
      modifies this
      ensures State() == SongService.CacheAside(old(State()), AllAlbums).world
      ensures r == SongService.CacheAside(old(State()), AllAlbums).reply
    {
      r := Read(AllAlbums);
    }

    method GetAllSongs() returns (r: SongService.Reply)
      modifies this
      ensures State() == SongService.CacheAside(old(State()), AllSongs).world
      ensures r == SongService.CacheAside(old(State()), AllSongs).reply
    {
      r := Read(AllSongs);
    }

    method GetAllSongOfAlbum(id: nat) returns (r: SongService.Reply)
      modifies this
      ensures State() == SongService.CacheAside(old(State()), SongsOfAlbumQuery(id)).world
      ensures r == SongService.CacheAside(old(State()), SongsOfAlbumQuery(id)).reply
    {
      r := Read(SongsOfAlbumQuery(id));
    }

    /** `getSingleSong` reads the songs table only. */
    method GetSingleSong(id: nat) returns (r: SongService.SongReply)
      ensures r == SongService.GetSingleSong(Tables(), id)
    {
      r := SongService.GetSingleSong(Tables(), id);
    }

    /** The tail every successful admin handler shares: `DEL` the keys when the admin
        service's client is ready. */
    method Invalidate(keys: set<string>)
      modifies this
      ensures cache == if old(adminServiceReady) then Del(old(cache), keys) else old(cache)
      ensures Tables() == old(Tables()) && now == old(now)
      ensures songServiceReady == old(songServiceReady) && adminServiceReady == old(adminServiceReady)
    {
      if adminServiceReady {
        cache := cache - keys;
      }
    }

    method AddAlbum(role: Option<string>, title: string, description: string,
                    file: Option<string>, secureUrl: string) returns (r: AdminService.AdminReply)
      modifies this
      ensures State() == AdminService.AddAlbum(old(State()), policy, role, title, description, file, secureUrl).world
      ensures r == AdminService.AddAlbum(old(State()), policy, role, title, description, file, secureUrl).reply
    {
      if !AdminService.IsAdmin(role) { return AdminService.Unauthorized; }
      if file.None? { return AdminService.NoFile; }
      if file.value == "" { return AdminService.UploadError; }
      var keys := AdminService.Invalidation(policy, Tables(), AdminService.CreateAlbum(title, description, secureUrl));
      var album := Album(nextAlbumId, title, description, secureUrl);
      albums := albums + [album];
      nextAlbumId := nextAlbumId + 1;
      Invalidate(keys);
      r := AdminService.Done("Album Created", AdminService.AlbumRow(album));
    }

    method AddSong(role: Option<string>, title: string, description: string, albumId: nat,
                   file: Option<string>, secureUrl: string) returns (r: AdminService.AdminReply)
      modifies this
      ensures State() == AdminService.AddSong(old(State()), policy, role, title, description, albumId, file, secureUrl).world
      ensures r == AdminService.AddSong(old(State()), policy, role, title, description, albumId, file, secureUrl).reply
    {
      if !AdminService.IsAdmin(role) { return AdminService.Unauthorized; }
      if AlbumsWithId(albums, albumId) == [] { return AdminService.Failed(404, "Album not found"); }
      if file.None? { return AdminService.NoFile; }
      if file.value == "" { return AdminService.UploadError; }
      var keys := AdminService.Invalidation(policy, Tables(), AdminService.CreateSong(title, description, secureUrl, albumId));
      songs := songs + [Song(nextSongId, title, description, None, secureUrl, albumId)];
      nextSongId := nextSongId + 1;
      Invalidate(keys);
      r := AdminService.Done("Song added", AdminService.NoRow);
    }

    method AddThumbnail(role: Option<string>, id: nat, file: Option<string>, secureUrl: string)
      returns (r: AdminService.AdminReply)
      modifies this
      ensures State() == AdminService.AddThumbnail(old(State()), policy, role, id, file, secureUrl).world
      ensures r == AdminService.AddThumbnail(old(State()), policy, role, id, file, secureUrl).reply
    {
      var song := SongsWithId(songs, id);
      if !AdminService.IsAdmin(role) { return AdminService.Unauthorized; }
      if song == [] { return AdminService.Failed(404, "Song not found"); }
      if file.None? { return AdminService.NoFile; }
      if file.value == "" { return AdminService.UploadError; }
      var keys := AdminService.Invalidation(policy, Tables(), AdminService.AttachThumbnail(id, secureUrl));
      songs := ThumbnailRows(songs, id, secureUrl);
      Invalidate(keys);
      r := AdminService.Done("Thumbnail added", AdminService.SongRow(song[0].(thumbnail := Some(secureUrl))));
    }

    method DeleteAlbum(role: Option<string>, id: nat) returns (r: AdminService.AdminReply)
      modifies this
      ensures State() == AdminService.DeleteAlbum(old(State()), policy, role, id).world
      ensures r == AdminService.DeleteAlbum(old(State()), policy, role, id).reply
    {
      if !AdminService.IsAdmin(role) { return AdminService.Unauthorized; }
      if AlbumsWithId(albums, id) == [] { return AdminService.Failed(404, "Album not found"); }
      var keys := AdminService.Invalidation(policy, Tables(), AdminService.RemoveAlbum(id));
      songs := SongsWithoutAlbum(songs, id);
      albums := AlbumsWithoutId(albums, id);
      Invalidate(keys);
      r := AdminService.Done("Album deleted", AdminService.NoRow);
    }

    method DeleteSong(role: Option<string>, id: nat) returns (r: AdminService.AdminReply)
      modifies this
      ensures State() == AdminService.DeleteSong(old(State()), policy, role, id).world
      ensures r == AdminService.DeleteSong(old(State()), policy, role, id).reply
    {
      if !AdminService.IsAdmin(role) { return AdminService.Unauthorized; }
      if SongsWithId(songs, id) == [] { return AdminService.Failed(404, "Song not found"); }
      var keys := AdminService.Invalidation(policy, Tables(), AdminService.RemoveSong(id));
      songs := SongsWithoutId(songs, id);
      Invalidate(keys);
      r := AdminService.Done("Song deleted", AdminService.NoRow);
    }
  }
}
