/** The Redis instance both services talk to, and the key namespace the song
    service reads under. An entry carries the response the reader stored and the
    instant its `EX` expiry elapses; Redis hides an entry from that instant on. */
module Cache {
  import opened Wrappers
  import opened Catalog
  import Text

  /** `CACHE_EXPIRY` in song_service/dist/controller.js, in seconds. */
  const CacheExpiry: nat := 1800

  /** The JSON documents the song service caches (serialisation is taken as exact). */
  datatype Body =
    | AlbumList(albums: seq<Album>)
    | SongList(songs: seq<Song>)
    | AlbumWithSongs(songs: seq<Song>, album: Album)

  datatype Entry = Entry(payload: Body, expiresAt: nat)

  type Store = map<string, Entry>

  /** The three cached queries of the song service. */
  datatype Query = AllAlbums | AllSongs | SongsOfAlbumQuery(id: nat)

  const AlbumsKey: string := "albums"
  const SongsKey: string := "songs"
  const AlbumSongsPrefix: string := "album_songs_"

  /** The key the song service reads and writes for each query. */
  function KeyOf(q: Query): (k: string)
    ensures q.SongsOfAlbumQuery? ==> |k| > |AlbumSongsPrefix| && k[..|AlbumSongsPrefix|] == AlbumSongsPrefix
  {
    match q
    case AllAlbums => AlbumsKey
    case AllSongs => SongsKey
    case SongsOfAlbumQuery(id) => AlbumSongsPrefix + Text.NatToString(id)
  }

  /** Distinct queries never share a key: in particular `album_songs_<id>` is
      neither `albums` nor `songs`, and distinct ids give distinct keys. */
  lemma KeyOfInjective(q1: Query, q2: Query)
    requires KeyOf(q1) == KeyOf(q2)
    ensures q1 == q2
  {
    if q1.SongsOfAlbumQuery? && q2.SongsOfAlbumQuery? {
      var n := |AlbumSongsPrefix|;
      assert Text.NatToString(q1.id) == KeyOf(q1)[n..];
      assert Text.NatToString(q2.id) == KeyOf(q2)[n..];
      Text.NatToStringInjective(q1.id, q2.id);
    }
  }

  /** An entry Redis still returns at time `now`. */
  predicate Live(c: Store, now: nat, k: string)
  {
    k in c && now < c[k].expiresAt
  }

  /** `GET k`: the stored payload while it is live, nothing otherwise. */
  function Get(c: Store, now: nat, k: string): (r: Option<Body>)
    ensures r.Some? <==> Live(c, now, k)
  {
    if Live(c, now, k) then Some(c[k].payload) else None
  }

  /** `SET k v EX ttl`. */
  function Set(c: Store, now: nat, k: string, v: Body, ttl: nat): (r: Store)
    ensures r.Keys == c.Keys + {k}
    ensures r[k] == Entry(v, now + ttl)
    ensures forall j :: j in c && j != k ==> r[j] == c[j]
  {
    c[k := Entry(v, now + ttl)]
  }

  /** `DEL k1 k2 ...`: removing keys that do not exist is not an error. */
  function Del(c: Store, keys: set<string>): (r: Store)
    ensures r.Keys == c.Keys - keys
    ensures forall k :: k in r ==> r[k] == c[k]
  {
    c - keys
  }

  /** A `SET … EX ttl` is returned by `GET` for exactly `ttl` seconds. */
  lemma SetThenGet(c: Store, now: nat, k: string, v: Body, ttl: nat, later: nat)
    requires now <= later
    ensures Get(Set(c, now, k, v, ttl), later, k) == if later < now + ttl then Some(v) else None
  {
  }

  /** After `DEL k` the next `GET k` misses. */
  lemma DelThenGetMisses(c: Store, now: nat, keys: set<string>, k: string)
    requires k in keys
    ensures Get(Del(c, keys), now, k) == None
  {
  }

  /** `DEL` of other keys leaves the answer for `k` as it was. */
  lemma DelElsewhereKeeps(c: Store, now: nat, keys: set<string>, k: string)
    requires k !in keys
    ensures Get(Del(c, keys), now, k) == Get(c, now, k)
  {
  }
}
