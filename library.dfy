/** The search boxes of frontend/src/pages/Songs.jsx and frontend/src/pages/Albums.jsx:
    the list shown is the fetched list narrowed to the entries whose title or
    description contains the query, ignoring case, and an empty-result message
    appears when nothing is left. */
module Library {
  import opened Seqs
  import opened Text
  import opened Catalog

  /** The shared test: the lower-cased title or description includes the
      lower-cased query. */
  predicate Listed(title: string, description: string, query: string)
  {
    Contains(ToLower(title), ToLower(query)) || Contains(ToLower(description), ToLower(query))
  }

  predicate SongMatches(song: Song, query: string)
  {
    Listed(song.title, song.description, query)
  }

  predicate AlbumMatches(album: Album, query: string)
  {
    Listed(album.title, album.description, query)
  }

  /** `filteredSongs`. */
  function FilteredSongs(songs: seq<Song>, query: string): seq<Song>
  {
    Filter(songs, (song: Song) => SongMatches(song, query))
  }

  /** `filteredAlbums`. */
  function FilteredAlbums(albums: seq<Album>, query: string): seq<Album>
  {
    Filter(albums, (album: Album) => AlbumMatches(album, query))
  }

  /** "No songs found" is shown exactly when the filtered list is empty. */
  predicate ShowsNoSongsMessage(songs: seq<Song>, query: string)
  {
    |FilteredSongs(songs, query)| == 0
  }

  /** "No albums found" is shown exactly when the filtered list is empty. */
  predicate ShowsNoAlbumsMessage(albums: seq<Album>, query: string)
  {
    |FilteredAlbums(albums, query)| == 0
  }

  /** The shown songs are the matching songs, in the fetched order: a subsequence
      of the list, each one matching, and no matching song left out. */
  lemma FilteredSongsAreTheMatches(songs: seq<Song>, query: string)
    ensures var r := FilteredSongs(songs, query);
      && IsSubsequence(r, songs)
      && (forall i :: 0 <= i < |r| ==> SongMatches(r[i], query))
      && (forall i :: 0 <= i < |songs| && SongMatches(songs[i], query) ==> songs[i] in r)
  {
    FilterIsSubsequence(songs, (song: Song) => SongMatches(song, query));
  }

  /** An empty query matches every song. */
  lemma EmptyQueryShowsAllSongs(songs: seq<Song>)
    ensures FilteredSongs(songs, "") == songs
  {
    forall i | 0 <= i < |songs| ensures SongMatches(songs[i], "") {
      ContainsEmpty(ToLower(songs[i].title));
    }
    FilterAllKept(songs, (song: Song) => SongMatches(song, ""));
  }

  /** Filtering the filtered list again changes nothing. */
  lemma FilteredSongsIdempotent(songs: seq<Song>, query: string)
    ensures FilteredSongs(FilteredSongs(songs, query), query) == FilteredSongs(songs, query)
  {
    FilterIdempotent(songs, (song: Song) => SongMatches(song, query));
  }

  /** Only the query's lower-cased form matters. */
  lemma SongQueryCaseInsensitive(songs: seq<Song>, query: string)
    ensures FilteredSongs(songs, ToLower(query)) == FilteredSongs(songs, query)
  {
    ToLowerIdempotent(query);
    FilterExtensional(songs, (song: Song) => SongMatches(song, ToLower(query)),
                      (song: Song) => SongMatches(song, query));
  }

  /** The message shows exactly when no song matches. */
  lemma NoSongsMessageIff(songs: seq<Song>, query: string)
    ensures ShowsNoSongsMessage(songs, query) <==>
      forall i :: 0 <= i < |songs| ==> !SongMatches(songs[i], query)
  {
    FilterEmptyIff(songs, (song: Song) => SongMatches(song, query));
  }

  /** The shown albums are the matching albums, in the fetched order. */
  lemma FilteredAlbumsAreTheMatches(albums: seq<Album>, query: string)
    ensures var r := FilteredAlbums(albums, query);
      && IsSubsequence(r, albums)
      && (forall i :: 0 <= i < |r| ==> AlbumMatches(r[i], query))
      && (forall i :: 0 <= i < |albums| && AlbumMatches(albums[i], query) ==> albums[i] in r)
  {
    FilterIsSubsequence(albums, (album: Album) => AlbumMatches(album, query));
  }

  lemma EmptyQueryShowsAllAlbums(albums: seq<Album>)
    ensures FilteredAlbums(albums, "") == albums
  {
    forall i | 0 <= i < |albums| ensures AlbumMatches(albums[i], "") {
      ContainsEmpty(ToLower(albums[i].title));
    }
    FilterAllKept(albums, (album: Album) => AlbumMatches(album, ""));
  }

  lemma FilteredAlbumsIdempotent(albums: seq<Album>, query: string)
    ensures FilteredAlbums(FilteredAlbums(albums, query), query) == FilteredAlbums(albums, query)
  {
    FilterIdempotent(albums, (album: Album) => AlbumMatches(album, query));
  }

  lemma AlbumQueryCaseInsensitive(albums: seq<Album>, query: string)
    ensures FilteredAlbums(albums, ToLower(query)) == FilteredAlbums(albums, query)
  {
    ToLowerIdempotent(query);
    FilterExtensional(albums, (album: Album) => AlbumMatches(album, ToLower(query)),
                      (album: Album) => AlbumMatches(album, query));
  }

  lemma NoAlbumsMessageIff(albums: seq<Album>, query: string)
    ensures ShowsNoAlbumsMessage(albums, query) <==>
      forall i :: 0 <= i < |albums| ==> !AlbumMatches(albums[i], query)
  {
    FilterEmptyIff(albums, (album: Album) => AlbumMatches(album, query));
  }
}
