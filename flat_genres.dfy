/**
  The flat-file genre service: read-only access to the genre list parsed from
  genres-data.json. The module has no write path, so every operation is a
  function of the file's contents.
 */
module FlatGenres {
  import opened Wrappers
  import opened JsArrays

  /** One record of genres-data.json. */
  datatype Genre = Genre(id: string, name: string)

  /** The `find` callback `item.id === genreId`. */
  function GenreHasId(genreId: string): Genre -> bool { (g: Genre) => g.id == genreId }

  /** getGenres: the stored list, unchanged. */
  function GetGenres(genres: seq<Genre>): (r: seq<Genre>)
    ensures r == genres
  {
    genres
  }

  /** getGenreById: the first genre in list order whose id is `genreId`, or `undefined`. */
  function GetGenreById(genres: seq<Genre>, genreId: string): (r: Option<Genre>)
    ensures r.None? <==> forall j :: 0 <= j < |genres| ==> genres[j].id != genreId
    ensures r.Some? ==> exists i :: 0 <= i < |genres| && genres[i] == r.value && r.value.id == genreId &&
                                    forall j :: 0 <= j < i ==> genres[j].id != genreId
  {
    Find(genres, GenreHasId(genreId))
  }
}
