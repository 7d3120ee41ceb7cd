/**
  The older JavaScript flat-file movie service. It reads and writes the same
  records as the TypeScript one; its updateMovie has no guard for an unknown id.
 */
module LegacyMovies {
  import opened Wrappers
  import opened JsArrays
  import opened FlatMovies
  import opened Failures

  /** movies.js: the store behind one movies-data.json file. */
  class LegacyMovieFile {
    /** The parsed contents of the file. */
    var movies: seq<Movie>
    /** How many times the file has been rewritten. */
    var writes: nat

    constructor (contents: seq<Movie>)
      ensures movies == contents && writes == 0
    {
      movies := contents;
      writes := 0;
    }

    /** readMovies: the whole list as stored. */
    method ReadMovies() returns (ms: seq<Movie>)
      ensures ms == movies
    {
      ms := movies;
    }

    /** writeMovies: replace the whole file with `ms`. */
    method WriteMovies(ms: seq<Movie>)
      modifies this
      ensures movies == ms && writes == old(writes) + 1
    {
      movies := ms;
      writes := writes + 1;
    }

    /** getMovies: the stored list, unchanged. */
    method GetMovies() returns (ms: seq<Movie>)
      ensures ms == movies
    {
      ms := ReadMovies();
    }

    /** getMovieById: the first record in list order with id `movieId`, or `undefined`. */
    method GetMovieById(movieId: string) returns (r: Option<Movie>)
      ensures r.None? <==> forall j :: 0 <= j < |movies| ==> movies[j].id != movieId
      ensures r.Some? ==> exists i :: 0 <= i < |movies| && movies[i] == r.value && r.value.id == movieId &&
                                      forall j :: 0 <= j < i ==> movies[j].id != movieId
    {
      var ms := ReadMovies();
      r := Find(ms, HasId(movieId));
    }

    /** removeMovie: write back every record whose id differs from `movieId`. */
    method RemoveMovie(movieId: string)
      modifies this
      ensures movies == Filter(old(movies), OtherId(movieId))
      ensures writes == old(writes) + 1
      ensures old(UniqueIds(movies)) ==> UniqueIds(movies)
    {
      var ms := ReadMovies();
      if UniqueIds(ms) {
        RemovePreservesUniqueIds(ms, movieId);
      }
      WriteMovies(Filter(ms, OtherId(movieId)));
    }

    /** addMovie: append a record with the generated id `newId` and `data`'s fields, and return it. */
    method AddMovie(data: MovieInput, newId: string) returns (movie: Movie)
      modifies this
      ensures movie == FromInput(newId, data)
      ensures movies == old(movies) + [movie]
      ensures writes == old(writes) + 1
      ensures old(UniqueIds(movies)) && (forall j :: 0 <= j < |old(movies)| ==> old(movies)[j].id != newId) ==>
                UniqueIds(movies)
    {
      var ms := ReadMovies();
      movie := FromInput(newId, data);
      if UniqueIds(ms) && forall j :: 0 <= j < |ms| ==> ms[j].id != newId {
        AppendFreshPreservesUniqueIds(ms, movie);
      }
      ms := ms + [movie];
      WriteMovies(ms);
    }

    /**
      updateMovie: overwrite the four input fields of the first record with id
      `movieId`, write the list back, and return the changed record. There is
      no guard: for an id that is not stored, the first assignment goes to a
      field of `undefined` and throws a TypeError before anything is written.
     */
    method UpdateMovie(movieId: string, data: MovieInput) returns (r: Result<Movie, Thrown>)
      modifies this
      ensures r.Err? <==> forall j :: 0 <= j < |old(movies)| ==> old(movies)[j].id != movieId
      ensures r.Err? ==> r.error == OtherError("TypeError") && movies == old(movies) && writes == old(writes)
      ensures r.Ok? ==> var i := FirstIndex(old(movies), HasId(movieId)).value;
                        && |movies| == |old(movies)|
                        && movies[i] == r.value
                        && r.value == FromInput(movieId, data)
                        && (forall j :: 0 <= j < |movies| && j != i ==> movies[j] == old(movies)[j])
                        && writes == old(writes) + 1
      ensures old(UniqueIds(movies)) ==> UniqueIds(movies)
    {
      var ms := ReadMovies();
      var found := FirstIndex(ms, HasId(movieId));
      if found.None? {
        return Err(OtherError("TypeError"));
      }
      var i := found.value;
      var movie := FromInput(ms[i].id, data);
      ms := ms[i := movie];
      WriteMovies(ms);
      r := Ok(movie);
    }
  }

  /**
    On any file that does not hold the id, the update throws a TypeError and
    writes nothing, where the TypeScript service answers `undefined`.
   */
  method UnknownIdThrows(contents: seq<Movie>, movieId: string, data: MovieInput)
    returns (r: Result<Movie, Thrown>, after: seq<Movie>, writes: nat)
    requires forall j :: 0 <= j < |contents| ==> contents[j].id != movieId
    ensures r == Err(OtherError("TypeError")) && after == contents && writes == 0
  {
    var file := new LegacyMovieFile(contents);
    r := file.UpdateMovie(movieId, data);
    after := file.movies;
    writes := file.writes;
  }
}
