/**
  The flat-file movie service: the movie list parsed from movies-data.json,
  read whole by every operation and written back whole by every change.
 */
module FlatMovies {
  import opened Wrappers
  import opened JsArrays

  /** One record of movies-data.json. */
  datatype Movie = Movie(id: string, title: string, description: string, genre: seq<string>, duration: int)

  /** The four fields addMovie and updateMovie take from their input. */
  datatype MovieInput = MovieInput(title: string, description: string, genre: seq<string>, duration: int)

  function MovieId(m: Movie): string { m.id }

  /** The `find` callback `item.id === movieId`. */
  function HasId(movieId: string): Movie -> bool { (m: Movie) => m.id == movieId }

  /** The `filter` callback `item.id !== movieId`. */
  function OtherId(movieId: string): Movie -> bool { (m: Movie) => m.id != movieId }

  /** No two records of the list share an id. */
  predicate UniqueIds(ms: seq<Movie>) { DistinctKeys(ms, MovieId) }

  /** The four input fields a record carries. */
  function InputOf(m: Movie): MovieInput
  {
    MovieInput(m.title, m.description, m.genre, m.duration)
  }

  /** A record with `data`'s four fields and the given id. */
  function FromInput(id: string, data: MovieInput): (m: Movie)
    ensures m.id == id && InputOf(m) == data
  {
    Movie(id, data.title, data.description, data.genre, data.duration)
  }

  /**
    The list removeMovie writes back holds exactly the records whose id is not
    `movieId`, each as often as before; with no record of that id it is the list itself.
   */
  lemma {:induction false} RemovedExactly(ms: seq<Movie>, movieId: string)
    ensures forall m :: multiset(Filter(ms, OtherId(movieId)))[m] ==
                        if m.id == movieId then 0 else multiset(ms)[m]
    ensures (forall j :: 0 <= j < |ms| ==> ms[j].id != movieId) ==> Filter(ms, OtherId(movieId)) == ms
  {
    forall m ensures multiset(Filter(ms, OtherId(movieId)))[m] == if m.id == movieId then 0 else multiset(ms)[m] {
      FilterCounts(ms, OtherId(movieId), m);
    }
    if forall j :: 0 <= j < |ms| ==> ms[j].id != movieId {
      FilterKeepsAll(ms, OtherId(movieId));
    }
  }

  /** Removing the records of one id from two consecutive stretches of the list removes them from each. */
  lemma {:induction false} RemovePreservesOrder(a: seq<Movie>, b: seq<Movie>, movieId: string)
    ensures Filter(a + b, OtherId(movieId)) == Filter(a, OtherId(movieId)) + Filter(b, OtherId(movieId))
  {
    FilterAppend(a, b, OtherId(movieId));
  }

  /** Removing records never makes two ids collide. */
  lemma {:induction false} RemovePreservesUniqueIds(ms: seq<Movie>, movieId: string)
    requires UniqueIds(ms)
    ensures UniqueIds(Filter(ms, OtherId(movieId)))
  {
    FilterKeepsDistinct(ms, OtherId(movieId), MovieId);
  }

  /** Appending a record whose id is not yet used keeps the ids unique. */
  lemma {:induction false} AppendFreshPreservesUniqueIds(ms: seq<Movie>, m: Movie)
    requires UniqueIds(ms)
    requires forall j :: 0 <= j < |ms| ==> ms[j].id != m.id
    ensures UniqueIds(ms + [m])
  {
    var r := ms + [m];
    forall i, j | 0 <= i < j < |r| ensures MovieId(r[i]) != MovieId(r[j]) {
      if j == |ms| {
        assert r[i] == ms[i];
      } else {
        assert r[i] == ms[i] && r[j] == ms[j];
      }
    }
  }

  /** movies.ts: the store behind one movies-data.json file. */
  class MovieFile {
    /** The parsed contents of the file. */
    var movies: seq<Movie>
    /** How many times the file has been rewritten. */
    var writes: nat

    constructor (contents: seq<Movie>)
      ensures movies == contents && writes == 0
    {
      movies := contents;
      writes := 0;
    }

    /** readMovies: the whole list as stored. */
    method ReadMovies() returns (ms: seq<Movie>)
      ensures ms == movies
    {
      ms := movies;
    }

    /** writeMovies: replace the whole file with `ms`. */
    method WriteMovies(ms: seq<Movie>)
      modifies this
      ensures movies == ms && writes == old(writes) + 1
    {
      movies := ms;
      writes := writes + 1;
    }

    /** getMovies: the stored list, unchanged. */
    method GetMovies() returns (ms: seq<Movie>)
      ensures ms == movies
    {
      ms := ReadMovies();
    }

    /** getMovieById: the first record in list order with id `movieId`, or `undefined`. */
    method GetMovieById(movieId: string) returns (r: Option<Movie>)
      ensures r.None? <==> forall j :: 0 <= j < |movies| ==> movies[j].id != movieId
      ensures r.Some? ==> exists i :: 0 <= i < |movies| && movies[i] == r.value && r.value.id == movieId &&
                                      forall j :: 0 <= j < i ==> movies[j].id != movieId
    {
      var ms := ReadMovies();
      r := Find(ms, HasId(movieId));
    }

    /** removeMovie: write back every record whose id differs from `movieId`. */
    method RemoveMovie(movieId: string)
      modifies this
      ensures movies == Filter(old(movies), OtherId(movieId))
      ensures writes == old(writes) + 1
      ensures old(UniqueIds(movies)) ==> UniqueIds(movies)
    {
      var ms := ReadMovies();
      if UniqueIds(ms) {
        RemovePreservesUniqueIds(ms, movieId);
      }
      WriteMovies(Filter(ms, OtherId(movieId)));
    }

    /**
      addMovie: append one record carrying `data`'s fields and the generated id
      `newId`, write the list back and return the new record.
     */
    method AddMovie(data: MovieInput, newId: string) returns (movie: Movie)
      modifies this
      ensures movie == FromInput(newId, data)
      ensures movies == old(movies) + [movie]
      ensures writes == old(writes) + 1
      ensures old(UniqueIds(movies)) && (forall j :: 0 <= j < |old(movies)| ==> old(movies)[j].id != newId) ==>
                UniqueIds(movies)
    {
      var ms := ReadMovies();
      movie := FromInput(newId, data);
      if UniqueIds(ms) && forall j :: 0 <= j < |ms| ==> ms[j].id != newId {
        AppendFreshPreservesUniqueIds(ms, movie);
      }
      ms := ms + [movie];
      WriteMovies(ms);
    }

    /**
      updateMovie: overwrite the four input fields of the first record with id
      `movieId` and write the list back; with no such record, write nothing and
      return `undefined`.
     */
    method UpdateMovie(movieId: string, data: MovieInput) returns (r: Option<Movie>)
      modifies this
      ensures r.None? <==> forall j :: 0 <= j < |old(movies)| ==> old(movies)[j].id != movieId
      ensures r.None? ==> movies == old(movies) && writes == old(writes)
      ensures r.Some? ==>
                var i := FirstIndex(old(movies), HasId(movieId)).value;
                && |movies| == |old(movies)|
                && movies[i] == FromInput(old(movies)[i].id, data)
                && r.value == movies[i]
                && (forall j :: 0 <= j < |movies| && j != i ==> movies[j] == old(movies)[j])
                && writes == old(writes) + 1
      ensures forall j :: 0 <= j < |movies| ==> movies[j].id == old(movies)[j].id
      ensures old(UniqueIds(movies)) ==> UniqueIds(movies)
    {
      var ms := ReadMovies();
      var found := FirstIndex(ms, HasId(movieId));
      if found.Some? {
        var i := found.value;
        var movie := FromInput(ms[i].id, data);
        ms := ms[i := movie];
        WriteMovies(ms);
        r := Some(movie);
      } else {
        r := None;
      }
    }
  }

  /** On any file that does not hold the id, the update answers `undefined` and writes nothing. */
  method UnknownIdNotFound(contents: seq<Movie>, movieId: string, data: MovieInput)
    returns (r: Option<Movie>, after: seq<Movie>, writes: nat)
    requires forall j :: 0 <= j < |contents| ==> contents[j].id != movieId
    ensures r == None && after == contents && writes == 0
  {
    var file := new MovieFile(contents);
    r := file.UpdateMovie(movieId, data);
    after := file.movies;
    writes := file.writes;
  }
}
