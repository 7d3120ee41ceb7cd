/**
  The movie request handlers. Each awaits its service calls in a fixed order,
  stops at the first failed check by passing an ApiError to `next`, maps a
  duplicate-key rejection to 409 in the create and update handlers, and
  otherwise sends exactly one response. The service replies are parameters:
  a reply the handler never awaits has no effect.
 */
module MovieController {
  import opened Wrappers
  import opened Joi
  import opened Http

  /** The keys createMovie and updateMovie take from the body. */
  const MovieKeys: set<string> := {"title", "description", "releaseDate", "genre"}

  /** The entries of `ids` as a set. */
  function Members<T>(ids: seq<T>): set<T>
  {
    set i | 0 <= i < |ids| :: ids[i]
  }

  /** No entry of `ids` occurs twice. */
  predicate NoRepeats<T(==)>(ids: seq<T>)
  {
    forall i, j :: 0 <= i < j < |ids| ==> ids[i] != ids[j]
  }

  /**
    countGenres(ids) against the stored genre ids `stored`: the number of
    stored genres whose id is one of `ids` (a count of documents, so an id
    listed twice is counted once).
   */
  function CountStored<T(==)>(stored: set<T>, ids: seq<T>): (r: nat)
    ensures r <= |ids| && r <= |stored|
  {
    MembersSize(ids);
    SubsetSize(stored * Members(ids), Members(ids));
    SubsetSize(stored * Members(ids), stored);
    |stored * Members(ids)|
  }

  /** A list has at most as many distinct entries as it is long, and exactly as many when none repeats. */
  lemma {:induction false} MembersSize<T>(ids: seq<T>)
    ensures |Members(ids)| <= |ids|
    ensures |Members(ids)| == |ids| <==> NoRepeats(ids)
  {
    if ids == [] {
      assert Members(ids) == {};
    } else {
      var rest := ids[1..];
      MembersSize(rest);
      assert Members(ids) == {ids[0]} + Members(rest) by {
        forall y | y in Members(ids) ensures y in {ids[0]} + Members(rest) {
          var i :| 0 <= i < |ids| && ids[i] == y;
          if i > 0 { assert rest[i - 1] == y; }
        }
        forall y | y in Members(rest) ensures y in Members(ids) {
          var i :| 0 <= i < |rest| && rest[i] == y;
          assert ids[i + 1] == y;
        }
      }
      if ids[0] in Members(rest) {
        var k :| 0 <= k < |rest| && rest[k] == ids[0];
        assert ids[0] == ids[k + 1];
        assert !NoRepeats(ids);
      } else {
        assert NoRepeats(ids) <==> NoRepeats(rest) by {
          if NoRepeats(rest) {
            forall i, j | 0 <= i < j < |ids| ensures ids[i] != ids[j] {
              if i == 0 {
                assert ids[j] == rest[j - 1];
                assert ids[j] in Members(rest);
              } else {
                assert ids[i] == rest[i - 1] && ids[j] == rest[j - 1];
              }
            }
          }
          if NoRepeats(ids) {
            forall i, j | 0 <= i < j < |rest| ensures rest[i] != rest[j] {
              assert rest[i] == ids[i + 1] && rest[j] == ids[j + 1];
            }
          }
        }
      }
    }
  }

  lemma SubsetSize<T>(a: set<T>, b: set<T>)
    requires a <= b
    ensures |a| <= |b|
  {
    assert b == a + (b - a);
  }

  /**
    The genre check of createMovie and updateMovie passes exactly when every
    listed genre is stored and none is listed twice: a missing genre and a
    repeated one both make the count differ from the list's length.
   */
  lemma {:induction false} GenreCountMatches<T>(stored: set<T>, ids: seq<T>)
    ensures CountStored(stored, ids) <= |ids|
    ensures CountStored(stored, ids) == |ids| <==>
              NoRepeats(ids) && forall i :: 0 <= i < |ids| ==> ids[i] in stored
  {
    MembersSize(ids);
    var m := Members(ids);
    assert stored * m <= m;
    if stored * m == m {
      assert forall i :: 0 <= i < |ids| ==> ids[i] in m;
    } else {
      var y :| y in m && y !in stored;
      assert |stored * m| < |m| by {
        SubsetSize(stored * m, m - {y});
      }
      var i :| 0 <= i < |ids| && ids[i] == y;
    }
    if forall i :: 0 <= i < |ids| ==> ids[i] in stored {
      assert m <= stored;
      assert stored * m == m;
    }
  }

  /** getMovies: respond with the service's list as it is; forward a failure unchanged. */
  method GetMovies(x: Exchange, listed: Reply<seq<Doc>>)
    modifies x
    ensures listed.Resolved? ==> Responds(x, [AllMovies], Json(200, Many(listed.value)))
    ensures listed.Rejected? ==> Fails(x, [AllMovies], Raw(listed.thrown))
  {
    x.Invoke(AllMovies);
    match listed
    case Resolved(movies) => x.Send(Json(200, Many(movies)));
    case Rejected(t) => x.Next(Raw(t));
  }

  /** getMovieById: respond with the movie found as it is, or 404 "Movie not found". */
  method GetMovieById(x: Exchange, id: string, found: Reply<Option<Doc>>)
    modifies x
    ensures found == Resolved(None) ==> Fails(x, [MovieById(id)], Api(NotFound("Movie")))
    ensures found.Resolved? && found.value.Some? ==> Responds(x, [MovieById(id)], Json(200, One(found.value.value)))
    ensures found.Rejected? ==> Fails(x, [MovieById(id)], Raw(found.thrown))
  {
    x.Invoke(MovieById(id));
    match found
    case Resolved(None) => x.Next(Api(NotFound("Movie")));
    case Resolved(Some(movie)) => x.Send(Json(200, One(movie)));
    case Rejected(t) => x.Next(Raw(t));
  }

  /**
    createMovie: count the listed genres first; unless the count equals the
    list's length, fail with 404 "Genre not found" without creating anything.
    Otherwise create the movie from exactly the title, description, release
    date and genre of the body and respond 201 with it. Any rejection becomes
    409 "Movie already exists" when it is a duplicate key, and is passed on
    unchanged otherwise.
   */
  method CreateMovie(x: Exchange, body: Body, counted: Reply<int>, created: Reply<Doc>)
    requires "genre" in body && body["genre"].Arr?
    modifies x
    ensures var genre := body["genre"].items;
      && (counted.Rejected? ==> Fails(x, [GenreCount(genre)], DuplicateKeyAs("Movie", counted.thrown)))
      && (counted.Resolved? && counted.value != |genre| ==>
            Fails(x, [GenreCount(genre)], Api(NotFound("Genre"))))
      && (counted.Resolved? && counted.value == |genre| ==>
            var made := [GenreCount(genre), NewMovie(Pick(body, MovieKeys))];
            && (created.Resolved? ==> Responds(x, made, Json(201, One(created.value))))
            && (created.Rejected? ==> Fails(x, made, DuplicateKeyAs("Movie", created.thrown))))
  {
    var genre := body["genre"].items;
    x.Invoke(GenreCount(genre));
    match counted
    case Rejected(t) => x.Next(DuplicateKeyAs("Movie", t));
    case Resolved(genreCount) =>
      if genreCount != |genre| {
        x.Next(Api(NotFound("Genre")));
        return;
      }
      x.Invoke(NewMovie(Pick(body, MovieKeys)));
      match created
      case Resolved(movie) => x.Send(Json(201, One(movie)));
      case Rejected(t) => x.Next(DuplicateKeyAs("Movie", t));
  }

  /**
    createMovie refuses a genre list that names a genre not stored, or names
    one genre twice, with 404 "Genre not found", and creates nothing: the
    count of stored listed genres then falls short of the list's length.
   */
  method UnknownOrRepeatedGenreRejected(x: Exchange, body: Body, stored: set<Value>, created: Reply<Doc>)
    requires "genre" in body && body["genre"].Arr?
    requires var genre := body["genre"].items;
             !NoRepeats(genre) || exists i :: 0 <= i < |genre| && genre[i] !in stored
    modifies x
    ensures Fails(x, [GenreCount(body["genre"].items)], Api(NotFound("Genre")))
  {
    var genre := body["genre"].items;
    GenreCountMatches(stored, genre);
    CreateMovie(x, body, Resolved(CountStored(stored, genre)), created);
  }

  /**
    removeMovie: look the movie up first; when it is absent fail with 404
    "Movie not found" and delete nothing, otherwise delete it and respond 200.
   */
  method RemoveMovie(x: Exchange, id: string, found: Reply<Option<Doc>>, removed: Reply<()>)
    modifies x
    ensures found == Resolved(None) ==> Fails(x, [MovieById(id)], Api(NotFound("Movie")))
    ensures found.Rejected? ==> Fails(x, [MovieById(id)], Raw(found.thrown))
    ensures found.Resolved? && found.value.Some? ==>
              && (removed.Resolved? ==> Responds(x, [MovieById(id), MovieRemoval(id)], StatusOnly(200)))
              && (removed.Rejected? ==> Fails(x, [MovieById(id), MovieRemoval(id)], Raw(removed.thrown)))
  {
    x.Invoke(MovieById(id));
    match found
    case Rejected(t) => x.Next(Raw(t));
    case Resolved(None) => x.Next(Api(NotFound("Movie")));
    case Resolved(Some(_)) =>
      x.Invoke(MovieRemoval(id));
      match removed
      case Resolved(_) => x.Send(StatusOnly(200));
      case Rejected(t) => x.Next(Raw(t));
  }

  /**
    updateMovie: the same genre check as createMovie before any update; then
    update with exactly the title, description, release date and genre of the
    body, fail with 404 "Movie not found" when nothing was updated, and
    respond with the updated movie otherwise. Rejections are mapped as in
    createMovie.
   */
  method UpdateMovie(x: Exchange, id: string, body: Body, counted: Reply<int>, updated: Reply<Option<Doc>>)
    requires "genre" in body && body["genre"].Arr?
    modifies x
    ensures var genre := body["genre"].items;
      && (counted.Rejected? ==> Fails(x, [GenreCount(genre)], DuplicateKeyAs("Movie", counted.thrown)))
      && (counted.Resolved? && counted.value != |genre| ==>
            Fails(x, [GenreCount(genre)], Api(NotFound("Genre"))))
      && (counted.Resolved? && counted.value == |genre| ==>
            var made := [GenreCount(genre), MovieUpdate(id, Pick(body, MovieKeys))];
            && (updated == Resolved(None) ==> Fails(x, made, Api(NotFound("Movie"))))
            && (updated.Resolved? && updated.value.Some? ==> Responds(x, made, Json(200, One(updated.value.value))))
            && (updated.Rejected? ==> Fails(x, made, DuplicateKeyAs("Movie", updated.thrown))))
  {
    var genre := body["genre"].items;
    x.Invoke(GenreCount(genre));
    match counted
    case Rejected(t) => x.Next(DuplicateKeyAs("Movie", t));
    case Resolved(genreCount) =>
      if genreCount != |genre| {
        x.Next(Api(NotFound("Genre")));
        return;
      }
      x.Invoke(MovieUpdate(id, Pick(body, MovieKeys)));
      match updated
      case Rejected(t) => x.Next(DuplicateKeyAs("Movie", t));
      case Resolved(None) => x.Next(Api(NotFound("Movie")));
      case Resolved(Some(movie)) => x.Send(Json(200, One(movie)));
  }
}
