/**
  The genre request handlers: the same shape as the movie handlers, without a
  referential check. Service replies are parameters; a reply the handler never
  awaits has no effect.
 */
module GenreController {
  import opened Wrappers
  import opened Joi
  import opened Http

  /** The keys createGenre and updateGenre take from the body. */
  const GenreKeys: set<string> := {"name"}

  /** getGenres: respond with the service's list as it is; forward a failure unchanged. */
  method GetGenres(x: Exchange, listed: Reply<seq<Doc>>)
    modifies x
    ensures listed.Resolved? ==> Responds(x, [AllGenres], Json(200, Many(listed.value)))
    ensures listed.Rejected? ==> Fails(x, [AllGenres], Raw(listed.thrown))
  {
    x.Invoke(AllGenres);
    match listed
    case Resolved(genres) => x.Send(Json(200, Many(genres)));
    case Rejected(t) => x.Next(Raw(t));
  }

  /** getGenreById: respond with the genre found as it is, or 404 "Genre not found". */
  method GetGenreById(x: Exchange, id: string, found: Reply<Option<Doc>>)
    modifies x
    ensures found == Resolved(None) ==> Fails(x, [GenreById(id)], Api(NotFound("Genre")))
    ensures found.Resolved? && found.value.Some? ==> Responds(x, [GenreById(id)], Json(200, One(found.value.value)))
    ensures found.Rejected? ==> Fails(x, [GenreById(id)], Raw(found.thrown))
  {
    x.Invoke(GenreById(id));
    match found
    case Resolved(None) => x.Next(Api(NotFound("Genre")));
    case Resolved(Some(genre)) => x.Send(Json(200, One(genre)));
    case Rejected(t) => x.Next(Raw(t));
  }

  /**
    createGenre: create the genre from the body's name alone and respond 201
    with it; a duplicate-key rejection becomes 409 "Genre already exists" and
    any other is passed on unchanged.
   */
  method CreateGenre(x: Exchange, body: Body, created: Reply<Doc>)
    modifies x
    ensures created.Resolved? ==> Responds(x, [NewGenre(Pick(body, GenreKeys))], Json(201, One(created.value)))
    ensures created.Rejected? ==> Fails(x, [NewGenre(Pick(body, GenreKeys))], DuplicateKeyAs("Genre", created.thrown))
  {
    x.Invoke(NewGenre(Pick(body, GenreKeys)));
    match created
    case Resolved(genre) => x.Send(Json(201, One(genre)));
    case Rejected(t) => x.Next(DuplicateKeyAs("Genre", t));
  }

  /**
    removeGenre: look the genre up first; when it is absent fail with 404
    "Genre not found" and delete nothing, otherwise delete it and respond 200.
   */
  method RemoveGenre(x: Exchange, id: string, found: Reply<Option<Doc>>, removed: Reply<()>)
    modifies x
    ensures found == Resolved(None) ==> Fails(x, [GenreById(id)], Api(NotFound("Genre")))
    ensures found.Rejected? ==> Fails(x, [GenreById(id)], Raw(found.thrown))
    ensures found.Resolved? && found.value.Some? ==>
              && (removed.Resolved? ==> Responds(x, [GenreById(id), GenreRemoval(id)], StatusOnly(200)))
              && (removed.Rejected? ==> Fails(x, [GenreById(id), GenreRemoval(id)], Raw(removed.thrown)))
  {
    x.Invoke(GenreById(id));
    match found
    case Rejected(t) => x.Next(Raw(t));
    case Resolved(None) => x.Next(Api(NotFound("Genre")));
    case Resolved(Some(_)) =>
      x.Invoke(GenreRemoval(id));
      match removed
      case Resolved(_) => x.Send(StatusOnly(200));
      case Rejected(t) => x.Next(Raw(t));
  }

  /**
    updateGenre: update with the body's name alone; fail with 404 "Genre not
    found" when nothing was updated, respond with the updated genre otherwise.
    Rejections are mapped as in createGenre.
   */
  method UpdateGenre(x: Exchange, id: string, body: Body, updated: Reply<Option<Doc>>)
    modifies x
    ensures updated == Resolved(None) ==> Fails(x, [GenreUpdate(id, Pick(body, GenreKeys))], Api(NotFound("Genre")))
    ensures updated.Resolved? && updated.value.Some? ==>
              Responds(x, [GenreUpdate(id, Pick(body, GenreKeys))], Json(200, One(updated.value.value)))
    ensures updated.Rejected? ==>
              Fails(x, [GenreUpdate(id, Pick(body, GenreKeys))], DuplicateKeyAs("Genre", updated.thrown))
  {
    x.Invoke(GenreUpdate(id, Pick(body, GenreKeys)));
    match updated
    case Rejected(t) => x.Next(DuplicateKeyAs("Genre", t));
    case Resolved(None) => x.Next(Api(NotFound("Genre")));
    case Resolved(Some(genre)) => x.Send(Json(200, One(genre)));
  }
}
