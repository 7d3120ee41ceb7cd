/**
  What one request handler sees and does: the service calls it awaits, the
  response it sends through `res`, and the errors it passes to `next`.
 */
module Http {
  import opened Wrappers
  import opened Joi
  import opened Failures

  /** ApiError: a message and the HTTP status it is to be reported with. */
  datatype ApiError = ApiError(message: string, status: int)

  /** What a handler passes to `next`: an ApiError of its own, or what it caught, unchanged. */
  datatype Forwarded = Api(err: ApiError) | Raw(thrown: Thrown)

  /** The settled result of an awaited service call. */
  datatype Reply<+T> = Resolved(value: T) | Rejected(thrown: Thrown)

  /** A stored document as a service returns it: its id and its other fields. */
  datatype Doc = Doc(id: string, fields: Body)

  /** The JSON a response carries: one document or a list of them. */
  datatype Payload = One(doc: Doc) | Many(docs: seq<Doc>)

  /** `res.status(s).json(p)` (status 200 when `res.json` is called alone), or `res.sendStatus(s)`. */
  datatype Response = Json(status: int, payload: Payload) | StatusOnly(status: int)

  /** One awaited service call, with its arguments. */
  datatype Call =
    | AllMovies                             // movieService.getMovies()
    | MovieById(id: string)                 // movieService.getMovieById(id)
    | NewMovie(input: Body)                 // movieService.createMovie(input)
    | MovieRemoval(id: string)              // movieService.removeMovie(id)
    | MovieUpdate(id: string, input: Body)  // movieService.updateMovie(id, input)
    | GenreCount(ids: seq<Value>)           // genreService.countGenres(ids)
    | AllGenres                             // genreService.getGenres()
    | GenreById(id: string)                 // genreService.getGenreById(id)
    | NewGenre(input: Body)                 // genreService.createGenre(input)
    | GenreRemoval(id: string)              // genreService.removeGenre(id)
    | GenreUpdate(id: string, input: Body)  // genreService.updateGenre(id, input)

  /** The request/response pair of one request, as far as a handler acts on it. */
  class Exchange {
    /** The service calls made so far, in order. */
    var calls: seq<Call>
    /** The responses sent so far, in order. */
    var sent: seq<Response>
    /** The arguments `next` has been called with so far, in order. */
    var forwarded: seq<Forwarded>

    constructor ()
      ensures calls == [] && sent == [] && forwarded == []
    {
      calls, sent, forwarded := [], [], [];
    }

    /** Await a service call. */
    method Invoke(c: Call)
      modifies this
      ensures calls == old(calls) + [c] && sent == old(sent) && forwarded == old(forwarded)
    {
      calls := calls + [c];
    }

    /** Send a response through `res`. */
    method Send(r: Response)
      modifies this
      ensures calls == old(calls) && sent == old(sent) + [r] && forwarded == old(forwarded)
    {
      sent := sent + [r];
    }

    /** Call `next(f)`. */
    method Next(f: Forwarded)
      modifies this
      ensures calls == old(calls) && sent == old(sent) && forwarded == old(forwarded) + [f]
    {
      forwarded := forwarded + [f];
    }
  }

  /** The handler made exactly the calls `made`, sent `r` and did not call `next`. */
  twostate predicate Responds(x: Exchange, made: seq<Call>, r: Response)
    reads x
  {
    x.calls == old(x.calls) + made && x.sent == old(x.sent) + [r] && x.forwarded == old(x.forwarded)
  }

  /** The handler made exactly the calls `made`, called `next(f)` once and sent nothing. */
  twostate predicate Fails(x: Exchange, made: seq<Call>, f: Forwarded)
    reads x
  {
    x.calls == old(x.calls) + made && x.sent == old(x.sent) && x.forwarded == old(x.forwarded) + [f]
  }

  /** `new ApiError("<resource> not found", 404)`. */
  function NotFound(resource: string): ApiError
  {
    ApiError(resource + " not found", 404)
  }

  /**
    The catch block of the create and update handlers: a MongoError with code
    11000 (duplicate key) becomes 409 "<resource> already exists"; anything
    else is passed on unchanged.
   */
  function DuplicateKeyAs(resource: string, t: Thrown): (f: Forwarded)
    ensures f.Api? <==> t == MongoError(11000)
    ensures f.Api? ==> f.err == ApiError(resource + " already exists", 409)
    ensures f.Raw? ==> f.thrown == t
  {
    if t.MongoError? && t.code == 11000 then Api(ApiError(resource + " already exists", 409))
    else Raw(t)
  }

  /** The object literal `{ k1, k2, ... }` built from the body's keys `keys`: the body restricted to them. */
  function Pick(body: Body, keys: set<string>): (r: Body)
    ensures r.Keys == body.Keys * keys
    ensures forall k :: k in r ==> r[k] == body[k]
  {
    map k | k in body && k in keys :: body[k]
  }
}
