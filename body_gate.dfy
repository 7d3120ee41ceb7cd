/**
  The validateBody middleware: an empty body is refused before the schema is
  consulted; any other body is refused with the schema's message when the
  schema rejects it, and let through otherwise.
 */
module BodyGate {
  import opened Wrappers
  import opened Joi
  import opened Http
  import opened InputSchemas

  /** The one call of `next` the middleware makes: `next()` or `next(error)`. */
  datatype Gate = Continue | Reject(err: ApiError)

  /** genreInputSchema.validate */
  ghost function GenreInputSchema(body: Body): Result<Body, string>
  {
    Validate(GenreInputShape, body)
  }

  /** movieInputSchema.validate */
  ghost function MovieInputSchema(body: Body): Result<Body, string>
  {
    Validate(MovieInputShape, body)
  }

  /**
    validateBody(schema) applied to a request body. Every refusal is a 400;
    an empty body is refused with "Invalid input" whatever the schema would
    say; only a non-empty body the schema accepts continues. The body itself
    is left as it was: only the schema's error is used.
   */
  function ValidateBody(schema: Body -> Result<Body, string>, body: Body): (g: Gate)
    ensures g.Reject? ==> g.err.status == 400
    ensures g == Continue <==> body != map[] && schema(body).Ok?
    ensures body == map[] ==> g.err.message == "Invalid input"
    ensures body != map[] && schema(body).Err? ==> g.err.message == schema(body).error
  {
    if |body| == 0 then Reject(ApiError("Invalid input", 400))
    else match schema(body)
      case Err(message) => Reject(ApiError(message, 400))
      case Ok(_) => Continue
  }

  /** A genre body gets past the middleware exactly when it is `name` alone, a string of 3 to 30 characters. */
  lemma GenreBodyContinues(body: Body)
    ensures ValidateBody(GenreInputSchema, body) == Continue <==>
              TextWithin(body, "name", 3, 30) && body.Keys <= {"name"}
  {
    GenreInputAccepted(body);
    if TextWithin(body, "name", 3, 30) {
      assert "name" in body;
    }
  }

  /** A movie body gets past the middleware exactly when every field is within its bounds and there is no other key. */
  lemma MovieBodyContinues(body: Body)
    ensures ValidateBody(MovieInputSchema, body) == Continue <==>
              TextWithin(body, "title", 3, 30) && TextWithin(body, "description", 3, 100) &&
              GenreItemsWithin(body) && DurationWithin(body) && body.Keys <= MovieInputKeys
  {
    MovieInputAccepted(body);
    if TextWithin(body, "title", 3, 30) {
      assert "title" in body;
    }
  }

  /**
    No movie body carrying `releaseDate` gets past the middleware, so the
    release date the movie controller reads never reaches it through the routes.
   */
  lemma MovieBodyWithReleaseDateRejected(body: Body)
    requires "releaseDate" in body
    ensures ValidateBody(MovieInputSchema, body).Reject?
    ensures ValidateBody(MovieInputSchema, body).err.status == 400
  {
    MovieBodyContinues(body);
  }
}
