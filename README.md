# Movies and genres API: a Dafny model

This project models the logic of a small REST API over movies and genres, in three parts.

- **Flat-file stores.** `services/movies.ts`, its older JavaScript twin `services/movies.js`, and the read-only `services/genres.js` each read the whole JSON list. They find, filter, append to or update that list, and write the whole list back. Each movie store is a class whose `movies` field is the parsed file. A `writes` counter makes every rewrite of the file observable. The genre store is a set of functions of the parsed list. The two Array operations they use, `find` and `filter`, are modelled once, in `JsArrays`. There `FirstIndex` is the position of the object `find` returns: `updateMovie` changes that object in place, which the model writes as `movies[i := …]`.
- **Request handlers.** The movie and genre controllers are methods over an `Exchange`. An `Exchange` records the service calls a handler awaits, the responses it sends and the errors it passes to `next`. Each service call's settled result is a parameter: resolved with a value, or rejected with a `MongoError` code or another error.
- **Input validation.** The Joi schemas are restated as field descriptors: a type, inclusive bounds, a required flag and a custom "missing" message. One `Validate(shape, body)` checks them and reports the first failing field's message. The `validateBody` middleware is modelled as a function of the schema and the body.

## Model

| member | source | states |
|---|---|---|
| `JsArrays.Find` | src/services/movies.ts:27 | `find` yields the first element in order satisfying the callback, or `undefined` exactly when none does |
| `JsArrays.FirstIndex` | src/services/movies.ts:62 | the least index whose element satisfies the callback: the position of the object `find` returns, which `updateMovie` then changes in place |
| `JsArrays.Filter` | src/services/movies.ts:32-34 | `filter` keeps only elements satisfying the callback, all of them, and never grows the list |
| `FlatMovies.FromInput` | src/services/movies.ts:42-48 | the new record carries the given id and exactly the four input fields, which can be read back unchanged |
| `FlatMovies.RemovedExactly` | src/services/movies.ts:30-36 | the list removeMovie writes back holds each movie with another id as often as before and none with the given id; with no movie of that id it is the stored list itself |
| `FlatMovies.RemovePreservesOrder` | src/services/movies.ts:32-34 | removal distributes over concatenation, so the kept movies keep their relative order |
| `FlatMovies.RemovePreservesUniqueIds` | src/services/movies.ts:30-36 | removal never makes two ids collide |
| `FlatMovies.AppendFreshPreservesUniqueIds` | src/services/movies.ts:42-49 | appending a movie with an unused id keeps ids unique |
| `FlatMovies.MovieFile.ReadMovies` | src/services/movies.ts:14-17 | reading returns the stored list |
| `FlatMovies.MovieFile.WriteMovies` | src/services/movies.ts:10-12 | writing replaces the whole list and counts one write |
| `FlatMovies.MovieFile.GetMovies` | src/services/movies.ts:19-21 | getMovies returns the stored list unchanged |
| `FlatMovies.MovieFile.GetMovieById` | src/services/movies.ts:23-28 | getMovieById returns the first movie in list order with that id, or `undefined` exactly when no movie has it |
| `FlatMovies.MovieFile.RemoveMovie` | src/services/movies.ts:30-36 | removeMovie writes back the filtered list (one write, even when nothing matched) and keeps ids unique |
| `FlatMovies.MovieFile.AddMovie` | src/services/movies.ts:38-53 | addMovie appends exactly one record with the new id and the input's four fields, returns it and leaves earlier records untouched; ids stay unique when the new id is unused |
| `FlatMovies.MovieFile.UpdateMovie` | src/services/movies.ts:55-74 | on a stored id, only the four input fields of the first match change; it keeps its id and position, the length is kept, and the list is written once. On an absent id the result is `undefined` and nothing is written |
| `LegacyMovies.LegacyMovieFile.ReadMovies` | src/services/movies.js:11-14 | reading returns the stored list |
| `LegacyMovies.LegacyMovieFile.WriteMovies` | src/services/movies.js:7-9 | writing replaces the whole list and counts one write |
| `LegacyMovies.LegacyMovieFile.GetMovies` | src/services/movies.js:16-18 | getMovies returns the stored list unchanged |
| `LegacyMovies.LegacyMovieFile.GetMovieById` | src/services/movies.js:20-23 | the first movie with that id, or `undefined` exactly when none has it |
| `LegacyMovies.LegacyMovieFile.RemoveMovie` | src/services/movies.js:25-29 | writes back exactly the movies with other ids, in order |
| `LegacyMovies.LegacyMovieFile.AddMovie` | src/services/movies.js:31-40 | appends one record with the generated id and the four input fields, and returns it |
| `LegacyMovies.LegacyMovieFile.UpdateMovie` | src/services/movies.js:42-54 | there is no guard. For a stored id, the first match gets the four input fields and keeps its id and position, the other records are unchanged, the list is written once, and the changed record is returned. For any other id it throws a TypeError before anything is written |
| `LegacyMovies.UnknownIdThrows` | src/services/movies.js:46-47 | on any file that does not hold the id, the update throws a TypeError; the list is unchanged and nothing is written |
| `FlatMovies.UnknownIdNotFound` | src/services/movies.ts:62-73 | on any file that does not hold the id, the update answers `undefined`; the list is unchanged and nothing is written |
| `FlatGenres.GetGenres` | src/services/genres.js:11-13 | getGenres returns the stored list unchanged |
| `FlatGenres.GetGenreById` | src/services/genres.js:15-18 | the first genre with that id, or `undefined` exactly when none has it |
| `Joi.CheckText` | src/schemas/genreInputSchema.ts:4-6 | a string rule passes exactly for a non-empty string within its inclusive length bounds that matches its pattern, if it has one |
| `Joi.CheckItems` | src/schemas/movieInputSchema.ts:14 | an array passes its item rule exactly when every item does |
| `Joi.CheckValue` | src/schemas/movieInputSchema.ts:14-19 | a present value passes a string rule exactly when it is a non-empty string within the bounds that matches the rule's pattern, if it has one. It passes an integer rule exactly when it is a whole number within the inclusive bounds, a list rule exactly when it is an array whose every item passes, and a date rule exactly when it is a Date, a timestamp or a date string. A wrong type gets Joi's type message (`InputSchemas.MovieFieldsWithin` and `InputSchemas.DurationWithin` give its meaning on the movie schema) |
| `Joi.CheckField` | src/schemas/movieInputSchema.ts:4-8 | a missing optional field passes. A missing required field fails with its `any.required` override, or with `"k" is required` when it has none. A present field is judged by its rule alone |
| `Joi.FirstFailure` | src/schemas/movieInputSchema.ts:3-20 | fields are checked in declaration order; the result is the first failing field's message, and none exactly when every field passes |
| `Joi.Validate` | src/schemas/movieInputSchema.ts:3-20 | a body passes exactly when every declared field passes and it has no undeclared key; the result is then the body itself. Otherwise the error is the first failing field's message, or, when all fields pass, the message `"k" is not allowed` for an undeclared key k |
| `Joi.FirstFailureReported` | src/schemas/movieInputSchema.ts:3-20 | the first failing field decides the message, whatever later fields and extra keys hold |
| `Joi.UndeclaredKeyReported` | src/schemas/movieInputSchema.ts:3 | when every field passes and there is exactly one undeclared key, that key is the one named |
| `InputSchemas.GenreInputShape` | src/schemas/genreInputSchema.ts:3-9 | the genre schema: one required string field `name`, 3 to 30 characters, with the message "Missing required name field" when it is missing |
| `InputSchemas.MovieInputShape` | src/schemas/movieInputSchema.ts:3-20 | the movie schema as written: title (3 to 30), description (3 to 100), genre (an array of strings of 3 to 30) and duration (an integer from 1 to 500), all required, each with its own missing message |
| `InputSchemas.MovieInputShapeIntended` | src/__tests__/schemas/movieInputSchema.test.ts:5-89 | the movie schema the tests expect: title and description as above, a required release date, and genre ids of 24 hexadecimal digits |
| `InputSchemas.GenreInputAccepted` | src/schemas/genreInputSchema.ts:3-9 | a genre body passes exactly when `name` is a string of 3 to 30 characters, bounds included, and there is no other key; the accepted value equals the input |
| `InputSchemas.GenreNameMissing` | src/schemas/genreInputSchema.ts:7-8 | no `name`: "Missing required name field" |
| `InputSchemas.GenreNameNotString` | src/schemas/genreInputSchema.ts:4 | a non-string `name`: `"name" must be a string` |
| `InputSchemas.GenreNameTooShort` | src/schemas/genreInputSchema.ts:5 | a name of 1 or 2 characters: the at-least-3 message |
| `InputSchemas.GenreNameTooLong` | src/schemas/genreInputSchema.ts:6 | a name over 30 characters: the at-most-30 message |
| `InputSchemas.MovieInputAccepted` | src/schemas/movieInputSchema.ts:3-20 | a movie body passes exactly when title is 3 to 30 characters, description 3 to 100, every genre entry a string of 3 to 30, and duration a whole number from 1 to 500, with no other key |
| `InputSchemas.MovieTitleMissing` | src/schemas/movieInputSchema.ts:4-8 | no `title`: "Missing required title field", whatever else the body holds |
| `InputSchemas.MovieTitleNotString` | src/__tests__/schemas/movieInputSchema.test.ts:13-19 | a non-string title: `"title" must be a string` |
| `InputSchemas.MovieTitleTooShort` | src/__tests__/schemas/movieInputSchema.test.ts:36-45 | a title of 1 or 2 characters gives `"title" length must be at least 3 characters long`, whatever the other fields hold |
| `InputSchemas.MovieTitleTooLong` | src/__tests__/schemas/movieInputSchema.test.ts:47-59 | a title over 30 characters gives `"title" length must be less than or equal to 30 characters long`, whatever the other fields hold |
| `InputSchemas.MovieDescriptionMissing` | src/schemas/movieInputSchema.ts:9-13 | valid title, no description: "Missing required description field" |
| `InputSchemas.MovieGenreNotArray` | src/schemas/movieInputSchema.ts:14-16 | valid title and description, a non-array genre: `"genre" must be an array` |
| `InputSchemas.MockMovieRejected` | src/schemas/movieInputSchema.ts:17-19 | the schema as written refuses the tests' valid movie input with "Missing required duration field" |
| `InputSchemas.MovieReleaseDateNotAllowed` | src/schemas/movieInputSchema.ts:3-20 | a body with all four fields valid and `releaseDate` as well is refused with `"releaseDate" is not allowed` |
| `InputSchemas.MockMovieAccepted` | src/__tests__/schemas/movieInputSchema.test.ts:6-11 | the shape the tests expect accepts that input and returns it unchanged |
| `InputSchemas.IntendedReleaseDateInvalid` | src/__tests__/schemas/movieInputSchema.test.ts:61-70 | in that shape, the text "Release date" gives `"releaseDate" must be a valid date` |
| `InputSchemas.IntendedGenrePattern` | src/__tests__/schemas/movieInputSchema.test.ts:80-89 | in that shape, a genre entry "123" gives the 24-hex pattern message labelled `"genre[0]"` |
| `BodyGate.ValidateBody` | src/middlewares/validateBody.ts:8-22 | every refusal is a 400. An empty body gets "Invalid input", whatever the schema says. Otherwise the schema's message is used. Only a non-empty body the schema accepts continues |
| `BodyGate.GenreBodyContinues` | src/routes/genres.ts:96 | a genre body gets past the middleware exactly when it holds only `name`, a string of 3 to 30 characters |
| `BodyGate.MovieBodyContinues` | src/routes/movies.ts:95 | a movie body gets past the middleware exactly when all four fields are within bounds and there is no other key |
| `BodyGate.MovieBodyWithReleaseDateRejected` | src/routes/movies.ts:95 | no movie body that carries `releaseDate` gets past the middleware; it is refused with a 400 |
| `Http.Pick` | src/controllers/movies.ts:47-60 | the object built from the body's named keys has exactly those of the keys the body holds, each with the body's value |
| `MovieController.CountStored` | src/services/genres.ts:33-35 | the number of stored genres whose id is listed; never more than the list is long, nor more than the genres stored |
| `Http.DuplicateKeyAs` | src/controllers/movies.ts:62-67 | a `MongoError` with code 11000, and only that, becomes 409 "<resource> already exists"; anything else is forwarded unchanged |
| `MovieController.GenreCountMatches` | src/controllers/movies.ts:48-53 | when the count counts stored genres, it equals the list's length exactly when every listed genre is stored and none is listed twice |
| `MovieController.UnknownOrRepeatedGenreRejected` | src/controllers/movies.ts:48-53 | a genre list that names a genre not stored, or names one twice, is refused with 404 "Genre not found" after the count alone; nothing is created |
| `MovieController.GetMovies` | src/controllers/movies.ts:8-19 | responds with the service's list as is, or forwards the failure unchanged |
| `MovieController.GetMovieById` | src/controllers/movies.ts:21-39 | absent: 404 "Movie not found" and no response; present: the record as is and no `next` |
| `MovieController.CreateMovie` | src/controllers/movies.ts:41-69 | genres are counted first. On a mismatch: 404 "Genre not found", and no create call. Otherwise exactly `{title, description, releaseDate, genre}` is passed on, and the result is 201 with the movie. Every rejection goes through the 11000 mapping |
| `MovieController.RemoveMovie` | src/controllers/movies.ts:71-90 | the lookup comes first. Absent: 404, and no delete. Present: delete, then 200 |
| `MovieController.UpdateMovie` | src/controllers/movies.ts:92-127 | the genre check comes before any update. A null result gives 404 "Movie not found". Success responds with the movie. Rejections are mapped as in create |
| `GenreController.GetGenres` | src/controllers/genres.ts:7-18 | responds with the service's list as is, or forwards the failure unchanged |
| `GenreController.GetGenreById` | src/controllers/genres.ts:20-38 | absent: 404 "Genre not found"; present: the record as is |
| `GenreController.CreateGenre` | src/controllers/genres.ts:40-56 | exactly `{name}` is passed on. Success gives 201. Code 11000 gives 409 "Genre already exists". Other errors are forwarded unchanged |
| `GenreController.RemoveGenre` | src/controllers/genres.ts:58-77 | the lookup comes first. Absent: 404, and no delete. Present: delete, then 200 |
| `GenreController.UpdateGenre` | src/controllers/genres.ts:79-102 | exactly `{name}` is passed on. A null result gives 404 "Genre not found". Success responds with the genre. Rejections are mapped as in create |

In every handler, the `Responds` and `Fails` predicates say that the handler either sends exactly one response and does not call `next`, or calls `next` exactly once and sends nothing. `ValidateBody` yields one `Gate`, which stands for its single call of `next`; it returns no body, so the request body is never replaced.

## Findings

| source | as written | input that shows it | evidently intended | confidence | as-written member | corrected member |
|---|---|---|---|---|---|---|
| src/schemas/movieInputSchema.ts:17-19 | the movie schema requires `duration` and declares no `releaseDate` | the tests' valid movie input `{title: "The Matrix", description: "The true nature of reality.", releaseDate: 2023-03-31, genre: ["652f0744373e017388151858"]}` is refused with "Missing required duration field". With a duration added, it is refused with `"releaseDate" is not allowed` (`InputSchemas.MovieReleaseDateNotAllowed`), so the release date the controllers read never passes `validateBody` | the fields the schema tests, the controllers (src/controllers/movies.ts:47) and the Movie model (src/models/Movie.ts:20-23) use: title, description, a release date and genre ids of 24 hexadecimal digits | high; not executed | `InputSchemas.MockMovieRejected` | `InputSchemas.MockMovieAccepted` |
| src/services/movies.js:46-47 | legacy `updateMovie` assigns to the result of `find` without checking it | a PUT to `/api/movies/<id>` with a valid body and an id not in the file: `find` yields `undefined`, the first assignment throws a TypeError, the route passes it to `next` (src/routes/movies.js:286-295), and the app answers 500 "Internal server error" (src/app.js:93-98) | return `undefined` without writing, as the TypeScript service does (src/services/movies.ts:64-73); the route documents 404 "Movie not found" for this case (src/routes/movies.js:272-282) | high; not executed | `LegacyMovies.UnknownIdThrows` | `FlatMovies.UnknownIdNotFound` |

For the first row, `InputSchemas.MovieInputShapeIntended` is the corrected shape. `InputSchemas.MovieInputShape` keeps the schema as written, because `BodyGate.MovieInputSchema` and the routes use it. For the second row, the legacy route and `app.js` are not part of this model; they are cited only for what the thrown error becomes.

## Left out

- File I/O and JSON parsing in the flat-file services: the parsed file is the `movies` field, or the `genres` argument.
- `generate-unique-id` is a foreign call. The new id is a parameter of `AddMovie`.
- FlatMovies.MovieFile.AddMovie: the model does not assume the generated id is unused. It only promises unique ids when the id is unused.
- Records are values. The object identity shared by the list entry and the record `updateMovie` returns is not modelled. Only their equal contents are.
- MovieController.CreateMovie: requires `genre` to be an array. In the routes, `validateBody(movieInputSchema)` has already refused any other body. A direct call with another body is not modelled.
- MovieController.UpdateMovie: the same requirement on `genre`, for the same reason.
- The Mongoose services (`src/services/genres.ts`, the movie service the controllers call) are one-line database calls. Their results are the `Reply` parameters of the handlers. `countGenres` is given a meaning only in `MovieController.CountStored`: the number of stored genres whose id is listed.
- Http.Pick: the shorthand object literal keeps a key the body lacks, with the value `undefined`; `Pick` leaves such a key out. The database layer and the JSON response treat the two alike.
- Joi.Validate: the accepted value is the body itself. In Joi's default convert mode, `Joi.date()` replaces an accepted date string or timestamp with a Date object. This concerns only `InputSchemas.MovieInputShapeIntended`: `validateBody` uses only the error, never the converted value.
- The uniqueness of genre names and of movie (title, release date) is enforced by the database. Only the mapping of its duplicate-key error (11000) to 409 is modelled.
- `validateId`, the routers, Swagger, `app.ts` and its final error-to-status handler, and `getMoviesByGenre` are not modelled. The tests name `getMoviesByGenre`, but no controller defines it.
- Read-side resolution of genre ids to genre documents happens in the database and is not modelled.
- Joi.Validate: with several undeclared keys, Joi names the first in the body's key order. A body here is a map with no key order, so the model promises only that one of them is named.
- Joi behaviour the schemas do not state is left out:
  - numeric strings are not converted to numbers;
  - lengths count characters, not UTF-16 code units;
  - unsafe integers are not refused.
- Joi.IsDateText: only the form `YYYY-MM-DD` is modelled, with a month from 01 to 12 and a day from 01 to 31. Date strings with a time part, numeric timestamp strings and the other formats JavaScript's Date parser accepts are refused here, although Joi accepts them. A day past the month's end (2023-02-31) is accepted here; what JavaScript's parser does with it is not modelled. Numbers and Date objects are accepted without a range check.
- Messages that no test asserts (empty string, number type, integer and range messages) follow Joi's English templates. Their exact wording is not a property of this model.
- Promises, the async interleaving of requests, and lost updates between concurrent read-modify-write cycles are not modelled. Each handler and service call is one sequential run.
