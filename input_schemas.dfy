/**
  The two request-body schemas, genre input and movie input, as field
  descriptors, and what they accept and reject. A second movie shape records
  the rules the movie-schema tests expect but the schema file does not declare.
 */
module InputSchemas {
  import opened Wrappers
  import opened Joi

  /** genreInputSchema: a required string `name` of 3 to 30 characters. */
  const GenreInputShape: Shape :=
    [Field("name", Text(TextRule(3, 30, None)), true, Some("Missing required name field"))]

  const TitleField := Field("title", Text(TextRule(3, 30, None)), true, Some("Missing required title field"))
  const DescriptionField :=
    Field("description", Text(TextRule(3, 100, None)), true, Some("Missing required description field"))

  /** movieInputSchema as written: title, description, genre[] and duration, all required. */
  const MovieInputShape: Shape := [
    TitleField,
    DescriptionField,
    Field("genre", TextList(TextRule(3, 30, None)), true, Some("Missing required genre field")),
    Field("duration", Integer(1, 500), true, Some("Missing required duration field"))
  ]

  /**
    The movie input the schema tests, the controllers and the Movie model
    expect: a release date instead of a duration, and genre ids that are
    24-digit hexadecimal strings.
   */
  const MovieInputShapeIntended: Shape := [
    TitleField,
    DescriptionField,
    Field("releaseDate", Date, true, None),
    Field("genre", TextList(TextRule(3, 30, Some(ObjectIdHex))), true, Some("Missing required genre field"))
  ]

  /** The keys movieInputSchema declares. */
  const MovieInputKeys: set<string> := {"title", "description", "genre", "duration"}

  /** The keys the movie shape of the tests declares. */
  const MovieInputKeysIntended: set<string> := {"title", "description", "releaseDate", "genre"}

  /** For a shape whose declared keys are `keys`, the undeclared keys of a body are its keys outside `keys`. */
  lemma UndeclaredKeys(shape: Shape, body: Body, keys: set<string>)
    requires forall k :: Declares(shape, k) <==> k in keys
    ensures Undeclared(shape, body) == body.Keys - keys
    ensures Undeclared(shape, body) == {} <==> body.Keys <= keys
  {
    if !(body.Keys <= keys) {
      var k :| k in body && k !in keys;
      assert k in Undeclared(shape, body);
    }
  }

  lemma GenreInputDeclares()
    ensures forall k :: Declares(GenreInputShape, k) <==> k in {"name"}
  {
    assert GenreInputShape[0].name == "name";
  }

  lemma MovieInputDeclares()
    ensures forall k :: Declares(MovieInputShape, k) <==> k in MovieInputKeys
  {
    assert MovieInputShape[0].name == "title";
    assert MovieInputShape[1].name == "description";
    assert MovieInputShape[2].name == "genre";
    assert MovieInputShape[3].name == "duration";
  }

  lemma MovieInputIntendedDeclares()
    ensures forall k :: Declares(MovieInputShapeIntended, k) <==> k in MovieInputKeysIntended
  {
    assert MovieInputShapeIntended[0].name == "title";
    assert MovieInputShapeIntended[1].name == "description";
    assert MovieInputShapeIntended[2].name == "releaseDate";
    assert MovieInputShapeIntended[3].name == "genre";
  }

  /** A present string value whose length lies within the inclusive bounds. */
  predicate TextWithin(body: Body, key: string, lo: nat, hi: nat)
  {
    key in body && body[key].Str? && lo <= |body[key].s| <= hi
  }

  // ---- genre input ----

  /**
    A genre body passes exactly when `name` is a string of 3 to 30 characters
    and the body has no other key; it is then returned as is.
   */
  lemma {:induction false} GenreInputAccepted(body: Body)
    ensures Validate(GenreInputShape, body).Ok? <==> TextWithin(body, "name", 3, 30) && body.Keys <= {"name"}
    ensures Validate(GenreInputShape, body).Ok? ==> Validate(GenreInputShape, body).value == body
  {
    GenreInputDeclares();
    UndeclaredKeys(GenreInputShape, body, {"name"});
    assert GenreInputShape[0].rule.text == TextRule(3, 30, None);
    if TextWithin(body, "name", 3, 30) {
      assert CheckField(GenreInputShape[0], body).None?;
    }
  }

  /** Without `name` the message is the custom one. */
  lemma GenreNameMissing(body: Body)
    requires "name" !in body
    ensures Validate(GenreInputShape, body) == Err("Missing required name field")
  {
    assert CheckField(GenreInputShape[0], body) == Some("Missing required name field");
  }

  /** A `name` that is not a string is refused as such. */
  lemma GenreNameNotString(body: Body)
    requires "name" in body && !body["name"].Str?
    ensures Validate(GenreInputShape, body) == Err("\"name\"" + " must be a string")
  {
    assert Quoted("name") == "\"name\"";
    assert CheckField(GenreInputShape[0], body).Some?;
  }

  /** A non-empty `name` under 3 characters is refused with the minimum-length message. */
  lemma GenreNameTooShort(body: Body)
    requires "name" in body && body["name"].Str? && 0 < |body["name"].s| < 3
    ensures Validate(GenreInputShape, body) ==
            Err("\"name\"" + " length must be at least " + "3" + " characters long")
  {
    assert Quoted("name") == "\"name\"";
    assert NatToString(3) == "3";
    assert CheckField(GenreInputShape[0], body).Some?;
  }

  /** A `name` over 30 characters is refused with the maximum-length message. */
  lemma GenreNameTooLong(body: Body)
    requires "name" in body && body["name"].Str? && |body["name"].s| > 30
    ensures Validate(GenreInputShape, body) ==
            Err("\"name\"" + " length must be less than or equal to " + "30" + " characters long")
  {
    assert Quoted("name") == "\"name\"";
    assert NatToString(30) == "30";
    assert CheckField(GenreInputShape[0], body).Some?;
  }

  // ---- movie input ----

  /** A present array of strings, each of 3 to 30 characters. */
  predicate GenreItemsWithin(body: Body)
  {
    && "genre" in body && body["genre"].Arr?
    && forall i :: 0 <= i < |body["genre"].items| ==>
         body["genre"].items[i].Str? && 3 <= |body["genre"].items[i].s| <= 30
  }

  /** A present whole number from 1 to 500. */
  predicate DurationWithin(body: Body)
  {
    && "duration" in body && body["duration"].Num?
    && body["duration"].x.Floor as real == body["duration"].x
    && 1.0 <= body["duration"].x <= 500.0
  }

  /** The genre field passes exactly when it is an array of strings of 3 to 30 characters. */
  lemma GenreFieldWithin(body: Body)
    ensures CheckField(MovieInputShape[2], body).None? <==> GenreItemsWithin(body)
  {
    var genre := MovieInputShape[2];
    assert genre.rule == TextList(TextRule(3, 30, None));
    if "genre" in body && body["genre"].Arr? {
      var items := body["genre"].items;
      assert CheckField(genre, body) == CheckItems("genre", TextRule(3, 30, None), items, 0);
    }
  }

  /** Every declared movie field passes exactly when the four fields are within their bounds. */
  lemma MovieFieldsWithin(body: Body)
    ensures (forall i :: 0 <= i < |MovieInputShape| ==> CheckField(MovieInputShape[i], body).None?) <==>
              TextWithin(body, "title", 3, 30) && TextWithin(body, "description", 3, 100) &&
              GenreItemsWithin(body) && DurationWithin(body)
  {
    GenreFieldWithin(body);
    assert CheckField(MovieInputShape[0], body).None? <==> TextWithin(body, "title", 3, 30);
    assert CheckField(MovieInputShape[1], body).None? <==> TextWithin(body, "description", 3, 100);
    assert CheckField(MovieInputShape[3], body).None? <==> DurationWithin(body);
  }

  /**
    A movie body passes exactly when title (3 to 30 characters), description
    (3 to 100), every genre entry (3 to 30) and duration (a whole number from 1
    to 500) are all within bounds and the body has no other key; it is then
    returned as is.
   */
  lemma {:induction false} MovieInputAccepted(body: Body)
    ensures Validate(MovieInputShape, body).Ok? <==>
              TextWithin(body, "title", 3, 30) && TextWithin(body, "description", 3, 100) &&
              GenreItemsWithin(body) && DurationWithin(body) && body.Keys <= MovieInputKeys
    ensures Validate(MovieInputShape, body).Ok? ==> Validate(MovieInputShape, body).value == body
  {
    MovieInputDeclares();
    UndeclaredKeys(MovieInputShape, body, MovieInputKeys);
    MovieFieldsWithin(body);
  }

  /** Without `title` the message is the custom one, whatever the other fields hold. */
  lemma MovieTitleMissing(body: Body)
    requires "title" !in body
    ensures Validate(MovieInputShape, body) == Err("Missing required title field")
  {
    FirstFailureReported(MovieInputShape, body, 0);
  }

  /** A `title` that is not a string is refused as such, whatever the other fields hold. */
  lemma MovieTitleNotString(body: Body)
    requires "title" in body && !body["title"].Str?
    ensures Validate(MovieInputShape, body) == Err("\"title\"" + " must be a string")
  {
    assert Quoted("title") == "\"title\"";
    FirstFailureReported(MovieInputShape, body, 0);
  }

  /** A non-empty `title` under 3 characters gets the minimum-length message, whatever the other fields hold. */
  lemma MovieTitleTooShort(body: Body)
    requires "title" in body && body["title"].Str? && 0 < |body["title"].s| < 3
    ensures Validate(MovieInputShape, body) ==
            Err("\"title\"" + " length must be at least " + "3" + " characters long")
  {
    assert Quoted("title") == "\"title\"";
    assert NatToString(3) == "3";
    FirstFailureReported(MovieInputShape, body, 0);
  }

  /** A `title` over 30 characters gets the maximum-length message, whatever the other fields hold. */
  lemma MovieTitleTooLong(body: Body)
    requires "title" in body && body["title"].Str? && |body["title"].s| > 30
    ensures Validate(MovieInputShape, body) ==
            Err("\"title\"" + " length must be less than or equal to " + "30" + " characters long")
  {
    assert Quoted("title") == "\"title\"";
    assert NatToString(30) == "30";
    FirstFailureReported(MovieInputShape, body, 0);
  }

  /** With a valid title and no `description`, the message is the custom one. */
  lemma MovieDescriptionMissing(body: Body)
    requires TextWithin(body, "title", 3, 30) && "description" !in body
    ensures Validate(MovieInputShape, body) == Err("Missing required description field")
  {
    FirstFailureReported(MovieInputShape, body, 1);
  }

  /** With a valid title and description, a `genre` that is not an array is refused as such. */
  lemma MovieGenreNotArray(body: Body)
    requires TextWithin(body, "title", 3, 30) && TextWithin(body, "description", 3, 100)
    requires "genre" in body && !body["genre"].Arr?
    ensures Validate(MovieInputShape, body) == Err("\"genre\"" + " must be an array")
  {
    assert Quoted("genre") == "\"genre\"";
    FirstFailureReported(MovieInputShape, body, 2);
  }

  // ---- the movie input of the schema tests ----

  /** 2023-03-31T00:00:00Z in milliseconds since the epoch. */
  const MockReleaseDate: int := 1680220800000

  /** The valid movie input of the tests: title, description, release date and one genre id. */
  const MockMovieInput: Body := map[
    "title" := Str("The Matrix"),
    "description" := Str("The true nature of reality."),
    "releaseDate" := Instant(MockReleaseDate),
    "genre" := Arr([Str("652f0744373e017388151858")])
  ]

  /** The schema as written refuses the tests' valid movie input: it has no duration. */
  lemma MockMovieRejected()
    ensures Validate(MovieInputShape, MockMovieInput) == Err("Missing required duration field")
  {
    var b := MockMovieInput;
    assert CheckField(MovieInputShape[0], b).None?;
    assert CheckField(MovieInputShape[1], b).None?;
    assert CheckItems("genre", TextRule(3, 30, None), b["genre"].items, 0).None?;
    FirstFailureReported(MovieInputShape, b, 3);
  }

  /** The 24-digit id of the tests' genre is a hexadecimal object id. */
  lemma MockGenreIdMatches()
    ensures Matches("652f0744373e017388151858", ObjectIdHex)
  {
    var s := "652f0744373e017388151858";
    forall i | 0 <= i < |s| ensures IsHexDigit(s[i]) {
    }
  }

  /** The shape the tests expect accepts their valid movie input and returns it unchanged. */
  lemma MockMovieAccepted()
    ensures Validate(MovieInputShapeIntended, MockMovieInput) == Ok(MockMovieInput)
  {
    var b := MockMovieInput;
    MockGenreIdMatches();
    assert CheckField(MovieInputShapeIntended[0], b).None?;
    assert CheckField(MovieInputShapeIntended[1], b).None?;
    assert CheckField(MovieInputShapeIntended[2], b).None?;
    assert CheckItems("genre", TextRule(3, 30, Some(ObjectIdHex)), b["genre"].items, 0).None?;
    assert CheckField(MovieInputShapeIntended[3], b).None?;
    MovieInputIntendedDeclares();
    UndeclaredKeys(MovieInputShapeIntended, b, MovieInputKeysIntended);
  }

  /** A body with the four declared keys and `releaseDate` has `releaseDate` as its one undeclared key. */
  lemma OnlyReleaseDateUndeclared(body: Body)
    requires body.Keys == MovieInputKeys + {"releaseDate"}
    ensures Undeclared(MovieInputShape, body) == {"releaseDate"}
  {
    MovieInputDeclares();
    UndeclaredKeys(MovieInputShape, body, MovieInputKeys);
    assert body.Keys - MovieInputKeys == {"releaseDate"};
  }

  /**
    The schema as written refuses the release date the controllers read: a
    body whose four declared fields all pass, with `releaseDate` as its only
    other key, is refused for that key.
   */
  lemma MovieReleaseDateNotAllowed(body: Body)
    requires TextWithin(body, "title", 3, 30) && TextWithin(body, "description", 3, 100)
    requires GenreItemsWithin(body) && DurationWithin(body)
    requires body.Keys == MovieInputKeys + {"releaseDate"}
    ensures Validate(MovieInputShape, body) == Err("\"releaseDate\"" + " is not allowed")
  {
    MovieFieldsWithin(body);
    OnlyReleaseDateUndeclared(body);
    UndeclaredKeyReported(MovieInputShape, body, "releaseDate");
    assert Quoted("releaseDate") == "\"releaseDate\"";
  }

  /** With a valid title and description, the text "Release date" is refused as not a date. */
  lemma IntendedReleaseDateInvalid(body: Body)
    requires TextWithin(body, "title", 3, 30) && TextWithin(body, "description", 3, 100)
    requires "releaseDate" in body && body["releaseDate"] == Str("Release date")
    ensures Validate(MovieInputShapeIntended, body) == Err("\"releaseDate\"" + " must be a valid date")
  {
    assert Quoted("releaseDate") == "\"releaseDate\"";
    assert !IsDateText("Release date");
    FirstFailureReported(MovieInputShapeIntended, body, 2);
  }

  /**
    With valid title, description and release date, a genre entry "123" is
    refused for not being a 24-digit hexadecimal id.
   */
  lemma IntendedGenrePattern(body: Body)
    requires TextWithin(body, "title", 3, 30) && TextWithin(body, "description", 3, 100)
    requires "releaseDate" in body && body["releaseDate"].Instant?
    requires "genre" in body && body["genre"] == Arr([Str("123")])
    ensures Validate(MovieInputShapeIntended, body) ==
            Err("\"genre[0]\"" + " with value " + "\"123\"" + " fails to match the required pattern: " +
                "/^[0-9a-fA-F]{24}$/")
  {
    assert NatToString(0) == "0";
    assert "genre" + "[" + "0" + "]" == "genre[0]";
    assert Quoted("genre[0]") == "\"genre[0]\"";
    assert Quoted("123") == "\"123\"";
    assert CheckField(MovieInputShapeIntended[3], body) ==
           CheckText("genre" + "[" + NatToString(0) + "]", TextRule(3, 30, Some(ObjectIdHex)), Str("123"));
    FirstFailureReported(MovieInputShapeIntended, body, 3);
  }
}
