/**
 * The request handlers of the Casting Agency: body validation, the PATCH
 * merge, DELETE, the list-building GET handlers, the error handlers, and
 * the dispatch of a request through the authorization guard.
 *
 * The database is a `Store` holding one map per table, from id to record.
 * A failing commit is the `commitFails` flag of the writing handlers.
 */
module App {
  import opened PyValues
  import opened Auth

  datatype Movie = Movie(id: nat, title: Value, releaseDate: Value)
  datatype Actor = Actor(id: nat, name: Value, age: Value, gender: Value)

  /** An HTTP response; `Null` stands for a body that Flask renders itself. */
  datatype Response = Response(status: int, body: Value)

  /** `{"id": movie.id, "title": movie.title, "release_date": movie.release_date}`. */
  function MovieEntry(m: Movie): Value {
    Obj(map["id" := Num(m.id), "title" := m.title, "release_date" := m.releaseDate])
  }

  /** An entry has exactly the three listed keys, and it identifies its record. */
  lemma MovieEntryInjective(a: Movie, b: Movie)
    ensures MovieEntry(a).Obj? && MovieEntry(a).fields.Keys == {"id", "title", "release_date"}
    ensures MovieEntry(a) == MovieEntry(b) <==> a == b
  {
  }

  /** `{"id": actor.id, "name": actor.name, "age": actor.age, "gender": actor.gender}`. */
  function ActorEntry(a: Actor): Value {
    Obj(map["id" := Num(a.id), "name" := a.name, "age" := a.age, "gender" := a.gender])
  }

  /** An entry has exactly the four listed keys, and it identifies its record. */
  lemma ActorEntryInjective(a: Actor, b: Actor)
    ensures ActorEntry(a).Obj? && ActorEntry(a).fields.Keys == {"id", "name", "age", "gender"}
    ensures ActorEntry(a) == ActorEntry(b) <==> a == b
  {
  }

  /** `{'success': True, key: value}`. */
  function SuccessBody(key: string, value: Value): Value {
    Obj(map["success" := Bool(true), key := value])
  }

  /** A success body holds `success` true and the value under its key, and nothing else. */
  lemma SuccessBodyFields(key: string, value: Value)
    requires key != "success"
    ensures SuccessBody(key, value).Obj?
    ensures SuccessBody(key, value).fields.Keys == {"success", key}
    ensures SuccessBody(key, value).fields["success"] == Bool(true)
    ensures SuccessBody(key, value).fields[key] == value
  {
  }

  /** `{'success': False, 'error': status, 'message': message}`. */
  function ErrorBody(status: int, message: string): Value {
    Obj(map["success" := Bool(false), "error" := Num(status), "message" := Str(message)])
  }

  /** An error body: unsuccessful, carrying its status and a message. */
  predicate IsErrorBody(body: Value, status: int) {
    && body.Obj?
    && body.fields.Keys == {"success", "error", "message"}
    && body.fields["success"] == Bool(false)
    && body.fields["error"] == Num(status)
    && body.fields["message"].Str?
  }

  // ---------------------------------------------------------------------
  // Error handlers
  // ---------------------------------------------------------------------

  /** The `@app.errorhandler(status)` table; None where no handler is registered. */
  function ErrorHandler(status: int): (r: Option<Value>)
    ensures r.Some? <==> status in {400, 404, 405, 422, 500}
    ensures r.Some? ==> IsErrorBody(r.value, status)
  {
    match status
    case 422 => Some(ErrorBody(422, "Not Processable"))
    case 404 => Some(ErrorBody(404, "Resource Not Found"))
    case 400 => Some(ErrorBody(400, "Bad Request"))
    case 500 => Some(ErrorBody(500, "Internal Server Error"))
    case 405 => Some(ErrorBody(405, "Method Not Allowed"))
    case _ => None
  }

  /** The messages the client sees for each handled status. */
  lemma ErrorMessages()
    ensures ErrorHandler(422) == Some(ErrorBody(422, "Not Processable"))
    ensures ErrorHandler(404) == Some(ErrorBody(404, "Resource Not Found"))
    ensures ErrorHandler(400) == Some(ErrorBody(400, "Bad Request"))
    ensures ErrorHandler(500) == Some(ErrorBody(500, "Internal Server Error"))
    ensures ErrorHandler(405) == Some(ErrorBody(405, "Method Not Allowed"))
  {
  }

  /** The response for `abort(status)`. */
  function HttpError(status: int): (r: Response)
    ensures r.status == status
    ensures status in {400, 404, 405, 422, 500} ==> IsErrorBody(r.body, status)
    ensures ErrorHandler(status).Some? ==> r.body == ErrorHandler(status).value
    ensures ErrorHandler(status).None? ==> r.body == Null
  {
    match ErrorHandler(status)
    case Some(body) => Response(status, body)
    case None => Response(status, Null)
  }

  /** `auth_error(e)`: the description becomes the message, the status the HTTP status. */
  function RenderAuthError(e: AuthError): (r: Response)
    ensures r.status == e.statusCode
    ensures IsErrorBody(r.body, e.statusCode)
    ensures r.body.fields["message"] == Str(e.description)
  {
    Response(e.statusCode, ErrorBody(e.statusCode, e.description))
  }

  /**
   * How Flask turns a handler's outcome into a response: a returned body is
   * sent with 200, an AuthError and an abort go to their handlers, and any
   * other exception goes to the 500 handler.
   */
  function Respond(outcome: Result<Value>): (r: Response)
    ensures outcome.Ok? ==> r == Response(200, outcome.value)
    ensures outcome.Raise? && outcome.exc.AuthErr? ==> r == RenderAuthError(outcome.exc.error)
    ensures outcome.Raise? && outcome.exc.Abort? ==> r == HttpError(outcome.exc.status)
    ensures outcome.Raise? && !outcome.exc.AuthErr? && !outcome.exc.Abort? ==> r == HttpError(500)
    ensures outcome.Raise? && (outcome.exc.Abort? ==> outcome.exc.status in {400, 404, 405, 422, 500}) ==>
      IsErrorBody(r.body, r.status)
  {
    match outcome
    case Ok(body) => Response(200, body)
    case Raise(AuthErr(e)) => RenderAuthError(e)
    case Raise(Abort(status)) => HttpError(status)
    case Raise(_) => HttpError(500)
  }

  // ---------------------------------------------------------------------
  // Body validation
  // ---------------------------------------------------------------------

  /** `add_movie`: index the body, then abort 422 unless both fields are truthy. */
  function NewMovieFields(body: map<string, Value>): (r: Result<(Value, Value)>)
    ensures r.Ok? <==>
      "title" in body && "release-date" in body && Truthy(body["title"]) && Truthy(body["release-date"])
    ensures r.Ok? ==> r.value == (body["title"], body["release-date"])
    ensures "title" in body && "release-date" in body && r.Raise? ==> r.exc == Abort(422)
    ensures "title" !in body ==> r == Raise(KeyError("title"))
    ensures "title" in body && "release-date" !in body ==> r == Raise(KeyError("release-date"))
  {
    if "title" !in body then Raise(KeyError("title"))
    else if "release-date" !in body then Raise(KeyError("release-date"))
    else if !Truthy(body["title"]) || !Truthy(body["release-date"]) then Raise(Abort(422))
    else Ok((body["title"], body["release-date"]))
  }

  /** `add_actor`: index the body, then abort 422 unless all three fields are truthy. */
  function NewActorFields(body: map<string, Value>): (r: Result<(Value, Value, Value)>)
    ensures r.Ok? <==>
      && "name" in body && "age" in body && "gender" in body
      && Truthy(body["name"]) && Truthy(body["age"]) && Truthy(body["gender"])
    ensures r.Ok? ==> r.value == (body["name"], body["age"], body["gender"])
    ensures "name" in body && "age" in body && "gender" in body && r.Raise? ==> r.exc == Abort(422)
    ensures "name" !in body ==> r == Raise(KeyError("name"))
    ensures "name" in body && "age" !in body ==> r == Raise(KeyError("age"))
    ensures "name" in body && "age" in body && "gender" !in body ==> r == Raise(KeyError("gender"))
  {
    if "name" !in body then Raise(KeyError("name"))
    else if "age" !in body then Raise(KeyError("age"))
    else if "gender" !in body then Raise(KeyError("gender"))
    else if !Truthy(body["name"]) || !Truthy(body["age"]) || !Truthy(body["gender"]) then Raise(Abort(422))
    else Ok((body["name"], body["age"], body["gender"]))
  }

  /**
   * `update_movie`'s two guards. The second indexes `body['title']` without
   * checking for it, so a body without a title never passes.
   */
  function CheckMoviePatch(body: map<string, Value>): (r: Result<()>)
    ensures r.Ok? <==>
      "title" in body && (body["title"] != Null || ("release-date" in body && body["release-date"] != Null))
    ensures "title" !in body && "release-date" !in body ==> r == Raise(Abort(422))
    ensures "title" !in body && "release-date" in body ==> r == Raise(KeyError("title"))
    ensures "title" in body && "release-date" in body && body["title"] == Null && body["release-date"] == Null ==>
      r == Raise(Abort(422))
    ensures "title" in body && body["title"] == Null && "release-date" !in body ==> r == Raise(KeyError("release-date"))
  {
    if "title" !in body && "release-date" !in body then Raise(Abort(422))
    else if "title" !in body then Raise(KeyError("title"))
    else if body["title"] != Null then Ok(())
    else if "release-date" !in body then Raise(KeyError("release-date"))
    else if body["release-date"] == Null then Raise(Abort(422))
    else Ok(())
  }

  /** `update_actor`'s two guards, with Python's short-circuit `and` over name, age, gender. */
  function CheckActorPatch(body: map<string, Value>): (r: Result<()>)
    ensures r.Ok? <==>
      && "name" in body
      && (body["name"] != Null ||
          ("age" in body && (body["age"] != Null || ("gender" in body && body["gender"] != Null))))
    ensures "name" !in body && "age" !in body && "gender" !in body ==> r == Raise(Abort(422))
    ensures "name" !in body && ("age" in body || "gender" in body) ==> r == Raise(KeyError("name"))
    ensures ("name" in body && "age" in body && "gender" in body &&
             body["name"] == Null && body["age"] == Null && body["gender"] == Null) ==> r == Raise(Abort(422))
    ensures "name" in body && body["name"] == Null && "age" !in body ==> r == Raise(KeyError("age"))
    ensures "name" in body && "age" in body && body["name"] == Null && body["age"] == Null && "gender" !in body ==>
      r == Raise(KeyError("gender"))
  {
    if "name" !in body && "age" !in body && "gender" !in body then Raise(Abort(422))
    else if "name" !in body then Raise(KeyError("name"))
    else if body["name"] != Null then Ok(())
    else if "age" !in body then Raise(KeyError("age"))
    else if body["age"] != Null then Ok(())
    else if "gender" !in body then Raise(KeyError("gender"))
    else if body["gender"] != Null then Ok(())
    else Raise(Abort(422))
  }

  /** `order` lists each key of the table exactly once (the query order of `query.all()`). */
  ghost predicate Enumerates(order: seq<nat>, keys: set<nat>) {
    && |order| == |keys|
    && (forall i :: 0 <= i < |order| ==> order[i] in keys)
    && (forall k :: k in keys ==> k in order)
  }

  // ---------------------------------------------------------------------
  // The database and the handlers
  // ---------------------------------------------------------------------

  class Store {
    var movies: map<nat, Movie>
    var actors: map<nat, Actor>
    var nextMovieId: nat
    var nextActorId: nat

    /** Every record sits under its own id, below the next id to hand out. */
    ghost predicate Valid()
      reads this
    {
      && (forall id :: id in movies ==> movies[id].id == id && id < nextMovieId)
      && (forall id :: id in actors ==> actors[id].id == id && id < nextActorId)
    }

    constructor ()
      ensures Valid()
      ensures movies == map[] && actors == map[]
    {
      movies, actors := map[], map[];
      nextMovieId, nextActorId := 1, 1;
    }

    /** GET /movies: one entry per stored movie, in query order. */
    method GetMovies(order: seq<nat>) returns (body: Value)
      requires Enumerates(order, movies.Keys)
      ensures body.Obj? && body.fields.Keys == {"success", "movies"}
      ensures body.fields["success"] == Bool(true)
      ensures body.fields["movies"].Arr? && |body.fields["movies"].items| == |movies|
      ensures forall i :: 0 <= i < |order| ==> body.fields["movies"].items[i] == MovieEntry(movies[order[i]])
      ensures forall id :: id in movies ==>
        exists i :: 0 <= i < |order| && body.fields["movies"].items[i] == MovieEntry(movies[id])
    {
      var moviesList: seq<Value> := [];
      for i := 0 to |order|
        invariant |moviesList| == i
        invariant forall j :: 0 <= j < i ==> moviesList[j] == MovieEntry(movies[order[j]])
      {
        moviesList := moviesList + [MovieEntry(movies[order[i]])];
      }
      body := SuccessBody("movies", Arr(moviesList));
      SuccessBodyFields("movies", Arr(moviesList));
      forall id | id in movies
        ensures exists i :: 0 <= i < |order| && moviesList[i] == MovieEntry(movies[id])
      {
        var i :| 0 <= i < |order| && order[i] == id;
        assert moviesList[i] == MovieEntry(movies[id]);
      }
    }

    /** GET /actors: the list of entries is wrapped in a one-element list. */
    method GetActors(order: seq<nat>) returns (body: Value)
      requires Enumerates(order, actors.Keys)
      ensures body.Obj? && body.fields.Keys == {"success", "actors"}
      ensures body.fields["success"] == Bool(true)
      ensures body.fields["actors"].Arr? && |body.fields["actors"].items| == 1
      ensures body.fields["actors"].items[0].Arr? && |body.fields["actors"].items[0].items| == |actors|
      ensures forall i :: 0 <= i < |order| ==>
        body.fields["actors"].items[0].items[i] == ActorEntry(actors[order[i]])
      ensures forall id :: id in actors ==>
        exists i :: 0 <= i < |order| && body.fields["actors"].items[0].items[i] == ActorEntry(actors[id])
    {
      var actorsList: seq<Value> := [];
      for i := 0 to |order|
        invariant |actorsList| == i
        invariant forall j :: 0 <= j < i ==> actorsList[j] == ActorEntry(actors[order[j]])
      {
        actorsList := actorsList + [ActorEntry(actors[order[i]])];
      }
      forall id | id in actors
        ensures exists i :: 0 <= i < |order| && actorsList[i] == ActorEntry(actors[id])
      {
        var i :| 0 <= i < |order| && order[i] == id;
        assert actorsList[i] == ActorEntry(actors[id]);
      }
      var wrapped := Arr([Arr(actorsList)]);
      assert wrapped.items[0].items == actorsList;
      body := SuccessBody("actors", wrapped);
      SuccessBodyFields("actors", wrapped);
    }

    /** POST /movies. Nothing is inserted unless validation and the commit succeed. */
    method AddMovie(body: map<string, Value>, commitFails: bool) returns (r: Result<Value>)
      requires Valid()
      modifies this
      ensures Valid()
      ensures NewMovieFields(body).Raise? ==> r == Raise(NewMovieFields(body).exc) && unchanged(this)
      ensures NewMovieFields(body).Ok? && commitFails ==> r == Raise(Abort(422)) && unchanged(this)
      ensures NewMovieFields(body).Ok? && !commitFails ==>
        var movie := Movie(old(nextMovieId), body["title"], body["release-date"]);
        && movie.id !in old(movies)
        && movies == old(movies)[movie.id := movie]
        && actors == old(actors) && nextActorId == old(nextActorId)
        && r == Ok(SuccessBody("movie", MovieEntry(movie)))
    {
      var fields := NewMovieFields(body);
      if fields.Raise? {
        r := Raise(fields.exc);
        return;
      }
      var (title, releaseDate) := fields.value;
      if commitFails {
        r := Raise(Abort(422));
        return;
      }
      var movie := Movie(nextMovieId, title, releaseDate);
      movies := movies[movie.id := movie];
      nextMovieId := nextMovieId + 1;
      r := Ok(SuccessBody("movie", MovieEntry(movie)));
    }

    /** POST /actors. Nothing is inserted unless validation and the commit succeed. */
    method AddActor(body: map<string, Value>, commitFails: bool) returns (r: Result<Value>)
      requires Valid()
      modifies this
      ensures Valid()
      ensures NewActorFields(body).Raise? ==> r == Raise(NewActorFields(body).exc) && unchanged(this)
      ensures NewActorFields(body).Ok? && commitFails ==> r == Raise(Abort(422)) && unchanged(this)
      ensures NewActorFields(body).Ok? && !commitFails ==>
        var actor := Actor(old(nextActorId), body["name"], body["age"], body["gender"]);
        && actor.id !in old(actors)
        && actors == old(actors)[actor.id := actor]
        && movies == old(movies) && nextMovieId == old(nextMovieId)
        && r == Ok(SuccessBody("actor", ActorEntry(actor)))
    {
      var fields := NewActorFields(body);
      if fields.Raise? {
        r := Raise(fields.exc);
        return;
      }
      var (name, age, gender) := fields.value;
      if commitFails {
        r := Raise(Abort(422));
        return;
      }
      var actor := Actor(nextActorId, name, age, gender);
      actors := actors[actor.id := actor];
      nextActorId := nextActorId + 1;
      r := Ok(SuccessBody("actor", ActorEntry(actor)));
    }

    /**
     * PATCH /movies/<id>. A missing id reaches `'Movie #' + id`, which raises
     * TypeError. Otherwise only the fields whose keys are in the body are
     * overwritten; the id and every other record stay as they were.
     */
    method UpdateMovie(id: nat, body: map<string, Value>, commitFails: bool) returns (r: Result<Value>)
      requires Valid()
      modifies this
      ensures Valid()
      ensures id !in old(movies) ==> r == Raise(TypeError) && unchanged(this)
      ensures id in old(movies) && CheckMoviePatch(body).Raise? ==>
        r == Raise(CheckMoviePatch(body).exc) && unchanged(this)
      ensures id in old(movies) && CheckMoviePatch(body).Ok? && commitFails ==>
        r == Raise(Abort(422)) && unchanged(this)
      ensures id in old(movies) && CheckMoviePatch(body).Ok? && !commitFails ==>
        && movies.Keys == old(movies).Keys
        && movies[id].id == id
        && movies[id].title == body["title"]  // the guard has made sure the key is there
        && movies[id].releaseDate ==
             (if "release-date" in body then body["release-date"] else old(movies[id].releaseDate))
        && (forall other :: other in old(movies) && other != id ==> movies[other] == old(movies[other]))
        && actors == old(actors) && nextMovieId == old(nextMovieId) && nextActorId == old(nextActorId)
        && r == Ok(SuccessBody("movie", MovieEntry(movies[id])))
    {
      if id !in movies {
        r := Raise(TypeError);
        return;
      }
      var movie := movies[id];
      var check := CheckMoviePatch(body);
      if check.Raise? {
        r := Raise(check.exc);
        return;
      }
      if "title" in body {
        movie := movie.(title := body["title"]);
      }
      if "release-date" in body {
        movie := movie.(releaseDate := body["release-date"]);
      }
      if commitFails {
        r := Raise(Abort(422));
        return;
      }
      movies := movies[id := movie];
      r := Ok(SuccessBody("movie", MovieEntry(movie)));
    }

    /**
     * PATCH /actors/<id>. A missing id raises TypeError; otherwise only the
     * fields whose keys are in the body are overwritten.
     */
    method UpdateActor(id: nat, body: map<string, Value>, commitFails: bool) returns (r: Result<Value>)
      requires Valid()
      modifies this
      ensures Valid()
      ensures id !in old(actors) ==> r == Raise(TypeError) && unchanged(this)
      ensures id in old(actors) && CheckActorPatch(body).Raise? ==>
        r == Raise(CheckActorPatch(body).exc) && unchanged(this)
      ensures id in old(actors) && CheckActorPatch(body).Ok? && commitFails ==>
        r == Raise(Abort(422)) && unchanged(this)
      ensures id in old(actors) && CheckActorPatch(body).Ok? && !commitFails ==>
        && actors.Keys == old(actors).Keys
        && actors[id].id == id
        && actors[id].name == body["name"]  // the guard has made sure the key is there
        && actors[id].age == (if "age" in body then body["age"] else old(actors[id].age))
        && actors[id].gender == (if "gender" in body then body["gender"] else old(actors[id].gender))
        && (forall other :: other in old(actors) && other != id ==> actors[other] == old(actors[other]))
        && movies == old(movies) && nextMovieId == old(nextMovieId) && nextActorId == old(nextActorId)
        && r == Ok(SuccessBody("actor", ActorEntry(actors[id])))
    {
      if id !in actors {
        r := Raise(TypeError);
        return;
      }
      var actor := actors[id];
      var check := CheckActorPatch(body);
      if check.Raise? {
        r := Raise(check.exc);
        return;
      }
      if "name" in body {
        actor := actor.(name := body["name"]);
      }
      if "age" in body {
        actor := actor.(age := body["age"]);
      }
      if "gender" in body {
        actor := actor.(gender := body["gender"]);
      }
      if commitFails {
        r := Raise(Abort(422));
        return;
      }
      actors := actors[id := actor];
      r := Ok(SuccessBody("actor", ActorEntry(actor)));
    }

    /** DELETE /movies/<id>: 404 and no change on a missing id; on success the id is gone. */
    method DeleteMovie(id: nat, commitFails: bool) returns (r: Result<Value>)
      requires Valid()
      modifies this
      ensures Valid()
      ensures id !in old(movies) ==> r == Raise(Abort(404)) && unchanged(this)
      ensures id in old(movies) && commitFails ==> r == Raise(Abort(422)) && unchanged(this)
      ensures id in old(movies) && !commitFails ==>
        && r == Ok(Obj(map["success" := Bool(true), "deleted" := Num(id)]))
        && movies == old(movies) - {id}
        && actors == old(actors) && nextMovieId == old(nextMovieId) && nextActorId == old(nextActorId)
    {
      if id !in movies {
        r := Raise(Abort(404));
        return;
      }
      if commitFails {
        r := Raise(Abort(422));
        return;
      }
      movies := movies - {id};
      r := Ok(Obj(map["success" := Bool(true), "deleted" := Num(id)]));
    }

    /** DELETE /actors/<id>: 404 and no change on a missing id; on success the id is gone. */
    method DeleteActor(id: nat, commitFails: bool) returns (r: Result<Value>)
      requires Valid()
      modifies this
      ensures Valid()
      ensures id !in old(actors) ==> r == Raise(Abort(404)) && unchanged(this)
      ensures id in old(actors) && commitFails ==> r == Raise(Abort(422)) && unchanged(this)
      ensures id in old(actors) && !commitFails ==>
        && r == Ok(Obj(map["success" := Bool(true), "deleted" := Num(id)]))
        && actors == old(actors) - {id}
        && movies == old(movies) && nextMovieId == old(nextMovieId) && nextActorId == old(nextActorId)
    {
      if id !in actors {
        r := Raise(Abort(404));
        return;
      }
      if commitFails {
        r := Raise(Abort(422));
        return;
      }
      actors := actors - {id};
      r := Ok(Obj(map["success" := Bool(true), "deleted" := Num(id)]));
    }

    /**
     * One request: the guard of the endpoint's permission runs first, and a
     * handler runs, and may change the store, only when it lets the request through.
     */
    method Serve(endpoint: Endpoint, authorization: Option<string>, idp: Provider, commitFails: bool)
      returns (resp: Response)
      requires Valid()
      requires endpoint.ListMovies? ==> Enumerates(endpoint.order, movies.Keys)
      requires endpoint.ListActors? ==> Enumerates(endpoint.order, actors.Keys)
      modifies this
      ensures Valid()
      ensures endpoint.Index? ==>
        resp == Response(200, Obj(map["message" := Str("Welcome to our Casting Agency!")])) && unchanged(this)
      ensures !endpoint.Index? && Authorize(RoutePermission(endpoint), authorization, idp).Raise? ==>
        resp == Respond(Raise(Authorize(RoutePermission(endpoint), authorization, idp).exc)) && unchanged(this)
      ensures endpoint.ListMovies? || endpoint.ListActors? ==> unchanged(this)
      ensures !endpoint.Index? && Authorize(RoutePermission(endpoint), authorization, idp).Ok? ==>
        && ((endpoint.ListMovies? || endpoint.ListActors?) ==>
              resp.status == 200 && resp.body.Obj? && "success" in resp.body.fields &&
              resp.body.fields["success"] == Bool(true))
        && (endpoint.CreateMovie? && NewMovieFields(endpoint.body) == Raise(Abort(422)) ==>
              resp == HttpError(422) && unchanged(this))
        && (endpoint.CreateActor? && NewActorFields(endpoint.body) == Raise(Abort(422)) ==>
              resp == HttpError(422) && unchanged(this))
        && (endpoint.RemoveMovie? && endpoint.id !in old(movies) ==> resp == HttpError(404) && unchanged(this))
        && (endpoint.RemoveActor? && endpoint.id !in old(actors) ==> resp == HttpError(404) && unchanged(this))
    {
      if endpoint.Index? {
        resp := Response(200, Obj(map["message" := Str("Welcome to our Casting Agency!")]));
        return;
      }
      var granted := Authorize(RoutePermission(endpoint), authorization, idp);
      if granted.Raise? {
        resp := Respond(Raise(granted.exc));
        return;
      }
      var outcome: Result<Value>;
      match endpoint {
        case ListMovies(order) =>
          var body := GetMovies(order);
          outcome := Ok(body);
        case ListActors(order) =>
          var body := GetActors(order);
          outcome := Ok(body);
        case CreateMovie(body) => outcome := AddMovie(body, commitFails);
        case CreateActor(body) => outcome := AddActor(body, commitFails);
        case EditMovie(id, body) => outcome := UpdateMovie(id, body, commitFails);
        case EditActor(id, body) => outcome := UpdateActor(id, body, commitFails);
        case RemoveMovie(id) => outcome := DeleteMovie(id, commitFails);
        case RemoveActor(id) => outcome := DeleteActor(id, commitFails);
      }
      resp := Respond(outcome);
    }
  }

  /** The routes of the application. */
  datatype Endpoint =
    | Index                                          // GET /
    | ListMovies(order: seq<nat>)                    // GET /movies
    | ListActors(order: seq<nat>)                    // GET /actors
    | CreateMovie(body: map<string, Value>)          // POST /movies
    | CreateActor(body: map<string, Value>)          // POST /actors
    | EditMovie(id: nat, body: map<string, Value>)   // PATCH /movies/<id>
    | EditActor(id: nat, body: map<string, Value>)   // PATCH /actors/<id>
    | RemoveMovie(id: nat)                           // DELETE /movies/<id>
    | RemoveActor(id: nat)                           // DELETE /actors/<id>

  /** The lower-case HTTP method of a guarded route. */
  function Verb(endpoint: Endpoint): string {
    match endpoint
    case Index => "get"
    case ListMovies(_) => "get"
    case ListActors(_) => "get"
    case CreateMovie(_) => "post"
    case CreateActor(_) => "post"
    case EditMovie(_, _) => "patch"
    case EditActor(_, _) => "patch"
    case RemoveMovie(_) => "delete"
    case RemoveActor(_) => "delete"
  }

  /** The table a guarded route works on. */
  function Table(endpoint: Endpoint): string {
    match endpoint
    case Index => ""
    case ListMovies(_) | CreateMovie(_) | EditMovie(_, _) | RemoveMovie(_) => "movies"
    case ListActors(_) | CreateActor(_) | EditActor(_, _) | RemoveActor(_) => "actors"
  }

  /**
   * The permission each guarded route passes to `requires_auth`: its method
   * and its table, as `method:table`. The index route has none.
   */
  function RoutePermission(endpoint: Endpoint): (r: string)
    ensures endpoint.Index? <==> r == ""
    ensures !endpoint.Index? ==> r == Verb(endpoint) + ":" + Table(endpoint)
  {
    match endpoint
    case Index => ""
    case ListMovies(_) => "get:movies"
    case ListActors(_) => "get:actors"
    case CreateMovie(_) => "post:movies"
    case CreateActor(_) => "post:actors"
    case EditMovie(_, _) => "patch:movies"
    case EditActor(_, _) => "patch:actors"
    case RemoveMovie(_) => "delete:movies"
    case RemoveActor(_) => "delete:actors"
  }

  /** Two guarded routes need the same permission exactly when they share method and table. */
  lemma PermissionIdentifiesRoute(a: Endpoint, b: Endpoint)
    requires !a.Index? && !b.Index?
    ensures RoutePermission(a) == RoutePermission(b) <==> Verb(a) == Verb(b) && Table(a) == Table(b)
  {
  }
}
