/** The request handler returned by `sharpWare(config)`: parameter and image
    resolution results in, one outcome out (an image response, a stream,
    a JSON error body, or a hand-off to the next middleware). */
module Handler {
  import opened Values
  import opened Coercion
  import opened Params
  import opened Pipeline

  /** A thrown value as the error responder sees it: its own enumerable
      properties (what `...err` copies) and the values its `message` and
      `stack` properties read as. */
  datatype ErrorObject = ErrorObject(own: seq<Field>, message: Value, stack: Value)

  /** The Error or TypeError the adapter throws: it has no enumerable own
      properties. Its stack trace is the engine's text, given here. */
  function Thrown(f: Failure, stack: Value): ErrorObject
  {
    ErrorObject([], Str(Message(f)), stack)
  }

  /** `{ ...err, message: err.message || 'error', stack: err.stack }`. */
  function ErrorBody(err: ErrorObject): (body: seq<Field>)
    ensures Lookup(body, "message") == if Truthy(err.message) then err.message else Str("error")
    ensures Lookup(body, "stack") == err.stack
    ensures forall k :: k != "message" && k != "stack" ==> Lookup(body, k) == Lookup(err.own, k)
    ensures Keys(body) == Keys(err.own) + {"message", "stack"}
  {
    var withMessage := Put(err.own, "message", if Truthy(err.message) then err.message else Str("error"));
    Put(withMessage, "stack", err.stack)
  }

  /** The header map with its status, and whether it goes to the
      configured `info` callback (middleware mode) or to `res.writeHead`. */
  datatype Head = Head(status: int, fields: seq<Field>, toCallback: bool)

  /** The header map for an output of the given format and length. */
  predicate HeadFor(fields: seq<Field>, format: Value, length: Value)
  {
    && Lookup(fields, "Content-Type") == Str("image/" + Display(format))
    && ("Content-Length" in Keys(fields) <==> Truthy(length))
    && (Truthy(length) ==> Lookup(fields, "Content-Length") == length)
    && Keys(fields) <= {"Content-Type", "Content-Length"}
  }

  /** `info({ length, format }, req, res)`. */
  method Info(middleware: bool, format: Value, length: Value) returns (h: Head)
    ensures h.status == 200 && h.toCallback == middleware
    ensures HeadFor(h.fields, format, length)
  {
    var head := [Field("Content-Type", Str("image/" + Display(format)))];
    if Truthy(length) {
      head := Put(head, "Content-Length", length);
    }
    h := Head(200, head, middleware);
  }

  /** The part of the configuration the model uses. */
  datatype Config = Config(middleware: bool, defaults: seq<Field>)

  datatype Outcome =
    | Streamed(image: Pipeline, head: Head)                               // source piped through the pipeline
    | Delivered(image: Pipeline, head: Head, body: seq<bv8>, toNext: bool) // res.end(buf), or req.locals.sharp = buf and next()
    | JsonError(json: seq<Field>)                                         // res.json(...)
    | NextError(err: ErrorObject)                                         // next(err)

  /** `error(err, req, res, next)`. */
  function ErrorOutcome(config: Config, err: ErrorObject): (out: Outcome)
    ensures config.middleware ==> out == NextError(err)
    ensures !config.middleware ==>
      && out.JsonError?
      && Lookup(out.json, "message") == (if Truthy(err.message) then err.message else Str("error"))
      && Lookup(out.json, "stack") == err.stack
      && forall k :: k != "message" && k != "stack" ==> Lookup(out.json, k) == Lookup(err.own, k)
  {
    if config.middleware then NextError(err) else JsonError(ErrorBody(err))
  }

  /** One request. `params` and `image` are what `getParams` and `getImage`
      settled to, `encoded` is what `toBuffer` settles to, and `stack` is the
      stack trace of an error the handler throws itself. */
  method Handle(config: Config, engine: Engine, params: Result<seq<Field>, ErrorObject>,
                image: Result<ImageSource, ErrorObject>, encoded: Result<seq<bv8>, ErrorObject>,
                stack: Value) returns (out: Outcome)
    ensures params.Err? ==> out == ErrorOutcome(config, params.error)
    ensures params.Ok? && image.Err? ==> out == ErrorOutcome(config, image.error)
    ensures params.Ok? && image.Ok? ==>
      var c := Split(ResolveParams(params.value, config.defaults));
      var b := Build(engine, c, image.value);
      && (b.Err? ==> out == ErrorOutcome(config, Thrown(b.error, stack)))
      && (b.Ok? && image.value.Stream? ==>
            out.Streamed? && out.image == b.value && HeadFor(out.head.fields, c.format, Undefined))
      && (b.Ok? && !image.value.Stream? && encoded.Err? ==> out == ErrorOutcome(config, encoded.error))
      && (b.Ok? && !image.value.Stream? && encoded.Ok? ==>
            && out.Delivered? && out.image == b.value && out.body == encoded.value
            && out.toNext == config.middleware
            && HeadFor(out.head.fields, c.format, Num(|encoded.value|)))
    ensures out.Streamed? || out.Delivered? ==> out.head.status == 200 && out.head.toCallback == config.middleware
  {
    if params.Err? {
      return ErrorOutcome(config, params.error);
    }
    if image.Err? {
      return ErrorOutcome(config, image.error);
    }
    var parsedQuery := ResolveParams(params.value, config.defaults);
    var c := Split(parsedQuery);
    var imageSrc := image.value;
    var isStream := imageSrc.Stream?;
    var img := Pipeline(ConstructorArgs(imageSrc, c.options), []);
    var dispatched := Dispatch(engine, img, c.query);
    if dispatched.Err? {
      return ErrorOutcome(config, Thrown(dispatched.error, stack));
    }
    img := dispatched.value;
    if Truthy(c.meta) {
      if "withMetadata" !in engine.methods {
        return ErrorOutcome(config, Thrown(NotAFunction("image.withMetadata"), stack));
      }
      img := img.(calls := img.calls + [Call("withMetadata", [c.meta])]);
    }
    if Truthy(c.format) {
      var name := Display(c.format);
      if name !in engine.methods {
        return ErrorOutcome(config, Thrown(NotAFunction("image[format]"), stack));
      }
      img := img.(calls := img.calls + [Call(name, [c.formatOptions])]);
    }
    if isStream {
      var head := Info(config.middleware, c.format, Undefined);
      return Streamed(img, head);
    }
    if encoded.Err? {
      return ErrorOutcome(config, encoded.error);
    }
    var buf := encoded.value;
    var head := Info(config.middleware, c.format, Num(|buf|));
    return Delivered(img, head, buf, config.middleware);
  }

  /** The declared format is the resolved `format` parameter: the request's,
      else the configured default's, else 'png'. (A request format that is an
      object or an array would instead be merged with an object or array default.) */
  lemma DeclaredFormat(params: seq<Field>, defaults: seq<Field>)
    requires DistinctKeys(defaults)
    requires !Lookup(params, "format").Obj? && !Lookup(params, "format").Arr?
    ensures Split(ResolveParams(params, defaults)).format ==
      if Lookup(params, "format") != Undefined then Lookup(params, "format")
      else if Lookup(defaults, "format") != Undefined then Lookup(defaults, "format")
      else Str("png")
  {
    MergePointwise(params, defaults, "format");
    var m := Lookup(ResolveParams(params, defaults), "format");
    assert m == MergeValue(Lookup(params, "format"), Lookup(defaults, "format"));
    assert Split(ResolveParams(params, defaults)).format == if m == Undefined then Str("png") else m;
  }
}
