/** The transform pipeline: the constructor's argument list, the dispatch
    fold over the transform keys, and the metadata and format calls that
    follow it. The imaging engine itself is abstract: it is known only by the
    names of its properties, and a pipeline is the log of calls made on it. */
module Pipeline {
  import opened Values
  import opened Coercion
  import opened Params

  /** The properties an engine pipeline exposes: `methods` are functions,
      `dataProps` are truthy properties that are not functions (a stream's
      `readable` flag, say). Any other name reads as a falsy property. */
  datatype Engine = Engine(methods: set<string>, dataProps: set<string>)

  /** What `getImage` produced: a byte buffer, a readable stream, or some
      other value (a file name, say). */
  datatype ImageSource = Bytes(data: seq<bv8>) | Stream | Other(v: Value)

  /** One positional argument of the engine's constructor. */
  datatype Arg = Input(src: ImageSource) | Options(v: Value)

  datatype Call = Call(name: string, args: seq<Value>)

  /** A pipeline: how it was constructed and the calls made on it, in order. */
  datatype Pipeline = Pipeline(ctor: seq<Arg>, calls: seq<Call>)

  predicate SourceTruthy(src: ImageSource)
  {
    match src
    case Bytes(_) => true
    case Stream => true
    case Other(v) => Truthy(v)
  }

  predicate ArgTruthy(a: Arg)
  {
    match a
    case Input(src) => SourceTruthy(src)
    case Options(v) => Truthy(v)
  }

  /** lodash `compact`: drops the falsy entries. */
  function Compact(xs: seq<Arg>): (r: seq<Arg>)
    ensures forall a :: a in r <==> a in xs && ArgTruthy(a)
    ensures forall i :: 0 <= i < |r| ==> ArgTruthy(r[i])
    ensures |r| <= |xs|
  {
    if xs == [] then []
    else if ArgTruthy(xs[0]) then [xs[0]] + Compact(xs[1..])
    else Compact(xs[1..])
  }

  /** compact keeps the order and multiplicity of the truthy entries: it
      distributes over concatenation, and keeps a single entry exactly when
      it is truthy. */
  lemma {:induction false} CompactConcat(a: seq<Arg>, b: seq<Arg>)
    ensures Compact(a + b) == Compact(a) + Compact(b)
    decreases a
  {
    if a != [] {
      assert (a + b)[0] == a[0];
      assert (a + b)[1..] == a[1..] + b;
      CompactConcat(a[1..], b);
    } else {
      assert a + b == b;
    }
  }

  lemma CompactSingle(x: Arg)
    ensures Compact([x]) == if ArgTruthy(x) then [x] else []
  {
    assert [x][1..] == [];
  }

  /** `compact(isStream ? [options] : [imageSrc, options])`. A falsy image
      source moves the options into the first position. */
  function ConstructorArgs(src: ImageSource, options: Value): (r: seq<Arg>)
    ensures src.Stream? ==> r == if Truthy(options) then [Options(options)] else []
    ensures !src.Stream? ==>
      r == (if SourceTruthy(src) then [Input(src)] else []) + (if Truthy(options) then [Options(options)] else [])
  {
    assert [Options(options)][1..] == [];
    assert [Input(src), Options(options)][1..] == [Options(options)];
    Compact(if src.Stream? then [Options(options)] else [Input(src), Options(options)])
  }

  /** The positional arguments of a call: an array is spread, anything else
      is the single argument. */
  function Spread(v: Value): seq<Value>
  {
    if v.Arr? then v.elems else [v]
  }

  /** One step of the reduce over the transform keys. */
  function Step(e: Engine, p: Pipeline, f: Field): (r: Result<Pipeline, Failure>)
    ensures r.Ok? <==> StepOk(e, f)
    ensures r.Err? ==> r.error == StepError(e, f)
    ensures r.Ok? ==> r.value.ctor == p.ctor
    ensures r.Ok? && f.key !in e.methods ==> r.value == p
    ensures r.Ok? && f.key in e.methods ==>
      r.value.calls == p.calls + [Call(f.key, Spread(EnforceTypes(f.key, f.val).value))]
  {
    match EnforceTypes(f.key, f.val)
    case Err(x) => Err(x)
    case Ok(v) =>
      if f.key in e.methods then Ok(p.(calls := p.calls + [Call(f.key, Spread(v))]))
      else if f.key in e.dataProps then Err(NotAFunction("memo[method]"))
      else Ok(p)
  }

  /** The reduce over the transform keys, in key order; a throw ends it. */
  function DispatchSpec(e: Engine, p: Pipeline, q: seq<Field>): (r: Result<Pipeline, Failure>)
    ensures r.Ok? ==> r.value.ctor == p.ctor && p.calls <= r.value.calls
    ensures r.Err? ==> q != []
    decreases q
  {
    if q == [] then Ok(p)
    else
      match Step(e, p, q[0])
      case Err(x) => Err(x)
      case Ok(p') => DispatchSpec(e, p', q[1..])
  }

  /** The dispatch loop: a working pipeline threaded through the keys. */
  method Dispatch(e: Engine, image: Pipeline, query: seq<Field>) returns (r: Result<Pipeline, Failure>)
    ensures r == DispatchSpec(e, image, query)
  {
    var memo := image;
    var i := 0;
    while i < |query|
      invariant 0 <= i <= |query|
      invariant DispatchSpec(e, image, query) == DispatchSpec(e, memo, query[i..])
    {
      assert query[i..][0] == query[i] && query[i..][1..] == query[i + 1..];
      ghost var next := Step(e, memo, query[i]);
      var name := query[i].key;
      var methodVal := EnforceTypes(name, query[i].val);
      if methodVal.Err? {
        return Err(methodVal.error);
      }
      var args: seq<Value> := [];
      if methodVal.value.Arr? {
        args := args + methodVal.value.elems;
      } else {
        args := args + [methodVal.value];
      }
      assert args == Spread(methodVal.value);
      if name in e.methods {
        memo := memo.(calls := memo.calls + [Call(name, args)]);
      } else if name in e.dataProps {
        return Err(NotAFunction("memo[method]"));
      }
      assert next == Ok(memo);
      i := i + 1;
    }
    return Ok(memo);
  }

  /** Whether a key gets through its step: its value coerces, and the
      property it names is a method or falsy. */
  predicate StepOk(e: Engine, f: Field)
  {
    EnforceTypes(f.key, f.val).Ok? && (f.key in e.methods || f.key !in e.dataProps)
  }

  /** The error a failing step throws. */
  function StepError(e: Engine, f: Field): Failure
    requires !StepOk(e, f)
  {
    if EnforceTypes(f.key, f.val).Err? then EnforceTypes(f.key, f.val).error else NotAFunction("memo[method]")
  }

  /** The calls a successful dispatch makes: one per key naming a method,
      in key order, with the coerced value spread into arguments. */
  function Expected(e: Engine, q: seq<Field>): (r: seq<Call>)
    requires forall i :: 0 <= i < |q| ==> StepOk(e, q[i])
    ensures forall i :: 0 <= i < |r| ==> r[i].name in e.methods && r[i].name in Keys(q)
    ensures |r| <= |q|
  {
    if q == [] then []
    else
      assert StepOk(e, q[0]);
      assert forall i :: 0 <= i < |q[1..]| ==> q[1..][i] == q[i + 1];
      var head := if q[0].key in e.methods then [Call(q[0].key, Spread(EnforceTypes(q[0].key, q[0].val).value))] else [];
      head + Expected(e, q[1..])
  }

  /** Dispatch succeeds exactly when every step does; it then appends the
      expected calls and leaves the constructor untouched. */
  lemma {:induction false} DispatchSucceeds(e: Engine, p: Pipeline, q: seq<Field>)
    ensures DispatchSpec(e, p, q).Ok? <==> forall i :: 0 <= i < |q| ==> StepOk(e, q[i])
    ensures DispatchSpec(e, p, q).Ok? ==> DispatchSpec(e, p, q).value == Pipeline(p.ctor, p.calls + Expected(e, q))
    decreases q
  {
    if q != [] {
      assert forall i :: 1 <= i < |q| ==> q[1..][i - 1] == q[i];
      var s := Step(e, p, q[0]);
      if s.Ok? {
        DispatchSucceeds(e, s.value, q[1..]);
        if DispatchSpec(e, p, q).Ok? {
          assert s.value.calls + Expected(e, q[1..]) == p.calls + Expected(e, q);
        }
      }
    }
  }

  /** A failing dispatch throws the error of the first key that fails. */
  lemma {:induction false} DispatchFailsAtFirst(e: Engine, p: Pipeline, q: seq<Field>)
    requires DispatchSpec(e, p, q).Err?
    ensures exists i :: 0 <= i < |q| && !StepOk(e, q[i]) && (forall j :: 0 <= j < i ==> StepOk(e, q[j])) &&
                        DispatchSpec(e, p, q).error == StepError(e, q[i])
    decreases q
  {
    var s := Step(e, p, q[0]);
    if s.Ok? {
      DispatchFailsAtFirst(e, s.value, q[1..]);
      var i :| 0 <= i < |q[1..]| && !StepOk(e, q[1..][i]) && (forall j :: 0 <= j < i ==> StepOk(e, q[1..][j])) &&
               DispatchSpec(e, s.value, q[1..]).error == StepError(e, q[1..][i]);
      assert forall j :: 1 <= j < i + 1 ==> q[j] == q[1..][j - 1];
      assert q[i + 1] == q[1..][i];
    }
  }

  lemma {:induction false} DispatchConcat(e: Engine, p: Pipeline, a: seq<Field>, b: seq<Field>)
    ensures DispatchSpec(e, p, a + b) ==
      match DispatchSpec(e, p, a)
      case Err(x) => Err(x)
      case Ok(p') => DispatchSpec(e, p', b)
    decreases a
  {
    if a == [] {
      assert a + b == b;
    } else {
      assert (a + b)[0] == a[0];
      assert (a + b)[1..] == a[1..] + b;
      var s := Step(e, p, a[0]);
      if s.Ok? {
        DispatchConcat(e, s.value, a[1..], b);
      }
    }
  }

  /** A key naming no property of the pipeline changes nothing and raises no
      error, once its value has passed coercion. */
  lemma UnknownKeyIsNoop(e: Engine, p: Pipeline, a: seq<Field>, f: Field, b: seq<Field>)
    requires f.key !in e.methods && f.key !in e.dataProps
    requires EnforceTypes(f.key, f.val).Ok?
    ensures DispatchSpec(e, p, a + [f] + b) == DispatchSpec(e, p, a + b)
  {
    DispatchConcat(e, p, a, [f] + b);
    DispatchConcat(e, p, a, b);
    assert a + [f] + b == a + ([f] + b);
    var r := DispatchSpec(e, p, a);
    if r.Ok? {
      assert ([f] + b)[1..] == b;
    }
  }

  /** The calls of a dispatch follow the key order: the expected calls of
      consecutive key runs are concatenated. */
  lemma {:induction false} ExpectedConcat(e: Engine, a: seq<Field>, b: seq<Field>)
    requires forall i :: 0 <= i < |a| ==> StepOk(e, a[i])
    requires forall i :: 0 <= i < |b| ==> StepOk(e, b[i])
    ensures forall i :: 0 <= i < |a + b| ==> StepOk(e, (a + b)[i])
    ensures Expected(e, a + b) == Expected(e, a) + Expected(e, b)
    decreases a
  {
    assert forall i :: 0 <= i < |a + b| ==> (a + b)[i] == if i < |a| then a[i] else b[i - |a|];
    if a == [] {
      assert a + b == b;
    } else {
      assert (a + b)[1..] == a[1..] + b;
      ExpectedConcat(e, a[1..], b);
    }
  }

  /** The control parameters never reach dispatch. */
  lemma ReservedNeverDispatched(e: Engine, ps: seq<Field>)
    requires forall i :: 0 <= i < |Split(ps).query| ==> StepOk(e, Split(ps).query[i])
    ensures forall i :: 0 <= i < |Expected(e, Split(ps).query)| ==> Expected(e, Split(ps).query)[i].name !in Reserved
  {
  }

  function MetaCalls(meta: Value): seq<Call>
  {
    if Truthy(meta) then [Call("withMetadata", [meta])] else []
  }

  function FormatCalls(format: Value, formatOptions: Value): seq<Call>
  {
    if Truthy(format) then [Call(Display(format), [formatOptions])] else []
  }

  /** `if (meta) image = image.withMetadata(meta)` followed by
      `if (format) image = image[format](formatOptions)`; a missing method is
      a TypeError. */
  function Finish(e: Engine, p: Pipeline, meta: Value, format: Value, formatOptions: Value): (r: Result<Pipeline, Failure>)
    ensures r.Ok? <==> (Truthy(meta) ==> "withMetadata" in e.methods) && (Truthy(format) ==> Display(format) in e.methods)
    ensures r.Ok? ==> r.value == Pipeline(p.ctor, p.calls + MetaCalls(meta) + FormatCalls(format, formatOptions))
    ensures r.Err? && Truthy(meta) && "withMetadata" !in e.methods ==> r.error == NotAFunction("image.withMetadata")
    ensures r.Err? && !(Truthy(meta) && "withMetadata" !in e.methods) ==> r.error == NotAFunction("image[format]")
  {
    var withMeta :=
      if !Truthy(meta) then Ok(p)
      else if "withMetadata" in e.methods then Ok(p.(calls := p.calls + [Call("withMetadata", [meta])]))
      else Err(NotAFunction("image.withMetadata"));
    match withMeta
    case Err(x) => Err(x)
    case Ok(q) =>
      if !Truthy(format) then Ok(q)
      else if Display(format) in e.methods then Ok(q.(calls := q.calls + [Call(Display(format), [formatOptions])]))
      else Err(NotAFunction("image[format]"))
  }

  /** The whole pipeline built for one request. */
  function Build(e: Engine, c: Control, src: ImageSource): (r: Result<Pipeline, Failure>)
    ensures r.Ok? ==> r.value.ctor == ConstructorArgs(src, c.options)
    ensures DispatchSpec(e, Pipeline(ConstructorArgs(src, c.options), []), c.query).Err? ==>
      r == Err(DispatchSpec(e, Pipeline(ConstructorArgs(src, c.options), []), c.query).error)
  {
    match DispatchSpec(e, Pipeline(ConstructorArgs(src, c.options), []), c.query)
    case Err(x) => Err(x)
    case Ok(p) => Finish(e, p, c.meta, c.format, c.formatOptions)
  }

  /** A built pipeline is the constructor call followed by the dispatched
      calls in key order, then withMetadata when `meta` is truthy, then the
      format method when `format` is truthy. */
  lemma BuildLog(e: Engine, c: Control, src: ImageSource)
    ensures Build(e, c, src).Ok? <==>
      && (forall i :: 0 <= i < |c.query| ==> StepOk(e, c.query[i]))
      && (Truthy(c.meta) ==> "withMetadata" in e.methods)
      && (Truthy(c.format) ==> Display(c.format) in e.methods)
    ensures Build(e, c, src).Ok? ==>
      Build(e, c, src).value ==
        Pipeline(ConstructorArgs(src, c.options), Expected(e, c.query) + MetaCalls(c.meta) + FormatCalls(c.format, c.formatOptions))
  {
    DispatchSucceeds(e, Pipeline(ConstructorArgs(src, c.options), []), c.query);
  }

  /** When `format` is truthy its method is the last call made. */
  lemma FormatAppliedLast(e: Engine, c: Control, src: ImageSource)
    requires Build(e, c, src).Ok? && Truthy(c.format)
    ensures var calls := Build(e, c, src).value.calls;
      |calls| > 0 && calls[|calls| - 1] == Call(Display(c.format), [c.formatOptions])
  {
    BuildLog(e, c, src);
  }

  /** A request without `format` ends with the 'png' call, or fails when the
      engine has no 'png' method. */
  lemma DefaultFormatApplied(e: Engine, ps: seq<Field>, src: ImageSource)
    requires Lookup(ps, "format") == Undefined
    ensures Build(e, Split(ps), src).Ok? ==>
      var calls := Build(e, Split(ps), src).value.calls;
      |calls| > 0 && calls[|calls| - 1] == Call("png", [Split(ps).formatOptions])
    ensures "png" !in e.methods ==> Build(e, Split(ps), src).Err?
  {
    var c := Split(ps);
    BuildLog(e, c, src);
    assert Truthy(c.format) && Display(c.format) == "png";
  }

  /** An empty `format` (the query `format=`) is falsy: no format method is
      called, and the engine need not have one. */
  lemma EmptyFormatSkipped(e: Engine, ps: seq<Field>, src: ImageSource)
    requires Lookup(ps, "format") == Str("")
    requires forall i :: 0 <= i < |Split(ps).query| ==> StepOk(e, Split(ps).query[i])
    requires Truthy(Split(ps).meta) ==> "withMetadata" in e.methods
    ensures Build(e, Split(ps), src).Ok?
    ensures Build(e, Split(ps), src).value.calls == Expected(e, Split(ps).query) + MetaCalls(Split(ps).meta)
  {
    var c := Split(ps);
    assert c.format == Str("");
    assert FormatCalls(c.format, c.formatOptions) == [];
    BuildLog(e, c, src);
    assert Build(e, c, src).value.calls == Expected(e, c.query) + MetaCalls(c.meta) + [];
  }
}
