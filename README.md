# sharpware request adapter — a Dafny model

sharpware is Express middleware that turns a request into an image transform.
It reads the query string as a map from method name to arguments, merges
configured defaults under it, and takes out the control keys (`options`,
`meta`, `format`, `formatOptions`, `src`). It coerces the arguments of
`blur`, `rotate`, `sharpen` and `resize` to numbers, then calls each remaining
key as a method of a `sharp` pipeline, in key order, when the pipeline has
such a method. After that it attaches metadata and selects the output format.
The result is answered with an image response, piped as a stream, or handed
to the next middleware. Failures are answered with a JSON error body.

The model covers the adapter's own logic. The imaging engine is abstract: it
is known only by the names of its properties (`Pipeline.Engine`). A pipeline
is the constructor's argument list plus the log of calls made on it
(`Pipeline.Pipeline`). JavaScript values are a datatype (`Values.Value`).
Their string form, numeric conversion and truthiness are written out, because
the adapter's behaviour depends on them. For example, `isNaN(["5"])` is false
and `isNaN([1, 2])` is true.

Files:

- `values.dfy`: JavaScript values, objects as ordered property lists, `String()`, `Number()` and truthiness.
- `coercion.dfy`: `numberOrObject` and `enforceTypes`.
- `params.dfy`: `defaultsDeep` and the control-key destructuring.
- `pipeline.dfy`: the constructor arguments (`compact`), the dispatch `reduce` (a loop, proved against a fold), and the metadata and format calls.
- `handler.dfy`: `info`, `error` and the request handler.
- `examples.dfy`: concrete requests.

Behaviour of the code worth noting:

- The format call is not unconditional. `if (format)` skips it for an empty format, as with the query `format=` (`Pipeline.EmptyFormatSkipped`).
- `numberOrObject` converts only strings. Any other value passes unchanged when JavaScript's `isNaN` accepts it. So `blur[]=5` reaches `blur` as the string `"5"` (`Examples.BlurArrayPassesUncoerced`), and `resize` with `[true]` keeps `true`.
- A key that names a truthy non-function property of the pipeline is not skipped. Calling it throws a TypeError, for example `readable` on a sharp instance, which is a stream.
- A format or `withMetadata` that the engine lacks is not skipped either: the call `image[format](...)` throws.

## Model

| member | source | states |
|---|---|---|
| `Values.Lookup` | src/index.js:107-114 | a property read gives the first field with that key, and undefined for a missing key |
| `Values.Put` | src/index.js:66-71 | a property write sets the key, keeps every other key's value, keeps existing keys in place and appends a new key |
| `Values.IntRoundTrip` | src/index.js:26-31 | converting String(n) back with Number() gives n again |
| `Values.ArrayOfSeveralIsNaN` | src/index.js:26-31 | an array of two or more elements is NaN, because its string form contains a comma |
| `Values.SingletonNumberArray` | src/index.js:26-31 | a one-element array holding a number converts to that number, so isNaN accepts it |
| `Coercion.NumberOrObject` | src/index.js:26-32 | succeeds exactly when the value is not NaN; a string becomes its number, any other value is returned unchanged; a failure carries the message "<val> is not a number", built by `Coercion.Message` (line 29) |
| `Coercion.CoerceAll` | src/index.js:44-46 | succeeds exactly when every element is numeric; the result has the same length and order, and each element is numberOrObject of the input element; a failure is the error of the first non-numeric element |
| `Coercion.EnforceTypes` | src/index.js:34-52 | blur and rotate go through numberOrObject; sharpen and resize coerce an array element-wise; a non-array for those two, and every other method name, is returned unchanged; an array stays an array and a scalar stays a scalar |
| `Coercion.CoerceAllIdempotent` | src/index.js:45 | coercing an already coerced array changes nothing |
| `Coercion.EnforceTypesIdempotent` | src/index.js:34-52 | enforcing types on an already enforced argument gives the same result |
| `Params.MergeValue` | src/index.js:23 | with no default the request value is unchanged; the result is undefined only when both values are |
| `Params.MergeFields` | src/index.js:23 | the merged keys are the request's keys plus the defaults' keys, and the request's keys keep their positions |
| `Params.MergeElems` | src/index.js:23 | arrays merge index by index: the result has the longer length, and each position is the merge of both where both exist, otherwise whichever exists |
| `Params.MergePointwise` | src/index.js:22-24 | every key of the merged parameters holds the merge of the request's value and the default's value for that key |
| `Params.RequestValueKept` | src/index.js:22-24 | a defined request value, unless it is an object or array merged with a default of the same kind, keeps its value |
| `Params.DefaultFillsMissing` | src/index.js:22-24 | a key the request leaves undefined takes the default's value |
| `Params.MergeExtends` | src/index.js:23 | the merged value keeps every defined request value at every nesting level |
| `Params.Rest` | src/index.js:113 | the rest object holds no reserved key, every other key keeps its value, and its keys are the input's keys minus the reserved ones |
| `Params.Split` | src/index.js:107-114 | options and meta are read as they are; format and formatOptions are never undefined, and a defined request value is kept; the transform keys are all non-reserved keys with their values |
| `Params.RestConcat` | src/index.js:113 | the rest object keeps key order: it distributes over concatenation |
| `Params.SplitDefaults` | src/index.js:110-111 | an absent format resolves to 'png' and an absent formatOptions to {} |
| `Pipeline.Compact` | src/index.js:117 | compact keeps exactly the truthy entries, and every entry of its result is truthy |
| `Pipeline.CompactConcat` | src/index.js:117 | compact keeps the order of the entries: it distributes over concatenation |
| `Pipeline.CompactSingle` | src/index.js:117 | a single entry is kept exactly when it is truthy, so with CompactConcat compact keeps the truthy entries in order and with their multiplicity |
| `Pipeline.ConstructorArgs` | src/index.js:116-117 | a stream source yields [options] or nothing; otherwise the source, then options, each only if truthy; a falsy source moves options into the first position |
| `Pipeline.Step` | src/index.js:121-137 | one reduce step succeeds exactly when the key coerces and names a method or a falsy property; its error is the coercion error or the TypeError for a non-function; a method key appends one call with the coerced value spread into arguments (`Pipeline.Spread`, lines 123-127), any other key leaves the pipeline as it is |
| `Pipeline.DispatchSpec` | src/index.js:120-138 | the reduce over the keys only appends calls, keeps the constructor arguments, and fails only on a non-empty query |
| `Pipeline.Expected` | src/index.js:120-138 | every dispatched call names a method of the pipeline and a key of the query, and there are no more calls than keys |
| `Pipeline.Dispatch` | src/index.js:119-138 | the loop threading the working pipeline through the keys computes the reduce |
| `Pipeline.DispatchSucceeds` | src/index.js:120-138 | dispatch succeeds exactly when every key coerces and names a method or a falsy property; it then appends one call per key naming a method, in key order, with the coerced value spread into arguments, and leaves the constructor arguments unchanged |
| `Pipeline.DispatchFailsAtFirst` | src/index.js:120-138 | a failing dispatch throws the error of the first failing key, and every earlier key succeeded |
| `Pipeline.DispatchConcat` | src/index.js:120-138 | dispatching two runs of keys is dispatching the first and continuing from its pipeline with the second |
| `Pipeline.UnknownKeyIsNoop` | src/index.js:128-137 | a key that names no property of the pipeline, whose value coerces, leaves the outcome unchanged and raises no error |
| `Pipeline.ExpectedConcat` | src/index.js:120-138 | the calls of consecutive runs of keys are concatenated in key order |
| `Pipeline.ReservedNeverDispatched` | src/index.js:107-133 | no dispatched call names options, meta, format, formatOptions or src |
| `Pipeline.Finish` | src/index.js:139-144 | withMetadata(meta) is appended only when meta is truthy, then the format method with formatOptions only when format is truthy; a missing method is a TypeError, the metadata one first |
| `Pipeline.Build` | src/index.js:116-144 | the built pipeline is constructed from the compacted constructor arguments, and a throwing dispatch is the build's error |
| `Pipeline.BuildLog` | src/index.js:116-144 | building succeeds exactly when dispatch succeeds and the needed metadata and format methods exist; the pipeline is the constructor arguments plus the dispatched calls, then withMetadata, then the format call |
| `Pipeline.FormatAppliedLast` | src/index.js:142-144 | when format is truthy its method is the last call |
| `Pipeline.DefaultFormatApplied` | src/index.js:110-144 | without a format parameter the last call is png(formatOptions), and an engine without png fails |
| `Pipeline.EmptyFormatSkipped` | src/index.js:142-144 | an empty format makes no format call and needs no format method |
| `Handler.ErrorBody` | src/index.js:95-99 | the body keeps the error's enumerable properties, adds stack, and has message err.message when truthy and 'error' otherwise |
| `Handler.ErrorOutcome` | src/index.js:91-100 | in middleware mode the error goes to next(err) unchanged; otherwise the JSON body has message err.message when truthy and 'error' otherwise, the error's stack, and every other enumerable property of the error |
| `Handler.Info` | src/index.js:65-76 | the header map always has Content-Type image/<format> and has Content-Length, equal to length, exactly when length is truthy; status 200, sent to the info callback in middleware mode |
| `Handler.Handle` | src/index.js:102-162 | a rejected parameter or image promise goes to the error path; otherwise the pipeline is the one built from the merged and split parameters; a stream source gets a header without Content-Length; a buffer gets its bytes and a Content-Length equal to their number when that number is non-zero; a throw or encoding failure goes to the error path, next(err) in middleware mode and a JSON body otherwise |
| `Handler.DeclaredFormat` | src/index.js:107-114 | the declared format is the request's, else the configured default's, else 'png' |
| `Examples.ResizeStringsBecomeNumbers` | src/index.js:41-46 | resize ["100","200"] is coerced to [100, 200] |
| `Examples.ResizeWithBadElementFails` | src/index.js:41-46 | resize [100,"bad"] fails with "bad is not a number" |
| `Examples.BlurRejectsNonNumeric` | src/index.js:26-39 | blur "abc" fails with "abc is not a number" |
| `Examples.BlurArrayPassesUncoerced` | src/index.js:26-39 | blur ["5"] passes unchanged, as an array of the string "5" |
| `Examples.RotateTwoValuesFails` | src/index.js:26-39 | rotate given two values always fails |
| `Examples.DefaultsFormat` | src/index.js:22-24 | with defaults {format:'jpeg'} the format is jpeg unless the request asks for webp |
| `Examples.BoomErrorBody` | src/index.js:95-99 | an Error("boom") gives message "boom" and carries its stack |
| `Examples.EmptyMessageBecomesError` | src/index.js:97 | an empty message is reported as 'error' |

## Left out

- The imaging engine: decoding, transforms, encoding and `toBuffer`. The engine is a set of property names. The encoded bytes, or the encoding error, are an input of `Handler.Handle`.
- Every pipeline method is assumed to return the pipeline, as sharp's transform methods do. A key naming a method that returns something else (`toBuffer`, `clone`, `metadata`) would replace the working pipeline in the source. The model keeps the pipeline.
- Errors thrown by the engine's constructor or by a transform method's own argument checks are not modelled.
- Numbers are unbounded integers. `Coercion.NumberOrObject` passes a huge numeral on as the exact integer. JavaScript's `Number()` rounds a numeral beyond 2^53 to the nearest double and gives `Infinity` for an overlong one, so the value `blur` or `resize` receives differs; whether the call throws does not. `Number()` on strings is restricted to an optional sign and decimal digits, and the empty string gives 0. Whitespace trimming, fractions, exponents, hex, octal and binary prefixes, and `Infinity` read as NaN in the model. NaN and fractional values among the configured defaults are not represented.
- Property order is the order of the field list. JavaScript's rule that integer-like keys enumerate first, in ascending order, is not modelled.
- `defaultsDeep` merging an object into an array, or an array into an object, is not modelled: the model keeps the request value. The in-place mutation of the params object and inherited enumerable keys are also not modelled.
- A custom `getParams` that returns something other than a plain object is not modelled. The parameters are a field list.
- HTTP and Express plumbing (`res.writeHead`, `res.end`, `res.json`, `next`, `req.locals`) appears only as the `Handler.Outcome` the handler ends in.
- The default `getParams` (URL and query-string parsing) and the default `getImage` (base64 body decoding) are library calls. Their results are inputs.
- Streams: `isReadableStream` is the `Stream` source kind. The pipe chain through `passThrough` and the unfinished `outStream` are not modelled. `Streamed` records only the pipeline and the header.
- `Promise.all`: when both parameter and image resolution fail, the model reports the parameter error, where the source reports whichever rejects first.
- The `complete` hook is not modelled. A synchronous throw from `complete` rejects the returned `toBuffer().then(...)` chain (src/index.js:155-157) and reaches the error responder, where `Handler.Handle` returns `Delivered`. A rejected or never-settling promise from `complete`, and a throw inside `info` or `done`, happen in the inner `.then` (src/index.js:157-160). That promise is not returned, so the request gets no response; the model does not capture this either.
- Handler.Handle: its `params` and `image` inputs are settled promise results only. `getParams` and `getImage` run synchronously while the `Promise.all` array is built (src/index.js:103-105, 12, 23). A synchronous throw there, such as the default `getImage`'s `Buffer.from(req.body, 'base64')` on a request without a body, escapes the handler. No JSON error body is sent and `next(err)` is not called; the model does not capture this.
- `console.log` logging is not modelled.
- test/server.js is not part of this model. It only starts a server that fetches a remote image.
- Handler.DeclaredFormat: stated only for a scalar request format. An object or array format would be deep-merged with a default of the same kind.
