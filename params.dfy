/** Parameter resolution: `defaultsDeep(params, defaults)` and the
    destructuring that separates the control parameters from the transform
    keys. */
module Params {
  import opened Values

  /** defaultsDeep on one property: the request value `t` is kept unless it
      is undefined, in which case the default `s` is taken; two objects or two
      arrays are merged recursively. */
  function MergeValue(t: Value, s: Value): (r: Value)
    ensures s == Undefined ==> r == t
    ensures r == Undefined ==> t == Undefined && s == Undefined
    decreases s, 0
  {
    if t == Undefined then s
    else if t.Obj? && s.Obj? then Obj(MergeFields(t.fields, s.fields))
    else if t.Arr? && s.Arr? then Arr(MergeElems(t.elems, s.elems))
    else t
  }

  /** defaultsDeep on two objects: the default's keys are visited in order,
      each merged into the request object in place or appended to it. */
  function MergeFields(t: seq<Field>, s: seq<Field>): (r: seq<Field>)
    ensures Keys(r) == Keys(t) + Keys(s)
    ensures |t| <= |r| && forall i :: 0 <= i < |t| ==> r[i].key == t[i].key
    decreases s, 1
  {
    if s == [] then t
    else MergeFields(Put(t, s[0].key, MergeValue(Lookup(t, s[0].key), s[0].val)), s[1..])
  }

  /** defaultsDeep on two arrays: index by index. */
  function MergeElems(t: seq<Value>, s: seq<Value>): (r: seq<Value>)
    ensures |r| == if |t| < |s| then |s| else |t|
    ensures forall i :: 0 <= i < |r| ==>
      r[i] == if i < |t| && i < |s| then MergeValue(t[i], s[i]) else if i < |t| then t[i] else s[i]
    decreases s, 1
  {
    if s == [] then t
    else if t == [] then s
    else
      var rest := MergeElems(t[1..], s[1..]);
      assert forall i :: 1 <= i < |t| ==> t[1..][i - 1] == t[i];
      assert forall i :: 1 <= i < |s| ==> s[1..][i - 1] == s[i];
      [MergeValue(t[0], s[0])] + rest
  }

  /** The parameters a request is handled with: the parsed request
      parameters with the configured defaults merged under them. */
  function ResolveParams(params: seq<Field>, defaults: seq<Field>): seq<Field>
  {
    MergeFields(params, defaults)
  }

  lemma NotInTail(s: seq<Field>)
    requires s != [] && DistinctKeys(s)
    ensures s[0].key !in Keys(s[1..])
  {
    assert forall i :: 0 <= i < |s[1..]| ==> s[1..][i].key == s[i + 1].key;
    NotInKeys(s[1..], s[0].key);
  }

  /** The merge works key by key: each key of the result holds the merge of
      the request's value and the default's value for that key. */
  lemma {:induction false} MergePointwise(t: seq<Field>, s: seq<Field>, k: string)
    requires DistinctKeys(s)
    ensures Lookup(MergeFields(t, s), k) == MergeValue(Lookup(t, k), Lookup(s, k))
    decreases s
  {
    if s != [] {
      var t' := Put(t, s[0].key, MergeValue(Lookup(t, s[0].key), s[0].val));
      assert DistinctKeys(s[1..]);
      MergePointwise(t', s[1..], k);
      if k == s[0].key {
        NotInTail(s);
      }
    }
  }

  /** A request value that is defined, and not an object or array merged
      with one of its own kind, survives the merge unchanged. */
  lemma RequestValueKept(params: seq<Field>, defaults: seq<Field>, k: string)
    requires DistinctKeys(defaults)
    requires Lookup(params, k) != Undefined
    requires !(Lookup(params, k).Obj? && Lookup(defaults, k).Obj?)
    requires !(Lookup(params, k).Arr? && Lookup(defaults, k).Arr?)
    ensures Lookup(ResolveParams(params, defaults), k) == Lookup(params, k)
  {
    MergePointwise(params, defaults, k);
  }

  /** A key the request leaves undefined takes the configured default. */
  lemma DefaultFillsMissing(params: seq<Field>, defaults: seq<Field>, k: string)
    requires DistinctKeys(defaults)
    requires Lookup(params, k) == Undefined
    ensures Lookup(ResolveParams(params, defaults), k) == Lookup(defaults, k)
  {
    MergePointwise(params, defaults, k);
  }

  /** `r` keeps every defined value of `t`, at every nesting level. */
  ghost predicate Extends(t: Value, r: Value)
    decreases t
  {
    match t
    case Undefined => true
    case Obj(tf) => r.Obj? && forall i :: 0 <= i < |tf| ==> Extends(tf[i].val, Lookup(r.fields, tf[i].key))
    case Arr(te) => r.Arr? && |te| <= |r.elems| && forall i :: 0 <= i < |te| ==> Extends(te[i], r.elems[i])
    case _ => r == t
  }

  lemma LookupDistinct(fs: seq<Field>, i: nat)
    requires DistinctKeys(fs) && i < |fs|
    ensures Lookup(fs, fs[i].key) == fs[i].val
  {
  }

  lemma {:induction false} ExtendsReflexive(t: Value)
    requires WellFormed(t)
    ensures Extends(t, t)
    decreases t
  {
    match t
    case Obj(tf) =>
      forall i | 0 <= i < |tf|
        ensures Extends(tf[i].val, Lookup(tf, tf[i].key))
      {
        LookupDistinct(tf, i);
        ExtendsReflexive(tf[i].val);
      }
    case Arr(te) =>
      forall i | 0 <= i < |te|
        ensures Extends(te[i], te[i])
      {
        ExtendsReflexive(te[i]);
      }
    case _ =>
  }

  /** Request values take precedence over the defaults at every nesting level. */
  lemma {:induction false} MergeExtends(t: Value, s: Value)
    requires WellFormed(t) && WellFormed(s)
    ensures Extends(t, MergeValue(t, s))
    decreases t
  {
    if t.Obj? && s.Obj? {
      var r := MergeFields(t.fields, s.fields);
      forall i | 0 <= i < |t.fields|
        ensures Extends(t.fields[i].val, Lookup(r, t.fields[i].key))
      {
        var k := t.fields[i].key;
        MergePointwise(t.fields, s.fields, k);
        LookupDistinct(t.fields, i);
        WellFormedLookup(s.fields, k);
        MergeExtends(t.fields[i].val, Lookup(s.fields, k));
      }
    } else if t.Arr? && s.Arr? {
      var r := MergeElems(t.elems, s.elems);
      forall i | 0 <= i < |t.elems|
        ensures Extends(t.elems[i], r[i])
      {
        if i < |s.elems| {
          MergeExtends(t.elems[i], s.elems[i]);
        } else {
          ExtendsReflexive(t.elems[i]);
        }
      }
    } else if t != Undefined {
      ExtendsReflexive(t);
    }
  }

  lemma WellFormedLookup(fs: seq<Field>, k: string)
    requires forall i :: 0 <= i < |fs| ==> WellFormed(fs[i].val)
    ensures WellFormed(Lookup(fs, k))
  {
  }

  /** The control parameters, never dispatched as transform methods. */
  const Reserved: set<string> := {"options", "meta", "format", "formatOptions", "src"}

  /** `...query`: every property except the destructured ones, in order. */
  function Rest(fs: seq<Field>): (r: seq<Field>)
    ensures forall i :: 0 <= i < |r| ==> r[i].key !in Reserved
    ensures forall k :: k !in Reserved ==> Lookup(r, k) == Lookup(fs, k)
    ensures Keys(r) == Keys(fs) - Reserved
    ensures |r| <= |fs|
  {
    if fs == [] then []
    else if fs[0].key in Reserved then Rest(fs[1..])
    else [fs[0]] + Rest(fs[1..])
  }

  /** The result of destructuring the resolved parameters. */
  datatype Control = Control(options: Value, meta: Value, format: Value, formatOptions: Value, query: seq<Field>)

  /** `const { options, meta, format = 'png', formatOptions = {}, src, ...query } = parsedQuery`:
      a default replaces only an undefined value. */
  function Split(ps: seq<Field>): (c: Control)
    ensures c.options == Lookup(ps, "options") && c.meta == Lookup(ps, "meta")
    ensures c.format != Undefined && c.formatOptions != Undefined
    ensures Lookup(ps, "format") != Undefined ==> c.format == Lookup(ps, "format")
    ensures Lookup(ps, "formatOptions") != Undefined ==> c.formatOptions == Lookup(ps, "formatOptions")
    ensures Keys(c.query) == Keys(ps) - Reserved
    ensures forall k :: k !in Reserved ==> Lookup(c.query, k) == Lookup(ps, k)
  {
    var format := Lookup(ps, "format");
    var formatOptions := Lookup(ps, "formatOptions");
    Control(
      Lookup(ps, "options"),
      Lookup(ps, "meta"),
      if format == Undefined then Str("png") else format,
      if formatOptions == Undefined then Obj([]) else formatOptions,
      Rest(ps))
  }

  /** The rest object keeps the order of the keys: it distributes over
      concatenation and keeps a single field exactly when it is not reserved. */
  lemma {:induction false} RestConcat(a: seq<Field>, b: seq<Field>)
    ensures Rest(a + b) == Rest(a) + Rest(b)
    decreases a
  {
    if a != [] {
      assert (a + b)[0] == a[0];
      assert (a + b)[1..] == a[1..] + b;
      RestConcat(a[1..], b);
    } else {
      assert a + b == b;
    }
  }

  lemma RestSingle(f: Field)
    ensures Rest([f]) == if f.key in Reserved then [] else [f]
  {
  }

  /** Absent format and formatOptions resolve to 'png' and {}. */
  lemma SplitDefaults(ps: seq<Field>)
    requires "format" !in Keys(ps) && "formatOptions" !in Keys(ps)
    ensures Split(ps).format == Str("png") && Split(ps).formatOptions == Obj([])
  {
  }
}
