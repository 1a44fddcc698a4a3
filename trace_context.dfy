/** Model of context.go: the per-request trace log and its lookup through the request context. */
module TraceContext {

  /** The trace log installed in a request context. `V` stands for the opaque values
      of `IdentifierMappings`. */
  class TraceMeta<V> {
    var Trace: seq<string>
    var Error: seq<string>
    var IdentifierMappings: map<string, V>

    /** The composite literal with which a caller installs a trace log. */
    constructor (trace: seq<string>, errors: seq<string>, ids: map<string, V>)
      ensures Trace == trace && Error == errors && IdentifierMappings == ids
    {
      Trace := trace;
      Error := errors;
      IdentifierMappings := ids;
    }
  }

  /** What the lookup `ctx.Value(TraceMetaKey)` followed by the assertion to `*TraceMeta` can see:
      a `*TraceMeta`, or anything else (the key missing, or a value of another type). */
  datatype CtxValue<V> = TraceMetaRef(meta: TraceMeta<V>) | OtherOrMissing

  /** A request context: nil, or a context whose value under the trace key is `value`. */
  datatype Ctx<V> = NilCtx | Ctx(value: CtxValue<V>)
  {
    /** The objects reachable from the context that the core may write. */
    function Footprint(): set<object>
    {
      if Ctx? && value.TraceMetaRef? then {value.meta} else {}
    }
  }

  /** Appends `errorMsg` to the trace log carried by `ctx`, if there is one, and returns it;
      otherwise returns nil and changes nothing. */
  method AddTraceLog<V>(ctx: Ctx<V>, errorMsg: string) returns (r: TraceMeta?<V>)
    modifies ctx.Footprint()
    ensures ctx.NilCtx? ==> r == null
    ensures ctx.Ctx? && ctx.value.OtherOrMissing? ==> r == null
    ensures ctx.Ctx? && ctx.value.TraceMetaRef? ==>
      r == ctx.value.meta &&
      r.Error == old(r.Error) + [errorMsg] &&
      r.Trace == old(r.Trace) &&
      r.IdentifierMappings == old(r.IdentifierMappings)
  {
    if ctx.NilCtx? {
      return null;
    }
    if !ctx.value.TraceMetaRef? {
      return null;
    }
    var traceMeta := ctx.value.meta;
    traceMeta.Error := traceMeta.Error + [errorMsg];
    return traceMeta;
  }

  /** Two calls in a row on the same carrier extend the log by both messages, in call order. */
  method AddTraceLogTwice<V>(ctx: Ctx<V>, first: string, second: string) returns (r: TraceMeta?<V>)
    modifies ctx.Footprint()
    ensures !(ctx.Ctx? && ctx.value.TraceMetaRef?) ==> r == null
    ensures ctx.Ctx? && ctx.value.TraceMetaRef? ==>
      r == ctx.value.meta &&
      r.Error == old(r.Error) + [first, second] &&
      r.Trace == old(r.Trace) &&
      r.IdentifierMappings == old(r.IdentifierMappings)
  {
    r := AddTraceLog(ctx, first);
    r := AddTraceLog(ctx, second);
  }
}
