/** Instrumentation of a resource: each of its put/get/request/release
    operations that exists is replaced by a wrapper that calls a `pre`
    callback, then the original operation with the same arguments, then a
    `post` callback, and returns what the original returned.

    Operations are values: a native operation or a wrapper around another
    one. Running an operation yields the trace of the calls it makes and
    its return value; what the native operation does is a parameter. */
module Instrument {
  import opened Resource

  /** A callable attribute of the resource. A wrapper remembers the resource
      it was made for and its two optional callbacks (a missing callback is
      not called). */
  datatype Op =
    | Native(name: string)
    | Wrapped(resource: nat, pre: Option<string>, post: Option<string>, inner: Op)

  /** The arguments of a call: positional and keyword. */
  datatype Args = Args(positional: seq<int>, keywords: map<string, int>)

  /** How a call ends: with a value, or with an exception that propagates. */
  datatype Ret = Returned(value: int) | Raised(error: string)

  /** A call made while an operation runs: a callback called with the
      resource, or the native operation called with the arguments. */
  datatype Call = HookCall(hook: string, resource: nat) | OpCall(name: string, args: Args)

  datatype Outcome = Outcome(trace: seq<Call>, ret: Ret)

  /** The attribute names that are instrumented, in the order they are visited. */
  const Operations: seq<string> := ["put", "get", "request", "release"]

  /** The call a callback makes, if it is present. */
  function HookCalls(hook: Option<string>, resource: nat): seq<Call> {
    if hook.Some? then [HookCall(hook.value, resource)] else []
  }

  /** Calls `op` with `args`; `native` gives how a native operation ends.
      An exception raised inside a wrapper skips its `post` callback and
      leaves the wrapper unchanged. */
  function Run(op: Op, args: Args, native: (string, Args) -> Ret): Outcome {
    match op
    case Native(name) => Outcome([OpCall(name, args)], native(name, args))
    case Wrapped(resource, pre, post, inner) =>
      var o := Run(inner, args, native);
      var after := if o.ret.Returned? then HookCalls(post, resource) else [];
      Outcome(HookCalls(pre, resource) + o.trace + after, o.ret)
  }

  /** The name a wrapper reports: the wrapped function's own, as copied
      from it. */
  function OpName(op: Op): string {
    match op
    case Native(name) => name
    case Wrapped(_, _, _, inner) => OpName(inner)
  }

  /** The `pre` callbacks of the nested wrappers, outermost first. */
  function PreCalls(op: Op): seq<Call> {
    match op
    case Native(_) => []
    case Wrapped(resource, pre, _, inner) => HookCalls(pre, resource) + PreCalls(inner)
  }

  /** The `post` callbacks of the nested wrappers, innermost first. */
  function PostCalls(op: Op): seq<Call> {
    match op
    case Native(_) => []
    case Wrapped(resource, _, post, inner) => PostCalls(inner) + HookCalls(post, resource)
  }

  /** The attributes of the resource after instrumentation of the names in
      `names`. */
  function PatchNames(attrs: map<string, Op>, resource: nat, pre: Option<string>,
                      post: Option<string>, names: seq<string>): (r: map<string, Op>)
    ensures r.Keys == attrs.Keys
  {
    map k | k in attrs :: if k in names then Wrapped(resource, pre, post, attrs[k]) else attrs[k]
  }

  function Patched(attrs: map<string, Op>, resource: nat, pre: Option<string>,
                   post: Option<string>): map<string, Op>
  {
    PatchNames(attrs, resource, pre, post, Operations)
  }

  /** The calls of a trace that are not callbacks. */
  function OpCalls(trace: seq<Call>): seq<Call> {
    if trace == [] then []
    else (if trace[0].OpCall? then [trace[0]] else []) + OpCalls(trace[1..])
  }

  lemma {:induction false} OpCallsAppend(a: seq<Call>, b: seq<Call>)
    ensures OpCalls(a + b) == OpCalls(a) + OpCalls(b)
  {
    if a != [] {
      assert (a + b)[1..] == a[1..] + b;
      OpCallsAppend(a[1..], b);
    } else {
      assert a + b == b;
    }
  }

  lemma HookCallsNoOp(hook: Option<string>, resource: nat)
    ensures OpCalls(HookCalls(hook, resource)) == []
  {
    if hook.Some? {
      assert OpCalls([HookCall(hook.value, resource)]) == [] + OpCalls([]);
    }
  }

  // ---------------------------------------------------------------------
  // Properties of one call

  /** However often an operation was wrapped, calling it calls the native
      operation exactly once, with the caller's arguments, and ends as it
      ended: with its return value or with its exception. */
  lemma {:induction false} PassThrough(op: Op, args: Args, native: (string, Args) -> Ret)
    ensures OpCalls(Run(op, args, native).trace) == [OpCall(OpName(op), args)]
    ensures Run(op, args, native).ret == native(OpName(op), args)
  {
    match op
    case Native(name) =>
      assert OpCalls([OpCall(name, args)]) == [OpCall(name, args)] + OpCalls([]);
    case Wrapped(resource, pre, post, inner) =>
      PassThrough(inner, args, native);
      var o := Run(inner, args, native);
      var after := if o.ret.Returned? then HookCalls(post, resource) else [];
      OpCallsAppend(HookCalls(pre, resource), o.trace);
      OpCallsAppend(HookCalls(pre, resource) + o.trace, after);
      HookCallsNoOp(pre, resource);
      HookCallsNoOp(post, resource);
      assert OpCalls(after) == [] by {
        if !o.ret.Returned? { assert OpCalls(after) == OpCalls([]); }
      }
  }

  /** The order of the calls, however often the operation was wrapped: the
      `pre` callbacks from the outermost wrapper in, the native operation,
      and, only when it returned, the `post` callbacks from the innermost
      wrapper out. An exception skips every `post` callback. */
  lemma {:induction false} Order(op: Op, args: Args, native: (string, Args) -> Ret)
    ensures var ret := native(OpName(op), args);
      Run(op, args, native).trace ==
        PreCalls(op) + [OpCall(OpName(op), args)] + (if ret.Returned? then PostCalls(op) else [])
  {
    match op
    case Native(name) =>
    case Wrapped(resource, pre, post, inner) =>
      Order(inner, args, native);
      PassThrough(inner, args, native);
      var ret := native(OpName(op), args);
      var mid := [OpCall(OpName(op), args)];
      var after := if ret.Returned? then HookCalls(post, resource) else [];
      var posts := if ret.Returned? then PostCalls(inner) else [];
      assert Run(op, args, native).trace ==
        HookCalls(pre, resource) + (PreCalls(inner) + mid + posts) + after;
      assert (if ret.Returned? then PostCalls(op) else []) == posts + after;
      assert HookCalls(pre, resource) + (PreCalls(inner) + mid + posts) + after ==
        (HookCalls(pre, resource) + PreCalls(inner)) + mid + (posts + after);
  }

  // ---------------------------------------------------------------------
  // Properties of the instrumentation

  /** Only the instrumented names that the resource has are replaced, each
      by a wrapper around its previous value; the other attributes and the
      set of attribute names are untouched. */
  lemma PatchedAttributes(attrs: map<string, Op>, resource: nat, pre: Option<string>,
                          post: Option<string>)
    ensures Patched(attrs, resource, pre, post).Keys == attrs.Keys
    ensures forall k :: k in attrs && k in Operations ==>
      Patched(attrs, resource, pre, post)[k] == Wrapped(resource, pre, post, attrs[k])
    ensures forall k :: k in attrs && k !in Operations ==>
      Patched(attrs, resource, pre, post)[k] == attrs[k]
  {
  }

  /** With only the monitor installed as `pre`, a call of an instrumented
      native operation takes exactly one monitor snapshot, before the
      operation, and then behaves as the operation. */
  lemma MonitorOncePerCall(attrs: map<string, Op>, resource: nat, monitor: string,
                           name: string, args: Args, native: (string, Args) -> Ret)
    requires name in Operations && name in attrs && attrs[name] == Native(name)
    ensures var o := Run(Patched(attrs, resource, Some(monitor), None)[name], args, native);
      o.trace == [HookCall(monitor, resource), OpCall(name, args)] && o.ret == native(name, args)
  {
    PatchedAttributes(attrs, resource, Some(monitor), None);
  }

  /** Instrumenting one more name, not visited before, extends the
      instrumentation by that name. */
  lemma PatchOneMore(attrs: map<string, Op>, resource: nat, pre: Option<string>,
                     post: Option<string>, names: seq<string>, name: string)
    requires name !in names
    ensures var cur := PatchNames(attrs, resource, pre, post, names);
      PatchNames(attrs, resource, pre, post, names + [name]) ==
        if name in cur then cur[name := Wrapped(resource, pre, post, cur[name])] else cur
  {
    var cur := PatchNames(attrs, resource, pre, post, names);
    var next := PatchNames(attrs, resource, pre, post, names + [name]);
    assert forall k :: k in names + [name] <==> k in names || k == name;
    if name in cur {
      assert next == cur[name := Wrapped(resource, pre, post, cur[name])];
    } else {
      assert next == cur;
    }
  }

  /** The resource's attributes, updated in place by the instrumentation. */
  class Instrumented {
    const id: nat
    var attrs: map<string, Op>

    constructor (id: nat, attrs: map<string, Op>)
      ensures this.id == id && this.attrs == attrs
    {
      this.id := id;
      this.attrs := attrs;
    }
  }

  /** Instruments `resource` in place, operation name by operation name, and
      returns the same object. */
  method PatchResource(resource: Instrumented, pre: Option<string>, post: Option<string>)
    returns (r: Instrumented)
    modifies resource
    ensures r == resource
    ensures resource.attrs == Patched(old(resource.attrs), resource.id, pre, post)
  {
    ghost var attrs0 := resource.attrs;
    var i := 0;
    while i < |Operations|
      invariant 0 <= i <= |Operations|
      invariant resource.attrs == PatchNames(attrs0, resource.id, pre, post, Operations[..i])
    {
      var name := Operations[i];
      PatchOneMore(attrs0, resource.id, pre, post, Operations[..i], name);
      if name in resource.attrs {
        resource.attrs := resource.attrs[name := Wrapped(resource.id, pre, post, resource.attrs[name])];
      }
      assert Operations[..i + 1] == Operations[..i] + [name];
      i := i + 1;
    }
    assert Operations[..i] == Operations;
    r := resource;
  }
}
