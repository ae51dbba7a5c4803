/** The command dispatcher of the remote-control bridge: `Remote.execute`
    (path resolution through `_getObject`, the `call` and `set` commands) and
    the per-command pipeline `_processCommands` that gates commands by runtime
    and permission and collects their callback events. */
module Dispatcher {
  import opened Js

  /** A command as a client sends it: `{id, objPath, cmd, args, callback}`. */
  datatype Command = Command(id: Value, objPath: string, cmd: string, args: Value, callback: Value)

  /** The event `{id, type: 'callback', args}` handed to the completion sink. */
  datatype Callback = Callback(id: Value, args: seq<Value>)

  /** What the caller of `execute` has already resolved: the runtime (named by
      its engine), the split path and the request context `data`. */
  datatype Opts = Opts(runtime: Option<string>, objPath: seq<string>, data: Value)

  /** The answer of `_getObject`: an error naming the missing segment, or the
      parent of the last segment together with the value it holds. */
  datatype Walked = NoSuchObject(name: string) | Found(parent: Value, target: Value)

  /** One argument the invoked target receives: a value, or the synthesized
      delivery function that completes the command with its own arguments. */
  datatype Arg = Plain(v: Value) | Deliver

  /** `target.apply(receiver, args)`. */
  datatype Invocation = Invocation(receiver: Value, target: Value, args: seq<Arg>)

  /** What one run of `execute` does synchronously.
      Done: `complete(command, e)` was called and nothing was invoked.
      Invoked: the target was called; `early` when `complete(command, null)`
      came first, otherwise completion waits for the delivery function.
      Threw: a TypeError escaped (`early` as for Invoked).
      Ignored: an unknown `cmd`; nothing happens and nothing completes. */
  datatype Outcome =
    | Done(event: Option<Callback>)
    | Invoked(early: bool, call: Invocation)
    | Threw(early: bool)
    | Ignored

  datatype Executed = Executed(outcome: Outcome, instances: map<string, Value>)

  /** `objPath[index]`; past the end of the path JavaScript reads `undefined`,
      which as a property key is the string "undefined". */
  function KeyAt(path: seq<string>, index: nat): string {
    if index < |path| then path[index] else "undefined"
  }

  /** `_getObject(inst, index, callback)`: follow the path from `index` on;
      every value met must be truthy, and the walk stops at the last segment. */
  function Walk(path: seq<string>, inst: Value, index: nat): (r: Walked)
    ensures r.Found? ==> index + 1 <= |path| && Truthy(r.target) && r.parent.Obj?
    ensures r.NoSuchObject? ==> r.name == "undefined" || r.name in path
    decreases inst
  {
    var next := Get(inst, KeyAt(path, index));
    if !Truthy(next) then NoSuchObject(KeyAt(path, index))
    else if |path| == index + 1 then Found(inst, next)
    else Walk(path, next, index + 1)
  }

  /** Resolution succeeds exactly when every value along the path from the
      given segment through the last is truthy; it then yields the parent of the
      last segment and the value the last segment holds. */
  lemma {:induction false} WalkResolves(path: seq<string>, inst: Value, index: nat)
    requires index < |path|
    ensures Walk(path, inst, index).Found? <==>
              forall j :: index < j <= |path| ==> Truthy(Lookup(inst, path[index..j]))
    ensures Walk(path, inst, index).Found? ==>
              Walk(path, inst, index) == Found(Lookup(inst, path[index..|path| - 1]), Lookup(inst, path[index..]))
    decreases |path| - index
  {
    var next := Get(inst, path[index]);
    assert Lookup(inst, path[index..index + 1]) == next by {
      assert path[index..index + 1][1..] == [];
    }
    assert Lookup(inst, path[index..index]) == inst;
    assert path[index..] == path[index..|path|];
    if Truthy(next) && |path| != index + 1 {
      assert path[index + 1..] == path[index + 1..|path|];
      WalkResolves(path, next, index + 1);
      forall j | index + 1 <= j <= |path|
        ensures Lookup(inst, path[index..j]) == Lookup(next, path[index + 1..j])
      {
        assert path[index..j][1..] == path[index + 1..j];
      }
      if Walk(path, next, index + 1).Found? {
        forall j | index < j <= |path|
          ensures Truthy(Lookup(inst, path[index..j]))
        {
          if j > index + 1 {
            assert Truthy(Lookup(next, path[index + 1..j]));
          }
        }
      } else {
        var j :| index + 1 < j <= |path| && !Truthy(Lookup(next, path[index + 1..j]));
        assert !Truthy(Lookup(inst, path[index..j]));
      }
    }
  }

  /** A walk that starts past the end of the path keeps reading the key
      "undefined" and can never reach the last segment, so it fails. */
  lemma {:induction false} WalkPastEndFails(path: seq<string>, inst: Value, index: nat)
    requires |path| <= index
    ensures Walk(path, inst, index) == NoSuchObject("undefined")
    decreases inst
  {
    var next := Get(inst, KeyAt(path, index));
    if Truthy(next) {
      WalkPastEndFails(path, next, index + 1);
    }
  }

  /** `_parent[propName] = value` seen from the root: the graph with the slot at
      `keys` replaced and every object on the way to it rebuilt around it. */
  function Assign(inst: Value, keys: seq<string>, v: Value): Value
    requires keys != []
    decreases |keys|
  {
    if !inst.Obj? then inst
    else if |keys| == 1 then Obj(inst.props[keys[0] := v])
    else if keys[0] in inst.props then Obj(inst.props[keys[0] := Assign(inst.props[keys[0]], keys[1..], v)])
    else inst
  }

  /** Neither path is a prefix of the other: the two name different slots. */
  predicate Apart(p: seq<string>, q: seq<string>) {
    !(p <= q) && !(q <= p)
  }

  /** After an assignment the written slot holds the new value and every slot
      apart from it holds what it held before. */
  lemma {:induction false} AssignFrame(inst: Value, keys: seq<string>, v: Value, q: seq<string>)
    requires keys != []
    requires forall j :: 0 <= j < |keys| ==> Lookup(inst, keys[..j]).Obj?
    ensures Lookup(Assign(inst, keys, v), keys) == v
    ensures Apart(q, keys) ==> Lookup(Assign(inst, keys, v), q) == Lookup(inst, q)
    decreases |keys|
  {
    assert Lookup(inst, keys[..0]) == inst;
    var after := Assign(inst, keys, v);
    if |keys| == 1 {
      assert Lookup(after, keys) == Lookup(v, keys[1..]);
    } else {
      var child := Get(inst, keys[0]);
      assert Lookup(inst, keys[..1]) == child by {
        assert keys[..1][1..] == [];
      }
      forall j | 0 <= j < |keys| - 1
        ensures Lookup(child, keys[1..][..j]) .Obj?
      {
        assert keys[..j + 1][1..] == keys[1..][..j];
        assert Lookup(inst, keys[..j + 1]).Obj?;
      }
      AssignFrame(child, keys[1..], v, if q == [] then [] else q[1..]);
    }
    if q != [] && |keys| > 1 && q[0] == keys[0] {
      PrefixTail(q, keys);
      PrefixTail(keys, q);
    }
  }

  lemma PrefixTail(p: seq<string>, q: seq<string>)
    requires p != [] && q != [] && p[0] == q[0]
    ensures p <= q <==> p[1..] <= q[1..]
  {
    if p[1..] <= q[1..] {
      assert p == [p[0]] + p[1..] && q == [q[0]] + q[1..];
    }
  }

  /** An assignment rebuilds the objects on the way to the written slot as
      objects, so the written path stays walkable. */
  lemma {:induction false} AssignKeepsObjects(inst: Value, keys: seq<string>, v: Value, j: nat)
    requires keys != [] && j < |keys|
    requires forall i :: 0 <= i < |keys| ==> Lookup(inst, keys[..i]).Obj?
    ensures Lookup(Assign(inst, keys, v), keys[..j]).Obj?
    decreases |keys|
  {
    assert Lookup(inst, keys[..0]) == inst;
    if |keys| > 1 && j > 0 {
      var child := Get(inst, keys[0]);
      assert Lookup(inst, keys[..1]) == child by {
        assert keys[..1][1..] == [];
      }
      forall i | 0 <= i < |keys| - 1
        ensures Lookup(child, keys[1..][..i]).Obj?
      {
        assert keys[..i + 1][1..] == keys[1..][..i];
        assert Lookup(inst, keys[..i + 1]).Obj?;
      }
      AssignKeepsObjects(child, keys[1..], v, j - 1);
      assert keys[..j][1..] == keys[1..][..j - 1];
    }
  }

  /** Values passed as plain arguments. */
  function Plains(items: seq<Value>): seq<Arg> {
    seq(|items|, i requires 0 <= i < |items| => Plain(items[i]))
  }

  /** The argument list `apply` builds from its second argument: none for
      `undefined` and `null`, the elements of an array, and for any other
      object its properties "0", "1", ... up to its `length`. A primitive
      throws a TypeError. */
  function ApplyList(args: Value): (r: Option<seq<Value>>)
    ensures r.None? <==> args.Bool? || args.Num? || args.Str?
    ensures args.Arr? ==> r == Some(args.items)
    ensures args.Obj? ==>
              && |r.value| == LengthOf(Get(args, "length"))
              && forall i :: 0 <= i < |r.value| ==> r.value[i] == Get(args, IndexKey(i))
    ensures args.Undefined? || args.Null? ==> r == Some([])
  {
    match args
    case Undefined => Some([])
    case Null => Some([])
    case Arr(items) => Some(items)
    case Obj(_) =>
      var n := LengthOf(Get(args, "length"));
      Some(seq(n, i requires 0 <= i < n => Get(args, IndexKey(i))))
    case Func(_) => Some([])
    case _ => None
  }

  /** What `args.concat(data)` appends: the elements of an array, any other
      value itself. */
  function Concatenated(data: Value): seq<Value> {
    if data.Arr? then data.items else [data]
  }

  /** The argument list the target of a `call` receives, or None when building
      or applying it throws a TypeError. With a truthy `callback`, `args` must be
      an array: its elements, then the delivery function, then what
      `concat(data)` appends when `data` is truthy. Without one, `apply` takes
      `args` as it is. */
  function CallArgs(command: Command, data: Value): (r: Option<seq<Arg>>)
    ensures r.Some? ==> (Deliver in r.value <==> Truthy(command.callback))
    ensures Truthy(command.callback) ==> (r.Some? <==> command.args.Arr?)
    ensures Truthy(command.callback) && r.Some? ==>
              var n := |command.args.items|;
              var extra := if Truthy(data) then Concatenated(data) else [];
              && |r.value| == n + 1 + |extra|
              && (forall i :: 0 <= i < n ==> r.value[i] == Plain(command.args.items[i]))
              && r.value[n] == Deliver
              && (forall i :: 0 <= i < |extra| ==> r.value[n + 1 + i] == Plain(extra[i]))
    ensures !Truthy(command.callback) ==>
              && (r.Some? <==> ApplyList(command.args).Some?)
              && (r.Some? ==> |r.value| == |ApplyList(command.args).value|
                              && forall i :: 0 <= i < |r.value| ==> r.value[i] == Plain(ApplyList(command.args).value[i]))
  {
    if Truthy(command.callback) then
      if command.args.Arr? then
        var extra := if Truthy(data) then Concatenated(data) else [];
        Some(Plains(command.args.items) + [Deliver] + Plains(extra))
      else None
    else
      match ApplyList(command.args)
      case Some(items) => Some(Plains(items))
      case None => None
  }

  /** The `call` branch once `_getObject` has answered. The error is not
      checked: a failed walk leaves `obj` undefined and `obj.apply` throws, as
      it does for a target that is not a function. */
  function CallSpec(command: Command, data: Value, w: Walked): (r: Outcome)
    ensures r.Invoked? || r.Threw?
    ensures r.Invoked? <==> w.Found? && w.target.Func? && CallArgs(command, data).Some?
    ensures r.Invoked? ==> r.call == Invocation(w.parent, w.target, CallArgs(command, data).value)
    ensures r.early <==> !Truthy(command.callback)
  {
    var early := !Truthy(command.callback);
    var args := CallArgs(command, data);
    if w.NoSuchObject? || !w.target.Func? || args.None? then Threw(early)
    else Invoked(early, Invocation(w.parent, w.target, args.value))
  }

  /** The split path and engine name `execute` works with. */
  function PathOf(command: Command, opts: Opts): seq<string> {
    if opts.runtime.Some? then opts.objPath else Split(command.objPath, '.')
  }

  function EngineOf(command: Command, opts: Opts): string {
    if opts.runtime.Some? then opts.runtime.value else Split(command.objPath, '.')[0]
  }

  /** `Remote.prototype.execute` against the instance graphs of the runtimes,
      keyed by engine name. */
  function ExecuteSpec(instances: map<string, Value>, command: Command, opts: Opts): (r: Executed)
    requires opts.runtime.Some? ==> opts.runtime.value in instances
    ensures r.instances.Keys == instances.Keys
    ensures forall e :: e in instances && e != EngineOf(command, opts) ==> r.instances[e] == instances[e]
    ensures r.instances != instances ==> command.cmd == "set" && Truthy(command.args) && r.outcome.Done?
    ensures EngineOf(command, opts) !in instances ==> r == Executed(Done(None), instances)
    ensures command.cmd == "set" ==> r.outcome.Done? || r.outcome == Threw(false)
    ensures r.outcome.Done? && r.outcome.event.Some? ==> r.outcome.event.value == Callback(command.id, [])
  {
    var path := PathOf(command, opts);
    var engine := EngineOf(command, opts);
    if engine !in instances then Executed(Done(None), instances)
    else
      var root := instances[engine];
      if command.cmd == "call" then
        // reading a property of an undefined or null instance throws before
        // `_getObject` calls back, so nothing completes
        if root.Undefined? || root.Null? then Executed(Threw(false), instances)
        else Executed(CallSpec(command, opts.data, Walk(path, root, 1)), instances)
      else if command.cmd == "set" then
        if !Truthy(command.args) then Executed(Done(None), instances)
        else
          match Walk(path, root, 1)
          case NoSuchObject(_) => Executed(Threw(false), instances)
          case Found(_, _) =>
            var e := if Truthy(command.callback) then Some(Callback(command.id, [])) else None;
            Executed(Done(e), instances[engine := Assign(root, path[1..], command.args)])
      else Executed(Ignored, instances)
  }

  /** A `set` whose value is falsy or absent completes with no event and leaves
      every graph as it was. */
  lemma SetWithoutValue(instances: map<string, Value>, command: Command, opts: Opts)
    requires opts.runtime.Some? ==> opts.runtime.value in instances
    requires command.cmd == "set" && !Truthy(command.args)
    ensures ExecuteSpec(instances, command, opts) == Executed(Done(None), instances)
  {
  }

  /** A `set` on a slot that is missing or falsy (including a path with no
      segment after the engine name) throws and changes nothing: `set` can
      neither create a property nor overwrite a falsy one. */
  lemma {:induction false} SetNeedsTruthySlot(instances: map<string, Value>, command: Command, opts: Opts)
    requires opts.runtime.Some? ==> opts.runtime.value in instances
    requires EngineOf(command, opts) in instances
    requires command.cmd == "set" && Truthy(command.args)
    requires |PathOf(command, opts)| < 2
             || !Truthy(Lookup(instances[EngineOf(command, opts)], PathOf(command, opts)[1..]))
    ensures ExecuteSpec(instances, command, opts) == Executed(Threw(false), instances)
  {
    var path := PathOf(command, opts);
    var root := instances[EngineOf(command, opts)];
    if |path| < 2 {
      WalkPastEndFails(path, root, 1);
    } else {
      WalkResolves(path, root, 1);
      assert path[1..|path|] == path[1..];
    }
  }

  /** A successful `set` writes the value into the last segment of its parent
      and nothing else: other engines and every slot apart from the written one
      read as before. It completes with an empty-argument callback exactly when
      `callback` is truthy. */
  lemma {:induction false} SetWritesOneSlot(instances: map<string, Value>, command: Command, opts: Opts, q: seq<string>)
    requires opts.runtime.Some? ==> opts.runtime.value in instances
    requires EngineOf(command, opts) in instances
    requires command.cmd == "set" && Truthy(command.args)
    requires Walk(PathOf(command, opts), instances[EngineOf(command, opts)], 1).Found?
    ensures var r := ExecuteSpec(instances, command, opts);
            var engine := EngineOf(command, opts);
            var keys := PathOf(command, opts)[1..];
            && r.outcome == Done(if Truthy(command.callback) then Some(Callback(command.id, [])) else None)
            && Lookup(r.instances[engine], keys) == command.args
            && (Apart(q, keys) ==> Lookup(r.instances[engine], q) == Lookup(instances[engine], q))
  {
    var path := PathOf(command, opts);
    var root := instances[EngineOf(command, opts)];
    WalkResolves(path, root, 1);
    PrefixesAreObjects(path, root);
    AssignFrame(root, path[1..], command.args, q);
  }

  /** Along a path that resolves, every value before the last is an object. */
  lemma {:induction false} PrefixesAreObjects(path: seq<string>, root: Value)
    requires 2 <= |path|
    requires forall j :: 1 < j <= |path| ==> Truthy(Lookup(root, path[1..j]))
    ensures forall j :: 0 <= j < |path[1..]| ==> Lookup(root, path[1..][..j]).Obj?
  {
    forall j | 0 <= j < |path[1..]|
      ensures Lookup(root, path[1..][..j]).Obj?
    {
      assert path[1..][..j + 1] == path[1..j + 2];
      assert Truthy(Lookup(root, path[1..][..j] + [path[1..][j]])) by {
        assert path[1..][..j] + [path[1..][j]] == path[1..][..j + 1];
      }
      LookupAppend(root, path[1..][..j], path[1..][j]);
      TruthyGetIsOwn(Lookup(root, path[1..][..j]), path[1..][j]);
    }
  }

  /** A value written by `set` is what a later `call` on the same path finds:
      the walk now succeeds and yields the written value as its target. */
  lemma {:induction false} SetThenWalk(instances: map<string, Value>, command: Command, opts: Opts)
    requires opts.runtime.Some? ==> opts.runtime.value in instances
    requires EngineOf(command, opts) in instances
    requires command.cmd == "set" && Truthy(command.args)
    requires Walk(PathOf(command, opts), instances[EngineOf(command, opts)], 1).Found?
    ensures var r := ExecuteSpec(instances, command, opts);
            var w := Walk(PathOf(command, opts), r.instances[EngineOf(command, opts)], 1);
            w.Found? && w.target == command.args
  {
    var path := PathOf(command, opts);
    var engine := EngineOf(command, opts);
    var root := instances[engine];
    var keys := path[1..];
    WalkResolves(path, root, 1);
    PrefixesAreObjects(path, root);
    var after := Assign(root, keys, command.args);
    assert ExecuteSpec(instances, command, opts).instances[engine] == after;
    AssignFrame(root, keys, command.args, []);
    forall j | 1 < j <= |path|
      ensures Truthy(Lookup(after, path[1..j]))
    {
      if j == |path| {
        assert path[1..j] == keys;
      } else {
        assert path[1..j] == keys[..j - 1];
        AssignKeepsObjects(root, keys, command.args, j - 1);
      }
    }
    WalkResolves(path, after, 1);
    assert path[1..|path|] == keys;
  }

  /** A `call` changes no graph. It invokes its target exactly when the
      instance can be read, the path resolves to a function and the argument
      list can be built, and then applies the target to its parent; otherwise
      it throws. With a falsy `callback` it completes with no event before the
      target runs (unless reading the instance already threw); with a truthy
      one nothing completes until the target invokes the delivery function it
      receives. */
  lemma CallCompletion(instances: map<string, Value>, command: Command, opts: Opts)
    requires opts.runtime.Some? ==> opts.runtime.value in instances
    requires EngineOf(command, opts) in instances
    requires command.cmd == "call"
    ensures var r := ExecuteSpec(instances, command, opts);
            var root := instances[EngineOf(command, opts)];
            var w := Walk(PathOf(command, opts), root, 1);
            var args := CallArgs(command, opts.data);
            && r.instances == instances
            && (r.outcome.Invoked? || r.outcome.Threw?)
            && (r.outcome.Invoked? <==> !root.Undefined? && !root.Null? && w.Found? && w.target.Func? && args.Some?)
            && (r.outcome.Invoked? ==> r.outcome.call == Invocation(w.parent, w.target, args.value))
            && (root.Undefined? || root.Null? ==> r.outcome == Threw(false))
            && (!root.Undefined? && !root.Null? ==> (r.outcome.early <==> !Truthy(command.callback)))
            && (r.outcome.Invoked? ==> Truthy(command.callback) == (Deliver in r.outcome.call.args))
  {
  }

  /** The per-command answers of the collaborators: the runtime's permission
      check, and for a `call` with a callback, the arguments the target passes
      to the delivery function (None when it never calls it). */
  datatype CommandInput = CommandInput(permitted: bool, delivery: Option<seq<Value>>)

  /** How a batch ends. Responded: the callback events are sent. Stalled: a
      command never completed, so the batch never finishes. Crashed: a
      TypeError escaped. Each carries the events collected so far. */
  datatype Batch = Responded(events: seq<Callback>) | Stalled(events: seq<Callback>) | Crashed(events: seq<Callback>)

  datatype Processed = Processed(batch: Batch, instances: map<string, Value>)

  /** One command of a batch: either the iteration goes on with the graphs and
      the events collected so far, or the batch ends here. */
  datatype Step = Next(instances: map<string, Value>, acc: seq<Callback>) | Stop(result: Processed)

  function EngineName(command: Command): string {
    Split(command.objPath, '.')[0]
  }

  /** `newOpts` of `_processCommands`: runtime, split path, and `{req, res}`. */
  function CommandOpts(command: Command, req: Value, res: Value): Opts {
    Opts(Some(EngineName(command)), Split(command.objPath, '.'), Obj(map["req" := req, "res" := res]))
  }

  /** The iteration body of `_processCommands` for one command: a command whose
      engine has no runtime, or whose permission check answers false, is
      skipped; otherwise it is executed and its completion, when not null, is
      appended to the events. */
  function StepSpec(instances: map<string, Value>, c: Command, input: CommandInput,
                    req: Value, res: Value, acc: seq<Callback>): (r: Step)
    ensures r.Next? ==> r.instances.Keys == instances.Keys && acc <= r.acc && |r.acc| <= |acc| + 1
    ensures r.Next? && |r.acc| > |acc| ==>
              r.acc[|acc|].id == c.id && input.permitted && EngineName(c) in instances
    ensures r.Stop? ==> r.result.instances.Keys == instances.Keys && r.result.batch.events == acc
                        && !r.result.batch.Responded?
    ensures EngineName(c) !in instances || !input.permitted ==> r == Next(instances, acc)
    ensures EngineName(c) in instances && input.permitted ==>
              var x := ExecuteSpec(instances, c, CommandOpts(c, req, res));
              && (x.outcome.Done? ==>
                    r == Next(x.instances, acc + if x.outcome.event.Some? then [x.outcome.event.value] else []))
              && (x.outcome.Invoked? && x.outcome.early ==> r == Next(x.instances, acc))
              && (x.outcome.Invoked? && !x.outcome.early && input.delivery.Some? ==>
                    r == Next(x.instances, acc + [Callback(c.id, input.delivery.value)]))
              && (x.outcome.Invoked? && !x.outcome.early && input.delivery.None? ==>
                    r == Stop(Processed(Stalled(acc), x.instances)))
              && (x.outcome.Threw? ==> r == Stop(Processed(Crashed(acc), x.instances)))
              && (x.outcome.Ignored? ==> r == Stop(Processed(Stalled(acc), x.instances)))
  {
    if EngineName(c) !in instances || !input.permitted then Next(instances, acc)
    else
      var x := ExecuteSpec(instances, c, CommandOpts(c, req, res));
      match x.outcome
      case Done(e) => Next(x.instances, acc + (if e.Some? then [e.value] else []))
      case Invoked(early, _) =>
        if early then Next(x.instances, acc)
        else if input.delivery.None? then Stop(Processed(Stalled(acc), x.instances))
        else Next(x.instances, acc + [Callback(c.id, input.delivery.value)])
      case Threw(_) => Stop(Processed(Crashed(acc), x.instances))
      case Ignored => Stop(Processed(Stalled(acc), x.instances))
  }

  /** `_processCommands`: the commands in order, then `callback(null, events)`. */
  function ProcessSpec(instances: map<string, Value>, cmds: seq<Command>, inputs: seq<CommandInput>,
                       req: Value, res: Value, acc: seq<Callback>): (r: Processed)
    requires |inputs| == |cmds|
    ensures r.instances.Keys == instances.Keys
    ensures acc <= r.batch.events && |r.batch.events| <= |acc| + |cmds|
    decreases |cmds|
  {
    if cmds == [] then Processed(Responded(acc), instances)
    else
      match StepSpec(instances, cmds[0], inputs[0], req, res, acc)
      case Next(instances', acc') => ProcessSpec(instances', cmds[1..], inputs[1..], req, res, acc')
      case Stop(result) => result
  }

  /** One unfolding of ProcessSpec. */
  lemma ProcessUnfold(instances: map<string, Value>, cmds: seq<Command>, inputs: seq<CommandInput>,
                      req: Value, res: Value, acc: seq<Callback>)
    requires |inputs| == |cmds| && cmds != []
    ensures var step := StepSpec(instances, cmds[0], inputs[0], req, res, acc);
            ProcessSpec(instances, cmds, inputs, req, res, acc)
            == if step.Next? then ProcessSpec(step.instances, cmds[1..], inputs[1..], req, res, step.acc)
               else step.result
  {
  }

  /** A command whose engine has no runtime, or whose permission is refused,
      contributes nothing: the batch comes out as if it were not there. */
  lemma {:induction false} RefusedCommandIsInert(instances: map<string, Value>, cmds: seq<Command>,
                                                 inputs: seq<CommandInput>, req: Value, res: Value,
                                                 acc: seq<Callback>, i: nat)
    requires |inputs| == |cmds| && i < |cmds|
    requires EngineName(cmds[i]) !in instances || !inputs[i].permitted
    ensures ProcessSpec(instances, cmds, inputs, req, res, acc)
            == ProcessSpec(instances, cmds[..i] + cmds[i + 1..], inputs[..i] + inputs[i + 1..], req, res, acc)
    decreases i
  {
    var cmds', inputs' := cmds[..i] + cmds[i + 1..], inputs[..i] + inputs[i + 1..];
    ProcessUnfold(instances, cmds, inputs, req, res, acc);
    if i == 0 {
      assert cmds' == cmds[1..] && inputs' == inputs[1..];
    } else {
      ProcessUnfold(instances, cmds', inputs', req, res, acc);
      assert cmds'[0] == cmds[0] && inputs'[0] == inputs[0];
      assert cmds'[1..] == cmds[1..][..i - 1] + cmds[1..][i..];
      assert inputs'[1..] == inputs[1..][..i - 1] + inputs[1..][i..];
      assert cmds[1..][i - 1] == cmds[i] && inputs[1..][i - 1] == inputs[i];
      var step := StepSpec(instances, cmds[0], inputs[0], req, res, acc);
      if step.Next? {
        RefusedCommandIsInert(step.instances, cmds[1..], inputs[1..], req, res, step.acc, i - 1);
      }
    }
  }

  /** Every callback event in the answer belongs to a command that was let
      through: its engine has a runtime and its permission was granted. */
  lemma {:induction false} EventsComeFromPermittedCommands(instances: map<string, Value>, cmds: seq<Command>,
                                                          inputs: seq<CommandInput>, req: Value, res: Value,
                                                          acc: seq<Callback>, k: nat)
    requires |inputs| == |cmds|
    requires |acc| <= k < |ProcessSpec(instances, cmds, inputs, req, res, acc).batch.events|
    ensures var e := ProcessSpec(instances, cmds, inputs, req, res, acc).batch.events[k];
            exists i :: 0 <= i < |cmds| && cmds[i].id == e.id && inputs[i].permitted
                        && EngineName(cmds[i]) in instances
    decreases |cmds|
  {
    var e := ProcessSpec(instances, cmds, inputs, req, res, acc).batch.events[k];
    var step := StepSpec(instances, cmds[0], inputs[0], req, res, acc);
    if step.Next? {
      if k < |step.acc| {
        assert 0 < |cmds| && cmds[0].id == e.id && inputs[0].permitted && EngineName(cmds[0]) in instances;
      } else {
        EventsComeFromPermittedCommands(step.instances, cmds[1..], inputs[1..], req, res, step.acc, k);
        var i :| 0 <= i < |cmds[1..]| && cmds[1..][i].id == e.id && inputs[1..][i].permitted
                 && EngineName(cmds[1..][i]) in step.instances;
        assert cmds[i + 1] == cmds[1..][i] && inputs[i + 1] == inputs[1..][i];
      }
    }
  }

  /** Processing runs the commands one after another: the batch of two lists
      in a row is the batch of the first, continued by the second from the
      graphs and events the first left, unless the first stopped. */
  lemma {:induction false} ProcessConcat(instances: map<string, Value>, cmds1: seq<Command>, inputs1: seq<CommandInput>,
                                         cmds2: seq<Command>, inputs2: seq<CommandInput>,
                                         req: Value, res: Value, acc: seq<Callback>)
    requires |inputs1| == |cmds1| && |inputs2| == |cmds2|
    ensures var p := ProcessSpec(instances, cmds1, inputs1, req, res, acc);
            ProcessSpec(instances, cmds1 + cmds2, inputs1 + inputs2, req, res, acc)
            == if p.batch.Responded? then ProcessSpec(p.instances, cmds2, inputs2, req, res, p.batch.events) else p
    decreases |cmds1|
  {
    if cmds1 == [] {
      assert cmds1 + cmds2 == cmds2 && inputs1 + inputs2 == inputs2;
    } else {
      var cmds, inputs := cmds1 + cmds2, inputs1 + inputs2;
      ProcessUnfold(instances, cmds, inputs, req, res, acc);
      ProcessUnfold(instances, cmds1, inputs1, req, res, acc);
      assert cmds[0] == cmds1[0] && inputs[0] == inputs1[0];
      var step := StepSpec(instances, cmds1[0], inputs1[0], req, res, acc);
      if step.Next? {
        assert cmds[1..] == cmds1[1..] + cmds2 && inputs[1..] == inputs1[1..] + inputs2;
        ProcessConcat(step.instances, cmds1[1..], inputs1[1..], cmds2, inputs2, req, res, step.acc);
      }
    }
  }

  /** A batch of one command: what its step leaves, answered when it goes on. */
  lemma ProcessOne(instances: map<string, Value>, c: Command, input: CommandInput,
                   req: Value, res: Value, acc: seq<Callback>)
    ensures var step := StepSpec(instances, c, input, req, res, acc);
            ProcessSpec(instances, [c], [input], req, res, acc)
            == if step.Next? then Processed(Responded(step.acc), step.instances) else step.result
  {
    ProcessUnfold(instances, [c], [input], req, res, acc);
    assert [c][1..] == [] && [input][1..] == [];
  }

  /** A permitted `call` with a truthy `callback` and array `args` whose path
      resolves to a function: when the target calls the delivery function with
      `vs`, the batch answers exactly `{id, args: vs}` after the events before
      it and no graph changes; when it never does, the batch stalls. */
  lemma DeliveredCallAnswers(instances: map<string, Value>, c: Command, delivery: Option<seq<Value>>,
                             req: Value, res: Value, acc: seq<Callback>)
    requires EngineName(c) in instances && c.cmd == "call" && Truthy(c.callback) && c.args.Arr?
    requires Walk(Split(c.objPath, '.'), instances[EngineName(c)], 1).Found?
    requires Walk(Split(c.objPath, '.'), instances[EngineName(c)], 1).target.Func?
    ensures ProcessSpec(instances, [c], [CommandInput(true, delivery)], req, res, acc)
            == if delivery.Some? then Processed(Responded(acc + [Callback(c.id, delivery.value)]), instances)
               else Processed(Stalled(acc), instances)
  {
    var opts := CommandOpts(c, req, res);
    CallCompletion(instances, c, opts);
    ProcessOne(instances, c, CommandInput(true, delivery), req, res, acc);
  }

  /** A permitted `call` with a falsy `callback` whose path resolves to a
      function and whose `args` `apply` accepts (an array, an array-like
      object, `undefined` or `null`) completes with no event and the batch goes
      on with no graph changed. */
  lemma EarlyCallAnswers(instances: map<string, Value>, c: Command, delivery: Option<seq<Value>>,
                         req: Value, res: Value, acc: seq<Callback>)
    requires EngineName(c) in instances && c.cmd == "call" && !Truthy(c.callback)
    requires ApplyList(c.args).Some?
    requires Walk(Split(c.objPath, '.'), instances[EngineName(c)], 1).Found?
    requires Walk(Split(c.objPath, '.'), instances[EngineName(c)], 1).target.Func?
    ensures ProcessSpec(instances, [c], [CommandInput(true, delivery)], req, res, acc)
            == Processed(Responded(acc), instances)
  {
    var opts := CommandOpts(c, req, res);
    CallCompletion(instances, c, opts);
    ProcessOne(instances, c, CommandInput(true, delivery), req, res, acc);
  }

  /** A permitted `set` with a truthy value onto a path that resolves writes
      the value there and answers `{id, args: []}` exactly when `callback` is
      truthy. */
  lemma SetAnswers(instances: map<string, Value>, c: Command, delivery: Option<seq<Value>>,
                   req: Value, res: Value, acc: seq<Callback>)
    requires EngineName(c) in instances && c.cmd == "set" && Truthy(c.args)
    requires Walk(Split(c.objPath, '.'), instances[EngineName(c)], 1).Found?
    ensures var p := ProcessSpec(instances, [c], [CommandInput(true, delivery)], req, res, acc);
            && p.batch == Responded(acc + if Truthy(c.callback) then [Callback(c.id, [])] else [])
            && Lookup(p.instances[EngineName(c)], Split(c.objPath, '.')[1..]) == c.args
  {
    var opts := CommandOpts(c, req, res);
    SetWritesOneSlot(instances, c, opts, []);
    ProcessOne(instances, c, CommandInput(true, delivery), req, res, acc);
  }

  /** A `call` with a falsy `callback` and a plain object without `length` as
      `args` invokes its target with no arguments, and the batch goes on. */
  lemma ScenarioCallObjectArgs()
    ensures var before := map["foo" := Obj(map["f" := Func(0)])];
            ProcessSpec(before, [Command(Num(1), "foo.f", "call", Obj(map[]), Bool(false))],
                        [CommandInput(true, None)], Null, Null, [])
            == Processed(Responded([]), before)
  {
    var before := map["foo" := Obj(map["f" := Func(0)])];
    var c := Command(Num(1), "foo.f", "call", Obj(map[]), Bool(false));
    SplitFooF(before["foo"]);
    EarlyCallAnswers(before, c, None, Null, Null, []);
  }

  lemma SplitFooF(foo: Value)
    requires foo == Obj(map["f" := Func(0)])
    ensures Split("foo.f", '.') == ["foo", "f"]
    ensures Walk(Split("foo.f", '.'), foo, 1) == Found(foo, Func(0))
  {
    assert Join(["foo", "f"], '.') == "foo.f";
    SplitJoin(["foo", "f"], '.');
  }

  /** The bridge over the runtimes' instance graphs, keyed by engine name. */
  class Remote {
    var instances: map<string, Value>

    constructor (instances: map<string, Value>)
      ensures this.instances == instances
    {
      this.instances := instances;
    }

    /** `Remote.prototype.execute`: resolve the runtime unless `opts` carries
        one, walk the path and perform the `call` or `set`. */
    method Execute(command: Command, opts: Opts) returns (o: Outcome)
      requires opts.runtime.Some? ==> opts.runtime.value in instances
      modifies this
      ensures Executed(o, instances) == ExecuteSpec(old(instances), command, opts)
    {
      var path: seq<string>;
      var engine: string;
      if opts.runtime.None? {
        path := Split(command.objPath, '.');
        engine := path[0];
        if engine !in instances {
          return Done(None);
        }
      } else {
        path := opts.objPath;
        engine := opts.runtime.value;
      }
      var root := instances[engine];
      if command.cmd == "call" {
        if root.Undefined? || root.Null? {
          return Threw(false);
        }
        var w := Walk(path, root, 1);
        o := CallSpec(command, opts.data, w);
      } else if command.cmd == "set" {
        if !Truthy(command.args) {
          return Done(None);
        }
        var w := Walk(path, root, 1);
        if w.NoSuchObject? {
          // the error is not checked: `_parent` is undefined and the assignment throws
          return Threw(false);
        }
        instances := instances[engine := Assign(root, path[1..], command.args)];
        if Truthy(command.callback) {
          o := Done(Some(Callback(command.id, [])));
        } else {
          o := Done(None);
        }
      } else {
        o := Ignored;
      }
    }

    /** The iteration body of `_processCommands` for one command. */
    method RunCommand(command: Command, input: CommandInput, req: Value, res: Value, events: seq<Callback>)
      returns (step: Step)
      modifies this
      ensures step == StepSpec(old(instances), command, input, req, res, events)
      ensures instances == if step.Next? then step.instances else step.result.instances
    {
      if EngineName(command) !in instances || !input.permitted {
        return Next(instances, events);
      }
      var o := Execute(command, CommandOpts(command, req, res));
      match o
      case Done(e) =>
        step := Next(instances, events + if e.Some? then [e.value] else []);
      case Invoked(early, _) =>
        if early {
          step := Next(instances, events);
        } else if input.delivery.None? {
          step := Stop(Processed(Stalled(events), instances));
        } else {
          step := Next(instances, events + [Callback(command.id, input.delivery.value)]);
        }
      case Threw(_) =>
        step := Stop(Processed(Crashed(events), instances));
      case Ignored =>
        step := Stop(Processed(Stalled(events), instances));
    }

    /** `_processCommands` over one request's commands, in order. */
    method ProcessCommands(cmds: seq<Command>, inputs: seq<CommandInput>, req: Value, res: Value)
      returns (b: Batch)
      requires |inputs| == |cmds|
      modifies this
      ensures Processed(b, instances) == ProcessSpec(old(instances), cmds, inputs, req, res, [])
    {
      var events: seq<Callback> := [];
      var i := 0;
      while i < |cmds|
        invariant 0 <= i <= |cmds|
        invariant ProcessSpec(old(instances), cmds, inputs, req, res, [])
                  == ProcessSpec(instances, cmds[i..], inputs[i..], req, res, events)
      {
        assert cmds[i..][0] == cmds[i] && inputs[i..][0] == inputs[i];
        assert cmds[i..][1..] == cmds[i + 1..] && inputs[i..][1..] == inputs[i + 1..];
        ProcessUnfold(instances, cmds[i..], inputs[i..], req, res, events);
        var step := RunCommand(cmds[i], inputs[i], req, res, events);
        if step.Stop? {
          return step.result.batch;
        }
        events := step.acc;
        i := i + 1;
      }
      b := Responded(events);
    }
  }

  /** A `set` onto a slot that currently holds 0 throws instead of writing. */
  lemma ScenarioSetOverZero()
    ensures var before := map["foo" := Obj(map["bar" := Num(0)])];
            ProcessSpec(before, [Command(Num(1), "foo.bar", "set", Num(5), Bool(false))],
                        [CommandInput(true, None)], Null, Null, [])
            == Processed(Crashed([]), before)
  {
    var before := map["foo" := Obj(map["bar" := Num(0)])];
    var c := Command(Num(1), "foo.bar", "set", Num(5), Bool(false));
    SplitFooBar();
    var data := Obj(map["req" := Null, "res" := Null]);
    assert CommandOpts(c, Null, Null) == Opts(Some("foo"), ["foo", "bar"], data);
    ScenarioSetOverZeroThrows(c, data);
    assert StepSpec(before, c, CommandInput(true, None), Null, Null, []) == Stop(Processed(Crashed([]), before));
    ProcessUnfold(before, [c], [CommandInput(true, None)], Null, Null, []);
  }

  lemma ScenarioSetOverZeroThrows(c: Command, data: Value)
    requires c == Command(Num(1), "foo.bar", "set", Num(5), Bool(false))
    ensures var before := map["foo" := Obj(map["bar" := Num(0)])];
            ExecuteSpec(before, c, Opts(Some("foo"), ["foo", "bar"], data)) == Executed(Threw(false), before)
  {
    var before := map["foo" := Obj(map["bar" := Num(0)])];
    assert Walk(["foo", "bar"], before["foo"], 1) == NoSuchObject("bar");
  }

  /** A `set` onto a slot holding a truthy value writes it, and without a
      callback the answer is empty. */
  lemma ScenarioSetOverTruthy()
    ensures var before := map["foo" := Obj(map["bar" := Num(1)])];
            ProcessSpec(before, [Command(Num(1), "foo.bar", "set", Num(5), Bool(false))],
                        [CommandInput(true, None)], Null, Null, [])
            == Processed(Responded([]), map["foo" := Obj(map["bar" := Num(5)])])
  {
    var before := map["foo" := Obj(map["bar" := Num(1)])];
    var c := Command(Num(1), "foo.bar", "set", Num(5), Bool(false));
    var after := map["foo" := Obj(map["bar" := Num(5)])];
    SplitFooBar();
    var data := Obj(map["req" := Null, "res" := Null]);
    assert CommandOpts(c, Null, Null) == Opts(Some("foo"), ["foo", "bar"], data);
    ScenarioSetOverTruthyExecutes(c, data);
    assert StepSpec(before, c, CommandInput(true, None), Null, Null, []) == Next(after, []);
    ProcessUnfold(before, [c], [CommandInput(true, None)], Null, Null, []);
    assert [c][1..] == [];
  }

  lemma ScenarioSetOverTruthyExecutes(c: Command, data: Value)
    requires c == Command(Num(1), "foo.bar", "set", Num(5), Bool(false))
    ensures ExecuteSpec(map["foo" := Obj(map["bar" := Num(1)])], c, Opts(Some("foo"), ["foo", "bar"], data))
            == Executed(Done(None), map["foo" := Obj(map["bar" := Num(5)])])
  {
    var before := map["foo" := Obj(map["bar" := Num(1)])];
    var path := ["foo", "bar"];
    assert Walk(path, before["foo"], 1) == Found(before["foo"], Num(1));
    assert Assign(before["foo"], path[1..], Num(5)) == Obj(map["bar" := Num(5)]);
  }

  lemma SplitFooBar()
    ensures Split("foo.bar", '.') == ["foo", "bar"]
  {
    assert Join(["foo", "bar"], '.') == "foo.bar";
    SplitJoin(["foo", "bar"], '.');
  }
}
