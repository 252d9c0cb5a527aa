/** The interpreter as it runs (helper/turnstile.py:54-163): registers, result and ordered maps that the
    operations update in place. A raised exception is a status, and what was written before it stays. */
module TurnstileMachine {
  import opened TurnstileValues
  import opened Turnstile
  import opened Wrappers

  lemma {:induction false} ReadAllSnoc(vm: Vm, regs: seq<Value>, reg: Value)
    ensures ReadAll(vm, regs + [reg]) ==
            if ReadAll(vm, regs).Some? && Read(vm, reg).Some? then Some(ReadAll(vm, regs).value + [Read(vm, reg).value])
            else None
    decreases |regs|
  {
    if regs == [] {
      var one := regs + [reg];
      assert one[1..] == [] && ReadAll(vm, one[1..]) == Some([]);
      if Read(vm, reg).Some? {
        var v := Read(vm, reg).value;
        assert [v] + [] == [v] && [] + [v] == [v];
      }
    } else {
      assert (regs + [reg])[1..] == regs[1..] + [reg];
      ReadAllSnoc(vm, regs[1..], reg);
      if ReadAll(vm, regs).Some? && Read(vm, reg).Some? {
        var first, rest, last := Read(vm, regs[0]).value, ReadAll(vm, regs[1..]).value, Read(vm, reg).value;
        assert [first] + (rest + [last]) == ([first] + rest) + [last];
      }
    }
  }

  lemma {:induction false} ReadAllPrefix(vm: Vm, regs: seq<Value>, n: nat)
    requires n <= |regs| && ReadAll(vm, regs[..n]).None?
    ensures ReadAll(vm, regs).None?
    decreases |regs| - n
  {
    if n < |regs| {
      assert regs[..n + 1] == regs[..n] + [regs[n]];
      ReadAllSnoc(vm, regs[..n], regs[n]);
      ReadAllPrefix(vm, regs, n + 1);
    } else {
      assert regs[..n] == regs;
    }
  }

  class Machine {
    const lib: Library
    var values: map<Key, Value>
    var result: Text
    var objects: seq<Ordered>
    var draws: nat
    var calls: nat
    var writes: nat

    function View(): Vm
      reads this
    {
      Vm(values, result, objects, draws, calls, writes)
    }

    constructor (lib: Library, tokens: Value, pToken: Text)
      ensures this.lib == lib && View() == Start(tokens, pToken)
    {
      this.lib := lib;
      values := Operations() + map[NumKey(9.0) := tokens, NumKey(10.0) := Str(Lit("window")),
                                   NumKey(16.0) := Str(pToken)];
      result, objects, draws, calls, writes := [], [], 0, 0, 0;
    }

    /** Writes a register. */
    method Put(reg: Value, v: Value) returns (status: Status)
      modifies this`values, this`writes
      ensures Outcome(View(), status) == Store(old(View()), reg, v)
    {
      if KeyOf(reg).None? { return Raised; }
      values := values[KeyOf(reg).value := v];
      writes := writes + 1;
      status := Returned;
    }

    /** The contents of the registers that the operands name, None if one is missing. */
    method Params(args: seq<Value>) returns (params: Option<seq<Value>>)
      ensures params == ReadAll(View(), args)
    {
      var items: seq<Value> := [];
      for i := 0 to |args|
        invariant ReadAll(View(), args[..i]) == Some(items)
      {
        assert args[..i + 1] == args[..i] + [args[i]];
        ReadAllSnoc(View(), args[..i], args[i]);
        var v := Read(View(), args[i]);
        if v.None? {
          ReadAllPrefix(View(), args, i + 1);
          return None;
        }
        items := items + [v.value];
      }
      assert args[..|args|] == args;
      params := Some(items);
    }

    method Op1(e: Value, t: Value) returns (status: Status)
      modifies this
      ensures Outcome(View(), status) == Xor(lib, old(View()), e, t)
    {
      var text, key := Read(View(), e), Read(View(), t);
      if text.None? || key.None? { return Raised; }
      var masked := XorText(ToStr(lib.show, text.value), ToStr(lib.show, key.value));
      if masked.None? { return Raised; }
      status := Put(e, Str(masked.value));
    }

    method Op3(e: Value) returns (status: Status)
      modifies this`result, this`writes
      ensures Outcome(View(), status) == Output(lib, old(View()), e)
    {
      if !e.Str? || !Encodable(e.s) { return Raised; }
      result := lib.encode(e.s);
      writes := writes + 1;
      status := Returned;
    }

    method Op5(e: Value, t: Value) returns (status: Status)
      modifies this
      ensures Outcome(View(), status) == Combine(lib, old(View()), e, t)
    {
      var current, incoming := Read(View(), e), Read(View(), t);
      if current.None? || incoming.None? { return Raised; }
      ghost var combined := Combined(lib, current.value, incoming.value);
      assert Combine(lib, View(), e, t) == Store(View(), e, combined);
      if current.value.List? {
        status := Put(e, List(current.value.items + [incoming.value]));
      } else if Textual(current.value) || Textual(incoming.value) {
        status := Put(e, Str(ToStr(lib.show, current.value) + ToStr(lib.show, incoming.value)));
      } else {
        status := Put(e, Str(Lit("NaN")));
      }
    }

    method Op6(e: Value, t: Value, n: Value) returns (status: Status)
      modifies this
      ensures Outcome(View(), status) == Property(lib, old(View()), e, t, n, true)
    {
      var left, right := Read(View(), t), Read(View(), n);
      if left.None? || right.None? { return Raised; }
      var path := Path(lib, left.value, right.value);
      status := Put(e, Str(Redirected(path)));
    }

    method Op8(e: Value, t: Value) returns (status: Status)
      modifies this
      ensures Outcome(View(), status) == Copy(old(View()), e, t)
    {
      var v := Read(View(), t);
      if v.None? { return Raised; }
      status := Put(e, v.value);
    }

    method Op14(e: Value, t: Value) returns (status: Status)
      modifies this
      ensures Outcome(View(), status) == Parse(lib, old(View()), e, t)
    {
      var text := Read(View(), t);
      if text.None? || !text.value.Str? { return Raised; }
      var v := lib.loads(text.value.s);
      if v.None? { return Raised; }
      status := Put(e, v.value);
    }

    method Op15(e: Value, t: Value) returns (status: Status)
      modifies this
      ensures Outcome(View(), status) == Serialise(lib, old(View()), e, t)
    {
      var v := Read(View(), t);
      if v.None? || !Plain(v.value) { return Raised; }
      status := Put(e, Str(lib.dumps(v.value)));
    }

    method Op18(e: Value) returns (status: Status)
      modifies this
      ensures Outcome(View(), status) == Decode(lib, old(View()), e)
    {
      var v := Read(View(), e);
      if v.None? { return Raised; }
      var text := lib.decode(ToStr(lib.show, v.value));
      if text.None? { return Raised; }
      status := Put(e, Str(text.value));
    }

    method Op19(e: Value) returns (status: Status)
      modifies this
      ensures Outcome(View(), status) == Encode(lib, old(View()), e)
    {
      var v := Read(View(), e);
      if v.None? { return Raised; }
      var text := ToStr(lib.show, v.value);
      if !Encodable(text) { return Raised; }
      status := Put(e, Str(lib.encode(text)));
    }

    method Op24(e: Value, t: Value, n: Value) returns (status: Status)
      modifies this
      ensures Outcome(View(), status) == Property(lib, old(View()), e, t, n, false)
    {
      var left, right := Read(View(), t), Read(View(), n);
      if left.None? || right.None? { return Raised; }
      status := Put(e, Str(Path(lib, left.value, right.value)));
    }

    method ReflectSet(params: seq<Value>) returns (status: Status)
      modifies this`objects
      ensures Outcome(View(), status) == SetProperty(lib, old(View()), params)
    {
      if |params| < 3 || !params[0].Obj? { return Raised; }
      var o := params[0].ref;
      if o >= |objects| { return Escaped; }
      objects := objects[o := Added(objects[o], Show(lib.show, params[1]), params[2])];
      status := Returned;
    }

    method Op7(args: seq<Value>) returns (status: Status)
      modifies this
      ensures Outcome(View(), status) == Invoke(lib, old(View()), args)
      decreases |args|, 0
    {
      if args == [] { return Raised; }
      var target := Read(View(), args[0]);
      if target.None? { return Raised; }
      var params := Params(args[1..]);
      if params.None? { return Raised; }
      if Is(target.value, "window.Reflect.set") {
        status := ReflectSet(params.value);
      } else if target.value.Fn? {
        status := Call(target.value.op, params.value);
      } else {
        status := Returned;
      }
    }

    method Op17(args: seq<Value>) returns (status: Status)
      modifies this
      ensures Outcome(View(), status) == Evaluate(lib, old(View()), args)
      decreases |args|, 0
    {
      if |args| < 2 { return Raised; }
      var target := Read(View(), args[1]);
      if target.None? { return Raised; }
      var params := Params(args[2..]);
      if params.None? { return Raised; }
      if Is(target.value, "window.performance.now") || Is(target.value, "window.Math.random") {
        draws := draws + 1;
        status := Put(args[0], Float(lib.numbers(draws - 1)));
      } else if Is(target.value, "window.Object.create") {
        objects := objects + [Ordered([], map[])];
        status := Put(args[0], Obj(|objects| - 1));
      } else if Is(target.value, "window.Object.keys") {
        status := Put(args[0], STORAGE_KEYS);
      } else if target.value.Fn? {
        status := Call(target.value.op, params.value);
        if status.Returned? {
          status := Put(args[0], Null);
        }
      } else {
        status := Returned;
      }
    }

    method Op20(args: seq<Value>) returns (status: Status)
      modifies this
      ensures Outcome(View(), status) == IfEqual(lib, old(View()), args)
      decreases |args|, 0
    {
      if |args| < 3 { return Raised; }
      var left, right := Read(View(), args[0]), Read(View(), args[1]);
      if left.None? || right.None? { return Raised; }
      if !PyEq(left.value, right.value) { return Returned; }
      var target := Read(View(), args[2]);
      if target.None? { return Raised; }
      if !target.value.Fn? { return Returned; }
      var params := Params(args[3..]);
      if params.None? { return Raised; }
      status := Call(target.value.op, params.value);
    }

    method Op23(args: seq<Value>) returns (status: Status)
      modifies this
      ensures Outcome(View(), status) == IfDefined(lib, old(View()), args)
      decreases |args|, 0
    {
      if |args| < 2 { return Raised; }
      var v := Read(View(), args[0]);
      if v.None? { return Raised; }
      if v.value.Null? { return Returned; }
      var target := Read(View(), args[1]);
      if target.None? { return Raised; }
      if !target.value.Fn? { return Returned; }
      status := Call(target.value.op, args[2..]);
    }

    method CallSimple(op: int, args: seq<Value>) returns (status: Status)
      modifies this
      ensures Outcome(View(), status) == Simple(lib, old(View()), op, args)
    {
      var n := |args|;
      if op == 1 && n == 2 { status := Op1(args[0], args[1]); }
      else if op == 2 && n == 2 { status := Put(args[0], args[1]); }
      else if op == 3 && n == 1 { status := Op3(args[0]); }
      else if op == 5 && n == 2 { status := Op5(args[0], args[1]); }
      else if op == 6 && n == 3 { status := Op6(args[0], args[1], args[2]); }
      else if op == 8 && n == 2 { status := Op8(args[0], args[1]); }
      else if op == 14 && n == 2 { status := Op14(args[0], args[1]); }
      else if op == 15 && n == 2 { status := Op15(args[0], args[1]); }
      else if op == 18 && n == 1 { status := Op18(args[0]); }
      else if op == 19 && n == 1 { status := Op19(args[0]); }
      else if op == 21 { status := Returned; }
      else if op == 24 && n == 3 { status := Op24(args[0], args[1], args[2]); }
      else { status := Raised; }
    }

    method Call(op: int, args: seq<Value>) returns (status: Status)
      modifies this
      ensures Outcome(View(), status) == Exec(lib, old(View()), op, args)
      decreases |args|, 1
    {
      if op !in BUILT_IN { return Escaped; }
      calls := calls + 1;
      if op == 7 { status := Op7(args); }
      else if op == 17 { status := Op17(args); }
      else if op == 20 { status := Op20(args); }
      else if op == 23 { status := Op23(args); }
      else { status := CallSimple(op, args); }
    }

    /** The body of the loop. */
    method Execute(token: Value) returns (status: Status)
      modifies this
      ensures Outcome(View(), status) == Dispatch(lib, old(View()), token)
    {
      var parts := Split(token);
      if parts.None? { return Raised; }
      var (name, args) := parts.value;
      if KeyOf(name).None? { return Raised; }
      var operation := Read(View(), name);
      if operation.Some? && operation.value.Fn? {
        status := Call(operation.value.op, args);
      } else {
        status := Returned;
      }
    }
  }

  /** The whole interpreter. */
  method SolveToken(lib: Library, dx: Text, pToken: Text) returns (solved: Solved)
    ensures solved == Solve(lib, dx, pToken)
  {
    var program := Program(lib, dx, pToken);
    if program.None? { return NoToken; }
    var machine := new Machine(lib, program.value, pToken);
    var items := Items(program.value);
    if items.None? { return Uncaught; }
    var tokens := items.value;
    for i := 0 to |tokens|
      invariant machine.lib == lib
      invariant RunAll(lib, machine.View(), tokens[i..]) == RunAll(lib, Start(program.value, pToken), tokens)
    {
      assert tokens[i..][1..] == tokens[i + 1..];
      var _ := machine.Execute(tokens[i]);
    }
    solved := if machine.result == [] then NoToken else Token(machine.result);
  }
}
