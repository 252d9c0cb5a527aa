/** What every program of the Turnstile interpreter keeps (helper/turnstile.py:54-163). */
module TurnstileResults {
  import opened TurnstileValues
  import opened Turnstile
  import opened Wrappers

  // ---------- nothing foreign is ever called ----------

  /** Every operation inside the value is built in, and every ordered map is one of the first n. */
  ghost predicate Closed(v: Value, n: nat) {
    match v
    case List(items) => forall i | 0 <= i < |items| :: Closed(items[i], n)
    case Dict(fields) => forall i | 0 <= i < |fields| :: assert fields[i] < v; Closed(fields[i].1, n)
    case Obj(ref) => ref < n
    case Fn(op) => op in BUILT_IN
    case _ => true
  }

  ghost predicate AllClosed(vs: seq<Value>, n: nat) {
    forall i | 0 <= i < |vs| :: Closed(vs[i], n)
  }

  ghost predicate ObjectOK(m: Ordered, n: nat) {
    OrderedOK(m) && forall k | k in m.values :: Closed(m.values[k], n)
  }

  ghost predicate VmOK(vm: Vm) {
    && (forall k | k in vm.values :: Closed(vm.values[k], |vm.objects|))
    && (forall i | 0 <= i < |vm.objects| :: ObjectOK(vm.objects[i], |vm.objects|))
  }

  /** JSON text contains neither operations nor ordered maps. */
  ghost predicate ReadsJson(lib: Library) {
    forall t :: lib.loads(t).Some? ==> Plain(lib.loads(t).value)
  }

  lemma {:induction false} PlainIsClosed(v: Value, n: nat)
    requires Plain(v)
    ensures Closed(v, n)
    decreases v
  {
    match v {
      case List(items) =>
        forall i | 0 <= i < |items|
          ensures Closed(items[i], n)
        {
          PlainIsClosed(items[i], n);
        }
      case Dict(fields) =>
        forall i | 0 <= i < |fields|
          ensures Closed(fields[i].1, n)
        {
          assert fields[i] < v;
          PlainIsClosed(fields[i].1, n);
        }
      case _ =>
    }
  }

  lemma {:induction false} ClosedInMore(v: Value, n: nat, m: nat)
    requires Closed(v, n) && n <= m
    ensures Closed(v, m)
    decreases v
  {
    match v {
      case List(items) =>
        forall i | 0 <= i < |items|
          ensures Closed(items[i], m)
        {
          ClosedInMore(items[i], n, m);
        }
      case Dict(fields) =>
        forall i | 0 <= i < |fields|
          ensures Closed(fields[i].1, m)
        {
          assert fields[i] < v;
          ClosedInMore(fields[i].1, n, m);
        }
      case _ =>
    }
  }

  /** A step that ends well: nothing foreign was touched and the machine is closed again. */
  ghost predicate Fine(vm: Vm, o: Outcome) {
    !o.status.Escaped? && VmOK(o.vm) && |vm.objects| <= |o.vm.objects|
  }

  lemma StoreIsFine(vm: Vm, reg: Value, v: Value)
    requires VmOK(vm) && Closed(v, |vm.objects|)
    ensures Fine(vm, Store(vm, reg, v))
  {
  }

  lemma ReadAllIsClosed(vm: Vm, regs: seq<Value>)
    requires VmOK(vm) && ReadAll(vm, regs).Some?
    ensures AllClosed(ReadAll(vm, regs).value, |vm.objects|)
  {
    var vs := ReadAll(vm, regs).value;
    forall i | 0 <= i < |vs|
      ensures Closed(vs[i], |vm.objects|)
    {
      assert Read(vm, regs[i]) == Some(vs[i]);
    }
  }

  lemma CombinedIsClosed(lib: Library, a: Value, b: Value, n: nat)
    requires Closed(a, n) && Closed(b, n)
    ensures Closed(Combined(lib, a, b), n)
  {
    if a.List? {
      var items := a.items + [b];
      assert forall i | 0 <= i < |items| :: Closed(items[i], n);
    }
  }

  lemma CombineIsFine(lib: Library, vm: Vm, e: Value, t: Value)
    requires VmOK(vm)
    ensures Fine(vm, Combine(lib, vm, e, t))
  {
    match (Read(vm, e), Read(vm, t)) {
      case (Some(a), Some(b)) => CombinedIsClosed(lib, a, b, |vm.objects|);
      case _ =>
    }
  }

  lemma ParseIsFine(lib: Library, vm: Vm, e: Value, t: Value)
    requires ReadsJson(lib) && VmOK(vm)
    ensures Fine(vm, Parse(lib, vm, e, t))
  {
    match Read(vm, t) {
      case Some(Str(s)) => if lib.loads(s).Some? { PlainIsClosed(lib.loads(s).value, |vm.objects|); }
      case _ =>
    }
  }

  lemma TextIsFine(vm: Vm, reg: Value, t: Text)
    requires VmOK(vm)
    ensures Fine(vm, Store(vm, reg, Str(t))) && Fine(vm, Raise(vm))
  {
    StoreIsFine(vm, reg, Str(t));
  }

  lemma PropertyIsFine(lib: Library, vm: Vm, e: Value, t: Value, n: Value, location: bool)
    requires VmOK(vm)
    ensures Fine(vm, Property(lib, vm, e, t, n, location))
  {
    match (Read(vm, t), Read(vm, n)) {
      case (Some(a), Some(b)) => TextIsFine(vm, e, if location then Redirected(Path(lib, a, b)) else Path(lib, a, b));
      case _ =>
    }
  }

  lemma CopyIsFine(vm: Vm, e: Value, t: Value)
    requires VmOK(vm)
    ensures Fine(vm, Copy(vm, e, t))
  {
    if Read(vm, t).Some? { StoreIsFine(vm, e, Read(vm, t).value); }
  }

  lemma XorIsFine(lib: Library, vm: Vm, e: Value, t: Value)
    requires VmOK(vm)
    ensures Fine(vm, Xor(lib, vm, e, t))
  {
    match (Read(vm, e), Read(vm, t)) {
      case (Some(a), Some(b)) =>
        var masked := XorText(ToStr(lib.show, a), ToStr(lib.show, b));
        if masked.Some? { TextIsFine(vm, e, masked.value); }
      case _ =>
    }
  }

  lemma SerialiseIsFine(lib: Library, vm: Vm, e: Value, t: Value)
    requires VmOK(vm)
    ensures Fine(vm, Serialise(lib, vm, e, t))
  {
    if Read(vm, t).Some? { TextIsFine(vm, e, lib.dumps(Read(vm, t).value)); }
  }

  lemma CodingIsFine(lib: Library, vm: Vm, e: Value)
    requires VmOK(vm)
    ensures Fine(vm, Decode(lib, vm, e)) && Fine(vm, Encode(lib, vm, e))
  {
    if Read(vm, e).Some? {
      var text := ToStr(lib.show, Read(vm, e).value);
      TextIsFine(vm, e, lib.encode(text));
      if lib.decode(text).Some? { TextIsFine(vm, e, lib.decode(text).value); }
    }
  }

  lemma OutputIsFine(lib: Library, vm: Vm, e: Value)
    requires VmOK(vm)
    ensures Fine(vm, Output(lib, vm, e))
  {
  }

  lemma SimpleIsFine(lib: Library, vm: Vm, op: int, args: seq<Value>)
    requires ReadsJson(lib) && VmOK(vm) && AllClosed(args, |vm.objects|)
    ensures Fine(vm, Simple(lib, vm, op, args))
  {
    if |args| == 1 {
      CodingIsFine(lib, vm, args[0]);
      OutputIsFine(lib, vm, args[0]);
    } else if |args| == 2 {
      XorIsFine(lib, vm, args[0], args[1]);
      SerialiseIsFine(lib, vm, args[0], args[1]);
      StoreIsFine(vm, args[0], args[1]);
      CombineIsFine(lib, vm, args[0], args[1]);
      ParseIsFine(lib, vm, args[0], args[1]);
      CopyIsFine(vm, args[0], args[1]);
    } else if |args| == 3 {
      PropertyIsFine(lib, vm, args[0], args[1], args[2], op == 6);
    }
  }

  lemma SetPropertyIsFine(lib: Library, vm: Vm, params: seq<Value>)
    requires VmOK(vm) && AllClosed(params, |vm.objects|)
    ensures Fine(vm, SetProperty(lib, vm, params))
  {
    if |params| >= 3 && params[0].Obj? {
      var o := params[0].ref;
      assert Closed(params[0], |vm.objects|) && Closed(params[2], |vm.objects|);
      AddedKeepsOK(vm.objects[o], Show(lib.show, params[1]), params[2]);
    }
  }

  lemma NewObjectIsFine(vm: Vm, e: Value)
    requires VmOK(vm)
    ensures Fine(vm, StoreObject(vm, e))
  {
    var n := |vm.objects|;
    var vm1 := vm.(objects := vm.objects + [Ordered([], map[])]);
    forall k | k in vm1.values
      ensures Closed(vm1.values[k], n + 1)
    {
      ClosedInMore(vm.values[k], n, n + 1);
    }
    forall i, k | 0 <= i < n && k in vm.objects[i].values
      ensures Closed(vm.objects[i].values[k], n + 1)
    {
      assert ObjectOK(vm.objects[i], n);
      ClosedInMore(vm.objects[i].values[k], n, n + 1);
    }
    assert forall i | 0 <= i < n + 1 :: ObjectOK(vm1.objects[i], n + 1);
    StoreIsFine(vm1, e, Obj(n));
  }

  lemma {:induction false} InvokeIsFine(lib: Library, vm: Vm, args: seq<Value>)
    requires ReadsJson(lib) && VmOK(vm) && AllClosed(args, |vm.objects|)
    ensures Fine(vm, Invoke(lib, vm, args))
    decreases |args|, 0
  {
    if args != [] {
      match (Read(vm, args[0]), ReadAll(vm, args[1..])) {
        case (Some(target), Some(params)) =>
          ReadAllIsClosed(vm, args[1..]);
          assert Closed(target, |vm.objects|);
          SetPropertyIsFine(lib, vm, params);
          if target.Fn? { ExecIsFine(lib, vm, target.op, params); }
        case _ =>
      }
    }
  }

  lemma {:induction false} EvaluateIsFine(lib: Library, vm: Vm, args: seq<Value>)
    requires ReadsJson(lib) && VmOK(vm) && AllClosed(args, |vm.objects|)
    ensures Fine(vm, Evaluate(lib, vm, args))
    decreases |args|, 0
  {
    if |args| >= 2 {
      match (Read(vm, args[1]), ReadAll(vm, args[2..])) {
        case (Some(target), Some(params)) =>
          ReadAllIsClosed(vm, args[2..]);
          assert Closed(target, |vm.objects|);
          NewObjectIsFine(vm, args[0]);
          if target.Fn? {
            ExecIsFine(lib, vm, target.op, params);
            StoreIsFine(Exec(lib, vm, target.op, params).vm, args[0], Null);
          }
        case _ =>
      }
    }
  }

  lemma {:induction false} IfEqualIsFine(lib: Library, vm: Vm, args: seq<Value>)
    requires ReadsJson(lib) && VmOK(vm) && AllClosed(args, |vm.objects|)
    ensures Fine(vm, IfEqual(lib, vm, args))
    decreases |args|, 0
  {
    if |args| >= 3 {
      match (Read(vm, args[2]), ReadAll(vm, args[3..])) {
        case (Some(target), Some(params)) =>
          ReadAllIsClosed(vm, args[3..]);
          assert Closed(target, |vm.objects|);
          if target.Fn? { ExecIsFine(lib, vm, target.op, params); }
        case _ =>
      }
    }
  }

  lemma {:induction false} IfDefinedIsFine(lib: Library, vm: Vm, args: seq<Value>)
    requires ReadsJson(lib) && VmOK(vm) && AllClosed(args, |vm.objects|)
    ensures Fine(vm, IfDefined(lib, vm, args))
    decreases |args|, 0
  {
    if |args| >= 2 {
      match Read(vm, args[1]) {
        case Some(target) =>
          assert Closed(target, |vm.objects|);
          if target.Fn? { ExecIsFine(lib, vm, target.op, args[2..]); }
        case None =>
      }
    }
  }

  lemma CountingIsFine(vm: Vm)
    requires VmOK(vm)
    ensures VmOK(vm.(calls := vm.calls + 1))
  {
  }

  /** Whatever an operation does, directly or through others, it calls built-in operations only, and
      the registers hold no other afterwards. */
  lemma {:induction false} ExecIsFine(lib: Library, vm: Vm, op: int, args: seq<Value>)
    requires ReadsJson(lib) && VmOK(vm) && AllClosed(args, |vm.objects|) && op in BUILT_IN
    ensures Fine(vm, Exec(lib, vm, op, args))
    decreases |args|, 2
  {
    var counted := vm.(calls := vm.calls + 1);
    CountingIsFine(vm);
    ApplyIsFine(lib, counted, op, args);
  }

  lemma {:induction false} ApplyIsFine(lib: Library, vm: Vm, op: int, args: seq<Value>)
    requires ReadsJson(lib) && VmOK(vm) && AllClosed(args, |vm.objects|)
    ensures Fine(vm, Apply(lib, vm, op, args))
    decreases |args|, 1
  {
    if op == 7 { InvokeIsFine(lib, vm, args); }
    else if op == 17 { EvaluateIsFine(lib, vm, args); }
    else if op == 20 { IfEqualIsFine(lib, vm, args); }
    else if op == 23 { IfDefinedIsFine(lib, vm, args); }
    else { SimpleIsFine(lib, vm, op, args); }
  }

  lemma DispatchIsFine(lib: Library, vm: Vm, token: Value)
    requires ReadsJson(lib) && VmOK(vm) && Plain(token)
    ensures Fine(vm, Dispatch(lib, vm, token))
  {
    match Split(token) {
      case Some((name, args)) =>
        forall i | 0 <= i < |args|
          ensures Closed(args[i], |vm.objects|)
        {
          if token.List? { assert args[i] == token.items[i + 1]; }
          PlainIsClosed(args[i], |vm.objects|);
        }
        match Read(vm, name) {
          case Some(Fn(op)) => assert Closed(Fn(op), |vm.objects|); ExecIsFine(lib, vm, op, args);
          case _ =>
        }
      case None =>
    }
  }

  lemma {:induction false} RunIsFine(lib: Library, vm: Vm, tokens: seq<Value>)
    requires ReadsJson(lib) && VmOK(vm) && forall i | 0 <= i < |tokens| :: Plain(tokens[i])
    ensures VmOK(RunAll(lib, vm, tokens))
    decreases |tokens|
  {
    if tokens != [] {
      assert Plain(tokens[0]);
      DispatchIsFine(lib, vm, tokens[0]);
      RunIsFine(lib, Dispatch(lib, vm, tokens[0]).vm, tokens[1..]);
    }
  }

  lemma StartIsFine(tokens: Value, pToken: Text)
    requires Plain(tokens)
    ensures VmOK(Start(tokens, pToken))
  {
    PlainIsClosed(tokens, 0);
    var vm := Start(tokens, pToken);
    forall k | k in vm.values
      ensures Closed(vm.values[k], 0)
    {
      assert vm.values[k] == tokens || vm.values[k].Str? || vm.values[k].Fn?;
    }
  }

  /** After any number of instructions of any program, every callable in a register is a built-in
      operation, and the next instruction ends by returning or raising. */
  lemma OnlyBuiltInsAreCallable(lib: Library, tokens: Value, pToken: Text, done: nat, reg: Key)
    requires ReadsJson(lib) && Plain(tokens) && Items(tokens).Some? && done < |Items(tokens).value|
    ensures var vm := RunAll(lib, Start(tokens, pToken), Items(tokens).value[..done]);
            && (reg in vm.values && vm.values[reg].Fn? ==> vm.values[reg].op in BUILT_IN)
            && !Dispatch(lib, vm, Items(tokens).value[done]).status.Escaped?
  {
    var items := Items(tokens).value;
    forall i | 0 <= i < |items|
      ensures Plain(items[i])
    {
    }
    StartIsFine(tokens, pToken);
    RunIsFine(lib, Start(tokens, pToken), items[..done]);
    var vm := RunAll(lib, Start(tokens, pToken), items[..done]);
    assert reg in vm.values ==> Closed(vm.values[reg], |vm.objects|);
    DispatchIsFine(lib, vm, items[done]);
  }

  // ---------- how much one instruction can do ----------

  /** The registers that differ. */
  function Changed(a: map<Key, Value>, b: map<Key, Value>): set<Key> {
    set k | k in a.Keys + b.Keys && !(k in a && k in b && a[k] == b[k])
  }

  /** At most so many writes and calls, and no more registers changed than writes were made. */
  predicate Within(vm: Vm, after: Vm, writes: nat, calls: nat) {
    && vm.writes + |Changed(vm.values, after.values)| <= after.writes <= vm.writes + writes
    && after.calls <= vm.calls + calls
  }

  lemma UnionSize(a: set<Key>, b: set<Key>)
    ensures |a + b| <= |a| + |b|
  {
    assert |a + b| == |a| + |b| - |a * b|;
  }

  lemma SubsetSize(a: set<Key>, b: set<Key>)
    requires a <= b
    ensures |a| <= |b|
  {
    assert b == a + (b - a);
  }

  lemma WithinTrans(vm: Vm, vm1: Vm, vm2: Vm, w1: nat, c1: nat, w2: nat, c2: nat)
    requires Within(vm, vm1, w1, c1) && Within(vm1, vm2, w2, c2)
    ensures Within(vm, vm2, w1 + w2, c1 + c2)
  {
    var a, b := Changed(vm.values, vm1.values), Changed(vm1.values, vm2.values);
    assert Changed(vm.values, vm2.values) <= a + b;
    SubsetSize(Changed(vm.values, vm2.values), a + b);
    UnionSize(a, b);
  }

  predicate SameRegisters(vm: Vm, after: Vm) {
    after.values == vm.values && after.calls == vm.calls && after.writes == vm.writes
  }

  lemma Unwritten(vm: Vm, after: Vm)
    requires SameRegisters(vm, after)
    ensures Within(vm, after, 0, 0)
  {
    assert Changed(vm.values, after.values) == {};
  }

  lemma StoreWritesOne(vm: Vm, reg: Value, v: Value)
    ensures Within(vm, Store(vm, reg, v).vm, 1, 0)
  {
    var a, b := vm.values, Store(vm, reg, v).vm.values;
    if KeyOf(reg).Some? {
      assert Changed(a, b) <= {KeyOf(reg).value};
      SubsetSize(Changed(a, b), {KeyOf(reg).value});
    } else {
      Unwritten(vm, Store(vm, reg, v).vm);
    }
  }

  lemma OutputWritesOne(lib: Library, vm: Vm, e: Value)
    ensures Within(vm, Output(lib, vm, e).vm, 1, 0)
  {
    assert Changed(vm.values, Output(lib, vm, e).vm.values) == {};
  }

  /** The value of the store is whatever the operation computed. */
  lemma SimpleStoresOrNot(lib: Library, vm: Vm, op: int, args: seq<Value>)
    requires op != 3
    ensures var o := Simple(lib, vm, op, args);
            SameRegisters(vm, o.vm) || (args != [] && exists v :: o == Store(vm, args[0], v))
  {
  }

  lemma SimpleWritesOne(lib: Library, vm: Vm, op: int, args: seq<Value>)
    ensures Within(vm, Simple(lib, vm, op, args).vm, if args == [] then 0 else 1, 0)
  {
    var o := Simple(lib, vm, op, args);
    Unwritten(vm, vm);
    if op == 3 {
      if |args| == 1 { OutputWritesOne(lib, vm, args[0]); }
    } else {
      SimpleStoresOrNot(lib, vm, op, args);
      if SameRegisters(vm, o.vm) {
        Unwritten(vm, o.vm);
      } else {
        var v :| o == Store(vm, args[0], v);
        StoreWritesOne(vm, args[0], v);
      }
    }
  }

  /** op17 when it calls nothing. */
  lemma BrowserWrites(lib: Library, vm: Vm, e: Value)
    ensures Within(vm, StoreNumber(lib, vm, e).vm, 1, 0)
    ensures Within(vm, StoreObject(vm, e).vm, 1, 0)
    ensures Within(vm, Store(vm, e, STORAGE_KEYS).vm, 1, 0)
  {
    StoreWritesOne(vm.(draws := vm.draws + 1), e, Float(lib.numbers(vm.draws)));
    StoreWritesOne(vm.(objects := vm.objects + [Ordered([], map[])]), e, Obj(|vm.objects|));
    StoreWritesOne(vm, e, STORAGE_KEYS);
  }

  lemma {:induction false} CallAndStoreWrites(lib: Library, vm: Vm, op: int, params: seq<Value>, e: Value)
    ensures var called := Exec(lib, vm, op, params);
            var after := if called.status.Returned? then Store(called.vm, e, Null).vm else called.vm;
            Within(vm, after, (|params| + 3) / 2, |params| + 2)
    decreases |params|, 3
  {
    var called := Exec(lib, vm, op, params).vm;
    ExecWrites(lib, vm, op, params);
    StoreWritesOne(called, e, Null);
    WithinTrans(vm, called, Store(called, e, Null).vm, (|params| + 1) / 2, |params| + 1, 1, 0);
  }

  lemma {:induction false} EvaluateWrites(lib: Library, vm: Vm, args: seq<Value>)
    ensures Within(vm, Evaluate(lib, vm, args).vm, (|args| + 1) / 2, |args|)
    decreases |args|, 0
  {
    Unwritten(vm, vm);
    if |args| >= 2 {
      match (Read(vm, args[1]), ReadAll(vm, args[2..])) {
        case (Some(target), Some(params)) =>
          if target.Fn? {
            CallAndStoreWrites(lib, vm, target.op, params, args[0]);
          } else {
            BrowserWrites(lib, vm, args[0]);
            assert Within(vm, Evaluate(lib, vm, args).vm, 1, 0);
          }
        case _ =>
      }
    }
  }

  lemma {:induction false} InvokeWrites(lib: Library, vm: Vm, args: seq<Value>)
    ensures Within(vm, Invoke(lib, vm, args).vm, (|args| + 1) / 2, |args|)
    decreases |args|, 0
  {
    Unwritten(vm, vm);
    if args != [] {
      match (Read(vm, args[0]), ReadAll(vm, args[1..])) {
        case (Some(target), Some(params)) =>
          Unwritten(vm, SetProperty(lib, vm, params).vm);
          if target.Fn? { ExecWrites(lib, vm, target.op, params); }
        case _ =>
      }
    }
  }

  lemma {:induction false} IfEqualWrites(lib: Library, vm: Vm, args: seq<Value>)
    ensures Within(vm, IfEqual(lib, vm, args).vm, (|args| + 1) / 2, |args|)
    decreases |args|, 0
  {
    Unwritten(vm, vm);
    if |args| >= 3 {
      match (Read(vm, args[2]), ReadAll(vm, args[3..])) {
        case (Some(Fn(op)), Some(params)) => ExecWrites(lib, vm, op, params);
        case _ =>
      }
    }
  }

  lemma {:induction false} IfDefinedWrites(lib: Library, vm: Vm, args: seq<Value>)
    ensures Within(vm, IfDefined(lib, vm, args).vm, (|args| + 1) / 2, |args|)
    decreases |args|, 0
  {
    Unwritten(vm, vm);
    if |args| >= 2 {
      match Read(vm, args[1]) {
        case Some(Fn(op)) => ExecWrites(lib, vm, op, args[2..]);
        case _ =>
      }
    }
  }

  lemma CountedCall(vm: Vm, after: Vm, writes: nat, calls: nat)
    requires Within(vm.(calls := vm.calls + 1), after, writes, calls)
    ensures Within(vm, after, writes, calls + 1)
  {
  }

  lemma {:induction false} ApplyWrites(lib: Library, vm: Vm, op: int, args: seq<Value>)
    ensures Within(vm, Apply(lib, vm, op, args).vm, (|args| + 1) / 2, |args|)
    decreases |args|, 1
  {
    if op == 7 { InvokeWrites(lib, vm, args); }
    else if op == 17 { EvaluateWrites(lib, vm, args); }
    else if op == 20 { IfEqualWrites(lib, vm, args); }
    else if op == 23 { IfDefinedWrites(lib, vm, args); }
    else { SimpleWritesOne(lib, vm, op, args); }
  }

  /** A call with k arguments, counting everything it calls in turn, changes at most half of k registers,
      rounded up, and makes at most k + 1 calls. */
  lemma {:induction false} ExecWrites(lib: Library, vm: Vm, op: int, args: seq<Value>)
    ensures Within(vm, Exec(lib, vm, op, args).vm, (|args| + 1) / 2, |args| + 1)
    decreases |args|, 2
  {
    if op in BUILT_IN {
      var counted := vm.(calls := vm.calls + 1);
      ApplyWrites(lib, counted, op, args);
      CountedCall(vm, Apply(lib, counted, op, args).vm, (|args| + 1) / 2, |args|);
    } else {
      Unwritten(vm, vm);
    }
  }

  // ---------- the whole program ----------

  function Operands(tokens: seq<Value>): nat {
    if tokens == [] then 0
    else Operands(tokens[1..]) + match Split(tokens[0]) case Some((_, args)) => |args| + 1 case None => 0
  }

  /** Running a program makes at most as many calls, nested ones included, as it has elements. */
  lemma {:induction false} CallsAreBounded(lib: Library, vm: Vm, tokens: seq<Value>)
    ensures RunAll(lib, vm, tokens).calls <= vm.calls + Operands(tokens)
    decreases |tokens|
  {
    if tokens != [] {
      var o := Dispatch(lib, vm, tokens[0]);
      match Split(tokens[0]) {
        case Some((name, args)) =>
          match Read(vm, name) {
            case Some(Fn(op)) => ExecWrites(lib, vm, op, args);
            case _ =>
          }
        case None =>
      }
      CallsAreBounded(lib, o.vm, tokens[1..]);
    }
  }

  /** Instructions act one after another, whatever each of them raises. */
  lemma {:induction false} RunsCompose(lib: Library, vm: Vm, a: seq<Value>, b: seq<Value>)
    ensures RunAll(lib, vm, a + b) == RunAll(lib, RunAll(lib, vm, a), b)
    decreases |a|
  {
    if a == [] {
      assert a + b == b;
    } else {
      assert (a + b)[1..] == a[1..] + b;
      RunsCompose(lib, Dispatch(lib, vm, a[0]).vm, a[1..], b);
    }
  }

  // ---------- the token ----------

  /** What op3 has written last. */
  ghost predicate IsOutput(lib: Library, result: Text) {
    result == [] || exists s :: Encodable(s) && result == lib.encode(s)
  }

  lemma SimpleKeepsOutput(lib: Library, vm: Vm, op: int, args: seq<Value>)
    requires IsOutput(lib, vm.result)
    ensures IsOutput(lib, Simple(lib, vm, op, args).vm.result)
  {
  }

  lemma {:induction false} InvokeKeepsOutput(lib: Library, vm: Vm, args: seq<Value>)
    requires IsOutput(lib, vm.result)
    ensures IsOutput(lib, Invoke(lib, vm, args).vm.result)
    decreases |args|, 0
  {
    if args != [] {
      match (Read(vm, args[0]), ReadAll(vm, args[1..])) {
        case (Some(Fn(f)), Some(params)) => ExecKeepsOutput(lib, vm, f, params);
        case _ =>
      }
    }
  }

  lemma {:induction false} EvaluateKeepsOutput(lib: Library, vm: Vm, args: seq<Value>)
    requires IsOutput(lib, vm.result)
    ensures IsOutput(lib, Evaluate(lib, vm, args).vm.result)
    decreases |args|, 0
  {
    if |args| >= 2 {
      match (Read(vm, args[1]), ReadAll(vm, args[2..])) {
        case (Some(Fn(f)), Some(params)) => ExecKeepsOutput(lib, vm, f, params);
        case _ =>
      }
    }
  }

  lemma {:induction false} ConditionalsKeepOutput(lib: Library, vm: Vm, args: seq<Value>)
    requires IsOutput(lib, vm.result)
    ensures IsOutput(lib, IfEqual(lib, vm, args).vm.result) && IsOutput(lib, IfDefined(lib, vm, args).vm.result)
    decreases |args|, 0
  {
    if |args| >= 3 {
      match (Read(vm, args[2]), ReadAll(vm, args[3..])) {
        case (Some(Fn(f)), Some(params)) => ExecKeepsOutput(lib, vm, f, params);
        case _ =>
      }
    }
    if |args| >= 2 {
      match Read(vm, args[1]) {
        case Some(Fn(f)) => ExecKeepsOutput(lib, vm, f, args[2..]);
        case _ =>
      }
    }
  }

  lemma {:induction false} ExecKeepsOutput(lib: Library, vm: Vm, op: int, args: seq<Value>)
    requires IsOutput(lib, vm.result)
    ensures IsOutput(lib, Exec(lib, vm, op, args).vm.result)
    decreases |args|, 1
  {
    var counted := vm.(calls := vm.calls + 1);
    if op == 7 { InvokeKeepsOutput(lib, counted, args); }
    else if op == 17 { EvaluateKeepsOutput(lib, counted, args); }
    else if op == 20 || op == 23 { ConditionalsKeepOutput(lib, counted, args); }
    else { SimpleKeepsOutput(lib, counted, op, args); }
  }

  lemma {:induction false} RunKeepsOutput(lib: Library, vm: Vm, tokens: seq<Value>)
    requires IsOutput(lib, vm.result)
    ensures IsOutput(lib, RunAll(lib, vm, tokens).result)
    decreases |tokens|
  {
    if tokens != [] {
      match Split(tokens[0]) {
        case Some((name, args)) =>
          match Read(vm, name) {
            case Some(Fn(op)) => ExecKeepsOutput(lib, vm, op, args);
            case _ =>
          }
        case None =>
      }
      RunKeepsOutput(lib, Dispatch(lib, vm, tokens[0]).vm, tokens[1..]);
    }
  }

  /** A token is never empty and always the base64 form of a text. */
  lemma TokensAreEncoded(lib: Library, dx: Text, pToken: Text)
    requires Solve(lib, dx, pToken).Token?
    ensures var token := Solve(lib, dx, pToken).text;
            token != [] && exists s :: Encodable(s) && token == lib.encode(s)
  {
    var tokens := Program(lib, dx, pToken).value;
    RunKeepsOutput(lib, Start(tokens, pToken), Items(tokens).value);
  }

  /** Nothing in a program makes the interpreter raise but its outermost value: a number, a boolean or
      null in place of a list of instructions is not iterable, and that is outside every handler. */
  lemma RaisesIffNotIterable(lib: Library, dx: Text, pToken: Text)
    requires ReadsJson(lib)
    ensures Solve(lib, dx, pToken).Uncaught? <==>
            exists v :: Program(lib, dx, pToken) == Some(v) && (v.Null? || IsNumber(v))
  {
    match Program(lib, dx, pToken) {
      case Some(v) =>
        assert Plain(v) by {
          var masked := lib.decode(dx).value;
          assert lib.loads(XorText(masked, pToken).value) == Some(v);
        }
      case None =>
    }
  }

  /** Sending: mask the program with the key, encode it, and the interpreter runs that program. */
  lemma RunsTheProgramSent(lib: Library, text: Text, pToken: Text)
    requires IsText(text) && XorText(text, pToken).Some?
    requires lib.decode(lib.encode(XorText(text, pToken).value)) == Some(XorText(text, pToken).value)
    ensures Program(lib, lib.encode(XorText(text, pToken).value), pToken) == lib.loads(text)
  {
    MaskTwice(text, pToken);
  }
}
