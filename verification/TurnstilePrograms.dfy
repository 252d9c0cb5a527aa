/** Sharper results about single instructions of the Turnstile interpreter, with the programs that
    reach them (helper/turnstile.py:54-163). */
module TurnstilePrograms {
  import opened TurnstileValues
  import opened Turnstile
  import opened TurnstileResults
  import opened Wrappers

  // ---------- an instruction that raises ----------

  /** The call that an operation makes, if it makes one. It is found by reading registers only. */
  function Nested(vm: Vm, op: int, args: seq<Value>): (call: Option<(int, seq<Value>)>)
    ensures call.Some? ==> |call.value.1| < |args|
  {
    if op == 7 && |args| >= 1 then CallOf(Read(vm, args[0]), ReadAll(vm, args[1..]))
    else if op == 17 && |args| >= 2 then CallOf(Read(vm, args[1]), ReadAll(vm, args[2..]))
    else if op == 20 && |args| >= 3 then
      match (Read(vm, args[0]), Read(vm, args[1]))
      case (Some(left), Some(right)) =>
        if PyEq(left, right) then CallOf(Read(vm, args[2]), ReadAll(vm, args[3..])) else None
      case _ => None
    else if op == 23 && |args| >= 2 then
      match Read(vm, args[0])
      case Some(v) => if v.Null? then None else CallOf(Read(vm, args[1]), Some(args[2..]))
      case None => None
    else None
  }

  function CallOf(target: Option<Value>, params: Option<seq<Value>>): (call: Option<(int, seq<Value>)>)
    ensures call.Some? ==> params.Some? && call.value.1 == params.value
  {
    match (target, params)
    case (Some(Fn(op)), Some(vs)) => Some((op, vs))
    case _ => None
  }

  function Counted(vm: Vm): Vm { vm.(calls := vm.calls + 1) }

  /** An operation that calls another ends as that one does, except that op17 stores None afterwards. */
  lemma CallsUnfold(lib: Library, vm: Vm, op: int, args: seq<Value>)
    requires op in BUILT_IN && Nested(Counted(vm), op, args).Some?
    ensures var (f, params) := Nested(Counted(vm), op, args).value;
            var called := Exec(lib, Counted(vm), f, params);
            Exec(lib, vm, op, args) ==
              if op == 17 && called.status.Returned? then Store(called.vm, args[0], Null) else called
  {
    var c := Counted(vm);
    if op == 7 {
      assert Exec(lib, vm, op, args) == Invoke(lib, c, args);
    } else if op == 17 {
      assert Exec(lib, vm, op, args) == Evaluate(lib, c, args);
    } else if op == 20 {
      assert Exec(lib, vm, op, args) == IfEqual(lib, c, args);
    } else {
      assert Exec(lib, vm, op, args) == IfDefined(lib, c, args);
    }
  }

  /** Registers and result are as they were, and nothing was written to them. */
  predicate Untouched(vm: Vm, after: Vm) {
    after.values == vm.values && after.result == vm.result && after.writes == vm.writes
  }

  lemma SimpleIsAtomic(lib: Library, vm: Vm, op: int, args: seq<Value>)
    requires Simple(lib, vm, op, args).status.Raised?
    ensures Simple(lib, vm, op, args).vm == vm
  {
  }

  /** An operation that calls no other either returns or leaves registers and result alone. */
  lemma LeavesAreAtomic(lib: Library, vm: Vm, op: int, args: seq<Value>)
    requires Nested(Counted(vm), op, args).None? && !Exec(lib, vm, op, args).status.Returned?
    ensures Untouched(vm, Exec(lib, vm, op, args).vm)
  {
    var c := Counted(vm);
    if op in BUILT_IN {
      if op == 7 { assert Exec(lib, vm, op, args) == Invoke(lib, c, args); }
      else if op == 17 { assert Exec(lib, vm, op, args) == Evaluate(lib, c, args); }
      else if op == 20 { assert Exec(lib, vm, op, args) == IfEqual(lib, c, args); }
      else if op == 23 { assert Exec(lib, vm, op, args) == IfDefined(lib, c, args); }
      else if Simple(lib, c, op, args).status.Raised? { SimpleIsAtomic(lib, c, op, args); }
    }
  }

  /** The call returns: the operation at the end of its chain of calls does, and every op17 on the way
      back can store. Up to the end of the chain no register has been written. */
  ghost predicate Returns(lib: Library, vm: Vm, op: int, args: seq<Value>)
    decreases |args|
  {
    match Nested(Counted(vm), op, args)
    case Some((f, params)) => Returns(lib, Counted(vm), f, params) && (op == 17 ==> KeyOf(args[0]).Some?)
    case None => Exec(lib, vm, op, args).status.Returned?
  }

  /** How often a call that returns writes a register or the result. */
  ghost function WritesOf(lib: Library, vm: Vm, op: int, args: seq<Value>): int
    decreases |args|
  {
    match Nested(Counted(vm), op, args)
    case Some((f, params)) => WritesOf(lib, Counted(vm), f, params) + if op == 17 then 1 else 0
    case None => Exec(lib, vm, op, args).vm.writes - vm.writes
  }

  /** Somewhere in the chain is an op17 whose first operand names no register, although the call it makes
      returns and has written something. */
  ghost predicate Spoils(lib: Library, vm: Vm, op: int, args: seq<Value>)
    decreases |args|
  {
    match Nested(Counted(vm), op, args)
    case Some((f, params)) =>
      if Returns(lib, Counted(vm), f, params)
      then op == 17 && KeyOf(args[0]).None? && WritesOf(lib, Counted(vm), f, params) > 0
      else Spoils(lib, Counted(vm), f, params)
    case None => false
  }

  lemma NothingChanged(a: map<Key, Value>, b: map<Key, Value>)
    requires |Changed(a, b)| == 0
    ensures a == b
  {
    forall k | k in a.Keys + b.Keys
      ensures k in a && k in b && a[k] == b[k]
    {
      assert k !in Changed(a, b);
    }
  }

  lemma SimpleWritesResult(lib: Library, vm: Vm, op: int, args: seq<Value>)
    ensures Simple(lib, vm, op, args).vm.writes == vm.writes ==> Simple(lib, vm, op, args).vm.result == vm.result
  {
  }

  lemma LeafWritesResult(lib: Library, vm: Vm, op: int, args: seq<Value>)
    requires Nested(Counted(vm), op, args).None? && Exec(lib, vm, op, args).vm.writes == vm.writes
    ensures Exec(lib, vm, op, args).vm.result == vm.result
  {
    var c := Counted(vm);
    if op in BUILT_IN {
      if op == 7 { assert Exec(lib, vm, op, args) == Invoke(lib, c, args); }
      else if op == 17 { assert Exec(lib, vm, op, args) == Evaluate(lib, c, args); }
      else if op == 20 { assert Exec(lib, vm, op, args) == IfEqual(lib, c, args); }
      else if op == 23 { assert Exec(lib, vm, op, args) == IfDefined(lib, c, args); }
      else { SimpleWritesResult(lib, c, op, args); }
    }
  }

  /** What is not written does not change. */
  lemma {:induction false} SilentMeansUntouched(lib: Library, vm: Vm, op: int, args: seq<Value>)
    ensures Exec(lib, vm, op, args).vm.writes >= vm.writes
    ensures Exec(lib, vm, op, args).vm.writes == vm.writes ==> Untouched(vm, Exec(lib, vm, op, args).vm)
    decreases |args|
  {
    var o := Exec(lib, vm, op, args);
    ExecWrites(lib, vm, op, args);
    if o.vm.writes == vm.writes {
      NothingChanged(vm.values, o.vm.values);
      match Nested(Counted(vm), op, args) {
        case Some((f, params)) =>
          SilentMeansUntouched(lib, Counted(vm), f, params);
          CallsUnfold(lib, vm, op, args);
        case None => LeafWritesResult(lib, vm, op, args);
      }
    }
  }

  /** Whether a call returns, and what it leaves behind if not, is settled before its first write. */
  lemma {:induction false} SettledBeforehand(lib: Library, vm: Vm, op: int, args: seq<Value>)
    ensures var o := Exec(lib, vm, op, args);
            && (o.status.Returned? <==> Returns(lib, vm, op, args))
            && (o.status.Returned? ==> o.vm.writes == vm.writes + WritesOf(lib, vm, op, args))
            && (!o.status.Returned? ==> (Untouched(vm, o.vm) <==> !Spoils(lib, vm, op, args)))
            && vm.writes <= o.vm.writes
    decreases |args|
  {
    match Nested(Counted(vm), op, args) {
      case Some((f, params)) =>
        SettledBeforehand(lib, Counted(vm), f, params);
        SilentMeansUntouched(lib, Counted(vm), f, params);
        CallsUnfold(lib, vm, op, args);
      case None =>
        ExecWrites(lib, vm, op, args);
        if !Exec(lib, vm, op, args).status.Returned? { LeavesAreAtomic(lib, vm, op, args); }
    }
  }

  /** A call that raises leaves registers and result alone exactly if no op17 in its chain fails to store
      after a call that wrote something. */
  lemma RaisesCleanlyIff(lib: Library, vm: Vm, op: int, args: seq<Value>)
    requires Exec(lib, vm, op, args).status.Raised?
    ensures Untouched(vm, Exec(lib, vm, op, args).vm) <==> !Spoils(lib, vm, op, args)
  {
    SettledBeforehand(lib, vm, op, args);
  }

  /** The value can name a register, and not the one that holds the program. */
  predicate IsName(v: Value) {
    KeyOf(v).Some? && KeyOf(v).value != NumKey(9.0)
  }

  ghost predicate AllNames(vs: seq<Value>) {
    forall i | 0 <= i < |vs| :: IsName(vs[i])
  }

  /** Every register but the one that holds the program contains a name. */
  ghost predicate HoldsNames(vm: Vm) {
    forall k | k in vm.values && k != NumKey(9.0) :: IsName(vm.values[k])
  }

  lemma StartHoldsNames(tokens: Value, pToken: Text)
    ensures HoldsNames(Start(tokens, pToken))
  {
    forall k | k in Start(tokens, pToken).values && k != NumKey(9.0)
      ensures IsName(Start(tokens, pToken).values[k])
    {
      if k != NumKey(10.0) && k != NumKey(16.0) { OperationsAreOperations(k); }
    }
  }

  lemma OperationsAreOperations(k: Key)
    requires k in Operations()
    ensures Operations()[k].Fn?
  {
  }

  lemma ReadAllNames(vm: Vm, regs: seq<Value>)
    requires HoldsNames(vm) && AllNames(regs) && ReadAll(vm, regs).Some?
    ensures AllNames(ReadAll(vm, regs).value)
  {
    var vs := ReadAll(vm, regs).value;
    forall i | 0 <= i < |vs|
      ensures IsName(vs[i])
    {
      assert Read(vm, regs[i]) == Some(vs[i]);
    }
  }

  lemma NestedNames(vm: Vm, op: int, args: seq<Value>)
    requires HoldsNames(vm) && AllNames(args) && Nested(vm, op, args).Some?
    ensures AllNames(Nested(vm, op, args).value.1)
  {
    if op == 7 { ReadAllNames(vm, args[1..]); }
    else if op == 17 { ReadAllNames(vm, args[2..]); }
    else if op == 20 { ReadAllNames(vm, args[3..]); }
  }

  /** As long as no operand and no register holds a list or a dict, an instruction that raises has written
      nothing. Register 9, with the program in it, does not matter as long as nothing names it. */
  lemma {:induction false} NoListsNoSpoils(lib: Library, vm: Vm, op: int, args: seq<Value>)
    requires HoldsNames(vm) && AllNames(args)
    ensures !Spoils(lib, vm, op, args)
    decreases |args|
  {
    match Nested(Counted(vm), op, args) {
      case Some((f, params)) =>
        NestedNames(Counted(vm), op, args);
        NoListsNoSpoils(lib, Counted(vm), f, params);
      case None =>
    }
  }

  // ---------- programs ----------

  lemma StartHolds(tokens: Value, pToken: Text, op: int)
    requires op in BUILT_IN
    ensures Read(Start(tokens, pToken), Int(op)) == Some(Fn(op))
  {
    assert NumKey(op as real) in Operations();
    assert op as real != 9.0 && op as real != 10.0 && op as real != 16.0;
  }

  lemma ReadTwo(vm: Vm, a: Value, b: Value)
    requires Read(vm, a).Some? && Read(vm, b).Some?
    ensures ReadAll(vm, [a, b]) == Some([Read(vm, a).value, Read(vm, b).value])
  {
    var regs, one := [a, b], [b];
    assert regs[1..] == one && one[1..] == [];
    assert ReadAll(vm, one[1..]) == Some([]);
    assert [Read(vm, b).value] + [] == [Read(vm, b).value];
    assert [Read(vm, a).value] + [Read(vm, b).value] == [Read(vm, a).value, Read(vm, b).value];
  }

  function Instruction(op: int, args: seq<Value>): Value {
    List([Int(op)] + args)
  }

  lemma Dispatches(lib: Library, vm: Vm, op: int, args: seq<Value>)
    requires Read(vm, Int(op)) == Some(Fn(op))
    ensures Dispatch(lib, vm, Instruction(op, args)) == Exec(lib, vm, op, args)
  {
    assert ([Int(op)] + args)[1..] == args;
  }

  lemma RunOne(lib: Library, vm: Vm, a: Value)
    ensures RunAll(lib, vm, [a]) == Dispatch(lib, vm, a).vm
  {
    var program := [a];
    assert program[1..] == [];
  }

  lemma RunTwo(lib: Library, vm: Vm, a: Value, b: Value)
    ensures RunAll(lib, vm, [a, b]) == Dispatch(lib, Dispatch(lib, vm, a).vm, b).vm
  {
    var program := [a, b];
    assert program[1..] == [b];
    RunOne(lib, Dispatch(lib, vm, a).vm, b);
  }

  /** Stores 60 in register 50. */
  const SETTING: Value := Instruction(2, [Int(50), Int(60)])

  /** Calls op2 through op17 with register 50 twice, to store what comes back in a register that is named
      by a list. */
  const SPOILING: Value := Instruction(17, [List([]), Int(2), Int(50), Int(50)])

  lemma SetsFifty(lib: Library, vm: Vm)
    requires Read(vm, Int(2)) == Some(Fn(2))
    ensures Dispatch(lib, vm, SETTING).vm == Store(Counted(vm), Int(50), Int(60)).vm
  {
    Dispatches(lib, vm, 2, [Int(50), Int(60)]);
  }

  lemma SpoilsSixty(lib: Library, vm: Vm)
    requires Read(vm, Int(2)) == Some(Fn(2)) && Read(vm, Int(17)) == Some(Fn(17)) && Read(vm, Int(50)) == Some(Int(60))
    ensures var o := Dispatch(lib, vm, SPOILING);
            o.status.Raised? && Read(o.vm, Int(60)) == Some(Int(60))
  {
    var args, c := [List([]), Int(2), Int(50), Int(50)], Counted(vm);
    Dispatches(lib, vm, 17, args);
    assert args[2..] == [Int(50), Int(50)];
    ReadTwo(c, Int(50), Int(50));
    assert Exec(lib, c, 2, [Int(60), Int(60)]) == Store(Counted(c), Int(60), Int(60));
    CallsUnfold(lib, vm, 17, args);
  }

  lemma StartLacks(tokens: Value, pToken: Text)
    ensures Read(Start(tokens, pToken), Int(60)).None?
  {
    forall op | op in BUILT_IN
      ensures NumKey(op as real) != NumKey(60.0)
    {
    }
  }

  /** An instruction that raises can leave registers changed: the second of this program raises, and
      register 60, which did not exist, holds 60 afterwards. */
  lemma RaisingInstructionsLeaveEffects(lib: Library, pToken: Text)
    ensures var vm0 := Start(List([SETTING, SPOILING]), pToken);
            var vm1 := RunAll(lib, vm0, [SETTING]);
            var o := Dispatch(lib, vm1, SPOILING);
            && Read(vm1, Int(60)).None?
            && o.status.Raised? && Read(o.vm, Int(60)) == Some(Int(60))
            && RunAll(lib, vm0, [SETTING, SPOILING]) == o.vm
  {
    var tokens := List([SETTING, SPOILING]);
    StartHolds(tokens, pToken, 2);
    StartHolds(tokens, pToken, 17);
    StartLacks(tokens, pToken);
    SpoilingRun(lib, Start(tokens, pToken));
  }

  lemma SpoilingRun(lib: Library, vm0: Vm)
    requires Read(vm0, Int(2)) == Some(Fn(2)) && Read(vm0, Int(17)) == Some(Fn(17)) && Read(vm0, Int(60)).None?
    ensures var vm1 := RunAll(lib, vm0, [SETTING]);
            var o := Dispatch(lib, vm1, SPOILING);
            && Read(vm1, Int(60)).None?
            && o.status.Raised? && Read(o.vm, Int(60)) == Some(Int(60))
            && RunAll(lib, vm0, [SETTING, SPOILING]) == o.vm
  {
    RunOne(lib, vm0, SETTING);
    RunTwo(lib, vm0, SETTING, SPOILING);
    SetsFifty(lib, vm0);
    SpoilsSixty(lib, RunAll(lib, vm0, [SETTING]));
  }

  // ---------- how much one instruction can write ----------

  const A: Value := Str(Lit("a"))

  /** The operation stands in the register of its number and in the register that it names itself. */
  predicate SelfNamed(vm: Vm, op: int) {
    Read(vm, Int(op)) == Some(Fn(op)) && Read(vm, Fn(op)) == Some(Fn(op))
  }

  predicate Ready(vm: Vm) {
    SelfNamed(vm, 17) && SelfNamed(vm, 19) && SelfNamed(vm, 21) && Read(vm, A) == Some(A)
  }

  /** How the operation is named in the instruction itself, and in the calls nested in it. */
  function Name(op: int, outer: bool): Value {
    if outer then Int(op) else Fn(op)
  }

  /** The n operands of an op17 that calls op17, and so on; the last pair calls op21, a last triple op19. */
  function Tower(n: nat, outer: bool): (args: seq<Value>)
    requires n >= 2
    ensures |args| == n
  {
    if n == 2 then [A, Name(21, outer)]
    else if n == 3 then [A, Name(19, outer), A]
    else [A, Name(17, outer)] + Tower(n - 2, outer)
  }

  lemma ReadCons(vm: Vm, reg: Value, regs: seq<Value>)
    requires Read(vm, reg).Some? && ReadAll(vm, regs).Some?
    ensures ReadAll(vm, [reg] + regs) == Some([Read(vm, reg).value] + ReadAll(vm, regs).value)
  {
    assert ([reg] + regs)[1..] == regs;
  }

  lemma ReadLevel(vm: Vm, name: Value, op: int, regs: seq<Value>, vs: seq<Value>)
    requires Read(vm, A) == Some(A) && Read(vm, name) == Some(Fn(op)) && ReadAll(vm, regs) == Some(vs)
    ensures ReadAll(vm, [A, name] + regs) == Some([A, Fn(op)] + vs)
  {
    ReadCons(vm, name, regs);
    ReadCons(vm, A, [name] + regs);
    assert [A] + ([name] + regs) == [A, name] + regs && [A] + ([Fn(op)] + vs) == [A, Fn(op)] + vs;
  }

  /** Looking up the operands of one level gives those of the next. */
  lemma {:induction false} ReadTower(vm: Vm, n: nat, outer: bool)
    requires Ready(vm) && n >= 2
    ensures ReadAll(vm, Tower(n, outer)) == Some(Tower(n, false))
    decreases n
  {
    if n == 2 {
      ReadTwo(vm, A, Name(21, outer));
    } else if n == 3 {
      ReadTwo(vm, Name(19, outer), A);
      ReadCons(vm, A, [Name(19, outer), A]);
      assert [A] + [Name(19, outer), A] == [A, Name(19, outer), A] && [A] + [Fn(19), A] == [A, Fn(19), A];
    } else {
      ReadTower(vm, n - 2, outer);
      ReadLevel(vm, Name(17, outer), 17, Tower(n - 2, outer), Tower(n - 2, false));
    }
  }

  lemma EncodesA(lib: Library, vm: Vm)
    requires Read(vm, A) == Some(A)
    ensures Exec(lib, vm, 19, [A]).status.Returned? && Exec(lib, vm, 19, [A]).vm.writes == vm.writes + 1
  {
    ShortTextsAreOrdinary(Lit("a"));
    assert Encodable(Lit("a"));
    assert Exec(lib, vm, 19, [A]) == Encode(lib, Counted(vm), A);
  }

  /** The last pair or triple of operands. */
  lemma TopOfTower(lib: Library, vm: Vm, n: nat, outer: bool)
    requires Ready(vm) && (n == 2 || n == 3)
    ensures var o := Exec(lib, vm, 17, Tower(n, outer)); o.status.Returned? && o.vm.writes == vm.writes + (n + 1) / 2
  {
    var c, args := Counted(vm), Tower(n, outer);
    if n == 2 {
      assert args[2..] == [] && ReadAll(c, args[2..]) == Some([]);
      assert Nested(c, 17, args) == Some((21, []));
    } else {
      assert args[2..] == [A];
      ReadCons(c, A, []);
      assert [A] + [] == [A] && ReadAll(c, []) == Some([]);
      assert Nested(c, 17, args) == Some((19, [A]));
      EncodesA(lib, c);
    }
    CallsUnfold(lib, vm, 17, args);
  }

  lemma {:induction false} TowerWrites(lib: Library, vm: Vm, n: nat, outer: bool)
    requires Ready(vm) && n >= 2
    ensures var o := Exec(lib, vm, 17, Tower(n, outer)); o.status.Returned? && o.vm.writes == vm.writes + (n + 1) / 2
    decreases n
  {
    if n <= 3 {
      TopOfTower(lib, vm, n, outer);
    } else {
      var c, args := Counted(vm), Tower(n, outer);
      assert args[2..] == Tower(n - 2, outer);
      ReadTower(c, n - 2, outer);
      assert Nested(c, 17, args) == Some((17, Tower(n - 2, false)));
      TowerWrites(lib, c, n - 2, false);
      CallsUnfold(lib, vm, 17, args);
    }
  }

  /** An instruction with k operands that writes as much as any can. */
  function Busiest(k: nat): Value {
    if k == 0 then Instruction(21, [])
    else if k == 1 then Instruction(19, [A])
    else Instruction(17, Tower(k, true))
  }

  lemma BusiestWrites(lib: Library, vm: Vm, k: nat)
    requires Ready(vm)
    ensures var o := Dispatch(lib, vm, Busiest(k)); o.status.Returned? && o.vm.writes == vm.writes + (k + 1) / 2
  {
    if k == 0 {
      Dispatches(lib, vm, 21, []);
    } else if k == 1 {
      Dispatches(lib, vm, 19, [A]);
      EncodesA(lib, vm);
    } else {
      Dispatches(lib, vm, 17, Tower(k, true));
      TowerWrites(lib, vm, k, true);
    }
  }

  /** Lets an operation name the register it stands in: op7 calls op2 with its contents twice. */
  function Naming(op: int): Value {
    Instruction(7, [Int(2), Int(op), Int(op)])
  }

  lemma NamesItself(lib: Library, vm: Vm, op: int)
    requires Read(vm, Int(7)) == Some(Fn(7)) && Read(vm, Int(2)) == Some(Fn(2)) && Read(vm, Int(op)) == Some(Fn(op))
    ensures Dispatch(lib, vm, Naming(op)).vm == Store(Counted(Counted(vm)), Fn(op), Fn(op)).vm
  {
    var args, c := [Int(2), Int(op), Int(op)], Counted(vm);
    Dispatches(lib, vm, 7, args);
    assert args[1..] == [Int(op), Int(op)];
    ReadTwo(c, Int(op), Int(op));
    assert Exec(lib, c, 2, [Fn(op), Fn(op)]) == Store(Counted(c), Fn(op), Fn(op));
    CallsUnfold(lib, vm, 7, args);
  }

  const PREPARATION: seq<Value> := [Naming(17), Naming(19), Naming(21), Instruction(2, [A, A])]

  lemma {:induction false} RunAppend(lib: Library, vm: Vm, tokens: seq<Value>, last: Value)
    ensures RunAll(lib, vm, tokens + [last]) == Dispatch(lib, RunAll(lib, vm, tokens), last).vm
  {
    RunsCompose(lib, vm, tokens, [last]);
    RunOne(lib, RunAll(lib, vm, tokens), last);
  }

  /** The built-in operations that the preparation uses are where they were. */
  predicate HasBasics(vm: Vm) {
    forall op | op in {2, 7, 17, 19, 21} :: Read(vm, Int(op)) == Some(Fn(op))
  }

  /** A register named by an operation is none of the numbered ones. */
  lemma OperationsNameTheirOwn(vm: Vm, op: int)
    ensures Read(Store(vm, Fn(op), Fn(op)).vm, Fn(op)) == Some(Fn(op))
    ensures forall n :: Read(Store(vm, Fn(op), Fn(op)).vm, Int(n)) == Read(vm, Int(n))
    ensures forall f | f != op :: Read(Store(vm, Fn(op), Fn(op)).vm, Fn(f)) == Read(vm, Fn(f))
  {
  }

  lemma NamingKeepsBasics(lib: Library, vm: Vm, op: int)
    requires HasBasics(vm) && op in {17, 19, 21}
    ensures HasBasics(Dispatch(lib, vm, Naming(op)).vm) && SelfNamed(Dispatch(lib, vm, Naming(op)).vm, op)
    ensures forall f | f != op && SelfNamed(vm, f) :: SelfNamed(Dispatch(lib, vm, Naming(op)).vm, f)
  {
    NamesItself(lib, vm, op);
    CountingReads(vm);
    CountingReads(Counted(vm));
    OperationsNameTheirOwn(Counted(Counted(vm)), op);
  }

  lemma CountingReads(vm: Vm)
    ensures forall reg :: Read(Counted(vm), reg) == Read(vm, reg)
  {
  }

  lemma RunFour(lib: Library, vm: Vm, a: Value, b: Value, c: Value, d: Value)
    ensures RunAll(lib, vm, [a, b, c, d]) ==
            Dispatch(lib, Dispatch(lib, Dispatch(lib, Dispatch(lib, vm, a).vm, b).vm, c).vm, d).vm
  {
    RunsCompose(lib, vm, [a, b], [c, d]);
    RunTwo(lib, vm, a, b);
    RunTwo(lib, RunAll(lib, vm, [a, b]), c, d);
    assert [a, b, c, d] == [a, b] + [c, d];
  }

  lemma StoringALeavesOperations(lib: Library, vm: Vm)
    requires HasBasics(vm) && SelfNamed(vm, 17) && SelfNamed(vm, 19) && SelfNamed(vm, 21)
    ensures Ready(Dispatch(lib, vm, Instruction(2, [A, A])).vm)
  {
    Dispatches(lib, vm, 2, [A, A]);
    assert Exec(lib, vm, 2, [A, A]) == Store(Counted(vm), A, A);
  }

  lemma PreparationMakesReady(lib: Library, vm: Vm)
    requires HasBasics(vm)
    ensures Ready(RunAll(lib, vm, PREPARATION))
  {
    var vm1 := Dispatch(lib, vm, Naming(17)).vm;
    var vm2 := Dispatch(lib, vm1, Naming(19)).vm;
    NamingKeepsBasics(lib, vm, 17);
    NamingKeepsBasics(lib, vm1, 19);
    NamingKeepsBasics(lib, vm2, 21);
    StoringALeavesOperations(lib, Dispatch(lib, vm2, Naming(21)).vm);
    RunFour(lib, vm, Naming(17), Naming(19), Naming(21), Instruction(2, [A, A]));
  }

  /** The bound on writes is reached for every number of operands: after four instructions of preparation,
      one instruction with k operands writes exactly half of k times, rounded up. */
  lemma BoundIsReached(lib: Library, pToken: Text, k: nat)
    ensures var program := PREPARATION + [Busiest(k)];
            var vm := RunAll(lib, Start(List(program), pToken), PREPARATION);
            && |Busiest(k).items| == k + 1
            && Dispatch(lib, vm, Busiest(k)).status.Returned?
            && RunAll(lib, Start(List(program), pToken), program).writes == vm.writes + (k + 1) / 2
  {
    var program := PREPARATION + [Busiest(k)];
    var vm0 := Start(List(program), pToken);
    forall op | op in {2, 7, 17, 19, 21}
      ensures Read(vm0, Int(op)) == Some(Fn(op))
    {
      StartHolds(List(program), pToken, op);
    }
    PreparationMakesReady(lib, vm0);
    BusiestWrites(lib, RunAll(lib, vm0, PREPARATION), k);
    RunAppend(lib, vm0, PREPARATION, Busiest(k));
  }

  // ---------- masking twice ----------

  lemma MaskKeepsLength(t: Text, key: Text)
    ensures XorText(t, key).Some? ==> |XorText(t, key).value| == |t|
  {
  }

  /** What op1 leaves in its register, given the text there and the string form of the other. */
  lemma XorStores(lib: Library, vm: Vm, e: Value, t: Value, text: Text)
    requires Read(vm, e) == Some(Str(text)) && Read(vm, t).Some? && KeyOf(e) != KeyOf(t)
    ensures var key := ToStr(lib.show, Read(vm, t).value);
            var masked := XorText(ToStr(lib.show, Str(text)), key);
            var o := Xor(lib, vm, e, t);
            && (o.status.Returned? <==> masked.Some?)
            && (masked.Some? ==> o.vm.values == vm.values[KeyOf(e).value := Str(masked.value)]
                                 && Read(o.vm, e) == Some(Str(masked.value)) && Read(o.vm, t) == Read(vm, t))
  {
  }

  /** Neither a text that the browser shows differently nor one whose masked form is such comes back: the
      lengths do not fit. */
  lemma SpecialTextsAreLost(text: Text, shown: Text, masked: Text, shownAgain: Text)
    requires shown == if text in SPECIAL then SPECIAL[text] else text
    requires |masked| == |shown|
    requires shownAgain == if masked in SPECIAL then SPECIAL[masked] else masked
    requires text in SPECIAL || masked in SPECIAL
    ensures |shownAgain| != |text|
  {
    if text in SPECIAL { SpecialLengths(text); }
    if masked in SPECIAL { SpecialLengths(masked); }
  }

  /** Two op1 with the same operands restore the register exactly if the browser shows nothing else for the
      text or its masked form. */
  lemma XorTwice(lib: Library, vm: Vm, e: Value, t: Value, text: Text)
    requires Read(vm, e) == Some(Str(text)) && Read(vm, t).Some? && KeyOf(e) != KeyOf(t) && IsText(text)
    requires Xor(lib, vm, e, t).status.Returned?
    ensures var key := ToStr(lib.show, Read(vm, t).value);
            var first := Xor(lib, vm, e, t).vm;
            var o := Xor(lib, first, e, t);
            Read(first, e).Some? && Read(first, e).value.Str?
            && (o.status.Returned? && o.vm.values == vm.values <==>
              text !in SPECIAL && Read(first, e).value.s !in SPECIAL)
  {
    var key := ToStr(lib.show, Read(vm, t).value);
    var shown := ToStr(lib.show, Str(text));
    XorStores(lib, vm, e, t, text);
    MaskKeepsLength(shown, key);
    var first, masked := Xor(lib, vm, e, t).vm, XorText(shown, key).value;
    var shownAgain := ToStr(lib.show, Str(masked));
    XorStores(lib, first, e, t, masked);
    MaskKeepsLength(shownAgain, key);
    if text in SPECIAL || masked in SPECIAL {
      SpecialTextsAreLost(text, shown, masked, shownAgain);
    } else {
      MaskTwice(text, key);
    }
  }
}
