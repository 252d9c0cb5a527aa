/** The Turnstile interpreter (helper/turnstile.py:54-163): a machine whose operations sit in its own
    registers, can be copied and overwritten, and call each other. */
module Turnstile {
  import opened TurnstileValues
  import opened Wrappers

  /** JSON, base64, str() and the clock with its random part are parameters; `encode` is base64 of the
      UTF-8 text, `decode` its inverse or None when it fails. */
  datatype Library = Library(loads: Text -> Option<Value>, dumps: Value -> Text, show: Value -> Text,
                             encode: Text -> Text, decode: Text -> Option<Text>, numbers: nat -> real)

  /** `draws` counts the readings of the clock and of the random generator. The last two are history:
      how many operations were called, and how often a register or the result was written. An ordered
      map is named by its position in `objects`. */
  datatype Vm = Vm(values: map<Key, Value>, result: Text, objects: seq<Ordered>, draws: nat,
                   calls: nat, writes: nat)

  /** Escaped: something outside the machine was called or modified. */
  datatype Status = Returned | Raised | Escaped

  datatype Outcome = Outcome(vm: Vm, status: Status)

  const BUILT_IN: set<int> := {1, 2, 3, 5, 6, 7, 8, 14, 15, 17, 18, 19, 20, 21, 23, 24}

  // ---------- registers ----------

  function Read(vm: Vm, reg: Value): Option<Value> {
    if KeyOf(reg).Some? && KeyOf(reg).value in vm.values then Some(vm.values[KeyOf(reg).value]) else None
  }

  function ReadAll(vm: Vm, regs: seq<Value>): (r: Option<seq<Value>>)
    ensures r.Some? ==> |r.value| == |regs| && forall i | 0 <= i < |regs| :: Read(vm, regs[i]) == Some(r.value[i])
  {
    if regs == [] then Some([])
    else
      var first, rest := Read(vm, regs[0]), ReadAll(vm, regs[1..]);
      if first.Some? && rest.Some? then Some([first.value] + rest.value) else None
  }

  function Raise(vm: Vm): Outcome { Outcome(vm, Raised) }

  function Store(vm: Vm, reg: Value, v: Value): Outcome {
    if KeyOf(reg).None? then Raise(vm)
    else Outcome(vm.(values := vm.values[KeyOf(reg).value := v], writes := vm.writes + 1), Returned)
  }

  // ---------- operations that call nothing ----------

  predicate Textual(v: Value) { v.Str? || IsNumber(v) }

  /** json.dumps refuses what is not JSON. */
  predicate Plain(v: Value) {
    match v
    case List(items) => forall i | 0 <= i < |items| :: Plain(items[i])
    case Dict(fields) => forall i | 0 <= i < |fields| :: assert fields[i] < v; Plain(fields[i].1)
    case Obj(_) => false
    case Fn(_) => false
    case _ => true
  }

  function Path(lib: Library, left: Value, right: Value): Text {
    Show(lib.show, left) + Lit(".") + Show(lib.show, right)
  }

  function Redirected(path: Text): Text {
    if path == Lit("window.document.location") then Lit("https://chatgpt.com/") else path
  }

  function Combined(lib: Library, current: Value, incoming: Value): Value {
    if current.List? then List(current.items + [incoming])
    else if Textual(current) || Textual(incoming) then Str(ToStr(lib.show, current) + ToStr(lib.show, incoming))
    else Str(Lit("NaN"))
  }

  function Xor(lib: Library, vm: Vm, e: Value, t: Value): Outcome {
    match (Read(vm, e), Read(vm, t))
    case (Some(a), Some(b)) =>
      var masked := XorText(ToStr(lib.show, a), ToStr(lib.show, b));
      if masked.Some? then Store(vm, e, Str(masked.value)) else Raise(vm)
    case _ => Raise(vm)
  }

  function Output(lib: Library, vm: Vm, e: Value): Outcome {
    if e.Str? && Encodable(e.s) then Outcome(vm.(result := lib.encode(e.s), writes := vm.writes + 1), Returned)
    else Raise(vm)
  }

  function Combine(lib: Library, vm: Vm, e: Value, t: Value): Outcome {
    match (Read(vm, e), Read(vm, t))
    case (Some(a), Some(b)) => Store(vm, e, Combined(lib, a, b))
    case _ => Raise(vm)
  }

  function Property(lib: Library, vm: Vm, e: Value, t: Value, n: Value, location: bool): Outcome {
    match (Read(vm, t), Read(vm, n))
    case (Some(a), Some(b)) =>
      Store(vm, e, Str(if location then Redirected(Path(lib, a, b)) else Path(lib, a, b)))
    case _ => Raise(vm)
  }

  function Copy(vm: Vm, e: Value, t: Value): Outcome {
    match Read(vm, t)
    case Some(v) => Store(vm, e, v)
    case None => Raise(vm)
  }

  function Parse(lib: Library, vm: Vm, e: Value, t: Value): Outcome {
    match Read(vm, t)
    case Some(Str(s)) => (match lib.loads(s) case Some(v) => Store(vm, e, v) case None => Raise(vm))
    case _ => Raise(vm)
  }

  function Serialise(lib: Library, vm: Vm, e: Value, t: Value): Outcome {
    match Read(vm, t)
    case Some(v) => if Plain(v) then Store(vm, e, Str(lib.dumps(v))) else Raise(vm)
    case None => Raise(vm)
  }

  function Decode(lib: Library, vm: Vm, e: Value): Outcome {
    match Read(vm, e)
    case Some(v) =>
      var text := lib.decode(ToStr(lib.show, v));
      if text.Some? then Store(vm, e, Str(text.value)) else Raise(vm)
    case None => Raise(vm)
  }

  function Encode(lib: Library, vm: Vm, e: Value): Outcome {
    match Read(vm, e)
    case Some(v) =>
      var text := ToStr(lib.show, v);
      if Encodable(text) then Store(vm, e, Str(lib.encode(text))) else Raise(vm)
    case None => Raise(vm)
  }

  /** Adds to the ordered map that comes first, under the string form of the second parameter. */
  function SetProperty(lib: Library, vm: Vm, params: seq<Value>): Outcome {
    if |params| < 3 || !params[0].Obj? then Raise(vm)
    else if params[0].ref >= |vm.objects| then Outcome(vm, Escaped)
    else
      var o := params[0].ref;
      Outcome(vm.(objects := vm.objects[o := Added(vm.objects[o], Show(lib.show, params[1]), params[2])]), Returned)
  }

  const STORAGE_KEYS: Value := List([Str(Lit("STATSIG_LOCAL_STORAGE_INTERNAL_STORE_V4")), Str(Lit("oai-did")),
                                     Str(Lit("client-correlated-secret"))])

  function StoreNumber(lib: Library, vm: Vm, e: Value): Outcome {
    Store(vm.(draws := vm.draws + 1), e, Float(lib.numbers(vm.draws)))
  }

  function StoreObject(vm: Vm, e: Value): Outcome {
    Store(vm.(objects := vm.objects + [Ordered([], map[])]), e, Obj(|vm.objects|))
  }

  /** The operations that call no other, by their number; a wrong number of arguments raises. */
  function Simple(lib: Library, vm: Vm, op: int, args: seq<Value>): Outcome {
    var n := |args|;
    if op == 1 && n == 2 then Xor(lib, vm, args[0], args[1])
    else if op == 2 && n == 2 then Store(vm, args[0], args[1])
    else if op == 3 && n == 1 then Output(lib, vm, args[0])
    else if op == 5 && n == 2 then Combine(lib, vm, args[0], args[1])
    else if op == 6 && n == 3 then Property(lib, vm, args[0], args[1], args[2], true)
    else if op == 8 && n == 2 then Copy(vm, args[0], args[1])
    else if op == 14 && n == 2 then Parse(lib, vm, args[0], args[1])
    else if op == 15 && n == 2 then Serialise(lib, vm, args[0], args[1])
    else if op == 18 && n == 1 then Decode(lib, vm, args[0])
    else if op == 19 && n == 1 then Encode(lib, vm, args[0])
    else if op == 21 then Outcome(vm, Returned)
    else if op == 24 && n == 3 then Property(lib, vm, args[0], args[1], args[2], false)
    else Raise(vm)
  }

  // ---------- operations that call others ----------

  predicate Is(v: Value, s: string) { v == Str(Lit(s)) }

  /** op7: calls with the contents of registers. */
  function Invoke(lib: Library, vm: Vm, args: seq<Value>): Outcome
    decreases |args|, 0
  {
    if args == [] then Raise(vm)
    else
      match (Read(vm, args[0]), ReadAll(vm, args[1..]))
      case (Some(target), Some(params)) =>
        if Is(target, "window.Reflect.set") then SetProperty(lib, vm, params)
        else if target.Fn? then Exec(lib, vm, target.op, params)
        else Outcome(vm, Returned)
      case _ => Raise(vm)
  }

  /** op17: calls and stores what comes back, which is None for every operation. */
  function Evaluate(lib: Library, vm: Vm, args: seq<Value>): Outcome
    decreases |args|, 0
  {
    if |args| < 2 then Raise(vm)
    else
      match (Read(vm, args[1]), ReadAll(vm, args[2..]))
      case (Some(target), Some(params)) =>
        if Is(target, "window.performance.now") || Is(target, "window.Math.random") then StoreNumber(lib, vm, args[0])
        else if Is(target, "window.Object.create") then StoreObject(vm, args[0])
        else if Is(target, "window.Object.keys") then Store(vm, args[0], STORAGE_KEYS)
        else if target.Fn? then
          var called := Exec(lib, vm, target.op, params);
          if called.status.Returned? then Store(called.vm, args[0], Null) else called
        else Outcome(vm, Returned)
      case _ => Raise(vm)
  }

  /** op20: calls with the contents of registers if two registers are equal. */
  function IfEqual(lib: Library, vm: Vm, args: seq<Value>): Outcome
    decreases |args|, 0
  {
    if |args| < 3 then Raise(vm)
    else
      match (Read(vm, args[0]), Read(vm, args[1]))
      case (Some(left), Some(right)) =>
        if !PyEq(left, right) then Outcome(vm, Returned)
        else
          (match Read(vm, args[2])
           case Some(target) =>
             if !target.Fn? then Outcome(vm, Returned)
             else (match ReadAll(vm, args[3..])
                   case Some(params) => Exec(lib, vm, target.op, params)
                   case None => Raise(vm))
           case None => Raise(vm))
      case _ => Raise(vm)
  }

  /** op23: calls with its arguments as they are if a register is not None. */
  function IfDefined(lib: Library, vm: Vm, args: seq<Value>): Outcome
    decreases |args|, 0
  {
    if |args| < 2 then Raise(vm)
    else
      match Read(vm, args[0])
      case Some(v) =>
        if v.Null? then Outcome(vm, Returned)
        else
          (match Read(vm, args[1])
           case Some(target) => if target.Fn? then Exec(lib, vm, target.op, args[2..]) else Outcome(vm, Returned)
           case None => Raise(vm))
      case None => Raise(vm)
  }

  function Apply(lib: Library, vm: Vm, op: int, args: seq<Value>): Outcome
    decreases |args|, 1
  {
    if op == 7 then Invoke(lib, vm, args)
    else if op == 17 then Evaluate(lib, vm, args)
    else if op == 20 then IfEqual(lib, vm, args)
    else if op == 23 then IfDefined(lib, vm, args)
    else Simple(lib, vm, op, args)
  }

  /** Calling an operation. A nested call always has fewer arguments than the call it is made from. */
  function Exec(lib: Library, vm: Vm, op: int, args: seq<Value>): Outcome
    decreases |args|, 2
  {
    if op !in BUILT_IN then Outcome(vm, Escaped) else Apply(lib, vm.(calls := vm.calls + 1), op, args)
  }

  // ---------- the dispatch loop ----------

  function Characters(s: Text): seq<Value> {
    seq(|s|, i requires 0 <= i < |s| => Str([s[i]]))
  }

  /** What Python's `for` gives for a value of JSON; None for a value that is not iterable. */
  function Items(v: Value): Option<seq<Value>> {
    match v
    case List(items) => Some(items)
    case Str(s) => Some(Characters(s))
    case Dict(fields) => Some(seq(|fields|, i requires 0 <= i < |fields| => Str(fields[i].0)))
    case _ => None
  }

  /** An instruction's name and operands; a dict of JSON has no key 0. */
  function Split(token: Value): Option<(Value, seq<Value>)> {
    match token
    case List(items) => if items == [] then None else Some((items[0], items[1..]))
    case Str(s) => if s == [] then None else Some((Str([s[0]]), Characters(s[1..])))
    case _ => None
  }

  /** One turn of the loop. Whatever it raises is swallowed, and what was done before it raised stays. */
  function Dispatch(lib: Library, vm: Vm, token: Value): Outcome {
    match Split(token)
    case None => Raise(vm)
    case Some((name, args)) =>
      if KeyOf(name).None? then Raise(vm)
      else
        match Read(vm, name)
        case Some(Fn(op)) => Exec(lib, vm, op, args)
        case _ => Outcome(vm, Returned)
  }

  function RunAll(lib: Library, vm: Vm, tokens: seq<Value>): Vm
    decreases |tokens|
  {
    if tokens == [] then vm else RunAll(lib, Dispatch(lib, vm, tokens[0]).vm, tokens[1..])
  }

  function Operations(): map<Key, Value> {
    map op | op in BUILT_IN :: NumKey(op as real) := Fn(op)
  }

  /** Every built-in under its own number, next to the program and its key. */
  function Start(tokens: Value, pToken: Text): Vm {
    var others := map[NumKey(9.0) := tokens, NumKey(10.0) := Str(Lit("window")), NumKey(16.0) := Str(pToken)];
    Vm(Operations() + others, [], [], 0, 0, 0)
  }

  datatype Solved = NoToken | Token(text: Text) | Uncaught

  function Program(lib: Library, dx: Text, pToken: Text): Option<Value> {
    match lib.decode(dx)
    case None => None
    case Some(masked) => (match XorText(masked, pToken) case Some(text) => lib.loads(text) case None => None)
  }

  function Solve(lib: Library, dx: Text, pToken: Text): Solved {
    match Program(lib, dx, pToken)
    case None => NoToken
    case Some(tokens) =>
      if Items(tokens).None? then Uncaught
      else
        var vm := RunAll(lib, Start(tokens, pToken), Items(tokens).value);
        if vm.result == [] then NoToken else Token(vm.result)
  }
}
