/** What the instructions of the Turnstile interpreter store (helper/turnstile.py:64-151), one law for each
    operation and one for whole programs, in terms of the contents of registers. */
module TurnstileLaws {
  import opened TurnstileValues
  import opened Turnstile
  import opened TurnstileResults
  import opened TurnstilePrograms
  import opened Wrappers

  predicate Holds(vm: Vm, reg: Value, v: Value) { Read(vm, reg) == Some(v) }

  /** The built-in operation is in the register of its number. */
  predicate HasOp(vm: Vm, op: int) { op in BUILT_IN && Holds(vm, Int(op), Fn(op)) }

  /** The instruction has put v into the register and done nothing else. */
  predicate Stores(vm: Vm, o: Outcome, reg: Value, v: Value) {
    && o.status.Returned? && KeyOf(reg).Some? && o.vm.values == vm.values[KeyOf(reg).value := v]
    && o.vm.result == vm.result && o.vm.objects == vm.objects
  }

  predicate DoesNothing(vm: Vm, o: Outcome) {
    o.status.Returned? && o.vm.values == vm.values && o.vm.result == vm.result && o.vm.objects == vm.objects
  }

  lemma SimpleInstruction(lib: Library, vm: Vm, op: int, args: seq<Value>)
    requires HasOp(vm, op) && op !in {7, 17, 20, 23}
    ensures Dispatch(lib, vm, Instruction(op, args)) == Simple(lib, Counted(vm), op, args)
  {
    Dispatches(lib, vm, op, args);
  }

  /** What a program finds: every operation in the register of its number, itself in 9, and two texts. */
  lemma StartIsSetUp(tokens: Value, pToken: Text, op: int)
    requires op in {1, 2, 3, 5, 6, 7, 8, 14, 15, 17, 18, 19, 20, 21, 23, 24}
    ensures HasOp(Start(tokens, pToken), op)
    ensures Holds(Start(tokens, pToken), Int(9), tokens)
    ensures Holds(Start(tokens, pToken), Int(10), Str(Lit("window")))
    ensures Holds(Start(tokens, pToken), Int(16), Str(pToken))
  {
    StartHolds(tokens, pToken, op);
  }

  // ---------- constants, copies and the result ----------

  /** op2 writes its operand, op8 copies a register. */
  lemma ConstantsAndCopies(lib: Library, vm: Vm, e: Value, v: Value, t: Value)
    requires KeyOf(e).Some? && HasOp(vm, 2) && HasOp(vm, 8)
    ensures Stores(vm, Dispatch(lib, vm, Instruction(2, [e, v])), e, v)
    ensures Holds(vm, t, v) ==> Stores(vm, Dispatch(lib, vm, Instruction(8, [e, t])), e, v)
  {
    SimpleInstruction(lib, vm, 2, [e, v]);
    SimpleInstruction(lib, vm, 8, [e, t]);
  }

  /** op3 makes the base64 form of its operand the result. */
  lemma OutputIsEncoded(lib: Library, vm: Vm, s: Text)
    requires HasOp(vm, 3) && Encodable(s)
    ensures var o := Dispatch(lib, vm, Instruction(3, [Str(s)]));
            o.status.Returned? && o.vm.result == lib.encode(s) && o.vm.values == vm.values
  {
    SimpleInstruction(lib, vm, 3, [Str(s)]);
  }

  /** op21 does nothing, whatever its operands. */
  lemma NopDoesNothing(lib: Library, vm: Vm, args: seq<Value>)
    requires HasOp(vm, 21)
    ensures DoesNothing(vm, Dispatch(lib, vm, Instruction(21, args)))
  {
    SimpleInstruction(lib, vm, 21, args);
  }

  // ---------- masking ----------

  /** op1 masks each character with the one of the key whose turn it is; it raises iff some masked code is beyond
      Unicode. */
  lemma MaskingStores(lib: Library, vm: Vm, e: Value, t: Value, text: Text, key: Text)
    requires HasOp(vm, 1) && Holds(vm, e, Str(text)) && Holds(vm, t, Str(key))
    requires text !in SPECIAL && key !in SPECIAL && key != []
    ensures var o := Dispatch(lib, vm, Instruction(1, [e, t]));
            && (o.status.Returned? <==> XorText(text, key).Some?)
            && (o.status.Returned? ==> Stores(vm, o, e, Str(XorText(text, key).value)))
  {
    SimpleInstruction(lib, vm, 1, [e, t]);
  }

  lemma MaskedCodes(text: Text, key: Text)
    requires key != []
    ensures XorText(text, key).Some? <==> forall j | 0 <= j < |text| :: XorCode(text[j], key[j % |key|]) < 0x110000
    ensures XorText(text, key).Some? ==>
      && |XorText(text, key).value| == |text|
      && forall j | 0 <= j < |text| :: XorText(text, key).value[j] == XorCode(text[j], key[j % |key|])
  {
    assert forall j | 0 <= j < |text| :: MaskedAt(text, key, j) == XorCode(text[j], key[j % |key|]);
  }

  /** Each bit of the masked text is set iff the bits of the text and of the key differ. */
  lemma MaskingIsBitwise(lib: Library, vm: Vm, e: Value, t: Value, text: Text, key: Text, i: nat, k: nat)
    requires HasOp(vm, 1) && Holds(vm, e, Str(text)) && Holds(vm, t, Str(key))
    requires text !in SPECIAL && key !in SPECIAL && key != [] && i < |text|
    ensures var o := Dispatch(lib, vm, Instruction(1, [e, t]));
            && (o.status.Returned? <==> forall j | 0 <= j < |text| :: XorCode(text[j], key[j % |key|]) < 0x110000)
            && (o.status.Returned? ==>
                  exists masked :: Stores(vm, o, e, Str(masked)) && |masked| == |text|
                                   && (Bit(masked[i], k) == 1 <==> Bit(text[i], k) != Bit(key[i % |key|], k)))
  {
    MaskingStores(lib, vm, e, t, text, key);
    MaskedCodes(text, key);
    XorIsBitwise(text[i], key[i % |key|], k);
  }

  // ---------- op5 ----------

  /** op5 appends the second text to the first. */
  lemma TextsAreAppended(lib: Library, vm: Vm, e: Value, t: Value, a: Text, b: Text)
    requires HasOp(vm, 5) && Holds(vm, e, Str(a)) && Holds(vm, t, Str(b)) && a !in SPECIAL && b !in SPECIAL
    ensures Stores(vm, Dispatch(lib, vm, Instruction(5, [e, t])), e, Str(a + b))
  {
    SimpleInstruction(lib, vm, 5, [e, t]);
  }

  /** To a list it appends the content as its last member. */
  lemma MembersAreAppended(lib: Library, vm: Vm, e: Value, t: Value, items: seq<Value>, v: Value)
    requires HasOp(vm, 5) && Holds(vm, e, List(items)) && Holds(vm, t, v)
    ensures Stores(vm, Dispatch(lib, vm, Instruction(5, [e, t])), e, List(items + [v]))
  {
    SimpleInstruction(lib, vm, 5, [e, t]);
  }

  /** A missing value before a text reads as undefined; two operands that are neither list, text nor number give
      NaN. */
  lemma OddOperandsOfOp5(lib: Library, vm: Vm, e: Value, t: Value, b: Text)
    requires HasOp(vm, 5) && Holds(vm, e, Null)
    ensures Holds(vm, t, Str(b)) && b !in SPECIAL ==>
      Stores(vm, Dispatch(lib, vm, Instruction(5, [e, t])), e, Str(Lit("undefined") + b))
    ensures Holds(vm, t, Null) ==> Stores(vm, Dispatch(lib, vm, Instruction(5, [e, t])), e, Str(Lit("NaN")))
  {
    SimpleInstruction(lib, vm, 5, [e, t]);
  }

  /** A list of texts reads as its members with commas between them. */
  lemma {:induction false} ListsAreJoined(a: seq<Value>, b: seq<Value>)
    requires a != [] && b != []
    requires (forall i | 0 <= i < |a| :: a[i].Str?) && (forall i | 0 <= i < |b| :: b[i].Str?)
    ensures forall i | 0 <= i < |a + b| :: (a + b)[i].Str?
    ensures Join(a + b) == Join(a) + Lit(",") + Join(b)
    ensures |a| == 1 ==> Join(a) == a[0].s
    decreases |a|
  {
    assert (a + b)[1..] == a[1..] + b;
    if |a| > 1 {
      ListsAreJoined(a[1..], b);
      assert Join(a + b) == a[0].s + Lit(",") + (Join(a[1..]) + Lit(",") + Join(b));
    } else {
      assert a[1..] + b == b;
    }
  }

  // ---------- paths ----------

  /** op24 joins two texts with a dot; op6 does the same, except that it gives the page's address for the path
      of the document's location. */
  lemma PathsAreJoined(lib: Library, vm: Vm, e: Value, t: Value, n: Value, a: Text, b: Text)
    requires KeyOf(e).Some? && HasOp(vm, 6) && HasOp(vm, 24) && Holds(vm, t, Str(a)) && Holds(vm, n, Str(b))
    ensures Stores(vm, Dispatch(lib, vm, Instruction(24, [e, t, n])), e, Str(a + Lit(".") + b))
    ensures Stores(vm, Dispatch(lib, vm, Instruction(6, [e, t, n])), e,
                   Str(if a + Lit(".") + b == Lit("window.document.location") then Lit("https://chatgpt.com/")
                       else a + Lit(".") + b))
  {
    SimpleInstruction(lib, vm, 24, [e, t, n]);
    SimpleInstruction(lib, vm, 6, [e, t, n]);
  }

  /** The dots of the redirected path. */
  lemma DotsOfLocation(i: nat)
    requires i < 24
    ensures Lit("window.document.location")[i] == '.' as int <==> i == 6 || i == 15
  {
    assert Lit("window.document.location")[i] == "window.document.location"[i] as int;
  }

  lemma PartsOfLocation()
    ensures var path := Lit("window.document.location");
            && |path| == 24 && path[..6] == Lit("window") && path[7..] == Lit("document.location")
            && path[..15] == Lit("window.document") && path[16..] == Lit("location")
  {
  }

  lemma SplitAtDot(path: Text, a: Text, b: Text)
    ensures a + Lit(".") + b == path <==>
            |a| < |path| && path[|a|] == '.' as int && a == path[..|a|] && b == path[|a| + 1..]
  {
    if a + Lit(".") + b == path {
      assert path[|a|] == (a + Lit(".") + b)[|a|];
    }
  }

  /** Only two pairs of texts have the path that op6 redirects. */
  lemma RedirectsIff(a: Text, b: Text)
    ensures a + Lit(".") + b == Lit("window.document.location") <==>
            || (a == Lit("window") && b == Lit("document.location"))
            || (a == Lit("window.document") && b == Lit("location"))
  {
    PartsOfLocation();
    SplitAtDot(Lit("window.document.location"), a, b);
    DotsOfLocation(6);
    DotsOfLocation(15);
    if |a| < 24 { DotsOfLocation(|a|); }
    assert |Lit("window")| == 6 && |Lit("window.document")| == 15;
  }

  // ---------- JSON and base64 ----------

  /** op14 parses: what op15 has serialised comes back, if parsing is the inverse of serialising for it. */
  lemma JsonRoundTrip(lib: Library, vm: Vm, e: Value, t: Value, f: Value, v: Value)
    requires HasOp(vm, 15) && HasOp(vm, 14) && Holds(vm, t, v) && Plain(v) && lib.loads(lib.dumps(v)) == Some(v)
    requires KeyOf(e).Some? && KeyOf(f).Some? && KeyOf(e) != KeyOf(Int(14))
    ensures var first := Dispatch(lib, vm, Instruction(15, [e, t]));
            && Stores(vm, first, e, Str(lib.dumps(v)))
            && Stores(first.vm, Dispatch(lib, first.vm, Instruction(14, [f, e])), f, v)
  {
    SimpleInstruction(lib, vm, 15, [e, t]);
    var first := Dispatch(lib, vm, Instruction(15, [e, t]));
    SimpleInstruction(lib, first.vm, 14, [f, e]);
  }

  /** op18 decodes what op19 has encoded. */
  lemma Base64RoundTrip(lib: Library, vm: Vm, e: Value, s: Text)
    requires HasOp(vm, 19) && HasOp(vm, 18) && Holds(vm, e, Str(s)) && s !in SPECIAL && Encodable(s)
    requires lib.decode(lib.encode(s)) == Some(s) && lib.encode(s) !in SPECIAL && KeyOf(e) != KeyOf(Int(18))
    ensures var first := Dispatch(lib, vm, Instruction(19, [e]));
            && Stores(vm, first, e, Str(lib.encode(s)))
            && Stores(first.vm, Dispatch(lib, first.vm, Instruction(18, [e])), e, Str(s))
  {
    SimpleInstruction(lib, vm, 19, [e]);
    var first := Dispatch(lib, vm, Instruction(19, [e]));
    SimpleInstruction(lib, first.vm, 18, [e]);
  }

  // ---------- calls ----------

  /** What a call gets from the registers that the operands name. */
  ghost predicate Gives(vm: Vm, regs: seq<Value>, params: seq<Value>) {
    |params| == |regs| && forall i | 0 <= i < |regs| :: Holds(vm, regs[i], params[i])
  }

  lemma {:induction false} GivesReads(vm: Vm, regs: seq<Value>, params: seq<Value>)
    requires Gives(vm, regs, params)
    ensures ReadAll(vm, regs) == Some(params)
  {
    if regs != [] {
      assert Holds(vm, regs[0], params[0]);
      assert forall i | 0 <= i < |regs| - 1 :: regs[1..][i] == regs[i + 1] && params[1..][i] == params[i + 1];
      GivesReads(vm, regs[1..], params[1..]);
      assert params == [params[0]] + params[1..];
    }
  }

  /** A call that reads the registers after its first operands. */
  lemma CountedReads(vm: Vm, first: seq<Value>, regs: seq<Value>, params: seq<Value>)
    requires Gives(vm, regs, params)
    ensures ReadAll(Counted(vm), (first + regs)[|first|..]) == Some(params)
    ensures forall i | 0 <= i < |first| :: Read(Counted(vm), (first + regs)[i]) == Read(vm, first[i])
  {
    CountingReads(vm);
    assert (first + regs)[|first|..] == regs;
    GivesReads(Counted(vm), regs, params);
  }

  /** op7 calls the operation in a register with the contents of others; a target that is neither an operation
      nor the one that sets properties is ignored. */
  lemma Op7Calls(lib: Library, vm: Vm, e: Value, regs: seq<Value>, target: Value, params: seq<Value>)
    requires HasOp(vm, 7) && Holds(vm, e, target) && Gives(vm, regs, params)
    ensures var o := Dispatch(lib, vm, Instruction(7, [e] + regs));
            && (target.Fn? ==> o == Exec(lib, Counted(vm), target.op, params))
            && (!target.Fn? && target != Str(Lit("window.Reflect.set")) ==> DoesNothing(vm, o))
  {
    var args := [e] + regs;
    Dispatches(lib, vm, 7, args);
    CountedReads(vm, [e], regs, params);
    assert Exec(lib, vm, 7, args) == Invoke(lib, Counted(vm), args);
  }

  /** With the target that sets properties, op7 puts the third content into the object that the first names, under
      the second: as the last key if it is new. */
  lemma Op7SetsProperties(lib: Library, vm: Vm, e: Value, regs: seq<Value>, o: nat, key: Text, v: Value)
    requires HasOp(vm, 7) && Holds(vm, e, Str(Lit("window.Reflect.set"))) && Gives(vm, regs, [Obj(o), Str(key), v])
    requires o < |vm.objects|
    ensures var vm' := Dispatch(lib, vm, Instruction(7, [e] + regs)).vm;
            && vm'.values == vm.values && |vm'.objects| == |vm.objects|
            && (forall k: nat | k < |vm.objects| && k != o :: vm'.objects[k] == vm.objects[k])
            && vm'.objects[o].values == vm.objects[o].values[key := v]
            && vm'.objects[o].keys == if key in vm.objects[o].values then vm.objects[o].keys
                                      else vm.objects[o].keys + [key]
  {
    var args, params := [e] + regs, [Obj(o), Str(key), v];
    Dispatches(lib, vm, 7, args);
    CountedReads(vm, [e], regs, params);
    assert Exec(lib, vm, 7, args) == Invoke(lib, Counted(vm), args);
    assert Invoke(lib, Counted(vm), args) == SetProperty(lib, Counted(vm), params);
  }

  /** op17 stores None after an operation that returns; what raises is not stored. */
  lemma Op17Calls(lib: Library, vm: Vm, e: Value, t: Value, regs: seq<Value>, op: int, params: seq<Value>)
    requires HasOp(vm, 17) && KeyOf(e).Some? && Holds(vm, t, Fn(op)) && Gives(vm, regs, params)
    ensures var called := Exec(lib, Counted(vm), op, params);
            var o := Dispatch(lib, vm, Instruction(17, [e, t] + regs));
            && (called.status.Returned? ==> Stores(called.vm, o, e, Null))
            && (!called.status.Returned? ==> o == called)
  {
    var args := [e, t] + regs;
    Dispatches(lib, vm, 17, args);
    CountedReads(vm, [e, t], regs, params);
    assert args[1] == t && Exec(lib, vm, 17, args) == Evaluate(lib, Counted(vm), args);
  }

  /** The browser's functions: a new object without keys, the names of the stored items, a number. */
  lemma Op17Simulates(lib: Library, vm: Vm, e: Value, t: Value, regs: seq<Value>, params: seq<Value>)
    requires HasOp(vm, 17) && KeyOf(e).Some? && Gives(vm, regs, params)
    ensures var o := Dispatch(lib, vm, Instruction(17, [e, t] + regs));
            && (Holds(vm, t, Str(Lit("window.Object.create"))) ==>
                 && o.vm.values == vm.values[KeyOf(e).value := Obj(|vm.objects|)]
                 && o.vm.objects == vm.objects + [Ordered([], map[])])
            && (Holds(vm, t, Str(Lit("window.Object.keys"))) ==>
                 Stores(vm, o, e, List([Str(Lit("STATSIG_LOCAL_STORAGE_INTERNAL_STORE_V4")), Str(Lit("oai-did")),
                                        Str(Lit("client-correlated-secret"))])))
            && (Holds(vm, t, Str(Lit("window.Math.random"))) || Holds(vm, t, Str(Lit("window.performance.now"))) ==>
                 Stores(vm, o, e, Float(lib.numbers(vm.draws))) && o.vm.draws == vm.draws + 1)
  {
    var args := [e, t] + regs;
    Dispatches(lib, vm, 17, args);
    CountedReads(vm, [e, t], regs, params);
    assert args[1] == t && Exec(lib, vm, 17, args) == Evaluate(lib, Counted(vm), args);
    NamesDiffer();
  }

  lemma NamesDiffer()
    ensures Lit("window.Object.create") != Lit("window.Object.keys")
    ensures Lit("window.Object.create") != Lit("window.Math.random")
    ensures Lit("window.Object.create") != Lit("window.performance.now")
    ensures Lit("window.Object.keys") != Lit("window.Math.random")
    ensures Lit("window.Object.keys") != Lit("window.performance.now")
  {
    assert |Lit("window.Object.create")| == 20 && |Lit("window.Object.keys")| == 18;
    assert |Lit("window.Math.random")| == 18 && |Lit("window.performance.now")| == 22;
    assert Lit("window.Object.keys")[7] == 'O' as int && Lit("window.Math.random")[7] == 'M' as int;
  }

  /** Any other target of op17 is ignored. */
  lemma Op17Ignores(lib: Library, vm: Vm, e: Value, t: Value, regs: seq<Value>, target: Value, params: seq<Value>)
    requires HasOp(vm, 17) && Holds(vm, t, target) && Gives(vm, regs, params) && !target.Fn?
    requires target != Str(Lit("window.Object.create")) && target != Str(Lit("window.Object.keys"))
    requires target != Str(Lit("window.Math.random")) && target != Str(Lit("window.performance.now"))
    ensures DoesNothing(vm, Dispatch(lib, vm, Instruction(17, [e, t] + regs)))
  {
    var args := [e, t] + regs;
    Dispatches(lib, vm, 17, args);
    CountedReads(vm, [e, t], regs, params);
    assert args[1] == t && Exec(lib, vm, 17, args) == Evaluate(lib, Counted(vm), args);
  }

  /** op20 calls if two registers compare equal, and does nothing if they do not. */
  lemma Op20CallsIfEqual(lib: Library, vm: Vm, e: Value, t: Value, n: Value, regs: seq<Value>, a: Value, b: Value,
                         op: int, params: seq<Value>)
    requires HasOp(vm, 20) && Holds(vm, e, a) && Holds(vm, t, b) && Holds(vm, n, Fn(op)) && Gives(vm, regs, params)
    requires KeyOf(a).Some? && KeyOf(b).Some?
    ensures var o := Dispatch(lib, vm, Instruction(20, [e, t, n] + regs));
            && (KeyOf(a) == KeyOf(b) ==> o == Exec(lib, Counted(vm), op, params))
            && (KeyOf(a) != KeyOf(b) ==> DoesNothing(vm, o))
  {
    var args := [e, t, n] + regs;
    Dispatches(lib, vm, 20, args);
    CountedReads(vm, [e, t, n], regs, params);
    assert args[0] == e && args[1] == t && args[2] == n;
    assert Exec(lib, vm, 20, args) == IfEqual(lib, Counted(vm), args);
    SameKeyIffEqual(a, b);
  }

  /** op23 calls with its operands as they are unless the register holds None. */
  lemma Op23CallsIfDefined(lib: Library, vm: Vm, e: Value, t: Value, args': seq<Value>, a: Value, op: int)
    requires HasOp(vm, 23) && Holds(vm, e, a) && Holds(vm, t, Fn(op))
    ensures var o := Dispatch(lib, vm, Instruction(23, [e, t] + args'));
            && (a != Null ==> o == Exec(lib, Counted(vm), op, args'))
            && (a == Null ==> DoesNothing(vm, o))
  {
    var args := [e, t] + args';
    Dispatches(lib, vm, 23, args);
    CountingReads(vm);
    assert args[0] == e && args[1] == t && args[2..] == args';
    assert Exec(lib, vm, 23, args) == IfDefined(lib, Counted(vm), args);
  }

  // ---------- whole programs ----------

  function Concat(pieces: seq<Text>): Text {
    if pieces == [] then [] else pieces[0] + Concat(pieces[1..])
  }

  /** op5 with each of the registers in turn. */
  function Appends(e: Value, regs: seq<Value>): seq<Value> {
    if regs == [] then [] else [Instruction(5, [e, regs[0]])] + Appends(e, regs[1..])
  }

  /** The registers hold these values, and none is the one written to or that of op5. */
  ghost predicate Beside(vm: Vm, e: Value, regs: seq<Value>, vs: seq<Value>) {
    && |vs| == |regs| && KeyOf(e) != KeyOf(Int(5))
    && forall i | 0 <= i < |regs| :: Holds(vm, regs[i], vs[i]) && KeyOf(regs[i]) != KeyOf(e)
  }

  lemma BesideLater(vm: Vm, o: Outcome, e: Value, v: Value, regs: seq<Value>, vs: seq<Value>)
    requires Beside(vm, e, regs, vs) && regs != [] && Stores(vm, o, e, v) && HasOp(vm, 5)
    ensures Beside(o.vm, e, regs[1..], vs[1..]) && HasOp(o.vm, 5) && Holds(o.vm, e, v)
  {
    forall i | 0 <= i < |regs| - 1
      ensures Holds(o.vm, regs[1..][i], vs[1..][i]) && KeyOf(regs[1..][i]) != KeyOf(e)
    {
      assert Holds(vm, regs[i + 1], vs[i + 1]);
    }
  }

  /** A list in the register grows by the contents of the others, in order. */
  lemma {:induction false} ListGrows(lib: Library, vm: Vm, e: Value, regs: seq<Value>, items: seq<Value>,
                                     vs: seq<Value>)
    requires HasOp(vm, 5) && Holds(vm, e, List(items)) && Beside(vm, e, regs, vs)
    ensures Holds(RunAll(lib, vm, Appends(e, regs)), e, List(items + vs))
    decreases |regs|
  {
    if regs == [] {
      assert items + vs == items;
    } else {
      var o := Dispatch(lib, vm, Instruction(5, [e, regs[0]]));
      MembersAreAppended(lib, vm, e, regs[0], items, vs[0]);
      BesideLater(vm, o, e, List(items + [vs[0]]), regs, vs);
      ListGrows(lib, o.vm, e, regs[1..], items + [vs[0]], vs[1..]);
      assert items + [vs[0]] + vs[1..] == items + vs;
      assert Appends(e, regs)[1..] == Appends(e, regs[1..]);
    }
  }

  function Texts(pieces: seq<Text>): (vs: seq<Value>)
    ensures |vs| == |pieces| && forall i | 0 <= i < |pieces| :: vs[i] == Str(pieces[i])
  {
    seq(|pieces|, i requires 0 <= i < |pieces| => Str(pieces[i]))
  }

  /** No piece, and no text that is still to be appended to, is one that the browser shows differently. */
  ghost predicate Plainly(s: Text, pieces: seq<Text>) {
    && (forall i | 0 <= i < |pieces| :: pieces[i] !in SPECIAL)
    && (forall i | 0 <= i < |pieces| :: s + Concat(pieces[..i]) !in SPECIAL)
  }

  lemma PlainlyLater(s: Text, pieces: seq<Text>)
    requires Plainly(s, pieces) && pieces != []
    ensures s !in SPECIAL && Plainly(s + pieces[0], pieces[1..])
  {
    assert s + Concat(pieces[..0]) == s;
    forall i | 0 <= i < |pieces| - 1
      ensures s + pieces[0] + Concat(pieces[1..][..i]) !in SPECIAL
    {
      assert pieces[..i + 1][1..] == pieces[1..][..i];
      assert s + pieces[0] + Concat(pieces[1..][..i]) == s + Concat(pieces[..i + 1]);
    }
  }

  /** A text in the register grows by the texts of the others, in order. */
  lemma {:induction false} TextGrows(lib: Library, vm: Vm, e: Value, regs: seq<Value>, s: Text, pieces: seq<Text>)
    requires HasOp(vm, 5) && Holds(vm, e, Str(s)) && Beside(vm, e, regs, Texts(pieces)) && Plainly(s, pieces)
    ensures Holds(RunAll(lib, vm, Appends(e, regs)), e, Str(s + Concat(pieces)))
    decreases |regs|
  {
    if regs == [] {
      assert s + Concat(pieces) == s;
    } else {
      var o := Dispatch(lib, vm, Instruction(5, [e, regs[0]]));
      PlainlyLater(s, pieces);
      TextsAreAppended(lib, vm, e, regs[0], s, pieces[0]);
      BesideLater(vm, o, e, Str(s + pieces[0]), regs, Texts(pieces));
      assert Texts(pieces)[1..] == Texts(pieces[1..]);
      TextGrows(lib, o.vm, e, regs[1..], s + pieces[0], pieces[1..]);
      assert s + pieces[0] + Concat(pieces[1..]) == s + Concat(pieces);
      assert Appends(e, regs)[1..] == Appends(e, regs[1..]);
    }
  }

  /** Puts the piece into register 51 and appends it to register 50. */
  function Adding(piece: Text): seq<Value> {
    [Instruction(2, [Int(51), Str(piece)]), Instruction(5, [Int(50), Int(51)])]
  }

  function AddingAll(pieces: seq<Text>): seq<Value> {
    if pieces == [] then [] else Adding(pieces[0]) + AddingAll(pieces[1..])
  }

  predicate CanSpell(vm: Vm) {
    HasOp(vm, 2) && HasOp(vm, 3) && HasOp(vm, 5) && HasOp(vm, 7) && HasOp(vm, 8)
  }

  lemma StoringKeepsSpelling(vm: Vm, o: Outcome, n: int, v: Value)
    requires CanSpell(vm) && n > 24 && Stores(vm, o, Int(n), v)
    ensures CanSpell(o.vm) && Holds(o.vm, Int(n), v)
    ensures forall m, w | m != n && Holds(vm, Int(m), w) :: Holds(o.vm, Int(m), w)
  {
    forall m, w | m != n && Holds(vm, Int(m), w)
      ensures Holds(o.vm, Int(m), w)
    {
      assert m as real != n as real;
    }
  }

  lemma AddsPiece(lib: Library, vm: Vm, s: Text, piece: Text)
    requires CanSpell(vm) && Holds(vm, Int(50), Str(s)) && s !in SPECIAL && piece !in SPECIAL
    ensures var vm' := RunAll(lib, vm, Adding(piece)); CanSpell(vm') && Holds(vm', Int(50), Str(s + piece))
  {
    var first := Dispatch(lib, vm, Instruction(2, [Int(51), Str(piece)]));
    ConstantsAndCopies(lib, vm, Int(51), Str(piece), Int(51));
    StoringKeepsSpelling(vm, first, 51, Str(piece));
    TextsAreAppended(lib, first.vm, Int(50), Int(51), s, piece);
    StoringKeepsSpelling(first.vm, Dispatch(lib, first.vm, Instruction(5, [Int(50), Int(51)])), 50, Str(s + piece));
    RunTwo(lib, vm, Instruction(2, [Int(51), Str(piece)]), Instruction(5, [Int(50), Int(51)]));
  }

  lemma {:induction false} AddsAll(lib: Library, vm: Vm, s: Text, pieces: seq<Text>)
    requires CanSpell(vm) && Holds(vm, Int(50), Str(s)) && Plainly(s, pieces)
    ensures var vm' := RunAll(lib, vm, AddingAll(pieces));
            CanSpell(vm') && Holds(vm', Int(50), Str(s + Concat(pieces)))
    decreases |pieces|
  {
    if pieces == [] {
      assert s + Concat(pieces) == s;
    } else {
      PlainlyLater(s, pieces);
      AddsPiece(lib, vm, s, pieces[0]);
      AddsAll(lib, RunAll(lib, vm, Adding(pieces[0])), s + pieces[0], pieces[1..]);
      RunsCompose(lib, vm, Adding(pieces[0]), AddingAll(pieces[1..]));
      assert s + pieces[0] + Concat(pieces[1..]) == s + Concat(pieces);
    }
  }

  /** op7 calling op3 on a register makes the token the base64 form of its text. */
  lemma CallOutputs(lib: Library, vm: Vm, text: Text)
    requires HasOp(vm, 7) && HasOp(vm, 3) && Holds(vm, Int(50), Str(text)) && Encodable(text)
    ensures Dispatch(lib, vm, Instruction(7, [Int(3), Int(50)])).vm.result == lib.encode(text)
  {
    assert [Int(3)] + [Int(50)] == [Int(3), Int(50)];
    Op7Calls(lib, vm, Int(3), [Int(50)], Fn(3), [Str(text)]);
    assert Exec(lib, Counted(vm), 3, [Str(text)]) == Output(lib, Counted(Counted(vm)), Str(text));
  }

  const OUTPUT: seq<Value> := [Instruction(7, [Int(3), Int(50)])]

  function Spelling(s: Text, pieces: seq<Text>): seq<Value> {
    [Instruction(2, [Int(50), Str(s)])] + AddingAll(pieces) + OUTPUT
  }

  lemma Spells(lib: Library, vm: Vm, s: Text, pieces: seq<Text>)
    requires CanSpell(vm) && Plainly(s, pieces) && Encodable(s + Concat(pieces))
    ensures RunAll(lib, vm, Spelling(s, pieces)).result == lib.encode(s + Concat(pieces))
  {
    var setting := [Instruction(2, [Int(50), Str(s)])];
    var first := Dispatch(lib, vm, setting[0]);
    RunOne(lib, vm, setting[0]);
    ConstantsAndCopies(lib, vm, Int(50), Str(s), Int(50));
    StoringKeepsSpelling(vm, first, 50, Str(s));
    AddsAll(lib, first.vm, s, pieces);
    var last := RunAll(lib, first.vm, AddingAll(pieces));
    CallOutputs(lib, last, s + Concat(pieces));
    RunOne(lib, last, OUTPUT[0]);
    RunsCompose(lib, vm, setting, AddingAll(pieces));
    RunsCompose(lib, vm, setting + AddingAll(pieces), OUTPUT);
  }

  /** A program that puts a text together from pieces and outputs it gives the base64 form of the whole. */
  lemma TokenSpellsItsPieces(lib: Library, dx: Text, pToken: Text, s: Text, pieces: seq<Text>)
    requires Program(lib, dx, pToken) == Some(List(Spelling(s, pieces)))
    requires Plainly(s, pieces) && Encodable(s + Concat(pieces)) && lib.encode(s + Concat(pieces)) != []
    ensures Solve(lib, dx, pToken) == Token(lib.encode(s + Concat(pieces)))
  {
    var tokens := List(Spelling(s, pieces));
    StartHolds(tokens, pToken, 2);
    StartHolds(tokens, pToken, 3);
    StartHolds(tokens, pToken, 5);
    StartHolds(tokens, pToken, 7);
    StartHolds(tokens, pToken, 8);
    Spells(lib, Start(tokens, pToken), s, pieces);
  }

  // ---------- programs that are no lists ----------

  /** No register has a name that is a text. */
  predicate NoNamedTexts(vm: Vm) {
    forall k | k in vm.values :: !k.StrKey?
  }

  lemma {:induction false} WordsDoNothing(lib: Library, vm: Vm, tokens: seq<Value>)
    requires NoNamedTexts(vm) && forall i | 0 <= i < |tokens| :: tokens[i].Str?
    ensures RunAll(lib, vm, tokens) == vm
    decreases |tokens|
  {
    if tokens != [] {
      assert tokens[0].Str? && Dispatch(lib, vm, tokens[0]).vm == vm;
      assert forall i | 0 <= i < |tokens| - 1 :: tokens[1..][i] == tokens[i + 1];
      WordsDoNothing(lib, vm, tokens[1..]);
    }
  }

  /** A program that is a text or an object gives no token: its instructions are characters or keys, whose first
      characters name no register. */
  lemma WordsGiveNoToken(lib: Library, dx: Text, pToken: Text)
    requires Program(lib, dx, pToken).Some?
    requires Program(lib, dx, pToken).value.Str? || Program(lib, dx, pToken).value.Dict?
    ensures Solve(lib, dx, pToken) == NoToken
  {
    var tokens := Program(lib, dx, pToken).value;
    var vm := Start(tokens, pToken);
    assert NoNamedTexts(vm);
    WordsDoNothing(lib, vm, Items(tokens).value);
  }
}
