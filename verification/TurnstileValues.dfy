/** The values of the Turnstile interpreter (helper/turnstile.py:12-51): what its registers hold, how
    they serve as keys and as strings, the ordered map and the cyclic string mask. */
module TurnstileValues {
  import opened Wrappers

  /** Code points; Python strings may hold lone surrogates, which Dafny's char excludes. */
  type Text = seq<nat>

  const CODE_LIMIT: nat := 0x110000

  function Lit(s: string): Text {
    seq(|s|, i requires 0 <= i < |s| => s[i] as int)
  }

  predicate IsText(t: Text) {
    forall i | 0 <= i < |t| :: t[i] < CODE_LIMIT
  }

  /** The text has an encoding in UTF-8. */
  predicate Encodable(t: Text) {
    forall i | 0 <= i < |t| :: !(0xD800 <= t[i] < 0xE000)
  }

  /** An Obj is the identity of an ordered map, an Fn the identity of an operation. */
  datatype Value =
    | Null
    | Bool(b: bool)
    | Int(n: int)
    | Float(r: real)
    | Str(s: Text)
    | List(items: seq<Value>)
    | Dict(fields: seq<(Text, Value)>)
    | Obj(ref: nat)
    | Fn(op: int)

  // ---------- values as keys ----------

  /** What a dict compares: numbers by value, whatever their type; objects and operations by identity. */
  datatype Key = NullKey | NumKey(r: real) | StrKey(s: Text) | ObjKey(ref: nat) | FnKey(op: int)

  /** Lists and dicts are not hashable. */
  function KeyOf(v: Value): Option<Key> {
    match v
    case Null => Some(NullKey)
    case Bool(b) => Some(NumKey(if b then 1.0 else 0.0))
    case Int(n) => Some(NumKey(n as real))
    case Float(r) => Some(NumKey(r))
    case Str(s) => Some(StrKey(s))
    case Obj(ref) => Some(ObjKey(ref))
    case Fn(op) => Some(FnKey(op))
    case _ => None
  }

  predicate IsNumber(v: Value) { v.Bool? || v.Int? || v.Float? }

  function NumberOf(v: Value): real
    requires IsNumber(v)
  {
    match v
    case Bool(b) => if b then 1.0 else 0.0
    case Int(n) => n as real
    case Float(r) => r
  }

  /** Python's equality. */
  predicate PyEq(v: Value, w: Value)
    decreases v
  {
    if IsNumber(v) && IsNumber(w) then NumberOf(v) == NumberOf(w)
    else if v.List? && w.List? then
      |v.items| == |w.items| && forall i | 0 <= i < |v.items| :: PyEq(v.items[i], w.items[i])
    else if v.Dict? && w.Dict? then
      && |v.fields| == |w.fields|
      && forall i | 0 <= i < |v.fields| ::
           assert v.fields[i] < v;
           exists j | 0 <= j < |w.fields| :: w.fields[j].0 == v.fields[i].0 && PyEq(v.fields[i].1, w.fields[j].1)
    else v == w
  }

  /** Two values name the same register exactly when op20 would find them equal. */
  lemma SameKeyIffEqual(v: Value, w: Value)
    requires KeyOf(v).Some? && KeyOf(w).Some?
    ensures KeyOf(v) == KeyOf(w) <==> PyEq(v, w)
  {
    if v.Int? && w.Int? { assert v.n as real == w.n as real ==> v.n == w.n; }
  }

  // ---------- values as strings ----------

  /** The strings for which the browser shows something else. */
  const SPECIAL: map<Text, Text> := map[
    Lit("window.Math") := Lit("[object Math]"),
    Lit("window.Reflect") := Lit("[object Reflect]"),
    Lit("window.performance") := Lit("[object Performance]"),
    Lit("window.localStorage") := Lit("[object Storage]"),
    Lit("window.Object") := Lit("function Object() { [native code] }"),
    Lit("window.Reflect.set") := Lit("function set() { [native code] }"),
    Lit("window.performance.now") := Lit("function () { [native code] }"),
    Lit("window.Object.create") := Lit("function create() { [native code] }"),
    Lit("window.Object.keys") := Lit("function keys() { [native code] }"),
    Lit("window.Math.random") := Lit("function random() { [native code] }")]

  function Join(items: seq<Value>): Text
    requires forall i | 0 <= i < |items| :: items[i].Str?
  {
    if items == [] then [] else if |items| == 1 then items[0].s else items[0].s + Lit(",") + Join(items[1..])
  }

  /** `_to_str`; `show` is Python's str() on everything that is not a string. */
  function ToStr(show: Value -> Text, v: Value): Text {
    match v
    case Null => Lit("undefined")
    case Str(s) => if s in SPECIAL then SPECIAL[s] else s
    case List(items) => if forall i | 0 <= i < |items| :: items[i].Str? then Join(items) else show(v)
    case _ => show(v)
  }

  /** str() and the f-strings. */
  function Show(show: Value -> Text, v: Value): Text {
    if v.Str? then v.s else show(v)
  }

  /** The lengths of the texts for which the browser shows something else, and of what it shows. */
  lemma SpecialLengths(s: Text)
    requires s in SPECIAL
    ensures (|s|, |SPECIAL[s]|) in {(11, 13), (14, 16), (18, 20), (19, 16), (13, 35), (18, 32), (22, 29), (20, 35),
                                    (18, 33), (18, 35)}
  {
  }

  lemma ShortTextsAreOrdinary(s: Text)
    requires |s| < 11
    ensures s !in SPECIAL
  {
    if s in SPECIAL { SpecialLengths(s); }
  }

  // ---------- the cyclic mask ----------

  /** Bitwise exclusive or. */
  function XorCode(a: nat, b: nat): nat
    decreases a + b
  {
    if a == 0 && b == 0 then 0 else 2 * XorCode(a / 2, b / 2) + (a + b) % 2
  }

  lemma LastBit(a: nat, b: nat, h: nat)
    ensures var x := 2 * h + (a + b) % 2; x / 2 == h && x % 2 == (a + b) % 2 && (x + b) % 2 == a % 2
  {
    var x := 2 * h + (a + b) % 2;
    assert x + b == a + 2 * (h + b - (a + b) / 2);
  }

  lemma {:induction false} XorUndoes(a: nat, b: nat)
    ensures XorCode(XorCode(a, b), b) == a
    decreases a + b
  {
    if a != 0 || b != 0 {
      var h := XorCode(a / 2, b / 2);
      LastBit(a, b, h);
      XorUndoes(a / 2, b / 2);
      var x := XorCode(a, b);
      assert x == 2 * h + (a + b) % 2;
      assert XorCode(x, b) == 2 * XorCode(h, b / 2) + a % 2;
    }
  }

  function Bit(n: nat, k: nat): nat {
    if k == 0 then n % 2 else Bit(n / 2, k - 1)
  }

  lemma Parity(a: nat, b: nat)
    ensures (a + b) % 2 == if a % 2 == b % 2 then 0 else 1
  {
    assert a + b == 2 * (a / 2 + b / 2) + (a % 2 + b % 2);
  }

  /** Every bit of the result is set exactly when the bits of the operands differ. */
  lemma {:induction false} XorIsBitwise(a: nat, b: nat, k: nat)
    ensures Bit(XorCode(a, b), k) == 1 <==> Bit(a, k) != Bit(b, k)
    ensures Bit(XorCode(a, b), k) == 0 <==> Bit(a, k) == Bit(b, k)
    decreases k
  {
    var h := XorCode(a / 2, b / 2);
    LastBit(a, b, h);
    assert XorCode(a, b) == 2 * h + (a + b) % 2;
    if k > 0 { XorIsBitwise(a / 2, b / 2, k - 1); } else { Parity(a, b); }
  }

  function MaskedAt(t: Text, key: Text, i: nat): nat
    requires key != [] && i < |t|
  {
    XorCode(t[i], key[i % |key|])
  }

  /** `_xor_string`: an empty key changes nothing, and chr() refuses a code beyond Unicode. */
  function XorText(t: Text, key: Text): Option<Text> {
    if key == [] then Some(t)
    else if exists i | 0 <= i < |t| :: MaskedAt(t, key, i) >= CODE_LIMIT then None
    else Some(seq(|t|, i requires 0 <= i < |t| => MaskedAt(t, key, i)))
  }

  /** Masking twice with the same key gives the text back. */
  lemma MaskTwice(t: Text, key: Text)
    requires IsText(t) && XorText(t, key).Some?
    ensures XorText(XorText(t, key).value, key) == Some(t)
  {
    if key != [] {
      var u := XorText(t, key).value;
      forall i | 0 <= i < |t|
        ensures MaskedAt(u, key, i) == t[i]
      {
        XorUndoes(t[i], key[i % |key|]);
      }
      assert seq(|u|, i requires 0 <= i < |u| => MaskedAt(u, key, i)) == t;
    }
  }

  // ---------- the ordered map ----------

  datatype Ordered = Ordered(keys: seq<Text>, values: map<Text, Value>)

  function Added(m: Ordered, key: Text, value: Value): Ordered {
    Ordered(if key in m.values then m.keys else m.keys + [key], m.values[key := value])
  }

  /** The keys are listed once each. */
  ghost predicate OrderedOK(m: Ordered) {
    && (forall k :: k in m.keys <==> k in m.values)
    && (forall i, j | 0 <= i < j < |m.keys| :: m.keys[i] != m.keys[j])
  }

  function AddAll(m: Ordered, pairs: seq<(Text, Value)>): Ordered
    decreases |pairs|
  {
    if pairs == [] then m else AddAll(Added(m, pairs[0].0, pairs[0].1), pairs[1..])
  }

  /** `k` was first added before `l`. */
  ghost predicate FirstBefore(pairs: seq<(Text, Value)>, k: Text, l: Text) {
    exists i | 0 <= i < |pairs| :: pairs[i].0 == k && forall j | 0 <= j <= i :: pairs[j].0 != l
  }

  class OrderedMap {
    var keys: seq<Text>
    var values: map<Text, Value>

    function View(): Ordered
      reads this
    {
      Ordered(keys, values)
    }

    constructor ()
      ensures View() == Ordered([], map[]) && OrderedOK(View())
    {
      keys, values := [], map[];
    }

    method Add(key: Text, value: Value)
      requires OrderedOK(View())
      modifies this
      ensures View() == Added(old(View()), key, value) && OrderedOK(View())
    {
      if key !in values {
        keys := keys + [key];
      }
      values := values[key := value];
    }
  }

  lemma AddedKeepsOK(m: Ordered, key: Text, value: Value)
    requires OrderedOK(m)
    ensures OrderedOK(Added(m, key, value))
  {
  }

  /** Position of the last value added under `k`. */
  ghost predicate LastAdded(pairs: seq<(Text, Value)>, k: Text, v: Value) {
    exists i | 0 <= i < |pairs| :: pairs[i] == (k, v) && forall j | i < j < |pairs| :: pairs[j].0 != k
  }

  ghost predicate HoldsLast(m: Ordered, pairs: seq<(Text, Value)>) {
    forall k, v :: k in m.values && m.values[k] == v <==> LastAdded(pairs, k, v)
  }

  /** An ordered map filled by any sequence of additions lists each key once, in the order of its first
      addition, and holds the value of its last. */
  lemma {:induction false} FirstOrderLastValue(pairs: seq<(Text, Value)>)
    ensures var m := AddAll(Ordered([], map[]), pairs);
            && OrderedOK(m)
            && HoldsLast(m, pairs)
            && (forall i, j :: 0 <= i < j < |m.keys| ==> FirstBefore(pairs, m.keys[i], m.keys[j]))
    decreases |pairs|
  {
    if pairs != [] {
      var n := |pairs| - 1;
      var rest, last := pairs[..n], pairs[n];
      FirstOrderLastValue(rest);
      assert pairs == rest + [last];
      AddAllSnoc(Ordered([], map[]), rest, last);
      var m, m' := AddAll(Ordered([], map[]), rest), AddAll(Ordered([], map[]), pairs);
      LastValues(m, m', pairs);
      forall i, j | 0 <= i < j < |m'.keys|
        ensures FirstBefore(pairs, m'.keys[i], m'.keys[j])
      {
        FirstBeforeSnoc(m, m', pairs, i, j);
      }
    }
  }

  lemma {:induction false} AddAllSnoc(m: Ordered, pairs: seq<(Text, Value)>, last: (Text, Value))
    ensures AddAll(m, pairs + [last]) == Added(AddAll(m, pairs), last.0, last.1)
    decreases |pairs|
  {
    if pairs != [] {
      assert (pairs + [last])[1..] == pairs[1..] + [last];
      AddAllSnoc(Added(m, pairs[0].0, pairs[0].1), pairs[1..], last);
    }
  }

  lemma LastValues(m: Ordered, m': Ordered, pairs: seq<(Text, Value)>)
    requires pairs != [] && m' == Added(m, pairs[|pairs| - 1].0, pairs[|pairs| - 1].1)
    requires HoldsLast(m, pairs[..|pairs| - 1])
    ensures HoldsLast(m', pairs)
  {
    var n := |pairs| - 1;
    forall k, v
      ensures k in m'.values && m'.values[k] == v <==> LastAdded(pairs, k, v)
    {
      if k == pairs[n].0 {
        assert pairs[n] == (k, pairs[n].1);
      } else {
        if LastAdded(pairs[..n], k, v) {
          var i :| 0 <= i < n && pairs[..n][i] == (k, v) && forall j | i < j < n :: pairs[..n][j].0 != k;
          assert forall j | i < j < |pairs| :: pairs[j].0 != k by {
            assert forall j | i < j < n :: pairs[j] == pairs[..n][j];
          }
          assert pairs[i] == (k, v);
        }
        if LastAdded(pairs, k, v) {
          var i :| 0 <= i < |pairs| && pairs[i] == (k, v) && forall j | i < j < |pairs| :: pairs[j].0 != k;
          assert pairs[..n][i] == (k, v);
        }
      }
    }
  }

  lemma FirstBeforeSnoc(m: Ordered, m': Ordered, pairs: seq<(Text, Value)>, i: nat, j: nat)
    requires pairs != [] && m' == Added(m, pairs[|pairs| - 1].0, pairs[|pairs| - 1].1) && i < j < |m'.keys|
    requires OrderedOK(m) && HoldsLast(m, pairs[..|pairs| - 1])
    requires forall i, j :: 0 <= i < j < |m.keys| ==> FirstBefore(pairs[..|pairs| - 1], m.keys[i], m.keys[j])
    ensures FirstBefore(pairs, m'.keys[i], m'.keys[j])
  {
    var n := |pairs| - 1;
    var k, l := m'.keys[i], m'.keys[j];
    if j < |m.keys| {
      assert FirstBefore(pairs[..n], k, l);
      var p :| 0 <= p < n && pairs[..n][p].0 == k && forall q | 0 <= q <= p :: pairs[..n][q].0 != l;
      assert forall q | 0 <= q <= p :: pairs[q] == pairs[..n][q];
      assert pairs[p].0 == k;
    } else {
      assert k in m.keys;
      var p := SomeIndex(m, pairs[..n], k);
      NeverAdded(m, pairs[..n], l);
      assert pairs[p] == pairs[..n][p];
      assert forall q | 0 <= q <= p :: pairs[q] == pairs[..n][q];
    }
  }

  lemma SomeIndex(m: Ordered, pairs: seq<(Text, Value)>, k: Text) returns (p: nat)
    requires k in m.values && HoldsLast(m, pairs)
    ensures p < |pairs| && pairs[p].0 == k
  {
    assert LastAdded(pairs, k, m.values[k]);
    var i :| 0 <= i < |pairs| && pairs[i] == (k, m.values[k]) && forall j | i < j < |pairs| :: pairs[j].0 != k;
    p := i;
  }

  lemma NeverAdded(m: Ordered, pairs: seq<(Text, Value)>, l: Text)
    requires l !in m.values && HoldsLast(m, pairs)
    ensures forall i | 0 <= i < |pairs| :: pairs[i].0 != l
  {
    if exists i | 0 <= i < |pairs| :: pairs[i].0 == l {
      var i :| 0 <= i < |pairs| && pairs[i].0 == l;
      LastIndex(pairs, l, i);
    }
  }

  lemma {:induction false} LastIndex(pairs: seq<(Text, Value)>, l: Text, i: nat)
    requires i < |pairs| && pairs[i].0 == l
    ensures exists v :: LastAdded(pairs, l, v)
    decreases |pairs| - i
  {
    if j :| i < j < |pairs| && pairs[j].0 == l {
      LastIndex(pairs, l, j);
    } else {
      assert pairs[i] == (l, pairs[i].1);
      assert LastAdded(pairs, l, pairs[i].1);
    }
  }
}
