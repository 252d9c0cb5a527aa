/** Recognising a revoked credential inside an upstream payload (helper/backend.py:343-361). */
module InvalidToken {
  import opened Json
  import opened JsonPaths
  import opened Wrappers

  const PATTERNS := ["token_invalidated", "token_revoked", "authentication token has been invalidated",
                     "invalidated oauth token", "invalid_access_token"]
  const ERROR_FIELDS := {"error", "errors", "code", "detail", "status_message"}
  const ERROR_TYPES := {"error", "conversation.error"}

  /** Case folding is a parameter throughout: what is proved holds for any case folding. */
  type Lower = string -> string

  predicate IsSubstring(needle: string, hay: string) {
    exists i | 0 <= i <= |hay| :: needle <= hay[i..]
  }

  predicate InvalidText(lower: Lower, s: string) {
    exists k | 0 <= k < |PATTERNS| :: IsSubstring(PATTERNS[k], lower(s))
  }

  /** The object announces itself as an error event. */
  predicate ErrorEvent(lower: Lower, fields: seq<(string, Json)>) {
    match Get(fields, "type")
    case Some(Str(s)) => lower(s) in ERROR_TYPES
    case _ => false
  }

  /** Stepping from v to its i-th child enters error context. */
  predicate Marks(lower: Lower, v: Json, i: nat)
    requires i < Arity(v)
  {
    v.Obj? && (ErrorEvent(lower, v.fields) || lower(v.fields[i].0) in ERROR_FIELDS)
  }

  predicate ContainsInvalidToken(lower: Lower, v: Json, context: bool) {
    match v
    case Str(s) => context && InvalidText(lower, s)
    case Obj(fields) =>
      exists i | 0 <= i < |fields| :: ContainsInvalidToken(lower, Child(v, i), context || Marks(lower, v, i))
    case Arr(items) =>
      exists i | 0 <= i < |items| :: ContainsInvalidToken(lower, Child(v, i), context)
    case _ => false
  }

  // ---------- what it means, by paths ----------

  /** Following `path`, a sequence of child positions, from v arrives at the string s. */
  ghost predicate Leads(v: Json, path: seq<nat>, s: string)
    decreases |path|
  {
    if path == [] then v == Str(s)
    else path[0] < Arity(v) && Leads(Child(v, path[0]), path[1..], s)
  }

  /** Some step of the path enters error context. */
  ghost predicate Marked(lower: Lower, v: Json, path: seq<nat>)
    decreases |path|
  {
    path != [] && path[0] < Arity(v) && (Marks(lower, v, path[0]) || Marked(lower, Child(v, path[0]), path[1..]))
  }

  ghost predicate Evidence(lower: Lower, v: Json, context: bool, path: seq<nat>, s: string) {
    Leads(v, path, s) && InvalidText(lower, s) && (context || Marked(lower, v, path))
  }

  lemma {:induction false} EvidenceSuffices(lower: Lower, v: Json, context: bool, path: seq<nat>, s: string)
    requires Evidence(lower, v, context, path, s)
    ensures ContainsInvalidToken(lower, v, context)
    decreases |path|
  {
    if path != [] {
      var i := path[0];
      EvidenceSuffices(lower, Child(v, i), context || Marks(lower, v, i), path[1..], s);
    }
  }

  lemma {:induction false} EvidenceExists(lower: Lower, v: Json, context: bool) returns (path: seq<nat>, s: string)
    requires ContainsInvalidToken(lower, v, context)
    ensures Evidence(lower, v, context, path, s)
  {
    match v {
      case Str(t) =>
        path, s := [], t;
      case Obj(fields) =>
        var i: nat :| i < |fields| && ContainsInvalidToken(lower, Child(v, i), context || Marks(lower, v, i));
        var rest, t := EvidenceExists(lower, Child(v, i), context || Marks(lower, v, i));
        path, s := [i] + rest, t;
      case Arr(items) =>
        var i: nat :| i < |items| && ContainsInvalidToken(lower, Child(v, i), context);
        var rest, t := EvidenceExists(lower, Child(v, i), context);
        path, s := [i] + rest, t;
    }
  }

  lemma {:induction false} LeadsIsAt(v: Json, path: Path, s: string)
    ensures Leads(v, path, s) <==> At(v, path) == Some(Str(s))
    decreases |path|
  {
    if path != [] {
      assert path == [path[0]] + path[1..];
      AtChild(v, path[0], path[1..]);
      if path[0] < Arity(v) { LeadsIsAt(Child(v, path[0]), path[1..], s); }
    }
  }

  /** The text contains one of the patterns, once folded. */
  ghost predicate SaysInvalid(lower: Lower, s: string) {
    exists p, before, after ::
      && p in {"token_invalidated", "token_revoked", "authentication token has been invalidated",
               "invalidated oauth token", "invalid_access_token"}
      && lower(s) == before + p + after
  }

  lemma SubstringIsInside(p: string, hay: string)
    ensures IsSubstring(p, hay) <==> exists before, after :: hay == before + p + after
  {
    if IsSubstring(p, hay) {
      var i :| 0 <= i <= |hay| && p <= hay[i..];
      assert hay == hay[..i] + p + hay[i + |p|..];
    }
    if exists before, after :: hay == before + p + after {
      var before, after :| hay == before + p + after;
      assert hay[|before|..] == p + after;
    }
  }

  lemma InvalidTextSaysInvalid(lower: Lower, s: string)
    ensures InvalidText(lower, s) <==> SaysInvalid(lower, s)
  {
    if InvalidText(lower, s) {
      var k :| 0 <= k < |PATTERNS| && IsSubstring(PATTERNS[k], lower(s));
      SubstringIsInside(PATTERNS[k], lower(s));
      var before, after :| lower(s) == before + PATTERNS[k] + after;
      PatternsAre(PATTERNS[k]);
    }
    if SaysInvalid(lower, s) {
      var p, before, after :| p in {"token_invalidated", "token_revoked", "authentication token has been invalidated",
                                    "invalidated oauth token", "invalid_access_token"}
                              && lower(s) == before + p + after;
      SubstringIsInside(p, lower(s));
      PatternsAre(p);
      var k :| 0 <= k < |PATTERNS| && PATTERNS[k] == p;
    }
  }

  lemma PatternsAre(p: string)
    ensures p in PATTERNS <==> p in {"token_invalidated", "token_revoked", "authentication token has been invalidated",
                                     "invalidated oauth token", "invalid_access_token"}
  {
  }

  /** Going to the i-th value of w enters error context: w is an object of an error type, or the field's name is
      one of those that carry errors. */
  ghost predicate EntersError(lower: Lower, w: Json, i: nat) {
    && w.Obj? && i < |w.fields|
    && (lower(w.fields[i].0) in {"error", "errors", "code", "detail", "status_message"}
        || exists kind :: HasField(w.fields, "type", Str(kind)) && lower(kind) in {"error", "conversation.error"})
  }

  lemma MarksEntersError(lower: Lower, v: Json, i: nat)
    requires i < Arity(v)
    ensures Marks(lower, v, i) <==> EntersError(lower, v, i)
  {
    if v.Obj? {
      forall kind: string
        ensures Get(v.fields, "type") == Some(Str(kind)) <==> HasField(v.fields, "type", Str(kind))
      {
        GetIsField(v.fields, "type", Str(kind));
      }
    }
  }

  /** The k-th step of the path enters error context. */
  ghost predicate EntersAt(lower: Lower, v: Json, path: Path, k: nat) {
    k < |path| && At(v, path[..k]).Some? && EntersError(lower, At(v, path[..k]).value, path[k])
  }

  lemma EntersLater(lower: Lower, v: Json, path: Path, k: nat)
    requires path != [] && path[0] < Arity(v)
    ensures EntersAt(lower, v, path, k + 1) <==> EntersAt(lower, Child(v, path[0]), path[1..], k)
  {
    if k + 1 < |path| {
      assert path[..k + 1] == [path[0]] + path[1..][..k];
      AtChild(v, path[0], path[1..][..k]);
    }
  }

  lemma {:induction false} MarkedEnters(lower: Lower, v: Json, path: Path)
    requires At(v, path).Some?
    ensures Marked(lower, v, path) <==> exists k: nat :: EntersAt(lower, v, path, k)
    decreases |path|
  {
    if path != [] {
      assert path == [path[0]] + path[1..];
      AtChild(v, path[0], path[1..]);
      MarkedEnters(lower, Child(v, path[0]), path[1..]);
      MarksEntersError(lower, v, path[0]);
      assert path[..0] == [];
      if exists k: nat :: EntersAt(lower, v, path, k) {
        var k: nat :| EntersAt(lower, v, path, k);
        if k > 0 { EntersLater(lower, v, path, k - 1); }
      }
      if Marks(lower, v, path[0]) { assert EntersAt(lower, v, path, 0); }
      if exists k: nat :: EntersAt(lower, Child(v, path[0]), path[1..], k) {
        var k: nat :| EntersAt(lower, Child(v, path[0]), path[1..], k);
        EntersLater(lower, v, path, k);
        assert EntersAt(lower, v, path, k + 1);
      }
    }
  }

  /** The string at the path says that the token is invalid, and the path starts in error context or enters it. */
  ghost predicate Reveals(lower: Lower, v: Json, context: bool, path: Path, s: string) {
    At(v, path) == Some(Str(s)) && SaysInvalid(lower, s) && (context || exists k: nat :: EntersAt(lower, v, path, k))
  }

  lemma EvidenceReveals(lower: Lower, v: Json, context: bool, path: Path, s: string)
    ensures Evidence(lower, v, context, path, s) <==> Reveals(lower, v, context, path, s)
  {
    LeadsIsAt(v, path, s);
    InvalidTextSaysInvalid(lower, s);
    if At(v, path).Some? { MarkedEnters(lower, v, path); }
  }

  /** A payload counts as a token failure iff some path in it reaches a string with an invalid-token
      pattern and either starts in error context or enters it on the way. */
  lemma RecognisesExactlyMarkedPaths(lower: Lower, v: Json, context: bool)
    ensures ContainsInvalidToken(lower, v, context) <==>
            exists path, s :: Reveals(lower, v, context, path, s)
  {
    if ContainsInvalidToken(lower, v, context) {
      var path, s := EvidenceExists(lower, v, context);
      EvidenceReveals(lower, v, context, path, s);
    }
    if exists path, s :: Reveals(lower, v, context, path, s) {
      var path, s :| Reveals(lower, v, context, path, s);
      EvidenceReveals(lower, v, context, path, s);
      EvidenceSuffices(lower, v, context, path, s);
    }
  }

  lemma ContextIsMonotone(lower: Lower, v: Json)
    requires ContainsInvalidToken(lower, v, false)
    ensures ContainsInvalidToken(lower, v, true)
  {
    var path, s := EvidenceExists(lower, v, false);
    EvidenceSuffices(lower, v, true, path, s);
  }

  // ---------- the order of fields does not matter ----------

  ghost predicate Inverse(pi: seq<nat>, qi: seq<nat>, n: nat) {
    && |pi| == |qi| == n
    && (forall i | 0 <= i < n :: pi[i] < n && qi[pi[i]] == i)
    && (forall j | 0 <= j < n :: qi[j] < n && pi[qi[j]] == j)
  }

  /** The same fields in another order, with their values reordered alike; field i of v is
      field pi[i] of w, and qi is the way back. */
  ghost predicate FieldsReordered(v: Json, w: Json, pi: seq<nat>, qi: seq<nat>)
    requires v.Obj? && w.Obj?
    decreases v, 0
  {
    && |v.fields| == |w.fields| && DistinctKeys(v.fields) && DistinctKeys(w.fields)
    && Inverse(pi, qi, |v.fields|)
    && forall i: nat | i < |v.fields| ::
         v.fields[i].0 == w.fields[pi[i]].0 && Reordered(Child(v, i), Child(w, pi[i]))
  }

  ghost predicate Reordered(v: Json, w: Json)
    decreases v, 1
  {
    match v
    case Obj(_) => w.Obj? && exists pi, qi :: FieldsReordered(v, w, pi, qi)
    case Arr(items) =>
      w.Arr? && |items| == |w.items| && forall i | 0 <= i < |items| :: Reordered(Child(v, i), Child(w, i))
    case _ => v == w
  }

  lemma SameErrorEvent(lower: Lower, v: Json, w: Json, pi: seq<nat>, qi: seq<nat>)
    requires v.Obj? && w.Obj? && FieldsReordered(v, w, pi, qi)
    ensures ErrorEvent(lower, v.fields) == ErrorEvent(lower, w.fields)
  {
    forall s: string
      ensures Get(v.fields, "type") == Some(Str(s)) <==> Get(w.fields, "type") == Some(Str(s))
    {
      GetFinds(v.fields, "type", Str(s));
      GetFinds(w.fields, "type", Str(s));
      if ("type", Str(s)) in v.fields {
        var i :| 0 <= i < |v.fields| && v.fields[i] == ("type", Str(s));
        assert Reordered(Child(v, i), Child(w, pi[i]));
        assert w.fields[pi[i]] == ("type", Str(s));
      }
      if ("type", Str(s)) in w.fields {
        var j :| 0 <= j < |w.fields| && w.fields[j] == ("type", Str(s));
        var i := qi[j];
        assert Reordered(Child(v, i), Child(w, pi[i]));
        assert v.fields[i] == ("type", Str(s));
      }
    }
  }

  lemma {:induction false} OrderIsIrrelevant(lower: Lower, v: Json, w: Json, context: bool)
    requires Reordered(v, w)
    ensures ContainsInvalidToken(lower, v, context) == ContainsInvalidToken(lower, w, context)
    decreases v, 1
  {
    match v {
      case Obj(fields) =>
        var pi, qi :| FieldsReordered(v, w, pi, qi);
        SameErrorEvent(lower, v, w, pi, qi);
        forall i: nat | i < |fields|
          ensures ContainsInvalidToken(lower, Child(v, i), context || Marks(lower, v, i))
               == ContainsInvalidToken(lower, Child(w, pi[i]), context || Marks(lower, w, pi[i]))
        {
          assert Marks(lower, v, i) == Marks(lower, w, pi[i]);
          OrderIsIrrelevant(lower, Child(v, i), Child(w, pi[i]), context || Marks(lower, v, i));
        }
        FieldsAgree(lower, v, w, pi, qi, context);
      case Arr(items) =>
        forall i: nat | i < |items|
          ensures ContainsInvalidToken(lower, Child(v, i), context) == ContainsInvalidToken(lower, Child(w, i), context)
        {
          OrderIsIrrelevant(lower, Child(v, i), Child(w, i), context);
        }
      case _ =>
    }
  }

  lemma FieldsAgree(lower: Lower, v: Json, w: Json, pi: seq<nat>, qi: seq<nat>, context: bool)
    requires v.Obj? && w.Obj? && |v.fields| == |w.fields| && Inverse(pi, qi, |v.fields|)
    requires forall i: nat | i < |v.fields| ::
      ContainsInvalidToken(lower, Child(v, i), context || Marks(lower, v, i))
      == ContainsInvalidToken(lower, Child(w, pi[i]), context || Marks(lower, w, pi[i]))
    ensures ContainsInvalidToken(lower, v, context) == ContainsInvalidToken(lower, w, context)
  {
    if ContainsInvalidToken(lower, w, context) {
      var j: nat :| j < |w.fields| && ContainsInvalidToken(lower, Child(w, j), context || Marks(lower, w, j));
      var i := qi[j];
      assert ContainsInvalidToken(lower, Child(v, i), context || Marks(lower, v, i));
    }
    if ContainsInvalidToken(lower, v, context) {
      var i: nat :| i < |v.fields| && ContainsInvalidToken(lower, Child(v, i), context || Marks(lower, v, i));
      assert ContainsInvalidToken(lower, Child(w, pi[i]), context || Marks(lower, w, pi[i]));
    }
  }
}
