/** What the traversals of helper/backend.py:371-411 find and in which order, by paths into the value and
    without their recursion. */
module ReferencePaths {
  import opened Json
  import opened JsonPaths
  import opened References
  import opened Wrappers

  /** The lexicographic order, in which a path stands before those that continue it. */
  ghost predicate Before(p: Path, q: Path)
    decreases |p|
  {
    q != [] && (p == [] || p[0] < q[0] || (p[0] == q[0] && Before(p[1..], q[1..])))
  }

  ghost predicate Sorted(paths: seq<Path>) {
    forall i, j | 0 <= i < j < |paths| :: Before(paths[i], paths[j])
  }

  ghost predicate AllPaths(v: Json, paths: seq<Path>) {
    forall path :: path in paths <==> At(v, path).Some?
  }

  // ---------- what stands at one path ----------

  /** The text is what follows the first comma of `result`, or all of it if it has none. */
  ghost predicate FollowsComma(result: string, text: string) {
    (',' !in result && text == result) || exists head :: ',' !in head && result == head + "," + text
  }

  lemma {:induction false} FromCommaFollows(text: string)
    requires ',' in text
    ensures exists head :: ',' !in head && text == head + "," + FromComma(text)
  {
    if text[0] == ',' {
      assert ',' !in "" && text == "" + "," + text[1..];
    } else {
      FromCommaFollows(text[1..]);
      var head :| ',' !in head && text[1..] == head + "," + FromComma(text[1..]);
      assert ',' !in [text[0]] + head && text == ([text[0]] + head) + "," + FromComma(text);
    }
  }

  lemma {:induction false} FromCommaIsRest(head: string, rest: string)
    requires ',' !in head
    ensures FromComma(head + "," + rest) == rest
  {
    var text := head + "," + rest;
    if head == "" {
      assert text[1..] == rest;
    } else {
      assert text[1..] == head[1..] + "," + rest;
      FromCommaIsRest(head[1..], rest);
    }
  }

  lemma AfterCommaFollows(result: string, text: string)
    ensures AfterComma(result) == text <==> FollowsComma(result, text)
  {
    if ',' in result { FromCommaFollows(result); }
    if exists head :: ',' !in head && result == head + "," + text {
      var head :| ',' !in head && result == head + "," + text;
      assert result[|head|] == ',';
      FromCommaIsRest(head, text);
    }
  }

  /** A finished image, which is the text. */
  ghost predicate CarriesImage(v: Json, text: string) {
    && v.Obj? && HasField(v.fields, "type", Str("image_generation_call"))
    && exists result :: HasField(v.fields, "result", Str(result)) && FollowsComma(result, text)
  }

  lemma DirectImageCarries(fields: seq<(string, Json)>, text: string)
    ensures |DirectImage(fields)| <= 1
    ensures text in DirectImage(fields) <==> CarriesImage(Obj(fields), text)
  {
    GetIsField(fields, "type", Str("image_generation_call"));
    match Get(fields, "result") {
      case Some(Str(result)) =>
        GetIsField(fields, "result", Str(result));
        AfterCommaFollows(result, text);
      case _ =>
    }
    forall result | HasField(fields, "result", Str(result))
      ensures Get(fields, "result") == Some(Str(result))
    {
      GetIsField(fields, "result", Str(result));
    }
  }

  // ---------- the traversal is the list of all paths in order ----------

  /** What the values at the paths contribute, one after another. */
  ghost function Gathered(find: Finders, v: Json, paths: seq<Path>): Refs {
    if paths == [] then NOTHING else OwnAt(find, At(v, paths[0])).Plus(Gathered(find, v, paths[1..]))
  }

  /** A string contributes its files, those of the file service first, and its sediments, an object its image. */
  ghost function OwnAt(find: Finders, w: Option<Json>): Refs {
    match w
    case Some(Str(s)) => Refs(find.fileService(s) + find.fileId(s), find.sediment(s), [])
    case Some(Obj(fields)) => Refs([], [], DirectImage(fields))
    case _ => NOTHING
  }

  ghost function Prefixed(i: nat, paths: seq<Path>): (r: seq<Path>)
    ensures |r| == |paths| && forall k | 0 <= k < |paths| :: r[k] == [i] + paths[k]
  {
    seq(|paths|, k requires 0 <= k < |paths| => [i] + paths[k])
  }

  ghost function PreOrder(v: Json): seq<Path>
    decreases v, Arity(v) + 1
  {
    [[]] + PreOrderFrom(v, 0)
  }

  ghost function PreOrderFrom(v: Json, i: nat): seq<Path>
    requires i <= Arity(v)
    decreases v, Arity(v) - i
  {
    if i == Arity(v) then [] else Prefixed(i, PreOrder(Child(v, i))) + PreOrderFrom(v, i + 1)
  }

  lemma {:induction false} GatherPrefixed(find: Finders, v: Json, i: nat, paths: seq<Path>)
    requires i < Arity(v)
    ensures Gathered(find, v, Prefixed(i, paths)) == Gathered(find, Child(v, i), paths)
    decreases |paths|
  {
    if paths != [] {
      AtChild(v, i, paths[0]);
      assert Prefixed(i, paths)[1..] == Prefixed(i, paths[1..]);
      GatherPrefixed(find, v, i, paths[1..]);
    }
  }

  lemma {:induction false} GatherConcat(find: Finders, v: Json, a: seq<Path>, b: seq<Path>)
    ensures Gathered(find, v, a + b) == Gathered(find, v, a).Plus(Gathered(find, v, b))
    decreases |a|
  {
    if a == [] {
      assert a + b == b;
      UnitLaws(Gathered(find, v, b));
    } else {
      assert (a + b)[1..] == a[1..] + b;
      GatherConcat(find, v, a[1..], b);
      PlusAssociative(OwnAt(find, At(v, a[0])), Gathered(find, v, a[1..]), Gathered(find, v, b));
    }
  }

  lemma {:induction false} OccurrencesAreGathered(find: Finders, v: Json)
    ensures Occurrences(find, v) == Gathered(find, v, PreOrder(v))
    decreases v, Arity(v) + 1
  {
    OccurrencesFromAreGathered(find, v, 0);
    assert ([[]] + PreOrderFrom(v, 0))[1..] == PreOrderFrom(v, 0);
    assert Own(find, v) == OwnAt(find, At(v, []));
  }

  lemma {:induction false} OccurrencesFromAreGathered(find: Finders, v: Json, i: nat)
    requires i <= Arity(v)
    ensures OccurrencesFrom(find, v, i) == Gathered(find, v, PreOrderFrom(v, i))
    decreases v, Arity(v) - i
  {
    if i < Arity(v) {
      OccurrencesAreGathered(find, Child(v, i));
      OccurrencesFromAreGathered(find, v, i + 1);
      GatherPrefixed(find, v, i, PreOrder(Child(v, i)));
      GatherConcat(find, v, Prefixed(i, PreOrder(Child(v, i))), PreOrderFrom(v, i + 1));
    }
  }

  lemma {:induction false} PreOrderIsAll(v: Json, path: Path)
    ensures path in PreOrder(v) <==> At(v, path).Some?
    decreases v, Arity(v) + 1
  {
    PreOrderFromIsAll(v, 0, path);
  }

  lemma {:induction false} PreOrderFromIsAll(v: Json, i: nat, path: Path)
    requires i <= Arity(v)
    ensures path in PreOrderFrom(v, i) <==> path != [] && path[0] >= i && At(v, path).Some?
    decreases v, Arity(v) - i
  {
    if i < Arity(v) {
      var first := PreOrder(Child(v, i));
      PreOrderFromIsAll(v, i + 1, path);
      if path != [] {
        PreOrderIsAll(Child(v, i), path[1..]);
        assert path == [path[0]] + path[1..];
        AtChild(v, path[0], path[1..]);
        InPrefixed(i, first, path);
      }
    } else if path != [] {
      assert path == [path[0]] + path[1..];
      AtChild(v, path[0], path[1..]);
    }
  }

  lemma InPrefixed(i: nat, paths: seq<Path>, path: Path)
    requires path != []
    ensures path in Prefixed(i, paths) <==> path[0] == i && path[1..] in paths
  {
    if path in Prefixed(i, paths) {
      var k :| 0 <= k < |paths| && Prefixed(i, paths)[k] == path;
      assert path[1..] == paths[k];
    }
    if path[0] == i && path[1..] in paths {
      var k :| 0 <= k < |paths| && paths[k] == path[1..];
      assert Prefixed(i, paths)[k] == path;
    }
  }

  lemma {:induction false} PreOrderIsSorted(v: Json)
    ensures Sorted(PreOrder(v))
    decreases v, Arity(v) + 1
  {
    PreOrderFromIsSorted(v, 0);
    var rest := PreOrderFrom(v, 0);
    forall j | 0 <= j < |rest|
      ensures Before([], rest[j])
    {
      PreOrderFromIsAll(v, 0, rest[j]);
    }
  }

  lemma {:induction false} PreOrderFromIsSorted(v: Json, i: nat)
    requires i <= Arity(v)
    ensures Sorted(PreOrderFrom(v, i))
    decreases v, Arity(v) - i
  {
    if i < Arity(v) {
      var first, rest := Prefixed(i, PreOrder(Child(v, i))), PreOrderFrom(v, i + 1);
      PreOrderIsSorted(Child(v, i));
      PreOrderFromIsSorted(v, i + 1);
      forall j, k | 0 <= j < k < |first|
        ensures Before(first[j], first[k])
      {
        assert first[j][1..] == PreOrder(Child(v, i))[j] && first[k][1..] == PreOrder(Child(v, i))[k];
      }
      forall j, k | 0 <= j < |first| && 0 <= k < |rest|
        ensures Before(first[j], rest[k])
      {
        PreOrderFromIsAll(v, i + 1, rest[k]);
      }
    }
  }

  lemma {:induction false} BeforeIsStrict(p: Path, q: Path)
    requires Before(p, q)
    ensures !Before(q, p) && p != q
    decreases |p|
  {
    if p != [] && p[0] == q[0] { BeforeIsStrict(p[1..], q[1..]); }
  }

  /** There is only one such list of paths. */
  lemma {:induction false} SortedListsAreUnique(a: seq<Path>, b: seq<Path>)
    requires Sorted(a) && Sorted(b) && forall path :: path in a <==> path in b
    ensures a == b
  {
    if a != [] { assert a[0] in a && a[0] in b; }
    if b != [] { assert b[0] in b && b[0] in a; }
    if a != [] {
      HeadIsLeast(a, b[0]);
      HeadIsLeast(b, a[0]);
      if a[0] != b[0] { BeforeIsStrict(a[0], b[0]); }
      forall path
        ensures path in a[1..] <==> path in b[1..]
      {
        InTail(a, path);
        InTail(b, path);
      }
      SortedListsAreUnique(a[1..], b[1..]);
    }
  }

  lemma HeadIsLeast(a: seq<Path>, path: Path)
    requires Sorted(a) && path in a
    ensures path == a[0] || Before(a[0], path)
  {
  }

  lemma InTail(a: seq<Path>, path: Path)
    requires Sorted(a) && a != []
    ensures path in a[1..] <==> path in a && path != a[0]
  {
    if path in a[1..] {
      var i :| 0 <= i < |a[1..]| && a[1..][i] == path;
      assert Before(a[0], a[i + 1]);
      BeforeIsStrict(a[0], path);
    }
  }

  /** The traversal goes through all paths into the value, each once, in lexicographic order, and takes what
      stands there. */
  lemma TraversesAllPathsInOrder(find: Finders, v: Json) returns (paths: seq<Path>)
    ensures Sorted(paths) && AllPaths(v, paths) && Occurrences(find, v) == Gathered(find, v, paths)
  {
    paths := PreOrder(v);
    OccurrencesAreGathered(find, v);
    PreOrderIsSorted(v);
    forall path
      ensures path in paths <==> At(v, path).Some?
    {
      PreOrderIsAll(v, path);
    }
  }

  // ---------- what the three lists contain ----------

  datatype Kind = File | Sediment | Image

  ghost function Of(kind: Kind, r: Refs): seq<string> {
    match kind
    case File => r.files
    case Sediment => r.sediments
    case Image => r.images
  }

  /** What stands at the path contributes x. */
  ghost predicate Offers(find: Finders, v: Json, kind: Kind, path: Path, x: string) {
    x in Of(kind, OwnAt(find, At(v, path)))
  }

  lemma {:induction false} GatheredOffers(find: Finders, v: Json, paths: seq<Path>, kind: Kind, x: string)
    requires x in Of(kind, Gathered(find, v, paths))
    ensures exists path :: path in paths && Offers(find, v, kind, path, x)
  {
    if Offers(find, v, kind, paths[0], x) {
      assert paths[0] in paths;
    } else {
      GatheredOffers(find, v, paths[1..], kind, x);
    }
  }

  lemma {:induction false} OffersAreGathered(find: Finders, v: Json, paths: seq<Path>, kind: Kind, path: Path,
                                             x: string)
    requires path in paths && Offers(find, v, kind, path, x)
    ensures x in Of(kind, Gathered(find, v, paths))
  {
    if path != paths[0] {
      assert path in paths[1..];
      OffersAreGathered(find, v, paths[1..], kind, path, x);
    }
  }

  /** A list contains exactly what is not empty and stands at some path. */
  lemma FoundIffOffered(find: Finders, v: Json, kind: Kind, x: string)
    ensures x in Of(kind, Occurrences(find, v).Unique()) <==>
            x != "" && exists path :: Offers(find, v, kind, path, x)
  {
    var paths := TraversesAllPathsInOrder(find, v);
    SameMembers(Of(kind, Occurrences(find, v)), x);
    if x in Of(kind, Occurrences(find, v)) {
      GatheredOffers(find, v, paths, kind, x);
    }
    if exists path :: Offers(find, v, kind, path, x) {
      var path :| Offers(find, v, kind, path, x);
      assert path in paths;
      OffersAreGathered(find, v, paths, kind, path, x);
    }
  }

  /** The value at the path is the string. */
  ghost predicate Spells(v: Json, path: Path, s: string) { At(v, path) == Some(Str(s)) }

  /** A file is found iff it is not empty and the string at some path mentions it. */
  lemma FilesAreMentioned(find: Finders, v: Json, f: string)
    ensures f in Occurrences(find, v).Unique().files <==>
            f != "" && exists path, s :: Spells(v, path, s) && (f in find.fileService(s) || f in find.fileId(s))
  {
    FoundIffOffered(find, v, File, f);
    forall path, s | Spells(v, path, s) && (f in find.fileService(s) || f in find.fileId(s))
      ensures Offers(find, v, File, path, f)
    {
    }
    if exists path :: Offers(find, v, File, path, f) {
      var path :| Offers(find, v, File, path, f);
      assert Spells(v, path, At(v, path).value.s);
    }
  }

  /** So is a sediment. */
  lemma SedimentsAreMentioned(find: Finders, v: Json, x: string)
    ensures x in Occurrences(find, v).Unique().sediments <==>
            x != "" && exists path, s :: Spells(v, path, s) && x in find.sediment(s)
  {
    FoundIffOffered(find, v, Sediment, x);
    forall path, s | Spells(v, path, s) && x in find.sediment(s)
      ensures Offers(find, v, Sediment, path, x)
    {
    }
    if exists path :: Offers(find, v, Sediment, path, x) {
      var path :| Offers(find, v, Sediment, path, x);
      assert Spells(v, path, At(v, path).value.s);
    }
  }

  /** The object at the path carries the image. */
  ghost predicate CarriedAt(v: Json, path: Path, x: string) {
    At(v, path).Some? && CarriesImage(At(v, path).value, x)
  }

  lemma OffersImageIffCarried(find: Finders, v: Json, path: Path, x: string)
    ensures Offers(find, v, Image, path, x) <==> CarriedAt(v, path, x)
  {
    match At(v, path) {
      case Some(Obj(fields)) => DirectImageCarries(fields, x);
      case _ =>
    }
  }

  /** An image is found iff it is not empty and the object at some path carries it. */
  lemma ImagesAreCarried(find: Finders, v: Json, x: string)
    ensures x in Occurrences(find, v).Unique().images <==> x != "" && exists path :: CarriedAt(v, path, x)
  {
    FoundIffOffered(find, v, Image, x);
    forall path
      ensures Offers(find, v, Image, path, x) <==> CarriedAt(v, path, x)
    {
      OffersImageIffCarried(find, v, path, x);
    }
  }

  /** The order of the list is that of the first occurrences. */
  lemma {:induction false} InOrderOfFirstOccurrence(xs: seq<string>, i: nat, j: nat)
    requires i < j < |FirstOccurrences(xs)|
    ensures exists p :: 0 <= p < |xs| && xs[p] == FirstOccurrences(xs)[i] && FirstOccurrences(xs)[j] !in xs[..p + 1]
  {
    var n := |xs| - 1;
    var init := FirstOccurrences(xs[..n]);
    SameMembers(xs[..n], FirstOccurrences(xs)[i]);
    if j < |init| {
      InOrderOfFirstOccurrence(xs[..n], i, j);
      var p :| 0 <= p < n && xs[..n][p] == init[i] && init[j] !in xs[..n][..p + 1];
      assert xs[..n][..p + 1] == xs[..p + 1];
    } else {
      assert init[i] in xs[..n];
      var p :| 0 <= p < n && xs[..n][p] == init[i];
      assert forall k | 0 <= k < p + 1 :: xs[..p + 1][k] == xs[..n][k];
    }
  }

  /** The events as one list, whose paths begin with the position of the event. */
  lemma EventsAreReached(events: seq<Json>, path: Path)
    ensures At(Arr(events), path) ==
            if path == [] then Some(Arr(events))
            else if path[0] < |events| then At(events[path[0]], path[1..]) else None
  {
  }

  // ---------- the conversation id ----------

  /** The object at the path names the conversation. */
  ghost predicate Names(v: Json, path: Path, id: string) {
    && id != "" && At(v, path).Some? && At(v, path).value.Obj?
    && HasField(At(v, path).value.fields, "conversation_id", Str(id))
  }

  ghost predicate NamesFrom(v: Json, i: nat, path: Path, id: string) {
    path != [] && path[0] >= i && Names(v, path, id)
  }

  lemma NamesItself(v: Json, id: string)
    ensures Names(v, [], id) <==> id != "" && OwnId(v) == id
  {
    if v.Obj? {
      GetIsField(v.fields, "conversation_id", Str(id));
    }
  }

  lemma NamesChild(v: Json, i: nat, path: Path, id: string)
    ensures Names(v, [i] + path, id) <==> i < Arity(v) && Names(Child(v, i), path, id)
  {
    AtChild(v, i, path);
  }

  /** The first path at which an object names a conversation, and the name. */
  lemma {:induction false} FirstName(v: Json) returns (path: Path)
    requires ConversationId(v) != ""
    ensures Names(v, path, ConversationId(v))
    ensures forall q, id | Names(v, q, id) :: q == path || Before(path, q)
    decreases v, Arity(v) + 1
  {
    if OwnId(v) != "" {
      path := [];
      NamesItself(v, OwnId(v));
    } else {
      path := FirstNameFrom(v, 0);
      forall q, id | Names(v, q, id)
        ensures q == path || Before(path, q)
      {
        if q == [] { NamesItself(v, id); } else { assert NamesFrom(v, 0, q, id); }
      }
    }
  }

  lemma {:induction false} FirstNameFrom(v: Json, i: nat) returns (path: Path)
    requires i <= Arity(v) && ConversationIdFrom(v, i) != ""
    ensures NamesFrom(v, i, path, ConversationIdFrom(v, i))
    ensures forall q, id | NamesFrom(v, i, q, id) :: q == path || Before(path, q)
    decreases v, Arity(v) - i
  {
    if ConversationId(Child(v, i)) != "" {
      var rest := FirstName(Child(v, i));
      path := [i] + rest;
      NamesChild(v, i, rest, ConversationId(Child(v, i)));
      forall q, id | NamesFrom(v, i, q, id)
        ensures q == path || Before(path, q)
      {
        assert q == [q[0]] + q[1..] && path[1..] == rest;
        NamesChild(v, q[0], q[1..], id);
      }
    } else {
      path := FirstNameFrom(v, i + 1);
      forall q, id | NamesFrom(v, i, q, id)
        ensures NamesFrom(v, i + 1, q, id)
      {
        assert q == [q[0]] + q[1..];
        NamesChild(v, q[0], q[1..], id);
        if q[0] == i { NoName(Child(v, i), q[1..], id); }
      }
    }
  }

  lemma {:induction false} NoName(v: Json, path: Path, id: string)
    requires ConversationId(v) == ""
    ensures !Names(v, path, id)
    decreases |path|
  {
    NamesItself(v, id);
    if path != [] && path[0] < Arity(v) {
      assert path == [path[0]] + path[1..];
      NamesChild(v, path[0], path[1..], id);
      NoNameFrom(v, 0, path[0]);
      NoName(Child(v, path[0]), path[1..], id);
    } else if path != [] {
      assert path == [path[0]] + path[1..];
      NamesChild(v, path[0], path[1..], id);
    }
  }

  lemma {:induction false} NoNameFrom(v: Json, i: nat, k: nat)
    requires i <= k < Arity(v) && ConversationIdFrom(v, i) == ""
    ensures ConversationId(Child(v, k)) == ""
    decreases k - i
  {
    if i < k { NoNameFrom(v, i + 1, k); }
  }

  /** The id is the one that the object at the first naming path gives, and empty iff there is none. */
  lemma ConversationIdByPath(v: Json)
    ensures ConversationId(v) == "" <==> forall path, id :: !Names(v, path, id)
    ensures ConversationId(v) != "" ==>
            exists path :: Names(v, path, ConversationId(v)) &&
                           forall q, id | Names(v, q, id) :: q == path || Before(path, q)
  {
    if ConversationId(v) == "" {
      forall path, id
        ensures !Names(v, path, id)
      {
        NoName(v, path, id);
      }
    } else {
      var path := FirstName(v);
    }
  }
}
