/** Collecting image references and the conversation id from the event stream
    (helper/backend.py:364-411 and the event fold at helper/protocol.py:252-261). */
module References {
  import opened Json
  import opened Wrappers

  // ---------- order-preserving de-duplication ----------

  /** What append_unique leaves in its target. */
  function AppendUnique(target: seq<string>, values: seq<string>): seq<string>
    decreases |values|
  {
    if values == [] then target
    else AppendUnique(if values[0] != "" && values[0] !in target then target + [values[0]] else target, values[1..])
  }

  /** The non-empty strings of xs that do not occur earlier in xs. */
  function FirstOccurrences(xs: seq<string>): seq<string> {
    if xs == [] then []
    else
      var n := |xs| - 1;
      FirstOccurrences(xs[..n]) + if xs[n] != "" && xs[n] !in xs[..n] then [xs[n]] else []
  }

  lemma {:induction false} AppendUniqueConcat(target: seq<string>, a: seq<string>, b: seq<string>)
    ensures AppendUnique(AppendUnique(target, a), b) == AppendUnique(target, a + b)
    decreases |a|
  {
    if a == [] {
      assert a + b == b;
    } else {
      assert (a + b)[1..] == a[1..] + b;
      var t := if a[0] != "" && a[0] !in target then target + [a[0]] else target;
      AppendUniqueConcat(t, a[1..], b);
    }
  }

  lemma {:induction false} SameMembers(xs: seq<string>, x: string)
    ensures x in FirstOccurrences(xs) <==> x != "" && x in xs
  {
    if xs != [] {
      var n := |xs| - 1;
      SameMembers(xs[..n], x);
      assert x in xs <==> x in xs[..n] || x == xs[n];
      assert xs[n] in xs[..n] ==> exists i :: 0 <= i < n && xs[i] == xs[n];
    }
  }

  lemma {:induction false} NoDuplicates(xs: seq<string>)
    ensures forall i, j | 0 <= i < j < |FirstOccurrences(xs)| :: FirstOccurrences(xs)[i] != FirstOccurrences(xs)[j]
  {
    if xs != [] {
      NoDuplicates(xs[..|xs| - 1]);
      SameMembers(xs[..|xs| - 1], xs[|xs| - 1]);
    }
  }

  lemma FirstOccurrencesSnoc(seen: seq<string>, x: string)
    ensures FirstOccurrences(seen + [x]) == FirstOccurrences(seen) + if x != "" && x !in seen then [x] else []
    ensures FirstOccurrences(seen + [x]) == AppendUnique(FirstOccurrences(seen), [x])
  {
    assert (seen + [x])[..|seen|] == seen;
    SameMembers(seen, x);
    assert FirstOccurrences(seen) + [] == FirstOccurrences(seen);
    assert [x][1..] == [];
  }

  /** Appending to a list that is already the first occurrences of `seen` gives those of the whole. */
  lemma {:induction false} AppendIsFirstOccurrences(seen: seq<string>, values: seq<string>)
    ensures AppendUnique(FirstOccurrences(seen), values) == FirstOccurrences(seen + values)
    decreases |values|
  {
    if values == [] {
      assert seen + values == seen;
    } else {
      var x := values[0];
      FirstOccurrencesSnoc(seen, x);
      AppendUniqueConcat(FirstOccurrences(seen), [x], values[1..]);
      assert [x] + values[1..] == values;
      AppendIsFirstOccurrences(seen + [x], values[1..]);
      assert seen + [x] + values[1..] == seen + values;
    }
  }

  /** A value already offered before can be offered once or not at all. */
  lemma SnocAgain(all: seq<string>, init: seq<string>, x: string)
    requires forall y | y in init :: y in all
    ensures AppendUnique(FirstOccurrences(all), if x != "" && x !in init then [x] else []) ==
            FirstOccurrences(all + [x])
  {
    FirstOccurrencesSnoc(all, x);
  }

  lemma AppendOfSnoc(seen: seq<string>, init: seq<string>, x: string)
    requires AppendUnique(FirstOccurrences(seen), FirstOccurrences(init)) == FirstOccurrences(seen + init)
    ensures AppendUnique(FirstOccurrences(seen), FirstOccurrences(init + [x])) == FirstOccurrences(seen + init + [x])
  {
    FirstOccurrencesSnoc(init, x);
    AppendUniqueConcat(FirstOccurrences(seen), FirstOccurrences(init), if x != "" && x !in init then [x] else []);
    SnocAgain(seen + init, init, x);
  }

  /** De-duplicating a list before appending it changes nothing. */
  lemma {:induction false} AppendOfFirstOccurrences(seen: seq<string>, values: seq<string>)
    ensures AppendUnique(FirstOccurrences(seen), FirstOccurrences(values)) == FirstOccurrences(seen + values)
    decreases |values|
  {
    if values == [] {
      assert seen + values == seen;
    } else {
      var init, x := values[..|values| - 1], values[|values| - 1];
      AppendOfFirstOccurrences(seen, init);
      AppendOfSnoc(seen, init, x);
      assert init + [x] == values;
      assert seen + init + [x] == seen + values;
    }
  }

  /** The list that `append_unique` changes in place. */
  class UniqueList {
    var items: seq<string>

    constructor ()
      ensures items == []
    {
      items := [];
    }

    method Append(values: seq<string>)
      modifies this
      ensures items == AppendUnique(old(items), values)
    {
      for i := 0 to |values|
        invariant AppendUnique(items, values[i..]) == AppendUnique(old(items), values)
      {
        assert values[i..][1..] == values[i + 1..];
        if values[i] != "" && values[i] !in items {
          items := items + [values[i]];
        }
      }
    }
  }

  // ---------- the traversal ----------

  /** The three regular expressions of the source, as parameters. */
  datatype Finders = Finders(fileService: string -> seq<string>, fileId: string -> seq<string>,
                             sediment: string -> seq<string>)

  datatype Refs = Refs(files: seq<string>, sediments: seq<string>, images: seq<string>) {
    function Plus(more: Refs): Refs {
      Refs(files + more.files, sediments + more.sediments, images + more.images)
    }

    function Append(more: Refs): Refs {
      Refs(AppendUnique(files, more.files), AppendUnique(sediments, more.sediments), AppendUnique(images, more.images))
    }

    function Unique(): Refs {
      Refs(FirstOccurrences(files), FirstOccurrences(sediments), FirstOccurrences(images))
    }
  }

  const NOTHING := Refs([], [], [])

  /** What follows the first comma, or all of it. */
  function AfterComma(text: string): string {
    if ',' in text then FromComma(text) else text
  }

  function FromComma(text: string): string {
    if text == "" then "" else if text[0] == ',' then text[1..] else FromComma(text[1..])
  }

  /** A finished image carried by the object itself. */
  function DirectImage(fields: seq<(string, Json)>): seq<string> {
    match (Get(fields, "type"), Get(fields, "result"))
    case (Some(Str(kind)), Some(Str(result))) => if kind == "image_generation_call" then [AfterComma(result)] else []
    case _ => []
  }

  /** What v contributes by itself, its children aside. */
  function Own(find: Finders, v: Json): Refs {
    match v
    case Str(s) => Refs(find.fileService(s) + find.fileId(s), find.sediment(s), [])
    case Obj(fields) => Refs([], [], DirectImage(fields))
    case _ => NOTHING
  }

  /** Every occurrence of a reference in v, in pre-order, repetitions included. */
  function Occurrences(find: Finders, v: Json): Refs
    decreases v, Arity(v) + 1
  {
    Own(find, v).Plus(OccurrencesFrom(find, v, 0))
  }

  function OccurrencesFrom(find: Finders, v: Json, i: nat): Refs
    requires i <= Arity(v)
    decreases v, Arity(v) - i
  {
    if i == Arity(v) then NOTHING
    else Occurrences(find, Child(v, i)).Plus(OccurrencesFrom(find, v, i + 1))
  }

  lemma AppendPlus(r: Refs, a: Refs, b: Refs)
    ensures r.Append(a).Append(b) == r.Append(a.Plus(b))
  {
    AppendUniqueConcat(r.files, a.files, b.files);
    AppendUniqueConcat(r.sediments, a.sediments, b.sediments);
    AppendUniqueConcat(r.images, a.images, b.images);
  }

  lemma UniqueAppend(seen: Refs, more: Refs)
    ensures seen.Unique().Append(more) == seen.Plus(more).Unique()
    ensures seen.Unique().Append(more.Unique()) == seen.Plus(more).Unique()
  {
    AppendIsFirstOccurrences(seen.files, more.files);
    AppendIsFirstOccurrences(seen.sediments, more.sediments);
    AppendIsFirstOccurrences(seen.images, more.images);
    AppendOfFirstOccurrences(seen.files, more.files);
    AppendOfFirstOccurrences(seen.sediments, more.sediments);
    AppendOfFirstOccurrences(seen.images, more.images);
  }

  lemma UnitLaws(r: Refs)
    ensures NOTHING.Plus(r) == r && r.Plus(NOTHING) == r && r.Append(NOTHING) == r
  {
  }

  lemma PlusAssociative(a: Refs, b: Refs, c: Refs)
    ensures a.Plus(b).Plus(c) == a.Plus(b.Plus(c))
  {
    assert a.files + b.files + c.files == a.files + (b.files + c.files);
    assert a.sediments + b.sediments + c.sediments == a.sediments + (b.sediments + c.sediments);
    assert a.images + b.images + c.images == a.images + (b.images + c.images);
  }

  /** The three lists of one `extract_references` call, filled by its nested `walk`. */
  class Collector {
    const files: UniqueList
    const sediments: UniqueList
    const images: UniqueList

    constructor ()
      ensures fresh(files) && fresh(sediments) && fresh(images) && Valid()
      ensures Contents() == NOTHING
    {
      files := new UniqueList();
      sediments := new UniqueList();
      images := new UniqueList();
    }

    ghost predicate Valid() {
      files != sediments && files != images && sediments != images
    }

    function Contents(): Refs
      reads files, sediments, images
    {
      Refs(files.items, sediments.items, images.items)
    }

    method Append(refs: Refs)
      requires Valid()
      modifies files, sediments, images
      ensures Contents() == old(Contents()).Append(refs)
    {
      files.Append(refs.files);
      sediments.Append(refs.sediments);
      images.Append(refs.images);
    }

    method Walk(find: Finders, v: Json)
      requires Valid()
      modifies files, sediments, images
      ensures Contents() == old(Contents()).Append(Occurrences(find, v))
      decreases v
    {
      ghost var before := Contents();
      match v {
        case Str(s) =>
          files.Append(find.fileService(s));
          files.Append(find.fileId(s));
          sediments.Append(find.sediment(s));
          AppendUniqueConcat(before.files, find.fileService(s), find.fileId(s));
        case Obj(fields) =>
          images.Append(DirectImage(fields));
        case _ =>
      }
      ghost var own := Own(find, v);
      assert Contents() == before.Append(own);
      AppendPlus(before, own, OccurrencesFrom(find, v, 0));
      for i := 0 to Arity(v)
        invariant Contents().Append(OccurrencesFrom(find, v, i)) == before.Append(Occurrences(find, v))
      {
        AppendPlus(Contents(), Occurrences(find, Child(v, i)), OccurrencesFrom(find, v, i + 1));
        Walk(find, Child(v, i));
      }
      UnitLaws(Contents());
    }
  }

  method ExtractReferences(find: Finders, v: Json) returns (refs: Refs)
    ensures refs == Occurrences(find, v).Unique()
  {
    var collector := new Collector();
    collector.Walk(find, v);
    refs := collector.Contents();
    UniqueAppend(NOTHING, Occurrences(find, v));
    UnitLaws(Occurrences(find, v));
  }

  // ---------- the conversation id ----------

  /** The id an object names itself, "" if it names none. */
  function OwnId(v: Json): string {
    if v.Obj? then
      match Get(v.fields, "conversation_id")
      case Some(Str(s)) => s
      case _ => ""
    else ""
  }

  function ConversationId(v: Json): string
    decreases v, Arity(v) + 1
  {
    if OwnId(v) != "" then OwnId(v) else ConversationIdFrom(v, 0)
  }

  function ConversationIdFrom(v: Json, i: nat): string
    requires i <= Arity(v)
    decreases v, Arity(v) - i
  {
    if i == Arity(v) then ""
    else
      var found := ConversationId(Child(v, i));
      if found != "" then found else ConversationIdFrom(v, i + 1)
  }

  /** All ids named anywhere in v, in pre-order. */
  function Ids(v: Json): seq<string>
    decreases v, Arity(v) + 1
  {
    (if OwnId(v) != "" then [OwnId(v)] else []) + IdsFrom(v, 0)
  }

  function IdsFrom(v: Json, i: nat): seq<string>
    requires i <= Arity(v)
    decreases v, Arity(v) - i
  {
    if i == Arity(v) then [] else Ids(Child(v, i)) + IdsFrom(v, i + 1)
  }

  function HeadOr(ids: seq<string>): string {
    if ids == [] then "" else ids[0]
  }

  lemma {:induction false} ConversationIdIsFirst(v: Json)
    ensures ConversationId(v) == HeadOr(Ids(v)) && "" !in Ids(v)
    decreases v, Arity(v) + 1
  {
    ConversationIdIsFirstFrom(v, 0);
  }

  lemma {:induction false} ConversationIdIsFirstFrom(v: Json, i: nat)
    requires i <= Arity(v)
    ensures ConversationIdFrom(v, i) == HeadOr(IdsFrom(v, i)) && "" !in IdsFrom(v, i)
    decreases v, Arity(v) - i
  {
    if i < Arity(v) {
      ConversationIdIsFirst(Child(v, i));
      ConversationIdIsFirstFrom(v, i + 1);
    }
  }

  // ---------- events one by one, or all at once ----------

  /** A list mentions nothing itself. */
  lemma ListMentionsNothing(find: Finders, xs: seq<Json>)
    ensures Occurrences(find, Arr(xs)) == OccurrencesFrom(find, Arr(xs), 0)
  {
    UnitLaws(OccurrencesFrom(find, Arr(xs), 0));
  }

  lemma ListNamesNoId(xs: seq<Json>)
    ensures Ids(Arr(xs)) == IdsFrom(Arr(xs), 0)
  {
    assert [] + IdsFrom(Arr(xs), 0) == IdsFrom(Arr(xs), 0);
  }

  lemma {:induction false} ConcatFrom(find: Finders, a: seq<Json>, b: seq<Json>, i: nat)
    requires i <= |a|
    ensures OccurrencesFrom(find, Arr(a + b), i) ==
      OccurrencesFrom(find, Arr(a), i).Plus(OccurrencesFrom(find, Arr(b), 0))
    decreases |a| - i
  {
    var first, rest, tail := Arr(a), Arr(a + b), OccurrencesFrom(find, Arr(b), 0);
    if i < |a| {
      assert Child(rest, i) == a[i] && Child(first, i) == a[i];
      ConcatFrom(find, a, b, i + 1);
      PlusAssociative(Occurrences(find, a[i]), OccurrencesFrom(find, first, i + 1), tail);
    } else {
      TailFrom(find, a, b, 0);
      UnitLaws(tail);
    }
  }

  lemma Associative(a: seq<string>, b: seq<string>, c: seq<string>)
    ensures (a + b) + c == a + (b + c)
  {
  }

  lemma {:induction false} ConcatIdsFrom(a: seq<Json>, b: seq<Json>, i: nat)
    requires i <= |a|
    ensures IdsFrom(Arr(a + b), i) == IdsFrom(Arr(a), i) + IdsFrom(Arr(b), 0)
    decreases |a| - i
  {
    var first, rest, tail := Arr(a), Arr(a + b), IdsFrom(Arr(b), 0);
    if i < |a| {
      assert Child(rest, i) == a[i] && Child(first, i) == a[i];
      ConcatIdsFrom(a, b, i + 1);
      Associative(Ids(a[i]), IdsFrom(first, i + 1), tail);
    } else {
      TailIdsFrom(a, b, 0);
      assert [] + tail == tail;
    }
  }

  lemma {:induction false} TailFrom(find: Finders, a: seq<Json>, b: seq<Json>, j: nat)
    requires j <= |b|
    ensures OccurrencesFrom(find, Arr(a + b), |a| + j) == OccurrencesFrom(find, Arr(b), j)
    decreases |b| - j
  {
    if j < |b| {
      assert Child(Arr(a + b), |a| + j) == Child(Arr(b), j);
      TailFrom(find, a, b, j + 1);
    }
  }

  lemma {:induction false} TailIdsFrom(a: seq<Json>, b: seq<Json>, j: nat)
    requires j <= |b|
    ensures IdsFrom(Arr(a + b), |a| + j) == IdsFrom(Arr(b), j)
    decreases |b| - j
  {
    if j < |b| {
      assert Child(Arr(a + b), |a| + j) == Child(Arr(b), j);
      TailIdsFrom(a, b, j + 1);
    }
  }

  lemma ConcatIds(a: seq<Json>, b: seq<Json>)
    ensures Ids(Arr(a + b)) == Ids(Arr(a)) + Ids(Arr(b))
  {
    ConcatIdsFrom(a, b, 0);
    ListNamesNoId(a);
    ListNamesNoId(b);
    ListNamesNoId(a + b);
  }

  /** A list of events is the concatenation of what its parts contain. */
  lemma ConcatOccurrences(find: Finders, a: seq<Json>, b: seq<Json>)
    ensures Occurrences(find, Arr(a + b)) == Occurrences(find, Arr(a)).Plus(Occurrences(find, Arr(b)))
  {
    ConcatFrom(find, a, b, 0);
    ListMentionsNothing(find, a);
    ListMentionsNothing(find, b);
    ListMentionsNothing(find, a + b);
  }

  lemma SingleEvent(find: Finders, event: Json)
    ensures Occurrences(find, Arr([event])) == Occurrences(find, event)
  {
    assert OccurrencesFrom(find, Arr([event]), 1) == NOTHING;
    UnitLaws(Occurrences(find, event));
  }

  lemma SingleId(event: Json)
    ensures Ids(Arr([event])) == Ids(event)
  {
    assert IdsFrom(Arr([event]), 1) == [];
  }

  /** The lists and the id are those of a single walk over all the events. */
  ghost predicate IsFold(find: Finders, events: seq<Json>, conversation: string, refs: Refs) {
    && refs == Occurrences(find, Arr(events)).Unique()
    && conversation == ConversationId(Arr(events))
  }

  lemma FoldStepId(seen: seq<Json>, event: Json)
    ensures ConversationId(Arr(seen + [event])) ==
            if ConversationId(Arr(seen)) != "" then ConversationId(Arr(seen)) else ConversationId(event)
  {
    ConcatIds(seen, [event]);
    SingleId(event);
    ConversationIdIsFirst(event);
    ConversationIdIsFirst(Arr(seen));
    ConversationIdIsFirst(Arr(seen + [event]));
  }

  lemma FoldStep(find: Finders, seen: seq<Json>, event: Json, conversation: string, refs: Refs, found: Refs)
    requires IsFold(find, seen, conversation, refs) && found == Occurrences(find, event).Unique()
    ensures var conversation' := if conversation != "" then conversation else ConversationId(event);
            IsFold(find, seen + [event], conversation', refs.Append(found))
  {
    ConcatOccurrences(find, seen, [event]);
    SingleEvent(find, event);
    UniqueAppend(Occurrences(find, Arr(seen)), Occurrences(find, event));
    FoldStepId(seen, event);
  }

  lemma NoEvents(find: Finders)
    ensures IsFold(find, [], "", NOTHING)
  {
  }

  /** One turn of the fold: what `event` adds to the lists and the id collected from `seen`. */
  method FoldEvent(find: Finders, ghost seen: seq<Json>, event: Json, conversation: string, lists: Collector)
    returns (conversation': string)
    requires lists.Valid() && IsFold(find, seen, conversation, lists.Contents())
    modifies lists.files, lists.sediments, lists.images
    ensures IsFold(find, seen + [event], conversation', lists.Contents())
  {
    var found := ExtractReferences(find, event);
    FoldStep(find, seen, event, conversation, lists.Contents(), found);
    lists.Append(found);
    conversation' := if conversation != "" then conversation else ConversationId(event);
  }

  lemma NextPrefix(events: seq<Json>, i: nat)
    requires i < |events|
    ensures events[..i] + [events[i]] == events[..i + 1]
  {
  }

  /** The fold over the events gives the lists and the id of a single walk over all of them; the
      lists are the first-occurrence filter of the pre-order traversal. */
  method FoldEvents(find: Finders, events: seq<Json>) returns (conversation: string, refs: Refs)
    ensures IsFold(find, events, conversation, refs)
  {
    conversation := "";
    var lists := new Collector();
    ghost var seen: seq<Json> := [];
    NoEvents(find);
    for i := 0 to |events|
      invariant lists.Valid() && fresh(lists.files) && fresh(lists.sediments) && fresh(lists.images)
      invariant seen == events[..i]
      invariant IsFold(find, seen, conversation, lists.Contents())
    {
      NextPrefix(events, i);
      conversation := FoldEvent(find, seen, events[i], conversation, lists);
      seen := seen + [events[i]];
    }
    assert seen == events;
    refs := lists.Contents();
  }

  function Flatten(batches: seq<seq<Json>>): seq<Json> {
    if batches == [] then [] else Flatten(batches[..|batches| - 1]) + batches[|batches| - 1]
  }

  /** Extracting from each batch separately and appending the results in turn. */
  function FoldBatches(find: Finders, batches: seq<seq<Json>>): Refs {
    if batches == [] then NOTHING
    else
      var n := |batches| - 1;
      FoldBatches(find, batches[..n]).Append(Occurrences(find, Arr(batches[n])).Unique())
  }

  /** How the events are split into batches makes no difference. */
  lemma {:induction false} BatchingIsIrrelevant(find: Finders, batches: seq<seq<Json>>)
    ensures FoldBatches(find, batches) == Occurrences(find, Arr(Flatten(batches))).Unique()
  {
    if batches != [] {
      var n := |batches| - 1;
      BatchingIsIrrelevant(find, batches[..n]);
      ConcatOccurrences(find, Flatten(batches[..n]), batches[n]);
      UniqueAppend(Occurrences(find, Arr(Flatten(batches[..n]))), Occurrences(find, Arr(batches[n])));
    }
  }

  /** Keeping the first id that any batch yields. */
  function BatchedId(batches: seq<seq<Json>>): string {
    if batches == [] then ""
    else
      var n := |batches| - 1;
      var found := BatchedId(batches[..n]);
      if found != "" then found else ConversationId(Arr(batches[n]))
  }

  lemma {:induction false} BatchedIdIsFirst(batches: seq<seq<Json>>)
    ensures BatchedId(batches) == ConversationId(Arr(Flatten(batches)))
  {
    ConversationIdIsFirst(Arr(Flatten(batches)));
    if batches == [] {
      ListNamesNoId([]);
    } else {
      var n := |batches| - 1;
      BatchedIdIsFirst(batches[..n]);
      ConcatIds(Flatten(batches[..n]), batches[n]);
      ConversationIdIsFirst(Arr(Flatten(batches[..n])));
      ConversationIdIsFirst(Arr(batches[n]));
    }
  }
}
