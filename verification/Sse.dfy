/** The line-oriented event parser of helper/backend.py:317-340 and the stream that
    handle_images writes (helper/protocol.py:63-67). It reads the `data` subset of section 9.2.6 of
    the WHATWG HTML standard. */
module Sse {
  import opened Json
  import InvalidToken
  import opened Wrappers

  /** JSON text parsing and case folding are parameters. */
  datatype Codec = Codec(loads: string -> Option<Json>, lower: string -> string)

  // ---------- white space, as str.strip sees it ----------

  predicate IsSpace(c: char) {
    var n := c as int;
    || 0x09 <= n <= 0x0d || 0x1c <= n <= 0x20 || n == 0x85 || n == 0xa0 || n == 0x1680
    || 0x2000 <= n <= 0x200a || n == 0x2028 || n == 0x2029 || n == 0x202f || n == 0x205f || n == 0x3000
  }

  function StripLeft(s: string): string {
    if s != "" && IsSpace(s[0]) then StripLeft(s[1..]) else s
  }

  function StripRight(s: string): string {
    if s != "" && IsSpace(s[|s| - 1]) then StripRight(s[..|s| - 1]) else s
  }

  function Strip(s: string): string {
    StripRight(StripLeft(s))
  }

  function JoinLines(lines: seq<string>): string {
    if lines == [] then "" else if |lines| == 1 then lines[0] else lines[0] + "\n" + JoinLines(lines[1..])
  }

  // ---------- the parser ----------

  datatype Outcome = Nothing | Event(value: Json) | TokenInvalid

  /** What a complete block of data lines amounts to. */
  function Dispatch(codec: Codec, block: seq<string>): Outcome {
    var payload := Strip(JoinLines(block));
    if payload == "" || payload == "[DONE]" then Nothing
    else
      match codec.loads(payload)
      case None => if InvalidToken.InvalidText(codec.lower, payload) then TokenInvalid else Nothing
      case Some(value) =>
        if !value.Obj? then Nothing
        else if InvalidToken.ContainsInvalidToken(codec.lower, value, false) then TokenInvalid
        else Event(value)
  }

  predicate IsData(line: string) { "data:" <= line }

  datatype Parse = Parse(events: seq<Json>, buffer: seq<string>, failed: bool)

  /** Reading `lines` with `buffer` already collected. A failed parse reads no further. */
  function ParseLines(codec: Codec, buffer: seq<string>, lines: seq<string>): Parse
    decreases |lines|
  {
    if lines == [] then Parse([], buffer, false)
    else if lines[0] == "" then
      if buffer == [] then ParseLines(codec, [], lines[1..])
      else
        match Dispatch(codec, buffer)
        case Nothing => ParseLines(codec, [], lines[1..])
        case TokenInvalid => Parse([], [], true)
        case Event(value) =>
          var rest := ParseLines(codec, [], lines[1..]);
          rest.(events := [value] + rest.events)
    else if IsData(lines[0]) then ParseLines(codec, buffer + [StripLeft(lines[0][5..])], lines[1..])
    else ParseLines(codec, buffer, lines[1..])
  }

  datatype End = Finished | Unauthorized | TimedOut

  /** The generator as it runs: `timely(i)` says whether the request still had time when line i arrived. */
  method IterSseJson(codec: Codec, lines: seq<string>, timely: nat -> bool)
    returns (events: seq<Json>, end: End, read: nat)
    ensures read <= |lines| && (forall i | 0 <= i < read :: timely(i))
    ensures events == ParseLines(codec, [], lines[..read]).events
    ensures end.Unauthorized? <==> ParseLines(codec, [], lines[..read]).failed
    ensures end.TimedOut? ==> read < |lines| && !timely(read)
    ensures end.Finished? ==> read == |lines|
  {
    events, end, read := [], Finished, 0;
    var buffer: seq<string> := [];
    for i := 0 to |lines|
      invariant read == i && forall j | 0 <= j < i :: timely(j)
      invariant ParseLines(codec, [], lines[..i]) == Parse(events, buffer, false)
    {
      if !timely(i) {
        return events, TimedOut, i;
      }
      ParseSnoc(codec, [], lines[..i], lines[i]);
      assert lines[..i + 1] == lines[..i] + [lines[i]];
      read := i + 1;
      var line := lines[i];
      if line == "" {
        if buffer != [] {
          var outcome := Dispatch(codec, buffer);
          buffer := [];
          match outcome {
            case Nothing =>
            case TokenInvalid => return events, Unauthorized, i + 1;
            case Event(value) => events := events + [value];
          }
        }
      } else if IsData(line) {
        buffer := buffer + [StripLeft(line[5..])];
      }
    }
    assert lines[..|lines|] == lines;
  }

  // ---------- composition ----------

  /** Parsing can be cut anywhere and resumed with the carried buffer. */
  lemma {:induction false} ParseConcat(codec: Codec, buffer: seq<string>, a: seq<string>, b: seq<string>)
    ensures var first := ParseLines(codec, buffer, a);
            var second := ParseLines(codec, first.buffer, b);
            ParseLines(codec, buffer, a + b) ==
              if first.failed then first else second.(events := first.events + second.events)
    decreases |a|
  {
    if a == [] {
      assert a + b == b;
    } else {
      assert (a + b)[1..] == a[1..] + b;
      if a[0] == "" {
        ParseConcat(codec, [], a[1..], b);
        if buffer != [] && Dispatch(codec, buffer).Event? {
          var value := Dispatch(codec, buffer).value;
          var first := ParseLines(codec, [], a[1..]);
          var second := ParseLines(codec, first.buffer, b);
          assert [value] + (first.events + second.events) == [value] + first.events + second.events;
        }
      } else if IsData(a[0]) {
        ParseConcat(codec, buffer + [StripLeft(a[0][5..])], a[1..], b);
      } else {
        ParseConcat(codec, buffer, a[1..], b);
      }
    }
  }

  lemma ParseSnoc(codec: Codec, buffer: seq<string>, a: seq<string>, line: string)
    requires !ParseLines(codec, buffer, a).failed
    ensures var first := ParseLines(codec, buffer, a);
            ParseLines(codec, buffer, a + [line]) ==
              if line == "" then
                if first.buffer == [] then first
                else
                  match Dispatch(codec, first.buffer)
                  case Nothing => first.(buffer := [])
                  case TokenInvalid => Parse(first.events, [], true)
                  case Event(value) => Parse(first.events + [value], [], false)
              else if IsData(line) then first.(buffer := first.buffer + [StripLeft(line[5..])])
              else first
  {
    ParseConcat(codec, buffer, a, [line]);
    var first := ParseLines(codec, buffer, a);
    assert [line][1..] == [];
    assert first.events + [] == first.events;
    assert ParseLines(codec, [], []) == Parse([], [], false);
  }

  /** Comments and fields other than data may stand anywhere, even inside a block. */
  lemma OtherLinesAreIgnored(codec: Codec, buffer: seq<string>, a: seq<string>, line: string, b: seq<string>)
    requires line != "" && !("data:" <= line)
    ensures ParseLines(codec, buffer, a + [line] + b) == ParseLines(codec, buffer, a + b)
  {
    ParseConcat(codec, buffer, a, b);
    ParseConcat(codec, buffer, a, [line] + b);
    assert a + [line] + b == a + ([line] + b);
    assert ([line] + b)[1..] == b;
  }

  lemma {:induction false} NoBlankNoEvent(codec: Codec, buffer: seq<string>, tail: seq<string>)
    requires "" !in tail
    ensures ParseLines(codec, buffer, tail).events == [] && !ParseLines(codec, buffer, tail).failed
    decreases |tail|
  {
    if tail != [] {
      NoBlankNoEvent(codec, if IsData(tail[0]) then buffer + [StripLeft(tail[0][5..])] else buffer, tail[1..]);
    }
  }

  /** A last block without its blank line is dropped, whatever it says. */
  lemma UnterminatedBlockIsDropped(codec: Codec, lines: seq<string>, tail: seq<string>)
    requires "" !in tail
    ensures ParseLines(codec, [], lines + tail).events == ParseLines(codec, [], lines).events
    ensures ParseLines(codec, [], lines + tail).failed == ParseLines(codec, [], lines).failed
  {
    ParseConcat(codec, [], lines, tail);
    NoBlankNoEvent(codec, ParseLines(codec, [], lines).buffer, tail);
  }

  // ---------- any stream of blocks ----------

  /** Data lines with these contents. */
  function DataLines(contents: seq<string>): seq<string> {
    if contents == [] then [] else ["data:" + contents[0]] + DataLines(contents[1..])
  }

  /** Blocks of data lines, each with the blank line that ends it. */
  function Blocks(blocks: seq<seq<string>>): seq<string> {
    if blocks == [] then [] else DataLines(blocks[0]) + [""] + Blocks(blocks[1..])
  }

  function AllStripLeft(contents: seq<string>): seq<string> {
    if contents == [] then [] else [StripLeft(contents[0])] + AllStripLeft(contents[1..])
  }

  /** The text of a block: its lines without leading white space, joined and trimmed. */
  function TextOf(contents: seq<string>): string {
    Strip(JoinLines(AllStripLeft(contents)))
  }

  function TextsOf(blocks: seq<seq<string>>): seq<string> {
    if blocks == [] then [] else [TextOf(blocks[0])] + TextsOf(blocks[1..])
  }

  /** The text says something: it is neither empty nor the end marker. */
  predicate Counts(text: string) { text != "" && text != "[DONE]" }

  ghost predicate IsObject(codec: Codec, text: string, value: Json) {
    Counts(text) && codec.loads(text) == Some(value) && value.Obj?
  }

  /** An object with an invalid-token error, or text that is no JSON and has an invalid-token pattern in it. */
  ghost predicate Offends(codec: Codec, text: string) {
    || (exists value :: IsObject(codec, text, value) && InvalidToken.ContainsInvalidToken(codec.lower, value, false))
    || (Counts(text) && codec.loads(text) == None && InvalidToken.SaysInvalid(codec.lower, text))
  }

  /** The objects among the texts, in order. */
  ghost function Objects(codec: Codec, texts: seq<string>): seq<Json> {
    if texts == [] then []
    else if exists value :: IsObject(codec, texts[0], value)
    then [codec.loads(texts[0]).value] + Objects(codec, texts[1..])
    else Objects(codec, texts[1..])
  }

  /** Where the first offending text stands. */
  ghost function FirstOffence(codec: Codec, texts: seq<string>): (k: nat)
    ensures k <= |texts|
    ensures forall i | 0 <= i < k :: !Offends(codec, texts[i])
    ensures k < |texts| ==> Offends(codec, texts[k])
  {
    if texts == [] || Offends(codec, texts[0]) then 0 else 1 + FirstOffence(codec, texts[1..])
  }

  lemma {:induction false} DataLinesAreCollected(codec: Codec, buffer: seq<string>, contents: seq<string>,
                                                 rest: seq<string>)
    ensures ParseLines(codec, buffer, DataLines(contents) + rest) ==
            ParseLines(codec, buffer + AllStripLeft(contents), rest)
    decreases |contents|
  {
    if contents == [] {
      assert DataLines(contents) + rest == rest && buffer + AllStripLeft(contents) == buffer;
    } else {
      var lines, first := DataLines(contents) + rest, StripLeft(contents[0]);
      assert lines[0] == "data:" + contents[0] && lines[0][5..] == contents[0];
      assert lines[1..] == DataLines(contents[1..]) + rest;
      DataLinesAreCollected(codec, buffer + [first], contents[1..], rest);
      assert buffer + [first] + AllStripLeft(contents[1..]) == buffer + AllStripLeft(contents);
    }
  }

  lemma NotAnObject(codec: Codec, text: string)
    requires !Counts(text) || codec.loads(text).None? || !codec.loads(text).value.Obj?
    ensures Objects(codec, [text]) == []
  {
    assert [text][1..] == [];
  }

  lemma AnObject(codec: Codec, text: string, value: Json)
    requires IsObject(codec, text, value)
    ensures Objects(codec, [text]) == [value]
    ensures Offends(codec, text) <==> InvalidToken.ContainsInvalidToken(codec.lower, value, false)
  {
    assert [text][1..] == [];
  }

  lemma DispatchByText(codec: Codec, block: seq<string>)
    ensures var text := Strip(JoinLines(block));
            if Offends(codec, text) then Dispatch(codec, block) == TokenInvalid
            else if Objects(codec, [text]) == [] then Dispatch(codec, block) == Nothing
            else Objects(codec, [text]) == [Objects(codec, [text])[0]]
                 && Dispatch(codec, block) == Event(Objects(codec, [text])[0])
  {
    var text := Strip(JoinLines(block));
    InvalidToken.InvalidTextSaysInvalid(codec.lower, text);
    if Counts(text) && codec.loads(text).Some? && codec.loads(text).value.Obj? {
      AnObject(codec, text, codec.loads(text).value);
    } else {
      NotAnObject(codec, text);
    }
  }

  /** What a block does, by its text. */
  lemma BlockByText(codec: Codec, contents: seq<string>, rest: seq<string>)
    ensures var later := ParseLines(codec, [], rest);
            ParseLines(codec, [], DataLines(contents) + [""] + rest) ==
              if Offends(codec, TextOf(contents)) then Parse([], [], true)
              else later.(events := Objects(codec, [TextOf(contents)]) + later.events)
  {
    var buffer := AllStripLeft(contents);
    assert DataLines(contents) + [""] + rest == DataLines(contents) + ([""] + rest);
    DataLinesAreCollected(codec, [], contents, [""] + rest);
    assert [] + buffer == buffer && ([""] + rest)[1..] == rest;
    DispatchByText(codec, buffer);
    assert [] + ParseLines(codec, [], rest).events == ParseLines(codec, [], rest).events;
    if buffer == [] { NotAnObject(codec, ""); }
  }

  lemma ObjectsCons(codec: Codec, text: string, texts: seq<string>)
    ensures Objects(codec, [text] + texts) == Objects(codec, [text]) + Objects(codec, texts)
  {
    assert ([text] + texts)[1..] == texts && [text][1..] == [];
  }

  /** Whatever the blocks contain, the parser yields the objects among their texts in order, up to the first
      text that offends, and fails iff there is one. */
  lemma {:induction false} StreamOfBlocks(codec: Codec, blocks: seq<seq<string>>)
    ensures var texts := TextsOf(blocks);
            var k := FirstOffence(codec, texts);
            ParseLines(codec, [], Blocks(blocks)) == Parse(Objects(codec, texts[..k]), [], k < |texts|)
  {
    if blocks != [] {
      var text, texts := TextOf(blocks[0]), TextsOf(blocks[1..]);
      BlockByText(codec, blocks[0], Blocks(blocks[1..]));
      StreamOfBlocks(codec, blocks[1..]);
      FirstOffenceCons(codec, text, texts);
      var k := FirstOffence(codec, texts);
      ObjectsCons(codec, text, texts[..k]);
    }
  }

  lemma FirstOffenceCons(codec: Codec, text: string, texts: seq<string>)
    ensures var k := FirstOffence(codec, [text] + texts);
            if Offends(codec, text) then k == 0 && ([text] + texts)[..k] == []
            else k == 1 + FirstOffence(codec, texts) && ([text] + texts)[..k] == [text] + texts[..k - 1]
  {
    assert ([text] + texts)[1..] == texts;
  }

  /** Joining puts one line break between neighbours and nothing else. */
  lemma {:induction false} JoinConcat(a: seq<string>, b: seq<string>)
    requires a != [] && b != []
    ensures JoinLines(a + b) == JoinLines(a) + "\n" + JoinLines(b)
    ensures |a| == 1 ==> JoinLines(a) == a[0]
    decreases |a|
  {
    assert (a + b)[1..] == a[1..] + b;
    if |a| > 1 {
      JoinConcat(a[1..], b);
      assert JoinLines(a + b) == a[0] + "\n" + (JoinLines(a[1..]) + "\n" + JoinLines(b));
    } else {
      assert a[1..] + b == b;
    }
  }

  ghost predicate AllSpace(s: string) { forall c | c in s :: IsSpace(c) }

  ghost predicate Trimmed(s: string) { s == "" || (!IsSpace(s[0]) && !IsSpace(s[|s| - 1])) }

  lemma {:induction false} StripLeftCuts(s: string) returns (left: string)
    ensures s == left + StripLeft(s) && AllSpace(left) && (StripLeft(s) == "" || !IsSpace(StripLeft(s)[0]))
  {
    if s != "" && IsSpace(s[0]) {
      var rest := StripLeftCuts(s[1..]);
      left := [s[0]] + rest;
    } else {
      left := "";
    }
  }

  lemma {:induction false} StripRightCuts(s: string) returns (right: string)
    ensures s == StripRight(s) + right && AllSpace(right)
    ensures StripRight(s) == "" || !IsSpace(StripRight(s)[|StripRight(s)| - 1])
  {
    if s != "" && IsSpace(s[|s| - 1]) {
      var rest := StripRightCuts(s[..|s| - 1]);
      right := rest + [s[|s| - 1]];
    } else {
      right := "";
    }
  }

  /** Trimming takes white space off both ends and leaves none there. */
  lemma StripTrims(s: string) returns (left: string, right: string)
    ensures s == left + Strip(s) + right && AllSpace(left) && AllSpace(right) && Trimmed(Strip(s))
  {
    left := StripLeftCuts(s);
    right := StripRightCuts(StripLeft(s));
  }

  // ---------- round trip ----------

  /** `text` is a printed JSON object that reads back as `value`. */
  ghost predicate Prints(codec: Codec, text: string, value: Json) {
    && |text| >= 2 && text[0] == '{' && text[|text| - 1] == '}'
    && value.Obj? && codec.loads(text) == Some(value)
  }

  function Block(text: string): seq<string> {
    ["data: " + text, ""]
  }

  function Stream(texts: seq<string>): seq<string> {
    if texts == [] then [] else Block(texts[0]) + Stream(texts[1..])
  }

  lemma BlockIsDispatched(codec: Codec, text: string, rest: seq<string>)
    requires |text| >= 1 && !IsSpace(text[0]) && !IsSpace(text[|text| - 1])
    ensures ParseLines(codec, [], Block(text) + rest) == ParseLines(codec, [text], [""] + rest)
    ensures Strip(JoinLines([text])) == text
  {
    var lines := Block(text) + rest;
    assert lines[0][5..] == " " + text;
    assert StripLeft(" " + text) == StripLeft(text) == text by {
      assert (" " + text)[1..] == text;
    }
    assert lines[1..] == [""] + rest;
  }

  lemma DoneIsSkipped(codec: Codec, rest: seq<string>)
    ensures ParseLines(codec, [], Block("[DONE]") + rest) == ParseLines(codec, [], rest)
  {
    BlockIsDispatched(codec, "[DONE]", rest);
    assert ([""] + rest)[1..] == rest;
  }

  /** Where the first object with an invalid-token error stands. */
  function FirstInvalid(codec: Codec, values: seq<Json>): (k: nat)
    ensures k <= |values|
    ensures forall i | 0 <= i < k :: !InvalidToken.ContainsInvalidToken(codec.lower, values[i], false)
    ensures k < |values| ==> InvalidToken.ContainsInvalidToken(codec.lower, values[k], false)
  {
    if values == [] || InvalidToken.ContainsInvalidToken(codec.lower, values[0], false) then 0
    else 1 + FirstInvalid(codec, values[1..])
  }

  /** A printed object at the head of the stream is yielded, or ends it. */
  lemma PrintedIsYielded(codec: Codec, text: string, value: Json, rest: seq<string>)
    requires Prints(codec, text, value)
    ensures ParseLines(codec, [], Block(text) + rest) ==
            if InvalidToken.ContainsInvalidToken(codec.lower, value, false) then Parse([], [], true)
            else var later := ParseLines(codec, [], rest); later.(events := [value] + later.events)
  {
    BlockIsDispatched(codec, text, rest);
    assert ([""] + rest)[1..] == rest;
    assert text != "[DONE]";
  }

  /** The objects before the first invalid one, by the head of the list. */
  lemma FirstInvalidCons(codec: Codec, values: seq<Json>)
    requires values != []
    ensures values[..FirstInvalid(codec, values)] ==
            if InvalidToken.ContainsInvalidToken(codec.lower, values[0], false) then []
            else [values[0]] + values[1..][..FirstInvalid(codec, values[1..])]
  {
  }

  /** The parser returns exactly the printed objects in order, up to the first that reports an
      invalid token; it fails iff there is such an object. */
  lemma {:induction false} StreamRoundTrip(codec: Codec, texts: seq<string>, values: seq<Json>)
    requires |texts| == |values|
    requires forall i | 0 <= i < |texts| :: Prints(codec, texts[i], values[i])
    ensures ParseLines(codec, [], Stream(texts)) ==
            Parse(values[..FirstInvalid(codec, values)], [], FirstInvalid(codec, values) < |values|)
    decreases |texts|
  {
    if texts != [] {
      PrintedIsYielded(codec, texts[0], values[0], Stream(texts[1..]));
      StreamRoundTrip(codec, texts[1..], values[1..]);
      FirstInvalidCons(codec, values);
    }
  }

  // ---------- the body that handle_images writes ----------

  /** The lines of a text; each ends at a newline, an unfinished last one counts if not empty. */
  function Lines(text: string): seq<string> {
    if text == "" then []
    else if text[0] == '\n' then [""] + Lines(text[1..])
    else
      var rest := Lines(text[1..]);
      if rest == [] then [text] else [[text[0]] + rest[0]] + rest[1..]
  }

  lemma {:induction false} LineThenRest(line: string, rest: string)
    requires '\n' !in line
    ensures Lines(line + "\n" + rest) == [line] + Lines(rest)
  {
    if line == "" {
      assert line + "\n" + rest == "\n" + rest;
    } else {
      var text := line + "\n" + rest;
      assert text[1..] == line[1..] + "\n" + rest;
      LineThenRest(line[1..], rest);
      assert [text[0]] + line[1..] == line;
      if |line| == 1 {
        assert line[1..] == "";
        assert [text[0]] == line;
      } else {
        assert text[1] == line[1];
      }
    }
  }

  function Body(chunk: string): string {
    "data: " + chunk + "\n\ndata: [DONE]\n\n"
  }

  lemma BodyLines(chunk: string)
    requires '\n' !in chunk
    ensures Lines(Body(chunk)) == Block(chunk) + Block("[DONE]")
  {
    var done := "data: [DONE]";
    assert Body(chunk) == ("data: " + chunk) + "\n" + ("" + "\n" + (done + "\n" + ("" + "\n" + "")));
    LineThenRest("data: " + chunk, "" + "\n" + (done + "\n" + ("" + "\n" + "")));
    LineThenRest("", done + "\n" + ("" + "\n" + ""));
    LineThenRest(done, "" + "\n" + "");
    LineThenRest("", "");
    assert "data: " + "[DONE]" == done;
  }

  /** A reader of the streamed response sees the one chunk and then a clean end. */
  lemma ResponseRoundTrip(codec: Codec, chunk: string, value: Json)
    requires Prints(codec, chunk, value) && '\n' !in chunk
    requires !InvalidToken.ContainsInvalidToken(codec.lower, value, false)
    ensures ParseLines(codec, [], Lines(Body(chunk))) == Parse([value], [], false)
  {
    BodyLines(chunk);
    assert Block("[DONE]") == Block("[DONE]") + [];
    BlockIsDispatched(codec, chunk, Block("[DONE]"));
    DoneIsSkipped(codec, []);
    assert ([""] + Block("[DONE]"))[1..] == Block("[DONE]");
    assert chunk != "[DONE]";
  }
}
