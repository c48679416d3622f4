/** The line buffer of ServerLayer::OnCommand (application/src/server-layer.cpp).  A terminal
    sends one byte per message and the buffer collects them until a carriage return; any longer
    message is a whole command that replaces the buffer. */
module LineEditor {
  import opened StringUtils

  const BACKSPACE: char := 8 as char
  const ESCAPE: char := 27 as char

  /** What one message leads to: nothing yet, a bare prompt, or a command line. */
  datatype Outcome = Silent | Prompt | Dispatch(line: string)

  /** The buffered text becomes a command: only its first token is looked at. */
  function Submit(text: string): Outcome {
    var first := Split(text, CRLF)[0];
    if first == "" || first[0] == '\r' then Prompt else Dispatch(first)
  }

  function Pop(buffer: string): string {
    if buffer == "" then "" else buffer[..|buffer| - 1]
  }

  /** The buffer after a message, and the outcome of the message. */
  function Edit(buffer: string, message: string): (string, Outcome) {
    if |message| != 1 then ("", Submit(message))
    else if message[0] == '\r' then ("", Submit(buffer))
    else if message[0] == BACKSPACE then (Pop(buffer), Silent)
    else if message[0] == ESCAPE then ("", Submit([ESCAPE]))
    else (buffer + message, Silent)
  }

  function BufferAfter(buffer: string, messages: seq<string>): string
    decreases |messages|
  {
    if messages == [] then buffer else BufferAfter(Edit(buffer, messages[0]).0, messages[1..])
  }

  /** The outcomes that the other side can see, in order. */
  function Outcomes(buffer: string, messages: seq<string>): seq<Outcome>
    decreases |messages|
  {
    if messages == [] then []
    else
      var (next, outcome) := Edit(buffer, messages[0]);
      (if outcome == Silent then [] else [outcome]) + Outcomes(next, messages[1..])
  }

  lemma {:induction false} FeedConcat(buffer: string, first: seq<string>, second: seq<string>)
    ensures BufferAfter(buffer, first + second) == BufferAfter(BufferAfter(buffer, first), second)
    ensures Outcomes(buffer, first + second) == Outcomes(buffer, first) + Outcomes(BufferAfter(buffer, first), second)
    decreases |first|
  {
    if first == [] {
      assert first + second == second;
    } else {
      assert (first + second)[1..] == first[1..] + second;
      FeedConcat(Edit(buffer, first[0]).0, first[1..], second);
    }
  }

  // ---- A terminal session -------------------------------------------------------------------

  /** What a user enters: a line, or something abandoned with the escape key. */
  datatype Entry = Line(keys: string) | Abandoned(keys: string)

  /** The keys of an entry: anything but the keys that end it. */
  predicate Typable(keys: string) {
    forall k :: k in keys ==> k != '\r' && k != '\n' && k != ESCAPE
  }

  predicate TypableSession(session: seq<Entry>) {
    forall e :: e in session ==> Typable(e.keys)
  }

  /** The text that the user sees after typing keys behind `text`. */
  function EditedFrom(text: string, keys: string): string
    decreases |keys|
  {
    if keys == "" then text
    else EditedFrom(if keys[0] == BACKSPACE then Pop(text) else text + [keys[0]], keys[1..])
  }

  function Edited(keys: string): string { EditedFrom("", keys) }

  function Singles(keys: string): seq<string> {
    if keys == "" then [] else [[keys[0]]] + Singles(keys[1..])
  }

  /** An entry as a terminal sends it, one byte a message. */
  function TypedEntry(entry: Entry): seq<string> {
    Singles(entry.keys) + if entry.Line? then ["\r", "\n"] else [[ESCAPE]]
  }

  function Typed(session: seq<Entry>): seq<string> {
    if session == [] then [] else TypedEntry(session[0]) + Typed(session[1..])
  }

  /** The same entry sent as one message: the edited line with its CR LF. */
  function WholeEntry(entry: Entry): seq<string> {
    [if entry.Line? then Edited(entry.keys) + CRLF else [ESCAPE]]
  }

  function Whole(session: seq<Entry>): seq<string> {
    if session == [] then [] else WholeEntry(session[0]) + Whole(session[1..])
  }

  /** The outcome that a session promises, without any buffer. */
  function Expected(entry: Entry): Outcome {
    if entry.Abandoned? then Dispatch([ESCAPE])
    else if Edited(entry.keys) == "" then Prompt
    else Dispatch(Edited(entry.keys))
  }

  function ExpectedAll(session: seq<Entry>): seq<Outcome> {
    if session == [] then [] else [Expected(session[0])] + ExpectedAll(session[1..])
  }

  lemma SubmitLine(text: string)
    requires DelimiterFree(text, CRLF)
    ensures Submit(text) == (if text == "" then Prompt else Dispatch(text))
    ensures Submit("\n" + text) == Submit(text) == Submit(text + CRLF)
  {
    SplitDelimiterFree(text, CRLF);
    SplitWord("", '\n', text, CRLF);
    assert "" + (['\n'] + text) == "\n" + text;
    SplitWord(text, '\r', "\n", CRLF);
    assert text + (['\r'] + "\n") == text + CRLF;
    SplitWord("", '\n', "", CRLF);
    assert "" + (['\n'] + "") == "\n";
    SplitDelimiterFree("", CRLF);
    if text != "" {
      assert text[0] in text;
    }
  }

  lemma EditKey(left: string, text: string, k: char)
    requires (left == "" || left == "\n") && k != '\r' && k != ESCAPE
    ensures Edit(left + text, [k]) ==
            if k == BACKSPACE then ((if text == "" then "" else left) + Pop(text), Silent)
            else (left + (text + [k]), Silent)
  {
    if k == BACKSPACE {
      if text == "" {
        assert left + text == left && Pop(left) == "" + Pop(text);
      } else {
        assert (left + text)[..|left + text| - 1] == left + Pop(text);
      }
    } else {
      ConcatAssociative(left, text, [k]);
    }
  }

  /** Typing stays silent and keeps the buffer equal to the edited text, but for a leading LF
      that the previous line may have left; backspaces beyond the line start consume it. */
  lemma {:induction false} TypingKeys(left: string, text: string, keys: string) returns (rest: string)
    requires left == "" || left == "\n"
    requires Typable(keys) && DelimiterFree(text, CRLF)
    ensures rest == "" || rest == "\n"
    ensures BufferAfter(left + text, Singles(keys)) == rest + EditedFrom(text, keys)
    ensures Outcomes(left + text, Singles(keys)) == []
    ensures DelimiterFree(EditedFrom(text, keys), CRLF)
    decreases |keys|
  {
    if keys == "" {
      rest := left;
    } else {
      var k := keys[0];
      assert k in keys && forall c :: c in keys[1..] ==> c in keys;
      EditKey(left, text, k);
      var text' := if k == BACKSPACE then Pop(text) else text + [k];
      var left' := if k == BACKSPACE && text == "" then "" else left;
      rest := TypingKeys(left', text', keys[1..]);
    }
  }

  lemma TypedLineEnd(left: string, text: string)
    requires (left == "" || left == "\n") && DelimiterFree(text, CRLF)
    ensures BufferAfter(left + text, ["\r", "\n"]) == "\n"
    ensures Outcomes(left + text, ["\r", "\n"]) == [if text == "" then Prompt else Dispatch(text)]
  {
    SubmitLine(text);
    assert left + text == text || left + text == "\n" + text;
    PressReturn(left + text);
  }

  lemma PressReturn(buffer: string)
    ensures BufferAfter(buffer, ["\r", "\n"]) == "\n"
    ensures Outcomes(buffer, ["\r", "\n"]) == [Submit(buffer)]
  {
  }

  lemma SendEscape(buffer: string)
    ensures BufferAfter(buffer, [[ESCAPE]]) == "" && Outcomes(buffer, [[ESCAPE]]) == [Dispatch([ESCAPE])]
  {
  }

  lemma SendWhole(text: string)
    requires DelimiterFree(text, CRLF)
    ensures BufferAfter("", [text + CRLF]) == ""
    ensures Outcomes("", [text + CRLF]) == [if text == "" then Prompt else Dispatch(text)]
  {
    SubmitLine(text);
  }

  lemma OneEntry(left: string, entry: Entry) returns (rest: string)
    requires left == "" || left == "\n"
    requires Typable(entry.keys)
    ensures rest == "" || rest == "\n"
    ensures BufferAfter(left, TypedEntry(entry)) == rest && Outcomes(left, TypedEntry(entry)) == [Expected(entry)]
    ensures BufferAfter("", WholeEntry(entry)) == "" && Outcomes("", WholeEntry(entry)) == [Expected(entry)]
  {
    var before := TypingKeys(left, "", entry.keys);
    assert left + "" == left;
    var buffer := before + Edited(entry.keys);
    FeedConcat(left, Singles(entry.keys), if entry.Line? then ["\r", "\n"] else [[ESCAPE]]);
    if entry.Line? {
      TypedLineEnd(before, Edited(entry.keys));
      SendWhole(Edited(entry.keys));
      rest := "\n";
    } else {
      SendEscape(buffer);
      SendEscape("");
      rest := "";
    }
  }

  /** A session typed one byte at a time, with any backspaces, shows exactly the outcomes of the
      edited lines sent whole, and these are the edited lines themselves; an escape discards what
      was typed and dispatches the escape command. */
  lemma {:induction false} TypedRefinesWhole(session: seq<Entry>, left: string)
    requires TypableSession(session) && (left == "" || left == "\n")
    ensures Outcomes(left, Typed(session)) == Outcomes("", Whole(session)) == ExpectedAll(session)
    decreases |session|
  {
    if session == [] {
    } else {
      var entry, more := session[0], session[1..];
      assert entry in session && forall e :: e in more ==> e in session;
      var rest := OneEntry(left, entry);
      TypedRefinesWhole(more, rest);
      FeedConcat(left, TypedEntry(entry), Typed(more));
      FeedConcat("", WholeEntry(entry), Whole(more));
    }
  }

  // ---- Segmentation ---------------------------------------------------------------------------

  /** The commands among some outcomes. */
  function Commands(outcomes: seq<Outcome>): seq<string> {
    if outcomes == [] then []
    else (if outcomes[0].Dispatch? then [outcomes[0].line] else []) + Commands(outcomes[1..])
  }

  /** TCP may deliver a line and its CR LF in two segments.  The line is then executed as if it
      had come whole exactly when the cut falls behind the line and the first segment is not a
      single byte; any earlier cut runs a fragment or loses the first byte. */
  lemma TwoSegmentsIff(line: string, cut: nat)
    requires Typable(line) && BACKSPACE !in line && line != "" && 0 < cut < |line| + 2
    ensures var message := line + CRLF;
            Commands(Outcomes("", [message[..cut], message[cut..]])) == [line] <==> cut >= |line| && cut >= 2
  {
    var message := line + CRLF;
    var a, b := message[..cut], message[cut..];
    TwoMessages(a, b);
    if cut < |line| {
      CutInside(line, cut);
      var fragment := if cut == 1 then line[1..] else line[..cut];
      assert |fragment| < |line|;
      assert fragment == Commands(Outcomes("", [a, b]))[0];
    } else {
      CutBehind(line, cut);
    }
  }

  /** TCP may also deliver two lines in one segment.  Only the first that is not empty is executed, so
      both are executed as sent exactly when one of them is empty. */
  lemma TwoLinesTogetherIff(one: string, two: string)
    requires DelimiterFree(one, CRLF) && DelimiterFree(two, CRLF)
    ensures var together := Commands(Outcomes("", [(one + CRLF) + (two + CRLF)]));
            && together == (if one != "" then [one] else if two != "" then [two] else [])
            && (together == Commands(Outcomes("", [one + CRLF, two + CRLF])) <==> one == "" || two == "")
  {
    SubmitLine(one);
    SubmitLine(two);
    SubmitTogether(one, two);
    OneMessage((one + CRLF) + (two + CRLF));
    TwoMessages(one + CRLF, two + CRLF);
  }

  lemma OneMessage(message: string)
    ensures var outcome := Edit("", message).1;
            Commands(Outcomes("", [message])) == if outcome.Dispatch? then [outcome.line] else []
  {
    assert [message][1..] == [];
    assert Outcomes("", [message]) == if Edit("", message).1 == Silent then [] else [Edit("", message).1];
  }

  lemma SubmitTogether(one: string, two: string)
    requires DelimiterFree(one, CRLF)
    ensures Submit((one + CRLF) + (two + CRLF)) == if one == "" then Submit(two + CRLF) else Dispatch(one)
  {
    var rest := two + CRLF;
    assert (one + CRLF) + rest == one + (['\r'] + (['\n'] + rest));
    SplitWord(one, '\r', ['\n'] + rest, CRLF);
    SplitWord("", '\n', rest, CRLF);
    assert "" + (['\n'] + rest) == ['\n'] + rest;
    if one == "" {
      assert [] + Split(rest, CRLF) == Split(rest, CRLF);
    } else {
      assert one[0] in one;
    }
  }

  lemma CutBehind(line: string, cut: nat)
    requires Typable(line) && BACKSPACE !in line && line != "" && |line| <= cut < |line| + 2
    ensures var message := line + CRLF;
            var (buffer, first) := Edit("", message[..cut]);
            && first == (if cut == 1 then Silent else Dispatch(line))
            && !Edit(buffer, message[cut..]).1.Dispatch?
  {
    assert line[0] in line;
    if cut == |line| {
      assert (line + CRLF)[..cut] == line && (line + CRLF)[cut..] == "" + CRLF;
      SubmitLine(line);
      SubmitLine("");
    } else {
      assert (line + CRLF)[..cut] == line + "\r" && (line + CRLF)[cut..] == "\n";
      SubmitCarriageReturn(line);
    }
  }

  lemma TwoMessages(a: string, b: string)
    ensures var (buffer, first) := Edit("", a);
            var second := Edit(buffer, b).1;
            Commands(Outcomes("", [a, b])) ==
                (if first.Dispatch? then [first.line] else []) + (if second.Dispatch? then [second.line] else [])
  {
    var (buffer, first) := Edit("", a);
    assert [a, b][1..] == [b];
    var second := Edit(buffer, b).1;
    var head, tail := if first == Silent then [] else [first], if second == Silent then [] else [second];
    assert Outcomes(buffer, [b]) == tail;
    assert Outcomes("", [a, b]) == head + tail;
    CommandsConcat(head, tail);
  }

  lemma CommandsConcat(a: seq<Outcome>, b: seq<Outcome>)
    ensures Commands(a + b) == Commands(a) + Commands(b)
  {
    if a == [] {
      assert a + b == b;
    } else {
      assert (a + b)[1..] == a[1..] + b;
      CommandsConcat(a[1..], b);
    }
  }

  lemma CutInside(line: string, cut: nat)
    requires Typable(line) && BACKSPACE !in line && 0 < cut < |line|
    ensures var message := line + CRLF;
            var (buffer, first) := Edit("", message[..cut]);
            && (cut == 1 ==> first == Silent && Edit(buffer, message[cut..]).1 == Dispatch(line[1..]))
            && (cut > 1 ==> first == Dispatch(line[..cut]))
  {
    var message := line + CRLF;
    assert message[..cut] == line[..cut] && message[cut..] == line[cut..] + CRLF;
    assert cut == 1 ==> line[..cut] == [line[0]];
    assert line[0] in line && forall c :: c in line[..cut] || c in line[cut..] ==> c in line;
    SubmitLine(line[..cut]);
    SubmitLine(line[cut..]);
  }

  lemma SubmitCarriageReturn(line: string)
    requires DelimiterFree(line, CRLF) && line != ""
    ensures Submit(line + "\r") == Dispatch(line)
  {
    SplitWord(line, '\r', "", CRLF);
    assert line + (['\r'] + "") == line + "\r";
    assert line[0] in line;
  }
}
