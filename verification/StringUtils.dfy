/** The tokenizer of application/src/utils/string-utils.cpp.  Every run of characters between
    two delimiters becomes a token unless it is empty; the run after the last delimiter always
    becomes a token, even when it is empty. */
module StringUtils {

  datatype Option<+T> = None | Some(value: T)

  /** What ends a command line. */
  const CRLF := "\r\n"

  /** The position of the first delimiter in s, or |s| when there is none. */
  function RunLength(s: string, delimiters: string): (k: nat)
    ensures k <= |s|
  {
    if s == "" || s[0] in delimiters then 0 else 1 + RunLength(s[1..], delimiters)
  }

  lemma {:induction false} RunLengthSpec(s: string, delimiters: string)
    ensures var k := RunLength(s, delimiters);
            && (forall i :: 0 <= i < k ==> s[i] !in delimiters)
            && (k < |s| ==> s[k] in delimiters)
  {
    if s == "" || s[0] in delimiters {
    } else {
      RunLengthSpec(s[1..], delimiters);
    }
  }

  /** std::string_view::find_first_of from `first` on; None stands for npos. */
  function FindFirstOf(s: string, delimiters: string, first: nat): (second: Option<nat>)
    requires first <= |s|
    ensures second.Some? ==> first <= second.value < |s|
  {
    var k := RunLength(s[first..], delimiters);
    if first + k == |s| then None else Some(first + k)
  }

  /** What the tokenizer computes, by recursion on the input. */
  function Split(s: string, delimiters: string): (tokens: seq<string>)
    ensures tokens != []
    decreases |s|
  {
    var k := RunLength(s, delimiters);
    if k == |s| then [s]
    else if k == 0 then Split(s[1..], delimiters)
    else [s[..k]] + Split(s[k + 1..], delimiters)
  }

  ghost predicate DelimiterFree(s: string, delimiters: string) {
    forall c :: c in s ==> c !in delimiters
  }

  /** A word is what can be a token anywhere: not empty and free of delimiters. */
  ghost predicate Word(s: string, delimiters: string) {
    s != "" && DelimiterFree(s, delimiters)
  }

  ghost predicate Words(tokens: seq<string>, delimiters: string) {
    forall t :: t in tokens ==> Word(t, delimiters)
  }

  ghost function Flatten(tokens: seq<string>): string {
    if tokens == [] then "" else tokens[0] + Flatten(tokens[1..])
  }

  ghost function Without(s: string, delimiters: string): string {
    if s == "" then ""
    else (if s[0] in delimiters then "" else [s[0]]) + Without(s[1..], delimiters)
  }

  ghost function Join(tokens: seq<string>, d: char): string
    requires tokens != []
  {
    if |tokens| == 1 then tokens[0] else tokens[0] + ([d] + Join(tokens[1..], d))
  }

  /** The token a run contributes when a delimiter follows it: none when the run is empty. */
  ghost function Piece(run: string): seq<string> {
    if run == "" then [] else [run]
  }

  ghost function DropTrailingEmpty(tokens: seq<string>): seq<string> {
    if tokens != [] && tokens[|tokens| - 1] == "" then tokens[..|tokens| - 1] else tokens
  }

  lemma SplitStep(s: string, delimiters: string, first: nat, second: nat)
    requires first <= second < |s| && FindFirstOf(s, delimiters, first) == Some(second)
    ensures Split(s[first..], delimiters) ==
            Piece(s[first..second]) + Split(s[second + 1..], delimiters)
  {
    var rest := s[first..];
    assert rest[second - first + 1..] == s[second + 1..];
    assert rest[..second - first] == s[first..second];
  }

  lemma SplitLast(s: string, delimiters: string, first: nat)
    requires first <= |s| && FindFirstOf(s, delimiters, first) == None
    ensures Split(s[first..], delimiters) == [s[first..]]
  {
  }

  /** The run from `first` to the next delimiter, in front of the rest. */
  lemma SplitRun(s: string, delimiters: string, first: nat, before: seq<string>, whole: seq<string>)
    requires first <= |s| && whole == before + Split(s[first..], delimiters)
    ensures match FindFirstOf(s, delimiters, first)
            case None => whole == before + [s[first..]]
            case Some(second) =>
              whole == (before + Piece(s[first..second])) + Split(s[second + 1..], delimiters)
  {
    match FindFirstOf(s, delimiters, first) {
      case None => SplitLast(s, delimiters, first);
      case Some(second) =>
        SplitStep(s, delimiters, first, second);
        ConcatAssociative(before, Piece(s[first..second]), Split(s[second + 1..], delimiters));
    }
  }

  /** utils::SplitString.  The loop condition never ends the loop: the invariant `first <= |s|`
      contradicts its negation, so control leaves by the `break` alone. */
  method SplitString(s: string, delimiters: string) returns (result: seq<string>)
    ensures result == Split(s, delimiters)
  {
    var first := 0;
    result := [];
    ghost var whole := Split(s, delimiters);
    assert s[0..] == s;
    while first <= |s|
      invariant first <= |s|
      invariant whole == result + Split(s[first..], delimiters)
      decreases |s| - first
    {
      var second := FindFirstOf(s, delimiters, first);
      SplitRun(s, delimiters, first, result, whole);
      if second != Some(first) {
        result := result + [if second.Some? then s[first..second.value] else s[first..]];
      }
      if second.None? {
        break;
      }
      first := second.value + 1;
    }
  }

  lemma {:induction false} RunLengthWord(w: string, d: char, rest: string, delimiters: string)
    requires DelimiterFree(w, delimiters) && d in delimiters
    ensures RunLength(w, delimiters) == |w|
    ensures RunLength(w + ([d] + rest), delimiters) == |w|
  {
    if w == "" {
      assert (w + ([d] + rest))[0] == d;
    } else {
      assert (w + ([d] + rest))[1..] == w[1..] + ([d] + rest);
      RunLengthWord(w[1..], d, rest, delimiters);
    }
  }

  lemma SplitDelimiterFree(s: string, delimiters: string)
    requires DelimiterFree(s, delimiters)
    ensures Split(s, delimiters) == [s]
  {
    if delimiters == "" {
      RunLengthSpec(s, delimiters);
    } else {
      RunLengthWord(s, delimiters[0], "", delimiters);
    }
  }

  lemma SplitWord(w: string, d: char, rest: string, delimiters: string)
    requires DelimiterFree(w, delimiters) && d in delimiters
    ensures Split(w + ([d] + rest), delimiters) == Piece(w) + Split(rest, delimiters)
  {
    var s := w + ([d] + rest);
    RunLengthWord(w, d, rest, delimiters);
    assert s[..|w|] == w;
    assert s[|w| + 1..] == rest;
  }

  lemma ConcatAssociative<T>(a: seq<T>, b: seq<T>, c: seq<T>)
    ensures (a + b) + c == a + (b + c)
  {
  }

  /** The first piece of a string that holds a delimiter, and what is left of it. */
  lemma FirstPiece(s: string, delimiters: string) returns (w: string, d: char, rest: string)
    requires RunLength(s, delimiters) < |s|
    ensures s == w + ([d] + rest) && DelimiterFree(w, delimiters) && d in delimiters
    ensures |rest| < |s|
  {
    var k := RunLength(s, delimiters);
    RunLengthSpec(s, delimiters);
    w, d, rest := s[..k], s[k], s[k + 1..];
  }

  /** The shape of the result: no token holds a delimiter and only the last may be empty. */
  lemma {:induction false} SplitShape(s: string, delimiters: string)
    ensures forall i :: 0 <= i < |Split(s, delimiters)| ==> DelimiterFree(Split(s, delimiters)[i], delimiters)
    ensures forall i :: 0 <= i < |Split(s, delimiters)| - 1 ==> Split(s, delimiters)[i] != ""
    decreases |s|
  {
    if RunLength(s, delimiters) == |s| {
      RunLengthSpec(s, delimiters);
    } else {
      var w, d, rest := FirstPiece(s, delimiters);
      SplitShape(rest, delimiters);
      SplitWord(w, d, rest, delimiters);
    }
  }

  lemma WithoutConcat(s: string, t: string, delimiters: string)
    ensures Without(s + t, delimiters) == Without(s, delimiters) + Without(t, delimiters)
  {
    if s == "" {
      assert s + t == t;
    } else {
      assert (s + t)[1..] == s[1..] + t;
      WithoutConcat(s[1..], t, delimiters);
    }
  }

  lemma WithoutDelimiterFree(s: string, delimiters: string)
    requires DelimiterFree(s, delimiters)
    ensures Without(s, delimiters) == s
  {
  }

  lemma WithoutHead(w: string, d: char, rest: string, delimiters: string)
    requires DelimiterFree(w, delimiters) && d in delimiters
    ensures Without(w + ([d] + rest), delimiters) == w + Without(rest, delimiters)
  {
    WithoutDelimiterFree(w, delimiters);
    WithoutConcat(w, [d] + rest, delimiters);
    WithoutDelimiter(d, rest, delimiters);
  }

  lemma WithoutDelimiter(d: char, rest: string, delimiters: string)
    requires d in delimiters
    ensures Without([d] + rest, delimiters) == Without(rest, delimiters)
  {
  }

  lemma FlattenCons(token: string, tokens: seq<string>)
    ensures Flatten([token] + tokens) == token + Flatten(tokens)
  {
  }

  /** Nothing but delimiters is lost, and the order is kept. */
  lemma {:induction false} SplitContent(s: string, delimiters: string)
    ensures Flatten(Split(s, delimiters)) == Without(s, delimiters)
    decreases |s|
  {
    if RunLength(s, delimiters) == |s| {
      RunLengthSpec(s, delimiters);
      WithoutDelimiterFree(s, delimiters);
      FlattenCons(s, []);
    } else {
      var w, d, rest := FirstPiece(s, delimiters);
      SplitContent(rest, delimiters);
      SplitWord(w, d, rest, delimiters);
      WithoutHead(w, d, rest, delimiters);
      FlattenCons(w, Split(rest, delimiters));
      if w == "" {
        assert Piece(w) + Split(rest, delimiters) == Split(rest, delimiters);
        assert w + Without(rest, delimiters) == Without(rest, delimiters);
      }
    }
  }

  /** Splitting s, a delimiter, then t is splitting the two parts, except that the part before
      the delimiter no longer ends the input and so drops its trailing empty token. */
  lemma {:induction false} SplitAtDelimiter(s: string, d: char, t: string, delimiters: string)
    requires d in delimiters
    ensures Split(s + ([d] + t), delimiters) == DropTrailingEmpty(Split(s, delimiters)) + Split(t, delimiters)
    decreases |s|
  {
    if RunLength(s, delimiters) == |s| {
      RunLengthSpec(s, delimiters);
      SplitDelimiterFree(s, delimiters);
      SplitWord(s, d, t, delimiters);
    } else {
      var w, e, rest := FirstPiece(s, delimiters);
      SplitAtDelimiter(rest, d, t, delimiters);
      Regroup(w, e, rest, [d] + t);
      SplitWord(w, e, rest + ([d] + t), delimiters);
      SplitWord(w, e, rest, delimiters);
      DropTrailingEmptyConcat(Piece(w), Split(rest, delimiters));
      ConcatAssociative(Piece(w), DropTrailingEmpty(Split(rest, delimiters)), Split(t, delimiters));
    }
  }

  lemma Regroup(w: string, e: char, rest: string, tail: string)
    ensures w + ([e] + rest) + tail == w + ([e] + (rest + tail))
  {
  }

  lemma DropTrailingEmptyConcat(front: seq<string>, back: seq<string>)
    requires back != []
    ensures DropTrailingEmpty(front + back) == front + DropTrailingEmpty(back)
  {
  }

  /** Splitting undoes joining. */
  lemma {:induction false} SplitJoin(tokens: seq<string>, d: char, delimiters: string)
    requires tokens != [] && Words(tokens, delimiters) && d in delimiters
    ensures Split(Join(tokens, d), delimiters) == tokens
  {
    if |tokens| == 1 {
      assert tokens[0] in tokens;
      SplitDelimiterFree(tokens[0], delimiters);
    } else {
      assert tokens[0] in tokens;
      SplitWord(tokens[0], d, Join(tokens[1..], d), delimiters);
      SplitJoin(tokens[1..], d, delimiters);
    }
  }
}
