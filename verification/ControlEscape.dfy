/**
The repair of agent output before JSON parsing: section 7 of RFC 8259 forbids raw control characters
inside strings, so raw newlines, returns and tabs there are replaced by their escapes.
*/
module ControlEscape {

  /** Where the lexer stands: inside a string, and right after a backslash that escapes what follows. */
  datatype Lexer = Lexer(inString: bool, escaped: bool)

  const OUTSIDE := Lexer(false, false)

  function Read(st: Lexer, c: char): Lexer {
    Lexer(if c == '"' && !st.escaped then !st.inString else st.inString, c == '\\' && !st.escaped)
  }

  function Lex(st: Lexer, text: string): Lexer
    decreases |text|
  {
    if text == "" then st else Lex(Read(st, text[0]), text[1..])
  }

  predicate IsControl(c: char) {
    c == '\n' || c == '\r' || c == '\t'
  }

  /** A control character standing raw in a string. */
  predicate Offends(st: Lexer, c: char) {
    st.inString && !st.escaped && IsControl(c)
  }

  function EscapeOf(c: char): string {
    if c == '\n' then "\\n" else if c == '\r' then "\\r" else "\\t"
  }

  function Emitted(st: Lexer, c: char): string {
    if Offends(st, c) then EscapeOf(c) else [c]
  }

  function Escaped(st: Lexer, text: string): string
    decreases |text|
  {
    if text == "" then "" else Emitted(st, text[0]) + Escaped(Read(st, text[0]), text[1..])
  }

  /** No control character stands raw in a string: each one inside a string follows an escaping backslash. */
  predicate Clean(st: Lexer, text: string)
    decreases |text|
  {
    text == "" || (!Offends(st, text[0]) && Clean(Read(st, text[0]), text[1..]))
  }

  lemma {:induction false} LexJoins(st: Lexer, a: string, b: string)
    ensures Lex(st, a + b) == Lex(Lex(st, a), b)
    decreases |a|
  {
    if a == "" {
      assert a + b == b;
    } else {
      assert (a + b)[1..] == a[1..] + b;
      LexJoins(Read(st, a[0]), a[1..], b);
    }
  }

  lemma {:induction false} CleanJoins(st: Lexer, a: string, b: string)
    ensures Clean(st, a + b) <==> Clean(st, a) && Clean(Lex(st, a), b)
    decreases |a|
  {
    if a == "" {
      assert a + b == b;
    } else {
      assert (a + b)[1..] == a[1..] + b;
      CleanJoins(Read(st, a[0]), a[1..], b);
    }
  }

  /** What is emitted for one character moves the lexer as the character does, and is clean. */
  lemma EmittedReadsAlike(st: Lexer, c: char)
    ensures Lex(st, Emitted(st, c)) == Read(st, c)
    ensures Clean(st, Emitted(st, c))
  {
    if Offends(st, c) {
      var escape := EscapeOf(c);
      assert escape[1..] == [escape[1]] && escape[1..][1..] == "";
      assert Lex(st, escape) == Lex(Read(st, '\\'), escape[1..]);
    } else {
      assert [c][1..] == "";
    }
  }

  /** The lexer ends in the same state on the repaired text as on the original. */
  lemma {:induction false} LexerStateIsKept(st: Lexer, text: string)
    ensures Lex(st, Escaped(st, text)) == Lex(st, text)
    decreases |text|
  {
    if text != "" {
      EmittedReadsAlike(st, text[0]);
      LexJoins(st, Emitted(st, text[0]), Escaped(Read(st, text[0]), text[1..]));
      LexerStateIsKept(Read(st, text[0]), text[1..]);
    }
  }

  lemma {:induction false} OutputIsClean(st: Lexer, text: string)
    ensures Clean(st, Escaped(st, text))
    decreases |text|
  {
    if text != "" {
      EmittedReadsAlike(st, text[0]);
      CleanJoins(st, Emitted(st, text[0]), Escaped(Read(st, text[0]), text[1..]));
      OutputIsClean(Read(st, text[0]), text[1..]);
    }
  }

  /** Clean text, and only clean text, is left as it is. */
  lemma {:induction false} CleanIffUnchanged(st: Lexer, text: string)
    ensures Clean(st, text) <==> Escaped(st, text) == text
    decreases |text|
  {
    if text != "" {
      var rest := Escaped(Read(st, text[0]), text[1..]);
      CleanIffUnchanged(Read(st, text[0]), text[1..]);
      if Offends(st, text[0]) {
        assert Escaped(st, text)[0] == '\\';
      } else {
        assert ([text[0]] + rest)[1..] == rest;
        assert [text[0]] + text[1..] == text;
      }
    }
  }

  lemma RepairIsIdempotent(st: Lexer, text: string)
    ensures Escaped(st, Escaped(st, text)) == Escaped(st, text)
  {
    OutputIsClean(st, text);
    CleanIffUnchanged(st, Escaped(st, text));
  }

  /** `Clean` by positions: a control character inside a string comes right after an escaping backslash. */
  lemma {:induction false} CleanByPosition(st: Lexer, text: string, i: nat)
    requires Clean(st, text) && i < |text| && IsControl(text[i])
    ensures var before := Lex(st, text[..i]);
      before.inString ==> before.escaped && (i > 0 ==> text[i - 1] == '\\')
    decreases i
  {
    if i > 0 {
      CleanByPosition(Read(st, text[0]), text[1..], i - 1);
      assert text[..i][1..] == text[1..][..i - 1];
      if Lex(st, text[..i]).escaped {
        EscapedMeansBackslash(st, text[..i]);
      }
    }
  }

  lemma {:induction false} EscapedMeansBackslash(st: Lexer, text: string)
    requires text != "" && Lex(st, text).escaped
    ensures text[|text| - 1] == '\\'
    decreases |text|
  {
    if |text| == 1 {
      assert text[1..] == "";
    } else {
      EscapedMeansBackslash(Read(st, text[0]), text[1..]);
    }
  }

  // ---- The repair keeps the meaning ----

  /** What a lenient reader makes of the text: plain characters, escapes resolved, structure outside strings. */
  datatype Token = Plain(c: char) | OtherEscape(e: char) | Structure(s: char)

  function Meant(st: Lexer, c: char): seq<Token> {
    if !st.inString then [Structure(c)]
    else if st.escaped then
      [if c == 'n' then Plain('\n') else if c == 'r' then Plain('\r') else if c == 't' then Plain('\t')
       else OtherEscape(c)]
    else if c == '\\' then []
    else [Plain(c)]
  }

  function Meaning(st: Lexer, text: string): seq<Token>
    decreases |text|
  {
    if text == "" then [] else Meant(st, text[0]) + Meaning(Read(st, text[0]), text[1..])
  }

  lemma {:induction false} MeaningJoins(st: Lexer, a: string, b: string)
    ensures Meaning(st, a + b) == Meaning(st, a) + Meaning(Lex(st, a), b)
    decreases |a|
  {
    if a == "" {
      assert a + b == b;
    } else {
      assert (a + b)[1..] == a[1..] + b;
      MeaningJoins(Read(st, a[0]), a[1..], b);
    }
  }

  lemma EmittedMeansAlike(st: Lexer, c: char)
    ensures Meaning(st, Emitted(st, c)) == Meant(st, c)
  {
    if Offends(st, c) {
      var escape := EscapeOf(c);
      assert escape[1..] == [escape[1]] && escape[1..][1..] == "";
      assert Meaning(st, escape) == Meaning(Read(st, '\\'), escape[1..]);
    } else {
      assert [c][1..] == "";
    }
  }

  /** The repaired text is the original as a reader that tolerates raw control characters would read it. */
  lemma {:induction false} MeaningIsKept(st: Lexer, text: string)
    ensures Meaning(st, Escaped(st, text)) == Meaning(st, text)
    decreases |text|
  {
    if text != "" {
      EmittedMeansAlike(st, text[0]);
      EmittedReadsAlike(st, text[0]);
      MeaningJoins(st, Emitted(st, text[0]), Escaped(Read(st, text[0]), text[1..]));
      MeaningIsKept(Read(st, text[0]), text[1..]);
    }
  }

  // ---- The repair by positions ----

  /** How many backslashes the text ends with. */
  function Backslashes(text: string): nat {
    if text == "" || text[|text| - 1] != '\\' then 0 else 1 + Backslashes(text[..|text| - 1])
  }

  /** A quote counts unless an odd number of backslashes stands before it. */
  function Quotes(text: string): nat {
    if text == "" then 0
    else
      var before := text[..|text| - 1];
      Quotes(before) + (if text[|text| - 1] == '"' && Backslashes(before) % 2 == 0 then 1 else 0)
  }

  /** The character after `before` stands in a string, and no backslash escapes it. */
  predicate IsRawInString(before: string) {
    Quotes(before) % 2 == 1 && Backslashes(before) % 2 == 0
  }

  /** The lexer is inside a string after an odd number of such quotes, and escaped after an odd run of backslashes. */
  lemma {:induction false} LexerCounts(text: string)
    ensures Lex(OUTSIDE, text).inString <==> Quotes(text) % 2 == 1
    ensures Lex(OUTSIDE, text).escaped <==> Backslashes(text) % 2 == 1
    decreases |text|
  {
    if text != "" {
      var before, c := text[..|text| - 1], text[|text| - 1];
      LexerCounts(before);
      assert text == before + [c];
      LexJoins(OUTSIDE, before, [c]);
      assert [c][1..] == "";
      assert Lex(OUTSIDE, text) == Read(Lex(OUTSIDE, before), c);
    }
  }

  /** The text with each newline, return and tab that stands raw in a string replaced by its escape. */
  function Repaired(text: string): string {
    if text == "" then ""
    else
      var before, c := text[..|text| - 1], text[|text| - 1];
      Repaired(before)
      + if !IsRawInString(before) then [c]
        else if c == '\n' then "\\n" else if c == '\r' then "\\r" else if c == '\t' then "\\t" else [c]
  }

  lemma {:induction false} EscapedJoins(st: Lexer, a: string, b: string)
    ensures Escaped(st, a + b) == Escaped(st, a) + Escaped(Lex(st, a), b)
    decreases |a|
  {
    if a == "" {
      assert a + b == b;
    } else {
      assert (a + b)[1..] == a[1..] + b;
      EscapedJoins(Read(st, a[0]), a[1..], b);
    }
  }

  lemma {:induction false} RepairIsByPosition(text: string)
    ensures Escaped(OUTSIDE, text) == Repaired(text)
    decreases |text|
  {
    if text != "" {
      var before, c := text[..|text| - 1], text[|text| - 1];
      RepairIsByPosition(before);
      assert text == before + [c];
      EscapedJoins(OUTSIDE, before, [c]);
      LexerCounts(before);
      var st := Lex(OUTSIDE, before);
      assert [c][1..] == "" && Escaped(Read(st, c), "") == "";
      assert Escaped(st, [c]) == Emitted(st, c);
    }
  }

  lemma OneMoreCharacter(output: string, st: Lexer, payload: string, i: nat)
    requires i < |payload|
    ensures output + Escaped(st, payload[i..]) ==
      output + Emitted(st, payload[i]) + Escaped(Read(st, payload[i]), payload[i + 1..])
  {
  }

  lemma NothingLeft(output: string, st: Lexer)
    ensures output + Escaped(st, "") == output
  {
  }

  /** `escape_string_controls` */
  method EscapeStringControls(payload: string) returns (output: string)
    ensures output == Escaped(OUTSIDE, payload) && output == Repaired(payload)
  {
    RepairIsByPosition(payload);
    hide Escaped;
    output := "";
    var inString, escaped := false, false;
    for i := 0 to |payload|
      invariant output + Escaped(Lexer(inString, escaped), payload[i..]) == Escaped(OUTSIDE, payload)
    {
      var character := payload[i];
      OneMoreCharacter(output, Lexer(inString, escaped), payload, i);
      if inString && !escaped {
        if character == '\n' {
          output := output + "\\n";
          continue;
        }
        if character == '\r' {
          output := output + "\\r";
          continue;
        }
        if character == '\t' {
          output := output + "\\t";
          continue;
        }
      }
      output := output + [character];
      if character == '"' && !escaped {
        inString := !inString;
      }
      escaped := character == '\\' && !escaped;
    }
    assert payload[|payload|..] == "";
    NothingLeft(output, Lexer(inString, escaped));
  }
}
