/** Quoting a value as one word of a POSIX shell, and the shell's own reading of it. */
module ShellQuote {
  import opened Bytes

  /** Every quote closes the quoted part, adds an escaped quote and opens a new one. */
  function EscapeQuotes(value: string): string {
    if value == "" then ""
    else (if value[0] == '\'' then "'\\''" else [value[0]]) + EscapeQuotes(value[1..])
  }

  function Quote(value: string): string {
    "'" + EscapeQuotes(value) + "'"
  }

  datatype Mode = Plain | Quoted

  /** Outside quotes these start an operator, an expansion, a pattern, a comment, another quote or a new line. */
  predicate Special(c: char) {
    c in "|&;<>()$`\"*?[#~\n"
  }

  predicate Blank(c: char) {
    c == ' ' || c == '\t'
  }

  /**
   * The words of a command line after quote removal, by sections 2.2.1 (escape character),
   * 2.2.2 (single quotes) and 2.3 (token recognition) of the Shell Command Language of
   * IEEE Std 1003.1. Nothing when the text needs more than these rules: a special character
   * outside quotes, an open quote or a last backslash.
   */
  function Read(text: string, mode: Mode, word: Option<string>): Option<seq<string>>
    decreases |text|
  {
    if mode.Quoted? then
      if text == "" then None
      else if text[0] == '\'' then Read(text[1..], Plain, word)
      else Read(text[1..], Quoted, Extended(word, [text[0]]))
    else if text == "" then
      Some(Finished(word))
    else if text[0] == '\\' then
      if |text| == 1 then None
      else if text[1] == '\n' then Read(text[2..], Plain, word)
      else Read(text[2..], Plain, Extended(word, [text[1]]))
    else if text[0] == '\'' then
      Read(text[1..], Quoted, Extended(word, ""))
    else if Blank(text[0]) then
      match Read(text[1..], Plain, None)
      case None => None
      case Some(words) => Some(Finished(word) + words)
    else if Special(text[0]) then
      None
    else
      Read(text[1..], Plain, Extended(word, [text[0]]))
  }

  function Extended(word: Option<string>, more: string): Option<string> {
    Some((if word.Some? then word.value else "") + more)
  }

  function Finished(word: Option<string>): seq<string> {
    if word.Some? then [word.value] else []
  }

  function Words(text: string): Option<seq<string>> {
    Read(text, Plain, None)
  }

  lemma {:induction false} QuotedPartReads(value: string, rest: string, word: string)
    ensures Read(EscapeQuotes(value) + "'" + rest, Quoted, Some(word)) == Read(rest, Plain, Some(word + value))
  {
    if value == "" {
      assert EscapeQuotes(value) + "'" + rest == "'" + rest;
      assert word + value == word;
    } else {
      var tail := EscapeQuotes(value[1..]) + "'" + rest;
      QuotedPartReads(value[1..], rest, word + [value[0]]);
      assert word + [value[0]] + value[1..] == word + value;
      if value[0] == '\'' {
        EscapedQuoteReads(tail, word);
        assert EscapeQuotes(value) + "'" + rest == "'\\''" + tail;
      } else {
        assert EscapeQuotes(value) + "'" + rest == [value[0]] + tail;
      }
    }
  }

  lemma EscapedQuoteReads(tail: string, word: string)
    ensures Read("'\\''" + tail, Quoted, Some(word)) == Read(tail, Quoted, Some(word + "'"))
  {
    var closed, escaped := "\\''" + tail, "'" + tail;
    assert ("'\\''" + tail)[1..] == closed && closed[2..] == escaped && escaped[1..] == tail;
    assert Read("'\\''" + tail, Quoted, Some(word)) == Read(closed, Plain, Some(word));
    assert Read(closed, Plain, Some(word)) == Read(escaped, Plain, Some(word + "'"));
    assert word + "'" + "" == word + "'";
  }

  /** Wherever the shell is outside quotes, a quoted value adds exactly that value to the current word. */
  lemma QuoteAddsItsValue(value: string, rest: string, word: Option<string>)
    ensures Read(Quote(value) + rest, Plain, word) == Read(rest, Plain, Extended(word, value))
  {
    var text := Quote(value) + rest;
    assert text[1..] == EscapeQuotes(value) + "'" + rest;
    var begun := Extended(word, "");
    QuotedPartReads(value, rest, begun.value);
    assert begun.value + value == Extended(word, value).value;
  }

  /** The quoted form is one word, equal to the value. */
  lemma QuoteIsOneWord(value: string)
    ensures Words(Quote(value)) == Some([value])
  {
    QuoteAddsItsValue(value, "", None);
    assert Quote(value) + "" == Quote(value) && "" + value == value;
  }

  /** A command line of quoted values reads as those values, with none split, joined, dropped or expanded. */
  lemma {:induction false} QuotedLineReads(values: seq<string>)
    ensures Words(Line(values)) == Some(values)
  {
    if values != [] {
      QuotedLineReads(values[1..]);
      FirstOfLine(values[0], Line(values[1..]), values[1..]);
      assert values == [values[0]] + values[1..];
    }
  }

  lemma FirstOfLine(value: string, rest: string, words: seq<string>)
    requires Words(rest) == Some(words)
    ensures Words(Quote(value) + " " + rest) == Some([value] + words)
  {
    QuoteAddsItsValue(value, " " + rest, None);
    hide Quote;
    ConcatAssociates(Quote(value), " ", rest);
    assert (" " + rest)[1..] == rest;
    AfterNothing(value);
  }

  function Line(values: seq<string>): string {
    if values == [] then "" else Quote(values[0]) + " " + Line(values[1..])
  }

  lemma QuoteIsInjective(v: string, w: string)
    requires Quote(v) == Quote(w)
    ensures v == w
  {
    QuoteIsOneWord(v);
    QuoteIsOneWord(w);
  }

  /** Quoting adds quotes and backslashes only, so never an Enter of its own. */
  lemma {:induction false} QuoteAddsOnlyQuoting(value: string)
    ensures forall c :: c in Quote(value) ==> c in value || c == '\'' || c == '\\'
  {
    EscapeAddsOnlyQuoting(value);
  }

  lemma {:induction false} EscapeAddsOnlyQuoting(value: string)
    ensures forall c :: c in EscapeQuotes(value) ==> c in value || c == '\'' || c == '\\'
  {
    if value != "" { EscapeAddsOnlyQuoting(value[1..]); }
  }
}
