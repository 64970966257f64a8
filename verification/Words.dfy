// What execTokens and applicationExecToken make of a command line as it is
// written: words of bare, escaped and quoted parts with blanks in between.
module Words {
  import opened Text
  import opened Exec

  // ---------- how a command line is written ----------

  // A character of a quoted text, possibly behind a backslash.
  datatype Mark = Mark(c: char, escaped: bool)

  // Part of a word: a character as itself, one behind a backslash, or a quoted text.
  datatype Part = Bare(c: char) | Escaped(c: char) | Single(text: seq<Mark>) | Double(text: seq<Mark>)

  type Word = seq<Part>

  predicate Blank(c: char) { c == ' ' || c == '\t' }

  // In quotes, the quote itself and the backslash need a backslash; others may have one.
  predicate Quotable(text: seq<Mark>, quote: char) {
    forall k :: 0 <= k < |text| && (text[k].c == quote || text[k].c == '\\') ==> text[k].escaped
  }

  // A bare character has no meaning of its own to the lexer.
  predicate Writable(p: Part) {
    match p
    case Bare(c) => !Blank(c) && c != '\\' && c != '\'' && c != '"'
    case Escaped(_) => true
    case Single(text) => Quotable(text, '\'')
    case Double(text) => Quotable(text, '"')
  }

  function InQuotes(text: seq<Mark>): string {
    if text == [] then ""
    else (if text[0].escaped then ['\\', text[0].c] else [text[0].c]) + InQuotes(text[1..])
  }

  function Chars(text: seq<Mark>): string { if text == [] then "" else [text[0].c] + Chars(text[1..]) }

  function WrittenPart(p: Part): string {
    match p
    case Bare(c) => [c]
    case Escaped(c) => ['\\', c]
    case Single(text) => "'" + InQuotes(text) + "'"
    case Double(text) => "\"" + InQuotes(text) + "\""
  }

  function TextOf(p: Part): string {
    match p
    case Bare(c) => [c]
    case Escaped(c) => [c]
    case Single(text) => Chars(text)
    case Double(text) => Chars(text)
  }

  function Written(w: Word): string { if w == [] then "" else WrittenPart(w[0]) + Written(w[1..]) }

  // The token a word stands for.
  function Meant(w: Word): string { if w == [] then "" else TextOf(w[0]) + Meant(w[1..]) }

  // A word behind the blanks before it.
  datatype Entry = Entry(blanks: string, word: Word)

  predicate AllBlank(blanks: string) { forall k :: 0 <= k < |blanks| ==> Blank(blanks[k]) }

  predicate AllWritable(w: Word) { forall k :: 0 <= k < |w| ==> Writable(w[k]) }

  predicate WellWritten(entries: seq<Entry>) {
    && (forall i :: 0 <= i < |entries| ==> AllBlank(entries[i].blanks) && AllWritable(entries[i].word))
    && forall i :: 0 < i < |entries| ==> entries[i].blanks != ""
  }

  function Line(entries: seq<Entry>): string {
    if entries == [] then "" else entries[0].blanks + Written(entries[0].word) + Line(entries[1..])
  }

  function Meanings(entries: seq<Entry>): seq<string> {
    if entries == [] then [] else [Meant(entries[0].word)] + Meanings(entries[1..])
  }

  // ---------- the lexer reads it back ----------

  function Open(tokens: seq<string>, token: string): Lexer { Lexer(tokens, token, NO_QUOTE, false) }

  lemma LexStep(l: Lexer, m: Lexer, head: string, rest: string)
    requires Lex(l, head) == m
    ensures Lex(l, head + rest) == Lex(m, rest)
  {
    LexConcat(l, head, rest);
  }

  lemma Associates(a: string, b: string, c: string)
    ensures a + b + c == a + (b + c)
  {}

  lemma RestIsQuotable(text: seq<Mark>, quote: char)
    requires Quotable(text, quote) && text != []
    ensures Quotable(text[1..], quote)
  {}

  lemma LexMark(l: Lexer, m: Mark, quote: char)
    requires l.quote == quote && quote != NO_QUOTE && quote != '\\' && !l.escaped
    requires m.c == quote || m.c == '\\' ==> m.escaped
    ensures Lex(l, if m.escaped then ['\\', m.c] else [m.c]) == l.(token := l.token + [m.c])
  {
    if m.escaped {
      assert ['\\', m.c][1..] == [m.c];
      LexOne(Next(l, '\\'), m.c);
    } else {
      LexOne(l, m.c);
    }
  }

  lemma {:induction false} LexQuotedText(l: Lexer, text: seq<Mark>, quote: char)
    requires l.quote == quote && quote != NO_QUOTE && quote != '\\' && !l.escaped && Quotable(text, quote)
    ensures Lex(l, InQuotes(text)) == l.(token := l.token + Chars(text))
    decreases |text|
  {
    if text == [] {
      assert l.token + "" == l.token;
    } else {
      var next := l.(token := l.token + [text[0].c]);
      LexMark(l, text[0], quote);
      LexStep(l, next, if text[0].escaped then ['\\', text[0].c] else [text[0].c], InQuotes(text[1..]));
      RestIsQuotable(text, quote);
      LexQuotedText(next, text[1..], quote);
      Associates(l.token, [text[0].c], Chars(text[1..]));
    }
  }

  lemma LexQuote(tokens: seq<string>, token: string, text: seq<Mark>, quote: char)
    requires (quote == '\'' || quote == '"') && Quotable(text, quote)
    ensures Lex(Open(tokens, token), [quote] + InQuotes(text) + [quote]) == Open(tokens, token + Chars(text))
  {
    var l := Open(tokens, token);
    var inside := l.(quote := quote);
    LexOne(l, quote);
    LexConcat(l, [quote], InQuotes(text));
    LexConcat(l, [quote] + InQuotes(text), [quote]);
    LexQuotedText(inside, text, quote);
    LexOne(inside.(token := token + Chars(text)), quote);
  }

  lemma LexPart(tokens: seq<string>, token: string, p: Part)
    requires Writable(p)
    ensures Lex(Open(tokens, token), WrittenPart(p)) == Open(tokens, token + TextOf(p))
  {
    match p
    case Bare(c) => LexOne(Open(tokens, token), c);
    case Escaped(c) =>
      assert ['\\', c][1..] == [c];
      LexOne(Next(Open(tokens, token), '\\'), c);
    case Single(text) => LexQuote(tokens, token, text, '\'');
    case Double(text) => LexQuote(tokens, token, text, '"');
  }

  lemma {:induction false} LexWord(tokens: seq<string>, token: string, w: Word)
    requires AllWritable(w)
    ensures Lex(Open(tokens, token), Written(w)) == Open(tokens, token + Meant(w))
    decreases |w|
  {
    if w == [] {
      assert token + Meant(w) == token;
    } else {
      LexPart(tokens, token, w[0]);
      LexStep(Open(tokens, token), Open(tokens, token + TextOf(w[0])), WrittenPart(w[0]), Written(w[1..]));
      LexWord(tokens, token + TextOf(w[0]), w[1..]);
      Associates(token, TextOf(w[0]), Meant(w[1..]));
    }
  }

  lemma {:induction false} LexBlanks(tokens: seq<string>, token: string, blanks: string)
    requires AllBlank(blanks)
    ensures Lex(Open(tokens, token), blanks) ==
      if blanks == "" then Open(tokens, token) else Open(Flushed(tokens, token), "")
    decreases |blanks|
  {
    if blanks != "" {
      assert Next(Open(tokens, token), blanks[0]) == Open(Flushed(tokens, token), "");
      LexBlanks(Flushed(tokens, token), "", blanks[1..]);
      assert Flushed(Flushed(tokens, token), "") == Flushed(tokens, token);
    }
  }

  lemma LexEntry(tokens: seq<string>, token: string, e: Entry, rest: string)
    requires AllBlank(e.blanks) && AllWritable(e.word) && (token != "" ==> e.blanks != "")
    ensures Lex(Open(tokens, token), e.blanks + Written(e.word) + rest)
         == Lex(Open(Flushed(tokens, token), Meant(e.word)), rest)
  {
    var flushed := Flushed(tokens, token);
    LexBlanks(tokens, token, e.blanks);
    LexWord(flushed, "", e.word);
    assert "" + Meant(e.word) == Meant(e.word);
    LexStep(Open(tokens, token), Open(flushed, ""), e.blanks, Written(e.word));
    LexStep(Open(tokens, token), Open(flushed, Meant(e.word)), e.blanks + Written(e.word), rest);
  }

  // From an open token on, a line flushes that token and shows its own words.
  lemma {:induction false} LexLine(tokens: seq<string>, token: string, entries: seq<Entry>)
    requires WellWritten(entries) && (entries != [] && token != "" ==> entries[0].blanks != "")
    ensures var end := Lex(Open(tokens, token), Line(entries));
      !end.escaped && end.quote == NO_QUOTE
      && Flushed(end.tokens, end.token) == Flushed(tokens, token) + ShownOf(Meanings(entries))
    decreases |entries|
  {
    var flushed := Flushed(tokens, token);
    if entries == [] {
      assert flushed + [] == flushed;
    } else {
      LexEntry(tokens, token, entries[0], Line(entries[1..]));
      LexLine(flushed, Meant(entries[0].word), entries[1..]);
      ShownFirst(flushed, entries);
    }
  }

  lemma ShownFirst(flushed: seq<string>, entries: seq<Entry>)
    requires entries != []
    ensures Flushed(flushed, Meant(entries[0].word)) + ShownOf(Meanings(entries[1..]))
         == flushed + ShownOf(Meanings(entries))
  {
    assert Meanings(entries)[1..] == Meanings(entries[1..]);
  }

  // The tokens shown: not empty and no field code.
  function Visible(texts: seq<string>): seq<string> {
    if texts == [] then []
    else (if texts[0] != "" && texts[0][0] != '%' then [texts[0]] else []) + Visible(texts[1..])
  }

  lemma {:induction false} VisibleAreShown(texts: seq<string>)
    ensures ShownOf(texts) == Visible(texts)
  {
    if texts != [] { VisibleAreShown(texts[1..]); }
  }

  // execTokens shows exactly what the words of a command line mean, but for empty
  // words and field codes, however the words are quoted and the blanks are placed.
  lemma WordsAreRead(command: string, entries: seq<Entry>)
    requires WellWritten(entries) && TrimSpace(command) == Line(entries)
    ensures Tokens(command) == Visible(Meanings(entries))
  {
    LexLine([], "", entries);
    VisibleAreShown(Meanings(entries));
    assert Flushed([], "") == [];
    assert [] + ShownOf(Meanings(entries)) == ShownOf(Meanings(entries));
  }

  // ---------- plain words ----------

  predicate IsPlain(word: string) {
    && word != ""
    && forall k :: 0 <= k < |word| ==> !Blank(word[k]) && word[k] != '\\' && word[k] != '\'' && word[k] != '"'
  }

  function Plain(word: string): Word { if word == "" then [] else [Bare(word[0])] + Plain(word[1..]) }

  lemma {:induction false} PlainIsItself(word: string)
    requires forall k :: 0 <= k < |word| ==> Writable(Bare(word[k]))
    ensures AllWritable(Plain(word)) && Written(Plain(word)) == word && Meant(Plain(word)) == word
  {
    if word != "" {
      PlainIsItself(word[1..]);
      var rest := Plain(word[1..]);
      assert forall k :: 0 < k < |Plain(word)| ==> Plain(word)[k] == rest[k - 1];
    }
  }

  // Words with a run of blanks after each but the last.
  function Spaced(words: seq<string>, gaps: seq<string>): string
    requires |gaps| == |words|
  {
    if words == [] then "" else gaps[0] + words[0] + Spaced(words[1..], gaps[1..])
  }

  predicate Gaps(gaps: seq<string>) {
    forall i :: 0 <= i < |gaps| ==> AllBlank(gaps[i]) && (gaps[i] == "" <==> i == 0)
  }

  function PlainEntries(words: seq<string>, gaps: seq<string>): seq<Entry>
    requires |gaps| == |words|
  {
    seq(|words|, i requires 0 <= i < |words| => Entry(gaps[i], Plain(words[i])))
  }

  lemma {:induction false} PlainLine(words: seq<string>, gaps: seq<string>)
    requires |gaps| == |words| && forall i :: 0 <= i < |words| ==> IsPlain(words[i])
    ensures Line(PlainEntries(words, gaps)) == Spaced(words, gaps) && Meanings(PlainEntries(words, gaps)) == words
  {
    if words != [] {
      PlainIsItself(words[0]);
      PlainLine(words[1..], gaps[1..]);
      assert PlainEntries(words, gaps)[1..] == PlainEntries(words[1..], gaps[1..]);
    }
  }

  function First(s: string): char
    requires s != ""
  {
    s[0]
  }

  function Last(s: string): char
    requires s != ""
  {
    s[|s| - 1]
  }

  predicate AllPlain(words: seq<string>) { forall i :: 0 <= i < |words| ==> words[i] != "" && IsPlain(words[i]) }

  // Plain words, separated by any runs of spaces and tabs and with any white space
  // around them, are the tokens.
  lemma PlainWordsAreRead(lead: string, words: seq<string>, gaps: seq<string>, trail: string)
    requires |gaps| == |words| && Gaps(gaps) && AllPlain(words) && AllSpace(lead) && AllSpace(trail)
    requires words != [] ==> !IsSpace(First(words[0])) && !IsSpace(Last(words[|words| - 1]))
    ensures Tokens(lead + Spaced(words, gaps) + trail) == Visible(words)
  {
    SpacedEnds(words, gaps);
    TrimSpaceDrops(lead, Spaced(words, gaps), trail);
    PlainLine(words, gaps);
    forall i | 0 <= i < |words| ensures AllWritable(Plain(words[i])) { PlainIsItself(words[i]); }
    WordsAreRead(lead + Spaced(words, gaps) + trail, PlainEntries(words, gaps));
  }

  lemma {:induction false} SpacedEnds(words: seq<string>, gaps: seq<string>)
    requires |gaps| == |words| && AllPlain(words)
    ensures words != [] ==> Spaced(words, gaps) != "" && Last(Spaced(words, gaps)) == Last(words[|words| - 1])
    ensures words != [] && gaps[0] == "" ==> First(Spaced(words, gaps)) == First(words[0])
  {
    if |words| > 1 {
      SpacedEnds(words[1..], gaps[1..]);
    } else if |words| == 1 {
      assert Spaced(words[1..], gaps[1..]) == "";
      assert Spaced(words, gaps) == gaps[0] + words[0];
    }
  }
}
