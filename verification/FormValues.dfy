/** Text controls for lists and environments: the printers that fill them, the parsers that read them
    back, and the seeds that spare an untouched control from being parsed. */
module FormValues {
  import opened Wrappers
  import opened Strings

  // ---------------------------------------------------------------------------
  // Token lists.
  // ---------------------------------------------------------------------------

  predicate Delimiter(c: char) { White(c) || c == ',' }

  /** The longest prefix without a delimiter. */
  function Word(s: string): string {
    if s == "" || Delimiter(s[0]) then "" else [s[0]] + Word(s[1..])
  }

  /** The parts between runs of delimiters; empty parts are dropped. */
  function ParseTokens(s: string): seq<string>
    decreases |s|
  {
    if s == "" then []
    else if Delimiter(s[0]) then ParseTokens(s[1..])
    else
      var word := Word(s);
      WordIsPrefix(s);
      [word] + ParseTokens(s[|word|..])
  }

  lemma {:induction false} WordIsPrefix(s: string)
    ensures |Word(s)| <= |s| && s[..|Word(s)|] == Word(s)
    ensures s != "" && !Delimiter(s[0]) ==> Word(s) != ""
    ensures forall k :: 0 <= k < |Word(s)| ==> !Delimiter(Word(s)[k])
    ensures |Word(s)| < |s| ==> Delimiter(s[|Word(s)|])
  {
    if s != "" && !Delimiter(s[0]) { WordIsPrefix(s[1..]); }
  }

  function JoinTokens(tokens: seq<string>): string {
    if tokens == [] then ""
    else if |tokens| == 1 then tokens[0]
    else tokens[0] + ", " + JoinTokens(tokens[1..])
  }

  /** What the parser can give: not empty, and no delimiter inside. */
  ghost predicate Token(s: string) { s != "" && forall k :: 0 <= k < |s| ==> !Delimiter(s[k]) }

  ghost predicate Tokens(tokens: seq<string>) { forall k :: 0 <= k < |tokens| ==> Token(tokens[k]) }

  lemma {:induction false} WordOf(a: string, b: string)
    requires (forall k :: 0 <= k < |a| ==> !Delimiter(a[k])) && (b == "" || Delimiter(b[0]))
    ensures Word(a + b) == a
  {
    if a == "" {
      assert a + b == b;
    } else {
      assert (a + b)[1..] == a[1..] + b;
      WordOf(a[1..], b);
    }
  }

  lemma ParseOne(a: string, b: string)
    requires Token(a) && (b == "" || Delimiter(b[0]))
    ensures ParseTokens(a + b) == [a] + ParseTokens(b)
  {
    WordOf(a, b);
    assert (a + b)[0] == a[0];
    assert (a + b)[|a|..] == b;
  }

  /** Parsing a printed list gives the list back exactly when it holds tokens only. */
  lemma {:induction false} TokensRoundTripIff(tokens: seq<string>)
    ensures ParseTokens(JoinTokens(tokens)) == tokens <==> Tokens(tokens)
  {
    ParsedAreTokens(JoinTokens(tokens));
    if Tokens(tokens) { TokensRoundTrip(tokens); }
  }

  lemma {:induction false} TokensRoundTrip(tokens: seq<string>)
    requires Tokens(tokens)
    ensures ParseTokens(JoinTokens(tokens)) == tokens
  {
    if |tokens| == 1 {
      ParseOne(tokens[0], "");
      assert tokens[0] + "" == tokens[0] && tokens == [tokens[0]] + [];
    } else if tokens != [] {
      var rest := JoinTokens(tokens[1..]);
      TokensRoundTrip(tokens[1..]);
      ParseOne(tokens[0], ", " + rest);
      assert tokens[0] + ", " + rest == tokens[0] + (", " + rest);
      assert (", " + rest)[1..] == " " + rest && (" " + rest)[1..] == rest;
      assert ParseTokens(", " + rest) == ParseTokens(rest);
    }
  }

  /** Whatever the operator typed, what is parsed are tokens. */
  lemma {:induction false} ParsedAreTokens(s: string)
    ensures Tokens(ParseTokens(s))
    decreases |s|
  {
    if s != "" {
      if Delimiter(s[0]) {
        ParsedAreTokens(s[1..]);
      } else {
        WordIsPrefix(s);
        ParsedAreTokens(s[|Word(s)|..]);
      }
    }
  }

  // ---------------------------------------------------------------------------
  // Environments.
  // ---------------------------------------------------------------------------

  datatype Entry = Entry(key: string, value: string)

  function FormatEntries(entries: seq<Entry>): string {
    if entries == [] then ""
    else if |entries| == 1 then entries[0].key + "=" + entries[0].value
    else entries[0].key + "=" + entries[0].value + "\n" + FormatEntries(entries[1..])
  }

  function IndexOf(s: string, c: char): int
    ensures -1 <= IndexOf(s, c) < |s|
  {
    if s == "" then -1
    else if s[0] == c then 0
    else if IndexOf(s[1..], c) < 0 then -1
    else 1 + IndexOf(s[1..], c)
  }

  /** One line; a line without a key gives nothing. */
  function ParseLine(line: string): seq<Entry> {
    var text := Trim(line);
    var at := IndexOf(text, '=');
    if text == "" || at < 1 then []
    else
      var key := Trim(text[..at]);
      if key == "" then [] else [Entry(key, Trim(text[at + 1..]))]
  }

  function ParseLines(lines: seq<string>): seq<Entry> {
    if lines == [] then [] else ParseLine(lines[0]) + ParseLines(lines[1..])
  }

  /** Storing an entry under a key the object already has replaces the value and keeps the place. */
  function Put(entries: seq<Entry>, e: Entry): seq<Entry> {
    if entries == [] then [e]
    else if entries[0].key == e.key then [e] + entries[1..]
    else [entries[0]] + Put(entries[1..], e)
  }

  function FromEntries(entries: seq<Entry>): seq<Entry> {
    if entries == [] then [] else Put(FromEntries(entries[..|entries| - 1]), entries[|entries| - 1])
  }

  /** Lines end at a line feed; a carriage return before it is white space, which trimming removes. */
  function ParseEntries(s: string): seq<Entry> { FromEntries(ParseLines(Split(s, '\n'))) }

  predicate Trimmed(s: string) { Trim(s) == s }

  ghost predicate Free(s: string, c: char) { forall k :: 0 <= k < |s| ==> s[k] != c }

  /** A key and value the line format can carry. */
  ghost predicate Carried(e: Entry) {
    && e.key != "" && Trimmed(e.key) && Trimmed(e.value)
    && Free(e.key, '=') && Free(e.key, '\n') && Free(e.value, '\n')
  }

  lemma {:induction false} SplitAt(a: string, b: string)
    requires Free(a, '\n')
    ensures Split(a + "\n" + b, '\n') == [a] + Split(b, '\n')
    ensures Split(a, '\n') == [a]
  {
    var whole := a + "\n" + b;
    if a == "" {
      assert whole == "\n" + b && whole[1..] == b;
    } else {
      SplitAt(a[1..], b);
      assert whole[1..] == a[1..] + "\n" + b;
      assert a == [a[0]] + a[1..];
    }
  }

  lemma {:induction false} IndexOfSeparator(a: string, b: string)
    requires Free(a, '=')
    ensures IndexOf(a + "=" + b, '=') == |a|
  {
    var whole := a + "=" + b;
    if a != "" {
      assert whole[1..] == a[1..] + "=" + b;
      IndexOfSeparator(a[1..], b);
    }
  }

  lemma TrimEnds(s: string)
    requires s != "" && !White(s[0]) && !White(s[|s| - 1])
    ensures Trimmed(s)
  {
  }

  lemma {:induction false} TrimLeftShorter(s: string)
    ensures |TrimLeft(s)| <= |s|
    ensures |TrimLeft(s)| == |s| ==> TrimLeft(s) == s
    ensures s != "" && White(s[0]) ==> |TrimLeft(s)| < |s|
  {
    if s != "" && White(s[0]) { TrimLeftShorter(s[1..]); }
  }

  lemma {:induction false} TrimRightShorter(s: string)
    ensures |TrimRight(s)| <= |s| && (|TrimRight(s)| == |s| ==> TrimRight(s) == s)
    ensures s != "" && White(s[|s| - 1]) ==> |TrimRight(s)| < |s|
  {
    if s != "" && White(s[|s| - 1]) { TrimRightShorter(s[..|s| - 1]); }
  }

  /** Trimmed text neither starts nor ends with white space. */
  lemma TrimmedEnds(s: string)
    requires Trimmed(s) && s != ""
    ensures !White(s[0]) && !White(s[|s| - 1])
  {
    TrimLeftShorter(s);
    TrimRightShorter(TrimLeft(s));
  }

  lemma LineRoundTrip(e: Entry)
    requires Carried(e)
    ensures ParseLine(e.key + "=" + e.value) == [e]
    ensures Free(e.key + "=" + e.value, '\n')
  {
    var line := e.key + "=" + e.value;
    TrimmedEnds(e.key);
    if e.value != "" { TrimmedEnds(e.value); }
    assert line[0] == e.key[0] && line[|line| - 1] == if e.value == "" then '=' else e.value[|e.value| - 1];
    TrimEnds(line);
    IndexOfSeparator(e.key, e.value);
    assert line[..|e.key|] == e.key && line[|e.key| + 1..] == e.value;
  }

  lemma {:induction false} LinesRoundTrip(entries: seq<Entry>)
    requires forall k :: 0 <= k < |entries| ==> Carried(entries[k])
    ensures ParseLines(Split(FormatEntries(entries), '\n')) == entries
  {
    if entries == [] {
      assert Split("", '\n') == [""] && [""][1..] == [];
    } else {
      var first := entries[0];
      var line := first.key + "=" + first.value;
      LineRoundTrip(first);
      LinesRoundTrip(entries[1..]);
      FirstLine(line, FormatEntries(entries[1..]));
      hide Split, ParseLine, Carried, ParseLines;
      assert entries == [first] + entries[1..];
    }
  }

  lemma FirstLine(line: string, rest: string)
    requires Free(line, '\n')
    ensures ParseLines(Split(line, '\n')) == ParseLine(line)
    ensures ParseLines(Split(line + "\n" + rest, '\n')) == ParseLine(line) + ParseLines(Split(rest, '\n'))
  {
    hide ParseLine, Split;
    SplitAt(line, rest);
    assert [line][1..] == [];
    assert ([line] + Split(rest, '\n'))[1..] == Split(rest, '\n');
  }

  /** The keys of an object are distinct. */
  ghost predicate KeysDistinct(entries: seq<Entry>) {
    forall j, k :: 0 <= j < k < |entries| ==> entries[j].key != entries[k].key
  }

  lemma {:induction false} PutNew(entries: seq<Entry>, e: Entry)
    requires forall k :: 0 <= k < |entries| ==> entries[k].key != e.key
    ensures Put(entries, e) == entries + [e]
  {
    if entries != [] { PutNew(entries[1..], e); }
  }

  lemma {:induction false} FromDistinct(entries: seq<Entry>)
    requires KeysDistinct(entries)
    ensures FromEntries(entries) == entries
  {
    if entries != [] {
      var n := |entries| - 1;
      FromDistinct(entries[..n]);
      PutNew(entries[..n], entries[n]);
    }
  }

  ghost predicate AllCarried(entries: seq<Entry>) { forall k :: 0 <= k < |entries| ==> Carried(entries[k]) }

  lemma {:induction false} PutCarried(entries: seq<Entry>, e: Entry)
    requires AllCarried(entries) && Carried(e)
    ensures AllCarried(Put(entries, e))
  {
    hide Carried;
    if entries != [] { PutCarried(entries[1..], e); }
  }

  lemma {:induction false} FromCarried(entries: seq<Entry>)
    requires AllCarried(entries)
    ensures AllCarried(FromEntries(entries))
  {
    hide Carried;
    if entries != [] {
      var n := |entries| - 1;
      FromCarried(entries[..n]);
      PutCarried(FromEntries(entries[..n]), entries[n]);
    }
  }

  lemma {:induction false} FreeTrim(s: string, c: char)
    requires Free(s, c)
    ensures Free(Trim(s), c) && Trimmed(Trim(s))
  {
    FreeTrimLeft(s, c);
    FreeTrimRight(TrimLeft(s), c);
    if Trim(s) != "" {
      TrimRightStart(TrimLeft(s));
      TrimEnds(Trim(s));
    }
  }

  lemma {:induction false} FreeTrimLeft(s: string, c: char)
    requires Free(s, c)
    ensures Free(TrimLeft(s), c) && (TrimLeft(s) != "" ==> !White(TrimLeft(s)[0]))
  {
    if s != "" && White(s[0]) { FreeTrimLeft(s[1..], c); }
  }

  lemma {:induction false} FreeTrimRight(s: string, c: char)
    requires Free(s, c)
    ensures Free(TrimRight(s), c) && (TrimRight(s) != "" ==> !White(TrimRight(s)[|TrimRight(s)| - 1]))
  {
    if s != "" && White(s[|s| - 1]) { FreeTrimRight(s[..|s| - 1], c); }
  }

  lemma {:induction false} TrimRightStart(s: string)
    requires TrimRight(s) != ""
    ensures s != "" && TrimRight(s)[0] == s[0]
  {
    if White(s[|s| - 1]) { TrimRightStart(s[..|s| - 1]); }
  }

  lemma {:induction false} BeforeSeparator(s: string, c: char)
    requires IndexOf(s, c) >= 0
    ensures Free(s[..IndexOf(s, c)], c)
  {
    if s[0] != c {
      BeforeSeparator(s[1..], c);
      assert s[..IndexOf(s, c)] == [s[0]] + s[1..][..IndexOf(s[1..], c)];
    }
  }

  lemma ParsedLineCarried(line: string)
    requires Free(line, '\n')
    ensures AllCarried(ParseLine(line))
  {
    var text := Trim(line);
    FreeTrim(line, '\n');
    if IndexOf(text, '=') >= 1 {
      hide Trim;
      BeforeSeparator(text, '=');
      var at := IndexOf(text, '=');
      FreeTrim(text[..at], '=');
      FreeTrim(text[..at], '\n');
      FreeTrim(text[at + 1..], '\n');
    }
  }

  lemma {:induction false} PartsFree(s: string)
    ensures forall k :: 0 <= k < |Split(s, '\n')| ==> Free(Split(s, '\n')[k], '\n')
  {
    if s != "" { PartsFree(s[1..]); }
  }

  lemma {:induction false} LinesCarried(lines: seq<string>)
    requires forall k :: 0 <= k < |lines| ==> Free(lines[k], '\n')
    ensures AllCarried(ParseLines(lines))
  {
    hide ParseLine, Carried;
    if lines != [] {
      ParsedLineCarried(lines[0]);
      LinesCarried(lines[1..]);
    }
  }

  /** Whatever the operator typed, what is parsed the line format can carry. */
  lemma ParsedAreCarried(s: string)
    ensures AllCarried(ParseEntries(s))
  {
    PartsFree(s);
    LinesCarried(Split(s, '\n'));
    FromCarried(ParseLines(Split(s, '\n')));
  }

  /** Parsing a printed environment gives it back exactly when the line format can carry its entries. */
  lemma EntriesRoundTripIff(entries: seq<Entry>)
    requires KeysDistinct(entries)
    ensures ParseEntries(FormatEntries(entries)) == entries <==> AllCarried(entries)
  {
    hide Carried;
    ParsedAreCarried(FormatEntries(entries));
    if AllCarried(entries) {
      LinesRoundTrip(entries);
      FromDistinct(entries);
    }
  }

  // ---------------------------------------------------------------------------
  // Seeds.
  // ---------------------------------------------------------------------------

  /** An untouched control keeps the list it was filled from, whatever its entries hold. */
  function TokensFromForm(text: string, seeded: Option<seq<string>>): seq<string> {
    if seeded.Some? && text == JoinTokens(seeded.value) then seeded.value else ParseTokens(text)
  }

  function EntriesFromForm(text: string, seeded: Option<seq<Entry>>): seq<Entry> {
    if seeded.Some? && text == FormatEntries(seeded.value) then seeded.value else ParseEntries(text)
  }
}
