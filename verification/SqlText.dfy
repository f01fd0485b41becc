// The text of the DDL the planner emits (crates/catalerum-api/src/db_migrate.rs), read back by the
// lexical rules of the PostgreSQL documentation, section 4.1 (identifiers: section 4.1.1).

module SqlText {
  import opened Collections

  datatype Index = Index(name: string, columns: seq<string>, unique: bool)

  // ---------- Printing ----------

  function Doubled(s: string): string {
    if s == "" then "" else (if s[0] == '"' then "\"\"" else [s[0]]) + Doubled(s[1..])
  }

  function QuoteIdent(name: string): string {
    "\"" + Doubled(name) + "\""
  }

  function JoinQuoted(names: seq<string>): string {
    if names == [] then ""
    else if |names| == 1 then QuoteIdent(names[0])
    else QuoteIdent(names[0]) + (", " + JoinQuoted(names[1..]))
  }

  /** Words each followed by one space. */
  function Phrase(words: seq<string>): string {
    if words == [] then "" else words[0] + (" " + Phrase(words[1..]))
  }

  function HeadWords(unique: bool): seq<string> {
    if unique then ["CREATE", "UNIQUE", "INDEX", "IF", "NOT", "EXISTS"] else ["CREATE", "INDEX", "IF", "NOT", "EXISTS"]
  }

  function CreateIndexDdl(schema: string, table: string, idx: Index): string {
    Phrase(HeadWords(idx.unique)) + (QuoteIdent(idx.name) + Target(schema, table, idx.columns))
  }

  function Target(schema: string, table: string, columns: seq<string>): string {
    " ON " + (QuoteIdent(schema) + ("." + (QuoteIdent(table) + (" (" + (JoinQuoted(columns) + ")")))))
  }

  // ---------- Lexing ----------

  /** Quoted identifiers are kept apart from words: they are never keywords. */
  datatype Token = Word(text: string) | Ident(name: string) | Mark(c: char)

  predicate IsBlank(c: char) {
    c in " \t\n\r"
  }

  predicate IsWordChar(c: char) {
    'A' <= c <= 'Z' || 'a' <= c <= 'z' || c == '_'
  }

  /** The rest of a quoted identifier, after its opening quote. */
  function ScanQuoted(text: string): (r: Option<(string, string)>)
    ensures r.Some? ==> |r.value.1| < |text|
  {
    if text == "" then None
    else if text[0] == '"' && (|text| == 1 || text[1] != '"') then Some(("", text[1..]))
    else
      var step := if text[0] == '"' then 2 else 1;
      match ScanQuoted(text[step..])
      case None => None
      case Some((name, rest)) => Some(([text[0]] + name, rest))
  }

  function WordLength(text: string): (n: nat)
    ensures n <= |text|
  {
    if text == "" || !IsWordChar(text[0]) then 0 else 1 + WordLength(text[1..])
  }

  function Then(tokens: seq<Token>, rest: Option<seq<Token>>): Option<seq<Token>> {
    match rest case None => None case Some(more) => Some(tokens + more)
  }

  /** An unterminated or zero-length quoted identifier is an error. */
  function Lex(text: string): Option<seq<Token>>
    decreases |text|
  {
    if text == "" then Some([])
    else if IsBlank(text[0]) then Lex(text[1..])
    else if text[0] == '"' then
      match ScanQuoted(text[1..])
      case None => None
      case Some((name, rest)) => if name == "" then None else Then([Ident(name)], Lex(rest))
    else if IsWordChar(text[0]) then Then([Word(text[..WordLength(text)])], Lex(text[WordLength(text)..]))
    else Then([Mark(text[0])], Lex(text[1..]))
  }

  // ---------- Quoting is undone by the lexer ----------

  /** Whatever the name contains, scanning its quoted form stops at its own closing quote. */
  lemma {:induction false} QuotedScans(name: string, rest: string)
    requires rest == "" || rest[0] != '"'
    ensures ScanQuoted(Doubled(name) + ("\"" + rest)) == Some((name, rest))
  {
    var text := Doubled(name) + ("\"" + rest);
    if name == "" {
      assert text == "\"" + rest;
    } else {
      QuotedScans(name[1..], rest);
      var tail := Doubled(name[1..]) + ("\"" + rest);
      if name[0] == '"' {
        assert text[2..] == tail;
      } else {
        assert text[1..] == tail;
      }
      assert [name[0]] + name[1..] == name;
    }
  }

  lemma QuoteLexes(text: string, name: string, rest: string)
    requires text != "" && text[0] == '"' && ScanQuoted(text[1..]) == Some((name, rest))
    ensures Lex(text) == if name == "" then None else Then([Ident(name)], Lex(rest))
  {
  }

  lemma QuotedSplits(name: string, rest: string)
    ensures QuoteIdent(name) + rest == "\"" + (Doubled(name) + ("\"" + rest))
    ensures (QuoteIdent(name) + rest)[0] == '"'
    ensures (QuoteIdent(name) + rest)[1..] == Doubled(name) + ("\"" + rest)
  {
  }

  lemma QuotedLexes(name: string, rest: string)
    requires rest == "" || rest[0] != '"'
    ensures Lex(QuoteIdent(name) + rest) == if name == "" then None else Then([Ident(name)], Lex(rest))
  {
    QuotedScans(name, rest);
    QuotedSplits(name, rest);
    QuoteLexes(QuoteIdent(name) + rest, name, rest);
  }

  /** No two names are quoted alike. */
  lemma QuoteIdentInjective(a: string, b: string)
    requires QuoteIdent(a) == QuoteIdent(b)
    ensures a == b
  {
    QuotedScans(a, "");
    QuotedScans(b, "");
    assert QuoteIdent(a)[1..] == Doubled(a) + ("\"" + "");
    assert QuoteIdent(b)[1..] == Doubled(b) + ("\"" + "");
  }

  // ---------- CREATE INDEX reads back ----------

  datatype IndexStatement = IndexStatement(schema: string, table: string, index: Index)

  function ParseColumns(ts: seq<Token>): Option<seq<string>> {
    if |ts| < 2 || !ts[0].Ident? then None
    else if ts[1] == Mark(')') then if |ts| == 2 then Some([ts[0].name]) else None
    else if ts[1] == Mark(',') then
      match ParseColumns(ts[2..]) case None => None case Some(more) => Some([ts[0].name] + more)
    else None
  }

  function ParseTarget(unique: bool, ts: seq<Token>): Option<IndexStatement> {
    if |ts| < 6 || !ts[0].Ident? || ts[1] != Word("ON") || !ts[2].Ident? || ts[3] != Mark('.')
       || !ts[4].Ident? || ts[5] != Mark('(')
    then None
    else
      match ParseColumns(ts[6..])
      case None => None
      case Some(columns) => Some(IndexStatement(ts[2].name, ts[4].name, Index(ts[0].name, columns, unique)))
  }

  function Plain(): seq<Token> {
    [Word("CREATE"), Word("INDEX"), Word("IF"), Word("NOT"), Word("EXISTS")]
  }

  function Unique(): seq<Token> {
    [Word("CREATE"), Word("UNIQUE"), Word("INDEX"), Word("IF"), Word("NOT"), Word("EXISTS")]
  }

  function ParseCreateIndex(text: string): Option<IndexStatement> {
    match Lex(text)
    case None => None
    case Some(ts) =>
      if Plain() <= ts then ParseTarget(false, ts[|Plain()|..])
      else if Unique() <= ts then ParseTarget(true, ts[|Unique()|..])
      else None
  }

  // The words of the statement.

  predicate IsWord(w: string) {
    w != "" && forall i :: 0 <= i < |w| ==> IsWordChar(w[i])
  }

  lemma {:induction false} WordScans(w: string, rest: string)
    requires forall i :: 0 <= i < |w| ==> IsWordChar(w[i])
    requires rest == "" || !IsWordChar(rest[0])
    ensures WordLength(w + rest) == |w|
  {
    if w == "" {
      assert w + rest == rest;
    } else {
      assert (w + rest)[1..] == w[1..] + rest;
      WordScans(w[1..], rest);
    }
  }

  lemma WordLexes(w: string, rest: string)
    requires IsWord(w) && (rest == "" || !IsWordChar(rest[0]))
    ensures Lex(w + rest) == Then([Word(w)], Lex(rest))
  {
    WordScans(w, rest);
    var text := w + rest;
    assert text[..|w|] == w && text[|w|..] == rest;
    assert IsWordChar(text[0]);
  }

  lemma MarkLexes(c: char, rest: string)
    requires !IsBlank(c) && c != '"' && !IsWordChar(c)
    ensures Lex([c] + rest) == Then([Mark(c)], Lex(rest))
  {
  }

  function Words(words: seq<string>): seq<Token> {
    if words == [] then [] else [Word(words[0])] + Words(words[1..])
  }

  lemma ThenTwice(a: seq<Token>, b: seq<Token>, rest: Option<seq<Token>>)
    ensures Then(a, Then(b, rest)) == Then(a + b, rest)
  {
    if rest.Some? { Associate(a, b, rest.value); }
  }

  lemma {:induction false} PhraseLexes(words: seq<string>, rest: string)
    requires forall w :: w in words ==> IsWord(w)
    ensures Lex(Phrase(words) + rest) == Then(Words(words), Lex(rest))
  {
    if words == [] {
      assert Phrase(words) + rest == rest;
      assert Lex(rest).Some? ==> [] + Lex(rest).value == Lex(rest).value;
    } else {
      var tail := Phrase(words[1..]) + rest;
      assert Phrase(words) + rest == words[0] + (" " + tail);
      WordLexes(words[0], " " + tail);
      PhraseLexes(words[1..], rest);
      ThenTwice([Word(words[0])], Words(words[1..]), Lex(rest));
    }
  }

  // The column list and the whole statement.

  function ColumnTokens(names: seq<string>): seq<Token> {
    if names == [] then []
    else if |names| == 1 then [Ident(names[0])]
    else [Ident(names[0]), Mark(',')] + ColumnTokens(names[1..])
  }

  predicate AllNamed(names: seq<string>) {
    forall n :: n in names ==> n != ""
  }

  lemma NamedFrom(names: seq<string>)
    requires names != []
    ensures AllNamed(names) <==> names[0] != "" && AllNamed(names[1..])
  {
    assert names[0] in names;
    if names[0] != "" && AllNamed(names[1..]) {
      forall n | n in names ensures n != "" {
        assert n == names[0] || n in names[1..];
      }
    }
    if AllNamed(names) {
      forall n | n in names[1..] ensures n != "" {
        assert n in names;
      }
    }
  }

  lemma {:induction false} ColumnsLex(names: seq<string>, rest: string)
    requires rest == "" || rest[0] != '"'
    ensures Lex(JoinQuoted(names) + rest) == if AllNamed(names) then Then(ColumnTokens(names), Lex(rest)) else None
  {
    if names == [] {
      assert JoinQuoted(names) + rest == rest;
      assert Lex(rest).Some? ==> [] + Lex(rest).value == Lex(rest).value;
    } else if |names| == 1 {
      assert names == [names[0]];
      NamedFrom(names);
      assert ColumnTokens(names) == [Ident(names[0])];
      QuotedLexes(names[0], rest);
    } else {
      var tail := JoinQuoted(names[1..]) + rest;
      var after := ", " + tail;
      assert JoinQuoted(names) + rest == QuoteIdent(names[0]) + after;
      assert after[0] == ',';
      QuotedLexes(names[0], after);
      CommaLexes(tail);
      ColumnsLex(names[1..], rest);
      NamedFrom(names);
      ThenTwice([Mark(',')], ColumnTokens(names[1..]), Lex(rest));
      ThenTwice([Ident(names[0])], [Mark(',')] + ColumnTokens(names[1..]), Lex(rest));
      Associate([Ident(names[0])], [Mark(',')], ColumnTokens(names[1..]));
      assert [Ident(names[0])] + [Mark(',')] == [Ident(names[0]), Mark(',')];
    }
  }

  lemma CommaLexes(rest: string)
    ensures Lex(", " + rest) == Then([Mark(',')], Lex(rest))
  {
  }

  lemma {:induction false} ColumnsParse(names: seq<string>)
    ensures ParseColumns(ColumnTokens(names) + [Mark(')')]) == if names == [] then None else Some(names)
  {
    var ts := ColumnTokens(names) + [Mark(')')];
    if |names| > 1 {
      ColumnsParse(names[1..]);
      assert ts[2..] == ColumnTokens(names[1..]) + [Mark(')')];
      assert [names[0]] + names[1..] == names;
    } else if |names| == 1 {
      assert names == [names[0]] && ts == [Ident(names[0]), Mark(')')];
    }
  }

  function TailTokens(schema: string, table: string, columns: seq<string>): seq<Token> {
    [Word("ON")] + ([Ident(schema), Mark('.')] + ([Ident(table), Mark('(')] + (ColumnTokens(columns) + [Mark(')')])))
  }

  lemma CloseLexes(columns: seq<string>)
    ensures Lex(JoinQuoted(columns) + ")") ==
            if AllNamed(columns) then Some(ColumnTokens(columns) + [Mark(')')]) else None
  {
    assert [')'] + "" == ")";
    MarkLexes(')', "");
    assert [Mark(')')] + [] == [Mark(')')];
    ColumnsLex(columns, ")");
  }

  lemma QualifierLexes(name: string, c: char, between: string, rest: string)
    requires c != '"' && between != "" && between[0] != '"'
    requires Lex(between + rest) == Then([Mark(c)], Lex(rest))
    ensures Lex(QuoteIdent(name) + (between + rest)) ==
            if name == "" then None else Then([Ident(name), Mark(c)], Lex(rest))
  {
    assert (between + rest)[0] == between[0];
    QuotedLexes(name, between + rest);
    ThenTwice([Ident(name)], [Mark(c)], Lex(rest));
    assert [Ident(name)] + [Mark(c)] == [Ident(name), Mark(c)];
  }

  /** The text after the index name. */
  lemma TailLexes(schema: string, table: string, columns: seq<string>)
    ensures Lex(Target(schema, table, columns)) ==
            if schema != "" && table != "" && AllNamed(columns) then Some(TailTokens(schema, table, columns)) else None
  {
    var c0 := JoinQuoted(columns) + ")";
    var c2 := QuoteIdent(table) + (" (" + c0);
    var c4 := QuoteIdent(schema) + ("." + c2);
    CloseLexes(columns);
    OpenLexes(c0);
    QualifierLexes(table, '(', " (", c0);
    assert ['.'] + c2 == "." + c2;
    MarkLexes('.', c2);
    QualifierLexes(schema, '.', ".", c2);
    OnLexes(c4);
  }

  lemma OpenLexes(rest: string)
    ensures Lex(" (" + rest) == Then([Mark('(')], Lex(rest))
  {
  }

  lemma OnLexes(rest: string)
    ensures Lex(" ON " + rest) == Then([Word("ON")], Lex(rest))
  {
    assert " ON " + rest == " " + ("ON" + (" " + rest));
    WordLexes("ON", " " + rest);
  }

  lemma HeadTokens(unique: bool)
    ensures Words(HeadWords(unique)) == if unique then Unique() else Plain()
  {
    var tail := ["INDEX", "IF", "NOT", "EXISTS"];
    assert tail[1..] == ["IF", "NOT", "EXISTS"] && tail[1..][1..] == ["NOT", "EXISTS"];
    assert tail[1..][1..][1..] == ["EXISTS"];
    assert Words(tail) == [Word("INDEX"), Word("IF"), Word("NOT"), Word("EXISTS")];
    assert HeadWords(unique)[if unique then 2 else 1..] == tail;
    assert unique ==> HeadWords(unique)[1..][1..] == tail;
  }

  lemma DdlLexes(schema: string, table: string, idx: Index)
    ensures Lex(CreateIndexDdl(schema, table, idx)) ==
            if idx.name != "" && schema != "" && table != "" && AllNamed(idx.columns)
            then Some(Words(HeadWords(idx.unique)) + ([Ident(idx.name)] + TailTokens(schema, table, idx.columns)))
            else None
  {
    TailLexes(schema, table, idx.columns);
    assert Target(schema, table, idx.columns)[0] == ' ';
    QuotedLexes(idx.name, Target(schema, table, idx.columns));
    PhraseLexes(HeadWords(idx.unique), QuoteIdent(idx.name) + Target(schema, table, idx.columns));
  }

  /** What was printed is what is read: the statement lexes and parses back to the same unique
      flag, index, schema, table and columns, exactly when no name is empty and there is a column;
      otherwise it is not a statement at all. */
  lemma CreateIndexRoundTrip(schema: string, table: string, idx: Index)
    ensures ParseCreateIndex(CreateIndexDdl(schema, table, idx)) ==
            if idx.name != "" && schema != "" && table != "" && AllNamed(idx.columns) && idx.columns != []
            then Some(IndexStatement(schema, table, idx))
            else None
  {
    DdlLexes(schema, table, idx);
    var ts := [Ident(idx.name)] + TailTokens(schema, table, idx.columns);
    HeadTokens(idx.unique);
    var all := Words(HeadWords(idx.unique)) + ts;
    assert all[|HeadWords(idx.unique)|..] == ts;
    assert all[1] == if idx.unique then Word("UNIQUE") else Word("INDEX");
    TargetParses(schema, table, idx);
  }

  lemma TargetParses(schema: string, table: string, idx: Index)
    ensures ParseTarget(idx.unique, [Ident(idx.name)] + TailTokens(schema, table, idx.columns)) ==
            if idx.columns != [] then Some(IndexStatement(schema, table, idx)) else None
  {
    var ts := [Ident(idx.name)] + TailTokens(schema, table, idx.columns);
    assert ts[6..] == ColumnTokens(idx.columns) + [Mark(')')];
    ColumnsParse(idx.columns);
  }
}
