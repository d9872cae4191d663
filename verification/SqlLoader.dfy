/**
 The SQL script splitter (framework/database/sql_loader.go:58-174).

 The parser of the source goes over the text once, with a quote character and two comment flags. Its meaning is
 given in two passes that do not know of each other: comments are stripped, then the rest is cut at semicolons.
 */
module SqlLoader {

  /** Go's `unicode.IsSpace`. */
  predicate IsSpace(c: char) {
    var n := c as int;
    || 9 <= n <= 13 || n == 32 || n == 0x85 || n == 0xA0 || n == 0x1680 || 0x2000 <= n <= 0x200A
    || n == 0x2028 || n == 0x2029 || n == 0x202F || n == 0x205F || n == 0x3000
  }

  predicate IsQuote(c: char) {
    c == '\'' || c == '"' || c == '`'
  }

  predicate IsNewline(c: char) {
    c == '\n' || c == '\r'
  }

  predicate Begins(s: string, a: char, b: char) {
    |s| > 1 && s[0] == a && s[1] == b
  }

  const NO_QUOTE := '\0'

  /** Where in a script a character stands. */
  datatype Mode = Code | Quote(quote: char) | LineComment | BlockComment

  /** The script without its comments. A line comment takes its newline with it. */
  function Strip(text: string, m: Mode): string {
    if text == "" then ""
    else
      match m
      case LineComment => Strip(text[1..], if IsNewline(text[0]) then Code else m)
      case BlockComment => if Begins(text, '*', '/') then Strip(text[2..], Code) else Strip(text[1..], m)
      case Code =>
        if Begins(text, '-', '-') then Strip(text[2..], LineComment)
        else if text[0] == '#' then Strip(text[1..], LineComment)
        else if Begins(text, '/', '*') then Strip(text[2..], BlockComment)
        else [text[0]] + Strip(text[1..], if IsQuote(text[0]) then Quote(text[0]) else Code)
      case Quote(q) => [text[0]] + Strip(text[1..], if text[0] == q then Code else m)
  }

  function NextQuote(quote: char, c: char): char {
    if quote == NO_QUOTE then if IsQuote(c) then c else NO_QUOTE
    else if c == quote then NO_QUOTE
    else quote
  }

  function TrimLeft(s: string): (r: string)
    ensures |r| <= |s|
  {
    if s != "" && IsSpace(s[0]) then TrimLeft(s[1..]) else s
  }

  function TrimRight(s: string): (r: string)
    ensures |r| <= |s|
  {
    if s != "" && IsSpace(s[|s| - 1]) then TrimRight(s[..|s| - 1]) else s
  }

  /** The characters that count as space, by their code points. */
  lemma SpaceExactly(c: char)
    ensures IsSpace(c) <==>
      || c in "\t\n\r " || c as int in {0x0B, 0x0C, 0x85, 0xA0, 0x1680, 0x2028, 0x2029, 0x202F, 0x205F, 0x3000}
      || (c as int >= 0x2000 && c as int < 0x200B)
  {
    assert "\t\n\r "[0] as int == 9 && "\t\n\r "[1] as int == 10;
    assert "\t\n\r "[2] as int == 13 && "\t\n\r "[3] as int == 32;
  }

  /** Go's `strings.TrimSpace`. */
  function Trim(s: string): (r: string)
    ensures |r| <= |s|
  {
    TrimRight(TrimLeft(s))
  }

  lemma {:induction false} TrimLeftParts(s: string)
    ensures var n := |TrimLeft(s)|;
      n <= |s| && TrimLeft(s) == s[|s| - n..] && forall i | 0 <= i < |s| - n :: IsSpace(s[i])
    ensures TrimLeft(s) != "" ==> !IsSpace(TrimLeft(s)[0])
  {
    if s != "" && TrimLeft(s) != s {
      TrimLeftParts(s[1..]);
      forall i | 0 <= i < |s| - |TrimLeft(s)| ensures IsSpace(s[i]) {
        assert i > 0 ==> s[i] == s[1..][i - 1];
      }
    }
  }

  lemma {:induction false} TrimRightParts(s: string)
    ensures var n := |TrimRight(s)|;
      n <= |s| && TrimRight(s) == s[..n] && forall i | n <= i < |s| :: IsSpace(s[i])
    ensures TrimRight(s) != "" ==> !IsSpace(TrimRight(s)[|TrimRight(s)| - 1])
  {
    if s != "" && TrimRight(s) != s {
      TrimRightParts(s[..|s| - 1]);
      forall i | |TrimRight(s)| <= i < |s| ensures IsSpace(s[i]) {
        assert i < |s| - 1 ==> s[i] == s[..|s| - 1][i];
      }
    }
  }

  /** What is left of a text has only space around it, and neither begins nor ends with any. */
  lemma TrimmedSpace(s: string) returns (i: nat, j: nat)
    ensures i <= j <= |s| && Trim(s) == s[i..j]
    ensures forall k | 0 <= k < i || j <= k < |s| :: IsSpace(s[k])
    ensures i < j ==> !IsSpace(s[i]) && !IsSpace(s[j - 1])
  {
    hide IsSpace, TrimLeft, TrimRight;
    var left := TrimLeft(s);
    TrimLeftParts(s);
    TrimRightParts(left);
    i := |s| - |left|;
    j := i + |TrimRight(left)|;
    forall k | j <= k < |s| ensures IsSpace(s[k]) {
      assert s[k] == left[k - i];
    }
  }

  function Flush(current: string): seq<string> {
    if Trim(current) == "" then [] else [Trim(current)]
  }

  /** The trimmed, non-empty pieces of `s` between semicolons outside quotes; `current` is what came before `s`. */
  function Cut(s: string, quote: char, current: string): seq<string> {
    if s == "" then Flush(current)
    else
      var q := NextQuote(quote, s[0]);
      if s[0] == ';' && q == NO_QUOTE then Flush(current) + Cut(s[1..], NO_QUOTE, "")
      else Cut(s[1..], q, current + [s[0]])
  }

  function Statements(text: string): seq<string> {
    Cut(Strip(text, Code), NO_QUOTE, "")
  }

  function ModeOf(quote: char): Mode {
    if quote == NO_QUOTE then Code else Quote(quote)
  }

  /** A character outside comments that opens none. */
  lemma PlainCharacter(rest: string, quote: char, current: string)
    requires rest != ""
    requires quote == NO_QUOTE ==> !Begins(rest, '-', '-') && !Begins(rest, '/', '*') && rest[0] != '#'
    ensures
      var q, more := NextQuote(quote, rest[0]), Strip(rest[1..], ModeOf(NextQuote(quote, rest[0])));
      Cut(Strip(rest, ModeOf(quote)), quote, current) ==
        if rest[0] == ';' && q == NO_QUOTE then Flush(current) + Cut(more, NO_QUOTE, "")
          else Cut(more, q, current + [rest[0]])
  {
    assert Strip(rest, ModeOf(quote)) == [rest[0]] + Strip(rest[1..], ModeOf(NextQuote(quote, rest[0])));
  }

  // ---------------------------------------------------------------------------------------------
  // The parser.

  class SqlParser {
    const runes: string
    var pos: nat
    var quoteChar: char
    var inSingleLineComment: bool
    var inMultiLineComment: bool
    var current: string
    var statements: seq<string>

    constructor (sql: string)
      ensures Valid() && runes == sql && pos == 0 && Where() == Code && current == "" && statements == []
    {
      runes := sql;
      pos, quoteChar, inSingleLineComment, inMultiLineComment, current, statements := 0, NO_QUOTE, false, false, "", [];
    }

    ghost predicate Valid()
      reads this
    {
      && pos <= |runes|
      && !(inSingleLineComment && inMultiLineComment)
      && (inSingleLineComment || inMultiLineComment ==> quoteChar == NO_QUOTE)
    }

    ghost function Where(): Mode
      reads this
    {
      if inSingleLineComment then LineComment
      else if inMultiLineComment then BlockComment
      else if quoteChar == NO_QUOTE then Code
      else Quote(quoteChar)
    }

    /** What the parser will have returned at the end, seen from where it is. */
    ghost function Result(): seq<string>
      requires pos <= |runes|
      reads this
    {
      statements + Cut(Strip(runes[pos..], Where()), quoteChar, current)
    }

    function Peek(offset: nat): char
      reads this
    {
      if pos + offset < |runes| then runes[pos + offset] else '\0'
    }

    method ProcessSingleLineComment(r: char) returns (done: bool)
      requires Valid() && pos < |runes| && r == runes[pos]
      modifies this`inSingleLineComment
      ensures Valid() && done == old(inSingleLineComment) && (!done ==> !inSingleLineComment)
      ensures done ==> (inSingleLineComment <==> r != '\n' && r != '\r')
      ensures done ==> Strip(runes[pos..], old(Where())) == Strip(runes[pos + 1..], Where()) && quoteChar == NO_QUOTE
    {
      assert runes[pos..][1..] == runes[pos + 1..];
      if !inSingleLineComment {
        return false;
      }
      if r == '\n' || r == '\r' {
        inSingleLineComment := false;
      }
      done := true;
    }

    method ProcessMultiLineComment(r: char) returns (done: bool)
      requires Valid() && !inSingleLineComment && pos < |runes| && r == runes[pos]
      modifies this`inMultiLineComment, this`pos
      ensures Valid() && old(pos) <= pos < |runes| && done == old(inMultiLineComment)
      ensures !done ==> !inMultiLineComment && pos == old(pos)
      ensures done ==>
        Strip(runes[old(pos)..], old(Where())) == Strip(runes[pos + 1..], Where()) && quoteChar == NO_QUOTE
    {
      assert runes[pos..][1..] == runes[pos + 1..];
      if !inMultiLineComment {
        return false;
      }
      if r == '*' && Peek(1) == '/' {
        assert Begins(runes[pos..], '*', '/') && runes[pos..][2..] == runes[pos + 2..];
        inMultiLineComment := false;
        pos := pos + 1;
      }
      done := true;
    }

    method TryStartComment(r: char) returns (done: bool)
      requires Valid() && !inSingleLineComment && !inMultiLineComment && pos < |runes| && r == runes[pos]
      modifies this`inSingleLineComment, this`inMultiLineComment, this`pos
      ensures Valid() && old(pos) <= pos < |runes|
      ensures !done ==> pos == old(pos) && !inSingleLineComment && !inMultiLineComment
      ensures !done && quoteChar == NO_QUOTE ==>
        !Begins(runes[pos..], '-', '-') && !Begins(runes[pos..], '/', '*') && r != '#'
      ensures done ==> Strip(runes[old(pos)..], Code) == Strip(runes[pos + 1..], Where()) && quoteChar == NO_QUOTE
    {
      if quoteChar != NO_QUOTE {
        return false;
      }
      var rest := runes[pos..];
      if r == '-' && Peek(1) == '-' {
        inSingleLineComment := true;
        pos := pos + 1;
        assert Begins(rest, '-', '-') && rest[2..] == runes[pos + 1..];
        return true;
      }
      if r == '#' {
        inSingleLineComment := true;
        assert !Begins(rest, '-', '-') && rest[1..] == runes[pos + 1..];
        return true;
      }
      if r == '/' && Peek(1) == '*' {
        inMultiLineComment := true;
        pos := pos + 1;
        assert Begins(rest, '/', '*') && rest[2..] == runes[pos + 1..];
        return true;
      }
      done := false;
    }

    method UpdateQuoteState(r: char)
      modifies this`quoteChar
      ensures quoteChar == NextQuote(old(quoteChar), r)
      ensures old(quoteChar) == '\0' ==> quoteChar == if r == '\'' || r == '"' || r == '`' then r else '\0'
      ensures old(quoteChar) != '\0' ==> quoteChar == if r == old(quoteChar) then '\0' else old(quoteChar)
    {
      if quoteChar == NO_QUOTE {
        if r == '\'' || r == '"' || r == '`' {
          quoteChar := r;
        }
        return;
      }
      if r == quoteChar {
        quoteChar := NO_QUOTE;
      }
    }

    method FlushCurrent()
      modifies this`statements, this`current
      ensures statements == old(statements) + Flush(old(current)) && current == ""
    {
      var stmt := Trim(current);
      if stmt != "" {
        statements := statements + [stmt];
      }
      current := "";
    }

    method HandleSemicolon(r: char) returns (done: bool)
      modifies this`statements, this`current
      ensures done <==> r == ';' && quoteChar == NO_QUOTE
      ensures done ==> statements == old(statements) + Flush(old(current)) && current == ""
      ensures !done ==> statements == old(statements) && current == old(current)
    {
      if r != ';' || quoteChar != NO_QUOTE {
        return false;
      }
      FlushCurrent();
      done := true;
    }

    /** One round of the loop: the result seen from the next position is the result seen from this one. */
    method Step()
      requires Valid() && pos < |runes|
      modifies this
      ensures Valid() && pos > old(pos) && Result() == old(Result())
    {
      hide Strip, Cut, NextQuote, Flush;
      var r := runes[pos];
      var done := ProcessSingleLineComment(r);
      if !done {
        done := ProcessMultiLineComment(r);
      }
      if !done {
        done := TryStartComment(r);
      }
      if done {
        pos := pos + 1;
        return;
      }
      assert runes[pos..][1..] == runes[pos + 1..];
      PlainCharacter(runes[pos..], quoteChar, current);
      UpdateQuoteState(r);
      done := HandleSemicolon(r);
      if !done {
        current := current + [r];
      }
      pos := pos + 1;
    }

    method Parse() returns (result: seq<string>)
      requires Valid()
      modifies this
      ensures result == old(Result())
    {
      while pos < |runes|
        invariant Valid() && Result() == old(Result())
        decreases |runes| - pos
      {
        Step();
      }
      assert runes[pos..] == "";
      FlushCurrent();
      result := statements;
    }
  }

  /** `ParseSQL`: one pass over the text yields what stripping the comments and then cutting yields. */
  method ParseSQL(sql: string) returns (result: seq<string>)
    ensures result == Statements(sql)
  {
    var p := new SqlParser(sql);
    assert p.runes[0..] == sql;
    result := p.Parse();
  }

  // ---------------------------------------------------------------------------------------------
  // Printing and parsing back.

  /** A comment; a line comment is printed with the newline that ends it. */
  datatype Comment = Dashes(body: string, newline: char) | Hash(body: string, newline: char) | Block(body: string)

  predicate CommentOk(c: Comment) {
    match c
    case Dashes(body, newline) => newline in "\n\r" && forall i | 0 <= i < |body| :: body[i] !in "\n\r"
    case Hash(body, newline) => newline in "\n\r" && forall i | 0 <= i < |body| :: body[i] !in "\n\r"
    case Block(body) => forall i | 0 <= i < |body| :: !Begins(body[i..], '*', '/')
  }

  function CommentText(c: Comment): string {
    match c
    case Dashes(body, newline) => "--" + body + [newline]
    case Hash(body, newline) => "#" + body + [newline]
    case Block(body) => "/*" + body + "*/"
  }

  function CommentsText(cs: seq<Comment>): string {
    if cs == [] then "" else CommentText(cs[0]) + CommentsText(cs[1..])
  }

  predicate CommentsOk(cs: seq<Comment>) {
    forall i | 0 <= i < |cs| :: CommentOk(cs[i])
  }

  /**
   From inside `quote`: quotes are closed in the end, and outside them there is no semicolon and no comment
   opener.
   */
  predicate Closed(s: string, quote: char) {
    if s == "" then quote == NO_QUOTE
    else
      && (quote == NO_QUOTE ==> !Begins(s, '-', '-') && !Begins(s, '/', '*') && s[0] != '#' && s[0] != ';')
      && Closed(s[1..], NextQuote(quote, s[0]))
  }

  predicate WellFormed(s: string) {
    s != "" && Trim(s) == s && Closed(s, NO_QUOTE)
  }

  datatype Item = Item(comments: seq<Comment>, statement: string)

  predicate ItemOk(i: Item) {
    CommentsOk(i.comments) && WellFormed(i.statement)
  }

  /** Statements joined with ';', comments before each, and possibly a last ';' with comments after it. */
  function Print(items: seq<Item>, closed: bool, tail: seq<Comment>): string {
    if items == [] then ""
    else
      CommentsText(items[0].comments) + (items[0].statement +
      if |items| > 1 then ";" + Print(items[1..], closed, tail) else if closed then ";" + CommentsText(tail) else "")
  }

  function StatementsOf(items: seq<Item>): seq<string> {
    if items == [] then [] else [items[0].statement] + StatementsOf(items[1..])
  }

  lemma {:induction false} LineStripped(body: string, newline: char, rest: string)
    requires newline in "\n\r" && forall i | 0 <= i < |body| :: body[i] !in "\n\r"
    ensures Strip(body + [newline] + rest, LineComment) == Strip(rest, Code)
  {
    var text := body + [newline] + rest;
    if body == "" {
      assert text[1..] == rest;
    } else {
      assert text[1..] == body[1..] + [newline] + rest;
      LineStripped(body[1..], newline, rest);
    }
  }

  lemma {:induction false} BlockStripped(body: string, rest: string)
    requires forall i | 0 <= i < |body| :: !Begins(body[i..], '*', '/')
    ensures Strip(body + "*/" + rest, BlockComment) == Strip(rest, Code)
  {
    var text := body + "*/" + rest;
    if body == "" {
      assert text[2..] == rest;
    } else {
      assert text[1..] == body[1..] + "*/" + rest;
      forall i | 0 <= i < |body[1..]| ensures !Begins(body[1..][i..], '*', '/') {
        assert body[1..][i..] == body[i + 1..];
      }
      assert !Begins(text, '*', '/') by {
        assert body[0..] == body;
        assert |body| > 1 && body[0] == '*' && body[1] == '/' ==> Begins(body, '*', '/');
        assert text[0] == body[0] && text[1] == if |body| > 1 then body[1] else '*';
      }
      BlockStripped(body[1..], rest);
    }
  }

  /** A comment in code, whatever follows, might as well not be there. */
  lemma CommentStripped(c: Comment, rest: string)
    requires CommentOk(c)
    ensures Strip(CommentText(c) + rest, Code) == Strip(rest, Code)
  {
    var text := CommentText(c) + rest;
    match c
    case Dashes(body, newline) => DashesStripped(body, newline, rest);
    case Hash(body, newline) =>
      assert text[0] == '#' && text[1..] == body + [newline] + rest;
      LineStripped(body, newline, rest);
    case Block(body) => BlockOpened(body, rest);
  }

  lemma DashesStripped(body: string, newline: char, rest: string)
    requires newline in "\n\r" && forall i | 0 <= i < |body| :: body[i] !in "\n\r"
    ensures Strip("--" + body + [newline] + rest, Code) == Strip(rest, Code)
  {
    var text := "--" + body + [newline] + rest;
    assert Begins(text, '-', '-') && text[2..] == body + [newline] + rest;
    LineStripped(body, newline, rest);
  }

  lemma BlockOpened(body: string, rest: string)
    requires forall i | 0 <= i < |body| :: !Begins(body[i..], '*', '/')
    ensures Strip("/*" + body + "*/" + rest, Code) == Strip(rest, Code)
  {
    var text := "/*" + body + "*/" + rest;
    assert Begins(text, '/', '*') && text[0] == '/' && text[2..] == body + "*/" + rest;
    BlockStripped(body, rest);
  }

  lemma {:induction false} CommentsStripped(cs: seq<Comment>, rest: string)
    requires CommentsOk(cs)
    ensures Strip(CommentsText(cs) + rest, Code) == Strip(rest, Code)
  {
    if cs == [] {
      assert CommentsText(cs) + rest == rest;
    } else {
      assert CommentsText(cs) + rest == CommentText(cs[0]) + (CommentsText(cs[1..]) + rest);
      CommentStripped(cs[0], CommentsText(cs[1..]) + rest);
      CommentsStripped(cs[1..], rest);
    }
  }

  lemma OpensNone(s: string, rest: string)
    requires s != "" && (rest == "" || rest[0] == ';')
    ensures Begins(s + rest, '-', '-') ==> Begins(s, '-', '-')
    ensures Begins(s + rest, '/', '*') ==> Begins(s, '/', '*')
  {
  }

  lemma {:induction false} ClosedKept(s: string, quote: char, rest: string)
    requires Closed(s, quote) && (rest == "" || rest[0] == ';')
    ensures Strip(s + rest, ModeOf(quote)) == s + Strip(rest, Code)
  {
    if s == "" {
      assert s + rest == rest;
    } else {
      assert (s + rest)[1..] == s[1..] + rest && (s + rest)[0] == s[0];
      OpensNone(s, rest);
      ClosedKept(s[1..], NextQuote(quote, s[0]), rest);
    }
  }

  lemma {:induction false} ClosedNotCut(s: string, quote: char, current: string, rest: string)
    requires Closed(s, quote) && (quote == NO_QUOTE || IsQuote(quote))
    ensures Cut(s + rest, quote, current) == Cut(rest, NO_QUOTE, current + s)
  {
    if s == "" {
      assert s + rest == rest && current + s == current;
    } else {
      assert (s + rest)[1..] == s[1..] + rest;
      assert current + [s[0]] + s[1..] == current + s;
      ClosedNotCut(s[1..], NextQuote(quote, s[0]), current + [s[0]], rest);
    }
  }

  /** One statement, parsed together with what follows it. */
  lemma StatementParsed(comments: seq<Comment>, s: string, rest: string)
    requires CommentsOk(comments) && WellFormed(s) && (rest == "" || rest[0] == ';')
    ensures Statements(CommentsText(comments) + (s + rest)) == [s] + if rest == "" then [] else Statements(rest[1..])
  {
    hide Strip, Cut, Closed, Trim, CommentsText, CommentsOk;
    CommentsStripped(comments, s + rest);
    ClosedKept(s, NO_QUOTE, rest);
    ClosedNotCut(s, NO_QUOTE, "", Strip(rest, Code));
    assert "" + s == s;
    CutAfter(s, rest);
  }

  /** At the end of a statement, and there only, it is flushed. */
  lemma CutAfter(s: string, rest: string)
    requires s != "" && Trim(s) == s && (rest == "" || rest[0] == ';')
    ensures Cut(Strip(rest, Code), NO_QUOTE, s) == [s] + if rest == "" then [] else Statements(rest[1..])
  {
    hide Trim;
    if rest != "" {
      assert Strip(rest, Code) == [';'] + Strip(rest[1..], Code);
    }
  }

  /**
   Printing, then parsing: the statements come back as they were, whatever comments stand before them and after
   the last separator.
   */
  lemma {:induction false} ParsePrint(items: seq<Item>, closed: bool, tail: seq<Comment>)
    requires (forall i | 0 <= i < |items| :: ItemOk(items[i])) && CommentsOk(tail)
    ensures Statements(Print(items, closed, tail)) == StatementsOf(items)
  {
    if items != [] {
      var rest := if |items| > 1 then ";" + Print(items[1..], closed, tail)
        else if closed then ";" + CommentsText(tail) else "";
      StatementParsed(items[0].comments, items[0].statement, rest);
      if |items| > 1 {
        assert rest[1..] == Print(items[1..], closed, tail);
        ParsePrint(items[1..], closed, tail);
      } else if closed {
        assert rest[1..] == CommentsText(tail) + "";
        CommentsStripped(tail, "");
      }
    }
  }

  // ---------------------------------------------------------------------------------------------
  // What comes out of the parser.

  /** Reading `s` from inside `quote` meets no semicolon outside quotes. */
  predicate NoCut(s: string, quote: char) {
    s != "" ==>
      && !(s[0] == ';' && NextQuote(quote, s[0]) == NO_QUOTE)
      && NoCut(s[1..], NextQuote(quote, s[0]))
  }

  function EndQuote(s: string, quote: char): char {
    if s == "" then quote else EndQuote(s[1..], NextQuote(quote, s[0]))
  }

  lemma {:induction false} NoCutConcat(a: string, b: string, quote: char)
    ensures NoCut(a + b, quote) <==> NoCut(a, quote) && NoCut(b, EndQuote(a, quote))
    ensures EndQuote(a + b, quote) == EndQuote(b, EndQuote(a, quote))
  {
    if a == "" {
      assert a + b == b;
    } else {
      assert (a + b)[1..] == a[1..] + b;
      NoCutConcat(a[1..], b, NextQuote(quote, a[0]));
    }
  }

  lemma {:induction false} NoCutWhole(s: string, quote: char, current: string)
    requires NoCut(s, quote)
    ensures Cut(s, quote, current) == Flush(current + s)
  {
    if s == "" {
      assert current + s == current;
    } else {
      assert current + [s[0]] + s[1..] == current + s;
      NoCutWhole(s[1..], NextQuote(quote, s[0]), current + [s[0]]);
    }
  }

  lemma {:induction false} TrimLeftFacts(s: string)
    requires NoCut(s, NO_QUOTE)
    ensures NoCut(TrimLeft(s), NO_QUOTE) && TrimLeft(TrimLeft(s)) == TrimLeft(s)
  {
    if s != "" && IsSpace(s[0]) {
      TrimLeftFacts(s[1..]);
    }
  }

  lemma {:induction false} TrimRightFacts(s: string)
    requires NoCut(s, NO_QUOTE) && TrimLeft(s) == s
    ensures NoCut(TrimRight(s), NO_QUOTE) && TrimRight(TrimRight(s)) == TrimRight(s)
      && TrimLeft(TrimRight(s)) == TrimRight(s)
  {
    if s != "" && IsSpace(s[|s| - 1]) {
      var front := s[..|s| - 1];
      assert s == front + [s[|s| - 1]];
      NoCutConcat(front, [s[|s| - 1]], NO_QUOTE);
      TrimRightFacts(front);
    }
  }

  /** Every statement that comes out is trimmed, not empty, and holds no semicolon outside quotes. */
  lemma {:induction false} CutWhole(s: string, quote: char, current: string, i: nat)
    requires NoCut(current, NO_QUOTE) && EndQuote(current, NO_QUOTE) == quote && i < |Cut(s, quote, current)|
    ensures var p := Cut(s, quote, current)[i];
      p != "" && Trim(p) == p && NoCut(p, NO_QUOTE) && Cut(p, NO_QUOTE, "") == [p]
  {
    if s == "" || (s[0] == ';' && NextQuote(quote, s[0]) == NO_QUOTE) {
      if i < |Flush(current)| {
        TrimLeftFacts(current);
        TrimRightFacts(TrimLeft(current));
        NoCutWhole(Trim(current), NO_QUOTE, "");
        assert "" + Trim(current) == Trim(current);
      } else {
        CutWhole(s[1..], NO_QUOTE, "", i - |Flush(current)|);
      }
    } else {
      NoCutConcat(current, [s[0]], NO_QUOTE);
      CutWhole(s[1..], NextQuote(quote, s[0]), current + [s[0]], i);
    }
  }

  lemma {:induction false} StripShrinks(s: string, m: Mode)
    ensures |Strip(s, m)| <= |s| && (|Strip(s, m)| == |s| ==> Strip(s, m) == s)
    decreases |s|, 1
  {
    hide Begins;
    if s != "" {
      match m
      case LineComment => StripShrinks(s[1..], if IsNewline(s[0]) then Code else m);
      case BlockComment =>
        if Begins(s, '*', '/') {
          BeginsTwo(s, '*', '/');
          StripShrinks(s[2..], Code);
        } else {
          StripShrinks(s[1..], m);
        }
      case Code => CodeShrinks(s);
      case Quote(q) =>
        StripShrinks(s[1..], if s[0] == q then Code else m);
        KeptFirst(s, Strip(s[1..], if s[0] == q then Code else m));
    }
  }

  lemma {:induction false} CodeShrinks(s: string)
    requires s != ""
    ensures |Strip(s, Code)| <= |s| && (|Strip(s, Code)| == |s| ==> Strip(s, Code) == s)
    decreases |s|, 0
  {
    hide Begins;
    if Begins(s, '-', '-') {
      BeginsTwo(s, '-', '-');
      StripShrinks(s[2..], LineComment);
    } else if s[0] == '#' {
      StripShrinks(s[1..], LineComment);
    } else if Begins(s, '/', '*') {
      BeginsTwo(s, '/', '*');
      StripShrinks(s[2..], BlockComment);
    } else {
      var next := if IsQuote(s[0]) then Quote(s[0]) else Code;
      StripShrinks(s[1..], next);
      KeptFirst(s, Strip(s[1..], next));
    }
  }

  lemma BeginsTwo(s: string, a: char, b: char)
    requires Begins(s, a, b)
    ensures |s| > 1
  {
  }

  lemma KeptFirst(s: string, rest: string)
    requires s != "" && |rest| < |s| && (|rest| == |s| - 1 ==> rest == s[1..])
    ensures |[s[0]] + rest| == |s| ==> [s[0]] + rest == s
  {
  }

  /** No statement is longer than the text it was cut from. */
  lemma {:induction false} PiecesShrink(s: string, quote: char, current: string, i: nat)
    requires i < |Cut(s, quote, current)|
    ensures |Cut(s, quote, current)[i]| <= |current| + |s|
  {
    if s == "" {
    } else if s[0] == ';' && NextQuote(quote, s[0]) == NO_QUOTE {
      if i >= |Flush(current)| {
        PiecesShrink(s[1..], NO_QUOTE, "", i - |Flush(current)|);
      }
    } else {
      PiecesShrink(s[1..], NextQuote(quote, s[0]), current + [s[0]], i);
    }
  }

  /** Parsing a statement that came out of the parser gives it back if and only if it reads as free of comments. */
  lemma ReparsesExactly(sql: string, i: nat)
    requires i < |Statements(sql)|
    ensures var p := Statements(sql)[i];
      && p != "" && Trim(p) == p && NoCut(p, NO_QUOTE)
      && (Statements(p) == [p] <==> Strip(p, Code) == p)
  {
    var p := Statements(sql)[i];
    CutWhole(Strip(sql, Code), NO_QUOTE, "", i);
    if Statements(p) == [p] {
      PiecesShrink(Strip(p, Code), NO_QUOTE, "", 0);
      StripShrinks(p, Code);
    }
  }

  lemma OneDash(rest: string)
    requires rest == "" || rest[0] != '-'
    ensures Strip("-" + rest, Code) == "-" + Strip(rest, Code)
  {
    var t := "-" + rest;
    assert t[1..] == rest && !Begins(t, '-', '-');
  }

  lemma TwoDashes()
    ensures Cut("--", NO_QUOTE, "") == ["--"] && Statements("--") == []
  {
    NoCutWhole("--", NO_QUOTE, "");
    assert "" + "--" == "--" && "--"[2..] == "";
  }

  /** Taking a comment out can leave the opener of another. */
  lemma CommentLeftBehind()
    ensures Statements("-/**/-") == ["--"] && Statements("--") == []
  {
    hide Cut;
    OneDash("");
    BlockOpened("", "-");
    assert "-" + "" == "-" && "/*" + "" + "*/" + "-" == "/**/-" && "-" + "-" == "--" && "-" + "/**/-" == "-/**/-";
    assert Strip("", Code) == "";
    OneDash("/**/-");
    TwoDashes();
  }
}
