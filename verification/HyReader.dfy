/** The S-expression reader for Hy sources.  Offsets are character indices; `InBytes` gives the byte
    offsets they stand for. */
module HyReader {

  // ---- Trees ---------------------------------------------------------------

  /** `List`, `Vector`, `Dict`, `Tuple` */
  datatype Bracket = Round | Square | Curly | HashRound

  datatype Mark = Quote | Quasiquote | Unquote | UnquoteSplice

  datatype AtomKind = Symbol | Keyword | Str | Number

  datatype SExpr =
    | Group(br: Bracket, items: seq<SExpr>, start: nat, end: nat)
    | Marked(mark: Mark, inner: SExpr, start: nat, end: nat)
    | Atom(kind: AtomKind, text: string, start: nat, end: nat)

  datatype ParseError =
    | UnexpectedEnd(offset: nat)
    | Unclosed(br: Bracket, offset: nat)
    | UnterminatedString(offset: nat)
    | UnterminatedEscape(offset: nat)
    | UnexpectedCharacter(offset: nat)

  datatype Read = Ok(expr: SExpr, pos: nat) | Err(error: ParseError)

  // ---- Characters ----------------------------------------------------------

  /** Unicode `White_Space` */
  predicate IsWhitespace(c: char) {
    var n := c as int;
    || 0x9 <= n <= 0xD || n == 0x20 || n == 0x85 || n == 0xA0 || n == 0x1680 || 0x2000 <= n <= 0x200A
    || n == 0x2028 || n == 0x2029 || n == 0x202F || n == 0x205F || n == 0x3000
  }

  predicate IsDigit(c: char) { '0' <= c <= '9' }

  /** What ends a symbol, a keyword or a number. */
  predicate EndsIdent(c: char) {
    || IsWhitespace(c) || c == '(' || c == ')' || c == '[' || c == ']' || c == '{' || c == '}'
    || c == '"' || c == ';' || c == ',' || c == '`' || c == '~'
  }

  function Open(br: Bracket): string {
    match br
    case Round => "("
    case Square => "["
    case Curly => "{"
    case HashRound => "#("
  }

  function Close(br: Bracket): char {
    match br
    case Round => ')'
    case Square => ']'
    case Curly => '}'
    case HashRound => ')'
  }

  // ---- Reading -------------------------------------------------------------

  function LineEnd(s: string, pos: nat): (r: nat)
    requires pos <= |s|
    ensures pos <= r <= |s|
    decreases |s| - pos
  {
    if pos == |s| then pos else if s[pos] == '\n' then pos + 1 else LineEnd(s, pos + 1)
  }

  /** `skip_whitespace_and_comments` */
  function SkipBlank(s: string, pos: nat): (r: nat)
    requires pos <= |s|
    ensures pos <= r <= |s|
    ensures r < |s| ==> !IsWhitespace(s[r]) && s[r] != ';'
    decreases |s| - pos
  {
    if pos < |s| && IsWhitespace(s[pos]) then SkipBlank(s, pos + 1)
    else if pos < |s| && s[pos] == ';' then SkipBlank(s, LineEnd(s, pos + 1))
    else pos
  }

  /** `consume_ident_chars` */
  function IdentEnd(s: string, pos: nat): (r: nat)
    requires pos <= |s|
    ensures pos <= r <= |s|
    ensures forall i :: pos <= i < r ==> !EndsIdent(s[i])
    ensures r < |s| ==> EndsIdent(s[r])
    decreases |s| - pos
  {
    if pos < |s| && !EndsIdent(s[pos]) then IdentEnd(s, pos + 1) else pos
  }

  /** What a backslash followed by `c` stands for; unknown escapes keep their backslash. */
  function Unescaped(c: char): string {
    match c
    case 'n' => "\n"
    case 't' => "\t"
    case '\\' => "\\"
    case '"' => "\""
    case _ => ['\\', c]
  }

  /** The loop of `read_string`, which started at `start`. */
  function ReadString(s: string, pos: nat, start: nat, text: string): (r: Read)
    requires start < pos <= |s|
    ensures r.Ok? ==> pos < r.pos <= |s|
    decreases |s| - pos
  {
    if pos == |s| then Err(UnterminatedString(start))
    else if s[pos] == '\\' then
      if pos + 1 == |s| then Err(UnterminatedEscape(|s|))
      else ReadString(s, pos + 2, start, text + Unescaped(s[pos + 1]))
    else if s[pos] == '"' then Ok(Atom(Str, text, start, pos + 1), pos + 1)
    else ReadString(s, pos + 1, start, text + [s[pos]])
  }

  /** `read_symbol_from`, with the reader at `pos` */
  function ReadSymbol(s: string, pos: nat, start: nat): (r: Read)
    requires start <= pos <= |s|
    ensures r.Ok? ==> start < r.pos && pos <= r.pos <= |s|
  {
    var end := IdentEnd(s, pos);
    if end == start then Err(UnexpectedCharacter(end)) else Ok(Atom(Symbol, s[start..end], start, end), end)
  }

  predicate StartsNumber(s: string, pos: nat)
    requires pos < |s|
  {
    if s[pos] == '+' || s[pos] == '-' then pos + 1 < |s| && IsDigit(s[pos + 1]) else IsDigit(s[pos])
  }

  /** `read_number_or_symbol` */
  function ReadNumberOrSymbol(s: string, start: nat): (r: Read)
    requires start < |s|
    ensures r.Ok? ==> start < r.pos <= |s|
  {
    if StartsNumber(s, start) then
      var end := IdentEnd(s, start);
      Ok(Atom(Number, s[start..end], start, end), end)
    else ReadSymbol(s, start, start)
  }

  function ReadKeyword(s: string, start: nat): (r: Read)
    requires start < |s|
    ensures r.Ok? && start < r.pos <= |s|
  {
    var end := IdentEnd(s, start + 1);
    Ok(Atom(Keyword, s[start + 1..end], start, end), end)
  }

  function ReadMarked(s: string, pos: nat, start: nat, mark: Mark): (r: Read)
    requires start < pos <= |s|
    ensures r.Ok? ==> pos < r.pos <= |s|
    decreases |s| - pos, 2
  {
    match ReadExpr(s, pos)
    case Ok(inner, p) => Ok(Marked(mark, inner, start, inner.end), p)
    case Err(error) => Err(error)
  }

  /** `read_expr`, having skipped to `start` */
  function ReadFrom(s: string, start: nat): (r: Read)
    requires start < |s|
    ensures r.Ok? ==> start < r.pos <= |s|
    decreases |s| - start, 0
  {
    match s[start]
    case '(' => ReadItems(s, start + 1, Round, start, [])
    case '[' => ReadItems(s, start + 1, Square, start, [])
    case '{' => ReadItems(s, start + 1, Curly, start, [])
    case '#' =>
      if start + 1 < |s| && s[start + 1] == '(' then ReadItems(s, start + 2, HashRound, start, [])
      else ReadSymbol(s, start + 1, start)
    case '"' => ReadString(s, start + 1, start, [])
    case '\'' => ReadMarked(s, start + 1, start, Quote)
    case '`' => ReadMarked(s, start + 1, start, Quasiquote)
    case '~' =>
      if start + 1 < |s| && s[start + 1] == '@' then ReadMarked(s, start + 2, start, UnquoteSplice)
      else ReadMarked(s, start + 1, start, Unquote)
    case ':' => ReadKeyword(s, start)
    case c => if c == '-' || c == '+' || IsDigit(c) then ReadNumberOrSymbol(s, start) else ReadSymbol(s, start, start)
  }

  function ReadExpr(s: string, pos: nat): (r: Read)
    requires pos <= |s|
    ensures r.Ok? ==> pos < r.pos <= |s|
    decreases |s| - pos, 1
  {
    var start := SkipBlank(s, pos);
    if start == |s| then Err(UnexpectedEnd(start)) else ReadFrom(s, start)
  }

  /** The loop of `read_delimited`, which started at `start`. */
  function ReadItems(s: string, pos: nat, br: Bracket, start: nat, items: seq<SExpr>): (r: Read)
    requires start < pos <= |s|
    ensures r.Ok? ==> pos < r.pos <= |s|
    decreases |s| - pos, 2
  {
    var p := SkipBlank(s, pos);
    if p == |s| then Err(Unclosed(br, start))
    else if s[p] == Close(br) then Ok(Group(br, items, start, p + 1), p + 1)
    else
      match ReadExpr(s, p)
      case Ok(e, p1) => ReadItems(s, p1, br, start, items + [e])
      case Err(error) => Err(error)
  }

  datatype Parsed = Parsed(exprs: seq<SExpr>) | NotParsed(error: ParseError)

  /** The loop of `parse_hy`. */
  function ParseFrom(s: string, pos: nat, exprs: seq<SExpr>): Parsed
    requires pos <= |s|
    decreases |s| - pos
  {
    var p := SkipBlank(s, pos);
    if p == |s| then Parsed(exprs)
    else
      match ReadExpr(s, p)
      case Ok(e, p1) => ParseFrom(s, p1, exprs + [e])
      case Err(error) => NotParsed(error)
  }

  // ---- Spans ---------------------------------------------------------------

  /** Spans nest: children are inside their parent, in order, and do not overlap. */
  predicate SpansNest(e: SExpr)
    decreases e, 0
  {
    e.start < e.end
    && match e
       case Group(_, items, start, end) => SpansLineUp(items, start + 1, end - 1)
       case Marked(_, inner, start, end) => start < inner.start && inner.end == end && SpansNest(inner)
       case Atom(_, _, _, _) => true
  }

  predicate SpansLineUp(items: seq<SExpr>, from: int, to: int)
    decreases items, 1
  {
    if items == [] then from <= to
    else from <= items[0].start && SpansNest(items[0]) && SpansLineUp(items[1..], items[0].end, to)
  }

  lemma {:induction false} LineUpOneMore(items: seq<SExpr>, from: int, to: int, e: SExpr, to': int)
    requires SpansLineUp(items, from, to) && SpansNest(e) && to <= e.start && e.end <= to'
    ensures SpansLineUp(items + [e], from, to')
  {
    if items == [] {
      assert [e][1..] == [];
    } else {
      assert (items + [e])[1..] == items[1..] + [e];
      LineUpOneMore(items[1..], items[0].end, to, e, to');
    }
  }

  lemma {:induction false} LineUpWider(items: seq<SExpr>, from: int, to: int, to': int)
    requires SpansLineUp(items, from, to) && to <= to'
    ensures SpansLineUp(items, from, to')
  {
    if items != [] {
      LineUpWider(items[1..], items[0].end, to, to');
    }
  }

  lemma {:induction false} SpansNestFrom(s: string, start: nat)
    requires start < |s| && ReadFrom(s, start).Ok?
    ensures var r := ReadFrom(s, start); SpansNest(r.expr) && r.expr.start == start && r.expr.end == r.pos
    decreases |s| - start, 0
  {
    match s[start]
    case '(' => ItemSpansNest(s, start + 1, Round, start, []);
    case '[' => ItemSpansNest(s, start + 1, Square, start, []);
    case '{' => ItemSpansNest(s, start + 1, Curly, start, []);
    case '#' => if start + 1 < |s| && s[start + 1] == '(' { ItemSpansNest(s, start + 2, HashRound, start, []); }
    case '"' => StringSpan(s, start + 1, start, []);
    case '\'' => ReadSpansNest(s, start + 1);
    case '`' => ReadSpansNest(s, start + 1);
    case '~' => ReadSpansNest(s, if start + 1 < |s| && s[start + 1] == '@' then start + 2 else start + 1);
    case _ =>
  }

  /** Every successful read returns nested spans between where it started and where it stopped. */
  lemma {:induction false} ReadSpansNest(s: string, pos: nat)
    requires pos <= |s| && ReadExpr(s, pos).Ok?
    ensures var r := ReadExpr(s, pos); SpansNest(r.expr) && pos <= r.expr.start && r.expr.end == r.pos
    decreases |s| - pos, 1
  {
    SpansNestFrom(s, SkipBlank(s, pos));
  }

  lemma {:induction false} ItemSpansNest(s: string, pos: nat, br: Bracket, start: nat, items: seq<SExpr>)
    requires start < pos <= |s| && ReadItems(s, pos, br, start, items).Ok? && SpansLineUp(items, start + 1, pos)
    ensures var r := ReadItems(s, pos, br, start, items);
            SpansNest(r.expr) && r.expr.start == start && r.expr.end == r.pos
    decreases |s| - pos, 2
  {
    var p := SkipBlank(s, pos);
    LineUpWider(items, start + 1, pos, p);
    if s[p] != Close(br) {
      ReadSpansNest(s, p);
      var r := ReadExpr(s, p);
      LineUpOneMore(items, start + 1, p, r.expr, r.pos);
      ItemSpansNest(s, r.pos, br, start, items + [r.expr]);
    }
  }

  lemma {:induction false} StringSpan(s: string, pos: nat, start: nat, text: string)
    requires start < pos <= |s| && ReadString(s, pos, start, text).Ok?
    ensures var r := ReadString(s, pos, start, text); r.expr.Atom? && r.expr.start == start && r.expr.end == r.pos
    ensures ReadString(s, pos, start, text).expr.kind == Str
    decreases |s| - pos
  {
    if s[pos] == '\\' {
      StringSpan(s, pos + 2, start, text + Unescaped(s[pos + 1]));
    } else if s[pos] != '"' {
      StringSpan(s, pos + 1, start, text + [s[pos]]);
    }
  }

  /** ... and so do the top-level expressions of a source, one after the other. */
  lemma {:induction false} ParsedSpansLineUp(s: string, pos: nat, exprs: seq<SExpr>)
    requires pos <= |s| && ParseFrom(s, pos, exprs).Parsed? && SpansLineUp(exprs, 0, pos)
    ensures SpansLineUp(ParseFrom(s, pos, exprs).exprs, 0, |s|)
    decreases |s| - pos
  {
    var p := SkipBlank(s, pos);
    LineUpWider(exprs, 0, pos, p);
    if p < |s| {
      ReadSpansNest(s, p);
      var r := ReadExpr(s, p);
      LineUpOneMore(exprs, 0, p, r.expr, r.pos);
      ParsedSpansLineUp(s, r.pos, exprs + [r.expr]);
    }
  }

  // ---- Spans in bytes ------------------------------------------------------

  function Utf8Length(c: char): nat {
    var n := c as int;
    if n < 0x80 then 1 else if n < 0x800 then 2 else if n < 0x10000 then 3 else 4
  }

  /** Where the `i`-th character of `s` begins in its UTF-8 encoding. */
  function ByteAt(s: string, i: nat): nat {
    if i == 0 then 0 else if s == [] then i else Utf8Length(s[0]) + ByteAt(s[1..], i - 1)
  }

  /** The tree with the offsets the source counts, in bytes. */
  function InBytes(s: string, e: SExpr): SExpr
    decreases e, 0
  {
    match e
    case Group(br, items, start, end) => Group(br, AllInBytes(s, items), ByteAt(s, start), ByteAt(s, end))
    case Marked(mark, inner, start, end) => Marked(mark, InBytes(s, inner), ByteAt(s, start), ByteAt(s, end))
    case Atom(kind, text, start, end) => Atom(kind, text, ByteAt(s, start), ByteAt(s, end))
  }

  function AllInBytes(s: string, items: seq<SExpr>): seq<SExpr>
    decreases items, 1
  {
    if items == [] then [] else [InBytes(s, items[0])] + AllInBytes(s, items[1..])
  }

  lemma {:induction false} BytesGrow(s: string, i: nat, j: nat)
    requires i <= j
    ensures ByteAt(s, i) + (j - i) <= ByteAt(s, j)
  {
    if i > 0 && s != [] {
      BytesGrow(s[1..], i - 1, j - 1);
    } else if i == 0 && j > 0 && s != [] {
      BytesGrow(s[1..], 0, j - 1);
    }
  }

  lemma {:induction false} ByteSpansNest(s: string, e: SExpr)
    requires SpansNest(e)
    ensures SpansNest(InBytes(s, e)) && InBytes(s, e).start == ByteAt(s, e.start)
    ensures InBytes(s, e).end == ByteAt(s, e.end)
    decreases e, 0
  {
    BytesGrow(s, e.start, e.end);
    match e
    case Group(_, items, start, end) =>
      BytesGrow(s, start, start + 1);
      BytesGrow(s, end - 1, end);
      ByteSpansLineUp(s, items, start + 1, end - 1, ByteAt(s, start) + 1, ByteAt(s, end) - 1);
    case Marked(_, inner, start, _) =>
      BytesGrow(s, start, inner.start);
      ByteSpansNest(s, inner);
    case Atom(_, _, _, _) =>
  }

  lemma {:induction false} ByteSpansLineUp(s: string, items: seq<SExpr>, from: nat, to: nat, first: int, last: int)
    requires SpansLineUp(items, from, to) && first <= ByteAt(s, from) && ByteAt(s, to) <= last
    ensures SpansLineUp(AllInBytes(s, items), first, last)
    decreases items, 1
  {
    if items == [] {
      BytesGrow(s, from, to);
    } else {
      BytesGrow(s, from, items[0].start);
      ByteSpansNest(s, items[0]);
      ByteSpansLineUp(s, items[1..], items[0].end, to, ByteAt(s, items[0].end), last);
    }
  }

  /** In bytes, too, spans of a parsed source nest and follow one another up to its length. */
  lemma ParsedByteSpans(s: string)
    requires ParseFrom(s, 0, []).Parsed?
    ensures SpansLineUp(AllInBytes(s, ParseFrom(s, 0, []).exprs), 0, ByteAt(s, |s|))
  {
    ParsedSpansLineUp(s, 0, []);
    ByteSpansLineUp(s, ParseFrom(s, 0, []).exprs, 0, |s|, 0, ByteAt(s, |s|));
  }

  // ---- Printing ------------------------------------------------------------

  predicate IdentText(text: string) { forall c :: c in text ==> !EndsIdent(c) }

  predicate NumberText(text: string) { text != [] && StartsNumber(text, 0) }

  /** The texts the reader can produce for an atom. */
  predicate AtomText(kind: AtomKind, text: string) {
    match kind
    case Symbol => text != [] && IdentText(text) && text[0] != '\'' && text[0] != ':' && !NumberText(text)
    case Keyword => IdentText(text)
    case Str => true
    case Number => IdentText(text) && NumberText(text)
  }

  predicate WellFormed(e: SExpr)
    decreases e, 0
  {
    match e
    case Group(_, items, _, _) => AllWellFormed(items)
    case Marked(_, inner, _, _) => WellFormed(inner)
    case Atom(kind, text, _, _) => AtomText(kind, text)
  }

  predicate AllWellFormed(items: seq<SExpr>)
    decreases items, 1
  {
    items == [] || (WellFormed(items[0]) && AllWellFormed(items[1..]))
  }

  /** The tree without its spans. */
  function Bare(e: SExpr): SExpr
    decreases e, 0
  {
    match e
    case Group(br, items, _, _) => Group(br, AllBare(items), 0, 0)
    case Marked(mark, inner, _, _) => Marked(mark, Bare(inner), 0, 0)
    case Atom(kind, text, _, _) => Atom(kind, text, 0, 0)
  }

  function AllBare(items: seq<SExpr>): seq<SExpr>
    decreases items, 1
  {
    if items == [] then [] else [Bare(items[0])] + AllBare(items[1..])
  }

  function Escaped(c: char): string {
    match c
    case '\n' => ['\\', 'n']
    case '\t' => ['\\', 't']
    case '\\' => ['\\', '\\']
    case '"' => ['\\', '"']
    case _ => [c]
  }

  function EscapedText(text: string): string {
    if text == [] then [] else Escaped(text[0]) + EscapedText(text[1..])
  }

  function MarkText(mark: Mark): string {
    match mark
    case Quote => "'"
    case Quasiquote => "`"
    case Unquote => "~ "
    case UnquoteSplice => "~@"
  }

  function AtomPrint(kind: AtomKind, text: string): string {
    match kind
    case Symbol => text
    case Keyword => [':'] + text
    case Str => ['"'] + EscapedText(text) + ['"']
    case Number => text
  }

  /** The canonical printing of a tree. */
  function Print(e: SExpr): string
    decreases e, 0
  {
    match e
    case Group(br, items, _, _) => Open(br) + PrintItems(items) + [Close(br)]
    case Marked(mark, inner, _, _) => MarkText(mark) + Print(inner)
    case Atom(kind, text, _, _) => AtomPrint(kind, text)
  }

  function PrintItems(items: seq<SExpr>): string
    decreases items, 1
  {
    if items == [] then []
    else if |items| == 1 then Print(items[0])
    else Print(items[0]) + [' '] + PrintItems(items[1..])
  }

  // ---- Reading what was printed --------------------------------------------

  /** `text` stands at `pos` in `s`. */
  predicate At(s: string, pos: nat, text: string) {
    pos + |text| <= |s| && forall i :: 0 <= i < |text| ==> s[pos + i] == text[i]
  }

  /** What follows a printed tree must not run on from it. */
  predicate Stops(s: string, pos: nat) {
    pos < |s| ==> EndsIdent(s[pos]) && s[pos] != '('
  }

  lemma AtSplits(s: string, pos: nat, a: string, b: string)
    requires At(s, pos, a + b)
    ensures At(s, pos, a) && At(s, pos + |a|, b)
  {
    forall i | 0 <= i < |a| ensures s[pos + i] == a[i] {
      assert (a + b)[i] == a[i];
    }
    forall i | 0 <= i < |b| ensures s[pos + |a| + i] == b[i] {
      assert (a + b)[|a| + i] == b[i];
    }
  }

  lemma AtChar(s: string, pos: nat, text: string, i: nat)
    requires At(s, pos, text) && i < |text|
    ensures s[pos + i] == text[i]
  {
  }

  lemma AtSlice(s: string, pos: nat, text: string)
    requires At(s, pos, text)
    ensures s[pos..pos + |text|] == text
  {
  }

  /** A printed tree starts with something that is neither blank nor a comment nor a closer. */
  lemma PrintStarts(e: SExpr)
    requires WellFormed(e)
    ensures Print(e) != [] && !IsWhitespace(Print(e)[0]) && Print(e)[0] != ';'
    ensures Print(e)[0] != ')' && Print(e)[0] != ']' && Print(e)[0] != '}'
  {
    match e
    case Group(br, items, _, _) => assert Print(e)[0] == Open(br)[0];
    case Marked(mark, inner, _, _) => assert Print(e)[0] == MarkText(mark)[0];
    case Atom(kind, text, _, _) =>
      if kind.Symbol? || kind.Number? { assert text[0] in text; }
  }

  lemma StartsHere(s: string, pos: nat, e: SExpr)
    requires WellFormed(e) && At(s, pos, Print(e))
    ensures pos < |s| && s[pos] == Print(e)[0]
    ensures s[pos] != ')' && s[pos] != ']' && s[pos] != '}'
    ensures SkipBlank(s, pos) == pos && ReadExpr(s, pos) == ReadFrom(s, pos)
  {
    PrintStarts(e);
    AtChar(s, pos, Print(e), 0);
  }

  lemma AfterBlank(s: string, pos: nat)
    requires pos < |s| && IsWhitespace(s[pos])
    ensures SkipBlank(s, pos) == SkipBlank(s, pos + 1) && ReadExpr(s, pos) == ReadExpr(s, pos + 1)
  {
  }

  lemma {:induction false} IdentReads(s: string, pos: nat, text: string)
    requires At(s, pos, text) && IdentText(text) && (pos + |text| < |s| ==> EndsIdent(s[pos + |text|]))
    ensures IdentEnd(s, pos) == pos + |text|
    decreases |text|
  {
    if text != [] {
      AtChar(s, pos, text, 0);
      assert text == text[..1] + text[1..];
      AtSplits(s, pos, text[..1], text[1..]);
      IdentReads(s, pos + 1, text[1..]);
    }
  }

  lemma CharReads(s: string, pos: nat, start: nat, c: char, read: string)
    requires start < pos && At(s, pos, Escaped(c))
    ensures ReadString(s, pos, start, read) == ReadString(s, pos + |Escaped(c)|, start, read + [c])
  {
    AtChar(s, pos, Escaped(c), 0);
    if |Escaped(c)| == 2 {
      AtChar(s, pos, Escaped(c), 1);
    }
  }

  lemma QuoteReads(s: string, pos: nat, start: nat, read: string)
    requires start < pos && At(s, pos, ['"'])
    ensures ReadString(s, pos, start, read) == Ok(Atom(Str, read, start, pos + 1), pos + 1)
  {
    AtChar(s, pos, ['"'], 0);
  }

  lemma FirstOn(read: string, text: string)
    requires text != []
    ensures read + [text[0]] + text[1..] == read + text
  {
  }

  lemma {:induction false} StringReads(s: string, pos: nat, start: nat, text: string, read: string)
    requires start < pos && At(s, pos, EscapedText(text)) && At(s, pos + |EscapedText(text)|, ['"'])
    ensures var end := pos + |EscapedText(text)| + 1;
            ReadString(s, pos, start, read) == Ok(Atom(Str, read + text, start, end), end)
    decreases |text|
  {
    if text == [] {
      QuoteReads(s, pos, start, read);
      assert read + text == read;
    } else {
      var p := pos + |Escaped(text[0])|;
      AtSplits(s, pos, Escaped(text[0]), EscapedText(text[1..]));
      CharReads(s, pos, start, text[0], read);
      StringReads(s, p, start, text[1..], read + [text[0]]);
      FirstOn(read, text);
    }
  }

  /** Reading gives `e` up to spans and stops at `end`. */
  ghost predicate ReadsAs(r: Read, e: SExpr, end: nat) {
    r.Ok? && r.pos == end && Bare(r.expr) == Bare(e)
  }

  lemma SymbolReads(s: string, pos: nat, text: string)
    requires AtomText(Symbol, text) && At(s, pos, text) && Stops(s, pos + |text|)
    ensures ReadFrom(s, pos) == Ok(Atom(Symbol, text, pos, pos + |text|), pos + |text|)
  {
    assert text[0] in text;
    AtChar(s, pos, text, 0);
    AtSlice(s, pos, text);
    IdentReads(s, pos, text);
    assert IdentEnd(s, pos) == IdentEnd(s, pos + 1);
    if |text| > 1 {
      AtChar(s, pos, text, 1);
      assert text[1] in text;
    }
  }

  lemma NumberReads(s: string, pos: nat, text: string)
    requires AtomText(Number, text) && At(s, pos, text) && Stops(s, pos + |text|)
    ensures ReadFrom(s, pos) == Ok(Atom(Number, text, pos, pos + |text|), pos + |text|)
  {
    AtChar(s, pos, text, 0);
    AtSlice(s, pos, text);
    IdentReads(s, pos, text);
    if |text| > 1 {
      AtChar(s, pos, text, 1);
    }
  }

  lemma KeywordReads(s: string, pos: nat, text: string)
    requires AtomText(Keyword, text) && At(s, pos, [':'] + text) && Stops(s, pos + 1 + |text|)
    ensures ReadFrom(s, pos) == Ok(Atom(Keyword, text, pos, pos + 1 + |text|), pos + 1 + |text|)
  {
    AtSplits(s, pos, [':'], text);
    AtChar(s, pos, [':'], 0);
    AtSlice(s, pos + 1, text);
    IdentReads(s, pos + 1, text);
  }

  lemma StrReads(s: string, pos: nat, text: string)
    requires At(s, pos, AtomPrint(Str, text))
    ensures var end := pos + |AtomPrint(Str, text)|; ReadFrom(s, pos) == Ok(Atom(Str, text, pos, end), end)
  {
    AtSplits(s, pos, ['"'] + EscapedText(text), ['"']);
    AtSplits(s, pos, ['"'], EscapedText(text));
    AtChar(s, pos, ['"'], 0);
    assert ReadFrom(s, pos) == ReadString(s, pos + 1, pos, []);
    StringReads(s, pos + 1, pos, text, []);
    assert [] + text == text;
  }

  lemma AtomReads(s: string, pos: nat, e: SExpr)
    requires e.Atom? && WellFormed(e) && At(s, pos, Print(e)) && Stops(s, pos + |Print(e)|)
    ensures ReadsAs(ReadExpr(s, pos), e, pos + |Print(e)|)
  {
    StartsHere(s, pos, e);
    match e.kind
    case Symbol => SymbolReads(s, pos, e.text);
    case Number => NumberReads(s, pos, e.text);
    case Keyword => KeywordReads(s, pos, e.text);
    case Str => StrReads(s, pos, e.text);
  }

  lemma MarkStarts(s: string, pos: nat, mark: Mark)
    requires At(s, pos, MarkText(mark))
    requires pos + |MarkText(mark)| < |s| && s[pos + |MarkText(mark)|] != ' '
    ensures ReadExpr(s, pos) == ReadMarked(s, if mark.Unquote? then pos + 1 else pos + |MarkText(mark)|, pos, mark)
    ensures mark.Unquote? ==> s[pos + 1] == ' '
  {
    AtChar(s, pos, MarkText(mark), 0);
    if |MarkText(mark)| > 1 { AtChar(s, pos, MarkText(mark), 1); }
  }

  lemma NotBlankAt(s: string, pos: nat, e: SExpr)
    requires WellFormed(e) && At(s, pos, Print(e))
    ensures pos < |s| && s[pos] != ' '
  {
    PrintStarts(e);
    AtChar(s, pos, Print(e), 0);
  }

  /** The blank behind `~` is skipped. */
  lemma BlankBehind(s: string, pos: nat, mark: Mark)
    requires At(s, pos, MarkText(mark)) && mark.Unquote?
    ensures pos + 2 <= |s| && ReadExpr(s, pos + 1) == ReadExpr(s, pos + |MarkText(mark)|)
  {
    AtChar(s, pos, MarkText(mark), 1);
    AfterBlank(s, pos + 1);
  }

  lemma MarkedReads(s: string, pos: nat, mark: Mark, inner: SExpr)
    requires WellFormed(inner) && At(s, pos, MarkText(mark)) && At(s, pos + |MarkText(mark)|, Print(inner))
    requires ReadsAs(ReadExpr(s, pos + |MarkText(mark)|), inner, pos + |MarkText(mark)| + |Print(inner)|)
    ensures ReadsAs(ReadExpr(s, pos), Marked(mark, inner, 0, 0), pos + |MarkText(mark)| + |Print(inner)|)
  {
    var p, end := pos + |MarkText(mark)|, pos + |MarkText(mark)| + |Print(inner)|;
    NotBlankAt(s, p, inner);
    MarkStarts(s, pos, mark);
    if mark.Unquote? {
      BlankBehind(s, pos, mark);
      MarkedAs(s, pos, pos + 1, mark, inner, end);
    } else {
      MarkedAs(s, pos, p, mark, inner, end);
    }
  }

  lemma MarkedAs(s: string, pos: nat, p: nat, mark: Mark, inner: SExpr, end: nat)
    requires pos < p <= |s| && ReadsAs(ReadExpr(s, p), inner, end)
    ensures ReadsAs(ReadMarked(s, p, pos, mark), Marked(mark, inner, 0, 0), end)
  {
  }

  lemma GroupStarts(s: string, pos: nat, br: Bracket)
    requires At(s, pos, Open(br))
    ensures SkipBlank(s, pos) == pos
    ensures ReadExpr(s, pos) == ReadItems(s, pos + |Open(br)|, br, pos, [])
  {
    AtChar(s, pos, Open(br), 0);
    if br.HashRound? { AtChar(s, pos, Open(br), 1); }
  }

  /** What is printed at `pos` is read back from there. */
  lemma {:induction false} PrintedReads(s: string, pos: nat, e: SExpr)
    requires WellFormed(e) && At(s, pos, Print(e)) && Stops(s, pos + |Print(e)|)
    ensures ReadsAs(ReadExpr(s, pos), e, pos + |Print(e)|)
    decreases e, 0
  {
    match e
    case Atom(_, _, _, _) => AtomReads(s, pos, e);
    case Marked(mark, inner, _, _) => MarkedPrintedReads(s, pos, mark, inner);
    case Group(br, items, _, _) => GroupReads(s, pos, br, items);
  }

  lemma {:induction false} MarkedPrintedReads(s: string, pos: nat, mark: Mark, inner: SExpr)
    requires WellFormed(inner) && At(s, pos, MarkText(mark) + Print(inner))
    requires Stops(s, pos + |MarkText(mark) + Print(inner)|)
    ensures ReadsAs(ReadExpr(s, pos), Marked(mark, inner, 0, 0), pos + |MarkText(mark) + Print(inner)|)
    decreases inner, 1
  {
    AtSplits(s, pos, MarkText(mark), Print(inner));
    PrintedReads(s, pos + |MarkText(mark)|, inner);
    MarkedReads(s, pos, mark, inner);
  }

  lemma {:induction false} GroupReads(s: string, pos: nat, br: Bracket, items: seq<SExpr>)
    requires AllWellFormed(items) && At(s, pos, Open(br) + PrintItems(items) + [Close(br)])
    ensures ReadsAs(ReadExpr(s, pos), Group(br, items, 0, 0), pos + |Open(br) + PrintItems(items) + [Close(br)]|)
    decreases items, 2
  {
    GroupParts(s, pos, Open(br), PrintItems(items), [Close(br)]);
    GroupStarts(s, pos, br);
    var p := pos + |Open(br)|;
    ItemsRead(s, p, br, pos, [], items);
    GroupAs(ReadItems(s, p, br, pos, []), br, items, p + |PrintItems(items)| + 1);
  }

  lemma GroupParts(s: string, pos: nat, a: string, b: string, c: string)
    requires At(s, pos, a + b + c)
    ensures At(s, pos, a) && At(s, pos + |a|, b) && At(s, pos + |a| + |b|, c)
    ensures |a + b + c| == |a| + |b| + |c|
  {
    AtSplits(s, pos, a + b, c);
    AtSplits(s, pos, a, b);
  }

  lemma GroupAs(r: Read, br: Bracket, items: seq<SExpr>, end: nat)
    requires ItemsReadAs(r, br, [], items, end)
    ensures ReadsAs(r, Group(br, items, 0, 0), end)
  {
    assert [] + AllBare(items) == AllBare(items);
  }

  lemma {:induction false} AllBareAppend(a: seq<SExpr>, e: SExpr)
    ensures AllBare(a + [e]) == AllBare(a) + [Bare(e)]
    decreases |a|
  {
    if a != [] {
      assert (a + [e])[1..] == a[1..] + [e];
      AllBareAppend(a[1..], e);
    } else {
      assert [e][1..] == [];
    }
  }

  /** A group is read that holds `items` behind those read before. */
  ghost predicate ItemsReadAs(r: Read, br: Bracket, read: seq<SExpr>, items: seq<SExpr>, end: nat) {
    r.Ok? && r.pos == end && r.expr.Group? && r.expr.br == br && AllBare(r.expr.items) == AllBare(read) + AllBare(items)
  }

  lemma {:induction false} ItemsRead(s: string, pos: nat, br: Bracket, start: nat, read: seq<SExpr>, items: seq<SExpr>)
    requires AllWellFormed(items) && start < pos && At(s, pos, PrintItems(items))
    requires At(s, pos + |PrintItems(items)|, [Close(br)])
    ensures ItemsReadAs(ReadItems(s, pos, br, start, read), br, read, items, pos + |PrintItems(items)| + 1)
    decreases items, 1
  {
    if items == [] {
      NoItemsRead(s, pos, br, start, read);
    } else {
      AtChar(s, pos + |PrintItems(items)|, [Close(br)], 0);
      var p := FirstItemRead(s, pos, br, start, read, items);
      var e := ReadExpr(s, pos).expr;
      ItemsRead(s, p, br, start, read + [e], items[1..]);
      OneItemFurther(ReadItems(s, p, br, start, read + [e]), br, read, e, items, pos + |PrintItems(items)| + 1);
    }
  }

  lemma NoItemsRead(s: string, pos: nat, br: Bracket, start: nat, read: seq<SExpr>)
    requires start < pos && At(s, pos, [Close(br)])
    ensures ItemsReadAs(ReadItems(s, pos, br, start, read), br, read, [], pos + 1)
  {
    AtChar(s, pos, [Close(br)], 0);
    assert AllBare(read) + [] == AllBare(read);
  }

  lemma OneItemFurther(r: Read, br: Bracket, read: seq<SExpr>, e: SExpr, items: seq<SExpr>, end: nat)
    requires items != [] && Bare(e) == Bare(items[0]) && ItemsReadAs(r, br, read + [e], items[1..], end)
    ensures ItemsReadAs(r, br, read, items, end)
  {
    OneBareFurther(read, e, items);
  }

  /** The first item is read; the others are printed at `p`. */
  lemma {:induction false} FirstItemRead(s: string, pos: nat, br: Bracket, start: nat, read: seq<SExpr>,
                                         items: seq<SExpr>) returns (p: nat)
    requires items != [] && AllWellFormed(items) && start < pos
    requires At(s, pos, PrintItems(items)) && Stops(s, pos + |PrintItems(items)|)
    ensures pos < p && At(s, p, PrintItems(items[1..])) && p + |PrintItems(items[1..])| == pos + |PrintItems(items)|
    ensures ReadExpr(s, pos).Ok? && Bare(ReadExpr(s, pos).expr) == Bare(items[0])
    ensures ReadItems(s, pos, br, start, read) == ReadItems(s, p, br, start, read + [ReadExpr(s, pos).expr])
    decreases items, 0
  {
    p := ItemBoundary(s, pos, items);
    PrintedReads(s, pos, items[0]);
    OneItemRead(s, pos, br, start, read, items[0]);
    AfterItem(s, pos + |Print(items[0])|, p, br, start, read + [ReadExpr(s, pos).expr]);
  }

  /** The others are printed right behind it, or behind a blank. */
  lemma ItemBoundary(s: string, pos: nat, items: seq<SExpr>) returns (p: nat)
    requires items != [] && AllWellFormed(items)
    requires At(s, pos, PrintItems(items)) && Stops(s, pos + |PrintItems(items)|)
    ensures pos < p && At(s, p, PrintItems(items[1..])) && p + |PrintItems(items[1..])| == pos + |PrintItems(items)|
    ensures At(s, pos, Print(items[0])) && Stops(s, pos + |Print(items[0])|)
    ensures p == pos + |Print(items[0])| || (p == pos + |Print(items[0])| + 1 && p <= |s| && s[p - 1] == ' ')
  {
    PrintStarts(items[0]);
    p := pos + |Print(items[0])|;
    if |items| > 1 {
      FirstOfItems(s, pos, items);
      p := p + 1;
    } else {
      assert items[1..] == [];
    }
  }

  lemma AfterItem(s: string, q: nat, p: nat, br: Bracket, start: nat, read: seq<SExpr>)
    requires start < q <= |s| && (p == q || (p == q + 1 <= |s| && s[q] == ' '))
    ensures ReadItems(s, q, br, start, read) == ReadItems(s, p, br, start, read)
  {
    if p != q {
      BlankBeforeItems(s, q, br, start, read);
    }
  }

  lemma FirstOfItems(s: string, pos: nat, items: seq<SExpr>)
    requires |items| > 1 && At(s, pos, PrintItems(items))
    ensures var p := pos + |Print(items[0])|;
            && At(s, pos, Print(items[0])) && p < |s| && s[p] == ' ' && At(s, p + 1, PrintItems(items[1..]))
            && p + 1 + |PrintItems(items[1..])| == pos + |PrintItems(items)|
  {
    AroundChar(s, pos, Print(items[0]), ' ', PrintItems(items[1..]));
  }

  lemma AroundChar(s: string, pos: nat, a: string, c: char, b: string)
    requires At(s, pos, a + [c] + b)
    ensures At(s, pos, a) && pos + |a| < |s| && s[pos + |a|] == c && At(s, pos + |a| + 1, b)
  {
    AtSplits(s, pos, a + [c], b);
    AtSplits(s, pos, a, [c]);
    AtChar(s, pos + |a|, [c], 0);
  }

  lemma OneBareFurther(read: seq<SExpr>, e: SExpr, items: seq<SExpr>)
    requires items != [] && Bare(e) == Bare(items[0])
    ensures AllBare(read + [e]) + AllBare(items[1..]) == AllBare(read) + AllBare(items)
  {
    AllBareAppend(read, e);
  }

  lemma BlankBeforeItems(s: string, pos: nat, br: Bracket, start: nat, read: seq<SExpr>)
    requires start < pos < |s| && IsWhitespace(s[pos])
    ensures ReadItems(s, pos, br, start, read) == ReadItems(s, pos + 1, br, start, read)
  {
    AfterBlank(s, pos);
  }

  lemma OneItemRead(s: string, pos: nat, br: Bracket, start: nat, read: seq<SExpr>, e: SExpr)
    requires start < pos && WellFormed(e) && At(s, pos, Print(e)) && ReadsAs(ReadExpr(s, pos), e, pos + |Print(e)|)
    ensures ReadItems(s, pos, br, start, read)
         == ReadItems(s, pos + |Print(e)|, br, start, read + [ReadExpr(s, pos).expr])
  {
    StartsHere(s, pos, e);
  }

  // ---- The theorems --------------------------------------------------------

  /** Reading the canonical printing of a well-formed tree gives the tree, up to spans. */
  lemma PrintThenRead(e: SExpr)
    requires WellFormed(e)
    ensures ReadsAs(ReadExpr(Print(e), 0), e, |Print(e)|)
  {
    PrintedReads(Print(e), 0, e);
  }

  // -- what is read can be printed

  lemma {:induction false} AllWellFormedAppend(a: seq<SExpr>, e: SExpr)
    requires AllWellFormed(a) && WellFormed(e)
    ensures AllWellFormed(a + [e])
    decreases |a|
  {
    if a != [] {
      assert (a + [e])[1..] == a[1..] + [e];
      AllWellFormedAppend(a[1..], e);
    } else {
      assert [e][1..] == [];
    }
  }

  /** What `consume_ident_chars` passes over. */
  lemma IdentTextRead(s: string, start: nat)
    requires start < |s| && IdentEnd(s, start) > start
    ensures var text := s[start..IdentEnd(s, start)];
            text != [] && IdentText(text) && text[0] == s[start] && (NumberText(text) <==> StartsNumber(s, start))
  {
    var end := IdentEnd(s, start);
    var text := s[start..end];
    forall c | c in text ensures !EndsIdent(c) {
      var i :| 0 <= i < |text| && text[i] == c;
      assert c == s[start + i];
    }
    if start + 1 < |s| && IsDigit(s[start + 1]) {
      DigitIsIdent(s, start);
    }
    if |text| > 1 {
      assert text[1] == s[start + 1];
    }
  }

  lemma DigitIsIdent(s: string, start: nat)
    requires start + 1 < |s| && IdentEnd(s, start) > start && IsDigit(s[start + 1])
    ensures IdentEnd(s, start) > start + 1
  {
    assert IdentEnd(s, start) == IdentEnd(s, start + 1);
    assert !EndsIdent(s[start + 1]);
  }

  lemma SymbolIsWellFormed(s: string, start: nat)
    requires start < |s| && s[start] != '\'' && s[start] != ':' && !StartsNumber(s, start)
    requires ReadSymbol(s, start, start).Ok?
    ensures WellFormed(ReadSymbol(s, start, start).expr)
  {
    IdentTextRead(s, start);
  }

  lemma NumberIsWellFormed(s: string, start: nat)
    requires start < |s| && s[start] != '\'' && s[start] != ':' && ReadNumberOrSymbol(s, start).Ok?
    ensures WellFormed(ReadNumberOrSymbol(s, start).expr)
  {
    if StartsNumber(s, start) {
      assert IdentEnd(s, start) > start;
      IdentTextRead(s, start);
    } else {
      SymbolIsWellFormed(s, start);
    }
  }

  lemma HashIsWellFormed(s: string, start: nat)
    requires start < |s| && s[start] == '#' && ReadSymbol(s, start + 1, start).Ok?
    ensures WellFormed(ReadSymbol(s, start + 1, start).expr)
  {
  }

  /** Whatever is read is well-formed ... */
  lemma {:induction false} ReadIsWellFormed(s: string, start: nat)
    requires start < |s| && ReadFrom(s, start).Ok?
    ensures WellFormed(ReadFrom(s, start).expr)
    decreases |s| - start, 0
  {
    match s[start]
    case '(' => ItemsAreWellFormed(s, start + 1, Round, start, []);
    case '[' => ItemsAreWellFormed(s, start + 1, Square, start, []);
    case '{' => ItemsAreWellFormed(s, start + 1, Curly, start, []);
    case '#' =>
      if start + 1 < |s| && s[start + 1] == '(' {
        ItemsAreWellFormed(s, start + 2, HashRound, start, []);
      } else {
        HashIsWellFormed(s, start);
      }
    case '"' => StringSpan(s, start + 1, start, []);
    case '\'' => MarkedIsWellFormed(s, start + 1, start, Quote);
    case '`' => MarkedIsWellFormed(s, start + 1, start, Quasiquote);
    case '~' =>
      if start + 1 < |s| && s[start + 1] == '@' {
        MarkedIsWellFormed(s, start + 2, start, UnquoteSplice);
      } else {
        MarkedIsWellFormed(s, start + 1, start, Unquote);
      }
    case ':' =>
    case c =>
      if c == '-' || c == '+' || IsDigit(c) {
        NumberIsWellFormed(s, start);
      } else {
        SymbolIsWellFormed(s, start);
      }
  }

  lemma {:induction false} MarkedIsWellFormed(s: string, pos: nat, start: nat, mark: Mark)
    requires start < pos <= |s| && ReadMarked(s, pos, start, mark).Ok?
    ensures WellFormed(ReadMarked(s, pos, start, mark).expr)
    decreases |s| - pos, 1
  {
    ReadIsWellFormed(s, SkipBlank(s, pos));
  }

  lemma {:induction false} ItemsAreWellFormed(s: string, pos: nat, br: Bracket, start: nat, items: seq<SExpr>)
    requires start < pos <= |s| && AllWellFormed(items) && ReadItems(s, pos, br, start, items).Ok?
    ensures WellFormed(ReadItems(s, pos, br, start, items).expr)
    decreases |s| - pos, 1
  {
    var p := SkipBlank(s, pos);
    if s[p] != Close(br) {
      assert ReadExpr(s, p) == ReadFrom(s, p);
      ReadIsWellFormed(s, p);
      var r := ReadExpr(s, p);
      AllWellFormedAppend(items, r.expr);
      ItemsAreWellFormed(s, r.pos, br, start, items + [r.expr]);
    }
  }

  /** ... so printing what was read and reading it again changes nothing but spans. */
  lemma ReadThenPrintThenRead(s: string, pos: nat)
    requires pos <= |s| && ReadExpr(s, pos).Ok?
    ensures var e := ReadExpr(s, pos).expr; WellFormed(e) && ReadsAs(ReadExpr(Print(e), 0), e, |Print(e)|)
  {
    ReadIsWellFormed(s, SkipBlank(s, pos));
    PrintThenRead(ReadExpr(s, pos).expr);
  }

  /** A source file: the trees one after the other, one to a line. */
  function PrintSource(exprs: seq<SExpr>): string {
    if exprs == [] then [] else Print(exprs[0]) + ['\n'] + PrintSource(exprs[1..])
  }

  lemma {:induction false} SourceReads(s: string, pos: nat, read: seq<SExpr>, exprs: seq<SExpr>)
    requires AllWellFormed(exprs) && At(s, pos, PrintSource(exprs)) && pos + |PrintSource(exprs)| == |s|
    ensures var r := ParseFrom(s, pos, read); r.Parsed? && AllBare(r.exprs) == AllBare(read) + AllBare(exprs)
    decreases |exprs|
  {
    if exprs == [] {
      assert AllBare(read) + [] == AllBare(read);
    } else {
      var e := FirstExprParsed(s, pos, read, exprs);
      SourceReads(s, pos + |Print(exprs[0])| + 1, read + [e], exprs[1..]);
      OneBareFurther(read, e, exprs);
    }
  }

  lemma FirstExprParsed(s: string, pos: nat, read: seq<SExpr>, exprs: seq<SExpr>) returns (e: SExpr)
    requires exprs != [] && AllWellFormed(exprs) && At(s, pos, PrintSource(exprs)) && pos + |PrintSource(exprs)| == |s|
    ensures var p := pos + |Print(exprs[0])| + 1;
            && p + |PrintSource(exprs[1..])| == |s| && At(s, p, PrintSource(exprs[1..]))
            && Bare(e) == Bare(exprs[0]) && ParseFrom(s, pos, read) == ParseFrom(s, p, read + [e])
  {
    AroundChar(s, pos, Print(exprs[0]), '\n', PrintSource(exprs[1..]));
    PrintedReads(s, pos, exprs[0]);
    OneExprParsed(s, pos, read, exprs[0]);
    e := ReadExpr(s, pos).expr;
  }

  lemma OneExprParsed(s: string, pos: nat, read: seq<SExpr>, e: SExpr)
    requires WellFormed(e) && At(s, pos, Print(e)) && ReadsAs(ReadExpr(s, pos), e, pos + |Print(e)|)
    requires pos + |Print(e)| < |s| && s[pos + |Print(e)|] == '\n'
    ensures ParseFrom(s, pos, read) == ParseFrom(s, pos + |Print(e)| + 1, read + [ReadExpr(s, pos).expr])
  {
    StartsHere(s, pos, e);
    AfterBlank(s, pos + |Print(e)|);
  }

  /** Parsing a printed source file gives its trees, up to spans. */
  lemma PrintThenParse(exprs: seq<SExpr>)
    requires AllWellFormed(exprs)
    ensures var r := ParseFrom(PrintSource(exprs), 0, []); r.Parsed? && AllBare(r.exprs) == AllBare(exprs)
  {
    SourceReads(PrintSource(exprs), 0, [], exprs);
    assert [] + AllBare(exprs) == AllBare(exprs);
  }

  // ---- As it is written ----------------------------------------------------

  datatype Result = Success(expr: SExpr) | Failure(error: ParseError)

  /** A reader's answer and position are those of a read. */
  predicate Agrees(result: Result, pos: nat, read: Read) {
    match read
    case Ok(e, p) => result == Success(e) && pos == p
    case Err(error) => result == Failure(error)
  }

  class Reader {
    const source: string
    var pos: nat

    predicate Valid()
      reads this
    {
      pos <= |source|
    }

    constructor (source: string)
      ensures Valid() && pos == 0 && this.source == source
    {
      this.source := source;
      pos := 0;
    }

    method SkipWhitespaceAndComments()
      requires Valid()
      modifies this
      ensures Valid() && pos == SkipBlank(source, old(pos))
    {
      var more := true;
      while more
        invariant Valid()
        invariant SkipBlank(source, pos) == SkipBlank(source, old(pos))
        invariant !more ==> pos == SkipBlank(source, old(pos))
        decreases |source| - pos, more
      {
        while pos < |source| && IsWhitespace(source[pos])
          invariant Valid() && SkipBlank(source, pos) == SkipBlank(source, old(pos))
          decreases |source| - pos
        {
          pos := pos + 1;
        }
        more := pos < |source| && source[pos] == ';';
        if more {
          SkipLine();
        }
      }
    }

    /** The loop over a line comment. */
    method SkipLine()
      requires Valid()
      modifies this
      ensures Valid() && pos == LineEnd(source, old(pos)) && old(pos) <= pos
      ensures old(pos) < |source| && source[old(pos)] == ';' ==> old(pos) < pos && pos == LineEnd(source, old(pos) + 1)
    {
      var inLine := true;
      while pos < |source| && inLine
        invariant Valid() && old(pos) <= pos
        invariant if inLine then LineEnd(source, pos) == LineEnd(source, old(pos)) else pos == LineEnd(source, old(pos))
        decreases |source| - pos
      {
        inLine := source[pos] != '\n';
        pos := pos + 1;
      }
    }

    method ConsumeIdentChars()
      requires Valid()
      modifies this
      ensures Valid() && pos == IdentEnd(source, old(pos))
    {
      while pos < |source| && !EndsIdent(source[pos])
        invariant Valid() && IdentEnd(source, pos) == IdentEnd(source, old(pos))
        decreases |source| - pos
      {
        pos := pos + 1;
      }
    }

    method ReadSymbolFrom(start: nat) returns (result: Result)
      requires Valid() && start <= pos
      modifies this
      ensures Valid() && Agrees(result, pos, ReadSymbol(source, old(pos), start))
    {
      ConsumeIdentChars();
      if pos == start {
        return Failure(UnexpectedCharacter(pos));
      }
      result := Success(Atom(Symbol, source[start..pos], start, pos));
    }

    method ReadNumberOrSymbolAt(start: nat) returns (result: Result)
      requires Valid() && start == pos < |source|
      modifies this
      ensures Valid() && Agrees(result, pos, ReadNumberOrSymbol(source, start))
    {
      if StartsNumber(source, pos) {
        ConsumeIdentChars();
        result := Success(Atom(Number, source[start..pos], start, pos));
      } else {
        result := ReadSymbolFrom(start);
      }
    }

    method ReadKeywordAt(start: nat) returns (result: Result)
      requires Valid() && start == pos < |source|
      modifies this
      ensures Valid() && Agrees(result, pos, ReadKeyword(source, start))
    {
      pos := pos + 1;
      var identStart := pos;
      ConsumeIdentChars();
      result := Success(Atom(Keyword, source[identStart..pos], start, pos));
    }

    method ReadStringAt(start: nat) returns (result: Result)
      requires Valid() && start == pos < |source|
      modifies this
      ensures Valid() && Agrees(result, pos, ReadString(source, start + 1, start, []))
    {
      pos := pos + 1;
      var text: string := [];
      while true
        invariant Valid() && start < pos
        invariant ReadString(source, pos, start, text) == ReadString(source, start + 1, start, [])
        decreases |source| - pos
      {
        if pos == |source| {
          return Failure(UnterminatedString(start));
        }
        var c := source[pos];
        pos := pos + 1;
        if c == '\\' {
          if pos == |source| {
            return Failure(UnterminatedEscape(pos));
          }
          text := text + Unescaped(source[pos]);
          pos := pos + 1;
        } else if c == '"' {
          return Success(Atom(Str, text, start, pos));
        } else {
          text := text + [c];
        }
      }
    }

    method ReadMarkedAt(start: nat, mark: Mark) returns (result: Result)
      requires Valid() && start < pos
      modifies this
      ensures Valid() && Agrees(result, pos, ReadMarked(source, old(pos), start, mark))
      decreases |source| - pos, 2
    {
      result := ReadNext();
      if result.Success? {
        result := Success(Marked(mark, result.expr, start, result.expr.end));
      }
    }

    /** `read_expr` */
    method ReadNext() returns (result: Result)
      requires Valid()
      modifies this
      ensures Valid() && Agrees(result, pos, ReadExpr(source, old(pos)))
      decreases |source| - pos, 1
    {
      SkipWhitespaceAndComments();
      var start := pos;
      if pos == |source| {
        return Failure(UnexpectedEnd(pos));
      }
      var c := source[pos];
      if c == '(' {
        result := ReadDelimited(Round, start);
      } else if c == '[' {
        result := ReadDelimited(Square, start);
      } else if c == '{' {
        result := ReadDelimited(Curly, start);
      } else if c == '#' {
        pos := pos + 1;
        if pos < |source| && source[pos] == '(' {
          result := ReadDelimited(HashRound, start);
        } else {
          result := ReadSymbolFrom(start);
        }
      } else if c == '"' {
        result := ReadStringAt(start);
      } else if c == '\'' {
        pos := pos + 1;
        result := ReadMarkedAt(start, Quote);
      } else if c == '`' {
        pos := pos + 1;
        result := ReadMarkedAt(start, Quasiquote);
      } else if c == '~' {
        pos := pos + 1;
        if pos < |source| && source[pos] == '@' {
          pos := pos + 1;
          result := ReadMarkedAt(start, UnquoteSplice);
        } else {
          result := ReadMarkedAt(start, Unquote);
        }
      } else if c == ':' {
        result := ReadKeywordAt(start);
      } else if c == '-' || c == '+' || IsDigit(c) {
        result := ReadNumberOrSymbolAt(start);
      } else {
        result := ReadSymbolFrom(start);
      }
    }

    /** `read_delimited`, with the reader at the opening bracket. */
    method ReadDelimited(br: Bracket, start: nat) returns (result: Result)
      requires Valid() && start <= pos < |source|
      modifies this
      ensures Valid() && Agrees(result, pos, ReadItems(source, old(pos) + 1, br, start, []))
      decreases |source| - pos, 0
    {
      pos := pos + 1;
      var items: seq<SExpr> := [];
      while true
        invariant Valid() && start <= old(pos) < pos
        invariant ReadItems(source, pos, br, start, items) == ReadItems(source, old(pos) + 1, br, start, [])
        decreases |source| - pos
      {
        SkipWhitespaceAndComments();
        if pos == |source| {
          return Failure(Unclosed(br, start));
        }
        if source[pos] == Close(br) {
          pos := pos + 1;
          return Success(Group(br, items, start, pos));
        }
        var item := ReadNext();
        if item.Failure? {
          return item;
        }
        items := items + [item.expr];
      }
    }
  }

  method ParseHy(source: string) returns (parsed: Parsed)
    ensures parsed == ParseFrom(source, 0, [])
  {
    var reader := new Reader(source);
    var exprs: seq<SExpr> := [];
    while true
      invariant reader.Valid() && fresh(reader) && reader.source == source
      invariant ParseFrom(source, reader.pos, exprs) == ParseFrom(source, 0, [])
      decreases |source| - reader.pos
    {
      reader.SkipWhitespaceAndComments();
      if reader.pos == |source| {
        return Parsed(exprs);
      }
      var item := reader.ReadNext();
      if item.Failure? {
        return NotParsed(item.error);
      }
      exprs := exprs + [item.expr];
    }
  }
}
