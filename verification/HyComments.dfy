/** Comments in Hy sources: a comment ends with its line, and what stands behind it, at the top level or
    between the items of a bracketed form, is read as if the comment were not there. */
module HyComments {
  import opened HyReader

  // ---- Sources that end alike ----------------------------------------------

  /** The tree, `n` characters further on. */
  function Moved(e: SExpr, n: nat): SExpr
    decreases e, 0
  {
    match e
    case Group(br, items, start, end) => Group(br, AllMoved(items, n), start + n, end + n)
    case Marked(mark, inner, start, end) => Marked(mark, Moved(inner, n), start + n, end + n)
    case Atom(kind, text, start, end) => Atom(kind, text, start + n, end + n)
  }

  function AllMoved(items: seq<SExpr>, n: nat): seq<SExpr>
    decreases items, 1
  {
    if items == [] then [] else [Moved(items[0], n)] + AllMoved(items[1..], n)
  }

  function MovedError(error: ParseError, n: nat): ParseError {
    match error
    case UnexpectedEnd(offset) => UnexpectedEnd(offset + n)
    case Unclosed(br, offset) => Unclosed(br, offset + n)
    case UnterminatedString(offset) => UnterminatedString(offset + n)
    case UnterminatedEscape(offset) => UnterminatedEscape(offset + n)
    case UnexpectedCharacter(offset) => UnexpectedCharacter(offset + n)
  }

  function MovedRead(r: Read, n: nat): Read {
    match r
    case Ok(e, pos) => Ok(Moved(e, n), pos + n)
    case Err(error) => Err(MovedError(error, n))
  }

  function MovedParse(r: Parsed, n: nat): Parsed {
    match r
    case Parsed(exprs) => Parsed(AllMoved(exprs, n))
    case NotParsed(error) => NotParsed(MovedError(error, n))
  }

  lemma {:induction false} AllMovedAppend(a: seq<SExpr>, e: SExpr, n: nat)
    ensures AllMoved(a + [e], n) == AllMoved(a, n) + [Moved(e, n)]
    decreases |a|
  {
    if a != [] {
      assert (a + [e])[1..] == a[1..] + [e];
      AllMovedAppend(a[1..], e, n);
    } else {
      assert [e][1..] == [];
    }
  }

  lemma {:induction false} MovedIsBare(e: SExpr, n: nat)
    ensures Bare(Moved(e, n)) == Bare(e)
    decreases e, 0
  {
    match e
    case Group(_, items, _, _) => AllMovedAreBare(items, n);
    case Marked(_, inner, _, _) => MovedIsBare(inner, n);
    case Atom(_, _, _, _) =>
  }

  lemma {:induction false} AllMovedAreBare(items: seq<SExpr>, n: nat)
    ensures AllBare(AllMoved(items, n)) == AllBare(items)
    decreases items, 1
  {
    if items != [] {
      MovedIsBare(items[0], n);
      AllMovedAreBare(items[1..], n);
      assert AllMoved(items, n)[1..] == AllMoved(items[1..], n);
    }
  }

  /** From `n` on `t` is `s`. */
  predicate EndsWith(t: string, n: nat, s: string) {
    |t| == n + |s| && forall i :: 0 <= i < |s| ==> t[n + i] == s[i]
  }

  lemma {:induction false} LineEndMoves(t: string, n: nat, s: string, pos: nat)
    requires EndsWith(t, n, s) && pos <= |s|
    ensures LineEnd(t, n + pos) == n + LineEnd(s, pos)
    decreases |s| - pos
  {
    if pos < |s| && s[pos] != '\n' {
      LineEndMoves(t, n, s, pos + 1);
    }
  }

  lemma {:induction false} SkipBlankMoves(t: string, n: nat, s: string, pos: nat)
    requires EndsWith(t, n, s) && pos <= |s|
    ensures SkipBlank(t, n + pos) == n + SkipBlank(s, pos)
    decreases |s| - pos
  {
    if pos < |s| && IsWhitespace(s[pos]) {
      SkipBlankMoves(t, n, s, pos + 1);
    } else if pos < |s| && s[pos] == ';' {
      LineEndMoves(t, n, s, pos + 1);
      SkipBlankMoves(t, n, s, LineEnd(s, pos + 1));
    }
  }

  lemma {:induction false} IdentEndMoves(t: string, n: nat, s: string, pos: nat)
    requires EndsWith(t, n, s) && pos <= |s|
    ensures IdentEnd(t, n + pos) == n + IdentEnd(s, pos)
    decreases |s| - pos
  {
    if pos < |s| && !EndsIdent(s[pos]) {
      IdentEndMoves(t, n, s, pos + 1);
    }
  }

  lemma SliceMoves(t: string, n: nat, s: string, from: nat, to: nat)
    requires EndsWith(t, n, s) && from <= to <= |s|
    ensures t[n + from..n + to] == s[from..to]
  {
  }

  lemma {:induction false} StringMoves(t: string, n: nat, s: string, pos: nat, start: nat, text: string)
    requires EndsWith(t, n, s) && start < pos <= |s|
    ensures ReadString(t, n + pos, n + start, text) == MovedRead(ReadString(s, pos, start, text), n)
    decreases |s| - pos
  {
    if pos < |s| {
      if s[pos] == '\\' {
        if pos + 1 < |s| {
          StringMoves(t, n, s, pos + 2, start, text + Unescaped(s[pos + 1]));
        }
      } else if s[pos] != '"' {
        StringMoves(t, n, s, pos + 1, start, text + [s[pos]]);
      }
    }
  }

  lemma SymbolMoves(t: string, n: nat, s: string, pos: nat, start: nat)
    requires EndsWith(t, n, s) && start <= pos <= |s|
    ensures ReadSymbol(t, n + pos, n + start) == MovedRead(ReadSymbol(s, pos, start), n)
  {
    IdentEndMoves(t, n, s, pos);
    SliceMoves(t, n, s, start, IdentEnd(s, pos));
  }

  lemma NumberMoves(t: string, n: nat, s: string, start: nat)
    requires EndsWith(t, n, s) && start < |s|
    ensures ReadNumberOrSymbol(t, n + start) == MovedRead(ReadNumberOrSymbol(s, start), n)
  {
    IdentEndMoves(t, n, s, start);
    SliceMoves(t, n, s, start, IdentEnd(s, start));
    SymbolMoves(t, n, s, start, start);
  }

  lemma KeywordMoves(t: string, n: nat, s: string, start: nat)
    requires EndsWith(t, n, s) && start < |s|
    ensures ReadKeyword(t, n + start) == MovedRead(ReadKeyword(s, start), n)
  {
    IdentEndMoves(t, n, s, start + 1);
    SliceMoves(t, n, s, start + 1, IdentEnd(s, start + 1));
  }

  lemma {:induction false} ReadFromMoves(t: string, n: nat, s: string, start: nat)
    requires EndsWith(t, n, s) && start < |s|
    ensures ReadFrom(t, n + start) == MovedRead(ReadFrom(s, start), n)
    decreases |s| - start, 0
  {
    match s[start]
    case '(' => ItemsMove(t, n, s, start + 1, Round, start, []);
    case '[' => ItemsMove(t, n, s, start + 1, Square, start, []);
    case '{' => ItemsMove(t, n, s, start + 1, Curly, start, []);
    case '#' =>
      if start + 1 < |s| && s[start + 1] == '(' {
        ItemsMove(t, n, s, start + 2, HashRound, start, []);
      } else {
        SymbolMoves(t, n, s, start + 1, start);
      }
    case '"' => StringMoves(t, n, s, start + 1, start, []);
    case '\'' => MarkedMoves(t, n, s, start + 1, start, Quote);
    case '`' => MarkedMoves(t, n, s, start + 1, start, Quasiquote);
    case '~' =>
      if start + 1 < |s| && s[start + 1] == '@' {
        MarkedMoves(t, n, s, start + 2, start, UnquoteSplice);
      } else {
        MarkedMoves(t, n, s, start + 1, start, Unquote);
      }
    case ':' => KeywordMoves(t, n, s, start);
    case _ =>
      NumberMoves(t, n, s, start);
      SymbolMoves(t, n, s, start, start);
  }

  lemma {:induction false} MarkedMoves(t: string, n: nat, s: string, pos: nat, start: nat, mark: Mark)
    requires EndsWith(t, n, s) && start < pos <= |s|
    ensures ReadMarked(t, n + pos, n + start, mark) == MovedRead(ReadMarked(s, pos, start, mark), n)
    decreases |s| - pos, 2
  {
    ReadMoves(t, n, s, pos);
  }

  /** What is read does not depend on what stands before it, but for offsets. */
  lemma {:induction false} ReadMoves(t: string, n: nat, s: string, pos: nat)
    requires EndsWith(t, n, s) && pos <= |s|
    ensures ReadExpr(t, n + pos) == MovedRead(ReadExpr(s, pos), n)
    decreases |s| - pos, 1
  {
    SkipBlankMoves(t, n, s, pos);
    if SkipBlank(s, pos) < |s| {
      ReadFromMoves(t, n, s, SkipBlank(s, pos));
    }
  }

  lemma OneMoreItem(s: string, pos: nat, br: Bracket, start: nat, items: seq<SExpr>)
    requires start < pos <= |s|
    requires var p := SkipBlank(s, pos); p < |s| && s[p] != Close(br) && ReadExpr(s, p).Ok?
    ensures var r := ReadExpr(s, SkipBlank(s, pos));
            ReadItems(s, pos, br, start, items) == ReadItems(s, r.pos, br, start, items + [r.expr])
  {
  }

  lemma NoMoreItems(s: string, pos: nat, br: Bracket, start: nat, items: seq<SExpr>)
    requires start < pos <= |s|
    requires var p := SkipBlank(s, pos); p == |s| || s[p] == Close(br) || ReadExpr(s, p).Err?
    ensures var p := SkipBlank(s, pos);
            ReadItems(s, pos, br, start, items)
            == if p == |s| then Err(Unclosed(br, start))
               else if s[p] == Close(br) then Ok(Group(br, items, start, p + 1), p + 1)
               else ReadExpr(s, p)
  {
  }

  ghost predicate Alike(t: string, n: nat, s: string, pos: nat)
    requires EndsWith(t, n, s) && pos <= |s|
  {
    var p := SkipBlank(s, pos);
    SkipBlank(t, n + pos) == n + p && ReadExpr(t, n + p) == MovedRead(ReadExpr(s, p), n)
  }

  ghost predicate ItemsAlike(t: string, n: nat, s: string, pos: nat, br: Bracket, start: nat, items: seq<SExpr>)
    requires EndsWith(t, n, s) && start < pos <= |s|
  {
    ReadItems(t, n + pos, br, n + start, AllMoved(items, n)) == MovedRead(ReadItems(s, pos, br, start, items), n)
  }

  lemma ItemMoves(t: string, n: nat, s: string, pos: nat, br: Bracket, start: nat, items: seq<SExpr>)
    requires EndsWith(t, n, s) && start < pos <= |s| && Alike(t, n, s, pos)
    requires var p := SkipBlank(s, pos); p < |s| && s[p] != Close(br) && ReadExpr(s, p).Ok?
    requires var r := ReadExpr(s, SkipBlank(s, pos)); ItemsAlike(t, n, s, r.pos, br, start, items + [r.expr])
    ensures ItemsAlike(t, n, s, pos, br, start, items)
  {
    OneMoreItem(s, pos, br, start, items);
    OneMoreItem(t, n + pos, br, n + start, AllMoved(items, n));
    AllMovedAppend(items, ReadExpr(s, SkipBlank(s, pos)).expr, n);
  }

  lemma LastMoves(t: string, n: nat, s: string, pos: nat, br: Bracket, start: nat, items: seq<SExpr>)
    requires EndsWith(t, n, s) && start < pos <= |s| && Alike(t, n, s, pos)
    requires var p := SkipBlank(s, pos); p == |s| || s[p] == Close(br) || ReadExpr(s, p).Err?
    ensures ItemsAlike(t, n, s, pos, br, start, items)
  {
    NoMoreItems(s, pos, br, start, items);
    NoMoreItems(t, n + pos, br, n + start, AllMoved(items, n));
  }

  lemma {:induction false} ItemsMove(t: string, n: nat, s: string, pos: nat, br: Bracket, start: nat,
                                     items: seq<SExpr>)
    requires EndsWith(t, n, s) && start < pos <= |s|
    ensures ItemsAlike(t, n, s, pos, br, start, items)
    decreases |s| - pos, 2
  {
    var p := SkipBlank(s, pos);
    SkipBlankMoves(t, n, s, pos);
    ReadMoves(t, n, s, p);
    if p < |s| && s[p] != Close(br) && ReadExpr(s, p).Ok? {
      var r := ReadExpr(s, p);
      ItemsMove(t, n, s, r.pos, br, start, items + [r.expr]);
      ItemMoves(t, n, s, pos, br, start, items);
    } else {
      LastMoves(t, n, s, pos, br, start, items);
    }
  }

  lemma {:induction false} ParseMoves(t: string, n: nat, s: string, pos: nat, exprs: seq<SExpr>)
    requires EndsWith(t, n, s) && pos <= |s|
    ensures ParseFrom(t, n + pos, AllMoved(exprs, n)) == MovedParse(ParseFrom(s, pos, exprs), n)
    decreases |s| - pos
  {
    var p := SkipBlank(s, pos);
    SkipBlankMoves(t, n, s, pos);
    if p < |s| {
      ReadMoves(t, n, s, p);
      var r := ReadExpr(s, p);
      if r.Ok? {
        AllMovedAppend(exprs, r.expr, n);
        ParseMoves(t, n, s, r.pos, exprs + [r.expr]);
      }
    }
  }

  // ---- Comments ------------------------------------------------------------

  predicate OneLine(text: string) { '\n' !in text }

  function Comment(text: string): string { [';'] + text + ['\n'] }

  /** A comment that the reader has entered at `pos` ends right behind the first newline from there on, or
      with the source. */
  lemma {:induction false} CommentEnds(s: string, pos: nat)
    requires pos <= |s|
    ensures var r := LineEnd(s, pos);
            if OneLine(s[pos..]) then r == |s| else pos < r && s[r - 1] == '\n' && OneLine(s[pos..r - 1])
    decreases |s| - pos
  {
    if pos < |s| {
      assert s[pos..] == [s[pos]] + s[pos + 1..];
      if s[pos] != '\n' {
        CommentEnds(s, pos + 1);
        var r := LineEnd(s, pos + 1);
        if !OneLine(s[pos + 1..]) {
          assert s[pos..r - 1] == [s[pos]] + s[pos + 1..r - 1];
        }
      }
    }
  }

  lemma {:induction false} LineEndsAt(s: string, pos: nat, text: string)
    requires OneLine(text) && At(s, pos, text + ['\n'])
    ensures LineEnd(s, pos) == pos + |text| + 1
    decreases |text|
  {
    AtChar(s, pos, text + ['\n'], 0);
    if text != [] {
      assert text + ['\n'] == [text[0]] + (text[1..] + ['\n']);
      AtSplits(s, pos, [text[0]], text[1..] + ['\n']);
      LineEndsAt(s, pos + 1, text[1..]);
    }
  }

  lemma SkipsComment(s: string, pos: nat, text: string)
    requires OneLine(text) && At(s, pos, Comment(text))
    ensures SkipBlank(s, pos) == SkipBlank(s, pos + |Comment(text)|)
  {
    assert Comment(text) == [';'] + (text + ['\n']);
    AtSplits(s, pos, [';'], text + ['\n']);
    AtChar(s, pos, [';'], 0);
    LineEndsAt(s, pos + 1, text);
  }

  /** Between two expressions, or two items of a bracketed form, of any source, a comment counts for
      nothing. */
  lemma CommentsCountForNothing(s: string, pos: nat, text: string, br: Bracket, start: nat, items: seq<SExpr>)
    requires OneLine(text) && At(s, pos, Comment(text)) && start < pos
    ensures var p := pos + |Comment(text)|;
            && ReadItems(s, pos, br, start, items) == ReadItems(s, p, br, start, items)
            && ParseFrom(s, pos, items) == ParseFrom(s, p, items) && ReadExpr(s, pos) == ReadExpr(s, p)
  {
    SkipsComment(s, pos, text);
  }

  /** A source behind a comment parses as it does alone: to the same expressions, up to spans, or to the
      same error that much further on. */
  lemma CommentThenParse(text: string, s: string)
    requires OneLine(text)
    ensures var n := |Comment(text)|;
            var r, alone := ParseFrom(Comment(text) + s, 0, []), ParseFrom(s, 0, []);
            && r == MovedParse(alone, n)
            && (alone.Parsed? <==> r.Parsed?) && (alone.Parsed? ==> AllBare(r.exprs) == AllBare(alone.exprs))
  {
    var n, t := |Comment(text)|, Comment(text) + s;
    SkipsComment(t, 0, text);
    ParseMoves(t, n, s, 0, []);
    if ParseFrom(s, 0, []).Parsed? {
      AllMovedAreBare(ParseFrom(s, 0, []).exprs, n);
    }
  }

  // ---- Inside brackets -----------------------------------------------------

  /** Items printed before something they do not run on into are read one after the other. */
  lemma {:induction false} ItemsReadOn(s: string, pos: nat, br: Bracket, start: nat, read: seq<SExpr>,
                                       items: seq<SExpr>)
    returns (read': seq<SExpr>)
    requires AllWellFormed(items) && start < pos && At(s, pos, PrintItems(items))
    requires Stops(s, pos + |PrintItems(items)|)
    ensures ReadItems(s, pos, br, start, read) == ReadItems(s, pos + |PrintItems(items)|, br, start, read')
    ensures AllBare(read') == AllBare(read) + AllBare(items)
    decreases items
  {
    if items == [] {
      read' := read;
      assert AllBare(read) + [] == AllBare(read);
    } else {
      var p, e := FirstReadOn(s, pos, br, start, read, items);
      read' := ItemsReadOn(s, p, br, start, read + [e], items[1..]);
      OneBareFurther(read, e, items);
    }
  }

  lemma FirstReadOn(s: string, pos: nat, br: Bracket, start: nat, read: seq<SExpr>, items: seq<SExpr>)
    returns (p: nat, e: SExpr)
    requires items != [] && AllWellFormed(items) && start < pos
    requires At(s, pos, PrintItems(items)) && Stops(s, pos + |PrintItems(items)|)
    ensures pos < p && At(s, p, PrintItems(items[1..])) && p + |PrintItems(items[1..])| == pos + |PrintItems(items)|
    ensures Bare(e) == Bare(items[0])
    ensures ReadItems(s, pos, br, start, read) == ReadItems(s, p, br, start, read + [e])
  {
    p := FirstItemRead(s, pos, br, start, read, items);
    e := ReadExpr(s, pos).expr;
  }

  lemma Parts(s: string, a: string, b: string, c: string, d: string, e: string)
    requires s == a + b + c + d + e
    ensures At(s, 0, a) && At(s, |a|, b) && At(s, |a| + |b|, c) && At(s, |a| + |b| + |c|, d)
    ensures At(s, |a| + |b| + |c| + |d|, e) && |s| == |a| + |b| + |c| + |d| + |e|
  {
    assert At(s, 0, a + b + c + d + e);
    GroupParts(s, 0, a + b + c, d, e);
    GroupParts(s, 0, a, b, c);
  }

  lemma StopsAtComment(s: string, pos: nat, text: string)
    requires At(s, pos, Comment(text))
    ensures Stops(s, pos)
  {
    AtChar(s, pos, Comment(text), 0);
  }

  lemma ItemsBehindComment(s: string, pos: nat, text: string, br: Bracket, start: nat, items: seq<SExpr>)
    requires OneLine(text) && At(s, pos, Comment(text)) && start < pos
    ensures ReadItems(s, pos, br, start, items) == ReadItems(s, pos + |Comment(text)|, br, start, items)
  {
    SkipsComment(s, pos, text);
  }

  lemma SameItemsRead(r: Read, br: Bracket, read: seq<SExpr>, a: seq<SExpr>, b: seq<SExpr>, end: nat)
    requires ItemsReadAs(r, br, read, b, end) && AllBare(read) == AllBare(a)
    ensures ItemsReadAs(r, br, a, b, end)
  {
  }

  lemma ReadAround(s: string, br: Bracket, a: seq<SExpr>, text: string, b: seq<SExpr>, p: nat, q: nat, c: nat, end: nat)
    requires AllWellFormed(a) && AllWellFormed(b) && OneLine(text)
    requires 0 < p && At(s, p, PrintItems(a)) && q == p + |PrintItems(a)| && At(s, q, Comment(text))
    requires c == q + |Comment(text)| && At(s, c, PrintItems(b))
    requires end == c + |PrintItems(b)| && At(s, end, [Close(br)])
    ensures ItemsReadAs(ReadItems(s, p, br, 0, []), br, a, b, end + 1)
  {
    StopsAtComment(s, q, text);
    var read := ItemsReadOn(s, p, br, 0, [], a);
    ItemsBehindComment(s, q, text, br, 0, read);
    ItemsRead(s, c, br, 0, read, b);
    assert AllBare([]) + AllBare(a) == AllBare(a);
    SameItemsRead(ReadItems(s, c, br, 0, read), br, read, a, b, end + 1);
  }

  /** A bracketed form with a comment between any two of its items, or before or behind all of them, is
      read as the form without it, up to spans. */
  lemma CommentBetweenItems(br: Bracket, a: seq<SExpr>, text: string, b: seq<SExpr>)
    requires AllWellFormed(a) && AllWellFormed(b) && OneLine(text)
    ensures var s := Open(br) + PrintItems(a) + Comment(text) + PrintItems(b) + [Close(br)];
            var r := ReadExpr(s, 0);
            r.Ok? && r.pos == |s| && r.expr.Group? && r.expr.br == br
            && AllBare(r.expr.items) == AllBare(a) + AllBare(b)
  {
    var s := Open(br) + PrintItems(a) + Comment(text) + PrintItems(b) + [Close(br)];
    var p := |Open(br)|;
    var q := p + |PrintItems(a)|;
    var c := q + |Comment(text)|;
    Parts(s, Open(br), PrintItems(a), Comment(text), PrintItems(b), [Close(br)]);
    GroupStarts(s, 0, br);
    ReadAround(s, br, a, text, b, p, q, c, c + |PrintItems(b)|);
  }
}
