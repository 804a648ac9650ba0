/** The grammar of Hy sources, by the places where things stand.  `parse_hy` succeeds exactly on the
    sources it describes, and with exactly the trees and spans it says. */
module HyGrammar {
  import opened HyComments
  import opened HyReader
  import opened Wrappers

  // ---- Characters ----------------------------------------------------------

  predicate Space(c: char) {
    c as int in {0x9, 0xA, 0xB, 0xC, 0xD, 0x20, 0x85, 0xA0, 0x1680, 0x2000, 0x2001, 0x2002, 0x2003, 0x2004, 0x2005,
                 0x2006, 0x2007, 0x2008, 0x2009, 0x200A, 0x2028, 0x2029, 0x202F, 0x205F, 0x3000}
  }

  predicate Delimiter(c: char) { Space(c) || c in "()[]{}\";,`~" }

  lemma SameCharacters(c: char)
    ensures IsWhitespace(c) == Space(c) && EndsIdent(c) == Delimiter(c)
  {
    var marks := "()[]{}\";,`~";
    assert marks == ['(', ')', '[', ']', '{', '}', '"', ';', ',', '`', '~'];
  }

  function Left(br: Bracket): string {
    if br.Round? then "(" else if br.Square? then "[" else if br.Curly? then "{" else "#("
  }

  function Right(br: Bracket): char { if br.Square? then ']' else if br.Curly? then '}' else ')' }

  function Sign(mark: Mark): string {
    if mark.Quote? then "'" else if mark.Quasiquote? then "`" else if mark.Unquote? then "~" else "~@"
  }

  // ---- Gaps ----------------------------------------------------------------

  /** A comment that begins at or behind `from` is still open at `i`. */
  ghost predicate InComment(s: string, from: nat, i: nat)
    requires i <= |s|
  {
    exists j: nat :: from <= j < i && s[j] == ';' && '\n' !in s[j..i]
  }

  ghost predicate Blank(s: string, from: nat, i: nat)
    requires i < |s|
  {
    Space(s[i]) || s[i] == ';' || InComment(s, from, i)
  }

  /** Nothing but whitespace and comments stands from `from` on before `to`. */
  ghost predicate Gap(s: string, from: nat, to: nat) {
    from <= to <= |s| && forall i: nat :: from <= i < to ==> Blank(s, from, i)
  }

  /** ... and what stands at `to` is not in a comment. */
  ghost predicate GapTo(s: string, from: nat, to: nat) { Gap(s, from, to) && !InComment(s, from, to) }

  /** Something other than a gap begins at `i`. */
  predicate Solid(s: string, i: nat) { i < |s| && !Space(s[i]) && s[i] != ';' }

  lemma GapAt(s: string, from: nat, to: nat, i: nat)
    requires Gap(s, from, to) && from <= i < to
    ensures Blank(s, from, i)
  {
  }

  lemma SpaceAhead(s: string, pos: nat, to: nat)
    requires pos < |s| && Space(s[pos]) && Gap(s, pos + 1, to)
    ensures Gap(s, pos, to) && (InComment(s, pos, to) <==> InComment(s, pos + 1, to))
  {
    forall i: nat | pos <= i < to ensures Blank(s, pos, i) {
      if i > pos {
        GapAt(s, pos + 1, to, i);
        if InComment(s, pos + 1, i) {
          var j: nat :| pos + 1 <= j < i && s[j] == ';' && '\n' !in s[j..i];
        }
      }
    }
  }

  lemma CommentOpen(s: string, pos: nat, i: nat, end: nat)
    requires pos < i <= end <= |s| && s[pos] == ';' && OneLine(s[pos + 1..end])
    ensures InComment(s, pos, i)
  {
    forall k | pos < k < i ensures s[k] != '\n' {
      assert s[pos + 1..end][k - pos - 1] == s[k];
    }
  }

  /** `q` is behind the newline that ends the comment beginning at `pos`. */
  lemma CommentAhead(s: string, pos: nat, q: nat, to: nat)
    requires pos + 1 < q <= |s| && s[pos] == ';' && s[q - 1] == '\n' && OneLine(s[pos + 1..q - 1]) && Gap(s, q, to)
    ensures Gap(s, pos, to) && (InComment(s, pos, to) <==> InComment(s, q, to))
  {
    forall i: nat | pos <= i < to ensures Blank(s, pos, i) {
      if pos < i < q - 1 {
        CommentOpen(s, pos, i, q - 1);
      } else if q <= i {
        GapAt(s, q, to, i);
        if InComment(s, q, i) {
          var j: nat :| q <= j < i && s[j] == ';' && '\n' !in s[j..i];
        }
      }
    }
    if InComment(s, pos, to) {
      var j: nat :| pos <= j < to && s[j] == ';' && '\n' !in s[j..to];
      forall k | j <= k < to ensures s[k] != '\n' {
        assert s[j..to][k - j] == s[k];
      }
      assert InComment(s, q, to);
    }
  }

  lemma CommentToTheEnd(s: string, pos: nat)
    requires pos < |s| && s[pos] == ';' && OneLine(s[pos + 1..])
    ensures Gap(s, pos, |s|)
  {
    forall i: nat | pos <= i < |s| ensures Blank(s, pos, i) {
      if pos < i {
        CommentOpen(s, pos, i, |s|);
      }
    }
  }

  lemma {:induction false} SkipsGap(s: string, pos: nat)
    requires pos <= |s|
    ensures var r := SkipBlank(s, pos); Gap(s, pos, r) && (r < |s| ==> GapTo(s, pos, r) && Solid(s, r))
    decreases |s| - pos
  {
    if pos < |s| {
      SameCharacters(s[pos]);
      if IsWhitespace(s[pos]) {
        SkipsGap(s, pos + 1);
        SpaceAhead(s, pos, SkipBlank(s, pos + 1));
      } else if s[pos] == ';' {
        CommentEnds(s, pos + 1);
        var q := LineEnd(s, pos + 1);
        SkipsGap(s, q);
        if OneLine(s[pos + 1..]) {
          CommentToTheEnd(s, pos);
        } else {
          CommentAhead(s, pos, q, SkipBlank(s, q));
        }
      }
    }
  }

  lemma GapEnds(s: string, pos: nat, a: nat, b: nat)
    requires GapTo(s, pos, a) && Solid(s, a) && Gap(s, pos, b)
    ensures b <= a
  {
    if a < b {
      GapAt(s, pos, b, a);
    }
  }

  /** What is skipped is a gap, as far as it goes. */
  lemma SkipsIff(s: string, pos: nat, to: nat)
    requires pos <= |s|
    ensures SkipBlank(s, pos) == to <==> if to == |s| then Gap(s, pos, to) else GapTo(s, pos, to) && Solid(s, to)
  {
    SkipsGap(s, pos);
    var r := SkipBlank(s, pos);
    if Gap(s, pos, to) && r < |s| {
      GapEnds(s, pos, r, to);
    }
    if GapTo(s, pos, to) && Solid(s, to) {
      GapEnds(s, pos, to, r);
    }
  }

  // ---- Literals and words --------------------------------------------------

  /** What a backslash and `c` mean in a string. */
  function Meant(c: char): string {
    if c == 'n' then "\n" else if c == 't' then "\t" else if c == '\\' || c == '"' then [c] else ['\\', c]
  }

  /** The string that `body` means between quotes, if it does not end early or within an escape. */
  function Meaning(body: string): Option<string> {
    if body == [] then Some([])
    else if body[0] == '"' || body == ['\\'] then None
    else if body[0] == '\\' then Behind(Meant(body[1]), Meaning(body[2..]))
    else Behind([body[0]], Meaning(body[1..]))
  }

  function Behind(first: string, rest: Option<string>): Option<string> {
    if rest.None? then None else Some(first + rest.value)
  }

  /** As long as it can be. */
  predicate Word(s: string, start: nat, end: nat) {
    && start < end <= |s|
    && (forall i :: start <= i < end ==> !Delimiter(s[i]))
    && (end < |s| ==> Delimiter(s[end]))
  }

  predicate Digit(c: char) { c in "0123456789" }

  predicate Numeric(word: string) {
    || (word != [] && Digit(word[0]))
    || (|word| > 1 && word[0] in "+-" && Digit(word[1]))
  }

  predicate AtomSpelled(s: string, kind: AtomKind, text: string, start: nat, end: nat) {
    if kind.Str? then
      start + 1 < end <= |s| && s[start] == '"' && s[end - 1] == '"' && Meaning(s[start + 1..end - 1]) == Some(text)
    else
      Word(s, start, end)
      && var word := s[start..end];
         if word[0] == ':' then kind.Keyword? && text == word[1..]
         else
           && kind == (if Numeric(word) then Number else Symbol) && text == word
           && word[0] != '\'' && !(word == "#" && end < |s| && s[end] == '(')
  }

  // ---- Forms ---------------------------------------------------------------

  /** The tree stands in `s` at its spans. */
  ghost predicate Spelled(s: string, e: SExpr)
    decreases e, 0
  {
    match e
    case Group(br, items, start, end) =>
      && start + |Left(br)| < end <= |s| && At(s, start, Left(br)) && s[end - 1] == Right(br)
      && ItemsSpelled(s, items, start + |Left(br)|, end - 1)
    case Marked(mark, inner, start, end) =>
      && At(s, start, Sign(mark)) && GapTo(s, start + |Sign(mark)|, inner.start)
      && (mark.Unquote? ==> !At(s, start, "~@"))
      && Spelled(s, inner) && end == inner.end
    case Atom(kind, text, start, end) => AtomSpelled(s, kind, text, start, end)
  }

  ghost predicate ItemsSpelled(s: string, items: seq<SExpr>, from: nat, to: nat)
    decreases items, 1
  {
    if items == [] then GapTo(s, from, to)
    else
      && GapTo(s, from, items[0].start) && Spelled(s, items[0])
      && ItemsSpelled(s, items[1..], items[0].end, to)
  }

  /** The trees follow one another in `s` from `from` on, up to its end. */
  ghost predicate AllSpelled(s: string, exprs: seq<SExpr>, from: nat) {
    if exprs == [] then Gap(s, from, |s|)
    else
      && GapTo(s, from, exprs[0].start) && Spelled(s, exprs[0])
      && AllSpelled(s, exprs[1..], exprs[0].end)
  }

  // ---- What is read is spelled ---------------------------------------------

  /** A body begins with a character, or with a backslash and another one. */
  lemma OneUnit(body: string)
    requires body != [] && body[0] != '"' && body != ['\\']
    ensures var n := UnitLength(body[0]);
            n <= |body| && Meaning(body) == Behind(UnitMeaning(body), Meaning(body[n..]))
  {
  }

  function UnitLength(c: char): nat { if c == '\\' then 2 else 1 }

  function UnitMeaning(body: string): string
    requires body != [] && UnitLength(body[0]) <= |body|
  {
    if body[0] == '\\' then Meant(body[1]) else [body[0]]
  }

  /** The loop goes on behind a unit with what it means. */
  lemma ReadsUnit(s: string, pos: nat, start: nat, text: string)
    requires start < pos < |s| && s[pos] != '"' && pos + UnitLength(s[pos]) <= |s|
    ensures ReadString(s, pos, start, text)
         == ReadString(s, pos + UnitLength(s[pos]), start, text + UnitMeaning(s[pos..]))
  {
    assert s[pos..][0] == s[pos] && (s[pos] == '\\' ==> s[pos..][1] == s[pos + 1]);
    if s[pos] == '\\' {
      assert Unescaped(s[pos + 1]) == Meant(s[pos + 1]);
    }
  }

  lemma SameUnit(s: string, pos: nat, end: nat)
    requires pos < end <= |s| && s[pos] != '"' && pos + UnitLength(s[pos]) <= end
    ensures var n := UnitLength(s[pos]);
            Meaning(s[pos..end]) == Behind(UnitMeaning(s[pos..]), Meaning(s[pos + n..end]))
  {
    var n := UnitLength(s[pos]);
    var body := s[pos..end];
    assert body[0] == s[pos] == s[pos..][0] && (n == 2 ==> body[1] == s[pos..][1] == s[pos + 1]);
    assert body[n..] == s[pos + n..end];
    OneUnit(body);
  }

  /** It came to `v` behind `text`, and to the quote before `r.pos`. */
  ghost predicate EndsWithQuote(s: string, pos: nat, start: nat, text: string, r: Read) {
    && r.Ok? && pos < r.pos <= |s| && s[r.pos - 1] == '"' && Meaning(s[pos..r.pos - 1]).Some?
    && r.expr == Atom(Str, text + Meaning(s[pos..r.pos - 1]).value, start, r.pos)
  }

  lemma UnitBehind(s: string, pos: nat, start: nat, text: string, r: Read)
    requires pos < |s| && s[pos] != '"' && pos + UnitLength(s[pos]) <= |s|
    requires EndsWithQuote(s, pos + UnitLength(s[pos]), start, text + UnitMeaning(s[pos..]), r)
    ensures EndsWithQuote(s, pos, start, text, r)
  {
    SameUnit(s, pos, r.pos - 1);
    var rest := Meaning(s[pos + UnitLength(s[pos])..r.pos - 1]).value;
    assert text + UnitMeaning(s[pos..]) + rest == text + (UnitMeaning(s[pos..]) + rest);
  }

  lemma {:induction false} StringIsSpelled(s: string, pos: nat, start: nat, text: string)
    requires start < pos <= |s| && ReadString(s, pos, start, text).Ok?
    ensures EndsWithQuote(s, pos, start, text, ReadString(s, pos, start, text))
    decreases |s| - pos
  {
    if s[pos] == '"' {
      assert s[pos..pos] == [] && text + [] == text;
    } else {
      ReadsUnit(s, pos, start, text);
      StringIsSpelled(s, pos + UnitLength(s[pos]), start, text + UnitMeaning(s[pos..]));
      UnitBehind(s, pos, start, text, ReadString(s, pos, start, text));
    }
  }

  lemma IdentIsWord(s: string, start: nat, pos: nat)
    requires start < |s| && start <= pos <= start + 1 && (pos > start ==> !Delimiter(s[start]))
    requires start < IdentEnd(s, pos)
    ensures Word(s, start, IdentEnd(s, pos))
  {
    var end := IdentEnd(s, pos);
    forall i | start <= i < end ensures !Delimiter(s[i]) {
      SameCharacters(s[i]);
    }
    if end < |s| {
      SameCharacters(s[end]);
    }
  }

  lemma SameDigits(c: char)
    ensures IsDigit(c) <==> Digit(c)
  {
    var digits := "0123456789";
    assert digits == ['0', '1', '2', '3', '4', '5', '6', '7', '8', '9'];
  }

  lemma StartsNumeric(s: string, start: nat, end: nat)
    requires Word(s, start, end)
    ensures StartsNumber(s, start) <==> Numeric(s[start..end])
  {
    forall c ensures IsDigit(c) <==> Digit(c) {
      SameDigits(c);
    }
    var signs := "+-";
    assert signs == ['+', '-'];
    if end < |s| {
      SameCharacters(s[end]);
    }
  }

  /** Where a word begins, the reader reads an atom. */
  ghost predicate ReadsWord(s: string, start: nat) {
    && start < |s| && !Delimiter(s[start]) && s[start] != '\''
    && !(s[start] == '#' && start + 1 < |s| && s[start + 1] == '(')
  }

  lemma WordEnds(s: string, start: nat, pos: nat)
    requires start < |s| && !Delimiter(s[start]) && start <= pos <= start + 1
    ensures var end := IdentEnd(s, pos); Word(s, start, end) && end == IdentEnd(s, start)
  {
    SameCharacters(s[start]);
    IdentIsWord(s, start, start);
    assert IdentEnd(s, start) == IdentEnd(s, start + 1);
  }

  lemma WordIsUnique(s: string, start: nat, a: nat, b: nat)
    requires Word(s, start, a) && Word(s, start, b)
    ensures a == b
  {
  }

  /** The atom that a word is. */
  lemma WordReads(s: string, start: nat)
    requires ReadsWord(s, start)
    ensures var r := ReadFrom(s, start);
            r.Ok? && r.expr.Atom? && r.expr.start == start && r.expr.end == r.pos && r.pos == IdentEnd(s, start)
            && AtomSpelled(s, r.expr.kind, r.expr.text, start, r.pos) && !r.expr.kind.Str?
  {
    SameCharacters(s[start]);
    WordEnds(s, start, start);
    WordEnds(s, start, start + 1);
    var end := IdentEnd(s, start);
    StartsNumeric(s, start, end);
    var signs := "+-";
    assert signs == ['+', '-'];
    SameDigits(s[start]);
    assert s[start..end][1..] == s[start + 1..end];
  }

  ghost predicate ReadAsSpelled(s: string, start: nat, r: Read) {
    r.Ok? ==> Spelled(s, r.expr) && r.expr.start == start && r.expr.end == r.pos
  }

  lemma GroupBegins(s: string, br: Bracket, start: nat)
    requires At(s, start, Left(br))
    ensures ReadFrom(s, start) == ReadItems(s, start + |Left(br)|, br, start, [])
  {
    AtChar(s, start, Left(br), 0);
    if br.HashRound? {
      AtChar(s, start, Left(br), 1);
    }
  }

  lemma MarkBegins(s: string, mark: Mark, start: nat)
    requires start < |s| && At(s, start, Sign(mark)) && (mark.Unquote? ==> !At(s, start, "~@"))
    ensures var r := ReadExpr(s, start + |Sign(mark)|);
            ReadFrom(s, start) == if r.Ok? then Ok(Marked(mark, r.expr, start, r.expr.end), r.pos) else r
  {
    AtChar(s, start, Sign(mark), 0);
    if mark.UnquoteSplice? {
      AtChar(s, start, Sign(mark), 1);
    }
    assert mark.Unquote? && start + 1 < |s| && s[start + 1] == '@' ==> At(s, start, "~@");
    assert ReadFrom(s, start) == ReadMarked(s, start + |Sign(mark)|, start, mark);
  }

  /** What is read was spelled. */
  lemma {:induction false} FormIsSpelled(s: string, start: nat)
    requires Solid(s, start)
    ensures ReadAsSpelled(s, start, ReadFrom(s, start))
    decreases |s| - start, 1
  {
    if br :| At(s, start, Left(br)) {
      GroupIsSpelled(s, start, br);
    } else if At(s, start, "~@") {
      MarkIsSpelled(s, start, UnquoteSplice);
    } else if mark :| At(s, start, Sign(mark)) {
      MarkIsSpelled(s, start, mark);
    } else if s[start] == '"' {
      LiteralIsSpelled(s, start);
    } else {
      OtherIsSpelled(s, start);
    }
  }

  lemma LiteralIsSpelled(s: string, start: nat)
    requires start < |s| && s[start] == '"'
    ensures ReadAsSpelled(s, start, ReadFrom(s, start))
  {
    var r := ReadFrom(s, start);
    if r.Ok? {
      StringIsSpelled(s, start + 1, start, []);
      assert [] + Meaning(s[start + 1..r.pos - 1]).value == Meaning(s[start + 1..r.pos - 1]).value;
    }
  }

  /** Neither a bracket nor a mark nor a literal begins there. */
  ghost predicate Plainly(s: string, start: nat) {
    && Solid(s, start) && s[start] != '"'
    && (forall br :: !At(s, start, Left(br))) && forall mark :: !At(s, start, Sign(mark))
  }

  lemma PlainCharacter(s: string, start: nat)
    requires Plainly(s, start)
    ensures s[start] !in "([{\"'`~" && !(s[start] == '#' && start + 1 < |s| && s[start + 1] == '(')
  {
    assert !At(s, start, Left(Round)) && !At(s, start, Left(Square)) && !At(s, start, Left(Curly));
    assert !At(s, start, Left(HashRound));
    assert !At(s, start, Sign(Quote)) && !At(s, start, Sign(Quasiquote)) && !At(s, start, Sign(Unquote));
  }

  lemma OtherIsSpelled(s: string, start: nat)
    requires Plainly(s, start)
    ensures ReadAsSpelled(s, start, ReadFrom(s, start))
  {
    PlainCharacter(s, start);
    SameCharacters(s[start]);
    if Delimiter(s[start]) {
    } else {
      WordReads(s, start);
    }
  }

  lemma {:induction false} MarkIsSpelled(s: string, start: nat, mark: Mark)
    requires start < |s| && At(s, start, Sign(mark)) && (mark.Unquote? ==> !At(s, start, "~@"))
    ensures ReadAsSpelled(s, start, ReadFrom(s, start))
    decreases |s| - start, 0
  {
    MarkBegins(s, mark, start);
    var r := ReadExpr(s, start + |Sign(mark)|);
    if r.Ok? {
      ReadIsSpelled(s, start + |Sign(mark)|);
      SpelledMark(s, mark, r.expr, start);
    }
  }

  lemma SpelledMark(s: string, mark: Mark, inner: SExpr, start: nat)
    requires At(s, start, Sign(mark)) && (mark.Unquote? ==> !At(s, start, "~@"))
    requires GapTo(s, start + |Sign(mark)|, inner.start) && Spelled(s, inner)
    ensures Spelled(s, Marked(mark, inner, start, inner.end))
  {
  }

  lemma {:induction false} GroupIsSpelled(s: string, start: nat, br: Bracket)
    requires start < |s| && At(s, start, Left(br))
    ensures ReadAsSpelled(s, start, ReadFrom(s, start))
    decreases |s| - start, 0
  {
    GroupBegins(s, br, start);
    var r := ReadItems(s, start + |Left(br)|, br, start, []);
    if r.Ok? {
      var items := ItemsAreSpelled(s, start + |Left(br)|, br, start, []);
      SpelledGroup(s, start, br, items, r);
    }
  }

  lemma SpelledGroup(s: string, start: nat, br: Bracket, items: seq<SExpr>, r: Read)
    requires At(s, start, Left(br)) && GroupSpelled(s, start + |Left(br)|, br, start, [], items, r)
    requires r.pos > start + |Left(br)|
    ensures ReadAsSpelled(s, start, r)
  {
    assert [] + items == items;
  }

  /** The reader is at `start` once it has skipped what is in front. */
  lemma NextForm(s: string, pos: nat)
    requires pos <= |s| && SkipBlank(s, pos) < |s|
    ensures var p := SkipBlank(s, pos);
            GapTo(s, pos, p) && Solid(s, p) && ReadExpr(s, pos) == ReadFrom(s, p) && ReadExpr(s, p) == ReadFrom(s, p)
  {
    SkipsGap(s, pos);
  }

  /** A successful read skips a gap and returns what is spelled behind it. */
  lemma {:induction false} ReadIsSpelled(s: string, pos: nat)
    requires pos <= |s| && ReadExpr(s, pos).Ok?
    ensures var r := ReadExpr(s, pos); GapTo(s, pos, r.expr.start) && Spelled(s, r.expr) && r.expr.end == r.pos
    decreases |s| - pos, 2
  {
    NextForm(s, pos);
    FormIsSpelled(s, SkipBlank(s, pos));
  }

  /** `r` is a form that begins with `items`, and goes on with what is spelled from `pos` on. */
  ghost predicate GroupSpelled(s: string, pos: nat, br: Bracket, start: nat, items: seq<SExpr>, more: seq<SExpr>,
                               r: Read)
  {
    && r.Ok? && 0 < r.pos <= |s| && s[r.pos - 1] == Right(br) && r.expr == Group(br, items + more, start, r.pos)
    && ItemsSpelled(s, more, pos, r.pos - 1)
  }

  lemma OneItemSpelled(s: string, pos: nat, br: Bracket, start: nat, items: seq<SExpr>, e: SExpr, rest: seq<SExpr>,
                       r: Read)
    requires GapTo(s, pos, e.start) && Spelled(s, e) && GroupSpelled(s, e.end, br, start, items + [e], rest, r)
    ensures GroupSpelled(s, pos, br, start, items, [e] + rest, r)
  {
    assert ([e] + rest)[1..] == rest;
    assert items + [e] + rest == items + ([e] + rest);
  }

  lemma {:induction false} ItemsAreSpelled(s: string, pos: nat, br: Bracket, start: nat, items: seq<SExpr>)
    returns (more: seq<SExpr>)
    requires start < pos <= |s| && ReadItems(s, pos, br, start, items).Ok?
    ensures GroupSpelled(s, pos, br, start, items, more, ReadItems(s, pos, br, start, items))
    decreases |s| - pos, 2
  {
    var p := SkipBlank(s, pos);
    NextForm(s, pos);
    if s[p] == Close(br) {
      NoMoreItems(s, pos, br, start, items);
      more := [];
      assert items + [] == items;
    } else {
      FormIsSpelled(s, p);
      var r := ReadExpr(s, p);
      OneMoreItem(s, pos, br, start, items);
      var rest := ItemsAreSpelled(s, r.pos, br, start, items + [r.expr]);
      OneItemSpelled(s, pos, br, start, items, r.expr, rest, ReadItems(s, pos, br, start, items));
      more := [r.expr] + rest;
    }
  }

  lemma ParsesOne(s: string, pos: nat, exprs: seq<SExpr>)
    requires pos <= |s|
    ensures var p := SkipBlank(s, pos);
            ParseFrom(s, pos, exprs)
            == if p == |s| then Parsed(exprs)
               else if ReadExpr(s, p).Err? then NotParsed(ReadExpr(s, p).error)
               else ParseFrom(s, ReadExpr(s, p).pos, exprs + [ReadExpr(s, p).expr])
  {
  }

  ghost predicate SourceSpelled(s: string, pos: nat, exprs: seq<SExpr>, more: seq<SExpr>, r: Parsed) {
    r == Parsed(exprs + more) && AllSpelled(s, more, pos)
  }

  lemma OneExprSpelled(s: string, pos: nat, exprs: seq<SExpr>, e: SExpr, rest: seq<SExpr>, r: Parsed)
    requires GapTo(s, pos, e.start) && Spelled(s, e) && SourceSpelled(s, e.end, exprs + [e], rest, r)
    ensures SourceSpelled(s, pos, exprs, [e] + rest, r)
  {
    assert ([e] + rest)[1..] == rest;
    assert exprs + [e] + rest == exprs + ([e] + rest);
  }

  lemma {:induction false} ParsedIsSpelled(s: string, pos: nat, exprs: seq<SExpr>) returns (more: seq<SExpr>)
    requires pos <= |s| && ParseFrom(s, pos, exprs).Parsed?
    ensures SourceSpelled(s, pos, exprs, more, ParseFrom(s, pos, exprs))
    decreases |s| - pos
  {
    var p := SkipBlank(s, pos);
    ParsesOne(s, pos, exprs);
    if p == |s| {
      SkipsGap(s, pos);
      more := [];
      assert exprs + [] == exprs;
    } else {
      NextForm(s, pos);
      FormIsSpelled(s, p);
      var r := ReadExpr(s, p);
      var rest := ParsedIsSpelled(s, r.pos, exprs + [r.expr]);
      OneExprSpelled(s, pos, exprs, r.expr, rest, ParseFrom(s, pos, exprs));
      more := [r.expr] + rest;
    }
  }

  // ---- What is spelled is read ---------------------------------------------

  lemma {:induction false} LiteralReads(s: string, pos: nat, end: nat, start: nat, text: string)
    requires start < pos <= end < |s| && s[end] == '"' && Meaning(s[pos..end]).Some?
    ensures ReadString(s, pos, start, text) == Ok(Atom(Str, text + Meaning(s[pos..end]).value, start, end + 1), end + 1)
    decreases end - pos
  {
    if pos == end {
      assert text + [] == text;
    } else {
      assert s[pos..end][0] == s[pos] && s[pos..end] != ['\\'];
      SameUnit(s, pos, end);
      ReadsUnit(s, pos, start, text);
      LiteralReads(s, pos + UnitLength(s[pos]), end, start, text + UnitMeaning(s[pos..]));
      var rest := Meaning(s[pos + UnitLength(s[pos])..end]).value;
      assert text + UnitMeaning(s[pos..]) + rest == text + (UnitMeaning(s[pos..]) + rest);
    }
  }

  /** A form begins there, and nothing that closes one. */
  predicate Opens(s: string, i: nat) { Solid(s, i) && s[i] !in ")]}" }

  lemma GroupOpens(s: string, br: Bracket, start: nat)
    requires At(s, start, Left(br))
    ensures Opens(s, start)
  {
    assert s[start] == Left(br)[0];
  }

  lemma MarkOpens(s: string, mark: Mark, start: nat)
    requires At(s, start, Sign(mark))
    ensures Opens(s, start)
  {
    assert s[start] == Sign(mark)[0];
  }

  lemma AtomOpens(s: string, kind: AtomKind, text: string, start: nat, end: nat)
    requires AtomSpelled(s, kind, text, start, end)
    ensures start < end <= |s| && Opens(s, start)
  {
    SameCharacters(s[start]);
  }

  lemma {:induction false} SpelledStarts(s: string, e: SExpr)
    requires Spelled(s, e)
    ensures Opens(s, e.start) && e.start < e.end <= |s|
    decreases e
  {
    match e
    case Group(br, _, start, _) => GroupOpens(s, br, start);
    case Marked(mark, inner, start, _) =>
      MarkOpens(s, mark, start);
      SpelledStarts(s, inner);
    case Atom(kind, text, start, end) => AtomOpens(s, kind, text, start, end);
  }

  ghost predicate ReadsBack(s: string, e: SExpr) { e.start < |s| && ReadFrom(s, e.start) == Ok(e, e.end) }

  lemma AtomSpelledReads(s: string, e: SExpr)
    requires e.Atom? && Spelled(s, e)
    ensures ReadsBack(s, e)
  {
    if e.kind.Str? {
      LiteralReads(s, e.start + 1, e.end - 1, e.start, []);
      assert [] + e.text == e.text;
    } else {
      WordStarts(s, e.kind, e.text, e.start, e.end);
      WordReads(s, e.start);
      WordEnds(s, e.start, e.start);
      WordIsUnique(s, e.start, e.end, IdentEnd(s, e.start));
    }
  }

  lemma WordStarts(s: string, kind: AtomKind, text: string, start: nat, end: nat)
    requires AtomSpelled(s, kind, text, start, end) && !kind.Str?
    ensures ReadsWord(s, start)
  {
    var word := s[start..end];
    assert word[0] == s[start];
    if start + 1 < |s| && s[start + 1] == '(' {
      assert Delimiter('(');
      assert word == [s[start]];
    }
  }

  lemma GapSkips(s: string, pos: nat, e: SExpr)
    requires GapTo(s, pos, e.start) && Spelled(s, e) && ReadsBack(s, e)
    ensures SkipBlank(s, pos) == e.start && ReadExpr(s, pos) == Ok(e, e.end) && ReadExpr(s, e.start) == Ok(e, e.end)
  {
    SpelledStarts(s, e);
    SkipsIff(s, pos, e.start);
    SkipsGap(s, e.start);
    NextForm(s, pos);
  }

  lemma SpelledItemReads(s: string, e: SExpr, from: nat, br: Bracket, start: nat, read: seq<SExpr>)
    requires start < from && GapTo(s, from, e.start) && Spelled(s, e) && ReadsBack(s, e)
    ensures from < e.end <= |s|
    ensures ReadItems(s, from, br, start, read) == ReadItems(s, e.end, br, start, read + [e])
  {
    SpelledStarts(s, e);
    GapSkips(s, from, e);
    OneMoreItem(s, from, br, start, read);
  }

  /** The loop comes to all of `items`, behind what is `read`, and to the closer at `to`. */
  ghost predicate Closes(s: string, from: nat, to: nat, br: Bracket, start: nat, read: seq<SExpr>, items: seq<SExpr>) {
    start < from <= |s| && ReadItems(s, from, br, start, read) == Ok(Group(br, read + items, start, to + 1), to + 1)
  }

  lemma ClosesHere(s: string, from: nat, to: nat, br: Bracket, start: nat, read: seq<SExpr>)
    requires start < from && GapTo(s, from, to) && to < |s| && s[to] == Right(br)
    ensures Closes(s, from, to, br, start, read, [])
  {
    SkipsIff(s, from, to);
    NoMoreItems(s, from, br, start, read);
    assert read + [] == read;
  }

  lemma ClosesBehind(s: string, from: nat, p: nat, to: nat, br: Bracket, start: nat, read: seq<SExpr>, e: SExpr,
                     items: seq<SExpr>)
    requires Closes(s, p, to, br, start, read + [e], items) && start < from < p
    requires ReadItems(s, from, br, start, read) == ReadItems(s, p, br, start, read + [e])
    ensures Closes(s, from, to, br, start, read, [e] + items)
  {
    assert read + [e] + items == read + ([e] + items);
  }

  lemma GroupReadsBack(s: string, br: Bracket, items: seq<SExpr>, start: nat, end: nat)
    requires start + |Left(br)| < end <= |s| && At(s, start, Left(br))
    requires Closes(s, start + |Left(br)|, end - 1, br, start, [], items)
    ensures ReadsBack(s, Group(br, items, start, end))
  {
    GroupBegins(s, br, start);
    assert [] + items == items;
  }

  lemma MarkReadsBack(s: string, mark: Mark, inner: SExpr, start: nat)
    requires At(s, start, Sign(mark)) && (mark.Unquote? ==> !At(s, start, "~@")) && start + |Sign(mark)| <= |s|
    requires ReadExpr(s, start + |Sign(mark)|) == Ok(inner, inner.end)
    ensures ReadsBack(s, Marked(mark, inner, start, inner.end))
  {
    MarkBegins(s, mark, start);
  }

  /** What is spelled is read, spans and all. */
  lemma {:induction false} SpelledReads(s: string, e: SExpr)
    requires Spelled(s, e)
    ensures ReadsBack(s, e)
    decreases e, 2
  {
    match e
    case Group(_, _, _, _) => SpelledGroupReads(s, e);
    case Marked(_, _, _, _) => SpelledMarkReads(s, e);
    case Atom(_, _, _, _) => AtomSpelledReads(s, e);
  }

  lemma {:induction false} SpelledGroupReads(s: string, e: SExpr)
    requires e.Group? && Spelled(s, e)
    ensures ReadsBack(s, e)
    decreases e, 1
  {
    SpelledItemsRead(s, e.items, e.start + |Left(e.br)|, e.end - 1, e.br, e.start, []);
    GroupReadsBack(s, e.br, e.items, e.start, e.end);
  }

  lemma {:induction false} SpelledMarkReads(s: string, e: SExpr)
    requires e.Marked? && Spelled(s, e)
    ensures ReadsBack(s, e)
    decreases e, 1
  {
    SpelledReads(s, e.inner);
    GapSkips(s, e.start + |Sign(e.mark)|, e.inner);
    MarkReadsBack(s, e.mark, e.inner, e.start);
  }

  lemma {:induction false} SpelledItemsRead(s: string, items: seq<SExpr>, from: nat, to: nat, br: Bracket, start: nat,
                                            read: seq<SExpr>)
    requires start < from && ItemsSpelled(s, items, from, to) && to < |s| && s[to] == Right(br)
    ensures Closes(s, from, to, br, start, read, items)
    decreases items, 1
  {
    if items == [] {
      ClosesHere(s, from, to, br, start, read);
    } else {
      var e := items[0];
      SpelledReads(s, e);
      SpelledItemReads(s, e, from, br, start, read);
      SpelledItemsRead(s, items[1..], e.end, to, br, start, read + [e]);
      ClosesBehind(s, from, e.end, to, br, start, read, e, items[1..]);
      assert [e] + items[1..] == items;
    }
  }

  /** The loop comes to all of `exprs`, behind what is `read`. */
  ghost predicate Finishes(s: string, from: nat, read: seq<SExpr>, exprs: seq<SExpr>) {
    from <= |s| && ParseFrom(s, from, read) == Parsed(read + exprs)
  }

  lemma FinishesHere(s: string, from: nat, read: seq<SExpr>)
    requires Gap(s, from, |s|)
    ensures Finishes(s, from, read, [])
  {
    SkipsIff(s, from, |s|);
    ParsesOne(s, from, read);
    assert read + [] == read;
  }

  lemma SpelledExprParses(s: string, e: SExpr, from: nat, read: seq<SExpr>)
    requires GapTo(s, from, e.start) && Spelled(s, e) && ReadsBack(s, e)
    ensures e.end <= |s| && ParseFrom(s, from, read) == ParseFrom(s, e.end, read + [e])
  {
    SpelledStarts(s, e);
    GapSkips(s, from, e);
    ParsesOne(s, from, read);
  }

  lemma FinishesBehind(s: string, from: nat, p: nat, read: seq<SExpr>, e: SExpr, exprs: seq<SExpr>)
    requires from <= |s| && Finishes(s, p, read + [e], exprs)
    requires ParseFrom(s, from, read) == ParseFrom(s, p, read + [e])
    ensures Finishes(s, from, read, [e] + exprs)
  {
    assert read + [e] + exprs == read + ([e] + exprs);
  }

  lemma {:induction false} SpelledParses(s: string, exprs: seq<SExpr>, from: nat, read: seq<SExpr>)
    requires AllSpelled(s, exprs, from)
    ensures Finishes(s, from, read, exprs)
    decreases |exprs|
  {
    if exprs == [] {
      FinishesHere(s, from, read);
    } else {
      var e := exprs[0];
      SpelledReads(s, e);
      SpelledExprParses(s, e, from, read);
      SpelledParses(s, exprs[1..], e.end, read + [e]);
      FinishesBehind(s, from, e.end, read, e, exprs[1..]);
      assert [e] + exprs[1..] == exprs;
    }
  }

  // ---- What is wrong -------------------------------------------------------

  ghost predicate FormsToTheEnd(s: string, from: nat) { exists es :: AllSpelled(s, es, from) }

  /** The error names what is wrong in `s`. */
  ghost predicate Wrong(s: string, error: ParseError) {
    match error
    case UnexpectedEnd(offset) => offset == |s|
    case Unclosed(br, offset) => At(s, offset, Left(br)) && FormsToTheEnd(s, offset + |Left(br)|)
    case UnterminatedString(offset) => offset < |s| && s[offset] == '"' && Meaning(s[offset + 1..]).Some?
    case UnterminatedEscape(offset) =>
      offset == |s| && exists q: nat :: q + 1 < |s| && s[q] == '"' && EndsInEscape(s[q + 1..])
    case UnexpectedCharacter(offset) => offset < |s| && s[offset] in ")]},"
  }

  predicate EndsInEscape(body: string) {
    body != [] && body[|body| - 1] == '\\' && Meaning(body[..|body| - 1]).Some?
  }

  lemma {:induction false} StringIsWrong(s: string, pos: nat, start: nat, text: string)
    requires start < pos <= |s| && ReadString(s, pos, start, text).Err?
    ensures ReadString(s, pos, start, text).error
         == if Meaning(s[pos..]).Some? then UnterminatedString(start) else UnterminatedEscape(|s|)
    ensures Meaning(s[pos..]).None? ==> EndsInEscape(s[pos..])
    decreases |s| - pos
  {
    if pos < |s| {
      var n := UnitLength(s[pos]);
      if pos + n <= |s| {
        ReadsUnit(s, pos, start, text);
        StringIsWrong(s, pos + n, start, text + UnitMeaning(s[pos..]));
        assert s[pos..][n..] == s[pos + n..];
        OneUnitOn(s[pos..]);
      } else {
        assert s[pos..] == ['\\'] && s[pos..][..0] == [];
      }
    }
  }

  lemma OneUnitOn(body: string)
    requires body != [] && body[0] != '"' && UnitLength(body[0]) <= |body|
    ensures Meaning(body).Some? <==> Meaning(body[UnitLength(body[0])..]).Some?
    ensures EndsInEscape(body[UnitLength(body[0])..]) ==> EndsInEscape(body)
  {
    var n := UnitLength(body[0]);
    OneUnit(body);
    if EndsInEscape(body[n..]) {
      var front := body[..|body| - 1];
      assert front[n..] == body[n..][..|body[n..]| - 1];
      OneUnit(front);
    }
  }

  ghost predicate FailsWrong(s: string, r: Read) { r.Err? ==> Wrong(s, r.error) }

  /** An error says what is wrong, and where. */
  lemma {:induction false} FormIsWrong(s: string, start: nat)
    requires Solid(s, start)
    ensures FailsWrong(s, ReadFrom(s, start))
    decreases |s| - start, 1
  {
    if br :| At(s, start, Left(br)) {
      GroupIsWrong(s, start, br);
    } else if At(s, start, "~@") {
      MarkIsWrong(s, start, UnquoteSplice);
    } else if mark :| At(s, start, Sign(mark)) {
      MarkIsWrong(s, start, mark);
    } else if s[start] == '"' {
      LiteralIsWrong(s, start);
    } else {
      OtherIsWrong(s, start);
    }
  }

  lemma LiteralIsWrong(s: string, start: nat)
    requires start < |s| && s[start] == '"'
    ensures FailsWrong(s, ReadFrom(s, start))
  {
    if ReadFrom(s, start).Err? {
      StringIsWrong(s, start + 1, start, []);
    }
  }

  lemma OtherIsWrong(s: string, start: nat)
    requires Plainly(s, start)
    ensures FailsWrong(s, ReadFrom(s, start))
  {
    PlainCharacter(s, start);
    SameCharacters(s[start]);
    if Delimiter(s[start]) {
      assert s[start] in [')', ']', '}', ','];
      assert ")]}," == [')', ']', '}', ','];
    } else {
      WordReads(s, start);
    }
  }

  lemma {:induction false} GroupIsWrong(s: string, start: nat, br: Bracket)
    requires start < |s| && At(s, start, Left(br))
    ensures FailsWrong(s, ReadFrom(s, start))
    decreases |s| - start, 0
  {
    GroupBegins(s, br, start);
    ItemsAreWrong(s, start + |Left(br)|, br, start, []);
  }

  lemma {:induction false} MarkIsWrong(s: string, start: nat, mark: Mark)
    requires start < |s| && At(s, start, Sign(mark)) && (mark.Unquote? ==> !At(s, start, "~@"))
    ensures FailsWrong(s, ReadFrom(s, start))
    decreases |s| - start, 0
  {
    MarkBegins(s, mark, start);
    ReadIsWrong(s, start + |Sign(mark)|);
  }

  lemma {:induction false} ReadIsWrong(s: string, pos: nat)
    requires pos <= |s|
    ensures FailsWrong(s, ReadExpr(s, pos))
    decreases |s| - pos, 2
  {
    if SkipBlank(s, pos) < |s| {
      NextForm(s, pos);
      FormIsWrong(s, SkipBlank(s, pos));
    }
  }

  ghost predicate ItemsWrong(s: string, pos: nat, br: Bracket, start: nat, r: Read) {
    r.Err? ==> Wrong(s, r.error) || (r.error == Unclosed(br, start) && FormsToTheEnd(s, pos))
  }

  lemma OneItemAhead(s: string, pos: nat, br: Bracket, start: nat, e: SExpr, r: Read)
    requires GapTo(s, pos, e.start) && Spelled(s, e) && ItemsWrong(s, e.end, br, start, r)
    ensures ItemsWrong(s, pos, br, start, r)
  {
    if r.Err? && !Wrong(s, r.error) {
      var es :| AllSpelled(s, es, e.end);
      assert ([e] + es)[1..] == es;
      assert AllSpelled(s, [e] + es, pos);
    }
  }

  lemma {:induction false} ItemsAreWrong(s: string, pos: nat, br: Bracket, start: nat, items: seq<SExpr>)
    requires start < pos <= |s|
    ensures ItemsWrong(s, pos, br, start, ReadItems(s, pos, br, start, items))
    decreases |s| - pos, 2
  {
    var p := SkipBlank(s, pos);
    if p == |s| {
      NoMoreItems(s, pos, br, start, items);
      SkipsGap(s, pos);
      assert AllSpelled(s, [], pos);
    } else {
      NextForm(s, pos);
      if s[p] == Close(br) || ReadExpr(s, p).Err? {
        NoMoreItems(s, pos, br, start, items);
        FormIsWrong(s, p);
      } else {
        var r := ReadExpr(s, p);
        FormIsSpelled(s, p);
        OneMoreItem(s, pos, br, start, items);
        ItemsAreWrong(s, r.pos, br, start, items + [r.expr]);
        OneItemAhead(s, pos, br, start, r.expr, ReadItems(s, pos, br, start, items));
      }
    }
  }

  // ---- The theorems --------------------------------------------------------

  /** From any place of any source exactly that is read which is spelled there, behind a gap. */
  lemma ReadsIffSpelled(s: string, pos: nat, e: SExpr)
    requires pos <= |s|
    ensures ReadExpr(s, pos) == Ok(e, e.end) <==> GapTo(s, pos, e.start) && Spelled(s, e)
    ensures ReadExpr(s, pos).Ok? ==> ReadExpr(s, pos).pos == ReadExpr(s, pos).expr.end
  {
    if ReadExpr(s, pos).Ok? {
      ReadIsSpelled(s, pos);
    }
    if GapTo(s, pos, e.start) && Spelled(s, e) {
      SpelledReads(s, e);
      GapSkips(s, pos, e);
    }
  }

  lemma ParsesTo(s: string, exprs: seq<SExpr>)
    ensures ParseFrom(s, 0, []) == Parsed(exprs) <==> AllSpelled(s, exprs, 0)
  {
    if AllSpelled(s, exprs, 0) {
      SpelledParses(s, exprs, 0, []);
      assert [] + exprs == exprs;
    }
    if ParseFrom(s, 0, []) == Parsed(exprs) {
      var all := ParsedIsSpelled(s, 0, []);
      assert [] + all == all;
    }
  }

  /** A source parses to exactly the trees that are spelled in it, so it has no two readings, and fails to
      parse exactly if the grammar has none for it. */
  lemma ParsesIffSpelled(s: string, exprs: seq<SExpr>)
    ensures ParseFrom(s, 0, []) == Parsed(exprs) <==> AllSpelled(s, exprs, 0)
    ensures ParseFrom(s, 0, []).NotParsed? <==> !exists es :: AllSpelled(s, es, 0)
  {
    var r := ParseFrom(s, 0, []);
    ParsesTo(s, exprs);
    if r.Parsed? {
      ParsesTo(s, r.exprs);
    }
    if es :| AllSpelled(s, es, 0) {
      ParsesTo(s, es);
    }
  }

  /** If it fails, the error is right about the source: it names a bracket behind which complete forms
      run to the end, a quote behind which a literal does, or one broken off in an escape, the end, or a
      character that begins nothing. */
  lemma {:induction false} ErrorsAreRight(s: string, pos: nat, exprs: seq<SExpr>)
    requires pos <= |s| && ParseFrom(s, pos, exprs).NotParsed?
    ensures Wrong(s, ParseFrom(s, pos, exprs).error)
    decreases |s| - pos
  {
    ParsesOne(s, pos, exprs);
    var p := SkipBlank(s, pos);
    ReadIsWrong(s, p);
    if ReadExpr(s, p).Ok? {
      ErrorsAreRight(s, ReadExpr(s, p).pos, exprs + [ReadExpr(s, p).expr]);
    }
  }
}
