/** JSON documents as people lay them out: with blanks, line ends and comments between the tokens, with
    strings spelled in any way and members in any order.  The reader finds the value in all of them. */
module JsonLayout {
  import opened Json
  import opened JsonGrammar
  import opened JsonRoundTrip
  import opened JsonSpellings
  import opened Strings

  // ------------------------------------------------------------------------------------------
  // Gaps
  // ------------------------------------------------------------------------------------------

  /** What may stand between two tokens. */
  datatype Piece =
    | Blank
    | Tab
    | Return
    | LineFeed
    | Block(body: string)                // a comment that may span lines
    | Line(body: string, end: char)      // a comment up to the end of its line

  type Gap = seq<Piece>

  predicate IsComment(p: Piece) { p.Block? || p.Line? }

  predicate PieceOk(p: Piece) {
    match p
    case Block(body) => forall k :: 0 <= k < |body| - 1 ==> !(body[k] == '*' && body[k + 1] == '/')
    case Line(body, end) => (end == '\n' || end == '\r') && '\n' !in body && '\r' !in body
    case _ => true
  }

  predicate GapOk(gap: Gap) {
    forall k :: 0 <= k < |gap| ==> PieceOk(gap[k])
  }

  /** Without comments, which the reader allows in most places only. */
  predicate OnlySpaces(gap: Gap) {
    forall k :: 0 <= k < |gap| ==> !IsComment(gap[k])
  }

  function PieceText(p: Piece): (t: string)
    ensures t != ""
  {
    match p
    case Blank => " "
    case Tab => "\t"
    case Return => "\r"
    case LineFeed => "\n"
    case Block(body) => "/*" + (body + "*/")
    case Line(body, end) => "//" + (body + [end])
  }

  /** The gap and what follows it. */
  function GapText(gap: Gap, more: string): string {
    if gap == [] then more else PieceText(gap[0]) + GapText(gap[1..], more)
  }

  lemma {:induction false} BlockIsRead(d: string, i: nat, body: string, more: string)
    requires PieceOk(Block(body)) && Rest(d, i, body + ("*/" + more))
    ensures ReadCStyleComment(d, i) == Scan(true, |d| - |more|)
    decreases |body|
  {
    var t := body + ("*/" + more);
    First(d, i, t);
    First(d, i + 1, t[1..]);
    if body == "" {
      assert t == "*/" + more;
    } else {
      assert t[1..] == body[1..] + ("*/" + more);
      assert |body| > 1 ==> !(body[0] == '*' && body[1] == '/');
      BlockIsRead(d, i + 1, body[1..], more);
    }
  }

  lemma {:induction false} LineIsRead(d: string, i: nat, body: string, end: char, more: string)
    requires PieceOk(Line(body, end)) && Rest(d, i, body + ([end] + more))
    ensures ReadCppStyleComment(d, i) == Scan(true, |d| - |more|)
    decreases |body|
  {
    var t := body + ([end] + more);
    First(d, i, t);
    if body == "" {
      assert t == [end] + more;
    } else {
      assert t[1..] == body[1..] + ([end] + more);
      assert body[0] in body;
      LineIsRead(d, i + 1, body[1..], end, more);
    }
  }

  lemma SlashStartsComment(d: string, i: nat, at: nat)
    requires i < |d| && d[i] == '/' && ReadComment(d, i + 1) == Scan(true, at)
    ensures SkipSpaces(d, i) == i && ReadToken(d, i) == Token(Comment, i, at) && SkipComments(d, i) == SkipComments(d, at)
  {
    hide ReadComment;
  }

  lemma CommentIsRead(d: string, i: nat, p: Piece, more: string)
    requires IsComment(p) && PieceOk(p) && Rest(d, i, PieceText(p) + more)
    ensures |more| <= |d| && ReadToken(d, i) == Token(Comment, i, |d| - |more|)
    ensures SkipComments(d, i) == SkipComments(d, |d| - |more|)
  {
    hide ReadToken, SkipComments, ReadCStyleComment, ReadCppStyleComment;
    var a := if p.Block? then "/*" else "//";
    var b := if p.Block? then "*/" else [p.end];
    Regroup(a, p.body + b, more);
    Regroup(p.body, b, more);
    Behind(d, i, a, p.body + (b + more));
    First(d, i, a + (p.body + (b + more)));
    First(d, i + 1, (a + (p.body + (b + more)))[1..]);
    if p.Block? {
      BlockIsRead(d, i + 2, p.body, more);
    } else {
      LineIsRead(d, i + 2, p.body, p.end, more);
    }
    SlashStartsComment(d, i, |d| - |more|);
  }

  lemma SpaceIsSkipped(d: string, i: nat)
    requires i < |d| && (d[i] == ' ' || d[i] == '\t' || d[i] == '\r' || d[i] == '\n')
    ensures SkipSpaces(d, i) == SkipSpaces(d, i + 1) && ReadToken(d, i) == ReadToken(d, i + 1)
    ensures SkipComments(d, i) == SkipComments(d, i + 1)
  {
    hide ReadNumber, ReadString, ReadComment, Match;
  }

  /** Whether the reader at i finds what it finds at j, but for comments. */
  predicate Alike(d: string, i: nat, j: nat, spaces: bool) {
    && i <= j <= |d| && SkipComments(d, i) == SkipComments(d, j)
    && (ReadToken(d, i).kind == Comment || ReadToken(d, i) == ReadToken(d, j))
    && (spaces ==> SkipSpaces(d, i) == SkipSpaces(d, j) && ReadToken(d, i) == ReadToken(d, j))
  }

  lemma PieceIsSkipped(d: string, i: nat, p: Piece, more: string)
    requires PieceOk(p) && Rest(d, i, PieceText(p) + more)
    ensures |more| <= |d| && Rest(d, |d| - |more|, more) && Alike(d, i, |d| - |more|, !IsComment(p))
  {
    hide ReadToken, SkipComments, SkipSpaces;
    Behind(d, i, PieceText(p), more);
    First(d, i, PieceText(p) + more);
    if IsComment(p) {
      CommentIsRead(d, i, p, more);
    } else {
      SpaceIsSkipped(d, i);
    }
  }

  /** The reader skips a gap on the way to the next token. */
  lemma {:induction false} GapIsSkipped(d: string, i: nat, gap: Gap, more: string)
    requires GapOk(gap) && Rest(d, i, GapText(gap, more))
    ensures i <= |d| - |more| && Rest(d, |d| - |more|, more) && Alike(d, i, |d| - |more|, OnlySpaces(gap))
    ensures SkipComments(d, i) == SkipComments(d, |d| - |more|)
    decreases |gap|
  {
    hide ReadToken, SkipComments, SkipSpaces, PieceText;
    if gap != [] {
      var rest := GapText(gap[1..], more);
      PieceIsSkipped(d, i, gap[0], rest);
      GapIsSkipped(d, |d| - |rest|, gap[1..], more);
    }
  }

  /** A number does not go on here. */
  predicate EndsNumber(t: string) { t == "" || !InNumber(t[0]) }

  lemma GapEndsNumber(gap: Gap, more: string)
    requires EndsNumber(more)
    ensures EndsNumber(GapText(gap, more))
  {
    if gap != [] {
      assert GapText(gap, more)[0] == PieceText(gap[0])[0];
    }
  }

  // ------------------------------------------------------------------------------------------
  // Documents
  // ------------------------------------------------------------------------------------------

  datatype Doc =
    | Word(v: Value)                            // null, true, false or an integer
    | RealNumber(text: string)                  // any other number
    | Spelled(letters: seq<Letter>)
    | EmptyArray(gap: Gap)
    | Array(items: DocItems)
    | EmptyObject(gap: Gap)
    | Object(entries: Entries)

  datatype DocItems =
    | NoMoreItems
    | Item(before: Gap, doc: Doc, after: Gap, rest: DocItems)

  datatype Entries =
    | NoMoreEntries
    | Entry(before: Gap, name: seq<Letter>, colon: Gap, gap: Gap, doc: Doc, after: Gap, rest: Entries)

  /** The text has a fraction, an exponent or a second sign ... */
  predicate IsRealText(t: string) {
    && t != "" && (t[0] == '-' || '0' <= t[0] <= '9') && (forall c :: c in t ==> c in "0123456789.eE+-")
    && exists k :: 0 < k < |t| && t[k] in ".eE+-"
  }

  /** ... or is an integer that does not fit. */
  predicate IsLargeText(t: string) {
    && t != "" && (t[0] == '-' || '0' <= t[0] <= '9') && AllDigits(t[1..])
    && if t[0] == '-' then Horner(t[1..], 0) > 0x8000_0000_0000_0000
       else Horner(t[1..], t[0] as int - '0' as int) > 0xFFFF_FFFF_FFFF_FFFF
  }

  /** Comments stand neither in an empty array nor before a colon. */
  predicate DocOk(doc: Doc) {
    match doc
    case Word(v) => (v == Null || v.Bool? || v.Int? || v.UInt?) && Writable(v)
    case RealNumber(t) => IsRealText(t) || IsLargeText(t)
    case Spelled(letters) => LettersOk(letters)
    case EmptyArray(gap) => GapOk(gap) && OnlySpaces(gap)
    case Array(items) => items.Item? && ItemsOk(items)
    case EmptyObject(gap) => GapOk(gap)
    case Object(entries) => entries.Entry? && EntriesOk(entries)
  }

  predicate ItemsOk(items: DocItems) {
    match items
    case NoMoreItems => true
    case Item(before, doc, after, rest) => GapOk(before) && DocOk(doc) && GapOk(after) && ItemsOk(rest)
  }

  predicate EntriesOk(entries: Entries) {
    match entries
    case NoMoreEntries => true
    case Entry(before, name, colon, gap, doc, after, rest) =>
      && GapOk(before) && LettersOk(name) && GapOk(colon) && OnlySpaces(colon)
      && GapOk(gap) && DocOk(doc) && GapOk(after) && EntriesOk(rest)
  }

  function WordText(v: Value): string {
    match v
    case Null => "null"
    case Bool(b) => if b then "true" else "false"
    case Int(n) => NumberText(n)
    case UInt(n) => NumberText(n)
    case _ => ""
  }

  /** The text of the document and what follows it. */
  function DocText(doc: Doc, more: string): string
    requires DocOk(doc)
    decreases doc, 0
  {
    match doc
    case Word(v) => WordText(v) + more
    case RealNumber(t) => t + more
    case Spelled(letters) => QuotedText(letters, more)
    case EmptyArray(gap) => ['['] + GapText(gap, [']'] + more)
    case Array(items) => ['['] + DocItemsText(items, more)
    case EmptyObject(gap) => ['{'] + GapText(gap, ['}'] + more)
    case Object(entries) => ['{'] + EntriesText(entries, more)
  }

  function DocItemsText(items: DocItems, more: string): string
    requires items.Item? && ItemsOk(items)
    decreases items, 1
  {
    GapText(items.before, DocText(items.doc, GapText(items.after, AfterItem(items.rest, more))))
  }

  function AfterItem(items: DocItems, more: string): string
    requires ItemsOk(items)
    decreases items, 2
  {
    if items.NoMoreItems? then [']'] + more else [','] + DocItemsText(items, more)
  }

  function EntriesText(entries: Entries, more: string): string
    requires entries.Entry? && EntriesOk(entries)
    decreases entries, 1
  {
    GapText(entries.before, QuotedText(entries.name, GapText(entries.colon, [':'] + ValueText(entries, more))))
  }

  /** From behind the colon. */
  function ValueText(entries: Entries, more: string): string
    requires entries.Entry? && EntriesOk(entries)
    decreases entries, 0
  {
    GapText(entries.gap, DocText(entries.doc, GapText(entries.after, AfterEntry(entries.rest, more))))
  }

  function AfterEntry(entries: Entries, more: string): string
    requires EntriesOk(entries)
    decreases entries, 2
  {
    if entries.NoMoreEntries? then ['}'] + more else [','] + EntriesText(entries, more)
  }

  /** The value of the document: of several members of one name the last one counts. */
  function ValueOf(doc: Doc): Value
    requires DocOk(doc)
  {
    match doc
    case Word(v) => if v.Int? || v.UInt? then IntegerValue(v.n) else v
    case RealNumber(t) => Real(t)
    case Spelled(letters) => Str(CString(Meaning(letters)))
    case EmptyArray(_) => Arr(NoItems)
    case Array(items) => Arr(ItemsOf(items))
    case EmptyObject(_) => Obj(NoMembers)
    case Object(entries) => Obj(PutEntries(NoMembers, entries))
  }

  function ItemsOf(items: DocItems): Items
    requires ItemsOk(items)
  {
    match items
    case NoMoreItems => NoItems
    case Item(_, doc, _, rest) => Items(ValueOf(doc), ItemsOf(rest))
  }

  function PutEntries(ms: Members, entries: Entries): Members
    requires EntriesOk(entries)
    decreases entries
  {
    match entries
    case NoMoreEntries => ms
    case Entry(_, name, _, _, doc, _, rest) => PutEntries(Put(ms, CString(Meaning(name)), ValueOf(doc)), rest)
  }

  // ------------------------------------------------------------------------------------------
  // Reading
  // ------------------------------------------------------------------------------------------

  /** What the reader finds depends on the next token alone. */
  lemma SameTokenSameValue(d: string, i: nat, j: nat)
    requires i <= j <= |d| && SkipComments(d, i) == SkipComments(d, j)
    ensures ReadValue(d, i) == ReadValue(d, j)
    ensures forall ms, name :: ReadMembers(d, i, ms, name) == ReadMembers(d, j, ms, name)
  {
    hide SkipComments, ReadItems, ReadToken, DecodeNumber, DecodeString, Put;
  }

  lemma SameValueSameItems(d: string, i: nat, j: nat, items: Items)
    requires i <= |d| && j <= |d| && ReadValue(d, i) == ReadValue(d, j)
    ensures ReadItems(d, i, items) == ReadItems(d, j, items)
  {
    hide ReadValue, SkipComments;
  }

  /** Where a value starts there is no closing bracket. */
  lemma NoBracketAtValue(d: string, i: nat)
    requires i <= |d| && ReadValue(d, i).Read?
    ensures var s := SkipSpaces(d, i); !(s < |d| && d[s] == ']') && SkipComments(d, s) == SkipComments(d, i)
  {
    hide ReadValue, SkipComments, ReadToken;
    TokenBehindSpaces(d, i);
    BracketFails(d, i);
  }

  lemma TokenBehindSpaces(d: string, i: nat)
    requires i <= |d|
    ensures var s := SkipSpaces(d, i); ReadToken(d, s) == ReadToken(d, i) && SkipComments(d, s) == SkipComments(d, i)
  {
    hide ReadNumber, ReadString, ReadComment, Match;
    SpacesAreSkipped(d, i);
    hide SkipSpaces;
  }

  lemma BracketFails(d: string, i: nat)
    requires i <= |d|
    ensures var s := SkipSpaces(d, i); s < |d| && d[s] == ']' ==> ReadValue(d, i) == Failed
  {
    hide ReadItems, ReadMembers, DecodeNumber, DecodeString, ReadNumber, ReadString, ReadComment, Match, SkipSpaces;
  }

  lemma {:induction false} SpacesAreSkipped(d: string, i: nat)
    requires i <= |d|
    ensures SkipSpaces(d, SkipSpaces(d, i)) == SkipSpaces(d, i)
    decreases |d| - i
  {
    if i < |d| && IsSpace(d[i]) {
      SpacesAreSkipped(d, i + 1);
    }
  }

  predicate IsMark(c: char) { c == '{' || c == '}' || c == '[' || c == ']' || c == ',' || c == ':' }

  lemma KindsOfMarks()
    ensures KindOf('{') == ObjectBegin && KindOf('[') == ArrayBegin && IsMark('{') && IsMark('[')
    ensures KindOf('}') == ObjectEnd && KindOf(']') == ArrayEnd && KindOf(',') == ArraySeparator && KindOf(':') == MemberSeparator
    ensures IsMark('}') && IsMark(']') && IsMark(',') && IsMark(':')
  {
  }

  lemma MarkIsRead(d: string, i: nat, c: char, more: string)
    requires Rest(d, i, [c] + more) && IsMark(c)
    ensures i + 1 == |d| - |more| && Rest(d, i + 1, more)
    ensures SkipSpaces(d, i) == i < |d| && d[i] == c
    ensures SkipComments(d, i) == ReadToken(d, i) == Token(KindOf(c), i, i + 1)
  {
    hide ReadToken, SkipComments, SkipSpaces;
    Behind(d, i, [c], more);
    assert c in "{}[],:";
    PunctuationIsRead(d, i, c);
  }

  /** A punctuation mark behind a gap. */
  lemma MarkBehindGap(d: string, i: nat, gap: Gap, c: char, more: string)
    requires GapOk(gap) && Rest(d, i, GapText(gap, [c] + more)) && IsMark(c)
    ensures |more| < |d| && i <= |d| && Rest(d, |d| - |more|, more)
    ensures var t := Token(KindOf(c), |d| - |more| - 1, |d| - |more|);
            && SkipComments(d, i) == t && (ReadToken(d, i).kind == Comment || ReadToken(d, i) == t)
            && (OnlySpaces(gap) ==> ReadToken(d, i) == t)
  {
    hide *;
    GapIsSkipped(d, i, gap, [c] + more);
    AlikeParts(d, i, |d| - |[c] + more|, OnlySpaces(gap));
    MarkIsRead(d, |d| - |[c] + more|, c, more);
  }

  lemma AlikeParts(d: string, i: nat, j: nat, spaces: bool)
    requires Alike(d, i, j, spaces)
    ensures i <= j <= |d| && (ReadToken(d, i).kind == Comment || ReadToken(d, i) == ReadToken(d, j))
    ensures spaces ==> SkipSpaces(d, i) == SkipSpaces(d, j) && ReadToken(d, i) == ReadToken(d, j)
  {
    hide ReadToken, SkipComments, SkipSpaces;
  }

  lemma BraceEndsObject(d: string, i: nat)
    requires i <= |d| && SkipComments(d, i).kind == ObjectEnd
    ensures ReadMembers(d, i, NoMembers, "") == Read(Obj(NoMembers), SkipComments(d, i).end)
  {
    hide SkipComments, ReadToken, ReadValue, DecodeString, Put, CString;
  }

  lemma WordDocIsRead(d: string, i: nat, v: Value, more: string)
    requires DocOk(Word(v)) && Rest(d, i, WordText(v) + more) && EndsNumber(more)
    ensures |more| <= |d| && Rest(d, |d| - |more|, more) && ReadValue(d, i) == Read(ValueOf(Word(v)), |d| - |more|)
  {
    assert Text(v) == WordText(v) && (v.Int? || v.UInt? ==> Text(v) == NumberText(v.n));
    hide ReadValue, Text, WordText, InNumber, NumberText;
    Behind(d, i, Text(v), more);
    if more != "" {
      First(d, |d| - |more|, more);
    }
    match v
    case Int(n) => NumberWordIsRead(d, i, n);
    case UInt(n) => NumberWordIsRead(d, i, n);
    case _ => WordIsRead(d, i, v);
  }

  lemma NumberWordIsRead(d: string, i: nat, n: int)
    requires MIN_LARGEST_INT <= n <= MAX_LARGEST_UINT && At(d, i, NumberText(n)) && Ends(d, i + |NumberText(n)|)
    ensures ReadValue(d, i) == Read(IntegerValue(n), i + |NumberText(n)|)
  {
    hide ReadValue;
    NumberTokenIsRead(d, i, n);
  }

  /** What is no integer that fits becomes a real number. */
  lemma RealIsDecoded(t: string)
    requires IsRealText(t) || IsLargeText(t)
    ensures DecodeNumber(t) == Some(Real(t)) && forall c :: c in t ==> InNumber(c)
  {
    if IsRealText(t) {
      var k :| 0 < k < |t| && t[k] in ".eE+-";
      hide DecodeDigits;
      assert LooksDouble(t);
    } else {
      LargeIsDecoded(t);
    }
  }

  lemma LargeIsDecoded(t: string)
    requires IsLargeText(t)
    ensures DecodeNumber(t) == Some(Real(t)) && forall c :: c in t ==> InNumber(c)
  {
    assert t == [t[0]] + t[1..];
    forall c | c in t
      ensures InNumber(c) && c !in ".eE+" && (IsDigit(c) || c == t[0] == '-')
    {
      assert c == t[0] || c in t[1..];
    }
    forall k | 0 <= k < |t|
      ensures !(t[k] in ".eE+" || (t[k] == '-' && k != 0))
    {
      assert t[k] in t && (k > 0 ==> t[1..][k - 1] in t[1..]);
    }
    if t[0] == '-' {
      IntegerExactlyWhenItFits(t[1..], 0, -MIN_LARGEST_INT);
    } else {
      assert AllDigits(t);
      IntegerExactlyWhenItFits(t, 0, MAX_LARGEST_UINT);
    }
  }

  /** A sign and any digits, leading zeros included, are the number they show if it fits. */
  lemma IntegerIsDecoded(negative: bool, digits: string)
    requires AllDigits(digits) && Horner(digits, 0) <= if negative then 0x8000_0000_0000_0000 else 0xFFFF_FFFF_FFFF_FFFF
    ensures var n := Horner(digits, 0);
            DecodeNumber((if negative then "-" else "") + digits) ==
            Some(if negative then Int(-(n as int)) else if n <= 0x7FFF_FFFF then Int(n) else UInt(n))
  {
    var t := (if negative then "-" else "") + digits;
    assert negative ==> t[0] == '-' && t[1..] == digits;
    assert !negative ==> t == digits;
    forall k | 0 <= k < |t|
      ensures !(t[k] in ".eE+" || (t[k] == '-' && k != 0))
    {
      assert negative && k > 0 ==> t[k] == digits[k - 1] && digits[k - 1] in digits;
      assert !negative ==> t[k] in digits;
    }
    assert !negative && t != "" ==> t[0] in digits;
    IntegerExactlyWhenItFits(digits, 0, if negative then -MIN_LARGEST_INT else MAX_LARGEST_UINT);
  }

  lemma RealIsRead(d: string, i: nat, t: string, more: string)
    requires (IsRealText(t) || IsLargeText(t)) && Rest(d, i, t + more) && EndsNumber(more)
    ensures |more| <= |d| && Rest(d, |d| - |more|, more) && ReadValue(d, i) == Read(Real(t), |d| - |more|)
  {
    hide SkipComments, DecodeNumber, ReadNumber, InNumber, Horner, AllDigits, ReadValue;
    RealIsDecoded(t);
    assert t != "" && (IsDigit(t[0]) || t[0] == '-');
    Behind(d, i, t, more);
    EndIsSeen(d, |d| - |more|, more);
    hide *;
    NumberAtIsRead(d, i, t, Real(t));
  }

  lemma EndIsSeen(d: string, i: nat, more: string)
    requires Rest(d, i, more) && EndsNumber(more)
    ensures Ends(d, i)
  {
    if more != "" {
      First(d, i, more);
    }
  }

  lemma NumberAtIsRead(d: string, i: nat, t: string, v: Value)
    requires At(d, i, t) && Ends(d, i + |t|) && t != "" && (IsDigit(t[0]) || t[0] == '-')
    requires DecodeNumber(t) == Some(v) && forall c :: c in t ==> InNumber(c)
    ensures ReadValue(d, i) == Read(v, i + |t|)
  {
    hide SkipComments, DecodeNumber, ReadNumber, InNumber, ReadValue, IsDigit, Ends;
    AtFirst(d, i, t);
    assert forall c :: c in t[1..] ==> c in t;
    NumberIsRead(d, i + 1, t[1..]);
    NumberStarts(d, i);
    NumberGivesValue(d, i, i + |t|, v);
  }

  lemma NumberGivesValue(d: string, i: nat, j: nat, v: Value)
    requires i < j <= |d| && SkipComments(d, i) == Token(Number, i, j) && DecodeNumber(d[i..j]) == Some(v)
    ensures ReadValue(d, i) == Read(v, j)
  {
    hide SkipComments, DecodeNumber;
  }

  lemma SpelledDocIsRead(d: string, i: nat, letters: seq<Letter>, more: string)
    requires LettersOk(letters) && Rest(d, i, QuotedText(letters, more))
    ensures |more| <= |d| && Rest(d, |d| - |more|, more)
    ensures ReadValue(d, i) == Read(Str(CString(Meaning(letters))), |d| - |more|)
  {
    hide Meaning, QuotedText, SkipComments, DecodeString;
    SpelledStringIsRead(d, i, letters, more);
  }

  lemma EmptyArrayIsRead(d: string, i: nat, gap: Gap, more: string)
    requires GapOk(gap) && OnlySpaces(gap) && Rest(d, i, ['['] + GapText(gap, [']'] + more))
    ensures |more| <= |d| && Rest(d, |d| - |more|, more) && ReadValue(d, i) == Read(Arr(NoItems), |d| - |more|)
  {
    hide GapText, SkipComments, ReadToken, ReadItems, ReadValue;
    MarkIsRead(d, i, '[', GapText(gap, [']'] + more));
    ArrayStarts(d, i);
    GapIsSkipped(d, i + 1, gap, [']'] + more);
    MarkIsRead(d, |d| - |[']'] + more|, ']', more);
  }

  lemma EmptyObjectIsRead(d: string, i: nat, gap: Gap, more: string)
    requires GapOk(gap) && Rest(d, i, ['{'] + GapText(gap, ['}'] + more))
    ensures |more| <= |d| && Rest(d, |d| - |more|, more) && ReadValue(d, i) == Read(Obj(NoMembers), |d| - |more|)
  {
    KindsOfMarks();
    hide *;
    MarkIsRead(d, i, '{', GapText(gap, ['}'] + more));
    ObjectStarts(d, i);
    MarkBehindGap(d, i + 1, gap, '}', more);
    BraceEndsObject(d, i + 1);
  }

  lemma DocIsRead(d: string, i: nat, doc: Doc, more: string)
    requires DocOk(doc) && Rest(d, i, DocText(doc, more)) && EndsNumber(more)
    ensures |more| <= |d| && Rest(d, |d| - |more|, more) && ReadValue(d, i) == Read(ValueOf(doc), |d| - |more|)
    decreases doc, 0
  {
    match doc
    case Word(v) => WordDocIsRead(d, i, v, more);
    case RealNumber(t) => RealIsRead(d, i, t, more);
    case Spelled(letters) => SpelledDocIsRead(d, i, letters, more);
    case EmptyArray(gap) => EmptyArrayIsRead(d, i, gap, more);
    case EmptyObject(gap) => EmptyObjectIsRead(d, i, gap, more);
    case Array(items) => ArrayDocIsRead(d, i, items, more);
    case Object(entries) =>
      hide SkipComments, ReadToken, ReadValue, EntriesText;
      MarkIsRead(d, i, '{', EntriesText(entries, more));
      ObjectStarts(d, i);
      EntriesAreRead(d, i + 1, entries, NoMembers, "", more);
  }

  lemma ArrayDocIsRead(d: string, i: nat, items: DocItems, more: string)
    requires items.Item? && ItemsOk(items) && Rest(d, i, ['['] + DocItemsText(items, more))
    ensures |more| <= |d| && Rest(d, |d| - |more|, more) && ReadValue(d, i) == Read(Arr(ItemsOf(items)), |d| - |more|)
    decreases items, 2
  {
    hide SkipComments, SkipSpaces, ReadToken, ReadValue, ReadItems, DocItemsText, ItemsOf;
    MarkIsRead(d, i, '[', DocItemsText(items, more));
    ArrayStarts(d, i);
    DocItemsAreRead(d, i + 1, items, NoItems, more);
    NoBracketAtValue(d, i + 1);
    var s := SkipSpaces(d, i + 1);
    SameTokenSameValue(d, i + 1, s);
    SameValueSameItems(d, i + 1, s, NoItems);
    AppendAllIsConcat(NoItems, ItemsOf(items));
  }

  lemma AfterItemEndsNumber(items: DocItems, more: string)
    requires ItemsOk(items)
    ensures EndsNumber(AfterItem(items, more))
  {
  }

  lemma AfterEntryEndsNumber(entries: Entries, more: string)
    requires EntriesOk(entries)
    ensures EndsNumber(AfterEntry(entries, more))
  {
  }

  /** A value behind a gap. */
  lemma ValueBehindGap(d: string, i: nat, gap: Gap, doc: Doc, more: string)
    requires GapOk(gap) && DocOk(doc) && Rest(d, i, GapText(gap, DocText(doc, more))) && EndsNumber(more)
    ensures |more| <= |d| && Rest(d, |d| - |more|, more) && ReadValue(d, i) == Read(ValueOf(doc), |d| - |more|)
    decreases doc, 1
  {
    hide *;
    GapIsSkipped(d, i, gap, DocText(doc, more));
    DocIsRead(d, |d| - |DocText(doc, more)|, doc, more);
    SameTokenSameValue(d, i, |d| - |DocText(doc, more)|);
  }

  /** The parts of the text of an array's items. */
  lemma DocItemParts(items: DocItems, before: Items, more: string)
    requires items.Item? && ItemsOk(items)
    ensures var rest := items.rest;
            var x := if rest.NoMoreItems? then [']'] + more else [','] + DocItemsText(rest, more);
            var y := GapText(items.after, x);
            && DocItemsText(items, more) == GapText(items.before, DocText(items.doc, y))
            && EndsNumber(y)
            && AppendAll(before, ItemsOf(items)) ==
                 (if rest.NoMoreItems? then Append(before, ValueOf(items.doc))
                  else AppendAll(Append(before, ValueOf(items.doc)), ItemsOf(rest)))
    ensures GapOk(items.before) && DocOk(items.doc) && GapOk(items.after) && ItemsOk(items.rest)
  {
    var x := AfterItem(items.rest, more);
    AfterItemEndsNumber(items.rest, more);
    GapEndsNumber(items.after, x);
    hide DocText, GapText, ValueOf, Append, EndsNumber, GapOk, DocOk;
  }

  lemma DocItemsAreRead(d: string, i: nat, items: DocItems, before: Items, more: string)
    requires items.Item? && ItemsOk(items) && Rest(d, i, DocItemsText(items, more))
    ensures |more| <= |d| && Rest(d, |d| - |more|, more) && i <= |d| && ReadValue(d, i).Read?
    ensures ReadItems(d, i, before) == Read(Arr(AppendAll(before, ItemsOf(items))), |d| - |more|)
    decreases items, 1
  {
    hide *;
    DocItemParts(items, before, more);
    KindsOfMarks();
    var v, rest := ValueOf(items.doc), items.rest;
    var x := if rest.NoMoreItems? then [']'] + more else [','] + DocItemsText(rest, more);
    var y := GapText(items.after, x);
    ValueBehindGap(d, i, items.before, items.doc, y);
    ItemsStep(d, i, before, v, |d| - |y|);
    if rest.NoMoreItems? {
      MarkBehindGap(d, |d| - |y|, items.after, ']', more);
    } else {
      var others := DocItemsText(rest, more);
      MarkBehindGap(d, |d| - |y|, items.after, ',', others);
      DocItemsAreRead(d, |d| - |others|, rest, Append(before, v), more);
    }
  }

  /** The reader after one member. */
  lemma EntryStep(d: string, p: nat, ms: Members, last: string, k: nat, name: string, c: nat, v: Value, j: nat, t: Token)
    requires p + 2 <= k <= |d| && SkipComments(d, p) == Token(StringToken, p, k)
    requires DecodeString(d, Token(StringToken, p, k)) == Some(name)
    requires c < |d| && ReadToken(d, k) == Token(MemberSeparator, c, c + 1) && ReadValue(d, c + 1) == Read(v, j)
    requires j <= |d| && SkipComments(d, j) == t && (t.kind == ObjectEnd || t.kind == ArraySeparator)
    requires ReadToken(d, j).kind == Comment || ReadToken(d, j) == t
    ensures t.end <= |d| && ReadMembers(d, p, ms, last) ==
            if t.kind == ObjectEnd then Read(Obj(Put(ms, CString(name), v)), t.end)
            else ReadMembers(d, t.end, Put(ms, CString(name), v), name)
  {
    hide ReadValue, SkipComments, ReadToken, DecodeString, CString, Put;
  }

  /** The name of a member and its colon. */
  lemma NameIsRead(d: string, i: nat, before: Gap, name: seq<Letter>, colon: Gap, v: string) returns (p: nat, k: nat)
    requires GapOk(before) && LettersOk(name) && GapOk(colon) && OnlySpaces(colon)
    requires Rest(d, i, GapText(before, QuotedText(name, GapText(colon, [':'] + v))))
    ensures |v| < |d| && Rest(d, |d| - |v|, v)
    ensures i <= p && p + 2 <= k <= |d| && SkipComments(d, i) == SkipComments(d, p) == Token(StringToken, p, k)
    ensures DecodeString(d, Token(StringToken, p, k)) == Some(Meaning(name))
    ensures ReadToken(d, k) == Token(MemberSeparator, |d| - |v| - 1, |d| - |v|)
  {
    KindsOfMarks();
    hide *;
    var w := GapText(colon, [':'] + v);
    var q := QuotedText(name, w);
    GapIsSkipped(d, i, before, q);
    p := |d| - |q|;
    SpelledStringIsRead(d, p, name, w);
    k := |d| - |w|;
    MarkBehindGap(d, k, colon, ':', v);
  }

  /** The parts of the text of an object's members. */
  lemma EntryParts(entries: Entries, ms: Members, more: string)
    requires entries.Entry? && EntriesOk(entries)
    ensures var rest, name := entries.rest, Meaning(entries.name);
            var x := if rest.NoMoreEntries? then ['}'] + more else [','] + EntriesText(rest, more);
            var y := GapText(entries.after, x);
            var v := GapText(entries.gap, DocText(entries.doc, y));
            && EntriesText(entries, more) == GapText(entries.before, QuotedText(entries.name, GapText(entries.colon, [':'] + v)))
            && EndsNumber(y)
            && PutEntries(ms, entries) ==
                 (if rest.NoMoreEntries? then Put(ms, CString(name), ValueOf(entries.doc))
                  else PutEntries(Put(ms, CString(name), ValueOf(entries.doc)), rest))
    ensures GapOk(entries.before) && LettersOk(entries.name) && GapOk(entries.colon) && OnlySpaces(entries.colon)
    ensures GapOk(entries.gap) && DocOk(entries.doc) && GapOk(entries.after) && EntriesOk(entries.rest)
  {
    var x := AfterEntry(entries.rest, more);
    AfterEntryEndsNumber(entries.rest, more);
    GapEndsNumber(entries.after, x);
    hide DocText, GapText, QuotedText, ValueOf, Put, CString, Meaning, EndsNumber, GapOk, DocOk, LettersOk;
  }

  /** The name of a member, its colon and its value. */
  lemma EntryIsRead(d: string, i: nat, entries: Entries, y: string) returns (p: nat, k: nat)
    requires entries.Entry? && GapOk(entries.before) && LettersOk(entries.name) && GapOk(entries.colon) && OnlySpaces(entries.colon)
    requires GapOk(entries.gap) && DocOk(entries.doc) && EndsNumber(y)
    requires var v := GapText(entries.gap, DocText(entries.doc, y));
             Rest(d, i, GapText(entries.before, QuotedText(entries.name, GapText(entries.colon, [':'] + v))))
    ensures var c, j := |d| - |GapText(entries.gap, DocText(entries.doc, y))|, |d| - |y|;
            && i <= p && p + 2 <= k <= |d| && 0 < c <= |d| && 0 <= j && Rest(d, j, y)
            && SkipComments(d, p) == Token(StringToken, p, k) && DecodeString(d, Token(StringToken, p, k)) == Some(Meaning(entries.name))
            && ReadToken(d, k) == Token(MemberSeparator, c - 1, c) && ReadValue(d, c) == Read(ValueOf(entries.doc), j)
    ensures forall ms, last :: ReadMembers(d, i, ms, last) == ReadMembers(d, p, ms, last)
    decreases entries, 0
  {
    hide *;
    var v := GapText(entries.gap, DocText(entries.doc, y));
    p, k := NameIsRead(d, i, entries.before, entries.name, entries.colon, v);
    SameTokenSameValue(d, i, p);
    ValueBehindGap(d, |d| - |v|, entries.gap, entries.doc, y);
  }

  lemma EntriesAreRead(d: string, i: nat, entries: Entries, ms: Members, last: string, more: string)
    requires entries.Entry? && EntriesOk(entries) && Rest(d, i, EntriesText(entries, more))
    ensures |more| <= |d| && Rest(d, |d| - |more|, more)
    ensures i <= |d| && ReadMembers(d, i, ms, last) == Read(Obj(PutEntries(ms, entries)), |d| - |more|)
    decreases entries, 1
  {
    hide *;
    EntryParts(entries, ms, more);
    KindsOfMarks();
    var v, rest, name := ValueOf(entries.doc), entries.rest, Meaning(entries.name);
    var x := if rest.NoMoreEntries? then ['}'] + more else [','] + EntriesText(rest, more);
    var y := GapText(entries.after, x);
    var text := GapText(entries.gap, DocText(entries.doc, y));
    var next := Put(ms, CString(name), v);
    var p, k := EntryIsRead(d, i, entries, y);
    var c, j := |d| - |text|, |d| - |y|;
    if rest.NoMoreEntries? {
      MarkBehindGap(d, j, entries.after, '}', more);
      EntryStep(d, p, ms, last, k, name, c - 1, v, j, Token(ObjectEnd, |d| - |more| - 1, |d| - |more|));
    } else {
      var others := EntriesText(rest, more);
      MarkBehindGap(d, j, entries.after, ',', others);
      EntryStep(d, p, ms, last, k, name, c - 1, v, j, Token(ArraySeparator, |d| - |others| - 1, |d| - |others|));
      EntriesAreRead(d, |d| - |others|, rest, next, name, more);
    }
  }

  // ------------------------------------------------------------------------------------------
  // Members
  // ------------------------------------------------------------------------------------------

  function MapOf(ms: Members): map<string, Value> {
    match ms
    case NoMembers => map[]
    case Members(name, v, others) => MapOf(others)[name := v]
  }

  lemma {:induction false} LaterNames(ms: Members, name: string)
    requires Ascending(ms) && (ms.Members? ==> NameLess(name, ms.name))
    ensures name !in MapOf(ms) && forall n :: n in MapOf(ms) ==> NameLess(name, n)
  {
    NamesAreOrdered(name, name, name);
    if ms.Members? {
      if ms.others.Members? {
        NamesAreOrdered(name, ms.name, ms.others.name);
      }
      LaterNames(ms.others, name);
    }
  }

  /** An assignment to a member changes the map at its name and nowhere else, whether the name was
      there or not, and keeps the order of the names. */
  lemma {:induction false} PutIsMapUpdate(ms: Members, name: string, v: Value)
    requires Ascending(ms)
    ensures Ascending(Put(ms, name, v)) && MapOf(Put(ms, name, v)) == MapOf(ms)[name := v]
    ensures Put(ms, name, v).Members? && (Put(ms, name, v).name == name || (ms.Members? && Put(ms, name, v).name == ms.name))
  {
    if ms.Members? {
      NamesAreOrdered(name, ms.name, name);
      if ms.name == name || NameLess(name, ms.name) {
        assert MapOf(ms)[ms.name := v] == MapOf(ms.others)[ms.name := v];
      } else {
        PutIsMapUpdate(ms.others, name, v);
        assert MapOf(ms.others)[name := v][ms.name := ms.value] == MapOf(ms.others)[ms.name := ms.value][name := v];
      }
    }
  }

  lemma FirstIsThere(ms: Members)
    ensures ms.Members? ==> ms.name in MapOf(ms)
  {
  }

  /** A map has one representation only. */
  lemma {:induction false} MapsAreUnique(a: Members, b: Members)
    requires Ascending(a) && Ascending(b) && MapOf(a) == MapOf(b)
    ensures a == b
  {
    FirstIsThere(a);
    FirstIsThere(b);
    if a.Members? && b.Members? {
      LaterNames(a.others, a.name);
      LaterNames(b.others, b.name);
      NamesAreOrdered(a.name, b.name, a.name);
      assert a.name == b.name;
      assert MapOf(a.others) == MapOf(a) - {a.name};
      assert MapOf(b.others) == MapOf(b) - {b.name};
      MapsAreUnique(a.others, b.others);
    }
  }

  // ------------------------------------------------------------------------------------------
  // Layouts of a value
  // ------------------------------------------------------------------------------------------

  /** The document is the value v, laid out in some way. */
  predicate LayoutOf(doc: Doc, v: Value)
    requires DocOk(doc)
    decreases v
  {
    match v
    case Str(s) => doc.Spelled? && Meaning(doc.letters) == s
    case Arr(items) => if items.NoItems? then doc.EmptyArray? else doc.Array? && LayoutOfItems(doc.items, items)
    case Obj(ms) => if ms.NoMembers? then doc.EmptyObject? else doc.Object? && LayoutOfMembers(doc.entries, ms)
    case _ => doc == Word(v)
  }

  predicate LayoutOfItems(items: DocItems, vs: Items)
    requires ItemsOk(items)
    decreases vs
  {
    match vs
    case NoItems => items.NoMoreItems?
    case Items(v, others) => items.Item? && LayoutOf(items.doc, v) && LayoutOfItems(items.rest, others)
  }

  predicate LayoutOfMembers(entries: Entries, ms: Members)
    requires EntriesOk(entries)
    decreases ms
  {
    match ms
    case NoMembers => entries.NoMoreEntries?
    case Members(name, v, others) =>
      entries.Entry? && Meaning(entries.name) == name && LayoutOf(entries.doc, v) && LayoutOfMembers(entries.rest, others)
  }

  lemma LayoutHasValue(doc: Doc, v: Value)
    requires DocOk(doc) && Writable(v) && LayoutOf(doc, v)
    ensures ValueOf(doc) == Normal(v)
    decreases v
  {
    hide Meaning, CString, NameLess;
    match v
    case Arr(items) =>
      if items.Items? {
        LayoutHasItems(doc.items, items);
      }
    case Obj(ms) =>
      if ms.Members? {
        LayoutHasMembers(doc.entries, ms, NoMembers);
        NormalKeepsOrder(ms);
        PutAllIsJoin(NoMembers, NormalMembers(ms));
      }
    case _ =>
  }

  lemma {:induction false} LayoutHasItems(items: DocItems, vs: Items)
    requires ItemsOk(items) && WritableItems(vs) && LayoutOfItems(items, vs)
    ensures ItemsOf(items) == NormalItems(vs)
    decreases vs
  {
    hide DocOk, LayoutOf, ValueOf, Normal, Writable;
    if vs.Items? {
      LayoutHasValue(items.doc, vs.head);
      LayoutHasItems(items.rest, vs.rest);
    }
  }

  lemma {:induction false} LayoutHasMembers(entries: Entries, ms: Members, before: Members)
    requires EntriesOk(entries) && WritableMembers(ms) && LayoutOfMembers(entries, ms)
    ensures PutEntries(before, entries) == PutAll(before, NormalMembers(ms))
    decreases ms
  {
    hide DocOk, LayoutOf, ValueOf, Normal, Writable, Meaning, CString, Put, LettersOk, GapOk, OnlySpaces;
    if ms.Members? {
      CStringIsSame(ms.name);
      LayoutHasValue(entries.doc, ms.value);
      LayoutHasMembers(entries.rest, ms.others, Put(before, ms.name, Normal(ms.value)));
    }
  }

  // ------------------------------------------------------------------------------------------
  // Theorems
  // ------------------------------------------------------------------------------------------

  /** However a document is laid out, and whatever follows it, parsing gives its value. */
  lemma EveryLayoutIsRead(before: Gap, doc: Doc, after: string)
    requires GapOk(before) && DocOk(doc) && EndsNumber(after)
    ensures Parse(GapText(before, DocText(doc, after))) == Some(ValueOf(doc))
  {
    hide ReadValue;
    var d := GapText(before, DocText(doc, after));
    assert d[0..] == d;
    ValueBehindGap(d, 0, before, doc, after);
  }

  /** A writable value laid out in any way is read, and comes back the same exactly if no string has a
      NUL: blanks, tabs, line ends and comments make no difference, nor does the spelling of strings. */
  lemma LaidOutValueComesBack(v: Value, before: Gap, doc: Doc, after: string)
    requires Writable(v) && GapOk(before) && DocOk(doc) && LayoutOf(doc, v) && EndsNumber(after)
    ensures var r := Parse(GapText(before, DocText(doc, after)));
            r.Some? && (Same(v, r.value) <==> NulFree(v))
  {
    EveryLayoutIsRead(before, doc, after);
    LayoutHasValue(doc, v);
    NormalIsSame(v);
  }
}
