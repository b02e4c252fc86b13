/** Reading what was written gives the same value. */
module JsonRoundTrip {
  import opened Json
  import opened JsonGrammar
  import opened Strings

  /** The text t is in the document at position i. */
  predicate At(d: string, i: nat, t: string) {
    i + |t| <= |d| && d[i..i + |t|] == t
  }

  lemma AtParts(d: string, i: nat, a: string, b: string)
    requires At(d, i, a + b)
    ensures At(d, i, a) && At(d, i + |a|, b)
  {
    var t := d[i..i + |a + b|];
    assert t[..|a|] == a && t[|a|..] == b;
    assert d[i..i + |a|] == t[..|a|];
    assert d[i + |a|..i + |a| + |b|] == t[|a|..];
  }

  lemma AtFirst(d: string, i: nat, t: string)
    requires At(d, i, t) && t != ""
    ensures i < |d| && d[i] == t[0] && At(d, i + 1, t[1..])
  {
    assert t == [t[0]] + t[1..];
    AtParts(d, i, [t[0]], t[1..]);
    assert d[i..i + 1][0] == t[0];
  }

  // ------------------------------------------------------------------------------------------
  // Numbers
  // ------------------------------------------------------------------------------------------

  /** The integer path is taken exactly if the number is not too large. */
  lemma {:induction false} IntegerExactlyWhenItFits(t: string, value: nat, maxInteger: nat)
    requires AllDigits(t) && value <= maxInteger && maxInteger >= 10
    ensures DecodeDigits(t, value, maxInteger) ==
            if Horner(t, value) <= maxInteger then Integer(Horner(t, value)) else TooLarge
  {
    if t != "" {
      assert t[0] in t;
      var next := value * 10 + DigitOf(t[0]);
      if next <= maxInteger {
        IntegerExactlyWhenItFits(t[1..], next, maxInteger);
        if |t| > 1 && value >= maxInteger / 10 {
          assert t[1] in t;
          assert Horner(t[1..], next) == Horner(t[1..][1..], next * 10 + DigitOf(t[1]));
        }
      }
    }
  }

  lemma NumbersAreDecoded(n: int)
    requires MIN_LARGEST_INT <= n <= MAX_LARGEST_UINT
    ensures DecodeNumber(NumberText(n)) == Some(IntegerValue(n))
  {
    var m: nat := if n < 0 then -n else n;
    HornerOfDigits(m);
    var t := Digits(m);
    assert t[0] in t;
    IntegerExactlyWhenItFits(t, 0, if n < 0 then -MIN_LARGEST_INT else MAX_LARGEST_UINT);
    forall k | 0 <= k < |t|
      ensures t[k] !in ".eE+" && t[k] != '-'
    {
      assert t[k] in t;
    }
    if n < 0 {
      assert ("-" + t)[1..] == t;
    }
  }

  /** A number ends here. */
  predicate Ends(d: string, i: nat) {
    i >= |d| || !InNumber(d[i])
  }

  lemma {:induction false} NumberIsRead(d: string, i: nat, t: string)
    requires At(d, i, t) && Ends(d, i + |t|) && forall c :: c in t ==> InNumber(c)
    ensures ReadNumber(d, i) == i + |t|
    decreases |t|
  {
    if t != "" {
      AtFirst(d, i, t);
      assert t[0] in t;
      NumberIsRead(d, i + 1, t[1..]);
    }
  }

  // ------------------------------------------------------------------------------------------
  // Strings
  // ------------------------------------------------------------------------------------------

  function Control(c: char): string
    requires IsControlCharacter(c)
  {
    ['0', '0', HexDigit(c as int / 16), HexDigit(c as int % 16)]
  }

  /** The three forms of a character between quotes. */
  lemma EscapeForms(c: char)
    ensures var e := Escape(c);
            || (c != '"' && c != '\\' && (c == 0 as char || c > 31 as char) && e == [c])
            || (!IsPlain(c) && |e| == 2 && e[0] == '\\' && SimpleEscape(e[1]) == Some(c) && e[1] != 'u')
            || (IsControlCharacter(c) && e == "\\u" + Control(c))
  {
    hide HexDigit;
  }

  lemma PlainIsRead(d: string, i: nat)
    requires i < |d| && d[i] != '"' && d[i] != '\\'
    ensures ReadString(d, i) == ReadString(d, i + 1)
  {
  }

  lemma BackslashIsRead(d: string, i: nat)
    requires i + 1 < |d| && d[i] == '\\'
    ensures ReadString(d, i) == ReadString(d, i + 2)
  {
  }

  lemma EscapeIsRead(d: string, i: nat, c: char)
    requires At(d, i, Escape(c)) && i + |Escape(c)| < |d|
    ensures ReadString(d, i) == ReadString(d, i + |Escape(c)|)
  {
    EscapeForms(c);
    hide Escape, ReadString, HexDigit;
    var e := Escape(c);
    forall k | 0 <= k < |e|
      ensures d[i + k] == e[k]
    {
      assert d[i..i + |e|][k] == e[k];
    }
    if |e| == 1 {
      assert d[i + 0] == c;
      PlainIsRead(d, i);
    } else {
      assert d[i + 0] == '\\';
      BackslashIsRead(d, i);
      if |e| == 6 {
        HexDigitsAreDecoded(c as int / 16);
        HexDigitsAreDecoded(c as int % 16);
        PlainIsRead(d, i + 2);
        PlainIsRead(d, i + 3);
        PlainIsRead(d, i + 4);
        PlainIsRead(d, i + 5);
      }
    }
  }

  lemma {:induction false} EscapedIsRead(d: string, i: nat, s: string)
    requires At(d, i, Escaped(s) + "\"")
    ensures ReadString(d, i) == Scan(true, i + |Escaped(s)| + 1)
    decreases |s|
  {
    if s == "" {
      AtFirst(d, i, "\"");
    } else {
      var e, more := Escape(s[0]), Escaped(s[1..]);
      assert Escaped(s) + "\"" == e + (more + "\"");
      AtParts(d, i, e, more + "\"");
      EscapeIsRead(d, i, s[0]);
      EscapedIsRead(d, i + |e|, s[1..]);
    }
  }

  lemma HexDigitsAreDecoded(n: nat)
    requires n < 16
    ensures HexOf(HexDigit(n)) == Some(n) && HexDigit(n) != '"' && HexDigit(n) != '\\'
  {
  }

  lemma ControlIsDecoded(c: char, more: string)
    requires IsControlCharacter(c)
    ensures DecodeCodePoint(Control(c) + more) == CodePoint(c as int, more) && Utf8(c as int) == [c]
  {
    HexDigitsAreDecoded(c as int / 16);
    HexDigitsAreDecoded(c as int % 16);
    hide HexDigit;
    assert (Control(c) + more)[4..] == more;
  }

  lemma PlainIsUnescaped(t: string)
    requires t != "" && t[0] != '"' && t[0] != '\\'
    ensures Unescape(t) == Prefixed([t[0]], Unescape(t[1..]))
  {
  }

  lemma SimpleIsUnescaped(t: string, c: char)
    requires |t| >= 2 && t[0] == '\\' && t[1] != 'u' && SimpleEscape(t[1]) == Some(c)
    ensures Unescape(t) == Prefixed([c], Unescape(t[2..]))
  {
    hide SimpleEscape;
  }

  lemma UnicodeIsUnescaped(t: string, cp: nat, more: string)
    requires |t| >= 2 && t[0] == '\\' && t[1] == 'u' && DecodeCodePoint(t[2..]) == CodePoint(cp, more)
    ensures Unescape(t) == Prefixed(Utf8(cp), Unescape(more))
  {
    hide DecodeCodePoint, Utf8;
  }

  lemma EscapeIsUnescaped(c: char, more: string)
    ensures Unescape(Escape(c) + more) == Prefixed([c], Unescape(more))
  {
    EscapeForms(c);
    hide Escape, Unescape, DecodeCodePoint, Utf8, SimpleEscape;
    var e := Escape(c);
    var t := e + more;
    if |e| == 1 {
      assert t[1..] == more;
      PlainIsUnescaped(t);
    } else if |e| == 2 {
      assert t[2..] == more;
      SimpleIsUnescaped(t, c);
    } else {
      assert t[2..] == Control(c) + more;
      ControlIsDecoded(c, more);
      UnicodeIsUnescaped(t, c as int, more);
    }
  }

  lemma {:induction false} EscapedIsUnescaped(s: string)
    requires NUL !in s
    ensures Unescape(Escaped(s)) == Some(s) && CString(s) == s
  {
    if s != "" {
      EscapeIsUnescaped(s[0], Escaped(s[1..]));
      EscapedIsUnescaped(s[1..]);
      assert s == [s[0]] + s[1..];
    }
  }

  // ------------------------------------------------------------------------------------------
  // Tokens
  // ------------------------------------------------------------------------------------------

  /** Where no space and no comment starts, the next token starts. */
  lemma NothingToSkip(d: string, i: nat)
    requires i < |d| && !IsSpace(d[i]) && d[i] != '/'
    ensures SkipSpaces(d, i) == i && SkipComments(d, i) == ReadToken(d, i)
  {
  }

  lemma PunctuationIsRead(d: string, i: nat, c: char)
    requires At(d, i, [c]) && c in "{}[],:"
    ensures SkipSpaces(d, i) == i && SkipComments(d, i) == ReadToken(d, i) == Token(KindOf(c), i, i + 1)
    ensures i < |d| && d[i] == c && Ends(d, i)
  {
    AtFirst(d, i, [c]);
    NothingToSkip(d, i);
  }

  function KindOf(c: char): Kind {
    match c
    case '{' => ObjectBegin
    case '}' => ObjectEnd
    case '[' => ArrayBegin
    case ']' => ArrayEnd
    case ',' => ArraySeparator
    case ':' => MemberSeparator
    case _ => Error
  }

  lemma QuoteStartsString(d: string, i: nat)
    requires i < |d| && d[i] == '"' && ReadString(d, i + 1).ok
    ensures SkipComments(d, i) == Token(StringToken, i, ReadString(d, i + 1).at)
  {
    hide ReadString;
    NothingToSkip(d, i);
  }

  lemma QuotedIsRead(d: string, i: nat, s: string)
    requires At(d, i, Quoted(s)) && NUL !in s
    ensures var t := SkipComments(d, i);
            t == Token(StringToken, i, i + |Quoted(s)|) && DecodeString(d, t) == Some(s) && CString(s) == s
  {
    hide Escaped, ReadString, SkipComments, Unescape, CString;
    var e := Escaped(s);
    assert Quoted(s) == "\"" + (e + "\"");
    AtParts(d, i, "\"", e + "\"");
    AtFirst(d, i, "\"");
    EscapedIsRead(d, i + 1, s);
    QuoteStartsString(d, i);
    AtParts(d, i + 1, e, "\"");
    EscapedIsUnescaped(s);
  }

  lemma WordIsToken(d: string, i: nat, v: Value)
    requires (v == Null || v.Bool?) && i < |d| && SkipSpaces(d, i) == i
    requires d[i] == Text(v)[0] && At(d, i + 1, Text(v)[1..])
    ensures ReadToken(d, i) == Token(if v == Null then NullToken else if v.b then True else False, i, i + |Text(v)|)
  {
    hide SkipSpaces, ReadNumber, ReadString, ReadComment;
    assert Text(v)[1..] == if v == Null then "ull" else if v.b then "rue" else "alse";
  }

  lemma WordIsRead(d: string, i: nat, v: Value)
    requires (v == Null || v.Bool?) && At(d, i, Text(v))
    ensures ReadValue(d, i) == Read(v, i + |Text(v)|)
  {
    var t := Text(v);
    AtFirst(d, i, t);
    NothingToSkip(d, i);
    assert t[1..] == if v == Null then "ull" else if v.b then "rue" else "alse";
    hide SkipSpaces, SkipComments, ReadNumber, ReadString, ReadComment, DecodeNumber, Unescape, ReadMembers, ReadItems;
    WordIsToken(d, i, v);
  }

  lemma NumberStarts(d: string, i: nat)
    requires i < |d| && (IsDigit(d[i]) || d[i] == '-')
    ensures SkipComments(d, i) == Token(Number, i, ReadNumber(d, i + 1))
  {
    hide ReadNumber;
    NothingToSkip(d, i);
  }

  lemma NumberTextIsNumber(n: int)
    ensures var t := NumberText(n);
            t != "" && (IsDigit(t[0]) || t[0] == '-') && forall c :: c in t ==> InNumber(c)
  {
    hide Digits;
    var m: nat := if n < 0 then -n else n;
    assert Digits(m)[0] in Digits(m);
  }

  lemma NumberTokenIsRead(d: string, i: nat, n: int)
    requires MIN_LARGEST_INT <= n <= MAX_LARGEST_UINT && At(d, i, NumberText(n)) && Ends(d, i + |NumberText(n)|)
    ensures ReadValue(d, i) == Read(IntegerValue(n), i + |NumberText(n)|)
  {
    var t := NumberText(n);
    NumberTextIsNumber(n);
    hide NumberText, SkipComments, DecodeNumber, ReadNumber, InNumber;
    AtFirst(d, i, t);
    assert forall c :: c in t[1..] ==> c in t;
    NumberIsRead(d, i + 1, t[1..]);
    NumberStarts(d, i);
    NumbersAreDecoded(n);
  }

  // ------------------------------------------------------------------------------------------
  // Values
  // ------------------------------------------------------------------------------------------

  /** What comes back: integers tagged as the reader tags them, strings up to their first NUL. */
  function Normal(v: Value): Value {
    match v
    case Int(n) => IntegerValue(n)
    case UInt(n) => IntegerValue(n)
    case Str(s) => Str(CString(s))
    case Arr(items) => Arr(NormalItems(items))
    case Obj(ms) => Obj(NormalMembers(ms))
    case _ => v
  }

  function NormalItems(items: Items): Items {
    match items
    case NoItems => NoItems
    case Items(v, rest) => Items(Normal(v), NormalItems(rest))
  }

  function NormalMembers(ms: Members): Members {
    match ms
    case NoMembers => NoMembers
    case Members(name, v, others) => Members(name, Normal(v), NormalMembers(others))
  }

  function AppendAll(a: Items, b: Items): Items
    decreases b
  {
    match b
    case NoItems => a
    case Items(v, rest) => AppendAll(Append(a, v), rest)
  }

  function PutAll(a: Members, b: Members): Members
    decreases b
  {
    match b
    case NoMembers => a
    case Members(name, v, others) => PutAll(Put(a, name, v), others)
  }

  function Concat(a: Items, b: Items): Items {
    match a
    case NoItems => b
    case Items(v, rest) => Items(v, Concat(rest, b))
  }

  lemma {:induction false} ConcatAppend(a: Items, v: Value, b: Items)
    ensures Concat(Append(a, v), b) == Concat(a, Items(v, b))
  {
    if a.Items? {
      ConcatAppend(a.rest, v, b);
    }
  }

  lemma {:induction false} AppendAllIsConcat(a: Items, b: Items)
    ensures AppendAll(a, b) == Concat(a, b)
    decreases b
  {
    match b
    case NoItems => ConcatNothing(a);
    case Items(v, rest) =>
      AppendAllIsConcat(Append(a, v), rest);
      ConcatAppend(a, v, rest);
  }

  lemma {:induction false} ConcatNothing(a: Items)
    ensures Concat(a, NoItems) == a
  {
    if a.Items? {
      ConcatNothing(a.rest);
    }
  }

  function Join(a: Members, b: Members): Members {
    match a
    case NoMembers => b
    case Members(name, v, others) => Members(name, v, Join(others, b))
  }

  predicate AllLess(ms: Members, name: string) {
    ms.Members? ==> NameLess(ms.name, name) && AllLess(ms.others, name)
  }

  /** A name behind all others goes to the end of the map. */
  lemma {:induction false} PutLast(a: Members, name: string, v: Value)
    requires AllLess(a, name)
    ensures Put(a, name, v) == Join(a, Members(name, v, NoMembers))
  {
    if a.Members? {
      NamesAreOrdered(a.name, name, a.name);
      NamesAreOrdered(name, a.name, name);
      PutLast(a.others, name, v);
    }
  }

  lemma {:induction false} JoinIsAssociative(a: Members, b: Members, c: Members)
    ensures Join(Join(a, b), c) == Join(a, Join(b, c))
  {
    if a.Members? {
      JoinIsAssociative(a.others, b, c);
    }
  }

  lemma {:induction false} JoinNothing(a: Members)
    ensures Join(a, NoMembers) == a
  {
    if a.Members? {
      JoinNothing(a.others);
    }
  }

  lemma {:induction false} AllLessGrows(a: Members, name: string, v: Value, next: string)
    requires AllLess(a, name) && NameLess(name, next)
    ensures AllLess(Join(a, Members(name, v, NoMembers)), next)
  {
    if a.Members? {
      NamesAreOrdered(a.name, name, next);
      AllLessGrows(a.others, name, v, next);
    }
  }

  /** Members written in the map's order come back in that order. */
  lemma {:induction false} PutAllIsJoin(a: Members, b: Members)
    requires Ascending(b) && (b.Members? ==> AllLess(a, b.name))
    ensures PutAll(a, b) == Join(a, b)
    decreases b
  {
    match b
    case NoMembers => JoinNothing(a);
    case Members(name, v, others) =>
      var one := Members(name, v, NoMembers);
      PutLast(a, name, v);
      if others.Members? {
        AllLessGrows(a, name, v, others.name);
      }
      PutAllIsJoin(Join(a, one), others);
      JoinIsAssociative(a, one, others);
  }

  lemma {:induction false} NormalKeepsOrder(ms: Members)
    requires Ascending(ms)
    ensures Ascending(NormalMembers(ms))
  {
    hide NameLess;
    if ms.Members? && ms.others.Members? {
      NormalKeepsOrder(ms.others);
      assert NormalMembers(ms.others).name == ms.others.name;
    }
  }

  lemma TextStarts(v: Value)
    requires Writable(v)
    ensures Text(v) != "" && !IsSpace(Text(v)[0]) && Text(v)[0] != ']'
  {
    if v.Int? || v.UInt? {
      assert v.n >= 0 ==> Digits(v.n)[0] in Digits(v.n);
    }
  }

  lemma StringIsRead(d: string, i: nat, s: string)
    requires At(d, i, Quoted(s)) && NUL !in s
    ensures ReadValue(d, i) == Read(Str(s), i + |Quoted(s)|)
  {
    hide Quoted, SkipComments, DecodeString, CString;
    QuotedIsRead(d, i, s);
  }

  lemma ValueIsRead(d: string, i: nat, v: Value)
    requires Writable(v) && At(d, i, Text(v)) && Ends(d, i + |Text(v)|)
    ensures ReadValue(d, i) == Read(Normal(v), i + |Text(v)|)
    decreases v, 1
  {
    hide ReadValue, ReadToken, SkipComments, NumberText, Quoted, ItemsText, MembersText, CString, Ends, IntegerValue, At, NormalItems,
         NormalMembers, WritableItems, WritableMembers, Ascending;
    match v
    case Null => WordIsRead(d, i, v);
    case Bool(_) => WordIsRead(d, i, v);
    case Int(n) => NumberTokenIsRead(d, i, n);
    case UInt(n) => NumberTokenIsRead(d, i, n);
    case Str(s) => StringIsRead(d, i, CString(s));
    case Arr(items) => ArrayIsRead(d, i, items);
    case Obj(ms) => ObjectIsRead(d, i, ms);
  }

  lemma ArrayStarts(d: string, i: nat)
    requires i < |d| && SkipComments(d, i) == Token(ArrayBegin, i, i + 1)
    ensures var s := SkipSpaces(d, i + 1);
            ReadValue(d, i) == if s < |d| && d[s] == ']' then Read(Arr(NoItems), s + 1) else ReadItems(d, s, NoItems)
  {
    hide SkipComments, SkipSpaces, ReadItems;
  }

  /** The reader after one item. */
  lemma ItemsStep(d: string, i: nat, before: Items, v: Value, j: nat)
    requires i <= |d| && ReadValue(d, i) == Read(v, j)
    ensures j <= |d|
    ensures var t := SkipComments(d, j);
            ReadItems(d, i, before) ==
              if t.kind == ArrayEnd then Read(Arr(Append(before, v)), t.end)
              else if t.kind == ArraySeparator then ReadItems(d, t.end, Append(before, v))
              else Failed
  {
    hide ReadValue, SkipComments;
  }

  lemma ArrayIsRead(d: string, i: nat, items: Items)
    requires WritableItems(items) && At(d, i, "[" + ItemsText(items) + "]")
    ensures ReadValue(d, i) == Read(Arr(NormalItems(items)), i + |ItemsText(items)| + 2)
    decreases items, 1
  {
    hide Text, Writable, ReadValue, ReadItems, SkipComments, ReadToken, Normal;
    var t := ItemsText(items);
    assert "[" + t + "]" == "[" + (t + "]");
    AtParts(d, i, "[", t + "]");
    PunctuationIsRead(d, i, '[');
    ArrayStarts(d, i);
    AtFirst(d, i + 1, t + "]");
    if items.NoItems? {
      assert t + "]" == "]";
      PunctuationIsRead(d, i + 1, ']');
    } else {
      TextStarts(items.head);
      assert (t + "]")[0] == Text(items.head)[0];
      ItemsAreRead(d, i + 1, items, NoItems);
      AppendAllIsConcat(NoItems, NormalItems(items));
    }
  }

  /** Where the parts of an array's text are. */
  lemma ItemParts(d: string, i: nat, items: Items)
    requires items.Items? && At(d, i, ItemsText(items) + "]")
    ensures var j := i + |Text(items.head)|;
            && At(d, i, Text(items.head))
            && (if items.rest.NoItems? then At(d, j, "]") && i + |ItemsText(items)| == j
                else && At(d, j, ",") && At(d, j + 1, ItemsText(items.rest) + "]")
                     && i + |ItemsText(items)| == j + 1 + |ItemsText(items.rest)|)
  {
    hide Text, At;
    var rest := items.rest;
    var a, b := Text(items.head), MoreItems(rest);
    assert ItemsText(items) + "]" == a + (b + "]");
    AtParts(d, i, a, b + "]");
    if rest.NoItems? {
      assert b + "]" == "]";
    } else {
      assert b + "]" == "," + (ItemsText(rest) + "]");
      AtParts(d, i + |a|, ",", ItemsText(rest) + "]");
    }
  }

  lemma ItemsAreRead(d: string, i: nat, items: Items, before: Items)
    requires items.Items? && WritableItems(items) && At(d, i, ItemsText(items) + "]")
    ensures ReadItems(d, i, before) == Read(Arr(AppendAll(before, NormalItems(items))), i + |ItemsText(items)| + 1)
    decreases items, 0
  {
    hide Text, Writable, ReadValue, ReadItems, SkipComments, SkipSpaces, ReadToken, Normal, Append, ItemsText, At, Ends;
    var v, rest := items.head, items.rest;
    var j := i + |Text(v)|;
    ItemParts(d, i, items);
    PunctuationIsRead(d, j, if rest.NoItems? then ']' else ',');
    ValueIsRead(d, i, v);
    ItemsStep(d, i, before, Normal(v), j);
    if rest.NoItems? {
      assert AppendAll(Append(before, Normal(v)), NoItems) == Append(before, Normal(v));
    } else {
      ItemsAreRead(d, j + 1, rest, Append(before, Normal(v)));
    }
  }

  lemma ObjectStarts(d: string, i: nat)
    requires i < |d| && SkipComments(d, i) == Token(ObjectBegin, i, i + 1)
    ensures ReadValue(d, i) == ReadMembers(d, i + 1, NoMembers, "")
  {
    hide SkipComments, ReadMembers;
  }

  lemma ObjectIsRead(d: string, i: nat, ms: Members)
    requires WritableMembers(ms) && Ascending(ms) && At(d, i, "{" + MembersText(ms) + "}")
    ensures ReadValue(d, i) == Read(Obj(NormalMembers(ms)), i + |MembersText(ms)| + 2)
    decreases ms, 1
  {
    hide Text, Quoted, Writable, ReadValue, SkipComments, SkipSpaces, ReadToken, Normal, Ascending, ReadString, Unescape;
    var t := MembersText(ms);
    assert "{" + t + "}" == "{" + (t + "}");
    AtParts(d, i, "{", t + "}");
    PunctuationIsRead(d, i, '{');
    ObjectStarts(d, i);
    if ms.NoMembers? {
      assert t + "}" == "}";
      PunctuationIsRead(d, i + 1, '}');
    } else {
      hide ReadMembers;
      MembersAreRead(d, i + 1, ms, NoMembers, "");
      NormalKeepsOrder(ms);
      PutAllIsJoin(NoMembers, NormalMembers(ms));
    }
  }

  /** The reader after one member. */
  lemma MembersStep(d: string, i: nat, before: Members, last: string, name: string, k: nat, v: Value, j: nat)
    requires i < k < |d| && SkipComments(d, i) == Token(StringToken, i, k) && i + 2 <= k
    requires DecodeString(d, Token(StringToken, i, k)) == Some(name) && CString(name) == name
    requires ReadToken(d, k) == Token(MemberSeparator, k, k + 1) && ReadValue(d, k + 1) == Read(v, j)
    ensures j <= |d|
    ensures var t := SkipComments(d, j);
            t == ReadToken(d, j) && (t.kind == ObjectEnd || t.kind == ArraySeparator) ==>
              ReadMembers(d, i, before, last) ==
                if t.kind == ObjectEnd then Read(Obj(Put(before, name, v)), t.end)
                else ReadMembers(d, t.end, Put(before, name, v), name)
  {
    hide ReadValue, SkipComments, ReadToken, DecodeString, CString, Put;
  }

  lemma RegroupMember(q: string, a: string, b: string)
    ensures q + ":" + a + b + "}" == q + (":" + (a + (b + "}")))
  {
    assert q + ":" + a + b + "}" == (q + ":" + a) + (b + "}");
    assert q + ":" + a == q + (":" + a);
  }

  lemma CommaFirst(q: string, a: string, b: string)
    ensures "," + q + b == "," + (q + b)
    ensures "," + q + ":" + a + b == "," + (q + ":" + a + b)
  {
    assert "," + q + ":" == "," + (q + ":");
    assert "," + (q + ":") + a == "," + (q + ":" + a);
    assert "," + (q + ":" + a) + b == "," + (q + ":" + a + b);
  }

  lemma MoreIsComma(ms: Members)
    requires ms.Members?
    ensures MoreMembers(ms) == "," + MembersText(ms)
  {
    hide Text, Quoted;
    CommaFirst(Quoted(ms.name), Text(ms.value), MoreMembers(ms.others));
  }

  /** Where the parts of an object's text are. */
  lemma MemberParts(d: string, i: nat, ms: Members)
    requires ms.Members? && At(d, i, MembersText(ms) + "}")
    ensures var k := i + |Quoted(ms.name)|;
            var j := k + 1 + |Text(ms.value)|;
            && At(d, i, Quoted(ms.name)) && At(d, k, ":") && At(d, k + 1, Text(ms.value))
            && (if ms.others.NoMembers? then At(d, j, "}") && i + |MembersText(ms)| == j
                else && At(d, j, ",") && At(d, j + 1, MembersText(ms.others) + "}")
                     && i + |MembersText(ms)| == j + 1 + |MembersText(ms.others)|)
  {
    hide Text, Quoted, At;
    var others := ms.others;
    var q, a, b := Quoted(ms.name), Text(ms.value), MoreMembers(others);
    assert MembersText(ms) == q + ":" + a + b;
    hide MembersText;
    RegroupMember(q, a, b);
    AtParts(d, i, q, ":" + (a + (b + "}")));
    AtParts(d, i + |q|, ":", a + (b + "}"));
    AtParts(d, i + |q| + 1, a, b + "}");
    if others.NoMembers? {
      assert b + "}" == "}";
    } else {
      MoreIsComma(others);
      hide MoreMembers;
      CommaFirst(MembersText(others), "", "}");
      AtParts(d, i + |q| + 1 + |a|, ",", MembersText(others) + "}");
    }
  }

  lemma MembersAreRead(d: string, i: nat, ms: Members, before: Members, last: string)
    requires ms.Members? && WritableMembers(ms) && At(d, i, MembersText(ms) + "}")
    ensures ReadMembers(d, i, before, last) ==
            Read(Obj(PutAll(before, NormalMembers(ms))), i + |MembersText(ms)| + 1)
    decreases ms, 0
  {
    hide Text, Quoted, Writable, ReadValue, ReadMembers, SkipComments, SkipSpaces, ReadToken, Normal, Put, DecodeString, CString,
         MembersText, At, Ends;
    var v, others := ms.value, ms.others;
    var k := i + |Quoted(ms.name)|;
    var j := k + 1 + |Text(v)|;
    var next := Put(before, ms.name, Normal(v));
    MemberParts(d, i, ms);
    QuotedIsRead(d, i, ms.name);
    PunctuationIsRead(d, k, ':');
    PunctuationIsRead(d, j, if others.NoMembers? then '}' else ',');
    ValueIsRead(d, k + 1, v);
    MembersStep(d, i, before, last, ms.name, k, Normal(v), j);
    if others.NoMembers? {
      assert PutAll(next, NoMembers) == next;
    } else {
      MembersAreRead(d, j + 1, others, next, ms.name);
    }
  }

  // ------------------------------------------------------------------------------------------
  // Theorems
  // ------------------------------------------------------------------------------------------

  /** The same tree, whether an integer is tagged as signed or not. */
  predicate Same(a: Value, b: Value) {
    match a
    case Int(n) => (b.Int? || b.UInt?) && b.n == n
    case UInt(n) => (b.Int? || b.UInt?) && b.n == n
    case Arr(items) => b.Arr? && SameItems(items, b.items)
    case Obj(ms) => b.Obj? && SameMembers(ms, b.members)
    case _ => b == a
  }

  predicate SameItems(a: Items, b: Items) {
    match a
    case NoItems => b.NoItems?
    case Items(v, rest) => b.Items? && Same(v, b.head) && SameItems(rest, b.rest)
  }

  predicate SameMembers(a: Members, b: Members) {
    match a
    case NoMembers => b.NoMembers?
    case Members(name, v, others) => b.Members? && name == b.name && Same(v, b.value) && SameMembers(others, b.others)
  }

  /** No string value has a NUL in it. */
  predicate NulFree(v: Value) {
    match v
    case Str(s) => NUL !in s
    case Arr(items) => NulFreeItems(items)
    case Obj(ms) => NulFreeMembers(ms)
    case _ => true
  }

  predicate NulFreeItems(items: Items) {
    items.Items? ==> NulFree(items.head) && NulFreeItems(items.rest)
  }

  predicate NulFreeMembers(ms: Members) {
    ms.Members? ==> NulFree(ms.value) && NulFreeMembers(ms.others)
  }

  lemma {:induction false} CStringIsSame(s: string)
    ensures CString(s) == s <==> NUL !in s
  {
    if s != "" && s[0] != NUL {
      CStringIsSame(s[1..]);
      assert s == [s[0]] + s[1..];
      assert CString(s)[1..] == CString(s[1..]);
    }
  }

  lemma NormalIsSame(v: Value)
    ensures Same(v, Normal(v)) <==> NulFree(v)
    decreases v
  {
    match v
    case Str(s) => CStringIsSame(s);
    case Arr(items) => NormalItemsAreSame(items);
    case Obj(ms) => NormalMembersAreSame(ms);
    case _ =>
  }

  lemma {:induction false} NormalItemsAreSame(items: Items)
    ensures SameItems(items, NormalItems(items)) <==> NulFreeItems(items)
    decreases items
  {
    if items.Items? {
      NormalIsSame(items.head);
      NormalItemsAreSame(items.rest);
    }
  }

  lemma {:induction false} NormalMembersAreSame(ms: Members)
    ensures SameMembers(ms, NormalMembers(ms)) <==> NulFreeMembers(ms)
    decreases ms
  {
    if ms.Members? {
      NormalIsSame(ms.value);
      NormalMembersAreSame(ms.others);
    }
  }

  /** What was written is always read, and it is the same tree exactly if no string has a NUL. */
  lemma RoundTrip(v: Value)
    requires Writable(v)
    ensures var r := Parse(Text(v) + "\n"); r.Some? && (Same(v, r.value) <==> NulFree(v))
  {
    hide Text, ReadValue;
    var d := Text(v) + "\n";
    assert d[0..|Text(v)|] == Text(v);
    ValueIsRead(d, 0, v);
    NormalIsSame(v);
  }
}
