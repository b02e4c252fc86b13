/** JSON values, and the writer that puts a value on one line.  A character stands for a byte. */
module Json {
  import opened Strings

  const MIN_LARGEST_INT: int := -0x8000_0000_0000_0000
  const MAX_LARGEST_INT: int := 0x7FFF_FFFF_FFFF_FFFF
  const MAX_LARGEST_UINT: int := 0xFFFF_FFFF_FFFF_FFFF
  const MAX_INT: int := 0x7FFF_FFFF

  const NUL: char := 0 as char
  const BACKSPACE: char := 8 as char
  const FORM_FEED: char := 12 as char

  /** A real number is kept as the text that sscanf would convert. */
  datatype Value =
    | Null
    | Bool(b: bool)
    | Int(n: int)
    | UInt(n: int)
    | Real(text: string)
    | Str(s: string)
    | Arr(items: Items)
    | Obj(members: Members)

  datatype Items = NoItems | Items(head: Value, rest: Items)

  /** The entries of a std::map, in its order. */
  datatype Members = NoMembers | Members(name: string, value: Value, others: Members)

  predicate Ascending(ms: Members) {
    ms.Members? && ms.others.Members? ==> NameLess(ms.name, ms.others.name) && Ascending(ms.others)
  }

  /** What a C string keeps. */
  function CString(s: string): (r: string)
    ensures NUL !in r
  {
    if s == "" || s[0] == NUL then "" else [s[0]] + CString(s[1..])
  }

  /** The part before the first NUL. */
  lemma {:induction false} CStringIsPrefix(s: string)
    ensures CString(s) <= s && (|CString(s)| < |s| ==> s[|CString(s)|] == NUL)
  {
    if s != "" && s[0] != NUL {
      CStringIsPrefix(s[1..]);
      assert s == [s[0]] + s[1..];
    }
  }

  /** 64-bit integers, maps with C strings as keys, no real numbers. */
  predicate Writable(v: Value) {
    match v
    case Int(n) => MIN_LARGEST_INT <= n <= MAX_LARGEST_INT
    case UInt(n) => 0 <= n <= MAX_LARGEST_UINT
    case Real(_) => false
    case Arr(items) => WritableItems(items)
    case Obj(ms) => WritableMembers(ms) && Ascending(ms)
    case _ => true
  }

  predicate WritableItems(items: Items) {
    items.Items? ==> Writable(items.head) && WritableItems(items.rest)
  }

  predicate WritableMembers(ms: Members) {
    ms.Members? ==> NUL !in ms.name && Writable(ms.value) && WritableMembers(ms.others)
  }

  // ------------------------------------------------------------------------------------------
  // The text of a value
  // ------------------------------------------------------------------------------------------

  function NumberText(n: int): string {
    if n < 0 then "-" + Digits(-n) else Digits(n)
  }

  predicate IsControlCharacter(c: char) { NUL < c <= 0x1F as char }

  function HexDigit(d: nat): char
    requires d < 16
  {
    if d < 10 then '0' + d as char else 'A' + (d - 10) as char
  }

  lemma HexDigitsAreUpperCase(d: nat)
    requires d < 16
    ensures HexDigit(d) == "0123456789ABCDEF"[d]
  {
  }

  function Escape(c: char): (s: string)
    ensures s != ""
  {
    if c == '"' then "\\\""
    else if c == '\\' then "\\\\"
    else if c == BACKSPACE then "\\b"
    else if c == FORM_FEED then "\\f"
    else if c == '\n' then "\\n"
    else if c == '\r' then "\\r"
    else if c == '\t' then "\\t"
    else if IsControlCharacter(c) then ['\\', 'u', '0', '0', HexDigit(c as int / 16), HexDigit(c as int % 16)]
    else [c]
  }

  predicate IsPlain(c: char) {
    c != '"' && c != '\\' && !IsControlCharacter(c)
  }

  function Escaped(s: string): string {
    if s == "" then "" else Escape(s[0]) + Escaped(s[1..])
  }

  function Quoted(s: string): string { "\"" + Escaped(s) + "\"" }

  function Text(v: Value): string {
    match v
    case Null => "null"
    case Bool(b) => if b then "true" else "false"
    case Int(n) => NumberText(n)
    case UInt(n) => NumberText(n)
    case Real(text) => text
    case Str(s) => Quoted(CString(s))
    case Arr(items) => "[" + ItemsText(items) + "]"
    case Obj(ms) => "{" + MembersText(ms) + "}"
  }

  lemma TextIs(v: Value, before: string)
    ensures match v
            case Null => Text(v) == "null"
            case Bool(b) => Text(v) == if b then "true" else "false"
            case Int(n) => Text(v) == NumberText(n)
            case UInt(n) => Text(v) == NumberText(n)
            case Real(text) => Text(v) == text
            case Str(s) => Text(v) == Quoted(CString(s))
            case Arr(items) => before + Text(v) == before + "[" + ItemsText(items) + "]"
            case Obj(ms) => before + Text(v) == before + "{" + MembersText(ms) + "}"
  {
    hide ItemsText, MembersText;
    match v
    case Arr(items) => assert before + ("[" + ItemsText(items) + "]") == before + "[" + ItemsText(items) + "]";
    case Obj(ms) => assert before + ("{" + MembersText(ms) + "}") == before + "{" + MembersText(ms) + "}";
    case _ =>
  }

  function ItemsText(items: Items): string {
    match items
    case NoItems => ""
    case Items(v, rest) => Text(v) + MoreItems(rest)
  }

  function MoreItems(items: Items): string {
    match items
    case NoItems => ""
    case Items(v, rest) => "," + Text(v) + MoreItems(rest)
  }

  function MembersText(ms: Members): string {
    match ms
    case NoMembers => ""
    case Members(name, v, others) => Quoted(name) + ":" + Text(v) + MoreMembers(others)
  }

  function MoreMembers(ms: Members): string {
    match ms
    case NoMembers => ""
    case Members(name, v, others) => "," + Quoted(name) + ":" + Text(v) + MoreMembers(others)
  }

  // ------------------------------------------------------------------------------------------
  // The writer
  // ------------------------------------------------------------------------------------------

  lemma {:induction false} EscapedAppend(s: string, c: char)
    ensures Escaped(s + [c]) == Escaped(s) + Escape(c)
  {
    if s == "" {
      assert [] + [c] == [c] && [c][1..] == [];
    } else {
      EscapedAppend(s[1..], c);
      assert (s + [c])[1..] == s[1..] + [c];
    }
  }

  lemma {:induction false} PlainIsUnescaped(s: string)
    requires forall c :: c in s ==> IsPlain(c)
    ensures Escaped(s) == s
  {
    if s != "" {
      PlainIsUnescaped(s[1..]);
      assert s[0] in s;
      assert Escape(s[0]) == [s[0]];
      assert s == [s[0]] + s[1..];
    }
  }

  /** uintToString fills its buffer from the end. */
  method UintToString(value: nat) returns (s: string)
    ensures s == Digits(value)
  {
    var left := value;
    s := [Digit(left % 10)];
    left := left / 10;
    while left != 0
      invariant Digits(value) == if left == 0 then s else Digits(left) + s
    {
      s := [Digit(left % 10)] + s;
      left := left / 10;
    }
  }

  method ValueToString(n: int) returns (s: string)
    ensures s == NumberText(n)
  {
    if n < 0 {
      s := UintToString(-n);
      s := "-" + s;
    } else {
      s := UintToString(n);
    }
  }

  /** Walks over the string only if it has a character to escape. */
  method ValueToQuotedString(value: string) returns (result: string)
    ensures result == Quoted(value)
  {
    var i := 0;
    while i < |value| && IsPlain(value[i])
      invariant 0 <= i <= |value| && forall k :: 0 <= k < i ==> IsPlain(value[k])
    {
      i := i + 1;
    }
    if i == |value| {
      PlainIsUnescaped(value);
      return "\"" + value + "\"";
    }
    result := "\"";
    for k := 0 to |value|
      invariant result == "\"" + Escaped(value[..k])
    {
      EscapedAppend(value[..k], value[k]);
      assert value[..k + 1] == value[..k] + [value[k]];
      result := result + Escape(value[k]);
    }
    assert value[..|value|] == value;
    result := result + "\"";
  }

  class FastWriter {
    var document: string

    constructor ()
      ensures document == ""
    {
      document := "";
    }

    /** The value on one line. */
    method Write(root: Value) returns (text: string)
      modifies this
      ensures text == Text(root) + "\n"
    {
      document := "";
      WriteValue(root);
      document := document + "\n";
      text := document;
    }

    method WriteValue(value: Value)
      modifies this
      ensures document == old(document) + Text(value)
      decreases value
    {
      TextIs(value, document);
      hide Text, ItemsText, MembersText, NumberText, Quoted, CString;
      match value
      case Null => document := document + "null";
      case Bool(b) => document := document + if b then "true" else "false";
      case Int(n) =>
        var s := ValueToString(n);
        document := document + s;
      case UInt(n) =>
        var s := ValueToString(n);
        document := document + s;
      case Real(text) => document := document + text;
      case Str(s) =>
        var q := ValueToQuotedString(CString(s));
        document := document + q;
      case Arr(items) => WriteArray(items);
      case Obj(ms) => WriteObject(ms);
    }

    method WriteArray(items: Items)
      modifies this
      ensures document == old(document) + "[" + ItemsText(items) + "]"
      decreases items
    {
      hide Text;
      document := document + "[";
      ghost var start := document;
      var left, first := items, true;
      while left.Items?
        invariant document + (if first then ItemsText(left) else MoreItems(left)) == start + ItemsText(items)
        invariant left == items || left < items
        decreases left
      {
        if !first {
          ReassociateItem(document, left);
          document := document + ",";
        }
        ReassociateValue(document, Text(left.head), MoreItems(left.rest));
        first := false;
        WriteValue(left.head);
        left := left.rest;
      }
      assert document + "" == document;
      document := document + "]";
    }

    method WriteObject(members: Members)
      modifies this
      ensures document == old(document) + "{" + MembersText(members) + "}"
      decreases members
    {
      hide Text, Quoted;
      document := document + "{";
      ghost var start := document;
      var left, first := members, true;
      while left.Members?
        invariant document + (if first then MembersText(left) else MoreMembers(left)) == start + MembersText(members)
        invariant left == members || left < members
        decreases left
      {
        if !first {
          ReassociateMember(document, left);
          document := document + ",";
        }
        ReassociatePair(document, Quoted(left.name), Text(left.value), MoreMembers(left.others));
        first := false;
        var q := ValueToQuotedString(left.name);
        document := document + q;
        document := document + ":";
        WriteValue(left.value);
        left := left.others;
      }
      assert document + "" == document;
      document := document + "}";
    }
  }

  lemma ReassociateValue(d: string, v: string, more: string)
    ensures d + (v + more) == (d + v) + more
  {
  }

  lemma ReassociateItem(d: string, items: Items)
    requires items.Items?
    ensures d + MoreItems(items) == (d + ",") + ItemsText(items)
  {
    hide Text;
    ReassociateComma(d, Text(items.head), MoreItems(items.rest));
  }

  lemma ReassociateComma(d: string, v: string, more: string)
    ensures d + ("," + v + more) == (d + ",") + (v + more)
  {
  }

  lemma ReassociateMember(d: string, ms: Members)
    requires ms.Members?
    ensures d + MoreMembers(ms) == (d + ",") + MembersText(ms)
  {
    hide Text, Quoted;
    ReassociateMore(d, Quoted(ms.name), Text(ms.value), MoreMembers(ms.others));
  }

  lemma ReassociateMore(d: string, q: string, v: string, more: string)
    ensures d + ("," + q + ":" + v + more) == (d + ",") + (q + ":" + v + more)
  {
  }

  lemma ReassociatePair(d: string, q: string, v: string, more: string)
    ensures d + (q + ":" + v + more) == (((d + q) + ":") + v) + more
  {
  }
}
