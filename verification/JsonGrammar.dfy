/** What the JSON reader makes of any document, as functions of document and position.  The features are
    the default ones: comments are allowed, and what follows the value is not looked at. */
module JsonGrammar {
  import opened Json
  import opened Strings

  datatype Option<+T> = None | Some(value: T)

  datatype Kind =
    | ObjectBegin | ObjectEnd | ArrayBegin | ArrayEnd | StringToken | Number | True | False | NullToken
    | ArraySeparator | MemberSeparator | Comment | EndOfStream | Error

  /** The characters of the document from `start` up to `end`. */
  datatype Token = Token(kind: Kind, start: nat, end: nat)

  /** Whether something was read, and where reading goes on. */
  datatype Scan = Scan(ok: bool, at: nat)

  // ------------------------------------------------------------------------------------------
  // Tokens
  // ------------------------------------------------------------------------------------------

  predicate IsSpace(c: char) { c == ' ' || c == '\t' || c == '\r' || c == '\n' }
  predicate InNumber(c: char) { IsDigit(c) || c in ".eE+-" }

  function SkipSpaces(d: string, i: nat): (j: nat)
    requires i <= |d|
    ensures i <= j <= |d|
    decreases |d| - i
  {
    if i < |d| && IsSpace(d[i]) then SkipSpaces(d, i + 1) else i
  }

  function ReadNumber(d: string, i: nat): (j: nat)
    requires i <= |d|
    ensures i <= j <= |d|
    decreases |d| - i
  {
    if i < |d| && InNumber(d[i]) then ReadNumber(d, i + 1) else i
  }

  /** To behind the closing quote; a backslash hides the next character. */
  function ReadString(d: string, i: nat): (r: Scan)
    requires i <= |d|
    ensures i <= r.at <= |d| && (r.ok ==> i < r.at)
    decreases |d| - i
  {
    if i == |d| then Scan(false, i)
    else if d[i] == '"' then Scan(true, i + 1)
    else if d[i] == '\\' then (if i + 1 < |d| then ReadString(d, i + 2) else Scan(false, i + 1))
    else ReadString(d, i + 1)
  }

  function ReadCStyleComment(d: string, i: nat): (r: Scan)
    requires i <= |d|
    ensures i <= r.at <= |d|
    decreases |d| - i
  {
    if i == |d| then Scan(false, i)
    else if d[i] == '*' && i + 1 < |d| && d[i + 1] == '/' then Scan(true, i + 2)
    else ReadCStyleComment(d, i + 1)
  }

  function ReadCppStyleComment(d: string, i: nat): (r: Scan)
    requires i <= |d|
    ensures i <= r.at <= |d|
    decreases |d| - i
  {
    if i == |d| then Scan(true, i)
    else if d[i] == '\r' || d[i] == '\n' then Scan(true, i + 1)
    else ReadCppStyleComment(d, i + 1)
  }

  /** i is behind the first slash. */
  function ReadComment(d: string, i: nat): (r: Scan)
    requires i <= |d|
    ensures i <= r.at <= |d|
  {
    if i == |d| then Scan(false, i)
    else if d[i] == '*' then ReadCStyleComment(d, i + 1)
    else if d[i] == '/' then ReadCppStyleComment(d, i + 1)
    else Scan(false, i + 1)
  }

  function Match(d: string, i: nat, pattern: string): (r: Scan)
    requires i <= |d|
    ensures i <= r.at <= |d|
  {
    if |d| - i >= |pattern| && d[i..i + |pattern|] == pattern then Scan(true, i + |pattern|) else Scan(false, i)
  }

  function TokenFrom(kind: Kind, start: nat, r: Scan): Token {
    Token(if r.ok then kind else Error, start, r.at)
  }

  function ReadToken(d: string, i: nat): (t: Token)
    requires i <= |d|
    ensures i <= t.start <= t.end <= |d|
    ensures t.kind != EndOfStream ==> t.start < t.end
    ensures t.kind == StringToken ==> t.start + 2 <= t.end
  {
    var s := SkipSpaces(d, i);
    if s == |d| then Token(EndOfStream, s, s)
    else match d[s]
      case '{' => Token(ObjectBegin, s, s + 1)
      case '}' => Token(ObjectEnd, s, s + 1)
      case '[' => Token(ArrayBegin, s, s + 1)
      case ']' => Token(ArrayEnd, s, s + 1)
      case '"' => TokenFrom(StringToken, s, ReadString(d, s + 1))
      case '/' => TokenFrom(Comment, s, ReadComment(d, s + 1))
      case 't' => TokenFrom(True, s, Match(d, s + 1, "rue"))
      case 'f' => TokenFrom(False, s, Match(d, s + 1, "alse"))
      case 'n' => TokenFrom(NullToken, s, Match(d, s + 1, "ull"))
      case ',' => Token(ArraySeparator, s, s + 1)
      case ':' => Token(MemberSeparator, s, s + 1)
      case c =>
        if IsDigit(c) || c == '-' then Token(Number, s, ReadNumber(d, s + 1))
        else if c == NUL then Token(EndOfStream, s, s + 1)
        else Token(Error, s, s + 1)
  }

  /** skipCommentTokens, and the loops that read on while a token is a comment. */
  function SkipComments(d: string, i: nat): (t: Token)
    requires i <= |d|
    ensures i <= t.start <= t.end <= |d| && t.kind != Comment
    ensures t.kind != EndOfStream ==> t.start < t.end
    ensures t.kind == StringToken ==> t.start + 2 <= t.end
    decreases |d| - i
  {
    var t := ReadToken(d, i);
    if t.kind == Comment then SkipComments(d, t.end) else t
  }

  // ------------------------------------------------------------------------------------------
  // Numbers
  // ------------------------------------------------------------------------------------------

  datatype Decoded = Integer(n: nat) | TooLarge | NotANumber

  /** The loop of decodeNumber over the digits left. */
  function DecodeDigits(t: string, value: nat, maxInteger: nat): Decoded {
    if t == "" then Integer(value)
    else if !IsDigit(t[0]) then NotANumber
    else if value >= maxInteger / 10
            && (value > maxInteger / 10 || |t| > 1 || DigitOf(t[0]) > maxInteger % 10) then TooLarge
    else DecodeDigits(t[1..], value * 10 + DigitOf(t[0]), maxInteger)
  }

  predicate LooksDouble(t: string) {
    exists k :: 0 <= k < |t| && (t[k] in ".eE+" || (t[k] == '-' && k != 0))
  }

  function IntegerValue(n: int): Value {
    if n < 0 then Int(n) else if n <= MAX_INT then Int(n) else UInt(n)
  }

  /** decodeNumber; what decodeDouble gives to sscanf becomes a real number. */
  function DecodeNumber(t: string): Option<Value> {
    if LooksDouble(t) then Some(Real(t))
    else
      var negative := t != "" && t[0] == '-';
      match DecodeDigits(if negative then t[1..] else t, 0, if negative then -MIN_LARGEST_INT else MAX_LARGEST_UINT)
      case Integer(n) => Some(if negative then Int(-(n as int)) else IntegerValue(n))
      case TooLarge => Some(Real(t))
      case NotANumber => None
  }

  // ------------------------------------------------------------------------------------------
  // Strings
  // ------------------------------------------------------------------------------------------

  function ByteOf(n: nat): char { (n % 0x100) as char }

  function Utf8(cp: nat): string {
    if cp <= 0x7F then [ByteOf(cp)]
    else if cp <= 0x7FF then [ByteOf(0xC0 + cp / 0x40 % 0x20), ByteOf(0x80 + cp % 0x40)]
    else if cp <= 0xFFFF then [ByteOf(0xE0 + cp / 0x1000 % 0x10), ByteOf(0x80 + cp / 0x40 % 0x40), ByteOf(0x80 + cp % 0x40)]
    else if cp <= 0x10FFFF then
      [ByteOf(0xF0 + cp / 0x4_0000 % 8), ByteOf(0x80 + cp / 0x1000 % 0x40), ByteOf(0x80 + cp / 0x40 % 0x40), ByteOf(0x80 + cp % 0x40)]
    else ""
  }

  function HexOf(c: char): Option<nat> {
    if '0' <= c <= '9' then Some((c - '0') as int)
    else if 'a' <= c <= 'f' then Some((c - 'a') as int + 10)
    else if 'A' <= c <= 'F' then Some((c - 'A') as int + 10)
    else None
  }

  /** decodeUnicodeEscapeSequence: four hexadecimal digits */
  function HexFour(t: string): (r: Option<nat>)
    ensures r.Some? ==> |t| >= 4
  {
    if |t| < 4 then None
    else match (HexOf(t[0]), HexOf(t[1]), HexOf(t[2]), HexOf(t[3]))
      case (Some(a), Some(b), Some(c), Some(d)) => Some(((a * 16 + b) * 16 + c) * 16 + d)
      case _ => None
  }

  datatype CodePoint = BadCodePoint | CodePoint(cp: nat, rest: string)

  /** decodeUnicodeCodePoint: a second escape follows the first half of a surrogate pair. */
  function DecodeCodePoint(t: string): (r: CodePoint)
    ensures r.CodePoint? ==> |r.rest| < |t|
  {
    match HexFour(t)
    case None => BadCodePoint
    case Some(u) =>
      if 0xD800 <= u <= 0xDBFF then
        if |t| - 4 < 6 || t[4] != '\\' || t[5] != 'u' then BadCodePoint
        else match HexFour(t[6..])
          case None => BadCodePoint
          case Some(v) => CodePoint(0x1_0000 + u % 0x400 * 0x400 + v % 0x400, t[10..])
      else CodePoint(u, t[4..])
  }

  function SimpleEscape(c: char): Option<char> {
    match c
    case '"' => Some('"')
    case '/' => Some('/')
    case '\\' => Some('\\')
    case 'b' => Some(BACKSPACE)
    case 'f' => Some(FORM_FEED)
    case 'n' => Some('\n')
    case 'r' => Some('\r')
    case 't' => Some('\t')
    case _ => None
  }

  /** The loop of decodeString over what is left between the quotes. */
  function Unescape(t: string): Option<string> {
    if t == "" || t[0] == '"' then Some("")
    else if t[0] != '\\' then Prefixed([t[0]], Unescape(t[1..]))
    else if |t| == 1 then None
    else if t[1] == 'u' then
      match DecodeCodePoint(t[2..])
      case BadCodePoint => None
      case CodePoint(cp, rest) => Prefixed(Utf8(cp), Unescape(rest))
    else
      match SimpleEscape(t[1])
      case None => None
      case Some(c) => Prefixed([c], Unescape(t[2..]))
  }

  function Prefixed(a: string, r: Option<string>): Option<string> {
    if r.Some? then Some(a + r.value) else None
  }

  /** decodeString, for a token that ReadString delimited */
  function DecodeString(d: string, t: Token): Option<string>
    requires t.start + 2 <= t.end <= |d|
  {
    Unescape(d[t.start + 1..t.end - 1])
  }

  // ------------------------------------------------------------------------------------------
  // Values
  // ------------------------------------------------------------------------------------------

  function Append(items: Items, v: Value): Items {
    match items
    case NoItems => Items(v, NoItems)
    case Items(head, rest) => Items(head, Append(rest, v))
  }

  /** currentValue()[name] = v, in a std::map */
  function Put(ms: Members, name: string, v: Value): Members {
    match ms
    case NoMembers => Members(name, v, NoMembers)
    case Members(n, w, others) =>
      if n == name then Members(n, v, others)
      else if NameLess(name, n) then Members(name, v, ms)
      else Members(n, w, Put(others, name, v))
  }

  /** A value and the position behind it. */
  datatype Read = Failed | Read(v: Value, at: nat)

  function ReadValue(d: string, i: nat): (r: Read)
    requires i <= |d|
    ensures r.Read? ==> i < r.at <= |d|
    decreases |d| - i, 0
  {
    var t := SkipComments(d, i);
    match t.kind
    case ObjectBegin => ReadMembers(d, t.end, NoMembers, "")
    case ArrayBegin =>
      var s := SkipSpaces(d, t.end);
      if s < |d| && d[s] == ']' then Read(Arr(NoItems), s + 1) else ReadItems(d, s, NoItems)
    case Number => (match DecodeNumber(d[t.start..t.end]) case None => Failed case Some(v) => Read(v, t.end))
    case StringToken =>
      (match DecodeString(d, t) case None => Failed case Some(s) => Read(Str(CString(s)), t.end))
    case True => Read(Bool(true), t.end)
    case False => Read(Bool(false), t.end)
    case NullToken => Read(Null, t.end)
    case _ => Failed
  }

  function ReadItems(d: string, i: nat, items: Items): (r: Read)
    requires i <= |d|
    ensures r.Read? ==> i < r.at <= |d|
    decreases |d| - i, 1
  {
    match ReadValue(d, i)
    case Failed => Failed
    case Read(v, j) =>
      var t := SkipComments(d, j);
      if t.kind == ArrayEnd then Read(Arr(Append(items, v)), t.end)
      else if t.kind == ArraySeparator then ReadItems(d, t.end, Append(items, v))
      else Failed
  }

  /** `name` is the name of the member before. */
  function ReadMembers(d: string, i: nat, ms: Members, name: string): (r: Read)
    requires i <= |d|
    ensures r.Read? ==> i < r.at <= |d|
    decreases |d| - i, 1
  {
    var t := SkipComments(d, i);
    if t.kind == ObjectEnd && name == "" then Read(Obj(ms), t.end)
    else if t.kind != StringToken then Failed
    else
      match DecodeString(d, t)
      case None => Failed
      case Some(next) =>
        var colon := ReadToken(d, t.end);
        if colon.kind != MemberSeparator then Failed
        else
          match ReadValue(d, colon.end)
          case Failed => Failed
          case Read(v, j) =>
            var comma := ReadToken(d, j);
            var after := SkipComments(d, j);
            if comma.kind != ObjectEnd && comma.kind != ArraySeparator && comma.kind != Comment then Failed
            else if after.kind == ObjectEnd then Read(Obj(Put(ms, CString(next), v)), after.end)
            else ReadMembers(d, after.end, Put(ms, CString(next), v), next)
  }

  /** parse: the value at the start of the document. */
  function Parse(d: string): Option<Value> {
    match ReadValue(d, 0)
    case Failed => None
    case Read(v, _) => Some(v)
  }
}
