/** The JSON reader in the program's own form: a position that moves through the document.  On every
    document, each method does what the corresponding function says. */
module JsonReader {
  import opened Json
  import opened JsonGrammar
  import opened Strings
  import JsonRoundTrip

  class Reader {
    var document: string
    var current: nat

    predicate Valid()
      reads this
    {
      current <= |document|
    }

    constructor (document: string)
      ensures Valid() && this.document == document && current == 0
    {
      this.document := document;
      current := 0;
    }

    method GetNextChar() returns (c: char)
      requires Valid()
      modifies `current
      ensures Valid()
      ensures if old(current) == |document| then c == NUL && current == old(current)
              else c == document[old(current)] && current == old(current) + 1
    {
      if current == |document| {
        return NUL;
      }
      c := document[current];
      current := current + 1;
    }

    method SkipSpaces()
      requires Valid()
      modifies `current
      ensures Valid() && current == JsonGrammar.SkipSpaces(document, old(current))
      ensures old(current) <= current && forall k :: old(current) <= k < current ==> document[k] in " \t\r\n"
      ensures current < |document| ==> document[current] !in " \t\r\n"
    {
      while current != |document| && IsSpace(document[current])
        invariant old(current) <= current <= |document|
        invariant forall k :: old(current) <= k < current ==> document[k] in " \t\r\n"
        invariant Valid() && JsonGrammar.SkipSpaces(document, current) == JsonGrammar.SkipSpaces(document, old(current))
        decreases |document| - current
      {
        current := current + 1;
      }
    }

    method ReadNumber()
      requires Valid()
      modifies `current
      ensures Valid() && current == JsonGrammar.ReadNumber(document, old(current))
      ensures old(current) <= current && forall k :: old(current) <= k < current ==> '0' <= document[k] <= '9' || document[k] in ".eE+-"
      ensures current < |document| ==> !('0' <= document[current] <= '9' || document[current] in ".eE+-")
    {
      while current != |document| && InNumber(document[current])
        invariant old(current) <= current <= |document|
        invariant forall k :: old(current) <= k < current ==> '0' <= document[k] <= '9' || document[k] in ".eE+-"
        invariant Valid() && JsonGrammar.ReadNumber(document, current) == JsonGrammar.ReadNumber(document, old(current))
        decreases |document| - current
      {
        current := current + 1;
      }
    }

    /** Compares from the back. */
    method Match(pattern: string) returns (ok: bool)
      requires Valid()
      modifies `current
      ensures Valid() && Scan(ok, current) == JsonGrammar.Match(document, old(current), pattern)
    {
      if |document| - current < |pattern| {
        return false;
      }
      var index := |pattern|;
      while index > 0
        invariant 0 <= index <= |pattern| && current == old(current)
        invariant forall k :: index <= k < |pattern| ==> document[current + k] == pattern[k]
      {
        index := index - 1;
        if document[current + index] != pattern[index] {
          assert document[current..current + |pattern|][index] != pattern[index];
          return false;
        }
      }
      assert document[current..current + |pattern|] == pattern;
      current := current + |pattern|;
      ok := true;
    }

    method ReadString() returns (ok: bool)
      requires Valid()
      modifies `current
      ensures Valid() && Scan(ok, current) == JsonGrammar.ReadString(document, old(current))
    {
      var c := NUL;
      while current != |document|
        invariant Valid() && c != '"'
        invariant JsonGrammar.ReadString(document, current) == JsonGrammar.ReadString(document, old(current))
        decreases |document| - current
      {
        c := GetNextChar();
        if c == '\\' {
          var _ := GetNextChar();
        } else if c == '"' {
          break;
        }
      }
      ok := c == '"';
    }

    method ReadCStyleComment() returns (ok: bool)
      requires Valid()
      modifies `current
      ensures Valid() && Scan(ok, current) == JsonGrammar.ReadCStyleComment(document, old(current))
    {
      while current != |document|
        invariant Valid()
        invariant JsonGrammar.ReadCStyleComment(document, current) == JsonGrammar.ReadCStyleComment(document, old(current))
        decreases |document| - current
      {
        var c := GetNextChar();
        if c == '*' && current != |document| && document[current] == '/' {
          break;
        }
      }
      var c := GetNextChar();
      ok := c == '/';
    }

    method ReadCppStyleComment() returns (ok: bool)
      requires Valid()
      modifies `current
      ensures Valid() && Scan(ok, current) == JsonGrammar.ReadCppStyleComment(document, old(current))
    {
      while current != |document|
        invariant Valid()
        invariant JsonGrammar.ReadCppStyleComment(document, current) == JsonGrammar.ReadCppStyleComment(document, old(current))
        decreases |document| - current
      {
        var c := GetNextChar();
        if c == '\r' || c == '\n' {
          break;
        }
      }
      ok := true;
    }

    method ReadComment() returns (ok: bool)
      requires Valid()
      modifies `current
      ensures Valid() && Scan(ok, current) == JsonGrammar.ReadComment(document, old(current))
    {
      var c := GetNextChar();
      ok := false;
      if c == '*' {
        ok := ReadCStyleComment();
      } else if c == '/' {
        ok := ReadCppStyleComment();
      }
    }

    method ReadToken() returns (t: Token)
      requires Valid()
      modifies `current
      ensures Valid() && t == JsonGrammar.ReadToken(document, old(current)) && current == t.end
    {
      hide JsonGrammar.SkipSpaces, JsonGrammar.ReadString, JsonGrammar.ReadComment, JsonGrammar.ReadNumber, JsonGrammar.Match;
      SkipSpaces();
      var start := current;
      var c := GetNextChar();
      var kind, ok := Error, true;
      match c {
        case '{' => kind := ObjectBegin;
        case '}' => kind := ObjectEnd;
        case '[' => kind := ArrayBegin;
        case ']' => kind := ArrayEnd;
        case '"' =>
          kind := StringToken;
          ok := ReadString();
        case '/' =>
          kind := Comment;
          ok := ReadComment();
        case 't' =>
          kind := True;
          ok := Match("rue");
        case 'f' =>
          kind := False;
          ok := Match("alse");
        case 'n' =>
          kind := NullToken;
          ok := Match("ull");
        case ',' => kind := ArraySeparator;
        case ':' => kind := MemberSeparator;
        case _ =>
          if IsDigit(c) || c == '-' {
            kind := Number;
            ReadNumber();
          } else if c == NUL {
            kind := EndOfStream;
          } else {
            ok := false;
          }
      }
      t := Token(if ok then kind else Error, start, current);
    }

    method SkipCommentTokens() returns (t: Token)
      requires Valid()
      modifies `current
      ensures Valid() && t == SkipComments(document, old(current)) && current == t.end
    {
      hide JsonGrammar.ReadToken;
      t := ReadToken();
      while t.kind == Comment
        invariant Valid() && current == t.end && t.start <= t.end
        invariant (if t.kind == Comment then SkipComments(document, t.end) else t) == SkipComments(document, old(current))
        decreases t.kind == Comment, |document| - current
      {
        t := ReadToken();
      }
    }

    // ----------------------------------------------------------------------------------------
    // Decoding
    // ----------------------------------------------------------------------------------------

    static method DecodeNumber(text: string) returns (decoded: Option<Value>)
      ensures decoded == JsonGrammar.DecodeNumber(text)
      ensures decoded.Some? ==>
                match decoded.value
                case Int(n) => n <= 0x7FFF_FFFF
                case UInt(n) => n > 0x7FFF_FFFF
                case v => v == Real(text)
    {
      hide DecodeDigits;
      var isDouble := false;
      for inspect := 0 to |text|
        invariant isDouble <==> LooksDouble(text[..inspect])
      {
        LooksDoubleStep(text, inspect);
        isDouble := isDouble || text[inspect] in ".eE+" || (text[inspect] == '-' && inspect != 0);
      }
      assert text[..|text|] == text;
      if isDouble {
        return Some(Real(text));
      }
      var isNegative := text != "" && text[0] == '-';
      var digits := if isNegative then text[1..] else text;
      var value := DecodeDigitsLoop(digits, if isNegative then -MIN_LARGEST_INT else MAX_LARGEST_UINT);
      match value {
        case Integer(n) => decoded := Some(if isNegative then Int(-(n as int)) else IntegerValue(n));
        case TooLarge => decoded := Some(Real(text));
        case NotANumber => decoded := None;
      }
    }

    static method DecodeDigitsLoop(digits: string, maxIntegerValue: nat) returns (decoded: Decoded)
      ensures decoded == DecodeDigits(digits, 0, maxIntegerValue)
    {
      var threshold := maxIntegerValue / 10;
      var value: nat, k := 0, 0;
      assert digits[0..] == digits;
      while k < |digits|
        invariant 0 <= k <= |digits|
        invariant DecodeDigits(digits[k..], value, maxIntegerValue) == DecodeDigits(digits, 0, maxIntegerValue)
      {
        var c := digits[k];
        assert digits[k..][0] == c && digits[k..][1..] == digits[k + 1..];
        k := k + 1;
        if !IsDigit(c) {
          return NotANumber;
        }
        var digit := DigitOf(c);
        if value >= threshold && (value > threshold || k != |digits| || digit > maxIntegerValue % 10) {
          return TooLarge;
        }
        value := value * 10 + digit;
      }
      decoded := Integer(value);
    }

    static method DecodeUnicodeEscapeSequence(text: string) returns (unicode: Option<nat>)
      ensures unicode == HexFour(text)
    {
      if |text| < 4 {
        return None;
      }
      var value := 0;
      for index := 0 to 4
        invariant forall k :: 0 <= k < index ==> HexOf(text[k]).Some?
        invariant value == HexPrefix(text, index)
      {
        var digit := HexOf(text[index]);
        if digit.None? {
          return None;
        }
        value := value * 16 + digit.value;
      }
      assert HexPrefix(text, 1) == HexOf(text[0]).value && HexPrefix(text, 2) == HexPrefix(text, 1) * 16 + HexOf(text[1]).value;
      assert HexPrefix(text, 3) == HexPrefix(text, 2) * 16 + HexOf(text[2]).value;
      unicode := Some(value);
    }

    static method DecodeUnicodeCodePoint(text: string) returns (r: CodePoint)
      ensures r == DecodeCodePoint(text)
    {
      hide HexFour;
      var unicode := DecodeUnicodeEscapeSequence(text);
      if unicode.None? {
        return BadCodePoint;
      }
      FourCharacters(text);
      if 0xD800 <= unicode.value <= 0xDBFF {
        if |text| - 4 < 6 || text[4] != '\\' || text[5] != 'u' {
          return BadCodePoint;
        }
        var surrogatePair := DecodeUnicodeEscapeSequence(text[6..]);
        if surrogatePair.None? {
          return BadCodePoint;
        }
        return CodePoint(0x1_0000 + unicode.value % 0x400 * 0x400 + surrogatePair.value % 0x400, text[10..]);
      }
      r := CodePoint(unicode.value, text[4..]);
    }

    /** Over what is between the quotes of a token. */
    static method DecodeString(text: string) returns (decoded: Option<string>)
      ensures decoded == Unescape(text)
    {
      hide DecodeCodePoint, Utf8;
      var left, result := text, "";
      PrefixedByNothing(Unescape(text));
      while left != "" && left[0] != '"'
        invariant Prefixed(result, Unescape(left)) == Unescape(text)
        decreases |left|
      {
        var c := left[0];
        if c != '\\' {
          PrefixedTwice(result, [c], Unescape(left[1..]));
          left, result := left[1..], result + [c];
        } else {
          if |left| == 1 {
            return None;
          }
          var escape := left[1];
          if escape == 'u' {
            var point := DecodeUnicodeCodePoint(left[2..]);
            if point.BadCodePoint? {
              return None;
            }
            PrefixedTwice(result, Utf8(point.cp), Unescape(point.rest));
            left, result := point.rest, result + Utf8(point.cp);
          } else {
            var simple := SimpleEscape(escape);
            if simple.None? {
              return None;
            }
            PrefixedTwice(result, [simple.value], Unescape(left[2..]));
            left, result := left[2..], result + [simple.value];
          }
        }
      }
      assert result + "" == result;
      decoded := Some(result);
    }

    // ----------------------------------------------------------------------------------------
    // Values
    // ----------------------------------------------------------------------------------------

    /** What r says was read, and where reading goes on; after a failure the program skips to a closing
        bracket and reports the failure, wherever that is. */
    predicate Reached(r: Read, value: Option<Value>)
      reads this
    {
      match r
      case Failed => value == None
      case Read(v, at) => value == Some(v) && current == at
    }

    method ReadValue() returns (value: Option<Value>)
      requires Valid()
      modifies `current
      ensures Valid() && Reached(JsonGrammar.ReadValue(document, old(current)), value)
      decreases |document| - current, 1
    {
      hide SkipComments, JsonGrammar.SkipSpaces, ReadItems, ReadMembers, JsonGrammar.DecodeNumber, Unescape;
      var token := SkipCommentTokens();
      match token.kind {
        case ObjectBegin => value := ReadObject();
        case ArrayBegin => value := ReadArray();
        case Number => value := DecodeNumber(document[token.start..token.end]);
        case StringToken =>
          var decoded := DecodeString(document[token.start + 1..token.end - 1]);
          value := if decoded.Some? then Some(Str(CString(decoded.value))) else None;
        case True => value := Some(Bool(true));
        case False => value := Some(Bool(false));
        case NullToken => value := Some(Null);
        case _ => value := None;
      }
    }

    /** Behind the opening bracket. */
    method ReadArray() returns (value: Option<Value>)
      requires Valid()
      modifies `current
      ensures Valid()
      ensures var s := JsonGrammar.SkipSpaces(document, old(current));
              Reached(if s < |document| && document[s] == ']' then Read(Arr(NoItems), s + 1)
                      else ReadItems(document, s, NoItems), value)
      decreases |document| - current, 2
    {
      hide SkipComments, JsonGrammar.SkipSpaces, JsonGrammar.ReadValue, JsonGrammar.ReadToken;
      SkipSpaces();
      if current != |document| && document[current] == ']' {
        BracketIsToken(document, current);
        var _ := ReadToken();
        return Some(Arr(NoItems));
      }
      var items := NoItems;
      ghost var s := current;
      while true
        invariant Valid() && old(current) <= current
        invariant ReadItems(document, current, items) == ReadItems(document, s, NoItems)
        decreases |document| - current
      {
        var v := ReadValue();
        if v.None? {
          return None;
        }
        var token := SkipCommentTokens();
        if token.kind != ArraySeparator && token.kind != ArrayEnd {
          return None;
        }
        items := Append(items, v.value);
        if token.kind == ArrayEnd {
          return Some(Arr(items));
        }
      }
    }

    /** One turn of the loop of readObject; the result says whether the loop goes on. */
    method ReadMember(members: Members, name: string)
      returns (more: bool, value: Option<Value>, members': Members, name': string)
      requires Valid()
      modifies `current
      ensures Valid()
      ensures var r := ReadMembers(document, old(current), members, name);
              if more then old(current) < current && r == ReadMembers(document, current, members', name')
              else Reached(r, value)
      decreases |document| - current, 2
    {
      hide SkipComments, JsonGrammar.ReadValue, JsonGrammar.ReadToken, Unescape, Put;
      more, value, members', name' := false, None, members, name;
      var tokenName := SkipCommentTokens();
      if tokenName.kind == ObjectEnd && name == "" {
        return false, Some(Obj(members)), members, name;
      }
      if tokenName.kind != StringToken {
        return;
      }
      var decoded := DecodeString(document[tokenName.start + 1..tokenName.end - 1]);
      if decoded.None? {
        return;
      }
      name' := decoded.value;
      var colon := ReadToken();
      if colon.kind != MemberSeparator {
        return;
      }
      var v := ReadValue();
      if v.None? {
        return;
      }
      members' := Put(members, CString(name'), v.value);
      ghost var j := current;
      var comma := ReadToken();
      if comma.kind != ObjectEnd && comma.kind != ArraySeparator && comma.kind != Comment {
        return;
      }
      CommentsFollow(document, j);
      if comma.kind == Comment {
        comma := SkipCommentTokens();
      }
      if comma.kind == ObjectEnd {
        value := Some(Obj(members'));
      } else {
        more := true;
      }
    }

    /** Behind the opening brace. */
    method ReadObject() returns (value: Option<Value>)
      requires Valid()
      modifies `current
      ensures Valid() && Reached(ReadMembers(document, old(current), NoMembers, ""), value)
      decreases |document| - current, 3
    {
      hide ReadMembers;
      value := None;
      var name, members, more := "", NoMembers, true;
      while more
        invariant Valid() && (more ==> old(current) <= current)
        invariant var r := ReadMembers(document, old(current), NoMembers, "");
                  if more then ReadMembers(document, current, members, name) == r else Reached(r, value)
        decreases more, |document| - current
      {
        more, value, members, name := ReadMember(members, name);
      }
    }

    method Parse() returns (value: Option<Value>)
      requires Valid() && current == 0
      modifies `current
      ensures value == JsonGrammar.Parse(document)
    {
      value := ReadValue();
      var _ := SkipCommentTokens();
    }
  }

  /** The value of the first k hexadecimal digits. */
  function HexPrefix(t: string, k: nat): nat
    requires k <= |t| && forall i :: 0 <= i < k ==> HexOf(t[i]).Some?
  {
    if k == 0 then 0 else HexPrefix(t, k - 1) * 16 + HexOf(t[k - 1]).value
  }

  lemma FourCharacters(t: string)
    ensures HexFour(t).Some? ==> |t| >= 4
  {
  }

  lemma LooksDoubleStep(t: string, k: nat)
    requires k < |t|
    ensures LooksDouble(t[..k + 1]) <==> LooksDouble(t[..k]) || t[k] in ".eE+" || (t[k] == '-' && k != 0)
  {
    var a, b := t[..k + 1], t[..k];
    if i :| 0 <= i < |b| && (b[i] in ".eE+" || (b[i] == '-' && i != 0)) {
      assert a[i] == b[i];
    }
    assert a[k] == t[k];
  }

  lemma PrefixedByNothing(r: Option<string>)
    ensures Prefixed("", r) == r
  {
    if r.Some? {
      assert "" + r.value == r.value;
    }
  }

  lemma PrefixedTwice(a: string, b: string, r: Option<string>)
    ensures Prefixed(a, Prefixed(b, r)) == Prefixed(a + b, r)
  {
    if r.Some? {
      assert a + (b + r.value) == (a + b) + r.value;
    }
  }

  lemma BracketIsToken(d: string, i: nat)
    requires i < |d| && d[i] == ']'
    ensures JsonGrammar.ReadToken(d, i) == Token(ArrayEnd, i, i + 1)
  {
  }

  lemma CommentsFollow(d: string, j: nat)
    requires j <= |d|
    ensures var t := JsonGrammar.ReadToken(d, j);
            SkipComments(d, j) == if t.kind == Comment then SkipComments(d, t.end) else t
  {
  }

  /** A tree that is written and read back is the same, exactly if no string has a NUL. */
  method WriteAndRead(v: Value) returns (value: Option<Value>)
    requires Writable(v)
    ensures value.Some? && (JsonRoundTrip.Same(v, value.value) <==> JsonRoundTrip.NulFree(v))
  {
    var writer := new FastWriter();
    var text := writer.Write(v);
    var reader := new Reader(text);
    value := reader.Parse();
    JsonRoundTrip.RoundTrip(v);
  }
}
