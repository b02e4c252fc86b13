/** What the JSON reader refuses: documents that lack a value, a separator or an end. */
module JsonErrors {
  import opened Json
  import opened JsonGrammar
  import opened JsonRoundTrip
  import opened JsonSpellings
  import opened JsonLayout
  import opened Strings

  // ------------------------------------------------------------------------------------------
  // Where a value should be
  // ------------------------------------------------------------------------------------------

  predicate IsSpaceCharacter(c: char) { c == ' ' || c == '\t' || c == '\r' || c == '\n' }

  /** A value or a comment may start so. */
  predicate StartsValue(c: char) {
    || c == '{' || c == '[' || c == '"' || c == '/' || c == 't' || c == 'f' || c == 'n' || c == '-'
    || '0' <= c <= '9'
  }

  /** No other character starts a value; nor does the end of the document. */
  lemma NoValueNoResult(d: string, i: nat, gap: Gap, c: char, more: string)
    requires GapOk(gap) && !IsSpaceCharacter(c) && !StartsValue(c)
    ensures Rest(d, i, GapText(gap, [c] + more)) ==> i <= |d| && ReadValue(d, i) == Failed
    ensures Rest(d, i, GapText(gap, "")) ==> i <= |d| && ReadValue(d, i) == Failed
  {
    hide GapText, SkipComments, ReadToken, IsSpaceCharacter, StartsValue;
    if Rest(d, i, GapText(gap, [c] + more)) {
      GapIsSkipped(d, i, gap, [c] + more);
      First(d, |d| - |[c] + more|, [c] + more);
      OtherCharacters(d, |d| - |[c] + more|);
      KindFails(d, i);
    }
    if Rest(d, i, GapText(gap, "")) {
      GapIsSkipped(d, i, gap, "");
      NothingAtEnd(d);
      KindFails(d, i);
    }
  }

  predicate NoValue(k: Kind) {
    k == ObjectEnd || k == ArrayEnd || k == ArraySeparator || k == MemberSeparator || k == EndOfStream || k == Error
  }

  lemma OtherCharacters(d: string, i: nat)
    requires i < |d| && !IsSpaceCharacter(d[i]) && !StartsValue(d[i])
    ensures NoValue(SkipComments(d, i).kind)
  {
    hide ReadNumber, ReadString, ReadComment, Match;
    assert SkipSpaces(d, i) == i;
    hide SkipSpaces;
  }

  /** The words are written in full. */
  lemma WordsAreWhole(d: string, i: nat, gap: Gap, c: char, more: string)
    requires GapOk(gap) && Rest(d, i, GapText(gap, [c] + more))
    requires (c == 't' && !("rue" <= more)) || (c == 'f' && !("alse" <= more)) || (c == 'n' && !("ull" <= more))
    ensures i <= |d| && ReadValue(d, i) == Failed
  {
    hide GapText, SkipComments, ReadToken;
    GapIsSkipped(d, i, gap, [c] + more);
    var j := |d| - |[c] + more|;
    First(d, j, [c] + more);
    assert ([c] + more)[1..] == more;
    BrokenWord(d, j, more);
    KindFails(d, i);
  }

  lemma BrokenWord(d: string, i: nat, more: string)
    requires i < |d| && Rest(d, i + 1, more)
    requires (d[i] == 't' && !("rue" <= more)) || (d[i] == 'f' && !("alse" <= more)) || (d[i] == 'n' && !("ull" <= more))
    ensures SkipComments(d, i).kind == Error
  {
    hide ReadNumber, ReadString, ReadComment, Match;
    assert SkipSpaces(d, i) == i;
    var word := if d[i] == 't' then "rue" else if d[i] == 'f' then "alse" else "ull";
    NoMatch(d, i + 1, word, more);
    hide SkipSpaces;
  }

  lemma NoMatch(d: string, i: nat, word: string, more: string)
    requires Rest(d, i, more) && !(word <= more)
    ensures !Match(d, i, word).ok
  {
    if |word| <= |more| {
      assert d[i..i + |word|] == more[..|word|];
    }
  }

  /** A slash starts a comment only before a star or another slash, and a comment that may span lines has
      to be closed. */
  lemma OpenCommentFails(d: string, i: nat, gap: Gap, more: string)
    requires GapOk(gap) && Rest(d, i, GapText(gap, ['/'] + more))
    requires || more == "" || (more[0] != '*' && more[0] != '/')
             || (more[0] == '*' && forall k :: 1 <= k < |more| - 1 ==> !(more[k] == '*' && more[k + 1] == '/'))
    ensures i <= |d| && ReadValue(d, i) == Failed
  {
    hide GapText, SkipComments, ReadToken, ReadComment;
    GapIsSkipped(d, i, gap, ['/'] + more);
    var j := |d| - |['/'] + more|;
    First(d, j, ['/'] + more);
    assert (['/'] + more)[1..] == more;
    BrokenComment(d, j + 1, more);
    SlashWithoutComment(d, j);
    KindFails(d, i);
  }

  lemma SlashWithoutComment(d: string, i: nat)
    requires i < |d| && d[i] == '/' && !ReadComment(d, i + 1).ok
    ensures SkipComments(d, i).kind == Error
  {
    hide ReadComment;
  }

  lemma BrokenComment(d: string, i: nat, more: string)
    requires Rest(d, i, more)
    requires || more == "" || (more[0] != '*' && more[0] != '/')
             || (more[0] == '*' && forall k :: 1 <= k < |more| - 1 ==> !(more[k] == '*' && more[k + 1] == '/'))
    ensures !ReadComment(d, i).ok
  {
    hide ReadCStyleComment, ReadCppStyleComment;
    if more != "" {
      First(d, i, more);
      if more[0] == '*' {
        forall k | i + 1 <= k < |d| - 1
          ensures !(d[k] == '*' && d[k + 1] == '/')
        {
          assert d[k] == d[i..][k - i] && d[k + 1] == d[i..][k + 1 - i];
        }
        NoEndNoComment(d, i + 1);
      }
    }
  }

  lemma {:induction false} NoEndNoComment(d: string, i: nat)
    requires i <= |d| && forall k :: i <= k < |d| - 1 ==> !(d[k] == '*' && d[k + 1] == '/')
    ensures !ReadCStyleComment(d, i).ok
    decreases |d| - i
  {
    if i < |d| {
      NoEndNoComment(d, i + 1);
    }
  }

  // ------------------------------------------------------------------------------------------
  // Where a separator should be
  // ------------------------------------------------------------------------------------------

  lemma KindOfCharacter(d: string, i: nat)
    requires i < |d| && !IsSpaceCharacter(d[i])
    ensures var k := ReadToken(d, i).kind;
            && (k == ArraySeparator <==> d[i] == ',') && (k == ArrayEnd <==> d[i] == ']')
            && (k == ObjectEnd <==> d[i] == '}') && (k == MemberSeparator <==> d[i] == ':') && (k == Comment ==> d[i] == '/')
    ensures ReadToken(d, i).kind != Comment ==> SkipComments(d, i) == ReadToken(d, i)
  {
    hide ReadNumber, ReadString, ReadComment, Match;
    assert SkipSpaces(d, i) == i;
    hide SkipSpaces;
  }

  /** Behind an item of an array there is a comma or the closing bracket. */
  lemma ItemsAreSeparated(d: string, i: nat, items: Items, before: Gap, doc: Doc, after: Gap, c: char, more: string)
    requires GapOk(before) && DocOk(doc) && GapOk(after) && Rest(d, i, GapText(before, DocText(doc, GapText(after, [c] + more))))
    requires !IsSpaceCharacter(c) && c != '/' && c != ',' && c != ']' && EndsNumber(GapText(after, [c] + more))
    ensures i <= |d| && ReadItems(d, i, items) == Failed
  {
    hide GapText, SkipComments, ReadToken, ReadValue, ReadItems, DocText, ValueOf, EndsNumber, IsSpaceCharacter;
    var y := GapText(after, [c] + more);
    ValueBehindGap(d, i, before, doc, y);
    GapIsSkipped(d, |d| - |y|, after, [c] + more);
    var k := |d| - |[c] + more|;
    First(d, k, [c] + more);
    KindOfCharacter(d, k);
    ItemsStep(d, i, items, ValueOf(doc), |d| - |y|);
  }

  /** Behind the name of a member there is a colon. */
  lemma NamesNeedColons(d: string, i: nat, ms: Members, last: string, before: Gap, name: seq<Letter>, gap: Gap, c: char, more: string)
    requires GapOk(before) && LettersOk(name) && GapOk(gap) && OnlySpaces(gap)
    requires Rest(d, i, GapText(before, QuotedText(name, GapText(gap, [c] + more)))) && !IsSpaceCharacter(c) && c != ':'
    ensures i <= |d| && ReadMembers(d, i, ms, last) == Failed
  {
    var w := GapText(gap, [c] + more);
    hide GapText, SkipComments, ReadToken, ReadMembers, QuotedText, DecodeString, Meaning, IsSpaceCharacter;
    GapIsSkipped(d, i, before, QuotedText(name, w));
    var p, k := |d| - |QuotedText(name, w)|, |d| - |w|;
    SpelledStringIsRead(d, p, name, w);
    GapIsSkipped(d, k, gap, [c] + more);
    var j := |d| - |[c] + more|;
    AlikeParts(d, k, j, true);
    First(d, j, [c] + more);
    KindOfCharacter(d, j);
    NoColonFails(d, i, ms, last);
  }

  lemma NoColonFails(d: string, i: nat, ms: Members, last: string)
    requires i <= |d| && SkipComments(d, i).kind == StringToken && ReadToken(d, SkipComments(d, i).end).kind != MemberSeparator
    ensures ReadMembers(d, i, ms, last) == Failed
  {
    hide SkipComments, ReadToken, ReadValue, DecodeString, Put, CString;
  }

  lemma EntryIsOk(entries: Entries)
    requires entries.Entry? && EntriesOk(entries)
    ensures GapOk(entries.before) && LettersOk(entries.name) && GapOk(entries.colon) && OnlySpaces(entries.colon)
    ensures GapOk(entries.gap) && DocOk(entries.doc) && GapOk(entries.after)
  {
    hide GapOk, LettersOk, OnlySpaces, DocOk;
  }

  /** Without a comment in between, a comma or the closing brace stands behind a member. */
  lemma MembersAreSeparated(d: string, i: nat, ms: Members, last: string, entries: Entries, c: char, more: string)
    requires entries.Entry? && EntriesOk(entries) && OnlySpaces(entries.after)
    requires !IsSpaceCharacter(c) && c != ',' && c != '}' && c != '/' && EndsNumber(GapText(entries.after, [c] + more))
    requires var v := GapText(entries.gap, DocText(entries.doc, GapText(entries.after, [c] + more)));
             Rest(d, i, GapText(entries.before, QuotedText(entries.name, GapText(entries.colon, [':'] + v))))
    ensures i <= |d| && ReadMembers(d, i, ms, last) == Failed
  {
    hide *;
    EntryIsOk(entries);
    var y := GapText(entries.after, [c] + more);
    var p, k := EntryIsRead(d, i, entries, y);
    GapIsSkipped(d, |d| - |y|, entries.after, [c] + more);
    var j := |d| - |[c] + more|;
    AlikeParts(d, |d| - |y|, j, true);
    First(d, j, [c] + more);
    KindOfCharacter(d, j);
    NoCommaFails(d, p, ms, last, k, |d| - |GapText(entries.gap, DocText(entries.doc, y))|, ValueOf(entries.doc), |d| - |y|);
  }

  lemma NoCommaFails(d: string, p: nat, ms: Members, last: string, k: nat, c: nat, v: Value, j: nat)
    requires p + 2 <= k <= |d| && SkipComments(d, p) == Token(StringToken, p, k)
    requires 0 < c <= |d| && ReadToken(d, k) == Token(MemberSeparator, c - 1, c) && ReadValue(d, c) == Read(v, j) && j <= |d|
    requires var kind := ReadToken(d, j).kind; kind != ObjectEnd && kind != ArraySeparator && kind != Comment
    ensures ReadMembers(d, p, ms, last) == Failed
  {
    hide ReadValue, SkipComments, ReadToken, DecodeString, CString, Put;
  }

  // ------------------------------------------------------------------------------------------
  // What is not closed, or closed too late
  // ------------------------------------------------------------------------------------------

  lemma NothingAtEnd(d: string)
    ensures SkipComments(d, |d|) == Token(EndOfStream, |d|, |d|)
  {
  }

  lemma KindFails(d: string, i: nat)
    requires i <= |d|
    ensures NoValue(SkipComments(d, i).kind) ==> ReadValue(d, i) == Failed
  {
    hide SkipComments, ReadMembers, ReadItems, DecodeNumber, DecodeString, SkipSpaces;
  }

  /** An object may be closed behind a comma exactly if the name of the member before is empty. */
  lemma CommaBeforeBrace(d: string, i: nat, ms: Members, last: string, gap: Gap, more: string)
    requires GapOk(gap) && Rest(d, i, GapText(gap, ['}'] + more))
    ensures i <= |d| && |more| <= |d|
    ensures ReadMembers(d, i, ms, last) == if last == "" then Read(Obj(ms), |d| - |more|) else Failed
  {
    KindsOfMarks();
    hide GapText, SkipComments, ReadToken, ReadValue, DecodeString, Put, CString, KindOf;
    MarkBehindGap(d, i, gap, '}', more);
  }

  /** A string that is not closed is no value. */
  lemma OpenStringFails(d: string, i: nat, t: string)
    requires Rest(d, i, ['"'] + t) && '"' !in t
    ensures ReadValue(d, i) == Failed
  {
    hide SkipComments, ReadString;
    First(d, i, ['"'] + t);
    assert (['"'] + t)[1..] == t;
    NoQuoteNoString(d, i + 1);
    OpenQuoteIsError(d, i);
    KindFails(d, i);
  }

  lemma {:induction false} NoQuoteNoString(d: string, i: nat)
    requires i <= |d| && '"' !in d[i..]
    ensures !ReadString(d, i).ok
    decreases |d| - i
  {
    if i < |d| {
      assert d[i] in d[i..] && forall c :: c in d[i + 1..] ==> c in d[i..];
      NoQuoteNoString(d, i + 1);
      if i + 1 < |d| {
        assert forall c :: c in d[i + 2..] ==> c in d[i..];
        NoQuoteNoString(d, i + 2);
      }
    }
  }

  lemma OpenQuoteIsError(d: string, i: nat)
    requires i < |d| && d[i] == '"' && !ReadString(d, i + 1).ok
    ensures SkipComments(d, i).kind == Error
  {
    hide ReadString;
    NothingToSkip(d, i);
  }

  /** No other characters may follow a backslash, and the first half of a pair needs the second one. */
  lemma BadEscapesFail(c: char, h: string, more: string)
    ensures c !in SHORT_NAMES && c != 'u' ==> Unescape(['\\', c] + more) == None
    ensures IsHex(h) && 0xD800 <= HexValue(h) < 0xDC00 && !(['\\', 'u'] <= more) ==>
              Unescape(['\\', 'u'] + (h + more)) == None
    ensures |h| < 4 ==> Unescape(['\\', 'u'] + h) == None
  {
    hide HexValue;
    if IsHex(h) && 0xD800 <= HexValue(h) < 0xDC00 && !(['\\', 'u'] <= more) {
      var t := h + more;
      HexIsDecoded(h, more);
      hide HexFour;
      assert |more| < 2 || more[0] != '\\' || more[1] != 'u';
      assert |t| >= 6 ==> t[4] == more[0] && t[5] == more[1];
      BehindU(t);
    }
    if |h| < 4 {
      BehindU(h);
    }
  }
}
