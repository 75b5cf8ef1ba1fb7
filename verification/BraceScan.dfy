/**
 * The two brace scanners: the flag-driven TypeScript scan that finds the end of a CDK construct and the
 * line-by-line Terraform scan. Both are proved against one reference lexer that skips whole tokens.
 */
module BraceScan {
  import opened Common

  datatype Language = TypeScript | Terraform

  // ----- The reference lexer -----

  /** The position after the first line feed at or after `i`, or the end. */
  function SkipLine(t: string, i: nat): (end: nat)
    requires i <= |t|
    ensures i <= end <= |t|
    decreases |t| - i
  {
    if i == |t| then i else if t[i] == '\n' then i + 1 else SkipLine(t, i + 1)
  }

  lemma {:induction false} LineEndsAtFirstFeed(t: string, i: nat)
    requires i <= |t|
    ensures var end := SkipLine(t, i);
            && (forall k :: i <= k < end - 1 ==> t[k] != '\n')
            && ((end > i && t[end - 1] == '\n') || (end == |t| && forall k :: i <= k < |t| ==> t[k] != '\n'))
    decreases |t| - i
  {
    if i < |t| && t[i] != '\n' { LineEndsAtFirstFeed(t, i + 1); }
  }

  predicate Closes(t: string, k: nat) { k + 1 < |t| && t[k] == '*' && t[k + 1] == '/' }

  /** The position after the first comment close at or after `i`, or the end. */
  function SkipBlock(t: string, i: nat): (end: nat)
    requires i <= |t|
    ensures i <= end <= |t|
    decreases |t| - i
  {
    if i == |t| then i else if Closes(t, i) then i + 2 else SkipBlock(t, i + 1)
  }

  lemma {:induction false} CommentEndsAtFirstClose(t: string, i: nat)
    requires i <= |t|
    ensures var end := SkipBlock(t, i);
            && (forall k :: i <= k && k + 2 < end ==> !Closes(t, k))
            && ((end >= i + 2 && Closes(t, end - 2)) || (end == |t| && forall k :: i <= k ==> !Closes(t, k)))
    decreases |t| - i
  {
    if i < |t| && !Closes(t, i) { CommentEndsAtFirstClose(t, i + 1); }
  }

  /** The number of backslashes in a row that end just before `k`, not counting before `i`. */
  function Backslashes(t: string, i: nat, k: nat): nat
    requires i <= k <= |t|
    decreases k
  {
    if k > i && t[k - 1] == '\\' then 1 + Backslashes(t, i, k - 1) else 0
  }

  /** A quote that is not escaped: an even number of backslashes stands before it. */
  predicate Ends(t: string, i: nat, k: nat, quote: char) {
    i <= k < |t| && t[k] == quote && Backslashes(t, i, k) % 2 == 0
  }

  /** The position after the closing quote of a string whose text starts at `i`, or the end. */
  function SkipString(t: string, i: nat, quote: char): (end: nat)
    ensures end <= |t|
    ensures i <= |t| ==> i <= end
    decreases |t| - i
  {
    if i >= |t| then |t|
    else if t[i] == '\\' then SkipString(t, i + 2, quote)
    else if t[i] == quote then i + 1
    else SkipString(t, i + 1, quote)
  }

  lemma {:induction false} BackslashesFrom(t: string, i: nat, k: nat)
    requires i + 2 <= k <= |t| && t[i] == '\\'
    ensures Backslashes(t, i, k) % 2 == Backslashes(t, i + 2, k) % 2
    decreases k
  {
    if k > i + 2 && t[k - 1] == '\\' {
      BackslashesFrom(t, i, k - 1);
    } else if k == i + 2 {
      assert Backslashes(t, i, i + 1) == 1;
    }
  }

  lemma {:induction false} BackslashesAfter(t: string, i: nat, k: nat)
    requires i + 1 <= k <= |t| && t[i] != '\\'
    ensures Backslashes(t, i, k) == Backslashes(t, i + 1, k)
    decreases k
  {
    if k > i + 1 && t[k - 1] == '\\' { BackslashesAfter(t, i, k - 1); }
  }

  /** A string ends at its first unescaped quote, and runs to the end of the text if there is none. */
  lemma {:induction false} StringEndsAtFirstQuote(t: string, i: nat, quote: char)
    requires i <= |t| && quote != '\\'
    ensures var end := SkipString(t, i, quote);
            && (forall k :: i <= k && k + 1 < end ==> !Ends(t, i, k, quote))
            && ((end > i && Ends(t, i, end - 1, quote)) || (end == |t| && forall k :: i <= k ==> !Ends(t, i, k, quote)))
    decreases |t| - i
  {
    if i == |t| {
    } else if t[i] == '\\' {
      if i + 1 == |t| {
        assert SkipString(t, i, quote) == |t|;
      } else {
        StringEndsAtFirstQuote(t, i + 2, quote);
        assert Backslashes(t, i, i + 1) == 1;
        assert !Ends(t, i, i, quote) && !Ends(t, i, i + 1, quote);
        forall k | i + 2 <= k < |t| ensures Ends(t, i, k, quote) <==> Ends(t, i + 2, k, quote) {
          BackslashesFrom(t, i, k);
        }
      }
    } else if t[i] == quote {
      assert Ends(t, i, i, quote);
    } else {
      StringEndsAtFirstQuote(t, i + 1, quote);
      forall k | i + 1 <= k < |t| ensures Ends(t, i, k, quote) <==> Ends(t, i + 1, k, quote) {
        BackslashesAfter(t, i, k);
      }
    }
  }

  predicate At(t: string, i: nat, first: char, second: char) { i + 1 < |t| && t[i] == first && t[i + 1] == second }

  predicate Quote(language: Language, c: char) {
    c == '"' || (language.TypeScript? && (c == '\'' || c == '`'))
  }

  /** A string or a comment starts at `i`. */
  predicate Opens(language: Language, t: string, i: nat)
    requires i < |t|
  {
    Quote(language, t[i]) || At(t, i, '/', '/') || (if language.TypeScript? then At(t, i, '/', '*') else t[i] == '#')
  }

  /** The position after the token at `i`: a string, a comment or one character of code. */
  function Next(language: Language, t: string, i: nat): (end: nat)
    requires i < |t|
    ensures i < end <= |t|
  {
    if Quote(language, t[i]) then SkipString(t, i + 1, t[i])
    else if language.Terraform? && Opens(language, t, i) then |t|
    else if At(t, i, '/', '/') then SkipLine(t, i + 2)
    else if Opens(language, t, i) then SkipBlock(t, i + 2)
    else i + 1
  }

  /** With the text at `i` read as code, is the character at `k` code? */
  predicate Code(language: Language, t: string, i: nat, k: nat)
    decreases |t| - i
  {
    i <= k < |t| && ((k == i && !Opens(language, t, i)) || Code(language, t, Next(language, t, i), k))
  }

  function Brace(c: char): int { if c == '{' then 1 else if c == '}' then -1 else 0 }

  /** The structural depth at `k`: opening less closing braces among the code characters from `i`. */
  function Depth(language: Language, t: string, i: nat, k: nat): int
    requires k <= |t|
    decreases k
  {
    if k <= i then 0
    else Depth(language, t, i, k - 1) + (if Code(language, t, i, k - 1) then Brace(t[k - 1]) else 0)
  }

  /** Within a token nothing is code, and after it the depth goes on from the token's own brace. */
  lemma {:induction false} DepthAfterToken(language: Language, t: string, i: nat, k: nat)
    requires i < k <= |t|
    ensures var end := Next(language, t, i);
            var own := if Opens(language, t, i) then 0 else Brace(t[i]);
            Depth(language, t, i, k) == own + (if k <= end then 0 else Depth(language, t, end, k))
    decreases k
  {
    var end := Next(language, t, i);
    assert Code(language, t, i, k - 1) <==> (k - 1 == i && !Opens(language, t, i)) || Code(language, t, end, k - 1);
    if k == i + 1 {
      assert Depth(language, t, i, k - 1) == 0;
    } else {
      DepthAfterToken(language, t, i, k - 1);
    }
  }

  // ----- The end of a CDK construct -----

  /** The construct's end: the first position after `open` at which the structural depth is zero again. */
  predicate FirstZero(t: string, open: nat, close: nat) {
    && open < close <= |t|
    && Depth(TypeScript, t, open, close) == 0
    && forall k :: open < k < close ==> Depth(TypeScript, t, open, k) > 0
  }

  predicate NeverZero(t: string, open: nat) {
    forall k :: open < k <= |t| ==> Depth(TypeScript, t, open, k) > 0
  }

  /** The scan as a recursion over tokens. */
  function Close(t: string, i: nat, depth: int): (close: Option<nat>)
    requires i <= |t|
    decreases |t| - i
  {
    if i == |t| then None
    else if Opens(TypeScript, t, i) then Close(t, Next(TypeScript, t, i), depth)
    else
      var now := depth + Brace(t[i]);
      if t[i] == '}' && now == 0 then Some(i + 1) else Close(t, i + 1, now)
  }

  lemma {:induction false} CloseIsFirstZero(t: string, i: nat, depth: int)
    requires i <= |t| && depth > 0
    ensures match Close(t, i, depth)
            case Some(close) =>
              && i < close <= |t| && depth + Depth(TypeScript, t, i, close) == 0
              && forall k :: i <= k < close ==> depth + Depth(TypeScript, t, i, k) > 0
            case None => forall k :: i <= k <= |t| ==> depth + Depth(TypeScript, t, i, k) > 0
    decreases |t| - i
  {
    if i < |t| {
      var next := Next(TypeScript, t, i);
      var now := if Opens(TypeScript, t, i) then depth else depth + Brace(t[i]);
      forall k | i < k <= |t|
        ensures depth + Depth(TypeScript, t, i, k) == now + (if k <= next then 0 else Depth(TypeScript, t, next, k))
      {
        DepthAfterToken(TypeScript, t, i, k);
      }
      if now > 0 { CloseIsFirstZero(t, next, now); }
    }
  }

  /** The flag-driven scan finds the first position at which the structural depth returns to zero, or reports that
      there is none. */
  method FindClose(t: string, open: nat) returns (close: Option<nat>)
    requires open < |t| && t[open] == '{'
    ensures match close
            case Some(end) => FirstZero(t, open, end)
            case None => NeverZero(t, open)
  {
    hide FirstZero, NeverZero, Backslashes;
    var depth := 0;
    var quote: Option<char> := None;
    var escaped, lineComment, blockComment := false, false, false;
    var index := open;
    ghost var answer := Close(t, open, 0);
    while index < |t|
      invariant open <= index <= |t|
      invariant lineComment ==> !blockComment
      invariant quote.Some? ==> !lineComment && !blockComment && Quote(TypeScript, quote.value)
      invariant escaped ==> quote.Some?
      invariant lineComment ==> answer == Close(t, SkipLine(t, index), depth)
      invariant blockComment ==> answer == Close(t, SkipBlock(t, index), depth)
      invariant quote.Some? ==> answer == Close(t, SkipString(t, if escaped then index + 1 else index, quote.value), depth)
      invariant !lineComment && !blockComment && quote.None? ==> answer == Close(t, index, depth)
    {
      var c := t[index];
      if lineComment {
        if c == '\n' { lineComment := false; }
      } else if blockComment {
        if At(t, index, '*', '/') {
          blockComment := false;
          index := index + 1;
        }
      } else if quote.Some? {
        if escaped {
          escaped := false;
        } else if c == '\\' {
          escaped := true;
        } else if c == quote.value {
          quote := None;
        }
      } else if At(t, index, '/', '/') {
        lineComment := true;
        index := index + 1;
      } else if At(t, index, '/', '*') {
        blockComment := true;
        index := index + 1;
      } else if c == '\'' || c == '"' || c == '`' {
        quote := Some(c);
      } else if c == '{' {
        depth := depth + 1;
      } else if c == '}' {
        depth := depth - 1;
        if depth == 0 {
          assert answer == Some(index + 1);
          CloseFromOpen(t, open);
          return Some(index + 1);
        }
      }
      index := index + 1;
    }
    assert answer == None;
    CloseFromOpen(t, open);
    close := None;
  }

  lemma CloseFromOpen(t: string, open: nat)
    requires open < |t| && t[open] == '{'
    ensures match Close(t, open, 0)
            case Some(end) => FirstZero(t, open, end)
            case None => NeverZero(t, open)
  {
    CloseIsFirstZero(t, open + 1, 1);
    forall k | open < k <= |t| ensures Depth(TypeScript, t, open, k) == 1 + Depth(TypeScript, t, open + 1, k) {
      DepthAfterToken(TypeScript, t, open, k);
    }
  }

  datatype ScanError = Several | Unterminated(at: nat)

  /** A header match: it ends with the brace that opens the construct's properties. */
  datatype Match = Match(start: nat, end: nat)

  predicate IsHeader(t: string, m: Match) { m.start < m.end <= |t| && t[m.end - 1] == '{' }

  /** The first opening brace inside a header. */
  function FirstBrace(t: string, i: nat, end: nat): (open: nat)
    requires i < end <= |t| && t[end - 1] == '{'
    ensures i <= open < end && t[open] == '{' && forall k :: i <= k < open ==> t[k] != '{'
    decreases end - i
  {
    if t[i] == '{' then i else FirstBrace(t, i + 1, end)
  }

  /** The header holds no brace but the one that opens the properties: the construct id has none. */
  predicate PlainId(t: string, m: Match)
    requires IsHeader(t, m)
  {
    forall k :: m.start <= k < m.end - 1 ==> t[k] != '{'
  }

  predicate Space(c: char) {
    c == ' ' || '\t' <= c <= '\r' || '\U{1C}' <= c <= '\U{1F}' || c == '\U{85}' || c == '\U{A0}' || c == '\U{1680}' ||
    '\U{2000}' <= c <= '\U{200A}' || c == '\U{2028}' || c == '\U{2029}' || c == '\U{202F}' || c == '\U{205F}' || c == '\U{3000}'
  }

  function AfterSpaces(t: string, i: nat): (end: nat)
    requires i <= |t|
    ensures i <= end <= |t| && (forall k :: i <= k < end ==> Space(t[k])) && (end < |t| ==> !Space(t[end]))
    decreases |t| - i
  {
    if i < |t| && Space(t[i]) then AfterSpaces(t, i + 1) else i
  }

  /** Where the call ends: after its closing parenthesis and semicolon when they follow the brace. */
  function CallEnd(t: string, close: nat): (end: nat)
    requires close <= |t|
    ensures close <= end <= |t|
  {
    var paren := AfterSpaces(t, close);
    if paren == |t| || t[paren] != ')' then close
    else
      var semicolon := AfterSpaces(t, paren + 1);
      if semicolon < |t| && t[semicolon] == ';' then semicolon + 1 else semicolon
  }

  method SkipSpaces(t: string, i: nat) returns (end: nat)
    requires i <= |t|
    ensures end == AfterSpaces(t, i)
  {
    end := i;
    while end < |t| && Space(t[end])
      invariant i <= end <= |t| && AfterSpaces(t, end) == AfterSpaces(t, i)
    {
      end := end + 1;
    }
  }

  /** The end of the call whose properties open at `open`. */
  ghost predicate EndsAt(t: string, open: nat, end: nat) {
    exists close: nat :: FirstZero(t, open, close) && end == CallEnd(t, close)
  }

  method ConstructEnd(t: string, open: nat) returns (end: Option<nat>)
    requires open < |t| && t[open] == '{'
    ensures match end
            case Some(e) => EndsAt(t, open, e)
            case None => NeverZero(t, open)
  {
    hide FirstZero, NeverZero;
    var found := FindClose(t, open);
    if found.None? { return None; }
    var close := found.value;
    assert close <= |t| by { FirstZeroWithin(t, open, close); }
    var e := close;
    var paren := SkipSpaces(t, close);
    if paren < |t| && t[paren] == ')' {
      e := SkipSpaces(t, paren + 1);
      if e < |t| && t[e] == ';' { e := e + 1; }
    }
    end := Some(e);
  }

  lemma FirstZeroWithin(t: string, open: nat, close: nat)
    requires FirstZero(t, open, close)
    ensures close <= |t|
  {
  }

  /** What the search answers for the header matches of one spelling. */
  ghost predicate Located(t: string, matches: seq<Match>, span: Result<Option<(nat, nat)>, ScanError>)
    requires forall m :: m in matches ==> IsHeader(t, m)
  {
    if |matches| > 1 then span == Err(Several)
    else if |matches| == 0 then span == Ok(None)
    else
      var m := matches[0];
      assert m in matches && IsHeader(t, m);
      var open := FirstBrace(t, m.start, m.end);
      if span.Err? then span.error == Unterminated(m.start) && NeverZero(t, open)
      else span.value.Some? && span.value.value.0 == m.start && EndsAt(t, open, span.value.value.1)
  }

  /** The span of the one construct with the id; the double-quoted spelling counts only without the other. */
  method MatchingConstruct(t: string, plain: seq<Match>, doubleQuoted: seq<Match>)
    returns (span: Result<Option<(nat, nat)>, ScanError>)
    requires forall m :: m in plain ==> IsHeader(t, m)
    requires forall m :: m in doubleQuoted ==> IsHeader(t, m)
    ensures Located(t, if |plain| == 0 then doubleQuoted else plain, span)
  {
    hide EndsAt, NeverZero;
    var matches := plain;
    if |matches| == 0 { matches := doubleQuoted; }
    if |matches| > 1 { return Err(Several); }
    if |matches| == 0 { return Ok(None); }
    var m := matches[0];
    assert m in matches;
    var open := m.start;
    while t[open] != '{'
      invariant m.start <= open < m.end
      invariant FirstBrace(t, open, m.end) == FirstBrace(t, m.start, m.end)
      decreases |t| - open
    {
      open := open + 1;
    }
    var end := ConstructEnd(t, open);
    span := if end.None? then Err(Unterminated(m.start)) else Ok(Some((m.start, end.value)));
  }

  // ----- Which brace the span belongs to -----

  /** With a plain id the span ends where the depth of the properties returns to zero, or it never does. */
  lemma SpanOfProperties(t: string, m: Match, span: Result<Option<(nat, nat)>, ScanError>)
    requires IsHeader(t, m) && Located(t, [m], span) && PlainId(t, m)
    ensures match span
            case Ok(None) => false
            case Ok(Some(bounds)) => bounds.0 == m.start && EndsAt(t, m.end - 1, bounds.1)
            case Err(_) => NeverZero(t, m.end - 1)
  {
    hide EndsAt, NeverZero;
    assert FirstBrace(t, m.start, m.end) == m.end - 1;
  }

  lemma FirstZeroUnique(t: string, open: nat, a: nat, b: nat)
    requires FirstZero(t, open, a) && FirstZero(t, open, b)
    ensures a == b
  {
  }

  /** The end of a call that closes before a brace is before that brace. */
  lemma CallEndsBefore(t: string, close: nat, brace: nat)
    requires close <= brace < |t| && t[brace] == '{'
    ensures CallEnd(t, close) <= brace
  {
    var paren := AfterSpaces(t, close);
    assert paren <= brace;
    if t[paren] == ')' { assert AfterSpaces(t, paren + 1) <= brace; }
  }

  /** Where the scan of a located construct ended. */
  lemma LocatedAt(t: string, m: Match, span: Result<Option<(nat, nat)>, ScanError>) returns (close: nat)
    requires IsHeader(t, m) && Located(t, [m], span) && span.Ok?
    ensures span.value.Some? && span.value.value.0 == m.start
    ensures FirstZero(t, FirstBrace(t, m.start, m.end), close) && close <= |t| && span.value.value.1 == CallEnd(t, close)
  {
    hide Depth, CallEnd;
    var open := FirstBrace(t, m.start, m.end);
    close :| FirstZero(t, open, close) && span.value.value.1 == CallEnd(t, close);
  }

  /** The span leaves the properties out if and only if the first brace of the header is closed within the header. */
  lemma SpanMissesIff(t: string, m: Match, span: Result<Option<(nat, nat)>, ScanError>)
    requires IsHeader(t, m) && Located(t, [m], span) && span.Ok?
    ensures span.value.Some?
    ensures span.value.value.1 <= m.end - 1 <==> ClosesBy(t, FirstBrace(t, m.start, m.end), m.end - 1)
  {
    var own := LocatedAt(t, m, span);
    var open := FirstBrace(t, m.start, m.end);
    hide Depth, Located, CallEnd, FirstBrace;
    if own <= m.end - 1 { CallEndsBefore(t, own, m.end - 1); }
    if ClosesBy(t, open, m.end - 1) {
      var close: nat :| FirstZero(t, open, close) && close <= m.end - 1;
      FirstZeroUnique(t, open, own, close);
    }
  }

  ghost predicate ClosesBy(t: string, open: nat, limit: nat) { exists close: nat :: FirstZero(t, open, close) && close <= limit }

  const BRACED := "new s3.Bucket(this,'a{}',{x})"

  lemma BracedText()
    ensures |BRACED| == 29 && BRACED[21] == '{' && BRACED[22] == '}' && BRACED[23] == '\'' && BRACED[25] == '{'
    ensures forall k :: 0 <= k < 21 ==> BRACED[k] != '{'
  {
  }

  lemma BracedCloses()
    ensures FirstZero(BRACED, 21, 23) && CallEnd(BRACED, 23) == 23
  {
    BracedText();
    var t := BRACED;
    assert Close(t, 22, 1) == Some(23);
    CloseFromOpen(t, 21);
  }

  /** The construct with the id `a{}` gets a span that ends inside its id, before its properties open. */
  lemma BracedIdIsMissed(span: Result<Option<(nat, nat)>, ScanError>)
    requires Located(BRACED, [Match(0, 26)], span)
    ensures BRACED[25] == '{' && span == Ok(Some((0, 23)))
  {
    var t, m := BRACED, Match(0, 26);
    BracedText();
    BracedCloses();
    assert FirstBrace(t, 0, 26) == 21;
    hide FirstZero, CallEnd, FirstBrace, NeverZero;
    ZeroOrNever(t, 21, 23);
    assert span.Ok? by { assert m in [m]; }
    var own := LocatedAt(t, m, span);
    FirstZeroUnique(t, 21, own, 23);
  }

  lemma ZeroOrNever(t: string, open: nat, close: nat)
    requires FirstZero(t, open, close)
    ensures !NeverZero(t, open)
  {
  }

  const QUOTED := "'a{',{x:\"'\"//\"\n}"

  lemma QuotedText()
    ensures var t := QUOTED;
            && |t| == 16 && t[2] == '{' && t[3] == '\'' && t[4] == ',' && t[5] == '{' && t[6] == 'x' && t[7] == ':'
            && t[8] == '"' && t[9] == '\'' && t[10] == '"' && t[11] == '/' && t[12] == '/' && t[13] == '"'
            && t[14] == '\n' && t[15] == '}'
  {
  }

  lemma QuotedFromId()
    ensures FirstZero(QUOTED, 2, 16)
  {
    QuotedText();
    var t := QUOTED;
    hide FirstZero, NeverZero;
    assert SkipString(t, 7, '\'') == 10;
    assert SkipString(t, 4, '\'') == 10;
    assert SkipString(t, 11, '"') == 14;
    assert Close(t, 14, 1) == Some(16);
    assert Close(t, 10, 1) == Some(16);
    CloseFromOpen(t, 2);
  }

  lemma QuotedFromProperties()
    ensures FirstZero(QUOTED, 5, 16)
  {
    QuotedText();
    var t := QUOTED;
    hide FirstZero, NeverZero;
    assert SkipString(t, 9, '"') == 11 && SkipLine(t, 13) == 15;
    assert Close(t, 11, 1) == Some(16);
    assert Close(t, 8, 1) == Some(16);
    CloseFromOpen(t, 5);
  }

  /** An earlier brace alone does not decide: here the scan from it ends where the properties end. */
  lemma EarlierBraceMayAgree()
    ensures QUOTED[2] == '{' && QUOTED[5] == '{' && FirstZero(QUOTED, 2, 16) && FirstZero(QUOTED, 5, 16)
  {
    hide FirstZero;
    QuotedText();
    QuotedFromId();
    QuotedFromProperties();
  }

  // ----- Terraform blocks -----

  /** The resource header a line starts, if any: its type and name. */
  type Header = string -> Option<(string, string)>

  /** The braces of a line that are code, opening ones counted up and closing ones down. */
  function LineDelta(line: string): int { Depth(Terraform, line, 0, |line|) }

  /** The code braces from `i` on, token by token. */
  function DeltaFrom(line: string, i: nat): int
    requires i <= |line|
    decreases |line| - i
  {
    if i == |line| then 0
    else (if Opens(Terraform, line, i) then 0 else Brace(line[i])) + DeltaFrom(line, Next(Terraform, line, i))
  }

  lemma {:induction false} DeltaIsDepth(line: string, i: nat)
    requires i <= |line|
    ensures DeltaFrom(line, i) == Depth(Terraform, line, i, |line|)
    decreases |line| - i
  {
    if i < |line| {
      DepthAfterToken(Terraform, line, i, |line|);
      DeltaIsDepth(line, Next(Terraform, line, i));
    }
  }

  method BraceDelta(line: string) returns (delta: int)
    ensures delta == LineDelta(line)
  {
    delta := 0;
    var quoted, escaped := false, false;
    var index := 0;
    DeltaIsDepth(line, 0);
    while index < |line|
      invariant index <= |line|
      invariant escaped ==> quoted
      invariant delta + (if quoted then DeltaFrom(line, SkipString(line, if escaped then index + 1 else index, '"'))
                         else DeltaFrom(line, index)) == LineDelta(line)
    {
      var c := line[index];
      if escaped {
        escaped := false;
      } else if quoted && c == '\\' {
        escaped := true;
      } else if c == '"' {
        quoted := !quoted;
      } else if !quoted && c == '#' {
        break;
      } else if !quoted && At(line, index, '/', '/') {
        break;
      } else if !quoted && c == '{' {
        delta := delta + 1;
      } else if !quoted && c == '}' {
        delta := delta - 1;
      }
      index := index + 1;
    }
  }

  /** The net depth of the lines `first..last`. */
  function Net(lines: seq<string>, first: nat, last: nat): int
    requires first <= last <= |lines|
  {
    if first == last then 0 else Net(lines, first, last - 1) + LineDelta(lines[last - 1])
  }

  datatype Block = Block(header: (string, string), start: nat, end: nat, text: string)

  function Joined(lines: seq<string>): string {
    if lines == [] then "" else Joined(lines[..|lines| - 1]) + lines[|lines| - 1]
  }

  /** A block opens with a header and ends with the first line after which its net depth is zero. */
  ghost predicate IsBlock(lines: seq<string>, header: Header, b: Block) {
    && b.start < b.end <= |lines|
    && header(lines[b.start]) == Some(b.header)
    && Net(lines, b.start, b.end) == 0
    && (forall k :: b.start < k < b.end ==> Net(lines, b.start, k) != 0)
    && b.text == Joined(lines[b.start..b.end])
  }

  predicate Within(blocks: seq<Block>, k: int) { exists i :: 0 <= i < |blocks| && blocks[i].start <= k < blocks[i].end }

  /** The blocks of the first `upto` lines: in order, disjoint, and every header outside them starts one. */
  ghost predicate BlocksOf(lines: seq<string>, header: Header, upto: nat, blocks: seq<Block>)
    requires upto <= |lines|
  {
    && (forall i :: 0 <= i < |blocks| ==> IsBlock(lines, header, blocks[i]) && blocks[i].end <= upto)
    && (forall i, k :: 0 <= i < k < |blocks| ==> blocks[i].end <= blocks[k].start)
    && (forall k :: 0 <= k < upto && !Within(blocks, k) ==> header(lines[k]).None?)
  }

  /** A header outside the blocks before it whose net depth never returns to zero. */
  ghost predicate Unclosed(lines: seq<string>, header: Header, at: nat) {
    && at < |lines| && header(lines[at]).Some?
    && (exists blocks :: BlocksOf(lines, header, at, blocks))
    && forall k :: at < k <= |lines| ==> Net(lines, at, k) != 0
  }

  method Blocks(lines: seq<string>, header: Header) returns (r: Result<seq<Block>, ScanError>)
    ensures match r
            case Ok(blocks) => BlocksOf(lines, header, |lines|, blocks)
            case Err(error) => error.Unterminated? && Unclosed(lines, header, error.at)
  {
    var blocks: seq<Block> := [];
    var index := 0;
    while index < |lines|
      invariant index <= |lines| && BlocksOf(lines, header, index, blocks)
    {
      var found := header(lines[index]);
      if found.None? {
        index := index + 1;
        continue;
      }
      var start, depth := index, 0;
      assert Net(lines, start, start) == 0;
      while index < |lines|
        invariant start <= index <= |lines|
        invariant depth == Net(lines, start, index)
        invariant forall k :: start < k <= index ==> Net(lines, start, k) != 0
      {
        var delta := BraceDelta(lines[index]);
        depth := depth + delta;
        index := index + 1;
        if depth == 0 { break; }
      }
      if depth != 0 {
        return Err(Unterminated(start));
      }
      var block := Block(found.value, start, index, Joined(lines[start..index]));
      BlocksExtend(lines, header, start, blocks, block);
      blocks := blocks + [block];
    }
    r := Ok(blocks);
  }

  lemma BlocksExtend(lines: seq<string>, header: Header, start: nat, blocks: seq<Block>, b: Block)
    requires start < |lines| && BlocksOf(lines, header, start, blocks) && IsBlock(lines, header, b) && b.start == start
    ensures BlocksOf(lines, header, b.end, blocks + [b])
  {
    hide Net, Joined, Within;
    forall k | 0 <= k < b.end && !Within(blocks + [b], k) ensures header(lines[k]).None? {
      WithinExtend(blocks, b, k);
    }
  }

  lemma WithinExtend(blocks: seq<Block>, b: Block, k: int)
    ensures Within(blocks + [b], k) <==> Within(blocks, k) || b.start <= k < b.end
  {
    var longer := blocks + [b];
    assert longer[|blocks|] == b;
    if Within(blocks, k) {
      var i :| 0 <= i < |blocks| && blocks[i].start <= k < blocks[i].end;
      assert longer[i] == blocks[i];
    }
  }

  lemma BetweenBlocks(lines: seq<string>, header: Header, upto: nat, blocks: seq<Block>, n: nat, k: nat)
    requires upto <= |lines| && BlocksOf(lines, header, upto, blocks) && n <= |blocks| && k < upto
    requires n > 0 ==> blocks[n - 1].end <= k
    requires n < |blocks| ==> k < blocks[n].start
    ensures header(lines[k]).None?
  {
    hide Net, Joined;
    assert n > 0 ==> IsBlock(lines, header, blocks[n - 1]);
    assert n < |blocks| ==> IsBlock(lines, header, blocks[n]);
    forall i | 0 <= i < |blocks| ensures !(blocks[i].start <= k < blocks[i].end) {
      if i < n - 1 { assert blocks[i].end <= blocks[n - 1].start < blocks[n - 1].end; }
      if i > n { assert blocks[n].end <= blocks[i].start; }
    }
  }

  lemma StartsNoLater(lines: seq<string>, header: Header, upto: nat,
                      a: seq<Block>, b: seq<Block>, n: nat)
    requires upto <= |lines| && BlocksOf(lines, header, upto, a) && BlocksOf(lines, header, upto, b)
    requires n < |a| && n <= |b| && a[..n] == b[..n]
    ensures n < |b| && b[n].start <= a[n].start
  {
    hide Net, Joined;
    if n == |b| || a[n].start < b[n].start {
      assert n > 0 ==> b[n - 1] == a[..n][n - 1];
      BetweenBlocks(lines, header, upto, b, n, a[n].start);
    }
  }

  lemma SameBlock(lines: seq<string>, header: Header, x: Block, y: Block)
    requires IsBlock(lines, header, x) && IsBlock(lines, header, y) && x.start == y.start
    ensures x == y
  {
    hide Net, Joined;
  }

  /** The contract leaves no choice: two lists that meet it are the same list. */
  lemma {:induction false} BlocksUnique(lines: seq<string>, header: Header, upto: nat,
                                        a: seq<Block>, b: seq<Block>, n: nat := 0)
    requires upto <= |lines| && BlocksOf(lines, header, upto, a) && BlocksOf(lines, header, upto, b)
    requires n <= |a| && n <= |b| && a[..n] == b[..n]
    ensures a == b
    decreases |a| - n
  {
    hide IsBlock, Within;
    if n < |a| {
      StartsNoLater(lines, header, upto, a, b, n);
      StartsNoLater(lines, header, upto, b, a, n);
      SameBlock(lines, header, a[n], b[n]);
      BlocksUnique(lines, header, upto, a, b, n + 1);
    } else if n < |b| {
      StartsNoLater(lines, header, upto, b, a, n);
    }
  }
}
