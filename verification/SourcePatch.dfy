/**
 * The two deterministic source patches: the CDK patch inserts text after the encryption property, the Terraform
 * patch replaces one quoted literal. The places are found as the regular expressions find them, scanning line starts
 * from the left. Lines are what `splitlines(keepends=True)` gives for line feeds.
 */
module SourcePatch {
  import opened Common
  import opened BraceScan

  function Lines(t: string): (lines: seq<string>)
    decreases |t|
  {
    if t == "" then [] else [t[..SkipLine(t, 0)]] + Lines(t[SkipLine(t, 0)..])
  }

  /** A line feed, if the line has one, is its last character. */
  predicate OneLine(line: string) { line != "" && forall k :: 0 <= k < |line| - 1 ==> line[k] != '\n' }

  predicate Complete(line: string) { line != "" && line[|line| - 1] == '\n' }

  /** Every line is one line, and every line but the last is complete. */
  lemma {:induction false} LineShape(t: string, i: nat)
    requires i < |Lines(t)|
    ensures OneLine(Lines(t)[i]) && (i < |Lines(t)| - 1 ==> Complete(Lines(t)[i]))
    decreases |t|
  {
    var end := SkipLine(t, 0);
    LineEndsAtFirstFeed(t, 0);
    assert Lines(t) == [t[..end]] + Lines(t[end..]);
    if i > 0 {
      LineShape(t[end..], i - 1);
    } else {
      assert forall k :: 0 <= k < end - 1 ==> t[..end][k] == t[k];
    }
  }

  lemma FirstOfLines(t: string)
    requires t != ""
    ensures Lines(t) == [t[..SkipLine(t, 0)]] + Lines(t[SkipLine(t, 0)..]) && 0 < SkipLine(t, 0)
  {
  }

  /** Text cut between two lines splits into the lines of its parts. */
  lemma {:induction false} LinesConcat(a: string, b: string)
    requires a == "" || Complete(a)
    ensures Lines(a + b) == Lines(a) + Lines(b)
    decreases |a|
  {
    if a == "" {
      assert a + b == b;
    } else {
      hide Lines, SkipLine, Complete;
      var end := SkipLine(a, 0);
      assert '\n' in a by { CompleteHasFeed(a); }
      FirstLine(a, b);
      CutFirst(a, b);
      FirstOfLines(a);
      FirstOfLines(a + b);
      LinesConcat(a[end..], b);
      var head, rest, more := [a[..end]], Lines(a[end..]), Lines(b);
      assert head + (rest + more) == (head + rest) + more;
    }
  }

  /** A complete text and its continuations have the same first line. */
  lemma FirstLine(a: string, b: string)
    requires '\n' in a
    ensures SkipLine(a + b, 0) == SkipLine(a, 0)
    ensures Complete(a[..SkipLine(a, 0)])
  {
    var k :| 0 <= k < |a| && a[k] == '\n';
    var x, y := SkipLine(a, 0), SkipLine(a + b, 0);
    LineEndsAtFirstFeed(a, 0);
    LineEndsAtFirstFeed(a + b, 0);
    assert (a + b)[k] == '\n';
    assert a[x - 1] == '\n';
    assert (a + b)[x - 1] == '\n';
    assert forall j :: 0 <= j < |a| ==> (a + b)[j] == a[j];
  }

  lemma CompleteHasFeed(t: string)
    requires Complete(t)
    ensures '\n' in t
  {
  }

  /** What follows the first line of a complete text is again complete, or nothing. */
  lemma CutFirst(a: string, b: string)
    requires a != ""
    ensures var end := SkipLine(a, 0);
            && (a + b)[..end] == a[..end] && (a + b)[end..] == a[end..] + b
            && (Complete(a) ==> a[end..] == "" || Complete(a[end..]))
  {
  }

  lemma SingleLine(line: string)
    requires OneLine(line) && Complete(line)
    ensures Lines(line) == [line]
  {
    var end := SkipLine(line, 0);
    LineEndsAtFirstFeed(line, 0);
    assert line[|line| - 1] == '\n';
    assert end == |line|;
    assert line[..end] == line && line[end..] == "";
  }

  function Insertion(indent: string): string { indent + "versioned:         true,\n" }

  /** The CDK patch: the insertion goes to offset `at` of the file. */
  function Inserted(original: string, at: nat, indent: string): string
    requires at <= |original|
  {
    original[..at] + Insertion(indent) + original[at..]
  }

  /** The result is the original file with exactly one line more, put between two of its lines. */
  predicate OneLineMore(original: string, at: nat, indent: string)
    requires at <= |original|
  {
    && Lines(original) == Lines(original[..at]) + Lines(original[at..])
    && Lines(Inserted(original, at, indent)) == Lines(original[..at]) + [Insertion(indent)] + Lines(original[at..])
  }

  lemma InsertionIsOneLine(indent: string)
    ensures Complete(Insertion(indent))
    ensures OneLine(Insertion(indent)) <==> '\n' !in indent
  {
    var text := Insertion(indent);
    assert text[|indent|..] == "versioned:         true,\n";
    if '\n' in indent {
      var k :| 0 <= k < |indent| && indent[k] == '\n';
      assert text[k] == '\n';
    } else {
      forall k | 0 <= k < |text| - 1 ensures text[k] != '\n' {
        assert k >= |indent| ==> text[k] == "versioned:         true,\n"[k - |indent|];
      }
    }
  }

  /** The patch adds exactly one line if and only if the captured indent has no line feed and the encryption property
      ends with one. */
  lemma OneLineMoreIff(original: string, at: nat, indent: string)
    requires at <= |original|
    ensures OneLineMore(original, at, indent) <==> '\n' !in indent && (at == 0 || original[at - 1] == '\n')
  {
    var before, after, line := original[..at], original[at..], Insertion(indent);
    assert before + after == original;
    InsertionIsOneLine(indent);
    if '\n' !in indent && (at == 0 || original[at - 1] == '\n') {
      LinesConcat(before, after);
      assert Inserted(original, at, indent) == before + (line + after);
      LinesConcat(before, line + after);
      LinesConcat(line, after);
      SingleLine(line);
    }
    if OneLineMore(original, at, indent) {
      var n := |Lines(before)|;
      var patched := Inserted(original, at, indent);
      assert Lines(patched)[n] == line;
      LineShape(patched, n);
      if at > 0 {
        LastLine(before);
        assert Lines(patched)[n - 1] == Lines(before)[n - 1];
        LineShape(patched, n - 1);
      }
    }
  }

  lemma {:induction false} LastLine(t: string)
    requires t != ""
    ensures Lines(t) != [] && Complete(Lines(t)[|Lines(t)| - 1]) == Complete(t)
    decreases |t|
  {
    var end := SkipLine(t, 0);
    LineEndsAtFirstFeed(t, 0);
    if end < |t| {
      LastLine(t[end..]);
      assert Lines(t) == [t[..end]] + Lines(t[end..]);
    } else {
      assert t[..end] == t;
    }
  }

  /** The number of line feeds: the index of the line that holds the next character. */
  function LineOf(t: string): nat {
    if t == "" then 0 else LineOf(t[..|t| - 1]) + (if t[|t| - 1] == '\n' then 1 else 0)
  }

  lemma {:induction false} LineOfConcat(a: string, b: string)
    ensures LineOf(a + b) == LineOf(a) + LineOf(b)
    decreases |b|
  {
    if b == "" {
      assert a + b == a;
    } else {
      assert (a + b)[..|a + b| - 1] == a + b[..|b| - 1];
      LineOfConcat(a, b[..|b| - 1]);
    }
  }

  lemma {:induction false} NoLineFeed(t: string)
    requires '\n' !in t
    ensures LineOf(t) == 0
  {
    if t != "" { NoLineFeed(t[..|t| - 1]); }
  }

  /** A complete first line can be taken off the front. */
  lemma OffTheFront(before: string, x: string, after: string)
    requires '\n' in before
    ensures var rest := before[SkipLine(before, 0)..];
            && |rest| < |before| && LineOf(before) == 1 + LineOf(rest)
            && Lines(before + x + after) == [before[..SkipLine(before, 0)]] + Lines(rest + x + after)
  {
    hide Lines, LineOf;
    var end, all := SkipLine(before, 0), before + x + after;
    assert all == before + (x + after);
    FirstLine(before, x + after);
    FirstOfLines(all);
    assert all[..end] == before[..end] && all[end..] == before[end..] + x + after;
    FirstLineCounts(before);
  }

  lemma FirstLineCounts(t: string)
    requires '\n' in t
    ensures 0 < SkipLine(t, 0) && LineOf(t) == 1 + LineOf(t[SkipLine(t, 0)..])
  {
    hide LineOf;
    var end := SkipLine(t, 0);
    LineEndsAtFirstFeed(t, 0);
    var text, rest := t[..end - 1], t[end..];
    assert t == text + ("\n" + rest);
    NoLineFeed(text);
    LineOfConcat(text, "\n" + rest);
    LineOfConcat("\n", rest);
    OneFeed();
  }

  lemma OneFeed()
    ensures LineOf("\n") == 1
  {
    assert "\n"[..0] == "";
  }

  /** One text is the other with `latter` where `former` was. */
  ghost predicate Swapped(was: string, now: string, former: string, latter: string) {
    exists a, b: string :: was == a + former + b && now == a + latter + b
  }

  /** The Terraform patch replaces a literal within one line: that line changes, every other line stays as it was. */
  lemma {:induction false} OnlyItsLineChanges(before: string, former: string, latter: string, after: string)
    requires former != "" && latter != "" && '\n' !in former && '\n' !in latter
    ensures var was, now := Lines(before + former + after), Lines(before + latter + after);
            && |was| == |now| && LineOf(before) < |was|
            && (forall i :: 0 <= i < |was| && i != LineOf(before) ==> was[i] == now[i])
            && Swapped(was[LineOf(before)], now[LineOf(before)], former, latter)
    decreases |before|
  {
    if '\n' in before {
      hide Lines, LineOf;
      OffTheFront(before, former, after);
      OffTheFront(before, latter, after);
      OnlyItsLineChanges(before[SkipLine(before, 0)..], former, latter, after);
    } else {
      NoLineFeed(before);
      LineThrough(before + former, after);
      LineThrough(before + latter, after);
      var rest := after[..SkipLine(after, 0)];
      assert before + former + rest == before + former + rest && before + latter + rest == before + latter + rest;
    }
  }

  /** A text without line feeds goes on to the end of the first line of what follows. */
  lemma LineThrough(a: string, b: string)
    requires a != "" && '\n' !in a
    ensures Lines(a + b) == [a + b[..SkipLine(b, 0)]] + Lines(b[SkipLine(b, 0)..])
  {
    var end, whole := SkipLine(a + b, 0), SkipLine(b, 0);
    LineEndsAtFirstFeed(a + b, 0);
    LineEndsAtFirstFeed(b, 0);
    assert forall k :: 0 <= k < |b| ==> (a + b)[|a| + k] == b[k];
    assert forall k :: 0 <= k < |a| ==> (a + b)[k] == a[k];
    assert end == |a| + whole;
    assert (a + b)[..end] == a + b[..whole] && (a + b)[end..] == b[whole..];
  }

  // ----- Where the patterns match -----

  /** A line of the property `word`, or of a status literal to be replaced. */
  datatype Pattern = PropertyLine(word: string) | StatusLiteral

  /** A match: where it starts, the part that matters, and where it ends. For a property line that part starts at its
      name; for a status literal it is the quoted literal. */
  datatype Captured = Captured(start: nat, key: nat, keyEnd: nat, end: nat)

  const ENCRYPTION := "encryption"
  const VERSIONED := "versioned"
  const STATUS := "status"
  const ENABLED := "\"Enabled\""
  const DISABLED := "\"Disabled\""
  const SUSPENDED := "\"Suspended\""

  predicate LineStart(t: string, p: nat) { p <= |t| && (p == 0 || t[p - 1] == '\n') }

  predicate StartsWith(t: string, p: nat, word: string) { p + |word| <= |t| && t[p..p + |word|] == word }

  /** Space, the name, space, a colon, and the rest of the line with its line feed if it has one. */
  function PropertyAt(t: string, p: nat, word: string): (c: Option<Captured>)
    requires p <= |t|
    ensures c.Some? ==> c.value.start == p <= c.value.key <= c.value.keyEnd <= c.value.end <= |t| && p < c.value.end
  {
    var key := AfterSpaces(t, p);
    if !StartsWith(t, key, word) then None
    else
      var colon := AfterSpaces(t, key + |word|);
      if colon < |t| && t[colon] == ':' then Some(Captured(p, key, key + |word|, SkipLine(t, colon + 1))) else None
  }

  /** The last line feed in `i..k`. */
  function LastFeed(t: string, i: nat, k: nat): (at: Option<nat>)
    requires i <= k <= |t|
    ensures at.Some? ==> i <= at.value < k && t[at.value] == '\n'
    ensures at.None? ==> forall j :: i <= j < k ==> t[j] != '\n'
  {
    if i == k then None else if t[k - 1] == '\n' then Some(k - 1) else LastFeed(t, i, k - 1)
  }

  /** Where white space and an optional comment end at an end of line, if they do. */
  function CommentEnd(t: string, i: nat): (end: Option<nat>)
    requires i <= |t|
    ensures end.Some? ==> i <= end.value <= |t|
  {
    var next := AfterSpaces(t, i);
    if next == |t| then Some(next)
    else if t[next] == '#' then
      var past := SkipLine(t, next);
      Some(if t[past - 1] == '\n' then past - 1 else past)
    else LastFeed(t, i, next)
  }

  function LiteralAt(t: string, p: nat): (end: Option<nat>)
    ensures end.Some? ==> p < end.value <= |t| && t[p..end.value] in {DISABLED, SUSPENDED}
  {
    if StartsWith(t, p, DISABLED) then Some(p + |DISABLED|)
    else if StartsWith(t, p, SUSPENDED) then Some(p + |SUSPENDED|)
    else None
  }

  /** Space, `status`, an equals sign, one of the two literals, and nothing but space and a comment. */
  function StatusAt(t: string, p: nat): (c: Option<Captured>)
    requires p <= |t|
    ensures c.Some? ==> c.value.start == p <= c.value.key < c.value.keyEnd <= c.value.end <= |t|
                        && t[c.value.key..c.value.keyEnd] in {DISABLED, SUSPENDED}
  {
    var name := AfterSpaces(t, p);
    if !StartsWith(t, name, STATUS) then None
    else
      var equals := AfterSpaces(t, name + |STATUS|);
      if equals == |t| || t[equals] != '=' then None
      else
        var literal := AfterSpaces(t, equals + 1);
        match LiteralAt(t, literal)
        case None => None
        case Some(end) =>
          match CommentEnd(t, end)
          case None => None
          case Some(last) => Some(Captured(p, literal, end, last))
  }

  function MatchAt(pattern: Pattern, t: string, p: nat): (c: Option<Captured>)
    requires p <= |t|
    ensures c.Some? ==> c.value.start == p <= c.value.key <= c.value.keyEnd <= c.value.end <= |t| && p < c.value.end
  {
    if !LineStart(t, p) then None
    else match pattern
      case PropertyLine(word) => PropertyAt(t, p, word)
      case StatusLiteral => StatusAt(t, p)
  }

  function FirstMatch(pattern: Pattern, t: string, from: nat): (c: Option<Captured>)
    requires from <= |t|
    ensures c.Some? ==> from <= c.value.start <= c.value.key <= c.value.keyEnd <= c.value.end <= |t| && from < c.value.end
    ensures c.Some? ==> MatchAt(pattern, t, c.value.start) == c
    ensures forall p :: from <= p < (if c.Some? then c.value.start else |t| + 1) ==> MatchAt(pattern, t, p).None?
    decreases |t| - from
  {
    var here := MatchAt(pattern, t, from);
    if here.Some? then here else if from == |t| then None else FirstMatch(pattern, t, from + 1)
  }

  /** All matches, each found after the end of the one before. */
  function Matches(pattern: Pattern, t: string, from: nat): seq<Captured>
    requires from <= |t|
    decreases |t| - from
  {
    match FirstMatch(pattern, t, from)
    case None => []
    case Some(c) => [c] + Matches(pattern, t, c.end)
  }

  // ----- The CDK patch -----

  datatype PatchError = NotRequested | NoConstruct | AlreadySet | NotOneMatch

  /** `materialize_cdk_s3_versioning`; `bounds` is the span of the linked construct and `requested` whether the proposal
      sets the property. */
  function CdkPatch(original: string, bounds: Option<(nat, nat)>, requested: bool): Result<string, PatchError>
    requires bounds.Some? ==> bounds.value.0 <= bounds.value.1 <= |original|
  {
    if !requested then Err(NotRequested)
    else if bounds.None? then Err(NoConstruct)
    else
      var (start, stop) := bounds.value;
      var block := original[start..stop];
      var found := Matches(PropertyLine(ENCRYPTION), block, 0);
      if FirstMatch(PropertyLine(VERSIONED), block, 0).Some? then Err(AlreadySet)
      else if |found| != 1 then Err(NotOneMatch)
      else
        var changed := block[..found[0].end] + Insertion(block[found[0].start..found[0].key]) + block[found[0].end..];
        Ok(original[..start] + changed + original[stop..])
  }

  predicate White(t: string, i: nat, k: nat) { i <= k <= |t| && forall j :: i <= j < k ==> Space(t[j]) }

  /** The start of the line that holds `k`. */
  function LineBegin(t: string, k: nat): (p: nat)
    requires k <= |t|
    ensures p <= k && LineStart(t, p) && forall j :: p <= j < k ==> t[j] != '\n'
  {
    if LineStart(t, k) then k else LineBegin(t, k - 1)
  }

  /** A line of nothing but white space stands directly before the line that holds `k`. */
  predicate BlankLineBefore(t: string, k: nat)
    requires k <= |t|
  {
    LineBegin(t, k) > 0 && White(t, LineBegin(t, LineBegin(t, k) - 1), LineBegin(t, k))
  }

  lemma {:induction false} SpacesUpTo(t: string, i: nat, k: nat)
    requires White(t, i, k) && k < |t| && !Space(t[k])
    ensures AfterSpaces(t, i) == k
    decreases k - i
  {
    if i < k { SpacesUpTo(t, i + 1, k); }
  }

  lemma PropertyFacts(t: string, p: nat, word: string)
    requires p <= |t| && PropertyAt(t, p, word).Some? && word != "" && !Space(word[0])
    ensures var key := PropertyAt(t, p, word).value.key;
            White(t, p, key) && key < |t| && !Space(t[key]) && AfterSpaces(t, p) == key
  {
    var key := AfterSpaces(t, p);
    assert t[key] == t[key..key + |word|][0];
  }

  /** Whether a property is found depends on where the white space ends only. */
  lemma SamePlace(t: string, p: nat, q: nat, word: string)
    requires p <= |t| && q <= |t| && AfterSpaces(t, p) == AfterSpaces(t, q)
    ensures PropertyAt(t, p, word).Some? <==> PropertyAt(t, q, word).Some?
  {
  }

  /** The match starts at the leftmost line start from which only white space leads to the name. */
  lemma MatchIsLeftmost(t: string, word: string)
    requires FirstMatch(PropertyLine(word), t, 0).Some? && word != "" && !Space(word[0])
    ensures var c := FirstMatch(PropertyLine(word), t, 0).value;
            && LineStart(t, c.start) && White(t, c.start, c.key)
            && forall p :: 0 <= p < c.start && LineStart(t, p) ==> !White(t, p, c.key)
  {
    var c := FirstMatch(PropertyLine(word), t, 0).value;
    assert MatchAt(PropertyLine(word), t, c.start) == Some(c);
    assert PropertyAt(t, c.start, word) == Some(c);
    PropertyFacts(t, c.start, word);
    hide PropertyAt, AfterSpaces, FirstMatch, StatusAt;
    forall p | 0 <= p < c.start && LineStart(t, p) ensures !White(t, p, c.key) {
      assert MatchAt(PropertyLine(word), t, p).None?;
      if White(t, p, c.key) {
        SpacesUpTo(t, p, c.key);
        SamePlace(t, p, c.start, word);
      }
    }
  }

  lemma {:induction false} LineBeginAtLeast(t: string, k: nat, p: nat)
    requires k <= |t| && p <= k && LineStart(t, p)
    ensures LineBegin(t, k) >= p
    decreases k
  {
    if !LineStart(t, k) { LineBeginAtLeast(t, k - 1, p); }
  }

  lemma WhiteJoins(t: string, i: nat, j: nat, k: nat)
    requires i <= j && White(t, j, k)
    ensures White(t, i, j) <==> White(t, i, k)
  {
  }

  /** The captured indent holds a line feed if and only if a blank line stands before the property. */
  lemma IndentHoldsFeedIff(t: string, start: nat, key: nat)
    requires LineStart(t, start) && White(t, start, key)
    requires forall p :: 0 <= p < start && LineStart(t, p) ==> !White(t, p, key)
    ensures '\n' in t[start..key] <==> BlankLineBefore(t, key)
  {
    var q := LineBegin(t, key);
    LineBeginAtLeast(t, key, start);
    assert forall j :: start <= j < key ==> t[start..key][j - start] == t[j];
    if q > 0 {
      var before := LineBegin(t, q - 1);
      WhiteJoins(t, before, q, key);
      if q > start { LineBeginAtLeast(t, q - 1, start); }
    }
  }

  /** The file is patched by one line more if and only if no blank line stands before the encryption property and its
      line ends inside the construct. */
  lemma CdkPatchOneLineIff(original: string, bounds: (nat, nat))
    requires bounds.0 <= bounds.1 <= |original| && CdkPatch(original, Some(bounds), true).Ok?
    ensures var block := original[bounds.0..bounds.1];
            var c := FirstMatch(PropertyLine(ENCRYPTION), block, 0).value;
            var at, indent := bounds.0 + c.end, block[c.start..c.key];
            && CdkPatch(original, Some(bounds), true).value == Inserted(original, at, indent)
            && (OneLineMore(original, at, indent) <==> !BlankLineBefore(block, c.key) && block[c.end - 1] == '\n')
  {
    hide OneLineMore, BlankLineBefore, MatchAt, Insertion, White, AfterSpaces;
    var block := original[bounds.0..bounds.1];
    var c := FirstMatch(PropertyLine(ENCRYPTION), block, 0).value;
    var at, indent := bounds.0 + c.end, block[c.start..c.key];
    OneLineMoreIff(original, at, indent);
    assert ENCRYPTION[0] == 'e' && !Space('e');
    MatchIsLeftmost(block, ENCRYPTION);
    IndentHoldsFeedIff(block, c.start, c.key);
    assert original[..at] == original[..bounds.0] + block[..c.end];
    assert original[at..] == block[c.end..] + original[bounds.1..];
    assert original[at - 1] == block[c.end - 1];
  }

  /** The inserted line, as it is written. */
  lemma InsertedText(original: string, at: nat, indent: string)
    requires at <= |original|
    ensures Inserted(original, at, indent) == original[..at] + (indent + "versioned:         true,\n") + original[at..]
  {
  }

  /** The property is set by the patch: tried again on its own result, the patch is refused. */
  lemma CdkPatchSets(original: string, bounds: (nat, nat))
    requires bounds.0 <= bounds.1 <= |original| && CdkPatch(original, Some(bounds), true).Ok?
    requires var block := original[bounds.0..bounds.1];
             block[FirstMatch(PropertyLine(ENCRYPTION), block, 0).value.end - 1] == '\n'
    ensures var patched := CdkPatch(original, Some(bounds), true).value;
            var stop := bounds.1 + (|patched| - |original|);
            bounds.0 <= stop <= |patched| && CdkPatch(patched, Some((bounds.0, stop)), true) == Err(AlreadySet)
  {
    hide MatchAt, Insertion, AfterSpaces;
    var block := original[bounds.0..bounds.1];
    var c := FirstMatch(PropertyLine(ENCRYPTION), block, 0).value;
    var line := Insertion(block[c.start..c.key]);
    var changed := block[..c.end] + line + block[c.end..];
    var patched := CdkPatch(original, Some(bounds), true).value;
    var stop := bounds.1 + (|patched| - |original|);
    assert patched == original[..bounds.0] + changed + original[bounds.1..];
    assert patched[bounds.0..stop] == changed;
    MatchIsLeftmost(block, ENCRYPTION);
    assert White(block, c.start, c.key);
    SetsProperty(block[..c.end], block[c.start..c.key], block[c.end..]);
    assert FirstMatch(PropertyLine(VERSIONED), changed, 0).Some?;
  }

  /** A white indent, the inserted line, and there is a property line. */
  lemma SetsProperty(before: string, indent: string, after: string)
    requires before != "" && before[|before| - 1] == '\n' && forall j :: 0 <= j < |indent| ==> Space(indent[j])
    ensures MatchAt(PropertyLine(VERSIONED), before + Insertion(indent) + after, |before|).Some?
  {
    var text := "versioned:         true,\n";
    assert text[0] == 'v' && text[9] == ':' && text[..9] == VERSIONED;
    assert before + Insertion(indent) + after == before + indent + text + after;
    IsProperty(before, indent, text, after, VERSIONED);
  }

  lemma IsProperty(before: string, indent: string, text: string, after: string, word: string)
    requires before != "" && before[|before| - 1] == '\n' && forall j :: 0 <= j < |indent| ==> Space(indent[j])
    requires 0 < |word| < |text| && text[..|word|] == word && text[|word|] == ':' && !Space(word[0])
    ensures MatchAt(PropertyLine(word), before + indent + text + after, |before|).Some?
  {
    var t, k := before + indent + text + after, |before| + |indent|;
    assert t[k] == text[0] == text[..|word|][0];
    assert t[k + |word|] == ':' && !Space(':');
    assert t[k..k + |word|] == text[..|word|];
    assert forall j :: |before| <= j < k ==> t[j] == indent[j - |before|];
    SpacesUpTo(t, |before|, k);
    SpacesUpTo(t, k + |word|, k + |word|);
  }

  lemma FirstOfWord(t: string, k: nat, word: string)
    requires word != ""
    ensures StartsWith(t, k, word) ==> t[k] == word[0]
  {
    if StartsWith(t, k, word) { assert t[k..k + |word|][0] == word[0]; }
  }

  lemma NoProperty(t: string, p: nat, k: nat, word: string)
    requires word != "" && White(t, p, k) && k < |t| && !Space(t[k]) && t[k] != word[0]
    ensures MatchAt(PropertyLine(word), t, p).None?
  {
    SpacesUpTo(t, p, k);
    FirstOfWord(t, k, word);
  }

  const TAIL := "\n\n" + ENCRYPTION + ":K\n})"

  /** The text of a construct whose first line is `head`, with a blank line before its only property. */
  predicate HeadLine(head: string) {
    head != "" && '\n' !in head && !Space(head[0]) && head[0] != 'e' && head[0] != 'v'
  }

  lemma SampleText(head: string)
    requires HeadLine(head)
    ensures var n, file := |head|, head + TAIL;
            && |file| == n + 17 && file[0] == head[0]
            && file[n..] == TAIL && file[n] == file[n + 1] == file[n + 14] == '\n'
            && file[n + 2] == 'e' && file[n + 12] == ':' && file[n + 13] == 'K' && file[n + 15] == '}' && file[n + 16] == ')'
            && StartsWith(file, n + 2, ENCRYPTION)
            && forall p :: 0 <= p <= |file| && LineStart(file, p) ==> p in {0, n + 1, n + 2, n + 15}
  {
    var n, file := |head|, head + TAIL;
    assert |ENCRYPTION| == 10 && |TAIL| == 17;
    assert ENCRYPTION[0] == 'e' && '\n' !in ENCRYPTION;
    assert file[n..] == TAIL;
    assert TAIL[0] == TAIL[1] == TAIL[14] == '\n' && TAIL[2] == 'e' && TAIL[12] == ':' && TAIL[13] == 'K'
           && TAIL[15] == '}' && TAIL[16] == ')';
    assert TAIL[2..12] == ENCRYPTION;
    assert file[n + 2..n + 12] == TAIL[2..12];
    assert forall j :: 2 <= j < 12 ==> TAIL[j] == ENCRYPTION[j - 2];
    assert forall j :: 0 <= j < n ==> file[j] == head[j];
    assert forall j :: 0 <= j < 17 ==> file[n + j] == TAIL[j];
  }

  lemma SampleProperty(head: string)
    requires HeadLine(head)
    ensures var n := |head|;
            MatchAt(PropertyLine(ENCRYPTION), head + TAIL, n + 1) == Some(Captured(n + 1, n + 2, n + 12, n + 15))
  {
    var n, file := |head|, head + TAIL;
    SampleText(head);
    SpacesUpTo(file, n + 1, n + 2);
    SpacesUpTo(file, n + 12, n + 12);
    assert SkipLine(file, n + 13) == n + 15;
  }

  lemma SampleOthers(head: string)
    requires HeadLine(head)
    ensures var n, file := |head|, head + TAIL;
            && MatchAt(PropertyLine(ENCRYPTION), file, 0).None? && MatchAt(PropertyLine(ENCRYPTION), file, n + 15).None?
            && MatchAt(PropertyLine(VERSIONED), file, 0).None? && MatchAt(PropertyLine(VERSIONED), file, n + 1).None?
            && MatchAt(PropertyLine(VERSIONED), file, n + 2).None? && MatchAt(PropertyLine(VERSIONED), file, n + 15).None?
  {
    var n, file := |head|, head + TAIL;
    SampleText(head);
    assert ENCRYPTION[0] == 'e' && VERSIONED[0] == 'v';
    NoProperty(file, 0, 0, ENCRYPTION);
    NoProperty(file, n + 15, n + 15, ENCRYPTION);
    NoProperty(file, 0, 0, VERSIONED);
    NoProperty(file, n + 1, n + 2, VERSIONED);
    NoProperty(file, n + 2, n + 2, VERSIONED);
    NoProperty(file, n + 15, n + 15, VERSIONED);
  }

  lemma SampleFound(head: string)
    requires HeadLine(head)
    ensures var n, file := |head|, head + TAIL;
            && Matches(PropertyLine(ENCRYPTION), file, 0) == [Captured(n + 1, n + 2, n + 12, n + 15)]
            && FirstMatch(PropertyLine(ENCRYPTION), file, 0) == Some(Captured(n + 1, n + 2, n + 12, n + 15))
            && FirstMatch(PropertyLine(VERSIONED), file, 0).None?
  {
    var n, file := |head|, head + TAIL;
    SampleText(head);
    SampleProperty(head);
    SampleOthers(head);
    hide MatchAt;
    assert forall p :: 0 <= p <= |file| && !LineStart(file, p) ==> MatchAt(PropertyLine(ENCRYPTION), file, p).None? by {
      NotAtLineStart(file, ENCRYPTION);
    }
    NotAtLineStart(file, VERSIONED);
    var c := Captured(n + 1, n + 2, n + 12, n + 15);
    assert FirstMatch(PropertyLine(ENCRYPTION), file, 0) == Some(c);
    assert FirstMatch(PropertyLine(ENCRYPTION), file, n + 15).None?;
  }

  lemma NotAtLineStart(t: string, word: string)
    ensures forall p :: 0 <= p <= |t| && !LineStart(t, p) ==> MatchAt(PropertyLine(word), t, p).None?
  {
  }

  lemma SamplePatched(head: string)
    requires HeadLine(head)
    ensures var file := head + TAIL;
            CdkPatch(file, Some((0, |file|)), true).Ok? && file[|head| + 1..|head| + 2] == "\n"
  {
    var n, file := |head|, head + TAIL;
    SampleText(head);
    SampleFound(head);
    hide Matches, FirstMatch, HeadLine, Insertion;
    assert file[0..|file|] == file;
  }

  /** Every construct of this form is patched, and not by one line: the blank line is copied. */
  lemma BlankLineIsCopied(head: string)
    requires HeadLine(head)
    ensures var file := head + TAIL;
            && CdkPatch(file, Some((0, |file|)), true) == Ok(Inserted(file, |head| + 15, "\n"))
            && !OneLineMore(file, |head| + 15, "\n")
  {
    var n, file := |head|, head + TAIL;
    SampleFound(head);
    SamplePatched(head);
    hide Matches, FirstMatch, HeadLine, Inserted, OneLineMore, BlankLineBefore, CdkPatch;
    assert file[0..|file|] == file;
    CdkPatchOneLineIff(file, (0, |file|));
    OneLineMoreIff(file, n + 15, "\n");
    assert "\n"[0] == '\n';
  }

  // ----- The Terraform patch -----

  /** The S3 branch of `_materialize_control_patch`; the linked block is the lines `start..stop`. */
  function TerraformPatch(original: string, start: nat, stop: nat, requested: bool): Result<string, PatchError>
    requires start <= stop <= |Lines(original)|
  {
    var lines := Lines(original);
    var block := Joined(lines[start..stop]);
    var found := Matches(StatusLiteral, block, 0);
    if !requested then Err(NotRequested)
    else if |found| != 1 then Err(NotOneMatch)
    else
      var changed := block[..found[0].key] + ENABLED + block[found[0].keyEnd..];
      Ok(Joined(lines[..start]) + changed + Joined(lines[stop..]))
  }

  lemma {:induction false} JoinedConcat(a: seq<string>, b: seq<string>)
    ensures Joined(a + b) == Joined(a) + Joined(b)
  {
    if b == [] {
      assert a + b == a;
    } else {
      JoinedConcat(a, b[..|b| - 1]);
      assert (a + b)[..|a + b| - 1] == a + b[..|b| - 1];
    }
  }

  /** The lines of a text make up the text. */
  lemma {:induction false} JoinedLines(t: string)
    ensures Joined(Lines(t)) == t
    decreases |t|
  {
    if t != "" {
      var end := SkipLine(t, 0);
      JoinedLines(t[end..]);
      JoinedConcat([t[..end]], Lines(t[end..]));
      assert Joined([t[..end]]) == t[..end] by { assert [t[..end]][..0] == []; }
    }
  }

  /** Consecutive lines: each is one line, and each but the last is complete. */
  predicate AreLines(lines: seq<string>) {
    forall i :: 0 <= i < |lines| ==> OneLine(lines[i]) && (i < |lines| - 1 ==> Complete(lines[i]))
  }

  /** Joined and split again they are the same lines. */
  lemma {:induction false} LinesJoined(lines: seq<string>)
    requires AreLines(lines)
    ensures Lines(Joined(lines)) == lines
    ensures lines != [] && Complete(lines[|lines| - 1]) ==> LineOf(Joined(lines)) == |lines|
  {
    if lines != [] {
      hide Lines, LineOf, OneLine, Complete;
      var shorter, last := lines[..|lines| - 1], lines[|lines| - 1];
      assert forall i :: 0 <= i < |shorter| ==> shorter[i] == lines[i];
      LinesJoined(shorter);
      if shorter != [] { JoinedComplete(shorter); }
      assert Lines(Joined(shorter) + last) == Lines(Joined(shorter)) + Lines(last) by {
        LinesConcat(Joined(shorter), last);
      }
      WholeLine(last);
      LineOfConcat(Joined(shorter), last);
      assert shorter == [] ==> LineOf(Joined(shorter)) == 0 by { NoLineFeed(""); }
      assert lines == shorter + [last];
    } else {
      assert Lines("") == [];
    }
  }

  lemma JoinedComplete(lines: seq<string>)
    requires lines != [] && Complete(lines[|lines| - 1])
    ensures Complete(Joined(lines))
  {
  }

  lemma WholeLine(line: string)
    requires OneLine(line)
    ensures Lines(line) == [line] && (Complete(line) ==> LineOf(line) == 1)
  {
    LineEndsAtFirstFeed(line, 0);
    assert line[..|line|] == line && line[|line|..] == "";
    if Complete(line) {
      assert forall k :: 0 <= k < |line| - 1 ==> line[..|line| - 1][k] == line[k];
      NoLineFeed(line[..|line| - 1]);
    }
  }

  lemma SlicesAreLines(t: string, i: nat, k: nat)
    requires i <= k <= |Lines(t)|
    ensures AreLines(Lines(t)[i..k])
    ensures 0 < k < |Lines(t)| ==> Complete(Lines(t)[k - 1])
  {
    forall j | 0 <= j < |Lines(t)| ensures OneLine(Lines(t)[j]) && (j < |Lines(t)| - 1 ==> Complete(Lines(t)[j])) {
      LineShape(t, j);
    }
    assert forall j :: 0 <= j < k - i ==> Lines(t)[i..k][j] == Lines(t)[i + j];
  }

  lemma LiteralsHaveNoFeed()
    ensures '\n' !in ENABLED && '\n' !in DISABLED && '\n' !in SUSPENDED
  {
  }

  lemma LiteralTexts()
    ensures ENABLED == "\"Enabled\"" && DISABLED == "\"Disabled\"" && SUSPENDED == "\"Suspended\""
    ensures ENCRYPTION == "encryption" && VERSIONED == "versioned" && STATUS == "status"
  {
  }

  /** The file as the parts before and after the literal of the block. */
  lemma SplitAtLiteral(original: string, start: nat, stop: nat, key: nat, keyEnd: nat)
    requires start <= stop <= |Lines(original)| && key <= keyEnd <= |Joined(Lines(original)[start..stop])|
    ensures var lines := Lines(original);
            var block := Joined(lines[start..stop]);
            original == (Joined(lines[..start]) + block[..key]) + block[key..keyEnd] + (block[keyEnd..] + Joined(lines[stop..]))
  {
    hide Lines, Joined;
    var lines := Lines(original);
    JoinedLines(original);
    JoinedConcat(lines[..start], lines[start..stop] + lines[stop..]);
    JoinedConcat(lines[start..stop], lines[stop..]);
    assert lines == lines[..start] + (lines[start..stop] + lines[stop..]);
  }

  /** A line that starts in the block stays in it. */
  lemma LineInBlock(original: string, start: nat, stop: nat, key: nat, keyEnd: nat)
    requires start <= stop <= |Lines(original)| && key < keyEnd <= |Joined(Lines(original)[start..stop])|
    requires '\n' !in Joined(Lines(original)[start..stop])[key..keyEnd]
    ensures var block := Joined(Lines(original)[start..stop]);
            && LineOf(block[..key]) < stop - start
            && LineOf(Joined(Lines(original)[..start]) + block[..key]) == start + LineOf(block[..key])
  {
    var lines := Lines(original);
    var block := Joined(lines[start..stop]);
    SlicesAreLines(original, start, stop);
    SlicesAreLines(original, 0, start);
    assert lines[0..start] == lines[..start];
    LinesJoined(lines[start..stop]);
    LinesJoined(lines[..start]);
    hide Lines, LineOf, AreLines;
    assert block == block[..key] + block[key..keyEnd] + block[keyEnd..];
    LiteralsHaveNoFeed();
    OnlyItsLineChanges(block[..key], block[key..keyEnd], ENABLED, block[keyEnd..]);
    LineOfConcat(Joined(lines[..start]), block[..key]);
    if start == 0 { NoLineFeed(""); assert lines[..start] == []; }
  }

  /** The one match of a patch that is made. */
  lemma TheLiteral(original: string, start: nat, stop: nat)
    requires start <= stop <= |Lines(original)| && TerraformPatch(original, start, stop, true).Ok?
    ensures var block := Joined(Lines(original)[start..stop]);
            var found := Matches(StatusLiteral, block, 0);
            && |found| == 1 && found[0].key < found[0].keyEnd <= |block|
            && block[found[0].key..found[0].keyEnd] in {DISABLED, SUSPENDED}
            && TerraformPatch(original, start, stop, true).value ==
                 Joined(Lines(original)[..start]) + (block[..found[0].key] + ENABLED + block[found[0].keyEnd..])
                 + Joined(Lines(original)[stop..])
  {
    hide Lines, Joined;
    var block := Joined(Lines(original)[start..stop]);
    var c := Matches(StatusLiteral, block, 0)[0];
    assert FirstMatch(StatusLiteral, block, 0) == Some(c);
    assert StatusAt(block, c.start) == Some(c);
  }

  /** A patch that is made replaces the one literal of the linked block: one line of that block changes, from a disabled
      or suspended status to an enabled one and in nothing else, and no other line of the file. */
  lemma TerraformPatchChangesOneLine(original: string, start: nat, stop: nat)
    requires start <= stop <= |Lines(original)| && TerraformPatch(original, start, stop, true).Ok?
    ensures var block := Joined(Lines(original)[start..stop]);
            var found := Matches(StatusLiteral, block, 0);
            var was, now := Lines(original), Lines(TerraformPatch(original, start, stop, true).value);
            && |found| == 1 && found[0].key < found[0].keyEnd <= |block|
            && block[found[0].key..found[0].keyEnd] in {DISABLED, SUSPENDED}
            && var changed := start + LineOf(block[..found[0].key]);
            && start <= changed < stop && |now| == |was|
            && (forall i :: 0 <= i < |was| && i != changed ==> now[i] == was[i])
            && (Swapped(was[changed], now[changed], DISABLED, ENABLED) || Swapped(was[changed], now[changed], SUSPENDED, ENABLED))
  {
    var before, literal, after := PatchText(original, start, stop);
    LineSwapped(original, TerraformPatch(original, start, stop, true).value, before, literal, after);
    hide *;
  }

  lemma LineSwapped(original: string, patched: string, before: string, literal: string, after: string)
    requires literal in {DISABLED, SUSPENDED}
    requires original == before + literal + after && patched == before + ENABLED + after
    ensures var was, now := Lines(original), Lines(patched);
            && |was| == |now| && LineOf(before) < |was|
            && (forall i :: 0 <= i < |was| && i != LineOf(before) ==> was[i] == now[i])
            && (|| Swapped(was[LineOf(before)], now[LineOf(before)], DISABLED, ENABLED)
                || Swapped(was[LineOf(before)], now[LineOf(before)], SUSPENDED, ENABLED))
  {
    LiteralsHaveNoFeed();
    OnlyItsLineChanges(before, literal, ENABLED, after);
    hide *;
  }

  /** The file and its patch as the same two parts around the literal, and the line it is on. */
  lemma PatchText(original: string, start: nat, stop: nat) returns (before: string, literal: string, after: string)
    requires start <= stop <= |Lines(original)| && TerraformPatch(original, start, stop, true).Ok?
    ensures var block := Joined(Lines(original)[start..stop]);
            var found := Matches(StatusLiteral, block, 0);
            && |found| == 1 && found[0].key < found[0].keyEnd <= |block|
            && literal == block[found[0].key..found[0].keyEnd] && literal in {DISABLED, SUSPENDED}
            && start <= LineOf(before) == start + LineOf(block[..found[0].key]) < stop
    ensures original == before + literal + after
    ensures TerraformPatch(original, start, stop, true).value == before + ENABLED + after
  {
    TheLiteral(original, start, stop);
    LiteralsHaveNoFeed();
    hide Lines, LineOf, Matches, FirstMatch, Joined, TerraformPatch;
    var lines := Lines(original);
    var block := Joined(lines[start..stop]);
    var c := Matches(StatusLiteral, block, 0)[0];
    SplitAtLiteral(original, start, stop, c.key, c.keyEnd);
    LineInBlock(original, start, stop, c.key, c.keyEnd);
    before, literal, after := Joined(lines[..start]) + block[..c.key], block[c.key..c.keyEnd], block[c.keyEnd..] + Joined(lines[stop..]);
    Regroup(Joined(lines[..start]), block[..c.key], ENABLED, block[c.keyEnd..], Joined(lines[stop..]));
  }

  lemma Regroup(a: string, b: string, c: string, d: string, e: string)
    ensures a + (b + c + d) + e == (a + b) + c + (d + e)
  {
  }
}
