/**
 * The upload-name machinery that lib/edtech/module-media.ts and
 * lib/edtech/policy-file.ts each carry a copy of: the regular expression that
 * finds a file's extension, and the chain of `replace` calls that turns a file
 * name's stem into a storage-safe one.
 */
module FileNames {
  import opened Wrappers
  import opened Text

  // ---------------------------------------------------------------------------
  // Extension: /\.([a-zA-Z0-9]+)$/
  // ---------------------------------------------------------------------------

  /** The length of the longest suffix of `s` made of ASCII letters and digits. */
  function AlnumSuffixLength(s: string): (n: nat)
    ensures n <= |s|
    ensures forall j :: |s| - n <= j < |s| ==> IsAsciiAlnum(s[j])
    ensures n < |s| ==> !IsAsciiAlnum(s[|s| - n - 1])
  {
    if s == [] || !IsAsciiAlnum(s[|s| - 1]) then 0
    else 1 + AlnumSuffixLength(s[..|s| - 1])
  }

  /** `s` ends with a dot at index `k` followed only by one or more letters and digits. */
  predicate DotExtensionAt(s: string, k: int) {
    0 <= k < |s| - 1 && s[k] == '.' && AllAlnum(s[k + 1..])
  }

  /**
   * The capture group of /\.([a-zA-Z0-9]+)$/ on `s`, or None when the regex
   * does not match. Completeness (every dot followed only by letters and
   * digits is found) is `ExtensionMatchFindsEveryExtension`.
   */
  function ExtensionMatch(s: string): (r: Option<string>)
    ensures r.Some? ==> DotExtensionAt(s, |s| - |r.value| - 1) && r.value == s[|s| - |r.value|..]
  {
    var n := AlnumSuffixLength(s);
    if 0 < n < |s| && s[|s| - n - 1] == '.' then Some(s[|s| - n..]) else None
  }

  /** The tail after a dot that ends the string with letters and digits is the longest such suffix. */
  lemma DotExtensionIsLongestSuffix(s: string, k: int)
    requires DotExtensionAt(s, k)
    ensures AlnumSuffixLength(s) == |s| - k - 1
  {
    var n := AlnumSuffixLength(s);
    assert forall j :: k + 1 <= j < |s| ==> IsAsciiAlnum(s[j]) by {
      forall j | k + 1 <= j < |s| ensures IsAsciiAlnum(s[j]) {
        assert s[j] == s[k + 1..][j - k - 1];
      }
    }
  }

  /** The regex matches every name that ends with a dot and one or more letters and digits, and captures that tail. */
  lemma ExtensionMatchFindsEveryExtension(s: string, k: int)
    requires DotExtensionAt(s, k)
    ensures ExtensionMatch(s) == Some(s[k + 1..])
  {
    DotExtensionIsLongestSuffix(s, k);
  }

  // ---------------------------------------------------------------------------
  // Stem sanitisation
  // ---------------------------------------------------------------------------

  /**
   * `s.replace(/[C]+/g, "-")`: every maximal run of characters of class `inClass`
   * becomes one "-" (emitted where the run ends); other characters are kept.
   */
  function ReplaceRuns(s: string, inClass: char -> bool): (r: string)
    ensures |r| <= |s|
    ensures forall i :: 0 <= i < |r| ==> r[i] == '-' || !inClass(r[i])
    ensures r == [] <==> s == []
    ensures s != [] ==> r[0] == if inClass(s[0]) then '-' else s[0]
  {
    if s == [] then []
    else if inClass(s[0]) then
      if |s| > 1 && inClass(s[1]) then ReplaceRuns(s[1..], inClass)
      else "-" + ReplaceRuns(s[1..], inClass)
    else [s[0]] + ReplaceRuns(s[1..], inClass)
  }

  predicate IsPathSeparator(c: char) { c == '/' || c == '\\' }
  predicate IsDash(c: char) { c == '-' }

  /** The characters a safe stem may contain: [a-zA-Z0-9._-]. */
  predicate IsSafeChar(c: char) { IsAsciiAlnum(c) || c == '.' || c == '_' || c == '-' }
  predicate IsUnsafe(c: char) { !IsSafeChar(c) }

  /** The characters stripped from both ends: [._-]. */
  predicate IsEdgeChar(c: char) { c == '.' || c == '_' || c == '-' }

  predicate AllSafe(s: string) { forall i :: 0 <= i < |s| ==> IsSafeChar(s[i]) }
  predicate NoDoubleDash(s: string) { forall i :: 0 <= i < |s| - 1 ==> !(s[i] == '-' && s[i + 1] == '-') }

  /** `.replace(/^[._-]+|[._-]+$/g, "")`: the longest [._-] prefix and suffix removed. */
  function StripEdges(s: string): (r: string)
    ensures EdgeFront(s) + |r| <= |s|
    ensures forall k :: 0 <= k < |r| ==> r[k] == s[EdgeFront(s) + k]
    ensures |r| == |s| - EdgeFront(s) - EdgeBack(s[EdgeFront(s)..])
    ensures r == [] || (!IsEdgeChar(r[0]) && !IsEdgeChar(r[|r| - 1]))
    ensures r == [] <==> forall i :: 0 <= i < |s| ==> IsEdgeChar(s[i])
  {
    var u := s[EdgeFront(s)..];
    u[..|u| - EdgeBack(u)]
  }

  /** The length of the longest [._-] prefix. */
  function EdgeFront(s: string): (n: nat)
    ensures n <= |s| && (n == |s| || !IsEdgeChar(s[n]))
    ensures forall j :: 0 <= j < n ==> IsEdgeChar(s[j])
  {
    if s == [] || !IsEdgeChar(s[0]) then 0 else 1 + EdgeFront(s[1..])
  }

  /** The length of the longest [._-] suffix. */
  function EdgeBack(s: string): (n: nat)
    ensures n <= |s| && (n == |s| || !IsEdgeChar(s[|s| - n - 1]))
    ensures forall j :: |s| - n <= j < |s| ==> IsEdgeChar(s[j])
  {
    if s == [] || !IsEdgeChar(s[|s| - 1]) then 0 else 1 + EdgeBack(s[..|s| - 1])
  }

  /**
   * The `replace` chain of `sanitizeFileStem` before the empty check and the
   * 64-character cut. The leading NFKD `normalize` is not modelled.
   */
  function NormalizeStem(name: string): (r: string)
    ensures |r| <= |name|
    ensures name == [] ==> r == []
    ensures r == [] || (!IsEdgeChar(r[0]) && !IsEdgeChar(r[|r| - 1]))
  {
    var noSeparators := ReplaceRuns(name, IsPathSeparator);
    var noSpaces := ReplaceRuns(noSeparators, IsSpace);
    var onlySafe := ReplaceRuns(noSpaces, IsUnsafe);
    var collapsed := ReplaceRuns(onlySafe, IsDash);
    StripEdges(collapsed)
  }

  /** A stem a storage path can carry: non-empty, short, safe characters, no "--", no leading [._-]. */
  predicate SafeStem(s: string) {
    && 0 < |s| <= 64
    && AllSafe(s)
    && NoDoubleDash(s)
    && !IsEdgeChar(s[0])
  }

  /** `sanitizeFileStem` with the fallback stem of the calling file ("media" or "policy"). */
  function SanitizeFileStem(name: string, fallback: string): (r: string)
    ensures NormalizeStem(name) == [] ==> r == fallback
    ensures NormalizeStem(name) != [] ==>
      && SafeStem(r)
      && StartsWith(NormalizeStem(name), r)
      && |r| == if |NormalizeStem(name)| < 64 then |NormalizeStem(name)| else 64
  {
    var normalized := NormalizeStem(name);
    if normalized == [] then fallback
    else
      NormalizedIsSafe(name);
      var r := normalized[..if |normalized| < 64 then |normalized| else 64];
      assert r[0] == normalized[0];
      r
  }

  /** With a safe fallback, the sanitised stem is always safe. */
  lemma SanitizedStemIsSafe(name: string, fallback: string)
    requires SafeStem(fallback)
    ensures SafeStem(SanitizeFileStem(name, fallback))
  {
  }

  /** Removing runs of dashes leaves no two dashes side by side. */
  lemma {:induction false} CollapsedHasNoDoubleDash(s: string)
    ensures NoDoubleDash(ReplaceRuns(s, IsDash))
  {
    if s != [] {
      CollapsedHasNoDoubleDash(s[1..]);
      var tail := ReplaceRuns(s[1..], IsDash);
      if IsDash(s[0]) && !(|s| > 1 && IsDash(s[1])) {
        assert ReplaceRuns(s, IsDash) == "-" + tail;
        assert tail == [] || tail[0] == s[1];
      }
    }
  }

  /** Replacing runs keeps a string within [a-zA-Z0-9._-]: what it inserts is "-". */
  lemma {:induction false} ReplaceRunsKeepsSafe(s: string, inClass: char -> bool)
    requires AllSafe(s)
    ensures AllSafe(ReplaceRuns(s, inClass))
  {
    if s != [] {
      ReplaceRunsKeepsSafe(s[1..], inClass);
    }
  }

  /** A substring of a safe string without "--" is again safe and without "--". */
  lemma StripEdgesKeepsSafe(s: string)
    requires AllSafe(s) && NoDoubleDash(s)
    ensures AllSafe(StripEdges(s)) && NoDoubleDash(StripEdges(s))
  {
    var r := StripEdges(s);
    var f := EdgeFront(s);
    forall k | 0 <= k < |r| - 1 ensures !(r[k] == '-' && r[k + 1] == '-') {
      assert r[k] == s[f + k] && r[k + 1] == s[f + k + 1];
    }
  }

  /** Every character the chain keeps or inserts is in [a-zA-Z0-9._-], and no "--" is left. */
  lemma NormalizedIsSafe(name: string)
    ensures AllSafe(NormalizeStem(name)) && NoDoubleDash(NormalizeStem(name))
  {
    var noSeparators := ReplaceRuns(name, IsPathSeparator);
    var noSpaces := ReplaceRuns(noSeparators, IsSpace);
    var onlySafe := ReplaceRuns(noSpaces, IsUnsafe);
    var collapsed := ReplaceRuns(onlySafe, IsDash);
    assert AllSafe(onlySafe);
    ReplaceRunsKeepsSafe(onlySafe, IsDash);
    CollapsedHasNoDoubleDash(onlySafe);
    StripEdgesKeepsSafe(collapsed);
  }

  /** Outside the class, `replace` changes nothing. */
  lemma {:induction false} ReplaceRunsNoMatch(s: string, inClass: char -> bool)
    requires forall i :: 0 <= i < |s| ==> !inClass(s[i])
    ensures ReplaceRuns(s, inClass) == s
  {
    if s != [] {
      ReplaceRunsNoMatch(s[1..], inClass);
    }
  }

  /** `replace` works piecewise across a boundary that does not fall inside a run. */
  lemma {:induction false} ReplaceRunsSplit(a: string, b: string, inClass: char -> bool)
    requires a == [] || b == [] || !inClass(a[|a| - 1]) || !inClass(b[0])
    ensures ReplaceRuns(a + b, inClass) == ReplaceRuns(a, inClass) + ReplaceRuns(b, inClass)
  {
    if a == [] {
      assert a + b == b;
    } else {
      assert (a + b)[1..] == a[1..] + b;
      ReplaceRunsSplit(a[1..], b, inClass);
    }
  }

  /** A whole non-empty run of class characters becomes a single "-". */
  lemma {:induction false} ReplaceRunsOfRun(u: string, inClass: char -> bool)
    requires u != [] && forall i :: 0 <= i < |u| ==> inClass(u[i])
    ensures ReplaceRuns(u, inClass) == "-"
  {
    if |u| > 1 {
      ReplaceRunsOfRun(u[1..], inClass);
    }
  }

  /** A run followed by text that does not continue it becomes "-" and that text's replacement. */
  lemma ReplaceRunThen(u: string, y: string, inClass: char -> bool)
    requires u != [] && forall i :: 0 <= i < |u| ==> inClass(u[i])
    requires y == [] || !inClass(y[0])
    ensures ReplaceRuns(u + y, inClass) == "-" + ReplaceRuns(y, inClass)
  {
    ReplaceRunsSplit(u, y, inClass);
    ReplaceRunsOfRun(u, inClass);
  }

  /**
   * A maximal run (nothing of the class right before or after it) becomes one
   * "-", and the text on either side is replaced independently.
   */
  lemma ReplaceRunBetween(x: string, u: string, y: string, inClass: char -> bool)
    requires u != [] && forall i :: 0 <= i < |u| ==> inClass(u[i])
    requires x == [] || !inClass(x[|x| - 1])
    requires y == [] || !inClass(y[0])
    ensures ReplaceRuns(x + (u + y), inClass) == ReplaceRuns(x, inClass) + ("-" + ReplaceRuns(y, inClass))
  {
    var uy := u + y;
    assert uy[0] == u[0];
    ReplaceRunThen(u, y, inClass);
    ReplaceRunsSplit(x, uy, inClass);
  }

  /** A single class character after a class-free piece becomes one "-" when no run continues after it. */
  lemma ReplaceOneRun(a: string, c: char, b: string, inClass: char -> bool)
    requires forall i :: 0 <= i < |a| ==> !inClass(a[i])
    requires inClass(c)
    requires b == [] || !inClass(b[0])
    ensures ReplaceRuns(a + [c] + b, inClass) == a + "-" + ReplaceRuns(b, inClass)
  {
    ReplaceRunsSplit(a + [c], b, inClass);
    ReplaceRunsSplit(a, [c], inClass);
    ReplaceRunsNoMatch(a, inClass);
    assert ReplaceRuns([c], inClass) == "-";
  }

  /** Words of letters and digits: non-empty, and nothing else. */
  predicate AlnumWords(words: seq<string>) {
    forall k :: 0 <= k < |words| ==> words[k] != [] && AllAlnum(words[k])
  }

  /** Joined alphanumeric words start and end with a letter or digit, and hold only those and the separator. */
  lemma {:induction false} JoinedWords(words: seq<string>, sep: char)
    requires |words| >= 1 && AlnumWords(words)
    ensures var j := Join(words, [sep]);
      && j != []
      && IsAsciiAlnum(j[0]) && IsAsciiAlnum(j[|j| - 1])
      && forall i :: 0 <= i < |j| ==> IsAsciiAlnum(j[i]) || j[i] == sep
  {
    if |words| > 1 {
      JoinedWords(words[1..], sep);
      var rest := Join(words[1..], [sep]);
      var j := Join(words, [sep]);
      assert j == words[0] + [sep] + rest;
      forall i | 0 <= i < |j| ensures IsAsciiAlnum(j[i]) || j[i] == sep {
        if i < |words[0]| {
          assert j[i] == words[0][i];
        } else if i > |words[0]| {
          assert j[i] == rest[i - |words[0]| - 1];
        }
      }
    }
  }

  /** Words separated by single class characters come out separated by single dashes. */
  lemma {:induction false} ReplaceSeparatedWords(words: seq<string>, c: char, inClass: char -> bool)
    requires |words| >= 1 && AlnumWords(words)
    requires inClass(c)
    requires forall x :: IsAsciiAlnum(x) ==> !inClass(x)
    ensures ReplaceRuns(Join(words, [c]), inClass) == Join(words, "-")
  {
    if |words| == 1 {
      ReplaceRunsNoMatch(words[0], inClass);
    } else {
      var rest := words[1..];
      assert AlnumWords(rest);
      ReplaceSeparatedWords(rest, c, inClass);
      JoinedWords(rest, c);
      assert Join(words, [c]) == words[0] + [c] + Join(rest, [c]);
      ReplaceOneRun(words[0], c, Join(rest, [c]), inClass);
    }
  }

  /** A trailing character the sanitiser turns into "-" and then strips: neither safe, whitespace nor a path separator. */
  predicate StrayTail(tail: string) {
    tail == [] || (|tail| == 1 && IsUnsafe(tail[0]) && !IsSpace(tail[0]) && !IsPathSeparator(tail[0]))
  }

  function DashTail(tail: string): string {
    if tail == [] then "" else "-"
  }

  lemma SpacedWordsSeparators(words: seq<string>, space: char, tail: string)
    requires |words| >= 1 && AlnumWords(words) && IsSpace(space) && StrayTail(tail)
    ensures ReplaceRuns(Join(words, [space]) + tail, IsPathSeparator) == Join(words, [space]) + tail
  {
    JoinedWords(words, space);
    ReplaceRunsNoMatch(Join(words, [space]) + tail, IsPathSeparator);
  }

  lemma SpacedWordsSpaces(words: seq<string>, space: char, tail: string)
    requires |words| >= 1 && AlnumWords(words) && IsSpace(space) && StrayTail(tail)
    ensures ReplaceRuns(Join(words, [space]) + tail, IsSpace) == Join(words, "-") + tail
  {
    JoinedWords(words, space);
    ReplaceRunsSplit(Join(words, [space]), tail, IsSpace);
    ReplaceSeparatedWords(words, space, IsSpace);
    ReplaceRunsNoMatch(tail, IsSpace);
  }

  lemma DashedWordsUnsafe(words: seq<string>, tail: string)
    requires |words| >= 1 && AlnumWords(words) && StrayTail(tail)
    ensures ReplaceRuns(Join(words, "-") + tail, IsUnsafe) == Join(words, "-") + DashTail(tail)
  {
    var dashed := Join(words, "-");
    JoinedWords(words, '-');
    if tail == [] {
      assert dashed + tail == dashed;
      ReplaceRunsNoMatch(dashed, IsUnsafe);
    } else {
      assert dashed + tail == dashed + [tail[0]] + [];
      ReplaceOneRun(dashed, tail[0], [], IsUnsafe);
    }
  }

  lemma DashedWordsDashes(words: seq<string>, tail: string)
    requires |words| >= 1 && AlnumWords(words)
    ensures ReplaceRuns(Join(words, "-") + DashTail(tail), IsDash) == Join(words, "-") + DashTail(tail)
  {
    JoinedWords(words, '-');
    ReplaceRunsSplit(Join(words, "-"), DashTail(tail), IsDash);
    ReplaceSeparatedWords(words, '-', IsDash);
    assert ReplaceRuns(DashTail(tail), IsDash) == DashTail(tail);
  }

  lemma DashedWordsStrip(words: seq<string>, tail: string)
    requires |words| >= 1 && AlnumWords(words)
    ensures StripEdges(Join(words, "-") + DashTail(tail)) == Join(words, "-")
  {
    var dashed := Join(words, "-");
    JoinedWords(words, '-');
    var d := dashed + DashTail(tail);
    assert d[0] == dashed[0];
    assert EdgeFront(d) == 0;
    assert d[EdgeFront(d)..] == d;
    assert EdgeBack(dashed) == 0;
    if tail != [] {
      assert d[..|d| - 1] == dashed;
      assert EdgeBack(d) == 1;
    }
    assert d[..|d| - EdgeBack(d)] == dashed;
  }

  /**
   * A name made of alphanumeric words separated by single whitespace
   * characters, optionally followed by one stray character, normalises to the
   * words joined by dashes.
   */
  lemma NormalizeSpacedWords(words: seq<string>, space: char, tail: string)
    requires |words| >= 1 && AlnumWords(words)
    requires IsSpace(space) && StrayTail(tail)
    ensures NormalizeStem(Join(words, [space]) + tail) == Join(words, "-")
  {
    SpacedWordsSeparators(words, space, tail);
    SpacedWordsSpaces(words, space, tail);
    DashedWordsUnsafe(words, tail);
    DashedWordsDashes(words, tail);
    DashedWordsStrip(words, tail);
  }

  // ---------------------------------------------------------------------------
  // The shared front half of both upload normalisers
  // ---------------------------------------------------------------------------

  /** The `VALIDATION_ERROR`s an upload name can raise, by cause. */
  datatype UploadError =
    | EmptyName
    | MissingExtension
    | UnsupportedExtension
    | MimeMismatch(extension: string, mimeType: string)
    | UnsupportedKind

  /** The trimmed name before its extension, and the lower-cased extension. */
  datatype NameParts = NameParts(base: string, extension: string)

  predicate AllLowerAlnum(s: string) {
    forall i :: 0 <= i < |s| ==> IsAsciiLower(s[i]) || IsAsciiDigit(s[i])
  }

  /**
   * Trim the name, reject it when empty, find its extension with
   * /\.([a-zA-Z0-9]+)$/, lower-case the extension and cut it (and the dot)
   * off to get the base name.
   */
  function SplitUploadName(fileName: string): (r: Result<NameParts, UploadError>)
    ensures Trim(fileName) == [] ==> r == Err(EmptyName)
    ensures Trim(fileName) != [] && ExtensionMatch(Trim(fileName)).None? ==> r == Err(MissingExtension)
    ensures r.Err? ==> r.error == EmptyName || r.error == MissingExtension
    ensures r.Ok? ==>
      var t, base, ext := Trim(fileName), r.value.base, r.value.extension;
      && |t| == |base| + 1 + |ext|
      && t[..|base|] == base
      && DotExtensionAt(t, |base|)
      && ext == Lower(t[|base| + 1..])
      && ext != [] && AllLowerAlnum(ext)
  {
    var t := Trim(fileName);
    if t == [] then Err(EmptyName)
    else match ExtensionMatch(t)
      case None => Err(MissingExtension)
      case Some(ext) => Ok(NameParts(t[..|t| - |ext| - 1], Lower(ext)))
  }

  /** A trimmed `base.ext` name splits back into `base` and the lower-cased `ext`. */
  lemma SplitOfJoinedName(base: string, ext: string)
    requires ext != [] && AllAlnum(ext)
    requires Trimmed(base + "." + ext)
    ensures SplitUploadName(base + "." + ext) == Ok(NameParts(base, Lower(ext)))
  {
    var t := base + "." + ext;
    TrimOfTrimmed(t);
    assert t[|base| + 1..] == ext;
    assert DotExtensionAt(t, |base|);
    ExtensionMatchFindsEveryExtension(t, |base|);
    assert t[..|base|] == base;
  }

  /** `${stem}.${extension}`: the stem, a dot and the extension, each recoverable from the whole. */
  function DottedName(stem: string, ext: string): (n: string)
    ensures |n| == |stem| + 1 + |ext|
    ensures n[..|stem|] == stem && n[|stem|] == '.' && n[|stem| + 1..] == ext
  {
    stem + "." + ext
  }

  /**
   * A name made of alphanumeric words separated by one whitespace character,
   * optionally followed by one stray symbol, then a dot and a lower-case
   * extension ("AI Policy Final 2026!.pdf", "architecture diagram.png")
   * splits at that dot, and its base sanitises to the words joined by dashes
   * ("AI-Policy-Final-2026", "architecture-diagram") when those fit in 64
   * characters.
   */
  lemma SpacedWordsName(words: seq<string>, space: char, tail: string, ext: string, fallback: string)
    requires |words| >= 1 && AlnumWords(words) && IsSpace(space) && StrayTail(tail)
    requires ext != [] && AllLowerAlnum(ext)
    requires |Join(words, "-")| <= 64
    ensures
      var base := Join(words, [space]) + tail;
      && SplitUploadName(base + "." + ext) == Ok(NameParts(base, ext))
      && SanitizeFileStem(base, fallback) == Join(words, "-")
  {
    SpacedWordsSplit(words, space, tail, ext);
    SpacedWordsStem(words, space, tail, fallback);
  }

  lemma SpacedWordsSplit(words: seq<string>, space: char, tail: string, ext: string)
    requires |words| >= 1 && AlnumWords(words) && IsSpace(space) && StrayTail(tail)
    requires ext != [] && AllLowerAlnum(ext)
    ensures
      var base := Join(words, [space]) + tail;
      SplitUploadName(base + "." + ext) == Ok(NameParts(base, ext))
  {
    JoinedWords(words, space);
    SplitOfLowerName(Join(words, [space]) + tail, ext);
  }

  /** A name that does not start with whitespace, a dot and a lower-case extension split back into the two. */
  lemma SplitOfLowerName(base: string, ext: string)
    requires base != [] && !IsSpace(base[0])
    requires ext != [] && AllLowerAlnum(ext)
    ensures SplitUploadName(base + "." + ext) == Ok(NameParts(base, ext))
  {
    var name := base + "." + ext;
    assert name[0] == base[0];
    assert name[|name| - 1] == ext[|ext| - 1];
    LowerOfLowerAlnum(ext);
    SplitOfJoinedName(base, ext);
  }

  lemma LowerOfLowerAlnum(ext: string)
    requires AllLowerAlnum(ext)
    ensures AllAlnum(ext) && Lower(ext) == ext
  {
  }

  lemma SpacedWordsStem(words: seq<string>, space: char, tail: string, fallback: string)
    requires |words| >= 1 && AlnumWords(words) && IsSpace(space) && StrayTail(tail)
    requires |Join(words, "-")| <= 64
    ensures SanitizeFileStem(Join(words, [space]) + tail, fallback) == Join(words, "-")
  {
    var base := Join(words, [space]) + tail;
    JoinedWords(words, '-');
    NormalizeSpacedWords(words, space, tail);
    var r := SanitizeFileStem(base, fallback);
    assert r == Join(words, "-")[..|r|];
  }
}
