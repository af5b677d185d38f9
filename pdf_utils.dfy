/** The report's file-name sanitiser (lib/pdf-utils.ts, `formatCompanyName`): trim, turn
    each run of whitespace into one '_', then drop every character that is not an ASCII
    letter, digit or '_'. */
module PdfUtils {
  import opened Collections
  import opened JsNumbers

  /** The characters JavaScript's `\s` matches and `trim` removes: the ASCII blanks and
      line terminators, the Unicode space separators, and the byte-order mark. */
  predicate IsSpace(c: char)
  {
    c == ' ' || c == '\t' || c == '\n' || c == '\r' || c == '\U{000B}' || c == '\U{000C}' ||
    c == '\U{00A0}' || c == '\U{1680}' || ('\U{2000}' <= c <= '\U{200A}') ||
    c == '\U{2028}' || c == '\U{2029}' || c == '\U{202F}' || c == '\U{205F}' ||
    c == '\U{3000}' || c == '\U{FEFF}'
  }

  /** `[a-zA-Z0-9_]`. */
  predicate IsWordChar(c: char)
  {
    ('a' <= c <= 'z') || ('A' <= c <= 'Z') || IsDigit(c) || c == '_'
  }

  /** A letter or digit: a word character other than '_'. */
  predicate IsAlphanumeric(c: char)
  {
    IsWordChar(c) && c != '_'
  }

  predicate NoSpace(s: string)
  {
    forall i :: 0 <= i < |s| ==> !IsSpace(s[i])
  }

  predicate AllSpace(s: string)
  {
    forall i :: 0 <= i < |s| ==> IsSpace(s[i])
  }

  // ---------------------------------------------------------------------------
  // trim

  /** The index of the first character at or after `i` that is not whitespace, or `|s|`
      when there is none. */
  function SkipSpaces(s: string, i: nat): (n: nat)
    requires i <= |s|
    ensures i <= n <= |s|
    ensures forall k :: i <= k < n ==> IsSpace(s[k])
    ensures n == |s| || !IsSpace(s[n])
    decreases |s| - i
  {
    if i < |s| && IsSpace(s[i]) then SkipSpaces(s, i + 1) else i
  }

  /** The index just past the last character before `j` that is not whitespace, or 0 when
      there is none. */
  function BackSpaces(s: string, j: nat): (n: nat)
    requires j <= |s|
    ensures n <= j
    ensures forall k :: n <= k < j ==> IsSpace(s[k])
    ensures n == 0 || !IsSpace(s[n - 1])
  {
    if 0 < j && IsSpace(s[j - 1]) then BackSpaces(s, j - 1) else j
  }

  /** Any index past a whitespace run that ends at a non-whitespace character (or at the
      end) is the one `SkipSpaces` finds. */
  lemma SkipSpacesUnique(s: string, i: nat, n: nat)
    requires i <= n <= |s|
    requires forall k :: i <= k < n ==> IsSpace(s[k])
    requires n == |s| || !IsSpace(s[n])
    ensures SkipSpaces(s, i) == n
  {
  }

  /** Any index before a whitespace run that starts after a non-whitespace character (or
      at the start) is the one `BackSpaces` finds. */
  lemma BackSpacesUnique(s: string, j: nat, n: nat)
    requires n <= j <= |s|
    requires forall k :: n <= k < j ==> IsSpace(s[k])
    requires n == 0 || !IsSpace(s[n - 1])
    ensures BackSpaces(s, j) == n
  {
  }

  /** Removes the leading whitespace. */
  function TrimStart(s: string): (r: string)
    ensures |r| <= |s|
    ensures r == [] || !IsSpace(r[0])
  {
    s[SkipSpaces(s, 0)..]
  }

  /** Removes the trailing whitespace. */
  function TrimEnd(s: string): (r: string)
    ensures |r| <= |s|
    ensures r == [] || !IsSpace(r[|r| - 1])
  {
    s[..BackSpaces(s, |s|)]
  }

  /** `trim`: the leading and then the trailing whitespace removed. */
  function Trim(s: string): (r: string)
    ensures |r| <= |s|
  {
    TrimEnd(TrimStart(s))
  }

  /** `trim` keeps the slice of the text from its first to its last non-whitespace
      character: only whitespace lies around it, and it neither starts nor ends with
      whitespace. */
  lemma TrimShape(s: string)
    ensures var lo := SkipSpaces(s, 0); var hi := lo + |Trim(s)|;
      hi <= |s| && Trim(s) == s[lo..hi] &&
      (forall k :: 0 <= k < lo ==> IsSpace(s[k])) && (forall k :: hi <= k < |s| ==> IsSpace(s[k]))
    ensures Trim(s) == [] || (!IsSpace(Trim(s)[0]) && !IsSpace(Trim(s)[|Trim(s)| - 1]))
  {
    var lo := SkipSpaces(s, 0);
    var t := s[lo..];
    var m := BackSpaces(t, |t|);
    assert Trim(s) == t[..m] == s[lo..lo + m];
    assert forall k :: lo + m <= k < |s| ==> s[k] == t[k - lo];
    if m != 0 {
      assert t[..m][0] == t[0];
    }
  }

  /** A text without whitespace trims to itself. */
  lemma TrimNoSpace(s: string)
    requires NoSpace(s)
    ensures TrimStart(s) == s && TrimEnd(s) == s
  {
    assert SkipSpaces(s, 0) == 0;
    assert BackSpaces(s, |s|) == |s|;
  }

  /** Whitespace alone trims to nothing. */
  lemma TrimStartAllSpace(s: string)
    requires AllSpace(s)
    ensures TrimStart(s) == []
  {
  }

  /** Leading whitespace before `b` is all `TrimStart` removes. */
  lemma TrimStartAfterSpace(ws: string, b: string)
    requires AllSpace(ws)
    ensures TrimStart(ws + b) == TrimStart(b)
  {
    var s, n := ws + b, SkipSpaces(b, 0);
    assert forall k :: |ws| <= k < |s| ==> s[k] == b[k - |ws|];
    SkipSpacesUnique(s, 0, |ws| + n);
    assert s[|ws| + n..] == b[n..];
  }

  /** Trailing whitespace after `a` is all `TrimEnd` removes. */
  lemma TrimEndBeforeSpace(a: string, ws: string)
    requires AllSpace(ws)
    ensures TrimEnd(a + ws) == TrimEnd(a)
  {
    var s, n := a + ws, BackSpaces(a, |a|);
    assert forall k :: 0 <= k < |a| ==> s[k] == a[k];
    BackSpacesUnique(s, |s|, n);
    assert s[..n] == a[..n];
  }

  /** Once a non-whitespace character is met, what follows is kept as it is. */
  lemma TrimStartKeepsTail(a: string, b: string)
    requires !AllSpace(a)
    ensures TrimStart(a + b) == TrimStart(a) + b
  {
    var s, n := a + b, SkipSpaces(a, 0);
    assert forall k :: 0 <= k < |a| ==> s[k] == a[k];
    SkipSpacesUnique(s, 0, n);
    assert s[n..] == a[n..] + b;
  }

  // ---------------------------------------------------------------------------
  // replace(/\s+/g, '_')

  /** Each maximal run of whitespace becomes a single '_'. */
  function CollapseSpaces(s: string): (r: string)
    ensures |r| <= |s|
    ensures NoSpace(r)
    decreases |s|
  {
    if s == [] then []
    else if IsSpace(s[0]) then "_" + CollapseSpaces(TrimStart(s[1..]))
    else [s[0]] + CollapseSpaces(s[1..])
  }

  /** A string without whitespace is left as it is. */
  lemma {:induction false} CollapseNoSpace(s: string)
    requires NoSpace(s)
    ensures CollapseSpaces(s) == s
  {
    if s != [] {
      CollapseNoSpace(s[1..]);
    }
  }

  /** Characters other than whitespace pass through one by one. */
  lemma {:induction false} CollapseKeepsWord(w: string, s: string)
    requires NoSpace(w)
    ensures CollapseSpaces(w + s) == w + CollapseSpaces(s)
  {
    if w != [] {
      assert (w + s)[0] == w[0];
      assert (w + s)[1..] == w[1..] + s;
      CollapseKeepsWord(w[1..], s);
      assert [w[0]] + w[1..] == w;
    } else {
      assert w + s == s;
    }
  }

  /** A whole run of whitespace, however long, becomes one '_'. */
  lemma CollapseRun(ws: string, s: string)
    requires ws != [] && AllSpace(ws)
    requires s == [] || !IsSpace(s[0])
    ensures CollapseSpaces(ws + s) == "_" + CollapseSpaces(s)
  {
    assert (ws + s)[1..] == ws[1..] + s;
    TrimStartAfterSpace(ws[1..], s);
  }

  // ---------------------------------------------------------------------------
  // formatCompanyName

  /** `name.trim().replace(/\s+/g, '_').replace(/[^a-zA-Z0-9_]/g, '')`. */
  function FormatCompanyName(name: string): (r: string)
    ensures forall i :: 0 <= i < |r| ==> IsWordChar(r[i])
    ensures |r| <= |name|
  {
    var collapsed := CollapseSpaces(Trim(name));
    FilterMultiset(collapsed, IsWordChar);
    Filter(collapsed, IsWordChar)
  }

  /** An empty or whitespace-only name gives the empty file-name part. */
  lemma BlankNameIsEmpty(name: string)
    requires AllSpace(name)
    ensures FormatCompanyName(name) == ""
  {
    TrimStartAllSpace(name);
  }

  /** Whitespace before the name never turns into '_'. */
  lemma LeadingPaddingIgnored(ws: string, name: string)
    requires AllSpace(ws)
    ensures FormatCompanyName(ws + name) == FormatCompanyName(name)
  {
    TrimStartAfterSpace(ws, name);
  }

  /** Whitespace after the name never turns into '_'. */
  lemma TrailingPaddingIgnored(ws: string, name: string)
    requires AllSpace(ws)
    ensures FormatCompanyName(name + ws) == FormatCompanyName(name)
  {
    if AllSpace(name) {
      assert AllSpace(name + ws);
      TrimStartAllSpace(name + ws);
      TrimStartAllSpace(name);
    } else {
      TrimStartKeepsTail(name, ws);
      TrimEndBeforeSpace(TrimStart(name), ws);
    }
  }

  /** A name without whitespace keeps exactly its word characters, in order. */
  lemma NoSpaceNameKeepsWordChars(name: string)
    requires NoSpace(name)
    ensures FormatCompanyName(name) == Filter(name, IsWordChar)
  {
    TrimNoSpace(name);
    CollapseNoSpace(name);
  }

  /** Whitespace holds no letter or digit. */
  lemma {:induction false} SpacesHoldNoAlphanumerics(x: string)
    requires AllSpace(x)
    ensures Filter(x, IsAlphanumeric) == []
  {
    FilterNone(x, IsAlphanumeric);
  }

  /** Collapsing whitespace neither adds nor removes letters and digits. */
  lemma {:induction false} CollapseKeepsAlphanumerics(s: string)
    ensures Filter(CollapseSpaces(s), IsAlphanumeric) == Filter(s, IsAlphanumeric)
    decreases |s|
  {
    if s == [] {
    } else if IsSpace(s[0]) {
      var t := TrimStart(s[1..]);
      CollapseKeepsAlphanumerics(t);
      RunCollapsed(s, t);
    } else {
      CollapseKeepsAlphanumerics(s[1..]);
      CharKept(s);
    }
  }

  /** The step of `CollapseKeepsAlphanumerics` for a leading run of whitespace. */
  lemma RunCollapsed(s: string, t: string)
    requires s != [] && IsSpace(s[0]) && t == TrimStart(s[1..])
    requires Filter(CollapseSpaces(t), IsAlphanumeric) == Filter(t, IsAlphanumeric)
    ensures Filter(CollapseSpaces(s), IsAlphanumeric) == Filter(s, IsAlphanumeric)
  {
    UnderscoreDropped(CollapseSpaces(t));
    RunDropped(s, t);
  }

  lemma UnderscoreDropped(c: string)
    ensures Filter("_" + c, IsAlphanumeric) == Filter(c, IsAlphanumeric)
  {
    FilterAppend("_", c, IsAlphanumeric);
    FilterNone("_", IsAlphanumeric);
  }

  lemma SpaceIsNotAlphanumeric(c: char)
    requires IsSpace(c)
    ensures !IsAlphanumeric(c)
  {
  }

  lemma RunDropped(s: string, t: string)
    requires s != [] && IsSpace(s[0]) && t == TrimStart(s[1..])
    ensures Filter(s, IsAlphanumeric) == Filter(t, IsAlphanumeric)
  {
    FilterFront(s, IsAlphanumeric);
    SpaceIsNotAlphanumeric(s[0]);
    TrimStartKeepsAlphanumerics(s[1..]);
  }

  /** The step of `CollapseKeepsAlphanumerics` for a leading character that is kept. */
  lemma CharKept(s: string)
    requires s != [] && !IsSpace(s[0])
    requires Filter(CollapseSpaces(s[1..]), IsAlphanumeric) == Filter(s[1..], IsAlphanumeric)
    ensures Filter(CollapseSpaces(s), IsAlphanumeric) == Filter(s, IsAlphanumeric)
  {
    assert s == [s[0]] + s[1..];
    FilterAppend([s[0]], s[1..], IsAlphanumeric);
    FilterAppend([s[0]], CollapseSpaces(s[1..]), IsAlphanumeric);
  }

  /** Trimming the front removes whitespace only, so no letter or digit. */
  lemma TrimStartKeepsAlphanumerics(s: string)
    ensures Filter(TrimStart(s), IsAlphanumeric) == Filter(s, IsAlphanumeric)
  {
    var r := TrimStart(s);
    var run := s[..|s| - |r|];
    assert s == run + r;
    FilterAppend(run, r, IsAlphanumeric);
    SpacesHoldNoAlphanumerics(run);
  }

  /** Trimming the end removes whitespace only, so no letter or digit. */
  lemma TrimEndKeepsAlphanumerics(s: string)
    ensures Filter(TrimEnd(s), IsAlphanumeric) == Filter(s, IsAlphanumeric)
  {
    var r := TrimEnd(s);
    var run := s[|r|..];
    assert s == r + run;
    FilterAppend(r, run, IsAlphanumeric);
    SpacesHoldNoAlphanumerics(run);
  }

  /** Every ASCII letter and digit of the name survives, in its original order, and no
      other letter or digit appears. */
  lemma KeepsLettersAndDigits(name: string)
    ensures Filter(FormatCompanyName(name), IsAlphanumeric) == Filter(name, IsAlphanumeric)
  {
    var collapsed := CollapseSpaces(Trim(name));
    FilterFilter(collapsed, IsWordChar, IsAlphanumeric);
    CollapseKeepsAlphanumerics(Trim(name));
    TrimStartKeepsAlphanumerics(name);
    TrimEndKeepsAlphanumerics(TrimStart(name));
  }

  /** Sanitising a sanitised name changes nothing. */
  lemma FormatIdempotent(name: string)
    ensures FormatCompanyName(FormatCompanyName(name)) == FormatCompanyName(name)
  {
    var r := FormatCompanyName(name);
    assert NoSpace(r);
    TrimNoSpace(r);
    CollapseNoSpace(r);
    FilterAll(r, IsWordChar);
  }
}
