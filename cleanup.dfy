/** The clean-up applied to the language model's summary text before it is
    shown: every `*`, `_` and backquote is deleted, then surrounding
    whitespace is stripped (`replace` three times, then `strip()`). */
module TextCleanup {

  /** Python's `str.isspace()` characters, which `strip()` with no argument
      removes: tab through carriage return, the four information
      separators, space, next line, no-break space, and the Unicode space,
      line and paragraph separators. */
  predicate IsSpace(c: char)
    // ASCII blanks are whitespace; the deleted characters, letters and digits are not
    ensures c == ' ' || c == '\t' || c == '\n' || c == '\r' ==> IsSpace(c)
    ensures IsSpace(c) ==> c != '*' && c != '_' && c != '`'
    ensures IsSpace(c) ==> !('a' <= c <= 'z' || 'A' <= c <= 'Z' || '0' <= c <= '9')
  {
    var n := c as int;
    || 0x09 <= n <= 0x0D
    || 0x1C <= n <= 0x20
    || n == 0x85 || n == 0xA0 || n == 0x1680
    || 0x2000 <= n <= 0x200A
    || n == 0x2028 || n == 0x2029 || n == 0x202F || n == 0x205F || n == 0x3000
  }

  /** `s.replace(c, "")`: every occurrence of c deleted. */
  function Without(s: string, c: char): (r: string)
    ensures c !in r
    ensures multiset(r) == multiset(s)[c := 0]
  {
    if s == [] then []
    else
      assert s == [s[0]] + s[1..];
      if s[0] == c then Without(s[1..], c)
      else [s[0]] + Without(s[1..], c)
  }

  /** Deleting a character works piece by piece, so it keeps the order of
      the remaining characters. */
  lemma {:induction false} WithoutConcat(s: string, t: string, c: char)
    ensures Without(s + t, c) == Without(s, c) + Without(t, c)
  {
    if s == [] {
      assert s + t == t;
    } else {
      assert (s + t)[1..] == s[1..] + t;
      WithoutConcat(s[1..], t, c);
    }
  }

  /** Deleting a character that does not occur changes nothing. */
  lemma {:induction false} WithoutAbsent(s: string, c: char)
    requires c !in s
    ensures Without(s, c) == s
  {
    if s != [] {
      assert s[0] != c;
      assert c !in s[1..];
      WithoutAbsent(s[1..], c);
    }
  }

  /** `lstrip()`: the longest suffix of s that does not start with whitespace. */
  function TrimStart(s: string): (r: string)
    ensures |r| <= |s| && r == s[|s| - |r|..]
    ensures forall k | 0 <= k < |s| - |r| :: IsSpace(s[k])
    ensures r != [] ==> !IsSpace(r[0])
  {
    if s != [] && IsSpace(s[0]) then TrimStart(s[1..]) else s
  }

  /** `rstrip()`: the longest prefix of s that does not end with whitespace. */
  function TrimEnd(s: string): (r: string)
    ensures |r| <= |s| && r == s[..|r|]
    ensures forall k | |r| <= k < |s| :: IsSpace(s[k])
    ensures r != [] ==> !IsSpace(r[|r| - 1])
  {
    if s != [] && IsSpace(s[|s| - 1]) then TrimEnd(s[..|s| - 1]) else s
  }

  /** `strip()`: a slice of s, with only whitespace cut off either end. */
  function Strip(s: string): (r: string)
    ensures exists i, j | 0 <= i <= j <= |s| ::
      && r == s[i..j]
      && (forall k | 0 <= k < i :: IsSpace(s[k]))
      && (forall k | j <= k < |s| :: IsSpace(s[k]))
    ensures r != [] ==> !IsSpace(r[0]) && !IsSpace(r[|r| - 1])
  {
    var t := TrimStart(s);
    var r := TrimEnd(t);
    assert r == s[|s| - |t|..|s| - |t| + |r|];
    r
  }

  /** Stripping never introduces a character, never adds to a count, and
      keeps every non-whitespace character. */
  lemma StripCounts(s: string, c: char)
    ensures multiset(Strip(s))[c] <= multiset(s)[c]
    ensures !IsSpace(c) ==> multiset(Strip(s))[c] == multiset(s)[c]
  {
    var i, j :| && 0 <= i <= j <= |s| && Strip(s) == s[i..j]
                && (forall k | 0 <= k < i :: IsSpace(s[k]))
                && (forall k | j <= k < |s| :: IsSpace(s[k]));
    assert s == s[..i] + s[i..j] + s[j..];
    assert multiset(s) == multiset(s[..i]) + multiset(s[i..j]) + multiset(s[j..]);
    if !IsSpace(c) {
      assert c !in s[..i];
      assert c !in s[j..];
    }
  }

  /** Stripping never introduces a character. */
  lemma StripAbsent(s: string, c: char)
    requires c !in s
    ensures c !in Strip(s)
  {
    StripCounts(s, c);
  }

  /** Stripping text with no whitespace at either end changes nothing. */
  lemma StripTrimmed(s: string)
    requires s != [] ==> !IsSpace(s[0]) && !IsSpace(s[|s| - 1])
    ensures Strip(s) == s
  {
    var t := TrimStart(s);
    if |t| < |s| {
      assert IsSpace(s[0]);
    }
  }

  /** The text after the three `replace` calls, before `strip()`. */
  function Unmarked(raw: string): string {
    Without(Without(Without(raw, '*'), '_'), '`')
  }

  /** The clean text of one raw completion. */
  function Clean(raw: string): (r: string)
    ensures '*' !in r && '_' !in r && '`' !in r
    ensures r != [] ==> !IsSpace(r[0]) && !IsSpace(r[|r| - 1])
    // nothing is added, and every other non-whitespace character survives
    ensures forall c :: multiset(r)[c] <= multiset(raw)[c]
    ensures forall c | c != '*' && c != '_' && c != '`' && !IsSpace(c) :: multiset(r)[c] == multiset(raw)[c]
  {
    var deleted := Unmarked(raw);
    var r := Strip(deleted);
    forall c ensures multiset(r)[c] <= multiset(raw)[c] {
      StripCounts(deleted, c);
    }
    forall c | c != '*' && c != '_' && c != '`' && !IsSpace(c)
      ensures multiset(r)[c] == multiset(raw)[c]
    {
      StripCounts(deleted, c);
    }
    MarkupFree(raw);
    StripAbsent(deleted, '*');
    StripAbsent(deleted, '_');
    StripAbsent(deleted, '`');
    r
  }

  /** Only the ends are trimmed: the clean text is a contiguous piece of the
      unmarked text, with nothing but whitespace cut off either end, so
      interior whitespace and the order of the characters survive. */
  lemma CleanKeepsInterior(raw: string)
    ensures exists i, j | 0 <= i <= j <= |Unmarked(raw)| ::
      && Clean(raw) == Unmarked(raw)[i..j]
      && (forall k | 0 <= k < i :: IsSpace(Unmarked(raw)[k]))
      && (forall k | j <= k < |Unmarked(raw)| :: IsSpace(Unmarked(raw)[k]))
  {
    assert Clean(raw) == Strip(Unmarked(raw));
  }

  /** After the three deletions none of the three characters is left. */
  lemma MarkupFree(raw: string)
    ensures '*' !in Unmarked(raw)
    ensures '_' !in Unmarked(raw)
  {
    var a := Without(raw, '*');
    var b := Without(a, '_');
    var c := Without(b, '`');
    assert multiset(b)['*'] == 0;
    assert multiset(c)['*'] == multiset(b)['*'];
    assert multiset(c)['_'] == multiset(b)['_'];
  }

  /** The texts the clean-up leaves unchanged are exactly those with none
      of the three characters and no whitespace at either end. */
  lemma CleanFixedPoint(t: string)
    ensures Clean(t) == t <==>
      && '*' !in t && '_' !in t && '`' !in t
      && (t != [] ==> !IsSpace(t[0]) && !IsSpace(t[|t| - 1]))
  {
    if '*' !in t && '_' !in t && '`' !in t {
      WithoutAbsent(t, '*');
      WithoutAbsent(t, '_');
      WithoutAbsent(t, '`');
      if t != [] ==> !IsSpace(t[0]) && !IsSpace(t[|t| - 1]) {
        StripTrimmed(t);
      }
    }
  }

  /** Cleaning clean text changes nothing. */
  lemma CleanIdempotent(raw: string)
    ensures Clean(Clean(raw)) == Clean(raw)
  {
    CleanFixedPoint(Clean(raw));
  }
}
