/**
  The JavaScript string operations the source relies on (`includes`, `startsWith`, `split`/`join`,
  `trim`, `toLowerCase`, `substring`, global `replace`, number-to-string), each given a definition on
  `seq<char>` and the facts the handlers need about it.
*/
module Text {

  /** `s.startsWith(p)` */
  predicate IsPrefix(p: string, s: string) {
    |p| <= |s| && s[..|p|] == p
  }

  /** `sub` occurs in `s` starting at index `i`. */
  predicate OccursAt(s: string, sub: string, i: int) {
    0 <= i && i + |sub| <= |s| && s[i..i + |sub|] == sub
  }

  /** `s.includes(sub)`, scanning from the left. */
  predicate Includes(s: string, sub: string)
    decreases |s|
  {
    IsPrefix(sub, s) || (|s| > 0 && Includes(s[1..], sub))
  }

  /** Where the scan succeeds, `sub` occurs at some index. */
  lemma {:induction false} IncludesAt(s: string, sub: string) returns (i: int)
    requires Includes(s, sub)
    ensures OccursAt(s, sub, i)
    decreases |s|
  {
    if IsPrefix(sub, s) {
      i := 0;
    } else {
      var j := IncludesAt(s[1..], sub);
      assert s[1..][j..j + |sub|] == s[j + 1..j + 1 + |sub|];
      i := j + 1;
    }
  }

  /** Where `sub` occurs at some index, the scan succeeds. */
  lemma {:induction false} OccursIncludes(s: string, sub: string, i: int)
    requires OccursAt(s, sub, i)
    ensures Includes(s, sub)
    decreases i
  {
    if i > 0 {
      assert s[1..][i - 1..i - 1 + |sub|] == s[i..i + |sub|];
      OccursIncludes(s[1..], sub, i - 1);
    }
  }

  /** The scan agrees with the textbook definition: some index where `sub` occurs. */
  lemma IncludesIff(s: string, sub: string)
    ensures Includes(s, sub) <==> exists i :: OccursAt(s, sub, i)
  {
    if Includes(s, sub) {
      var i := IncludesAt(s, sub);
    }
    if exists i :: OccursAt(s, sub, i) {
      var i :| OccursAt(s, sub, i);
      OccursIncludes(s, sub, i);
    }
  }

  /** An occurrence in a suffix is an occurrence in the whole string. */
  lemma {:induction false} IncludesSuffix(s: string, k: nat, sub: string)
    requires k <= |s|
    ensures Includes(s[k..], sub) ==> Includes(s, sub)
    decreases k
  {
    if k > 0 {
      assert s[1..][k - 1..] == s[k..];
      IncludesSuffix(s[1..], k - 1, sub);
    }
  }

  /** Prepending characters that cannot start `sub` creates no new occurrence of it. */
  lemma {:induction false} IncludesSkipsPrefix(w: string, t: string, sub: string)
    requires |sub| > 0
    requires forall k :: 0 <= k < |w| ==> w[k] != sub[0]
    ensures Includes(w + t, sub) ==> Includes(t, sub)
    decreases |w|
  {
    if |w| > 0 {
      assert (w + t)[0] == w[0];
      assert (w + t)[1..] == w[1..] + t;
      IncludesSkipsPrefix(w[1..], t, sub);
    } else {
      assert w + t == t;
    }
  }

  /** `s.substring(0, n)` for `n >= 0`. */
  function Take(s: string, n: nat): (r: string)
    ensures |r| == if n < |s| then n else |s|
    ensures IsPrefix(r, s)
  {
    if n < |s| then s[..n] else s
  }

  // ---------------------------------------------------------------------------------------------
  // split and join on a one-character separator

  /** `s.split(sep)`: the pieces between separators, empty pieces included; never an empty list. */
  function Split(s: string, sep: char): (parts: seq<string>)
    ensures |parts| >= 1
    decreases |s|
  {
    if |s| == 0 then [""]
    else
      var rest := Split(s[1..], sep);
      if s[0] == sep then [""] + rest
      else [[s[0]] + rest[0]] + rest[1..]
  }

  /** `parts.join(sep)` */
  function Join(parts: seq<string>, sep: char): string
    requires |parts| >= 1
    decreases |parts|
  {
    if |parts| == 1 then parts[0] else parts[0] + [sep] + Join(parts[1..], sep)
  }

  /** Joining the pieces of a split restores the string. */
  lemma {:induction false} JoinSplit(s: string, sep: char)
    ensures Join(Split(s, sep), sep) == s
    decreases |s|
  {
    if |s| > 0 {
      var rest := Split(s[1..], sep);
      JoinSplit(s[1..], sep);
      if s[0] == sep {
        assert Split(s, sep)[1..] == rest;
        assert s == [sep] + s[1..];
      } else if |rest| == 1 {
        assert s == [s[0]] + s[1..];
      } else {
        var parts := Split(s, sep);
        assert parts[1..] == rest[1..];
        assert Join(rest, sep) == rest[0] + [sep] + Join(rest[1..], sep);
        assert s == [s[0]] + s[1..];
      }
    }
  }

  /** No piece of a split contains the separator. */
  lemma {:induction false} SplitPiecesFree(s: string, sep: char)
    ensures forall k :: 0 <= k < |Split(s, sep)| ==> sep !in Split(s, sep)[k]
    decreases |s|
  {
    if |s| > 0 {
      SplitPiecesFree(s[1..], sep);
      var rest := Split(s[1..], sep);
      var parts := Split(s, sep);
      forall k | 0 <= k < |parts| ensures sep !in parts[k] {
        if s[0] == sep {
          if k > 0 { assert parts[k] == rest[k - 1]; }
        } else if k == 0 {
          assert parts[0] == [s[0]] + rest[0];
        } else {
          assert parts[k] == rest[k];
        }
      }
    }
  }

  /** Splitting `a + t` when `a` holds no separator glues `a` onto the first piece of `t`. */
  lemma {:induction false} SplitConcat(a: string, t: string, sep: char)
    requires sep !in a
    ensures Split(a + t, sep) == [a + Split(t, sep)[0]] + Split(t, sep)[1..]
    decreases |a|
  {
    if |a| == 0 {
      assert a + t == t;
      assert a + Split(t, sep)[0] == Split(t, sep)[0];
    } else {
      assert (a + t)[1..] == a[1..] + t;
      assert (a + t)[0] == a[0];
      SplitConcat(a[1..], t, sep);
      assert [a[0]] + (a[1..] + Split(t, sep)[0]) == a + Split(t, sep)[0];
    }
  }

  /** Every character of a join is the separator or a character of one of the pieces. */
  lemma {:induction false} JoinChars(parts: seq<string>, sep: char, c: char)
    requires |parts| >= 1
    ensures c in Join(parts, sep) ==> c == sep || exists i :: 0 <= i < |parts| && c in parts[i]
    decreases |parts|
  {
    if |parts| > 1 {
      JoinChars(parts[1..], sep, c);
      if c in Join(parts[1..], sep) && c != sep {
        var i :| 0 <= i < |parts[1..]| && c in parts[1..][i];
        assert c in parts[i + 1];
      }
    }
  }

  /** Appending a separator and a separator-free piece adds that piece as the last part of the split. */
  lemma {:induction false} SplitSnoc(s: string, d: string, sep: char)
    requires sep !in d
    ensures Split(s + [sep] + d, sep) == Split(s, sep) + [d]
    decreases |s|
  {
    SplitConcat(d, "", sep);
    assert d + "" == d;
    if |s| == 0 {
      assert s + [sep] + d == [sep] + d;
      assert ([sep] + d)[1..] == d;
    } else {
      assert (s + [sep] + d)[1..] == s[1..] + [sep] + d;
      assert (s + [sep] + d)[0] == s[0];
      SplitSnoc(s[1..], d, sep);
    }
  }

  /** Splitting a join of separator-free pieces gives the pieces back. */
  lemma {:induction false} SplitJoin(parts: seq<string>, sep: char)
    requires |parts| >= 1
    requires forall k :: 0 <= k < |parts| ==> sep !in parts[k]
    ensures Split(Join(parts, sep), sep) == parts
    decreases |parts|
  {
    if |parts| == 1 {
      SplitConcat(parts[0], "", sep);
      assert parts[0] + "" == parts[0];
    } else {
      var tail := Join(parts[1..], sep);
      SplitJoin(parts[1..], sep);
      assert parts[0] + [sep] + tail == parts[0] + ([sep] + tail);
      SplitConcat(parts[0], [sep] + tail, sep);
      assert ([sep] + tail)[1..] == tail;
      assert Split([sep] + tail, sep) == [""] + Split(tail, sep);
      assert parts[0] + "" == parts[0];
      assert parts == [parts[0]] + parts[1..];
    }
  }

  // ---------------------------------------------------------------------------------------------
  // trim

  /** ECMAScript WhiteSpace and LineTerminator code points, the ones `trim` removes. */
  predicate IsSpace(c: char) {
    c == '\t' || c == '\n' || c == '\U{B}' || c == '\U{C}' || c == '\r' || c == ' '
    || c == '\U{A0}' || c == '\U{1680}' || ('\U{2000}' <= c <= '\U{200A}')
    || c == '\U{2028}' || c == '\U{2029}' || c == '\U{202F}' || c == '\U{205F}'
    || c == '\U{3000}' || c == '\U{FEFF}'
  }

  /** `s.trimStart()`: the longest suffix of `s` that does not start with white space. */
  function TrimStart(s: string): (r: string)
    ensures |r| <= |s| && r == s[|s| - |r|..]
    ensures forall k :: 0 <= k < |s| - |r| ==> IsSpace(s[k])
    ensures r != [] ==> !IsSpace(r[0])
    decreases |s|
  {
    if |s| > 0 && IsSpace(s[0]) then TrimStart(s[1..]) else s
  }

  /** `s.trimEnd()`: the longest prefix of `s` that does not end with white space. */
  function TrimEnd(s: string): (r: string)
    ensures |r| <= |s| && r == s[..|r|]
    ensures forall k :: |r| <= k < |s| ==> IsSpace(s[k])
    ensures r != [] ==> !IsSpace(r[|r| - 1])
    decreases |s|
  {
    if |s| > 0 && IsSpace(s[|s| - 1]) then TrimEnd(s[..|s| - 1]) else s
  }

  /** `s.trim()` */
  function Trim(s: string): string {
    TrimEnd(TrimStart(s))
  }

  /** What `trim` promises: no white space at either end, every character taken from `s`, and "" exactly
      when `s` is all white space. */
  lemma TrimProperties(s: string)
    ensures Trim(s) != [] ==> !IsSpace(Trim(s)[0]) && !IsSpace(Trim(s)[|Trim(s)| - 1])
    ensures forall c :: c in Trim(s) ==> c in s
    ensures Trim(s) == [] <==> forall k :: 0 <= k < |s| ==> IsSpace(s[k])
  {
    var a := TrimStart(s);
    var r := TrimEnd(a);
    forall c | c in r ensures c in s {
      var k :| 0 <= k < |r| && r[k] == c;
      assert a[k] == c;
      assert s[|s| - |a| + k] == c;
    }
    if r == [] {
      assert a == [];
    }
    if r != [] {
      assert a[0] == r[0];
    }
  }

  /** A string with no white space at its ends is its own trim. */
  lemma TrimOfTrimmed(s: string)
    requires s == [] || (!IsSpace(s[0]) && !IsSpace(s[|s| - 1]))
    ensures Trim(s) == s
  {
  }

  /** Trimming twice is trimming once. */
  lemma TrimIdempotent(s: string)
    ensures Trim(Trim(s)) == Trim(s)
  {
    TrimProperties(s);
    TrimOfTrimmed(Trim(s));
  }

  // ---------------------------------------------------------------------------------------------
  // toLowerCase

  /** `toLowerCase` on one character; only the ASCII letters are mapped. */
  function LowerChar(c: char): char {
    if 'A' <= c <= 'Z' then (c as int + 32) as char else c
  }

  /** `s.toLowerCase()`, character by character. */
  function ToLower(s: string): (r: string)
    ensures |r| == |s|
    decreases |s|
  {
    if |s| == 0 then "" else [LowerChar(s[0])] + ToLower(s[1..])
  }

  /** Position by position, `toLowerCase` lower-cases the character there. */
  lemma {:induction false} ToLowerAt(s: string, k: int)
    requires 0 <= k < |s|
    ensures ToLower(s)[k] == LowerChar(s[k])
    decreases |s|
  {
    if k > 0 {
      ToLowerAt(s[1..], k - 1);
    }
  }

  /** Lower-casing is idempotent and leaves no ASCII capital. */
  lemma {:induction false} ToLowerIdempotent(s: string)
    ensures ToLower(ToLower(s)) == ToLower(s)
    ensures forall k :: 0 <= k < |s| ==> !('A' <= ToLower(s)[k] <= 'Z')
    decreases |s|
  {
    if |s| > 0 {
      ToLowerIdempotent(s[1..]);
      assert ToLower(s)[1..] == ToLower(s[1..]);
    }
  }

  // ---------------------------------------------------------------------------------------------
  // e-mail addresses

  predicate NoSpace(s: string) {
    forall k :: 0 <= k < |s| ==> !IsSpace(s[k])
  }

  /** `s[i]` is the address's only '@': the local part before it is not empty, and the domain after
      it has a dot strictly inside. */
  predicate EmailAt(s: string, i: int) {
    0 < i < |s| && s[i] == '@' && (forall k :: i < k < |s| ==> s[k] != '@')
    && exists j :: i + 1 < j < |s| - 1 && s[j] == '.'
  }

  /** An e-mail address, simplified: no white space, a non-empty local part, one '@', and a domain
      with a dot strictly inside it. */
  predicate IsEmail(s: string) {
    NoSpace(s) && exists i :: 0 < i < |s| && EmailAt(s, i)
  }

  /** The setters of a stored address keep it an address: `trim` leaves it as it is, and
      `toLowerCase` moves no '@', no '.' and no white space. */
  lemma EmailSurvivesSetters(s: string)
    requires IsEmail(s)
    ensures Trim(s) == s
    ensures IsEmail(ToLower(Trim(s)))
  {
    TrimOfTrimmed(s);
    var i :| 0 < i < |s| && EmailAt(s, i);
    LowerKeepsEmailAt(s, i);
    LowerKeepsNoSpace(s);
  }

  lemma LowerKeepsNoSpace(s: string)
    requires NoSpace(s)
    ensures NoSpace(ToLower(s))
  {
    forall k | 0 <= k < |s|
      ensures !IsSpace(ToLower(s)[k])
    {
      ToLowerAt(s, k);
    }
  }

  lemma LowerKeepsEmailAt(s: string, i: int)
    requires EmailAt(s, i)
    ensures EmailAt(ToLower(s), i)
  {
    var t := ToLower(s);
    var j :| i + 1 < j < |s| - 1 && s[j] == '.';
    forall k | i < k < |t|
      ensures t[k] != '@'
    {
      ToLowerAt(s, k);
    }
    ToLowerAt(s, i);
    ToLowerAt(s, j);
  }

  // ---------------------------------------------------------------------------------------------
  // global replace

  /** `s.replace(/pat/g, rep)` with a literal pattern: every occurrence found scanning left to right
      is replaced, and the scan resumes after it. */
  function ReplaceAll(s: string, pat: string, rep: string): string
    requires |pat| > 0
    decreases |s|
  {
    if |s| == 0 then ""
    else if IsPrefix(pat, s) then rep + ReplaceAll(s[|pat|..], pat, rep)
    else [s[0]] + ReplaceAll(s[1..], pat, rep)
  }

  /** With no occurrence of the pattern the string comes back unchanged. */
  lemma {:induction false} ReplaceAllNoMatch(s: string, pat: string, rep: string)
    requires |pat| > 0
    requires !Includes(s, pat)
    ensures ReplaceAll(s, pat, rep) == s
    decreases |s|
  {
    if |s| > 0 {
      ReplaceAllNoMatch(s[1..], pat, rep);
      assert s == [s[0]] + s[1..];
    }
  }

  /** A placeholder `{{…}}`: at least two characters, opening with '{' and closing with '}'. */
  predicate IsPlaceholder(p: string) {
    |p| >= 2 && p[0] == '{' && p[|p| - 1] == '}'
  }

  /** A replacement text that cannot help form the placeholder `p`: it holds no brace and holds some
      character `p` does not have. */
  predicate SafeReplacement(rep: string, p: string) {
    '{' !in rep && '}' !in rep && exists c :: c in rep && c !in p
  }

  /** A safe replacement placed before the end of a candidate occurrence of `p` spoils it: either
      it reaches past the occurrence's start with a character `p` lacks, or the occurrence would end
      inside the replacement, which has no closing brace. */
  lemma ReplacementBreaksPrefix(u: string, rep: string, rest: string, p: string)
    requires IsPlaceholder(p) && SafeReplacement(rep, p)
    requires |u| < |p|
    ensures !IsPrefix(p, u + rep + rest)
  {
    var x := u + rep + rest;
    if |u| + |rep| <= |p| {
      var c :| c in rep && c !in p;
      var j :| 0 <= j < |rep| && rep[j] == c;
      assert x[|u| + j] == c;
      assert |p| <= |x| ==> x[..|p|][|u| + j] == c;
    } else {
      assert x[|p| - 1] == rep[|p| - 1 - |u|];
      assert rep[|p| - 1 - |u|] != '}';
    }
  }

  /** A prefix of the candidate occurrence taken from the original text stays in the original text. */
  lemma {:induction false} KeptPrefix(u: string, t: string, pat: string, rep: string, p: string)
    requires |pat| > 0 && IsPlaceholder(p) && SafeReplacement(rep, p)
    requires |u| < |p|
    ensures IsPrefix(p, u + ReplaceAll(t, pat, rep)) ==> IsPrefix(p, u + t)
    decreases |t|
  {
    if |t| == 0 {
      assert u + ReplaceAll(t, pat, rep) == u;
    } else if IsPrefix(pat, t) {
      assert u + ReplaceAll(t, pat, rep) == u + rep + ReplaceAll(t[|pat|..], pat, rep);
      ReplacementBreaksPrefix(u, rep, ReplaceAll(t[|pat|..], pat, rep), p);
    } else {
      var v := u + [t[0]];
      ReplaceAllCons(u, t, pat, rep);
      if |v| < |p| {
        KeptPrefix(v, t[1..], pat, rep, p);
      } else {
        PrefixDecided(v, ReplaceAll(t[1..], pat, rep), t[1..], p);
      }
    }
  }

  /** Moving the first character of an unmatched text into the head. */
  lemma ReplaceAllCons(u: string, t: string, pat: string, rep: string)
    requires |pat| > 0 && |t| > 0 && !IsPrefix(pat, t)
    ensures u + ReplaceAll(t, pat, rep) == (u + [t[0]]) + ReplaceAll(t[1..], pat, rep)
    ensures u + t == (u + [t[0]]) + t[1..]
  {
    assert t == [t[0]] + t[1..];
  }

  /** Once the head is as long as `p`, the tail does not matter to whether `p` is a prefix. */
  lemma PrefixDecided(v: string, a: string, b: string, p: string)
    requires |v| >= |p|
    ensures IsPrefix(p, v + a) <==> IsPrefix(p, v + b)
  {
    assert (v + a)[..|p|] == v[..|p|];
    assert (v + b)[..|p|] == v[..|p|];
  }

  /** After replacing `pat` by a safe text, the placeholder `p` does not occur: either because `p` is the
      pattern just replaced, or because it did not occur before. */
  lemma {:induction false} NoPlaceholderAfterReplace(s: string, pat: string, rep: string, p: string)
    requires |pat| > 0 && IsPlaceholder(p) && SafeReplacement(rep, p)
    requires p == pat || !Includes(s, p)
    ensures !Includes(ReplaceAll(s, pat, rep), p)
    decreases |s|
  {
    if |s| == 0 {
    } else if IsPrefix(pat, s) {
      var tail := ReplaceAll(s[|pat|..], pat, rep);
      IncludesSuffix(s, |pat|, p);
      NoPlaceholderAfterReplace(s[|pat|..], pat, rep, p);
      IncludesSkipsPrefix(rep, tail, p);
    } else {
      var tail := ReplaceAll(s[1..], pat, rep);
      IncludesSuffix(s, 1, p);
      NoPlaceholderAfterReplace(s[1..], pat, rep, p);
      assert ([s[0]] + tail)[1..] == tail;
      KeptPrefix([s[0]], s[1..], pat, rep, p);
      assert [s[0]] + s[1..] == s;
    }
  }

  // ---------------------------------------------------------------------------------------------
  // decimal numerals

  /** The digit character for `d`. */
  function DigitChar(d: nat): (c: char)
    requires d < 10
    ensures '0' <= c <= '9'
  {
    ('0' as int + d) as char
  }

  /** `String(n)` for a natural number: its decimal numeral, without leading zeros. */
  function Decimal(n: nat): (r: string)
    ensures |r| >= 1
    ensures forall k :: 0 <= k < |r| ==> '0' <= r[k] <= '9'
    decreases n
  {
    if n < 10 then [DigitChar(n)] else Decimal(n / 10) + [DigitChar(n % 10)]
  }

  /** `parseInt(s, 10)` on a string of digits. */
  function ParseDecimal(s: string): nat
    requires forall k :: 0 <= k < |s| ==> '0' <= s[k] <= '9'
    decreases |s|
  {
    if |s| == 0 then 0 else ParseDecimal(s[..|s| - 1]) * 10 + (s[|s| - 1] as int - '0' as int)
  }

  /** Reading back a numeral gives the number. */
  lemma {:induction false} ParseDecimalRoundTrip(n: nat)
    ensures ParseDecimal(Decimal(n)) == n
    decreases n
  {
    if n >= 10 {
      var s := Decimal(n);
      assert s[..|s| - 1] == Decimal(n / 10);
      ParseDecimalRoundTrip(n / 10);
    }
  }
}
