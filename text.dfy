/** The JavaScript string operations the storefront relies on, written out:
    case mapping, `includes`, `trim`, `split`/`join`, number-to-string, and the
    regular-expression passes the two slug generators chain together. */
module Text {

  // ---------------------------------------------------------------------------
  // Case mapping (String.prototype.toLowerCase / toUpperCase), one character at a time
  // ---------------------------------------------------------------------------

  /** Lower-case mapping of one character: ASCII letters, the Latin-1 capitals
      (Ç, Ö, Ü among them) and the Turkish capitals Ğ and Ş. Other characters,
      dotted İ included, are left as they are. */
  function LowerChar(c: char): char {
    if 'A' <= c <= 'Z' then (c as int + 32) as char
    else if '\U{00C0}' <= c <= '\U{00DE}' && c != '\U{00D7}' then (c as int + 32) as char
    else if c == '\U{011E}' then '\U{011F}'   // Ğ -> ğ
    else if c == '\U{015E}' then '\U{015F}'   // Ş -> ş
    else c
  }

  /** Upper-case mapping of one character: ASCII letters, the Latin-1 small
      letters (ç, ö, ü among them), ğ, ş and dotless ı (which becomes I). */
  function UpperChar(c: char): char {
    if 'a' <= c <= 'z' then (c as int - 32) as char
    else if '\U{00E0}' <= c <= '\U{00FE}' && c != '\U{00F7}' then (c as int - 32) as char
    else if c == '\U{011F}' then '\U{011E}'   // ğ -> Ğ
    else if c == '\U{015F}' then '\U{015E}'   // ş -> Ş
    else if c == '\U{0131}' then 'I'          // ı -> I
    else c
  }

  function Lower(s: string): (r: string)
    ensures |r| == |s|
    ensures forall i | 0 <= i < |s| :: r[i] == LowerChar(s[i])
  {
    seq(|s|, i requires 0 <= i < |s| => LowerChar(s[i]))
  }

  function Upper(s: string): (r: string)
    ensures |r| == |s|
    ensures forall i | 0 <= i < |s| :: r[i] == UpperChar(s[i])
  {
    seq(|s|, i requires 0 <= i < |s| => UpperChar(s[i]))
  }

  /** Lower-casing twice is lower-casing once. */
  lemma LowerIdempotent(s: string)
    ensures Lower(Lower(s)) == Lower(s)
  {
    assert forall i | 0 <= i < |s| :: Lower(Lower(s))[i] == Lower(s)[i];
  }

  /** Upper-casing twice is upper-casing once. */
  lemma UpperIdempotent(s: string)
    ensures Upper(Upper(s)) == Upper(s)
  {
    assert forall i | 0 <= i < |s| :: Upper(Upper(s))[i] == Upper(s)[i];
  }

  lemma LowerAppend(a: string, b: string)
    ensures Lower(a + b) == Lower(a) + Lower(b)
  {
    assert forall i | 0 <= i < |a + b| :: Lower(a + b)[i] == (Lower(a) + Lower(b))[i];
  }

  /** A string whose characters lower-case to themselves is its own lower case. */
  lemma LowerFixes(s: string)
    requires forall i | 0 <= i < |s| :: LowerChar(s[i]) == s[i]
    ensures Lower(s) == s
  {
  }

  // ---------------------------------------------------------------------------
  // includes
  // ---------------------------------------------------------------------------

  /** `s.includes(sub)`: `sub` occurs in `s` at some offset (the empty string
      occurs everywhere). */
  predicate Contains(s: string, sub: string) {
    exists i | 0 <= i <= |s| - |sub| :: OccursAt(s, sub, i)
  }

  predicate OccursAt(s: string, sub: string, i: nat) {
    i + |sub| <= |s| && s[i..i + |sub|] == sub
  }

  /** The three parts of `a + b + c` are read back by slicing. */
  lemma Framed(a: string, b: string, c: string)
    ensures var r := a + b + c;
      && a <= r && |r| == |a| + |b| + |c|
      && r[|a|..|r| - |c|] == b && r[|r| - |c|..] == c
  {
    var r := a + b + c;
    assert r[..|a|] == a;
    assert r[|a|..|r| - |c|] == b;
    assert r[|r| - |c|..] == c;
  }

  /** Whatever is spliced between two strings is contained in the result. */
  lemma {:induction false} ContainsInfix(a: string, b: string, c: string)
    ensures Contains(a + b + c, b)
  {
    var s := a + b + c;
    assert s[|a|..|a| + |b|] == b;
    assert OccursAt(s, b, |a|);
  }

  // ---------------------------------------------------------------------------
  // trim
  // ---------------------------------------------------------------------------

  /** The characters JavaScript's `trim` and the regular-expression class `\s`
      treat as white space (WhiteSpace and LineTerminator of ECMA-262). */
  predicate IsSpace(c: char) {
    c == ' ' || c == '\t' || c == '\n' || c == '\r' || c == '\U{000B}' || c == '\U{000C}'
    || c == '\U{00A0}' || c == '\U{1680}' || ('\U{2000}' <= c <= '\U{200A}')
    || c == '\U{2028}' || c == '\U{2029}' || c == '\U{202F}' || c == '\U{205F}'
    || c == '\U{3000}' || c == '\U{FEFF}'
  }

  predicate AllSpace(s: string) {
    forall i | 0 <= i < |s| :: IsSpace(s[i])
  }

  /** How many white-space characters `s` starts with. */
  function LeadingSpaces(s: string): (n: nat)
    ensures n <= |s|
    ensures forall i | 0 <= i < n :: IsSpace(s[i])
    ensures n < |s| ==> !IsSpace(s[n])
  {
    if s != [] && IsSpace(s[0]) then 1 + LeadingSpaces(s[1..]) else 0
  }

  /** Where the white space ending `s` begins. */
  function TrailingStart(s: string): (n: nat)
    ensures n <= |s|
    ensures forall i | n <= i < |s| :: IsSpace(s[i])
    ensures n > 0 ==> !IsSpace(s[n - 1])
  {
    if s != [] && IsSpace(s[|s| - 1]) then TrailingStart(s[..|s| - 1]) else |s|
  }

  /** `s.trim()`: `s` with its leading and trailing white space removed. */
  function Trim(s: string): (r: string)
    ensures r != [] ==> !IsSpace(r[0]) && !IsSpace(r[|r| - 1])
    ensures r == [] <==> AllSpace(s)
    ensures exists i, j | 0 <= i <= j <= |s| :: r == s[i..j] && AllSpace(s[..i]) && AllSpace(s[j..])
  {
    var i := LeadingSpaces(s);
    var t := s[i..];
    var j := i + TrailingStart(t);
    TrimBlank(s);
    assert t[..TrailingStart(t)] == s[i..j];
    assert AllSpace(s[..i]);
    assert AllSpace(s[j..]) by {
      forall k | 0 <= k < |s| - j
        ensures IsSpace(s[j..][k])
      {
        assert s[j..][k] == t[TrailingStart(t) + k];
      }
    }
    s[i..j]
  }

  lemma TrimBlank(s: string)
    ensures var t := s[LeadingSpaces(s)..]; t[..TrailingStart(t)] == [] <==> AllSpace(s)
  {
    var a := LeadingSpaces(s);
    var t := s[a..];
    if a < |s| {
      assert t[0] == s[a];
    }
  }

  /** Whether the trimmed string is empty does not depend on letter case: lower-casing
      maps white space to white space and nothing else to white space. */
  lemma TrimLowerBlank(s: string)
    ensures Trim(Lower(s)) == [] <==> Trim(s) == []
  {
    assert forall i | 0 <= i < |s| :: IsSpace(Lower(s)[i]) == IsSpace(s[i]);
  }

  // ---------------------------------------------------------------------------
  // split / join
  // ---------------------------------------------------------------------------

  /** Index of the first `c` in `s`, or `|s|` when there is none. */
  function IndexOf(s: string, c: char): (k: nat)
    ensures k <= |s|
    ensures k < |s| ==> s[k] == c
    ensures forall i | 0 <= i < k :: s[i] != c
  {
    if s == [] then 0 else if s[0] == c then 0 else 1 + IndexOf(s[1..], c)
  }

  /** `s.split(c)[0]`: the part of `s` before its first `c`. */
  function BeforeChar(s: string, c: char): (r: string)
    ensures r <= s && c !in r
    ensures c in s ==> |r| < |s| && s[|r|] == c
  {
    s[..IndexOf(s, c)]
  }

  /** Index of the first occurrence of `sep` in `s`, or `|s|` when there is none. */
  function IndexOfStr(s: string, sep: string): (k: nat)
    requires sep != []
    ensures k <= |s|
    ensures k < |s| ==> sep <= s[k..]
    ensures forall i | 0 <= i < k :: !(sep <= s[i..])
  {
    if s == [] then 0
    else if sep <= s then 0
    else
      assert forall i | 1 <= i <= |s| :: s[i..] == s[1..][i - 1..];
      1 + IndexOfStr(s[1..], sep)
  }

  /** `s.split(sep)[0]` for a non-empty separator. */
  function BeforeStr(s: string, sep: string): (r: string)
    requires sep != []
    ensures r <= s
    ensures !Contains(r, sep)
    ensures |r| < |s| ==> sep <= s[|r|..]
  {
    var k := IndexOfStr(s, sep);
    assert forall i | 0 <= i <= k - |sep| :: OccursAt(s[..k], sep, i) ==> sep <= s[i..];
    s[..k]
  }

  /** The first occurrence of `sep` in `a + b` is where `b` starts, when `b`
      starts with `sep`, no character of `a` is the second character of `sep`,
      and `b` itself does not start with that character. */
  lemma {:induction false} IndexOfStrAfter(a: string, b: string, sep: string)
    requires |sep| >= 2 && sep <= b
    requires sep[1] !in a && b[0] != sep[1]
    ensures IndexOfStr(a + b, sep) == |a|
    decreases |a|
  {
    if a != [] {
      var s := a + b;
      assert s[1..] == a[1..] + b;
      assert !(sep <= s) by {
        if |a| >= 2 {
          assert s[1] == a[1];
        } else {
          assert s[1] == b[0];
        }
      }
      IndexOfStrAfter(a[1..], b, sep);
    } else {
      assert a + b == b;
    }
  }

  /** `s.split(sep)[0]` on `a + b` under the conditions of `IndexOfStrAfter` is `a`. */
  lemma BeforeStrAfter(a: string, b: string, sep: string)
    requires |sep| >= 2 && sep <= b
    requires sep[1] !in a && b[0] != sep[1]
    ensures BeforeStr(a + b, sep) == a
  {
    IndexOfStrAfter(a, b, sep);
    assert (a + b)[..|a|] == a;
  }

  /** `parts.join(sep)`. */
  function Join(parts: seq<string>, sep: string): string {
    if |parts| == 0 then ""
    else if |parts| == 1 then parts[0]
    else parts[0] + sep + Join(parts[1..], sep)
  }

  /** Without `c` in `s`, `s.split(c)[0]` is `s` itself. */
  lemma BeforeCharAbsent(s: string, c: char)
    requires c !in s
    ensures BeforeChar(s, c) == s
  {
    IndexOfAbsent(s, c);
  }

  /** `s.split(c)` for a one-character separator. */
  function Split(s: string, c: char): (r: seq<string>)
    ensures |r| >= 1
    decreases |s|
  {
    var k := IndexOf(s, c);
    if k == |s| then [s] else [s[..k]] + Split(s[k + 1..], c)
  }

  lemma {:induction false} IndexOfAfter(a: string, c: char, b: string)
    requires c !in a
    ensures IndexOf(a + [c] + b, c) == |a|
    decreases |a|
  {
    if a != [] {
      assert (a + [c] + b)[1..] == a[1..] + [c] + b;
      IndexOfAfter(a[1..], c, b);
    }
  }

  lemma {:induction false} IndexOfAbsent(a: string, c: char)
    requires c !in a
    ensures IndexOf(a, c) == |a|
    decreases |a|
  {
    if a != [] {
      IndexOfAbsent(a[1..], c);
    }
  }

  /** Splitting a join on its one-character separator gives the parts back,
      provided no part contains the separator. */
  lemma {:induction false} SplitJoin(parts: seq<string>, c: char)
    requires |parts| >= 1
    requires forall i | 0 <= i < |parts| :: c !in parts[i]
    ensures Split(Join(parts, [c]), c) == parts
  {
    if |parts| == 1 {
      IndexOfAbsent(parts[0], c);
    } else {
      var rest := Join(parts[1..], [c]);
      IndexOfAfter(parts[0], c, rest);
      var s := parts[0] + [c] + rest;
      assert s[..|parts[0]|] == parts[0];
      assert s[|parts[0]| + 1..] == rest;
      SplitJoin(parts[1..], c);
    }
  }

  /** The length of a join: the parts plus one separator between each two. */
  lemma {:induction false} JoinLength(parts: seq<string>, sep: string)
    requires |parts| >= 1
    ensures |Join(parts, sep)| == SumLengths(parts) + (|parts| - 1) * |sep|
  {
    if |parts| > 1 {
      JoinLength(parts[1..], sep);
    }
  }

  function SumLengths(parts: seq<string>): nat {
    if parts == [] then 0 else |parts[0]| + SumLengths(parts[1..])
  }

  // ---------------------------------------------------------------------------
  // Number to string (template literals and String(n))
  // ---------------------------------------------------------------------------

  function DigitChar(d: nat): char
    requires d < 10
  {
    ('0' as int + d) as char
  }

  predicate IsDigit(c: char) { '0' <= c <= '9' }

  function NatToString(n: nat): (r: string)
    ensures |r| >= 1
    ensures forall i | 0 <= i < |r| :: IsDigit(r[i])
  {
    if n < 10 then [DigitChar(n)] else NatToString(n / 10) + [DigitChar(n % 10)]
  }

  function IntToString(n: int): string {
    if n < 0 then "-" + NatToString(-n) else NatToString(n)
  }

  // ---------------------------------------------------------------------------
  // Slugs: the regular-expression passes of createSlug and generateSEOSlug
  // ---------------------------------------------------------------------------

  predicate IsAlnum(c: char) { 'a' <= c <= 'z' || '0' <= c <= '9' }

  predicate IsSlugChar(c: char) { IsAlnum(c) || c == '-' }

  predicate NoDoubleHyphen(s: string) {
    forall i | 0 <= i < |s| - 1 :: !(s[i] == '-' && s[i + 1] == '-')
  }

  /** A URL slug: only `[a-z0-9-]`, never `--`, no hyphen at either end. */
  predicate IsSlug(s: string) {
    && (forall i | 0 <= i < |s| :: IsSlugChar(s[i]))
    && NoDoubleHyphen(s)
    && (s != [] ==> s[0] != '-' && s[|s| - 1] != '-')
  }

  /** `.replace(/[^a-z0-9]+/g, '-')`: every maximal run of characters outside
      `[a-z0-9]` becomes one hyphen. */
  function HyphenateNonAlnum(s: string): (r: string)
    ensures forall i | 0 <= i < |r| :: IsSlugChar(r[i])
    ensures NoDoubleHyphen(r)
    ensures s == [] <==> r == []
    ensures r != [] ==> (r[0] == '-' <==> !IsAlnum(s[0]))
    decreases |s|
  {
    if s == [] then []
    else if IsAlnum(s[0]) then [s[0]] + HyphenateNonAlnum(s[1..])
    else if |s| >= 2 && !IsAlnum(s[1]) then HyphenateNonAlnum(s[1..])
    else "-" + HyphenateNonAlnum(s[1..])
  }

  /** On a string already made of `[a-z0-9-]` without `--` the pass changes nothing. */
  lemma {:induction false} HyphenateNonAlnumFixes(s: string)
    requires forall i | 0 <= i < |s| :: IsSlugChar(s[i])
    requires NoDoubleHyphen(s)
    ensures HyphenateNonAlnum(s) == s
    decreases |s|
  {
    if s != [] {
      HyphenateNonAlnumFixes(s[1..]);
    }
  }

  /** `.replace(/-+/g, '-')`: every run of hyphens becomes one hyphen. */
  function CollapseHyphens(s: string): (r: string)
    ensures NoDoubleHyphen(r)
    ensures |r| <= |s|
    ensures (forall i | 0 <= i < |s| :: IsSlugChar(s[i])) ==> (forall i | 0 <= i < |r| :: IsSlugChar(r[i]))
    ensures r != [] ==> s != [] && r[0] == s[0]
    decreases |s|
  {
    if s == [] then []
    else if |s| >= 2 && s[0] == '-' && s[1] == '-' then CollapseHyphens(s[1..])
    else [s[0]] + CollapseHyphens(s[1..])
  }

  lemma {:induction false} CollapseHyphensFixes(s: string)
    requires NoDoubleHyphen(s)
    ensures CollapseHyphens(s) == s
    decreases |s|
  {
    if s != [] {
      CollapseHyphensFixes(s[1..]);
    }
  }

  /** `.replace(/\s+/g, '-')`: every run of white space becomes one hyphen. */
  function SpacesToHyphen(s: string): (r: string)
    ensures forall i | 0 <= i < |r| :: !IsSpace(r[i])
    ensures (forall i | 0 <= i < |s| :: IsSlugChar(s[i]) || IsSpace(s[i])) ==> (forall i | 0 <= i < |r| :: IsSlugChar(r[i]))
    decreases |s|
  {
    if s == [] then []
    else if IsSpace(s[0]) && |s| >= 2 && IsSpace(s[1]) then SpacesToHyphen(s[1..])
    else if IsSpace(s[0]) then "-" + SpacesToHyphen(s[1..])
    else [s[0]] + SpacesToHyphen(s[1..])
  }

  lemma {:induction false} SpacesToHyphenFixes(s: string)
    requires forall i | 0 <= i < |s| :: !IsSpace(s[i])
    ensures SpacesToHyphen(s) == s
    decreases |s|
  {
    if s != [] {
      SpacesToHyphenFixes(s[1..]);
    }
  }

  /** Two words separated by one space become the words joined by one hyphen. */
  lemma {:induction false} SpacesToHyphenOneSpace(a: string, b: string)
    requires forall i | 0 <= i < |a| :: !IsSpace(a[i])
    requires forall i | 0 <= i < |b| :: !IsSpace(b[i])
    ensures SpacesToHyphen(a + " " + b) == a + "-" + b
    decreases |a|
  {
    if a == [] {
      assert a + " " + b == " " + b && a + "-" + b == "-" + b;
      SpaceThenWord(b);
    } else {
      assert forall i | 0 <= i < |a| - 1 :: a[1..][i] == a[i + 1];
      SpacesToHyphenOneSpace(a[1..], b);
      CharThenRest(a[0], a[1..] + " " + b, a[1..] + "-" + b);
      assert [a[0]] + (a[1..] + " " + b) == a + " " + b;
      assert [a[0]] + (a[1..] + "-" + b) == a + "-" + b;
    }
  }

  lemma SpaceThenWord(b: string)
    requires forall i | 0 <= i < |b| :: !IsSpace(b[i])
    ensures SpacesToHyphen(" " + b) == "-" + b
  {
    var s := " " + b;
    assert s[1..] == b;
    assert |s| >= 2 ==> s[1] == b[0];
    SpacesToHyphenFixes(b);
  }

  lemma CharThenRest(c: char, t: string, u: string)
    requires !IsSpace(c) && SpacesToHyphen(t) == u
    ensures SpacesToHyphen([c] + t) == [c] + u
  {
    assert ([c] + t)[1..] == t;
  }

  /** Removes one leading and one trailing hyphen, as `.replace(/^-|-$/g, '')` does. */
  function StripOneHyphen(s: string): (r: string) {
    var t := if s != [] && s[0] == '-' then s[1..] else s;
    if t != [] && t[|t| - 1] == '-' then t[..|t| - 1] else t
  }

  /** On a string of `[a-z0-9-]` without `--`, removing one hyphen at each end leaves a slug. */
  lemma StripOneHyphenSlug(s: string)
    requires forall i | 0 <= i < |s| :: IsSlugChar(s[i])
    requires NoDoubleHyphen(s)
    ensures IsSlug(StripOneHyphen(s))
  {
    var t := if s != [] && s[0] == '-' then s[1..] else s;
    assert forall i | 0 <= i < |t| - 1 :: !(t[i] == '-' && t[i + 1] == '-');
    if s != [] && s[0] == '-' && |s| >= 2 {
      assert s[1] != '-';
    }
  }

  /** Removes all leading and trailing hyphens, as `.replace(/^-+|-+$/g, '')` does. */
  function TrimHyphens(s: string): (r: string)
    ensures r != [] ==> r[0] != '-' && r[|r| - 1] != '-'
    ensures (forall i | 0 <= i < |s| :: IsSlugChar(s[i])) && NoDoubleHyphen(s) ==> IsSlug(r)
  {
    var t := DropLeadingHyphens(s);
    var u := DropTrailingHyphens(t);
    assert u == s[|s| - |t|..|s| - |t| + |u|];
    if (forall i | 0 <= i < |s| :: IsSlugChar(s[i])) && NoDoubleHyphen(s) then
      InfixKeepsSlugChars(s, u, |s| - |t|);
      u
    else u
  }

  function DropLeadingHyphens(s: string): (r: string)
    ensures |r| <= |s| && r == s[|s| - |r|..]
    ensures r != [] ==> r[0] != '-'
  {
    if s != [] && s[0] == '-' then DropLeadingHyphens(s[1..]) else s
  }

  function DropTrailingHyphens(s: string): (r: string)
    ensures |r| <= |s| && r == s[..|r|]
    ensures r != [] ==> r[|r| - 1] != '-'
    ensures s != [] && s[0] != '-' && r != [] ==> r[0] == s[0]
  {
    if s != [] && s[|s| - 1] == '-' then DropTrailingHyphens(s[..|s| - 1]) else s
  }

  /** An infix of a string made of `[a-z0-9-]` without `--` keeps both properties. */
  lemma InfixKeepsSlugChars(s: string, t: string, k: nat)
    requires k + |t| <= |s| && t == s[k..k + |t|]
    requires forall i | 0 <= i < |s| :: IsSlugChar(s[i])
    requires NoDoubleHyphen(s)
    ensures forall i | 0 <= i < |t| :: IsSlugChar(t[i])
    ensures NoDoubleHyphen(t)
  {
    assert forall i | 0 <= i < |t| :: t[i] == s[k + i];
  }

  lemma TrimHyphensFixes(s: string)
    requires s != [] ==> s[0] != '-' && s[|s| - 1] != '-'
    ensures TrimHyphens(s) == s
  {
  }

  // ---------------------------------------------------------------------------
  // The default order of Array.prototype.sort on strings
  // ---------------------------------------------------------------------------

  /** `a` sorts strictly before `b` when compared character by character, a
      proper prefix sorting first. */
  predicate StringLess(a: string, b: string) {
    if a == [] then b != []
    else if b == [] then false
    else if a[0] != b[0] then a[0] < b[0]
    else StringLess(a[1..], b[1..])
  }

  lemma {:induction false} StringLessIrreflexive(a: string)
    ensures !StringLess(a, a)
  {
    if a != [] {
      StringLessIrreflexive(a[1..]);
    }
  }

  lemma {:induction false} StringLessTotal(a: string, b: string)
    ensures a == b || StringLess(a, b) || StringLess(b, a)
  {
    if a != [] && b != [] && a[0] == b[0] {
      StringLessTotal(a[1..], b[1..]);
      if a[1..] == b[1..] {
        assert a == [a[0]] + a[1..] && b == [b[0]] + b[1..];
      }
    }
  }

  lemma {:induction false} StringLessAsymmetric(a: string, b: string)
    ensures !(StringLess(a, b) && StringLess(b, a))
  {
    if a != [] && b != [] && a[0] == b[0] {
      StringLessAsymmetric(a[1..], b[1..]);
    }
  }

  lemma {:induction false} StringLessTransitive(a: string, b: string, c: string)
    requires StringLess(a, b) && StringLess(b, c)
    ensures StringLess(a, c)
  {
    if a != [] && a[0] == b[0] && b[0] == c[0] {
      StringLessTransitive(a[1..], b[1..], c[1..]);
    }
  }

  /** Not sorting before is transitive too: `a >= b >= c` gives `a >= c`. */
  lemma StringLessNegTransitive(a: string, b: string, c: string)
    requires !StringLess(a, b) && !StringLess(b, c)
    ensures !StringLess(a, c)
  {
    StringLessTotal(a, b);
    StringLessTotal(b, c);
    if StringLess(a, c) {
      if a == b {
        StringLessAsymmetric(a, c);
      } else if b == c {
        StringLessAsymmetric(a, c);
      } else {
        StringLessTransitive(c, b, a);
        StringLessAsymmetric(a, c);
      }
    }
  }
}
