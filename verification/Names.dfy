/** The unique-name generators. Each tries candidates until one is free; that they stop at all is a
    counting argument about the finitely many names already taken. */
module Names {
  import opened Tables

  // --- decimal suffixes ------------------------------------------------------------------------

  function Digit(d: nat): char
    requires d < 10
  {
    "0123456789"[d]
  }

  /** The decimal numeral of a number. */
  function Numeral(n: nat): string {
    if n < 10 then [Digit(n)] else Numeral(n / 10) + [Digit(n % 10)]
  }

  /** What a string of digits stands for. */
  function Value(digits: string): int {
    if |digits| == 0 then 0 else 10 * Value(digits[..|digits| - 1]) + (digits[|digits| - 1] as int - '0' as int)
  }

  lemma NoughtReads()
    ensures forall d: nat :: d < 10 ==> (Digit(d) == '0' <==> d == 0)
  {
  }

  lemma DigitReads(d: nat)
    requires d < 10
    ensures '0' <= Digit(d) <= '9' && Digit(d) as int - '0' as int == d
  {
  }

  /** The numeral consists of digits without a leading zero and reads back as its number. */
  lemma {:induction false} NumeralReads(n: nat)
    ensures var r := Numeral(n);
      Value(r) == n && r != "" && (forall i :: 0 <= i < |r| ==> '0' <= r[i] <= '9') && (n > 0 ==> r[0] != '0') && (n == 0 ==> r == "0")
  {
    hide Digit, Numeral, Value;
    var last := Digit(n % 10);
    DigitReads(n % 10);
    NumeralSplits(n);
    if n >= 10 {
      NumeralReads(n / 10);
      ValueAppends(Numeral(n / 10), last);
      assert 10 * (n / 10) + n % 10 == n;
    } else {
      ValueAppends("", last);
      assert "" + [last] == [last];
      NoughtReads();
    }
  }

  lemma NumeralSplits(n: nat)
    ensures Numeral(n) == (if n < 10 then "" else Numeral(n / 10)) + [Digit(n % 10)]
  {
  }

  lemma ValueAppends(digits: string, last: char)
    ensures Value(digits + [last]) == 10 * Value(digits) + (last as int - '0' as int)
    ensures Value("") == 0
  {
    assert (digits + [last])[..|digits|] == digits;
  }

  function Pow10(k: nat): (p: nat)
    ensures p >= 1
  {
    if k == 0 then 1 else 10 * Pow10(k - 1)
  }

  lemma {:induction false} NumeralLength(n: nat, k: nat)
    requires k >= 1
    ensures |Numeral(n)| == k <==> (if k == 1 then n < 10 else Pow10(k - 1) <= n < Pow10(k))
    ensures |Numeral(n)| >= 1
  {
    if n < 10 {
      if k >= 2 { PowerGrows(1, k - 1); }
    } else {
      NumeralLength(n / 10, if k == 1 then 1 else k - 1);
      if k >= 2 { assert Pow10(k - 1) <= n <==> Pow10(k - 2) <= n / 10; }
    }
  }

  lemma {:induction false} PowerGrows(a: nat, b: nat)
    requires a <= b
    ensures Pow10(a) <= Pow10(b)
  {
    if a < b { PowerGrows(a, b - 1); }
  }

  lemma {:induction false} NumeralInjective(m: nat, n: nat)
    requires Numeral(m) == Numeral(n)
    ensures m == n
  {
    var a, b := Numeral(m), Numeral(n);
    assert a[|a| - 1] == Digit(m % 10) && b[|b| - 1] == Digit(n % 10);
    if m >= 10 && n >= 10 {
      assert a[..|a| - 1] == Numeral(m / 10) && b[..|b| - 1] == Numeral(n / 10);
      NumeralInjective(m / 10, n / 10);
    }
  }

  // --- pigeonhole ------------------------------------------------------------------------------

  /** Different suffixes from `lo` to `hi` give different names. */
  ghost predicate OneToOne(name: nat -> string, lo: nat, hi: nat) {
    forall i, j :: lo <= i < j < hi ==> name(i) != name(j)
  }

  /** If every candidate of a range in which candidates are distinct is taken, the range is no longer
      than the set of taken names. */
  lemma {:induction false} Pigeonhole(taken: set<string>, name: nat -> string, lo: nat, hi: nat)
    requires lo <= hi && OneToOne(name, lo, hi)
    requires forall i :: lo <= i < hi ==> name(i) in taken
    ensures hi - lo <= |taken|
  {
    if lo < hi {
      var last := name(hi - 1);
      forall i | lo <= i < hi - 1 ensures name(i) in taken - {last} {
      }
      Pigeonhole(taken - {last}, name, lo, hi - 1);
    }
  }

  // --- slugs -----------------------------------------------------------------------------------

  /** The first `n` characters, or all. */
  function Stem(base: string, n: nat): (r: string)
    ensures r <= base && |r| == if |base| <= n then |base| else n
  {
    if |base| <= n then base else base[..n]
  }

  function SlugCandidate(base: string, keep: nat): nat -> string {
    (k: nat) => Stem(base, keep) + "-" + Numeral(k)
  }

  lemma SlugsDiffer(base: string, keep: nat, lo: nat, hi: nat)
    ensures OneToOne(SlugCandidate(base, keep), lo, hi)
  {
    forall i, j | lo <= i < j < hi ensures SlugCandidate(base, keep)(i) != SlugCandidate(base, keep)(j) {
      if SlugCandidate(base, keep)(i) == SlugCandidate(base, keep)(j) {
        var stem := Stem(base, keep) + "-";
        assert (stem + Numeral(i))[|stem|..] == Numeral(i);
        assert (stem + Numeral(j))[|stem|..] == Numeral(j);
        NumeralInjective(i, j);
      }
    }
  }

  predicate SlugChar(c: char) { 'a' <= c <= 'z' || '0' <= c <= '9' || c == '_' || c == '-' }

  predicate SlugOnly(s: string) { forall i :: 0 <= i < |s| ==> SlugChar(s[i]) }

  /** What lower-casing and the replacement make of one code point. Two code points outside ASCII have an
      ASCII letter in their lower case, the Kelvin sign and the capital I with dot, and the latter a
      combining dot besides; a code point beyond the basic plane counts as two units. */
  function SlugUnits(c: char): (r: string)
    ensures 1 <= |r| <= 2 && SlugOnly(r)
    ensures SlugChar(c) ==> r == [c]
  {
    if SlugChar(c) then [c]
    else if 'A' <= c <= 'Z' then ["abcdefghijklmnopqrstuvwxyz"[(c - 'A') as int]]
    else if c == '\U{212A}' then "k"
    else if c == '\U{0130}' then "i-"
    else if c > '\U{FFFF}' then "--"
    else "-"
  }

  function Slugged(s: string): (r: string)
    ensures SlugOnly(r) && |r| >= |s|
    ensures SlugOnly(s) ==> r == s
  {
    if |s| == 0 then [] else SlugUnits(s[0]) + Slugged(s[1..])
  }

  /** Every character outside the three special cases of lower-casing: one code point, one unit. */
  predicate Plain(c: char) { c <= '\U{FFFF}' && c != '\U{212A}' && c != '\U{0130}' }

  predicate IsSlugged(c: char, r: char) {
    if 'a' <= c <= 'z' || '0' <= c <= '9' || c == '_' || c == '-' then r == c
    else if 'A' <= c <= 'Z' then r as int - 'a' as int == c as int - 'A' as int
    else r == '-'
  }

  lemma UnitInPlace(c: char)
    requires Plain(c)
    ensures |SlugUnits(c)| == 1 && IsSlugged(c, SlugUnits(c)[0])
  {
  }

  /** In plain text slug characters stay, capitals become small letters, everything else becomes a dash, each
      in its place. */
  lemma {:induction false} SluggedInPlace(s: string)
    requires forall i :: 0 <= i < |s| ==> Plain(s[i])
    ensures |Slugged(s)| == |s| && forall i :: 0 <= i < |s| ==> IsSlugged(s[i], Slugged(s)[i])
  {
    hide SlugUnits, Plain, IsSlugged, SlugChar;
    if |s| > 0 {
      UnitInPlace(s[0]);
      SluggedInPlace(s[1..]);
      assert forall i :: 1 <= i < |s| ==> s[i] == s[1..][i - 1] && Slugged(s)[i] == Slugged(s[1..])[i - 1];
    }
  }

  /** The Kelvin sign becomes a k, a capital I with dot an i and a dash, and what counts as two units two
      dashes. */
  lemma SluggedSpecially(c: char)
    ensures Slugged("\U{212A}") == "k" && Slugged("\U{0130}") == "i-"
    ensures c > '\U{FFFF}' ==> Slugged([c]) == "--"
  {
    assert [c][1..] == "" && Slugged("") == "";
  }

  lemma SluggedStarts(s: string)
    ensures Slugged(s) == if |s| == 0 then "" else SlugUnits(s[0]) + Slugged(s[1..])
  {
  }

  /** And any text is slugged piece by piece. */
  lemma {:induction false} SluggedPiecewise(a: string, b: string)
    ensures Slugged(a + b) == Slugged(a) + Slugged(b)
  {
    hide SlugUnits, SlugOnly, Slugged;
    SluggedStarts(a);
    if |a| == 0 {
      assert a + b == b && Slugged(a) + Slugged(b) == Slugged(b);
    } else {
      SluggedPiecewise(a[1..], b);
      SluggedStarts(a + b);
      assert (a + b)[1..] == a[1..] + b;
    }
  }

  function SlugText(s: string, limit: nat): string { Stem(Slugged(s), limit) }

  /** Sanitizing leaves at most `limit` slug characters, and leaves what it has produced alone. */
  lemma SluggingIsIdempotent(s: string, limit: nat)
    ensures var r := SlugText(s, limit); SlugOnly(r) && |r| <= limit && SlugText(r, limit) == r
  {
    hide Slugged;
  }

  /** Both slug loops: the result is free and is the base or a candidate with a suffix of at most
      |taken| + 1: at most |taken| + 2 names are looked up. */
  method FirstFreeSlug(taken: set<string>, base: string, keep: nat) returns (slug: string)
    ensures slug !in taken
    ensures base !in taken ==> slug == base
    ensures base in taken ==>
      exists k :: 1 <= k <= |taken| + 1 && slug == SlugCandidate(base, keep)(k) &&
        forall i :: 1 <= i < k ==> SlugCandidate(base, keep)(i) in taken
    ensures slug != base ==> exists k: nat :: 1 <= k <= |taken| + 1 && slug == Stem(base, keep) + "-" + Numeral(k)
  {
    var candidate := base;
    var suffix := 1;
    while true
      invariant 1 <= suffix <= |taken| + 2
      invariant candidate == if suffix == 1 then base else SlugCandidate(base, keep)(suffix - 1)
      invariant suffix > 1 ==> base in taken
      invariant forall i :: 1 <= i < suffix - 1 ==> SlugCandidate(base, keep)(i) in taken
      decreases |taken| + 2 - suffix
    {
      if candidate !in taken {
        return candidate;
      }
      SlugsDiffer(base, keep, 1, suffix);
      Pigeonhole(taken, SlugCandidate(base, keep), 1, suffix);
      candidate := Stem(base, keep) + "-" + Numeral(suffix);
      suffix := suffix + 1;
    }
  }

  lemma {:induction false} NumeralIsSlug(n: nat)
    ensures SlugOnly(Numeral(n)) && WordOnly(Numeral(n))
  {
    if n >= 10 { NumeralIsSlug(n / 10); }
  }

  /** A candidate consists of slug characters, and is within the limit as long as its suffix fills no more
      than the room the cut leaves after the dash. */
  lemma CandidateIsSlug(base: string, keep: nat, k: nat, room: nat)
    requires SlugOnly(base) && room >= 1
    ensures SlugOnly(SlugCandidate(base, keep)(k))
    ensures k < Pow10(room) ==> |SlugCandidate(base, keep)(k)| <= keep + 1 + room
  {
    NumeralIsSlug(k);
    var stem := Stem(base, keep);
    assert SlugOnly(stem);
    assert SlugOnly(stem + "-" + Numeral(k));
    if k < Pow10(room) && |Numeral(k)| > room {
      NumeralLength(k, |Numeral(k)|);
      PowerGrows(room, |Numeral(k)| - 1);
    }
  }

  /** A free profile slug: slug characters only, and at most thirty of them while fewer than 99 slugs are
      taken. */
  method GenerateUniqueSlug(taken: set<string>, text: string) returns (slug: string)
    ensures slug !in taken && SlugOnly(slug)
    ensures var base := SlugText(text, 30);
      slug == base || (base in taken && exists k: nat :: 1 <= k <= |taken| + 1 && slug == Stem(base, 27) + "-" + Numeral(k))
    ensures |taken| < 99 ==> |slug| <= 30
  {
    hide Slugged, Numeral;
    var base := SlugText(text, 30);
    slug := FirstFreeSlug(taken, base, 27);
    if base in taken {
      var k :| 1 <= k <= |taken| + 1 && slug == SlugCandidate(base, 27)(k);
      CandidateIsSlug(base, 27, k, 2);
      assert Pow10(2) == 100;
    }
  }

  /** A free deep-link slug: at most ninety characters while fewer than 999 are taken. */
  method GenerateUniqueDeepLinkSlug(taken: set<string>, creatorSlug: string, source: string) returns (slug: string)
    ensures slug !in taken && SlugOnly(slug)
    ensures var base := SlugText(creatorSlug + "-" + source, 90);
      slug == base || (base in taken && exists k: nat :: 1 <= k <= |taken| + 1 && slug == Stem(base, 86) + "-" + Numeral(k))
    ensures |taken| < 999 ==> |slug| <= 90
  {
    hide Slugged, Numeral;
    var base := SlugText(creatorSlug + "-" + source, 90);
    slug := FirstFreeSlug(taken, base, 86);
    if base in taken {
      var k :| 1 <= k <= |taken| + 1 && slug == SlugCandidate(base, 86)(k);
      CandidateIsSlug(base, 86, k, 3);
      assert Pow10(3) == 10 * Pow10(2) == 1000;
    }
  }

  // --- Telegram usernames ------------------------------------------------------------------------

  predicate WordChar(c: char) { 'a' <= c <= 'z' || 'A' <= c <= 'Z' || '0' <= c <= '9' || c == '_' }

  predicate WordOnly(s: string) { forall i :: 0 <= i < |s| ==> WordChar(s[i]) }

  /** What the replacement makes of one code point; one beyond the basic plane counts as two units. */
  function ReplacedUnits(c: char): (r: string)
    ensures 1 <= |r| <= 2 && WordOnly(r)
    ensures WordChar(c) ==> r == [c]
    ensures c > '\U{FFFF}' ==> r == "__"
  {
    if WordChar(c) then [c] else if c > '\U{FFFF}' then "__" else "_"
  }

  function Replaced(s: string): (r: string)
    ensures WordOnly(r) && |r| >= |s|
    ensures WordOnly(s) ==> r == s
  {
    if |s| == 0 then []
    else ReplacedUnits(s[0]) + Replaced(s[1..])
  }

  /** Word characters stay in their places, every other character becomes an underscore. */
  lemma {:induction false} ReplacedInPlace(s: string)
    requires forall i :: 0 <= i < |s| ==> s[i] <= '\U{FFFF}'
    ensures |Replaced(s)| == |s|
    ensures forall i :: 0 <= i < |s| ==>
      Replaced(s)[i] ==
        if 'a' <= s[i] <= 'z' || 'A' <= s[i] <= 'Z' || '0' <= s[i] <= '9' || s[i] == '_' then s[i] else '_'
  {
    if |s| > 0 {
      ReplacedInPlace(s[1..]);
      assert forall i :: 1 <= i < |s| ==> s[i] == s[1..][i - 1] && Replaced(s)[i] == Replaced(s[1..])[i - 1];
    }
  }

  /** Any other text is replaced piece by piece: what counts as two units becomes two underscores. */
  lemma {:induction false} ReplacedPiecewise(a: string, b: string)
    ensures Replaced(a + b) == Replaced(a) + Replaced(b)
    ensures |b| == 1 && b[0] > '\U{FFFF}' ==> Replaced(b) == "__"
  {
    hide ReplacedUnits, WordChar;
    assert |b| == 1 ==> b[1..] == "" && Replaced("") == "";
    if |a| == 0 {
      assert a + b == b;
    } else {
      ReplacedPiecewise(a[1..], b);
      assert (a + b)[1..] == a[1..] + b;
    }
  }

  function TrimLeft(s: string): (r: string)
    ensures r == [] || r[0] != '_'
    ensures s != [] && s[0] != '_' ==> r == s
    ensures WordOnly(s) ==> WordOnly(r)
  {
    if |s| > 0 && s[0] == '_' then TrimLeft(s[1..]) else s
  }

  /** Nothing but underscores is trimmed. */
  lemma {:induction false} TrimLeftDrops(s: string) returns (n: nat)
    ensures n <= |s| && TrimLeft(s) == s[n..] && forall i :: 0 <= i < n ==> s[i] == '_'
  {
    n := 0;
    if |s| > 0 && s[0] == '_' {
      var m := TrimLeftDrops(s[1..]);
      n := m + 1;
      assert forall i :: 1 <= i < n ==> s[i] == s[1..][i - 1];
    }
  }

  function TrimRight(s: string): (r: string)
    ensures r == [] || r[|r| - 1] != '_'
    ensures s != [] && s[|s| - 1] != '_' ==> r == s
    ensures WordOnly(s) ==> WordOnly(r)
    ensures |r| <= |s| && r == s[..|r|] && forall i :: |r| <= i < |s| ==> s[i] == '_'
  {
    if |s| > 0 && s[|s| - 1] == '_' then TrimRight(s[..|s| - 1]) else s
  }

  function Sanitized(value: Option<string>): Option<string> {
    var s := Stem(TrimRight(TrimLeft(Replaced(if value.Some? then value.value else ""))), 20);
    if |s| >= 3 then Some(s) else None
  }

  /** A sanitized name has 3 to 20 word characters and does not start with an underscore. It may end
      with one, because the cut to 20 characters comes after the trimming. */
  lemma SanitizedIsWord(value: Option<string>)
    ensures Sanitized(value).Some? ==>
      3 <= |Sanitized(value).value| <= 20 && WordOnly(Sanitized(value).value) && Sanitized(value).value[0] != '_'
  {
    hide Replaced, TrimLeft, TrimRight;
    var trimmed := TrimRight(TrimLeft(Replaced(if value.Some? then value.value else "")));
    assert WordOnly(trimmed) && WordOnly(Stem(trimmed, 20));
  }

  predicate Underscores(s: string) { forall i :: 0 <= i < |s| ==> s[i] == '_' }

  /** `r` is `s` without the underscores at its ends. */
  ghost predicate IsCore(s: string, r: string) {
    (r == "" && Underscores(s)) ||
    (r != "" && r[0] != '_' && r[|r| - 1] != '_' &&
     exists before, after :: s == before + r + after && Underscores(before) && Underscores(after))
  }

  /** A preferred name becomes its replacement without the underscores at the ends, cut to twenty characters,
      if three or more are left, and nothing otherwise. */
  lemma SanitizedIsCore(value: string)
    ensures exists core ::
      IsCore(Replaced(value), core) && |core| <= |Replaced(value)| &&
      Sanitized(Some(value)) == if |core| < 3 then None else Some(if |core| <= 20 then core else core[..20])
    ensures Sanitized(None) == None
  {
    hide Replaced, TrimLeft, TrimRight, IsCore, WordOnly;
    var s := Replaced(value);
    var n := TrimLeftDrops(s);
    var left := TrimLeft(s);
    var core := TrimRight(left);
    assert forall i :: n <= i < |s| ==> s[i] == left[i - n];
    CoreIs(s[..n], left, core);
    assert s == s[..n] + left;
    NothingSanitized();
  }

  lemma CoreIs(before: string, left: string, core: string)
    requires Underscores(before) && core <= left && Underscores(left[|core|..])
    requires core == "" || (left[0] != '_' && core[|core| - 1] != '_')
    ensures IsCore(before + left, core)
  {
    if core == "" {
      assert left[0..] == left;
    } else {
      assert before + left == before + core + left[|core|..];
    }
  }

  lemma NothingSanitized()
    ensures Sanitized(None) == None
  {
  }

  function Kept(suffix: string): nat { if 20 - |suffix| < 3 then 3 else 20 - |suffix| }

  /** The candidate with suffix k gives way to its own suffix, but never below three characters. */
  function UsernameCandidate(base: string): nat -> string {
    (k: nat) => Stem(base, Kept(Numeral(k))) + Numeral(k)
  }

  /** Candidates whose suffixes differ in length are the same string exactly if the longer suffix is the
      shorter one behind the characters of the base that it displaces. */
  lemma CandidatesCoincideIff(base: string, i: nat, j: nat)
    requires |Numeral(i)| < |Numeral(j)|
    ensures UsernameCandidate(base)(i) == UsernameCandidate(base)(j) <==>
      |base| > Kept(Numeral(j)) && Stem(base, Kept(Numeral(i)))[Kept(Numeral(j))..] + Numeral(i) == Numeral(j)
  {
    hide Numeral;
    var short, long := Kept(Numeral(j)), Stem(base, Kept(Numeral(i)));
    if |base| > short {
      assert long + Numeral(i) == Stem(base, short) + (long[short..] + Numeral(i));
      var head := Stem(base, short);
      assert (head + Numeral(j))[short..] == Numeral(j);
      assert (head + (long[short..] + Numeral(i)))[short..] == long[short..] + Numeral(i);
    } else {
      assert |base + Numeral(i)| != |base + Numeral(j)|;
    }
  }

  /** A name of 3 to 20 word characters without underscores at its ends is its own base. */
  lemma CleanNameIsItsBase(name: string, telegramId: string)
    requires WordOnly(name) && 3 <= |name| <= 20 && name[0] != '_' && name[|name| - 1] != '_'
    ensures UsernameBase(Some(name), telegramId) == name
  {
    hide Replaced, TrimLeft, TrimRight;
  }

  lemma TwoAndTwelve()
    ensures Numeral(2) == "2" && Numeral(12) == "12"
  {
  }

  const PREFERRED := "abcdefghijklmnopqr1x"

  /** It does happen: for a user who prefers this name the suffixes 2 and 12 give one candidate. */
  lemma CandidatesCanCoincide(telegramId: string)
    ensures UsernameBase(Some(PREFERRED), telegramId) == PREFERRED
    ensures UsernameCandidate(PREFERRED)(2) == UsernameCandidate(PREFERRED)(12)
  {
    hide Numeral, UsernameBase;
    CleanNameIsItsBase(PREFERRED, telegramId);
    TwoAndTwelve();
    CandidatesCoincideIff(PREFERRED, 2, 12);
    assert Stem(PREFERRED, 19)[18..] + "2" == "12";
  }

  /** Suffixes of equal length give different candidates. */
  lemma UsernamesDiffer(base: string, d: nat, lo: nat, hi: nat)
    requires d >= 1 && forall i :: lo <= i < hi ==> |Numeral(i)| == d
    ensures OneToOne(UsernameCandidate(base), lo, hi)
  {
    forall i, j | lo <= i < j < hi ensures UsernameCandidate(base)(i) != UsernameCandidate(base)(j) {
      if UsernameCandidate(base)(i) == UsernameCandidate(base)(j) {
        var stem := Stem(base, Kept(Numeral(i)));
        assert (stem + Numeral(i))[|stem|..] == Numeral(i);
        assert (stem + Numeral(j))[|stem|..] == Numeral(j);
        NumeralInjective(i, j);
      }
    }
  }

  /** The least number of digits with more numerals than there are taken names. */
  function EnoughDigits(n: nat): (d: nat)
    ensures d >= 1 && 9 * Pow10(d - 1) > n
    ensures d >= 2 ==> 9 * Pow10(d - 2) <= n
  {
    EnoughFrom(n, 1)
  }

  function EnoughFrom(n: nat, d: nat): (r: nat)
    requires d >= 1 && (d >= 2 ==> 9 * Pow10(d - 2) <= n)
    ensures r >= d && 9 * Pow10(r - 1) > n
    ensures r >= 2 ==> 9 * Pow10(r - 2) <= n
    decreases n - 9 * Pow10(d - 1)
  {
    if 9 * Pow10(d - 1) > n then d else EnoughFrom(n, d + 1)
  }

  /** No suffix beyond this is ever tried when n names are taken. */
  function LastSuffix(n: nat): nat { Pow10(EnoughDigits(n) - 1) + n }

  /** Every candidate with a smaller suffix is taken. */
  ghost predicate TakenBelow(taken: set<string>, base: string, suffix: nat) {
    forall i :: 1 <= i < suffix ==> UsernameCandidate(base)(i) in taken
  }

  /** Within one digit length candidates differ, so one of the first n + 1 of that length is free. */
  lemma SuffixIsBounded(taken: set<string>, base: string, suffix: nat)
    requires suffix >= 1 && TakenBelow(taken, base, suffix)
    ensures suffix <= LastSuffix(|taken|)
  {
    var n := |taken|;
    var d := EnoughDigits(n);
    var lo := Pow10(d - 1);
    var hi := lo + n + 1;
    if suffix >= hi {
      forall i | lo <= i < hi ensures |Numeral(i)| == d {
        NumeralLength(i, d);
      }
      UsernamesDiffer(base, d, lo, hi);
      Pigeonhole(taken, UsernameCandidate(base), lo, hi);
    }
  }

  /** With fewer than 9 * 10^c names taken, every suffix tried has at most c + 1 digits. */
  lemma SuffixIsShort(n: nat, k: nat, c: nat)
    requires n < 9 * Pow10(c) && k <= LastSuffix(n)
    ensures |Numeral(k)| <= c + 1
  {
    var d := EnoughDigits(n);
    if d > c + 1 {
      PowerGrows(c, d - 2);
    }
    PowerGrows(d - 1, c);
    assert Pow10(c + 1) == 10 * Pow10(c);
    if |Numeral(k)| > c + 1 {
      NumeralLength(k, |Numeral(k)|);
      PowerGrows(c + 1, |Numeral(k)| - 1);
    }
  }

  /** A suffix of at most 17 digits fits into twenty characters. */
  lemma CandidateFits(base: string, k: nat)
    requires |Numeral(k)| <= 17
    ensures |UsernameCandidate(base)(k)| <= 20
  {
    hide Numeral;
  }

  function UsernameBase(preferred: Option<string>, telegramId: string): string {
    var sanitized := Sanitized(preferred);
    if sanitized.Some? then sanitized.value else "tg_" + telegramId
  }

  /** Returns a free name: the base cut to twenty characters, or the first free candidate, whose suffix
      is at most `LastSuffix`. It has at most twenty characters as long as fewer than 9 * 10^16 names
      are taken. */
  method GenerateTelegramUsername(taken: set<string>, preferred: Option<string>, telegramId: string) returns (name: string)
    ensures name !in taken
    ensures var base := UsernameBase(preferred, telegramId);
      name == Stem(base, 20) ||
      (Stem(base, 20) in taken &&
       exists k :: 1 <= k <= LastSuffix(|taken|) && name == UsernameCandidate(base)(k) && TakenBelow(taken, base, k))
    ensures var base := UsernameBase(preferred, telegramId);
      name == Stem(base, 20) ||
      exists k: nat :: k >= 1 && name == Stem(base, if |Numeral(k)| <= 17 then 20 - |Numeral(k)| else 3) + Numeral(k)
    ensures |taken| < 9 * Pow10(16) ==> |name| <= 20
  {
    hide Pow10, EnoughDigits, LastSuffix, Sanitized, Numeral, UsernameBase;
    var base := UsernameBase(preferred, telegramId);
    var candidate := Stem(base, 20);
    var suffix := 1;
    while true
      invariant 1 <= suffix <= LastSuffix(|taken|) + 1
      invariant candidate == if suffix == 1 then Stem(base, 20) else UsernameCandidate(base)(suffix - 1)
      invariant suffix > 1 ==> Stem(base, 20) in taken && TakenBelow(taken, base, suffix - 1)
      decreases LastSuffix(|taken|) + 1 - suffix
    {
      if candidate !in taken {
        if suffix > 1 && |taken| < 9 * Pow10(16) {
          SuffixIsShort(|taken|, suffix - 1, 16);
          CandidateFits(base, suffix - 1);
        }
        if suffix > 1 {
          var k: nat := suffix - 1;
          assert candidate == Stem(base, if |Numeral(k)| <= 17 then 20 - |Numeral(k)| else 3) + Numeral(k);
        }
        return candidate;
      }
      SuffixIsBounded(taken, base, suffix);
      var nextSuffix := Numeral(suffix);
      suffix := suffix + 1;
      candidate := Stem(base, Kept(nextSuffix)) + nextSuffix;
    }
  }
}
