/** Trimming of free text. */
module Texts {
  import opened Tables

  /** White space and line ends, as `String.prototype.trim` of ECMA-262 removes them. */
  predicate IsSpace(c: char) {
    '\t' <= c <= '\r' || c == ' ' || c == '\U{00A0}' || c == '\U{1680}' || '\U{2000}' <= c <= '\U{200A}' ||
    c == '\U{2028}' || c == '\U{2029}' || c == '\U{202F}' || c == '\U{205F}' || c == '\U{3000}' || c == '\U{FEFF}'
  }

  predicate AllSpace(s: string) { forall i :: 0 <= i < |s| ==> IsSpace(s[i]) }

  function TrimStart(s: string): string {
    if |s| > 0 && IsSpace(s[0]) then TrimStart(s[1..]) else s
  }

  function TrimEnd(s: string): string {
    if |s| > 0 && IsSpace(s[|s| - 1]) then TrimEnd(s[..|s| - 1]) else s
  }

  /** Text without white space at its ends; nothing if nothing is left. */
  function Normalized(text: Option<string>): Option<string> {
    if text.None? || TrimEnd(TrimStart(text.value)) == "" then None else Some(TrimEnd(TrimStart(text.value)))
  }

  lemma {:induction false} TrimStartDrops(s: string) returns (n: nat)
    ensures n <= |s| && TrimStart(s) == s[n..] && AllSpace(s[..n]) && (n < |s| ==> !IsSpace(s[n]))
  {
    n := 0;
    if |s| > 0 && IsSpace(s[0]) {
      var m := TrimStartDrops(s[1..]);
      n := m + 1;
      assert s[..n] == [s[0]] + s[1..][..m];
    }
  }

  lemma {:induction false} TrimEndDrops(s: string) returns (n: nat)
    ensures n <= |s| && TrimEnd(s) == s[..n] && AllSpace(s[n..]) && (n > 0 ==> !IsSpace(s[n - 1]))
  {
    n := |s|;
    if |s| > 0 && IsSpace(s[|s| - 1]) {
      n := TrimEndDrops(s[..|s| - 1]);
      assert s[n..] == s[..|s| - 1][n..] + [s[|s| - 1]];
    }
  }

  /** `r` is `s` without white space at its ends: what is cut off on either side is blank, and what is left
      neither begins nor ends with white space. */
  ghost predicate IsTrimmed(s: string, r: string) {
    r != "" && !IsSpace(r[0]) && !IsSpace(r[|r| - 1]) &&
    exists before, after :: s == before + r + after && AllSpace(before) && AllSpace(after)
  }

  /** Nothing is left exactly of missing or blank text; what is left is the text without its blank ends,
      and normalizing it again changes nothing. */
  lemma NormalizedIsTrimmed(text: Option<string>)
    ensures Normalized(text).None? <==> text.None? || AllSpace(text.value)
    ensures Normalized(text).Some? ==>
      var r := Normalized(text).value; IsTrimmed(text.value, r) && Normalized(Some(r)) == Some(r)
  {
    hide IsSpace, TrimStart, TrimEnd;
    if text.Some? {
      var s := text.value;
      var n := TrimStartDrops(s);
      var t := s[n..];
      var m := TrimEndDrops(t);
      assert forall i :: n <= i < |s| ==> t[i - n] == s[i];
      assert forall i :: 0 <= i < n ==> s[..n][i] == s[i];
      if m == 0 {
        assert t[0..] == t;
      } else {
        var r := t[..m];
        assert r[0] == s[n] && r[m - 1] == t[m - 1];
        assert s == s[..n] + r + t[m..];
        CleanStays(r);
      }
    }
  }

  lemma CleanStays(r: string)
    requires r != "" && !IsSpace(r[0]) && !IsSpace(r[|r| - 1])
    ensures Normalized(Some(r)) == Some(r)
  {
    hide IsSpace;
  }
}
