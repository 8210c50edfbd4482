/**
 * The few C library string routines the module relies on, stated on Dafny
 * strings. A character stands for one byte; a C string is a sequence without
 * NUL, its terminator being implicit.
 *
 * The scanning functions carry only their bounds; what they compute is
 * stated by the lemmas beside them.
 */
module CLib {
  import opened Options

  /** The C string a buffer holds: everything before its first NUL. */
  function CStr(buf: string): (s: string)
    ensures |s| <= |buf|
  {
    if buf == [] || buf[0] == '\0' then [] else [buf[0]] + CStr(buf[1..])
  }

  /** CStr is the longest NUL-free prefix: a prefix, without NUL, stopped by a NUL or the end. */
  lemma {:induction false} CStrPrefix(buf: string)
    ensures '\0' !in CStr(buf)
    ensures CStr(buf) <= buf
    ensures |CStr(buf)| < |buf| ==> buf[|CStr(buf)|] == '\0'
  {
    if buf != [] && buf[0] != '\0' {
      CStrPrefix(buf[1..]);
      assert CStr(buf) == [buf[0]] + CStr(buf[1..]);
    }
  }

  /** A buffer without NUL is read back whole. */
  lemma CStrWhole(buf: string)
    requires '\0' !in buf
    ensures CStr(buf) == buf
  {
    CStrPrefix(buf);
  }

  /**
   * strcmp, reduced to the sign of its result. Bytes compare as unsigned
   * values; the terminator compares below every byte, so a proper prefix
   * sorts first.
   */
  function StrCmp(a: string, b: string): (r: int)
    ensures -1 <= r <= 1
    ensures r == 0 <==> a == b
  {
    if a == [] || b == [] then
      (if a == b then 0 else if a == [] then -1 else 1)
    else if a[0] < b[0] then -1
    else if a[0] > b[0] then 1
    else
      assert a == [a[0]] + a[1..] && b == [b[0]] + b[1..];
      StrCmp(a[1..], b[1..])
  }

  /** tolower in the C locale: only A to Z change. */
  function ToLower(c: char): char
  {
    if 'A' <= c <= 'Z' then (c as int + 32) as char else c
  }

  function Lower(s: string): (r: string)
    ensures |r| == |s|
  {
    if s == [] then [] else [ToLower(s[0])] + Lower(s[1..])
  }

  /** strcasecmp, reduced to the sign of its result. */
  function StrCaseCmp(a: string, b: string): (r: int)
    ensures -1 <= r <= 1
    ensures r == 0 <==> Lower(a) == Lower(b)
  {
    if a == [] || b == [] then
      (if a == b then 0 else if a == [] then -1 else 1)
    else
      assert Lower(a) == [ToLower(a[0])] + Lower(a[1..]);
      assert Lower(b) == [ToLower(b[0])] + Lower(b[1..]);
      assert ToLower(a[0]) != ToLower(b[0]) ==> Lower(a) != Lower(b) by {
        assert Lower(a)[0] == ToLower(a[0]) && Lower(b)[0] == ToLower(b[0]);
      }
      if ToLower(a[0]) < ToLower(b[0]) then -1
      else if ToLower(a[0]) > ToLower(b[0]) then 1
      else
        assert Lower(a) == Lower(b) <==> Lower(a)[1..] == Lower(b)[1..];
        StrCaseCmp(a[1..], b[1..])
  }

  /** One call of strtok: the token found and the text a later call resumes at. */
  datatype Token = Token(text: string, rest: string)

  /** Where strtok stops skipping delimiters: the first non-delimiter at or after from. */
  function SkipDelims(s: string, d: char, from: nat): (k: nat)
    requires from <= |s|
    ensures from <= k <= |s|
    ensures k < |s| ==> s[k] != d
    decreases |s| - from
  {
    if from < |s| && s[from] == d then SkipDelims(s, d, from + 1) else from
  }

  /** Everything SkipDelims passes over is a delimiter. */
  lemma {:induction false} SkippedAreDelims(s: string, d: char, from: nat)
    requires from <= |s|
    ensures forall i :: from <= i < SkipDelims(s, d, from) ==> s[i] == d
    decreases |s| - from
  {
    if from < |s| && s[from] == d {
      SkippedAreDelims(s, d, from + 1);
    }
  }

  /** Where a token that starts at from ends: the next delimiter, or the end of s. */
  function NextDelim(s: string, d: char, from: nat): (j: nat)
    requires from <= |s|
    ensures from <= j <= |s|
    ensures j < |s| ==> s[j] == d
    decreases |s| - from
  {
    if from < |s| && s[from] != d then NextDelim(s, d, from + 1) else from
  }

  /** A token holds no delimiter. */
  lemma {:induction false} TokenHasNoDelim(s: string, d: char, from: nat)
    requires from <= |s|
    ensures forall i :: from <= i < NextDelim(s, d, from) ==> s[i] != d
    decreases |s| - from
  {
    if from < |s| && s[from] != d {
      TokenHasNoDelim(s, d, from + 1);
    }
  }

  /**
   * s is a run of k delimiters, then the token, then either the end of s or
   * one delimiter (which strtok overwrites with NUL) followed by the rest.
   */
  ghost predicate SplitAt(s: string, d: char, k: nat, tok: Token)
  {
    var e := k + |tok.text|;
    && e <= |s|
    && (forall i :: 0 <= i < k ==> s[i] == d)
    && tok.text != [] && d !in tok.text
    && tok.text == s[k..e]
    && (if e < |s| then s[e] == d && tok.rest == s[e + 1..] else tok.rest == [])
  }

  /**
   * strtok with a one-character delimiter set: leading delimiters are
   * skipped; NULL when nothing is left, otherwise the token up to the next
   * delimiter or the end, and the text after that delimiter.
   */
  function Strtok(s: string, d: char): (r: Option<Token>)
    ensures r.Some? ==> r.value.text != [] && |r.value.rest| < |s|
  {
    var k := SkipDelims(s, d, 0);
    if k == |s| then None
    else
      var j := NextDelim(s, d, k);
      Some(Token(s[k..j], if j < |s| then s[j + 1..] else []))
  }

  /** strtok returns NULL exactly when s is nothing but delimiters. */
  lemma StrtokNull(s: string, d: char)
    ensures Strtok(s, d).None? <==> forall i :: 0 <= i < |s| ==> s[i] == d
  {
    SkippedAreDelims(s, d, 0);
  }

  /** What strtok returns is a split of s as SplitAt describes. */
  lemma StrtokSplits(s: string, d: char)
    requires Strtok(s, d).Some?
    ensures SplitAt(s, d, SkipDelims(s, d, 0), Strtok(s, d).value)
  {
    var k := SkipDelims(s, d, 0);
    var j := NextDelim(s, d, k);
    SkippedAreDelims(s, d, 0);
    TokenHasNoDelim(s, d, k);
    assert d !in s[k..j] by {
      forall i | 0 <= i < j - k ensures s[k..j][i] != d {
        assert s[k..j][i] == s[k + i];
      }
    }
  }

  /** A token never holds its delimiter. */
  lemma StrtokTokenClean(s: string, d: char)
    requires Strtok(s, d).Some?
    ensures d !in Strtok(s, d).value.text
  {
    StrtokSplits(s, d);
  }

  /** A character absent from s is absent from the token and from the rest. */
  lemma StrtokKeepsOut(s: string, d: char, c: char)
    requires c !in s && Strtok(s, d).Some?
    ensures c !in Strtok(s, d).value.text && c !in Strtok(s, d).value.rest
  {
    var k := SkipDelims(s, d, 0);
    var j := NextDelim(s, d, k);
    assert forall i :: 0 <= i < j - k ==> s[k..j][i] == s[k + i];
    if j < |s| {
      var rest := s[j + 1..];
      assert forall i :: 0 <= i < |rest| ==> rest[i] == s[j + 1 + i];
    }
  }

  /**
   * The converse: any split of s that fits the description is the one
   * strtok returns, so SplitAt pins strtok's result down completely.
   */
  lemma StrtokExact(s: string, d: char, k: nat, tok: Token)
    requires SplitAt(s, d, k, tok)
    ensures Strtok(s, d) == Some(tok)
  {
    var e := k + |tok.text|;
    assert s[k] == tok.text[0];
    SkippedAreDelims(s, d, 0);
    var k0 := SkipDelims(s, d, 0);
    assert k0 == k;
    forall i | k <= i < e ensures s[i] != d {
      assert s[i] == tok.text[i - k];
    }
    TokenHasNoDelim(s, d, k);
    assert NextDelim(s, d, k) == e;
  }

  /** A token followed by its delimiter is split off, and strtok resumes right after the delimiter. */
  lemma StrtokLeading(t: string, d: char, rest: string)
    requires t != [] && d !in t
    ensures Strtok(t + [d] + rest, d) == Some(Token(t, rest))
  {
    var s := t + [d] + rest;
    assert s[..|t|] == t && s[|t|] == d && s[|t| + 1..] == rest;
    StrtokExact(s, d, 0, Token(t, rest));
  }

  /** A string without the delimiter is one token, and nothing is left after it. */
  lemma StrtokWhole(t: string, d: char)
    requires t != [] && d !in t
    ensures Strtok(t, d) == Some(Token(t, []))
  {
    assert t[..|t|] == t;
    StrtokExact(t, d, 0, Token(t, []));
  }
}
