/** Shapes shared by the components. */
module Common {

  /** `T | undefined`. */
  datatype Option<+T> = None | Some(value: T)

  /** A value or a thrown error. */
  datatype Result<+T> = Ok(value: T) | Err(message: string)

  /** The next key an iteration over a set visits; the order is left open. */
  method Pick<T>(s: set<T>) returns (x: T)
    requires s != {}
    ensures x in s
  {
    x :| x in s;
  }

  function Max0(x: int): int { if x < 0 then 0 else x }

  function Max(a: int, b: int): int { if a < b then b else a }

  function Min(a: int, b: int): int { if a < b then a else b }

  lemma MulOrder(x: int, y: int, b: int)
    requires x <= y && 0 < b
    ensures x * b <= y * b
  {
    assert 0 <= (y - x) * b;
  }

  // ---------------------------------------------------------------- strings

  /** What `String.prototype.trim` strips: white space and line terminators. */
  predicate IsSpace(c: char) {
    var n := c as int;
    0x09 <= n <= 0x0D || n in {0x20, 0xA0, 0x1680, 0x2028, 0x2029, 0x202F, 0x205F, 0x3000, 0xFEFF} || 0x2000 <= n <= 0x200A
  }

  function TrimStart(s: string): string {
    if |s| > 0 && IsSpace(s[0]) then TrimStart(s[1..]) else s
  }

  function TrimEnd(s: string): string {
    if |s| > 0 && IsSpace(s[|s| - 1]) then TrimEnd(s[..|s| - 1]) else s
  }

  function Trim(s: string): string { TrimEnd(TrimStart(s)) }

  function LowerChar(c: char): char {
    if 'A' <= c <= 'Z' then (c as int + 32) as char else c
  }

  /** Lower case, for comparison with an ASCII word. */
  function Lower(s: string): string {
    if |s| == 0 then "" else [LowerChar(s[0])] + Lower(s[1..])
  }

  function UpperChar(c: char): char {
    if 'a' <= c <= 'z' then (c as int - 32) as char else c
  }

  /** Upper case, for comparison with an ASCII code. */
  function Upper(s: string): string {
    if |s| == 0 then "" else [UpperChar(s[0])] + Upper(s[1..])
  }

  /** The same character, or the same ASCII letter in the other case. */
  predicate SameLetter(c: char, d: char) {
    || c == d
    || ('A' <= c <= 'Z' && d as int == c as int + 32)
    || ('a' <= c <= 'z' && d as int == c as int - 32)
  }

  /** Strings that differ in the case of ASCII letters only. */
  ghost predicate SameButCase(s: string, t: string) {
    |s| == |t| && forall i :: 0 <= i < |s| ==> SameLetter(s[i], t[i])
  }

  lemma LettersMeet(c: char, d: char)
    ensures UpperChar(c) == UpperChar(d) <==> SameLetter(c, d)
    ensures LowerChar(c) == LowerChar(d) <==> SameLetter(c, d)
  {}

  lemma {:induction false} UpperAt(s: string)
    ensures |Upper(s)| == |s| && forall i :: 0 <= i < |s| ==> Upper(s)[i] == UpperChar(s[i])
  {
    if |s| > 0 {
      UpperAt(s[1..]);
    }
  }

  lemma {:induction false} LowerAt(s: string)
    ensures |Lower(s)| == |s| && forall i :: 0 <= i < |s| ==> Lower(s)[i] == LowerChar(s[i])
  {
    if |s| > 0 {
      LowerAt(s[1..]);
    }
  }

  /** Two strings meet in upper case, or in lower case, exactly if they differ in case only. */
  lemma {:induction false} CaseFolds(s: string, t: string)
    ensures Upper(s) == Upper(t) <==> SameButCase(s, t)
    ensures Lower(s) == Lower(t) <==> SameButCase(s, t)
  {
    UpperAt(s);
    UpperAt(t);
    LowerAt(s);
    LowerAt(t);
    if |s| == |t| {
      forall i | 0 <= i < |s|
        ensures UpperChar(s[i]) == UpperChar(t[i]) <==> SameLetter(s[i], t[i])
        ensures LowerChar(s[i]) == LowerChar(t[i]) <==> SameLetter(s[i], t[i])
      {
        LettersMeet(s[i], t[i]);
      }
      if Upper(s) == Upper(t) {
        assert forall i :: 0 <= i < |s| ==> Upper(s)[i] == Upper(t)[i];
      }
      if Lower(s) == Lower(t) {
        assert forall i :: 0 <= i < |s| ==> Lower(s)[i] == Lower(t)[i];
      }
      if SameButCase(s, t) {
        assert Upper(s) == Upper(t) && Lower(s) == Lower(t);
      }
    }
  }

  /** An upper-case word is what another string folds to exactly if they differ in case only. */
  lemma {:induction false} FoldsUp(s: string, word: string)
    requires forall i :: 0 <= i < |word| ==> 'A' <= word[i] <= 'Z'
    ensures Upper(s) == word <==> SameButCase(s, word)
  {
    UpperAt(word);
    assert Upper(word) == word;
    CaseFolds(s, word);
  }

  lemma {:induction false} FoldsDown(s: string, word: string)
    requires forall i :: 0 <= i < |word| ==> 'a' <= word[i] <= 'z'
    ensures Lower(s) == word <==> SameButCase(s, word)
  {
    LowerAt(word);
    assert Lower(word) == word;
    CaseFolds(s, word);
  }

  /** `t` is `s` without the white space at its ends. */
  ghost predicate Stripped(s: string, t: string) {
    && (exists i: nat, k: nat :: i <= k <= |s| && StrippedAt(s, t, i, k))
    && (|t| > 0 ==> !IsSpace(t[0]) && !IsSpace(t[|t| - 1]))
  }

  ghost predicate StrippedAt(s: string, t: string, i: nat, k: nat)
    requires i <= k <= |s|
  {
    && t == s[i..k]
    && (forall j :: 0 <= j < i || k <= j < |s| ==> IsSpace(s[j]))
  }

  lemma {:induction false} TrimStartIs(s: string) returns (i: nat)
    ensures i <= |s| && TrimStart(s) == s[i..] && (forall j :: 0 <= j < i ==> IsSpace(s[j])) && (i < |s| ==> !IsSpace(s[i]))
  {
    i := 0;
    if |s| > 0 && IsSpace(s[0]) {
      i := TrimStartIs(s[1..]);
      forall j | 0 <= j < i + 1
        ensures IsSpace(s[j])
      {
        assert 0 < j ==> s[j] == s[1..][j - 1];
      }
      i := i + 1;
    }
  }

  lemma {:induction false} TrimEndIs(s: string) returns (k: nat)
    ensures k <= |s| && TrimEnd(s) == s[..k] && (forall j :: k <= j < |s| ==> IsSpace(s[j])) && (0 < k ==> !IsSpace(s[k - 1]))
  {
    k := |s|;
    if |s| > 0 && IsSpace(s[|s| - 1]) {
      k := TrimEndIs(s[..|s| - 1]);
    }
  }

  /** Trimming takes white space off both ends and nothing else. */
  lemma TrimStrips(s: string)
    ensures Stripped(s, Trim(s))
  {
    var i := TrimStartIs(s);
    var t := s[i..];
    var k := TrimEndIs(t);
    assert t[..k] == s[i..i + k];
    forall j | i + k <= j < |s|
      ensures IsSpace(s[j])
    {
      assert s[j] == t[j - i];
    }
    assert StrippedAt(s, Trim(s), i, i + k);
    if |Trim(s)| > 0 {
      assert Trim(s)[0] == s[i] && Trim(s)[|Trim(s)| - 1] == t[k - 1];
    }
  }

  /** Among the ASCII characters, white space is the space and what moves the carriage or the line. */
  lemma AsciiSpaces(c: char)
    requires c as int < 128
    ensures IsSpace(c) <==> c == ' ' || '\t' <= c <= '\r'
  {}
}
