/**
  The java.lang.String methods the protocol relies on: lastIndexOf(char),
  and equalsIgnoreCase restricted to ASCII letters.
*/
module JavaString {

  /** The index of the last occurrence of c in s, or -1 when s has none. */
  function LastIndexOf(s: string, c: char): (k: int)
    ensures -1 <= k < |s|
    ensures k >= 0 ==> s[k] == c
    ensures forall j :: k < j < |s| ==> s[j] != c
  {
    if |s| == 0 then -1
    else if s[|s| - 1] == c then |s| - 1
    else LastIndexOf(s[..|s| - 1], c)
  }

  /** Character.toUpperCase on the ASCII range. */
  function ToUpperAscii(c: char): char
  {
    if 'a' <= c <= 'z' then (c as int - 32) as char else c
  }

  /** String.equalsIgnoreCase, comparing characters after upper-casing ASCII letters. */
  predicate EqualsIgnoreCase(a: string, b: string)
  {
    |a| == |b| && forall i :: 0 <= i < |a| ==> ToUpperAscii(a[i]) == ToUpperAscii(b[i])
  }

  /** The literals that equal "yes" ignoring case are its eight spellings. */
  lemma EqualsIgnoreCaseYes(s: string)
    ensures EqualsIgnoreCase(s, "yes") <==>
              |s| == 3 && s[0] in "yY" && s[1] in "eE" && s[2] in "sS"
  {
    if |s| == 3 && s[0] in "yY" && s[1] in "eE" && s[2] in "sS" {
      assert ToUpperAscii(s[0]) == 'Y' && ToUpperAscii(s[1]) == 'E' && ToUpperAscii(s[2]) == 'S';
    }
    if EqualsIgnoreCase(s, "yes") {
      assert ToUpperAscii(s[0]) == 'Y' && ToUpperAscii(s[1]) == 'E' && ToUpperAscii(s[2]) == 'S';
    }
  }
}
