/** Case functions used by the price-list merge (App.tsx:54, 60, 63). Only the
    ASCII letters change case; every other character is left alone. */
module Text {

  function LowerChar(c: char): (r: char)
  {
    if 'A' <= c <= 'Z' then (c as int + 32) as char else c
  }

  function UpperChar(c: char): (r: char)
  {
    if 'a' <= c <= 'z' then (c as int - 32) as char else c
  }

  /** `toLowerCase()`, character by character. */
  function Lower(s: string): (r: string)
    ensures |r| == |s|
    ensures forall i :: 0 <= i < |s| ==> r[i] == LowerChar(s[i])
  {
    if s == [] then [] else [LowerChar(s[0])] + Lower(s[1..])
  }

  /** Case-insensitive identity of two item names. */
  predicate SameItem(a: string, b: string)
  {
    Lower(a) == Lower(b)
  }

  /** The name with its first character upper-cased and the rest kept as it
      is; the empty name stays empty (App.tsx:54). */
  function Capitalize(s: string): (r: string)
  {
    if s == [] then [] else [UpperChar(s[0])] + s[1..]
  }

  /** Capitalising changes only the first character, and only its case. */
  lemma CapitalizeShape(s: string)
    ensures |Capitalize(s)| == |s|
    ensures s != [] ==> Capitalize(s)[0] == UpperChar(s[0]) && Capitalize(s)[1..] == s[1..]
    ensures s != [] && !('a' <= s[0] <= 'z') ==> Capitalize(s) == s
  {
  }

  /** Capitalising never changes the case-insensitive identity of a name, so
      matching the capitalised name is matching the name the model parsed. */
  lemma CapitalizeSameItem(s: string)
    ensures SameItem(Capitalize(s), s)
  {
    if s != [] {
      var c := Capitalize(s);
      forall i | 0 <= i < |s| ensures Lower(c)[i] == Lower(s)[i] {
        if i == 0 {
          assert LowerChar(UpperChar(s[0])) == LowerChar(s[0]);
        }
      }
    }
  }
}
