/** Character-level helpers the components use on identifiers: `toUpperCase` on one
    character and the `charAt(0).toUpperCase() + slice(1)` idiom. Case mapping covers
    the ASCII letters only. */
module Text {
  predicate IsLower(c: char) { 'a' <= c <= 'z' }
  predicate IsUpper(c: char) { 'A' <= c <= 'Z' }

  /** `c.toUpperCase()`: a lower-case letter becomes its capital, anything else is kept. */
  function Upper(c: char): (r: char)
    ensures IsLower(c) ==> IsUpper(r) && r as int + 32 == c as int
    ensures !IsLower(c) ==> r == c
  {
    if IsLower(c) then (c as int - 32) as char else c
  }

  /** `c.toLowerCase()`: a capital becomes its lower-case letter, anything else is kept. */
  function Lower(c: char): (r: char)
    ensures IsUpper(c) ==> IsLower(r) && r as int == c as int + 32
    ensures !IsUpper(c) ==> r == c
  {
    if IsUpper(c) then (c as int + 32) as char else c
  }

  /** Lower-casing undoes upper-casing on lower-case letters and on non-letters. */
  lemma LowerUpper(c: char)
    requires !IsUpper(c)
    ensures Lower(Upper(c)) == c
  {
  }

  /** `w.charAt(0).toUpperCase() + w.slice(1)`: only the first character changes. */
  function Capitalize(w: string): (r: string)
    ensures |r| == |w|
    ensures w != [] ==> r[0] == Upper(w[0]) && r[1..] == w[1..]
    ensures w == [] ==> r == []
  {
    if w == [] then [] else [Upper(w[0])] + w[1..]
  }
}
