/** ASCII case mapping, standing in for JavaScript's `String.prototype.toLowerCase`. */
module Text {

  predicate IsUpper(c: char) { 'A' <= c <= 'Z' }

  predicate IsLower(c: char) { 'a' <= c <= 'z' }

  function LowerChar(c: char): char
  {
    if IsUpper(c) then (c as int + 32) as char else c
  }

  function UpperChar(c: char): char
  {
    if IsLower(c) then (c as int - 32) as char else c
  }

  /** Lower-cases every ASCII letter and leaves every other character alone. */
  function ToLower(s: string): (r: string)
    ensures |r| == |s|
    ensures forall i :: 0 <= i < |s| ==> r[i] == LowerChar(s[i])
  {
    if s == [] then [] else [LowerChar(s[0])] + ToLower(s[1..])
  }

  /** Upper-cases every ASCII letter and leaves every other character alone. */
  function ToUpper(s: string): (r: string)
    ensures |r| == |s|
    ensures forall i :: 0 <= i < |s| ==> r[i] == UpperChar(s[i])
  {
    if s == [] then [] else [UpperChar(s[0])] + ToUpper(s[1..])
  }

  /** Lower-casing leaves no ASCII capital behind and changes nothing but capitals. */
  lemma ToLowerNormalizes(s: string)
    ensures forall i :: 0 <= i < |s| ==> !IsUpper(ToLower(s)[i])
    ensures forall i :: 0 <= i < |s| && !IsUpper(s[i]) ==> ToLower(s)[i] == s[i]
  {
  }

  /** Lower-casing twice is lower-casing once. */
  lemma ToLowerIdempotent(s: string)
    ensures ToLower(ToLower(s)) == ToLower(s)
  {
  }

  /** A string and its upper-cased form lower-case alike. */
  lemma ToLowerOfToUpper(s: string)
    ensures ToLower(ToUpper(s)) == ToLower(s)
  {
  }
}
