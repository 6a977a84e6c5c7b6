/** The identity key of every name in the pipeline: `normalize`
    (rust/graph-wasm/src/graph_processor.rs), modelled as ASCII case folding. */
module Normalization {

  predicate IsUpper(c: char) { 'A' <= c <= 'Z' }

  predicate IsLower(c: char) { 'a' <= c <= 'z' }

  function LowerChar(c: char): char {
    if IsUpper(c) then (c as int + 32) as char else c
  }

  function UpperChar(c: char): char {
    if IsLower(c) then (c as int - 32) as char else c
  }

  /** Lower-cases a name; nothing else (no trimming) is changed. */
  function Normalize(s: string): (r: string)
    ensures |r| == |s|
  {
    if s == [] then [] else [LowerChar(s[0])] + Normalize(s[1..])
  }

  /** Upper-cases a name, to state case-insensitivity. */
  function ToUpper(s: string): (r: string)
    ensures |r| == |s|
  {
    if s == [] then [] else [UpperChar(s[0])] + ToUpper(s[1..])
  }

  lemma {:induction false} NormalizeAt(s: string, i: nat)
    requires i < |s|
    ensures Normalize(s)[i] == LowerChar(s[i])
  {
    if i > 0 {
      NormalizeAt(s[1..], i - 1);
    }
  }

  /** A normalised key contains no upper-case letter. */
  lemma {:induction false} NormalizeIsLowerCase(s: string)
    ensures forall i :: 0 <= i < |Normalize(s)| ==> !IsUpper(Normalize(s)[i])
  {
    forall i | 0 <= i < |Normalize(s)|
      ensures !IsUpper(Normalize(s)[i])
    {
      NormalizeAt(s, i);
    }
  }

  /** A name without upper-case letters is its own key. */
  lemma {:induction false} NormalizeFixesLowerCase(s: string)
    requires forall i :: 0 <= i < |s| ==> !IsUpper(s[i])
    ensures Normalize(s) == s
  {
    if s != [] {
      NormalizeFixesLowerCase(s[1..]);
    }
  }

  /** Normalising a key again gives the same key. */
  lemma NormalizeIdempotent(s: string)
    ensures Normalize(Normalize(s)) == Normalize(s)
  {
    NormalizeIsLowerCase(s);
    NormalizeFixesLowerCase(Normalize(s));
  }

  /** Case does not matter: a name and its upper-cased form have one key. */
  lemma {:induction false} NormalizeIgnoresCase(s: string)
    ensures Normalize(ToUpper(s)) == Normalize(s)
  {
    if s != [] {
      NormalizeIgnoresCase(s[1..]);
    }
  }
}
