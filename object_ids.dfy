/** The ids the Mongo lookups cast: `Model.findById(id)` first turns its
    argument into an ObjectId, and a string that is not one makes it throw a
    CastError, which every handler's `catch` answers with 500. */
module ObjectIds {

  predicate IsHexDigit(c: char) {
    ('0' <= c <= '9') || ('a' <= c <= 'f') || ('A' <= c <= 'F')
  }

  /** A string `findById` accepts: 24 hexadecimal digits. */
  predicate IsObjectId(s: string) {
    |s| == 24 && forall i :: 0 <= i < |s| ==> IsHexDigit(s[i])
  }

  /** The digit an ObjectId prints: `toString()` gives lowercase hexadecimal. */
  function LowerHex(c: char): (d: char)
    ensures 'A' <= c <= 'F' ==> d == c - 'A' + 'a'
    ensures !('A' <= c <= 'F') ==> d == c
  {
    if 'A' <= c <= 'F' then c - 'A' + 'a' else c
  }

  /** An id as an ObjectId prints it: 24 lowercase hexadecimal digits. The ids the
      collections hold, and the ids the API hands out, are of this form. */
  predicate IsCanonicalId(s: string) {
    IsObjectId(s) && forall i :: 0 <= i < |s| ==> !('A' <= s[i] <= 'F')
  }

  /** The cast `findById` applies before it compares: `String(new ObjectId(s))`.
      Uppercase hexadecimal digits are read like their lowercase forms. */
  function Cast(s: string): (r: string)
    ensures |r| == |s| && forall i :: 0 <= i < |s| ==> r[i] == LowerHex(s[i])
    ensures IsObjectId(s) ==> IsCanonicalId(r)
  {
    seq(|s|, i requires 0 <= i < |s| => LowerHex(s[i]))
  }

  /** A canonical id casts to itself. */
  lemma CastCanonical(s: string)
    requires IsCanonicalId(s)
    ensures Cast(s) == s
  {
    assert forall i :: 0 <= i < |s| ==> Cast(s)[i] == s[i];
  }

  /** Casting twice is casting once. */
  lemma CastIdempotent(s: string)
    requires IsObjectId(s)
    ensures Cast(Cast(s)) == Cast(s)
  {
    CastCanonical(Cast(s));
  }

  /** Two well-formed ids the worked scenarios use. */
  const SampleA: string := "64b7f3c2a1d4e5f678900001"
  const SampleB: string := "64b7f3c2a1d4e5f678900002"

  /** `SampleA` written with uppercase digits. */
  const SampleAUpper: string := "64B7F3C2A1D4E5F678900001"

  lemma SampleIdsCast()
    ensures IsCanonicalId(SampleA) && IsCanonicalId(SampleB) && SampleA != SampleB
    ensures Cast(SampleA) == SampleA && Cast(SampleB) == SampleB
  {
    assert forall i :: 0 <= i < |SampleA| ==> IsHexDigit(SampleA[i]) && !('A' <= SampleA[i] <= 'F');
    assert forall i :: 0 <= i < |SampleB| ==> IsHexDigit(SampleB[i]) && !('A' <= SampleB[i] <= 'F');
    assert SampleA[23] != SampleB[23];
    CastCanonical(SampleA);
    CastCanonical(SampleB);
  }

  /** The uppercase spelling is a different string that casts to the same id. */
  lemma UpperSampleCast()
    ensures IsObjectId(SampleAUpper) && SampleAUpper != SampleA && Cast(SampleAUpper) == SampleA
  {
    assert forall i :: 0 <= i < |SampleAUpper| ==> IsHexDigit(SampleAUpper[i]);
    assert SampleAUpper[2] != SampleA[2];
    assert forall i :: 0 <= i < 24 ==> Cast(SampleAUpper)[i] == SampleA[i];
  }

  /** A short id such as "p1" is no ObjectId, a 24-digit hexadecimal one is. */
  lemma ObjectIdExamples()
    ensures !IsObjectId("p1")
    ensures IsObjectId("64b7f3c2a1d4e5f67890abcd")
  {
    var s := "64b7f3c2a1d4e5f67890abcd";
    assert forall i :: 0 <= i < |s| ==> IsHexDigit(s[i]);
  }
}
