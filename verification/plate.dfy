/**
 The Brazilian licence-plate validator: the old format `ABC1234` (three
 letters, four digits) and the Mercosur format `ABC1D23` (three letters, a
 digit, a letter, two digits), upper case only.
 */
module Plate {
  import Ascii
  import Regex

  /** `[A-Z]{3}\d{4}` */
  const OldFormat: seq<Regex.Term> := [Regex.Term(Regex.Upper, 3), Regex.Term(Regex.Digit, 4)]

  /** `[A-Z]{3}\d[A-Z]\d{2}` */
  const MercosurFormat: seq<Regex.Term> :=
    [Regex.Term(Regex.Upper, 3), Regex.Term(Regex.Digit, 1), Regex.Term(Regex.Upper, 1), Regex.Term(Regex.Digit, 2)]

  /** `plateRegex`, `/^(?:[A-Z]{3}\d{4}|[A-Z]{3}\d[A-Z]\d{2})$/` */
  const PlateRegex: seq<seq<Regex.Term>> := [OldFormat, MercosurFormat]

  predicate AllUpper(s: string) {
    forall i :: 0 <= i < |s| ==> Ascii.IsUpper(s[i])
  }

  predicate AllDigits(s: string) {
    forall i :: 0 <= i < |s| ==> Ascii.IsDigit(s[i])
  }

  /** The validator as an explicit predicate on characters; a valid plate is seven upper-case letters and digits. */
  predicate IsValidPlate(s: string)
    ensures IsValidPlate(s) ==>
              |s| == 7 && forall i :: 0 <= i < |s| ==> Ascii.IsUpper(s[i]) || Ascii.IsDigit(s[i])
  {
    && |s| == 7
    && AllUpper(s[..3])
    && (|| AllDigits(s[3..])
        || (Ascii.IsDigit(s[3]) && Ascii.IsUpper(s[4]) && AllDigits(s[5..])))
  }

  /** The old-format branch matches exactly three letters followed by four digits. */
  lemma OldFormatShape(s: string)
    ensures Regex.MatchBranch(OldFormat, s) <==> |s| == 7 && AllUpper(s[..3]) && AllDigits(s[3..])
  {
  }

  /** The Mercosur branch matches exactly three letters, a digit, a letter and two digits. */
  lemma MercosurFormatShape(s: string)
    ensures Regex.MatchBranch(MercosurFormat, s) <==>
              |s| == 7 && AllUpper(s[..3]) && Ascii.IsDigit(s[3]) && Ascii.IsUpper(s[4]) && AllDigits(s[5..])
  {
  }

  /** The explicit predicate accepts exactly what `plateRegex.test` accepts. */
  lemma ValidPlateIffRegex(s: string)
    ensures IsValidPlate(s) <==> Regex.Test(PlateRegex, s)
  {
    OldFormatShape(s);
    MercosurFormatShape(s);
    assert PlateRegex[1..] == [MercosurFormat];
    assert PlateRegex[1..][1..] == [];
    assert Regex.Test(PlateRegex[1..], s) <==> Regex.MatchBranch(MercosurFormat, s);
  }

  /** The two formats never overlap: position 4 is a digit in one and a letter in the other. */
  lemma FormatsDisjoint(s: string)
    ensures !(Regex.MatchBranch(OldFormat, s) && Regex.MatchBranch(MercosurFormat, s))
  {
    OldFormatShape(s);
    MercosurFormatShape(s);
    if Regex.MatchBranch(OldFormat, s) {
      assert s[3..][1] == s[4];
      assert !Ascii.IsUpper(s[4]);
    }
  }

  /** A valid plate has no lower-case letter, so upper-casing it changes nothing. */
  lemma ValidPlateIsUpperCase(s: string)
    requires IsValidPlate(s)
    ensures Ascii.ToUpper(s) == s
  {
  }

  /** The two formats are accepted; lower case and wrong lengths are rejected. */
  lemma Examples()
    ensures IsValidPlate("ABC1234")
    ensures IsValidPlate("ABC1D23")
    ensures !IsValidPlate("abc1234")
    ensures !IsValidPlate("AB1234")
    ensures !IsValidPlate("ABC12345")
    ensures !IsValidPlate("ABCD123")
  {
    assert !Ascii.IsUpper("abc1234"[..3][0]);
    assert !Ascii.IsDigit("ABCD123"[3..][0]);
    assert !Ascii.IsDigit("ABCD123"[3]);
  }
}
