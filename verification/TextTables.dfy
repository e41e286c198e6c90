/** The text functions character by character, against tables of the letters and separators that matter. */
module TextTables {
  import opened Texts

  const SMALL := "abcdefghijklmnopqrstuvwxyz"
  const CAPITAL := "ABCDEFGHIJKLMNOPQRSTUVWXYZ"

  /** Category Zs and the separators among the control characters: what str.isspace accepts. */
  const SPACES := {
    0x09, 0x0a, 0x0b, 0x0c, 0x0d, 0x1c, 0x1d, 0x1e, 0x1f, 0x20, 0x85, 0xa0, 0x1680, 0x2000, 0x2001, 0x2002, 0x2003,
    0x2004, 0x2005, 0x2006, 0x2007, 0x2008, 0x2009, 0x200a, 0x2028, 0x2029, 0x202f, 0x205f, 0x3000}

  lemma SpacesExactly(c: char)
    ensures Space(c) <==> c as int in SPACES
  {
  }

  /** Blank texts are those that consist of white space, the empty one included. */
  lemma BlankExactly(s: string)
    ensures Blank(s) <==> forall i :: 0 <= i < |s| ==> s[i] as int in SPACES
  {
    forall i | 0 <= i < |s|
      ensures Space(s[i]) <==> s[i] as int in SPACES
    {
      SpacesExactly(s[i]);
    }
  }

  /** Small letters become capitals, the dotless i and the long s too, and every other character stays. */
  lemma UpperExactly(s: string, i: nat)
    requires i < |s|
    ensures |Upper(s)| == |s|
    ensures forall k :: 0 <= k < 26 && s[i] == SMALL[k] ==> Upper(s)[i] == CAPITAL[k]
    ensures s[i] as int == 0x131 ==> Upper(s)[i] == 'I'
    ensures s[i] as int == 0x17f ==> Upper(s)[i] == 'S'
    ensures s[i] !in SMALL && s[i] as int != 0x131 && s[i] as int != 0x17f ==> Upper(s)[i] == s[i]
  {
    assert forall k :: 0 <= k < 26 ==> SMALL[k] as int == 97 + k && CAPITAL[k] as int == 65 + k;
    if 97 <= s[i] as int <= 122 {
      assert s[i] == SMALL[s[i] as int - 97];
    }
  }

  /** Capitals become small letters, the long s an s, and every other character stays. */
  lemma FoldedExactly(s: string, i: nat)
    requires i < |s|
    ensures |Folded(s)| == |s|
    ensures forall k :: 0 <= k < 26 && s[i] == CAPITAL[k] ==> Folded(s)[i] == SMALL[k]
    ensures s[i] as int == 0x17f ==> Folded(s)[i] == 's'
    ensures s[i] !in CAPITAL && s[i] as int != 0x17f ==> Folded(s)[i] == s[i]
  {
    assert forall k :: 0 <= k < 26 ==> SMALL[k] as int == 97 + k && CAPITAL[k] as int == 65 + k;
    if 65 <= s[i] as int <= 90 {
      assert s[i] == CAPITAL[s[i] as int - 65];
    }
  }
}
