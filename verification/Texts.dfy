/** Text functions of the source, on the characters that matter to its tests. */
module Texts {

  /** str.upper where one character gives one ASCII letter: a to z, the dotless i U+0131 and the long s U+017F. */
  function Upper(s: string): string {
    seq(|s|, i requires 0 <= i < |s| =>
      if 'a' <= s[i] <= 'z' then (s[i] as int - 32) as char
      else if s[i] as int == 0x131 then 'I'
      else if s[i] as int == 0x17f then 'S'
      else s[i])
  }

  /** str.casefold for the letters of the internal prefixes; U+017F also folds to s. */
  function Folded(s: string): string {
    seq(|s|, i requires 0 <= i < |s| =>
      if 'A' <= s[i] <= 'Z' then (s[i] as int + 32) as char else if s[i] as int == 0x17f then 's' else s[i])
  }

  /** What str.strip removes at either end. */
  predicate Space(c: char) {
    var n := c as int;
    || 9 <= n <= 13 || 28 <= n <= 32 || n == 0x85 || n == 0xa0 || n == 0x1680 || 0x2000 <= n <= 0x200a
    || n == 0x2028 || n == 0x2029 || n == 0x202f || n == 0x205f || n == 0x3000
  }

  /** The text is empty once str.strip has removed white space. */
  predicate Blank(s: string) {
    forall i :: 0 <= i < |s| ==> Space(s[i])
  }
}
