/**
 Choice of the AIGER encoding from a file name. A name selects the ASCII
 encoding exactly when it is longer than four characters and ends in ".aag";
 every other name, ".aag" itself included, selects the binary encoding.
 The test is written as the program writes it, with `strlen` and `strcmp`
 on NUL-terminated strings.
 */
module FileFormat {

  /** A C string as passed on the command line: its characters contain no NUL,
      the terminator itself is implicit. */
  predicate NoNul(s: string)
  {
    forall k :: 0 <= k < |s| ==> s[k] != '\0'
  }

  type CString = s: string | NoNul(s)

  /** The character code `strcmp` reads at the start of `s`: 0 at the terminator. */
  function Head(s: string): (c: nat)
  {
    if |s| == 0 then 0 else s[0] as nat
  }

  /** C `strcmp`: compares character by character and stops at the first
      difference or at the terminator. On strings without NUL it reports 0
      exactly for equal strings. */
  function Strcmp(a: string, b: string): (r: int)
    ensures NoNul(a) && NoNul(b) ==> (r == 0 <==> a == b)
    decreases |a|
  {
    if Head(a) != Head(b) then
      assert NoNul(a) && NoNul(b) ==> a != b;
      Head(a) - Head(b)
    else if Head(a) == 0 then
      assert NoNul(a) && NoNul(b) ==> a == [] && b == [];
      0
    else
      assert NoNul(a) ==> NoNul(a[1..]);
      assert NoNul(b) ==> NoNul(b[1..]);
      assert a == [a[0]] + a[1..] && b == [b[0]] + b[1..];
      Strcmp(a[1..], b[1..])
  }

  /** The extension that selects the ASCII encoding. */
  const AsciiSuffix: string := ".aag"

  /** The program's test: `strlen(name) > 4 && strcmp(name + strlen(name) - 4, ".aag") == 0`.
      It holds exactly when the name is strictly longer than the extension and ends with it. */
  function IsAsciiName(name: CString): (ascii: bool)
    ensures ascii <==> |name| > 4 && name[|name| - 4..] == AsciiSuffix
  {
    |name| > 4 && Strcmp(name[|name| - 4..], AsciiSuffix) == 0
  }

  /** The boundary cases: the bare extension is binary, one more character makes
      it ASCII, the match is case-sensitive, and ".aig" is binary. */
  lemma SuffixBoundaries()
    ensures !IsAsciiName(".aag")
    ensures IsAsciiName("x.aag")
    ensures !IsAsciiName("x.AAG")
    ensures !IsAsciiName("model.aig")
    ensures !IsAsciiName("aag")
  {
  }
}
