/**
  The argument validators of the command line (`main.go`): a context name must be
  non-empty and at most 255 bytes long in UTF-8, a host must be non-empty.
 */
module Cli {
  import opened Errors
  import opened Strings

  /** The longest accepted name, in bytes. */
  const MaxNameBytes := 255

  /** `validateName`. */
  function ValidateName(name: string): (r: Outcome)
    ensures r.Pass? <==> name != "" && Utf8Len(name) <= MaxNameBytes
    ensures name == "" ==> r == Fail(EmptyName)
    ensures name != "" && Utf8Len(name) > MaxNameBytes ==> r == Fail(NameTooLong)
  {
    if name == "" then Fail(EmptyName)
    else if Utf8Len(name) > MaxNameBytes then Fail(NameTooLong)
    else Pass
  }

  /** `validateHost`: only the empty host is rejected. */
  function ValidateHost(host: string): (r: Outcome)
    ensures r.Pass? <==> host != ""
    ensures r.Fail? ==> r == Fail(EmptyHost)
  {
    if host == "" then Fail(EmptyHost) else Pass
  }

  /** A name of ASCII characters is as long in bytes as in characters. */
  lemma {:induction false} AsciiByteLength(s: string)
    requires forall i :: 0 <= i < |s| ==> s[i] as int < 0x80
    ensures Utf8Len(s) == |s|
    decreases |s|
  {
    if s != [] {
      AsciiByteLength(s[..|s| - 1]);
    }
  }

  /**
    In characters: more than 255 is always too long, 1 to 63 is always accepted, and
    an ASCII name is accepted exactly when it has 1 to 255 characters.
   */
  lemma ValidateNameByCharacters(name: string)
    ensures |name| > MaxNameBytes ==> ValidateName(name) == Fail(NameTooLong)
    ensures 1 <= |name| <= MaxNameBytes / 4 ==> ValidateName(name).Pass?
    ensures (forall i :: 0 <= i < |name| ==> name[i] as int < 0x80) ==>
      (ValidateName(name).Pass? <==> 1 <= |name| <= MaxNameBytes)
  {
    Utf8LenBounds(name);
    if forall i :: 0 <= i < |name| ==> name[i] as int < 0x80 {
      AsciiByteLength(name);
    }
  }

  /** A two-byte character counts twice: 128 copies of 'é' (256 bytes) are too long. */
  lemma MultiByteNameTooLong()
    ensures ValidateName(seq(128, _ => 'é')) == Fail(NameTooLong)
  {
    var s := seq(128, _ => 'é');
    TwoByteLength(s);
  }

  lemma {:induction false} TwoByteLength(s: string)
    requires forall i :: 0 <= i < |s| ==> s[i] == 'é'
    ensures Utf8Len(s) == 2 * |s|
    decreases |s|
  {
    if s != [] {
      TwoByteLength(s[..|s| - 1]);
    }
  }
}
