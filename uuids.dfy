/**
 * The text form `str(uuid.UUID(...))` of the identifiers films, users and
 * parties carry, and the parsing a pydantic `uuid.UUID` field applies to
 * hyphenated input.
 */
module Uuids {
  import opened Wrappers

  const HexDigits: string := "0123456789abcdef"

  /** Canonical form: 36 characters, lower-case hex digits with dashes at positions 8, 13, 18 and 23. */
  predicate IsUuidText(s: string) {
    |s| == 36 &&
    forall i :: 0 <= i < |s| ==>
      if IsDashPosition(i) then s[i] == '-' else s[i] in HexDigits
  }

  type Uuid = s: string | IsUuidText(s) witness "00000000-0000-0000-0000-000000000000"

  /** No UUID text holds a space, so a UUID survives `split(" ")` whole. */
  lemma UuidHasNoSpace(u: Uuid)
    ensures ' ' !in u
  {
  }

  /** A hex digit in either case, and its lower-case form. */
  predicate IsHexDigit(c: char) {
    ('0' <= c <= '9') || ('a' <= c <= 'f') || ('A' <= c <= 'F')
  }

  function LowerHex(c: char): (r: char)
    requires IsHexDigit(c)
    ensures r in HexDigits
  {
    if 'A' <= c <= 'F' then (c as int - 'A' as int + 'a' as int) as char
    else if '0' <= c <= '9' then HexDigits[c as int - '0' as int]
    else HexDigits[10 + c as int - 'a' as int]
  }

  predicate IsDashPosition(i: int) {
    i == 8 || i == 13 || i == 18 || i == 23
  }

  /** Hyphenated UUID text in either case, as a `uuid.UUID` field accepts it. */
  predicate IsUuidInput(s: string) {
    |s| == 36 &&
    forall i :: 0 <= i < |s| ==> if IsDashPosition(i) then s[i] == '-' else IsHexDigit(s[i])
  }

  /** `UUID(s)` on hyphenated text: the canonical lower-case form, or None. */
  function ParseUuid(s: string): (r: Option<Uuid>)
    ensures r.Some? <==> IsUuidInput(s)
    ensures r.Some? ==> |r.value| == |s| && forall i :: 0 <= i < |s| && IsDashPosition(i) ==> r.value[i] == '-'
    ensures r.Some? ==> forall i :: 0 <= i < |s| && !IsDashPosition(i) ==> r.value[i] == LowerHex(s[i])
  {
    if IsUuidInput(s) then
      var t := seq(|s|, i requires 0 <= i < |s| => if IsDashPosition(i) then '-' else LowerHex(s[i]));
      assert IsUuidText(t);
      Some(t)
    else None
  }

  /** A canonical digit is its own lower-case form. */
  lemma LowerHexFixes(c: char)
    requires c in HexDigits
    ensures IsHexDigit(c) && LowerHex(c) == c
  {
    var i :| 0 <= i < |HexDigits| && HexDigits[i] == c;
    if i >= 10 {
      assert HexDigits[10 + c as int - 'a' as int] == HexDigits[i];
    }
  }

  /** Canonical text parses to itself. */
  lemma ParseCanonical(u: Uuid)
    ensures ParseUuid(u) == Some(u)
  {
    forall i | 0 <= i < |u| && !IsDashPosition(i)
      ensures IsHexDigit(u[i]) && LowerHex(u[i]) == u[i]
    {
      LowerHexFixes(u[i]);
    }
    assert IsUuidInput(u);
    var t := ParseUuid(u).value;
    assert forall i :: 0 <= i < |u| ==> t[i] == u[i];
    assert t == u;
  }
}
