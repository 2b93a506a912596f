/**
 * The name of the DNSEndpoint resource published for a vanity hostname
 * (GenerateName in pkg/dnsendpoint/manager.go): dots become '-', letters,
 * digits and '-' are kept, everything else is dropped, then "-tm-cname".
 */
module DnsEndpoint {
  import opened Naming
  import opened Decimal

  const CnameSuffix: string := "-tm-cname"

  /** What one input character contributes to the name. */
  function CnameChars(c: char): string
  {
    if c == '.' then "-" else if IsNameChar(c) then [c] else []
  }

  /** The part of the name before the suffix. */
  function CnameStem(s: string): string
  {
    if |s| == 0 then [] else CnameStem(s[..|s| - 1]) + CnameChars(s[|s| - 1])
  }

  /** The name GenerateName is specified to return. */
  function CnameName(hostname: string): string
  {
    CnameStem(hostname) + CnameSuffix
  }

  /** GenerateName: the per-character loop, then the suffix. */
  method GenerateName(hostname: string) returns (name: string)
    ensures name == CnameName(hostname)
  {
    name := "";
    var i := 0;
    while i < |hostname|
      invariant 0 <= i <= |hostname|
      invariant name == CnameStem(hostname[..i])
    {
      var c := hostname[i];
      if c == '.' {
        name := name + "-";
      } else if IsAsciiLetter(c) || IsDigit(c) || c == '-' {
        name := name + [c];
      }
      assert hostname[..i + 1][..i] == hostname[..i];
      i := i + 1;
    }
    assert hostname[..i] == hostname;
    name := name + CnameSuffix;
  }

  /** The stem is drawn from [A-Za-z0-9-] and is never longer than the hostname. */
  lemma {:induction false} StemShape(s: string)
    ensures AllNameChars(CnameStem(s))
    ensures |CnameStem(s)| <= |s|
  {
    if |s| > 0 {
      StemShape(s[..|s| - 1]);
    }
  }

  /** Every name ends with the suffix, after a stem in the name alphabet. */
  lemma CnameNameShape(hostname: string)
    ensures var r := CnameName(hostname);
      && |r| >= |CnameSuffix| && r[|r| - |CnameSuffix|..] == CnameSuffix
      && AllNameChars(r[..|r| - |CnameSuffix|])
      && |r| <= |hostname| + |CnameSuffix|
  {
    StemShape(hostname);
    var r := CnameName(hostname);
    assert r[..|r| - |CnameSuffix|] == CnameStem(hostname);
  }

  /** On a string already in the name alphabet, the stem is the identity. */
  lemma {:induction false} StemOfNameChars(s: string)
    requires AllNameChars(s)
    ensures CnameStem(s) == s
  {
    if |s| > 0 {
      StemOfNameChars(s[..|s| - 1]);
      assert s == s[..|s| - 1] + [s[|s| - 1]];
    }
  }

  /** Re-applying the character filter to the stem returns it unchanged. */
  lemma StemIdempotent(s: string)
    ensures CnameStem(CnameStem(s)) == CnameStem(s)
  {
    StemShape(s);
    StemOfNameChars(CnameStem(s));
  }

  /** On hostnames over [A-Za-z0-9.-], GenerateName agrees with sanitizeName followed by the suffix. */
  lemma {:induction false} StemAgreesWithSanitize(s: string)
    requires forall i :: 0 <= i < |s| ==> IsNameChar(s[i]) || s[i] == '.'
    ensures CnameStem(s) == Sanitized(s)
    ensures CnameName(s) == Sanitized(s) + CnameSuffix
  {
    if |s| > 0 {
      var init := s[..|s| - 1];
      StemAgreesWithSanitize(init);
      assert s == init + [s[|s| - 1]];
      SanitizedAppend(init, [s[|s| - 1]]);
    }
  }

  /** A character outside [A-Za-z0-9.-] is dropped, where sanitizeName would have written '-'. */
  lemma DroppedCharacter()
    ensures CnameName("a_b.com") == "ab-com-tm-cname"
    ensures Sanitized("a_b.com") == "a-b-com"
  {
    assert CnameStem("a_b.com") == "ab-com" by {
      assert "a_b.com"[..6] == "a_b.co";
      assert "a_b.com"[..6][..5] == "a_b.c";
      assert "a_b.com"[..6][..5][..4] == "a_b.";
      assert "a_b.com"[..6][..5][..4][..3] == "a_b";
      assert "a_b.com"[..6][..5][..4][..3][..2] == "a_";
      assert "a_b.com"[..6][..5][..4][..3][..2][..1] == "a";
    }
  }
}
