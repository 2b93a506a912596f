/**
 * Resource-name derivation (pkg/provider/provider.go, the naming helpers):
 * a character-wise rewrite into the alphabet [A-Za-z0-9-], and the profile
 * and endpoint names built from it.
 */
module Naming {
  import opened Decimal

  predicate IsAsciiLetter(c: char) { ('a' <= c <= 'z') || ('A' <= c <= 'Z') }

  predicate IsAlnum(c: char) { IsAsciiLetter(c) || IsDigit(c) }

  /** The alphabet every generated resource name is drawn from. */
  predicate IsNameChar(c: char) { IsAlnum(c) || c == '-' }

  predicate AllNameChars(s: string) { forall i :: 0 <= i < |s| ==> IsNameChar(s[i]) }

  predicate AllAlnum(s: string) { forall i :: 0 <= i < |s| ==> IsAlnum(s[i]) }

  function SanitizeChar(c: char): char { if IsAlnum(c) then c else '-' }

  /** sanitizeName as a value: each character kept if alphanumeric, else '-'. */
  function Sanitized(s: string): string
  {
    seq(|s|, i requires 0 <= i < |s| => SanitizeChar(s[i]))
  }

  /** sanitizeName: builds the result one character at a time. */
  method SanitizeName(name: string) returns (sanitized: string)
    ensures sanitized == Sanitized(name)
  {
    sanitized := "";
    var i := 0;
    while i < |name|
      invariant 0 <= i <= |name|
      invariant sanitized == Sanitized(name[..i])
    {
      var c := name[i];
      if IsAsciiLetter(c) || IsDigit(c) {
        sanitized := sanitized + [c];
      } else {
        sanitized := sanitized + "-";
      }
      assert Sanitized(name[..i + 1]) == Sanitized(name[..i]) + [SanitizeChar(c)];
      i := i + 1;
    }
    assert name[..i] == name;
  }

  /** The output has the input's length, stays in the name alphabet, keeps alphanumerics and replaces the rest. */
  lemma SanitizedShape(s: string)
    ensures |Sanitized(s)| == |s|
    ensures AllNameChars(Sanitized(s))
    ensures forall i :: 0 <= i < |s| ==> (Sanitized(s)[i] == s[i] <==> IsAlnum(s[i]) || s[i] == '-')
    ensures forall i :: 0 <= i < |s| && !IsAlnum(s[i]) ==> Sanitized(s)[i] == '-'
  {
  }

  /** Applying sanitizeName twice changes nothing. */
  lemma SanitizedIdempotent(s: string)
    ensures Sanitized(Sanitized(s)) == Sanitized(s)
  {
  }

  /** sanitizeName leaves a string unchanged exactly when it has no character outside [A-Za-z0-9-]. */
  lemma SanitizedFixedIff(s: string)
    ensures Sanitized(s) == s <==> AllNameChars(s)
  {
    if Sanitized(s) == s {
      forall i | 0 <= i < |s| ensures IsNameChar(s[i]) {
        assert Sanitized(s)[i] == s[i];
      }
    }
  }

  /** sanitizeName distributes over concatenation. */
  lemma SanitizedAppend(a: string, b: string)
    ensures Sanitized(a + b) == Sanitized(a) + Sanitized(b)
  {
  }

  /** The cases the tests pin down. */
  lemma SanitizedExamples()
    ensures Sanitized("app.example.com") == "app-example-com"
    ensures Sanitized("app_service") == "app-service"
    ensures Sanitized("mixed.Case_123@test") == "mixed-Case-123-test"
    ensures Sanitized("special!@#$%chars") == "special-----chars"
  {
    assert Sanitized("app.example.com") == "app-example-com";
    assert Sanitized("app_service") == "app-service";
    assert Sanitized("mixed.Case_123@test") == "mixed-Case-123-test";
    assert Sanitized("special!@#$%chars") == "special-----chars";
  }

  const ProfileSuffix: string := "-tm"

  /** generateProfileName */
  function GenerateProfileName(dnsName: string): string
  {
    Sanitized(dnsName) + ProfileSuffix
  }

  /** A profile name is the sanitized hostname followed by "-tm", in the name alphabet. */
  lemma ProfileNameShape(dnsName: string)
    ensures var r := GenerateProfileName(dnsName);
      && |r| == |dnsName| + 3
      && r[..|dnsName|] == Sanitized(dnsName)
      && r[|dnsName|..] == ProfileSuffix
      && AllNameChars(r)
  {
    SanitizedShape(dnsName);
    var r := GenerateProfileName(dnsName);
    assert forall i :: |dnsName| <= i < |r| ==> r[i] == ProfileSuffix[i - |dnsName|];
  }

  /** Two hostnames share a profile name exactly when they sanitize alike. */
  lemma ProfileNameCollidesIff(a: string, b: string)
    ensures GenerateProfileName(a) == GenerateProfileName(b) <==> Sanitized(a) == Sanitized(b)
  {
    if GenerateProfileName(a) == GenerateProfileName(b) {
      ProfileNameShape(a);
      ProfileNameShape(b);
    }
  }

  /**
   * generateEndpointName: the first target's sanitized form, or the DNS
   * name's when there is none. The chosen source keeps its length, its
   * alphanumerics and its dashes, and every other character becomes '-'.
   */
  function GenerateEndpointName(dnsName: string, targets: seq<string>): (r: string)
    ensures var src := if |targets| > 0 then targets[0] else dnsName;
      && |r| == |src|
      && AllNameChars(r)
      && (forall i :: 0 <= i < |src| ==> (r[i] == src[i] <==> IsNameChar(src[i])))
      && (forall i :: 0 <= i < |src| && !IsAlnum(src[i]) ==> r[i] == '-')
  {
    if |targets| > 0 then Sanitized(targets[0]) else Sanitized(dnsName)
  }

  /** The name with "-i" appended, as the indexed endpoint names are written. */
  function Indexed(name: string, index: nat): string
  {
    name + "-" + NatToDecimal(index)
  }

  /** generateEndpointNameFromTarget: the sanitized target, with "-index" only when index > 0. */
  function GenerateEndpointNameFromTarget(target: string, index: nat): string
  {
    if index > 0 then Indexed(Sanitized(target), index) else Sanitized(target)
  }

  /** Indexed names with different indices never collide, whatever the names. */
  lemma IndexedDistinct(x: string, i: nat, y: string, j: nat)
    requires Indexed(x, i) == Indexed(y, j)
    ensures i == j && x == y
  {
    assert x + "-" + NatToDecimal(i) == Indexed(x, i);
    DashSuffixUnique(x, NatToDecimal(i), y, NatToDecimal(j));
    DecimalInjective(i, j);
  }

  /** The endpoint name generated for index 0 is the bare sanitized target; later ones are longer. */
  lemma EndpointNameFromTargetShape(target: string, index: nat)
    ensures index == 0 ==> GenerateEndpointNameFromTarget(target, index) == Sanitized(target)
    ensures index > 0 ==> |GenerateEndpointNameFromTarget(target, index)| > |target| + 1
    ensures AllNameChars(GenerateEndpointNameFromTarget(target, index))
  {
    SanitizedShape(target);
    if index > 0 {
      var d := NatToDecimal(index);
      var r := Indexed(Sanitized(target), index);
      forall i | 0 <= i < |r| ensures IsNameChar(r[i]) {
        if i < |target| {
          assert r[i] == Sanitized(target)[i];
        } else if i == |target| {
          assert r[i] == '-';
        } else {
          assert r[i] == d[i - |target| - 1];
        }
      }
    }
  }

  /** The endpoint-name cases the tests pin down. */
  lemma EndpointNameExamples()
    ensures GenerateEndpointName("app.example.com", ["20.30.40.50"]) == "20-30-40-50"
    ensures GenerateEndpointName("app.example.com", []) == "app-example-com"
    ensures GenerateEndpointName("app.example.com", ["20.30.40.50", "20.30.40.51"]) == "20-30-40-50"
    ensures GenerateEndpointNameFromTarget("backend.internal", 0) == "backend-internal"
    ensures GenerateEndpointNameFromTarget("backend.internal", 2) == "backend-internal-2"
  {
    assert Sanitized("20.30.40.50") == "20-30-40-50";
    assert Sanitized("app.example.com") == "app-example-com";
    assert Sanitized("backend.internal") == "backend-internal";
    assert NatToDecimal(2) == "2";
  }
}
