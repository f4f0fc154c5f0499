/** The identifier patterns the packages compile once and the profile names, as predicates on strings. */
module Patterns {
  import opened Strings

  predicate LowerHex(c: char) {
    '0' <= c <= '9' || 'a' <= c <= 'f'
  }

  predicate LowerAlnum(c: char) {
    '0' <= c <= '9' || 'a' <= c <= 'z'
  }

  predicate AllLowerHex(s: string) {
    forall i :: 0 <= i < |s| ==> LowerHex(s[i])
  }

  predicate AllLowerAlnumOrDash(s: string) {
    forall i :: 0 <= i < |s| ==> LowerAlnum(s[i]) || s[i] == '-'
  }

  /** Sixty-four lower-case hexadecimal digits. */
  predicate IsDigest(s: string) {
    |s| == 64 && AllLowerHex(s)
  }

  /** A lower-case UUID of versions 1 to 5. */
  predicate IsUuid(s: string) {
    && |s| == 36
    && s[8] == '-' && s[13] == '-' && s[18] == '-' && s[23] == '-'
    && AllLowerHex(s[..8]) && AllLowerHex(s[9..13]) && AllLowerHex(s[14..18]) && AllLowerHex(s[19..23])
    && AllLowerHex(s[24..]) && '1' <= s[14] <= '5' && s[19] in "89ab"
  }

  /** `prefix` followed by one letter or digit and two to sixty-two letters, digits or dashes. */
  predicate IsNamed(prefix: string, s: string) {
    && prefix <= s && 3 <= |s| - |prefix| <= 63
    && LowerAlnum(s[|prefix|]) && AllLowerAlnumOrDash(s[|prefix|..])
  }

  predicate IsCageID(s: string) {
    IsNamed("cage-", s)
  }

  predicate IsPolicyID(s: string) {
    IsNamed("policy-", s)
  }

  predicate IsHostID(s: string) {
    IsNamed("host-", s)
  }

  /** Major and minor device numbers: `[0-9]{1,4}:[0-9]{1,6}`. */
  predicate IsDevice(s: string) {
    exists k :: 1 <= k <= 4 && k < |s| && s[k] == ':' && 1 <= |s| - k - 1 <= 6
             && (forall i :: 0 <= i < |s| && i != k ==> '0' <= s[i] <= '9')
  }

  predicate SpiffeHostChar(c: char) {
    LowerAlnum(c) || c == '.' || c == '-'
  }

  predicate SpiffePathChar(c: char) {
    LowerAlnum(c) || 'A' <= c <= 'Z' || c in "._/-"
  }

  /** `spiffe://` host `/` path. */
  predicate IsSpiffe(s: string) {
    && "spiffe://" <= s && |s| > 9 && LowerAlnum(s[9])
    && exists k :: 10 <= k < |s| - 1 && s[k] == '/'
                && (forall i :: 9 <= i < k ==> SpiffeHostChar(s[i]))
                && (forall i :: k < i < |s| ==> SpiffePathChar(s[i]))
  }

  predicate IsHostLabel(s: string) {
    && 1 <= |s| <= 63 && LowerAlnum(s[0]) && LowerAlnum(s[|s| - 1]) && AllLowerAlnumOrDash(s)
  }

  predicate IsHostname(s: string) {
    var labels := Split(s, '.');
    forall i :: 0 <= i < |labels| ==> IsHostLabel(labels[i])
  }

  /** `v` and three dotted decimal numbers. */
  predicate IsRelease(s: string) {
    && s != "" && s[0] == 'v'
    && var parts := Split(s[1..], '.');
       |parts| == 3 && forall i :: 0 <= i < 3 ==> parts[i] != "" && AllDecimal(parts[i])
  }

  predicate AllDecimal(s: string) {
    forall i :: 0 <= i < |s| ==> '0' <= s[i] <= '9'
  }

  predicate IsCommit(s: string) {
    40 <= |s| <= 64 && AllLowerHex(s)
  }

  predicate ValidProfile(profile: string) {
    profile == "sharedTenant" || profile == "dedicatedAdministrator"
  }

  predicate ValidEditionProfile(edition: string, profile: string) {
    (edition == "shared" && profile == "sharedTenant") || (edition == "dedicated" && profile == "dedicatedAdministrator")
  }
}
