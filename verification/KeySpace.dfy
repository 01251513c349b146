/** The one key space that the timeout status, the result cache, digest resolution, the scan-result
    cache and (in local development) the token cache share. */
module KeySpace {
  const TIMEOUT_PREFIX := "timeout"
  const RESULT_PREFIX := "ContainerVulnerabilityScanInfo"
  const DIGEST_PREFIX := "sha256:"
  const ACR_SUFFIX := ".azurecr.io"

  function TimeoutKey(podKey: string): string {
    TIMEOUT_PREFIX + podKey
  }

  function ResultKey(podKey: string): string {
    RESULT_PREFIX + podKey
  }

  predicate IsMark(c: char) {
    c == '.' || c == '/' || c == ':'
  }

  /** The first of '.', '/' and ':' in a key, or ' ' when there is none. */
  function FirstMark(s: string): char {
    if s == [] then ' ' else if IsMark(s[0]) then s[0] else FirstMark(s[1..])
  }

  /** A pod key whose first container name holds no '.', '/' or ':' (an empty pod has the key ""). */
  predicate PlainKey(podKey: string) {
    FirstMark(podKey) == ':' || podKey == ""
  }

  // The shapes of the other users' keys.

  /** Digest resolution: an image reference in ACR, its host first. */
  predicate ImageKey(key: string) {
    FirstMark(key) == '.' && '/' in key
  }

  /** Scan results: a sha256 digest, or the empty one of a resolver that never asked. */
  predicate ScanKey(key: string) {
    DIGEST_PREFIX <= key || key == ""
  }

  /** Tokens: a registry host in ACR. */
  predicate TokenKey(key: string) {
    FirstMark(key) == '.' && '/' !in key
  }

  predicate ForeignKey(key: string) {
    ImageKey(key) || ScanKey(key) || TokenKey(key)
  }

  lemma {:induction false} FirstMarkAppend(plain: string, rest: string)
    requires forall c | c in plain :: !IsMark(c)
    ensures FirstMark(plain + rest) == FirstMark(rest)
  {
    if plain == [] {
      assert plain + rest == rest;
    } else {
      assert (plain + rest)[1..] == plain[1..] + rest;
      FirstMarkAppend(plain[1..], rest);
    }
  }

  /** Keys of the two provider uses never collide with each other, whatever the pod keys. */
  lemma ProviderKeysSeparate(k1: string, k2: string)
    ensures TimeoutKey(k1) != ResultKey(k2)
    ensures TimeoutKey(k1) == TimeoutKey(k2) <==> k1 == k2
    ensures ResultKey(k1) == ResultKey(k2) <==> k1 == k2
  {
    assert TimeoutKey(k1)[0] == 't' && ResultKey(k2)[0] == 'C';
    assert TimeoutKey(k1)[|TIMEOUT_PREFIX|..] == k1 && TimeoutKey(k2)[|TIMEOUT_PREFIX|..] == k2;
    assert ResultKey(k1)[|RESULT_PREFIX|..] == k1 && ResultKey(k2)[|RESULT_PREFIX|..] == k2;
  }

  /** No other user of the cache can touch the timeout status or the results of a plain pod key. */
  lemma ForeignKeysSeparate(key: string, podKey: string)
    requires ForeignKey(key) && PlainKey(podKey)
    ensures key != TimeoutKey(podKey) && key != ResultKey(podKey)
  {
    FirstMarkAppend(TIMEOUT_PREFIX, podKey);
    FirstMarkAppend(RESULT_PREFIX, podKey);
    assert TimeoutKey(podKey)[0] == 't' && ResultKey(podKey)[0] == 'C';
  }

  function Lower(s: string): (l: string)
    ensures |l| == |s|
    ensures forall i :: 0 <= i < |s| ==> (l[i] == '.' <==> s[i] == '.')
  {
    seq(|s|, i requires 0 <= i < |s| => if 'A' <= s[i] <= 'Z' then s[i] - 'A' + 'a' else s[i])
  }

  /** `IsRegistryEndpointACR`. */
  predicate IsAcr(host: string) {
    |host| >= |ACR_SUFFIX| && Lower(host)[|host| - |ACR_SUFFIX|..] == ACR_SUFFIX
  }

  /** A letter and what it becomes in lower case. */
  predicate FoldsTo(c: char, lower: char) {
    c == lower || ('A' <= c <= 'Z' && c as int + 32 == lower as int)
  }

  /** `text` spells `lower` in any mixture of cases. */
  predicate Spells(text: string, lower: string) {
    |text| == |lower| && forall i :: 0 <= i < |text| ==> FoldsTo(text[i], lower[i])
  }

  /** A host is one of ACR exactly when it ends in the suffix of ACR, in any mixture of cases. */
  lemma IsAcrIff(host: string)
    ensures IsAcr(host) <==> |host| >= 11 && Spells(host[|host| - 11..], ".azurecr.io")
  {
    if |host| >= 11 {
      var i := |host| - 11;
      assert Lower(host)[i..] == Lower(host[i..]);
      LowerSpells(host[i..], ".azurecr.io");
    }
  }

  lemma LowerSpells(text: string, lower: string)
    requires forall c :: c in lower ==> !('A' <= c <= 'Z')
    ensures Lower(text) == lower <==> Spells(text, lower)
  {
    if Spells(text, lower) {
      forall i | 0 <= i < |text| ensures Lower(text)[i] == lower[i] {
        assert FoldsTo(text[i], lower[i]) && lower[i] in lower;
      }
    }
  }

  /** A registry host as it stands in front of an image reference. */
  predicate AcrHost(host: string) {
    IsAcr(host) && forall c | c in host :: c != '/' && c != ':'
  }

  lemma {:induction false} HostMark(host: string, rest: string)
    requires forall c | c in host :: c != '/' && c != ':'
    requires '.' in host
    ensures FirstMark(host + rest) == '.'
  {
    var whole := host + rest;
    assert whole[0] == host[0];
    if host[0] != '.' {
      assert host[0] in host && !IsMark(host[0]);
      assert whole[1..] == host[1..] + rest;
      assert forall c | c in host[1..] :: c in host;
      HostMark(host[1..], rest);
    }
  }

  lemma AcrHasDot(host: string)
    requires IsAcr(host)
    ensures '.' in host
  {
    var i := |host| - |ACR_SUFFIX|;
    assert Lower(host)[i] == Lower(host)[i..][0] == '.';
  }

  /** The keys that the other three users write have their shapes: digest resolution keys by image
      reference (an ACR host, a slash and the rest), the scan-result cache by digest, the token cache by
      ACR host. */
  lemma OtherUsersKeys(host1: string, rest: string, digest: string, host2: string)
    requires AcrHost(host1) && AcrHost(host2) && DIGEST_PREFIX <= digest
    ensures ImageKey(host1 + "/" + rest) && ScanKey(digest) && TokenKey(host2)
  {
    AcrHasDot(host1);
    AcrHasDot(host2);
    var image := host1 + "/" + rest;
    assert image == host1 + ("/" + rest);
    HostMark(host1, "/" + rest);
    assert host2 == host2 + "";
    HostMark(host2, "");
    assert image[|host1|] == '/';
  }

  lemma DigestMark(digest: string)
    requires DIGEST_PREFIX <= digest
    ensures FirstMark(digest) == ':'
  {
    assert digest == "sha256" + digest[6..];
    FirstMarkAppend("sha256", digest[6..]);
    assert digest[6] == DIGEST_PREFIX[6];
  }

  /** The five users never share a key: no key has two of the three foreign shapes, and none is a
      timeout or result key of a plain pod. */
  lemma UsersSeparate(key: string, podKey: string)
    requires PlainKey(podKey)
    ensures !(ImageKey(key) && ScanKey(key)) && !(ImageKey(key) && TokenKey(key)) && !(ScanKey(key) && TokenKey(key))
    ensures key == TimeoutKey(podKey) || key == ResultKey(podKey) ==> !ForeignKey(key)
    ensures forall other :: key == TimeoutKey(podKey) ==> key != ResultKey(other)
  {
    forall other ensures key == TimeoutKey(podKey) ==> key != ResultKey(other) {
      ProviderKeysSeparate(podKey, other);
    }
    if DIGEST_PREFIX <= key {
      DigestMark(key);
    }
    if ForeignKey(key) {
      ForeignKeysSeparate(key, podKey);
    }
  }
}
