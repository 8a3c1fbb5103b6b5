/** The deterministic archival Job name. */
module Archival {
  const NAME_PREFIX := "oscm-archive-"
  const MAX_NAME_LEN := 63
  const DIGEST_LEN := 8

  predicate Letter(c: char) { 'a' <= c <= 'z' }

  predicate LetDig(c: char) { Letter(c) || '0' <= c <= '9' }

  predicate LetDigHyp(c: char) { LetDig(c) || c == '-' }

  /** A label of section 2.3.1 of RFC 1035, in its lowercase form. */
  predicate DnsLabel(s: string) {
    && 0 < |s| <= MAX_NAME_LEN
    && Letter(s[0])
    && LetDig(s[|s| - 1])
    && LdhString(s)
  }

  predicate LdhString(s: string) { forall i :: 0 <= i < |s| ==> LetDigHyp(s[i]) }

  predicate HexDigest(s: string) {
    |s| == DIGEST_LEN && forall i :: 0 <= i < |s| ==> 'a' <= s[i] <= 'f' || '0' <= s[i] <= '9'
  }

  /** Drops the leading run of characters outside the label alphabet. */
  function DropRun(s: string): (r: string)
    ensures |r| <= |s|
    ensures s != "" && !LetDigHyp(s[0]) ==> |r| < |s|
    ensures r != "" ==> LetDigHyp(r[0])
  {
    if s != "" && !LetDigHyp(s[0]) then DropRun(s[1..]) else s
  }

  /** Replaces each run of characters outside the label alphabet by one hyphen. */
  function ReplaceRuns(s: string): (r: string)
    ensures forall i :: 0 <= i < |r| ==> LetDigHyp(r[i])
    ensures |r| <= |s|
    decreases |s|
  {
    if s == "" then ""
    else if LetDigHyp(s[0]) then [s[0]] + ReplaceRuns(s[1..])
    else "-" + ReplaceRuns(DropRun(s))
  }

  function StripLeft(s: string): (r: string)
    ensures r != "" ==> r[0] != '-'
    ensures |r| <= |s| && r == s[|s| - |r|..]
  {
    if s != "" && s[0] == '-' then StripLeft(s[1..]) else s
  }

  function StripRight(s: string): (r: string)
    ensures |r| <= |s| && r == s[..|r|]
    ensures r != "" ==> r[|r| - 1] != '-'
    ensures s != "" && s[0] != '-' ==> r != ""
  {
    if s != "" && s[|s| - 1] == '-' then StripRight(s[..|s| - 1]) else s
  }

  function Sanitized(id: string, lower: string -> string): string {
    StripRight(StripLeft(ReplaceRuns(lower(id))))
  }

  /** What stands between prefix and digest: nothing, or the id cut to its budget and a hyphen. */
  function Middle(sanitized: string): (r: string)
    ensures |r| <= MAX_NAME_LEN - |NAME_PREFIX| - DIGEST_LEN
    ensures LdhString(sanitized) ==> LdhString(r)
    ensures sanitized != "" && sanitized[0] != '-' ==> |r| >= 2 && r[0] == sanitized[0] && r[|r| - 2] != '-'
  {
    var budget := MAX_NAME_LEN - |NAME_PREFIX| - DIGEST_LEN - 1;
    if sanitized == "" then ""
    else StripRight(if |sanitized| <= budget then sanitized else sanitized[..budget]) + "-"
  }

  function JobName(id: string, lower: string -> string, digest: string -> string): string {
    NAME_PREFIX + Middle(Sanitized(id, lower)) + digest(id)
  }

  lemma SanitizedIsLdh(id: string, lower: string -> string)
    ensures LdhString(Sanitized(id, lower))
    ensures Sanitized(id, lower) != "" ==> Sanitized(id, lower)[0] != '-'
  {
    var left := StripLeft(ReplaceRuns(lower(id)));
    assert LdhString(left);
  }

  /** The prefix, any text of label characters and a digest make a label, if they fit. */
  lemma FramedIsLabel(middle: string, d: string)
    requires LdhString(middle) && HexDigest(d) && |middle| <= 42
    ensures DnsLabel(NAME_PREFIX + middle + d)
  {
    var name := NAME_PREFIX + middle + d;
    assert name[0] == 'o' && name[|name| - 1] == d[DIGEST_LEN - 1];
    forall i | 0 <= i < |name|
      ensures LetDigHyp(name[i])
    {
      if i < 13 {
        assert name[i] == NAME_PREFIX[i];
      } else if i < 13 + |middle| {
        assert name[i] == middle[i - 13];
      } else {
        assert name[i] == d[i - 13 - |middle|];
      }
    }
  }

  /** Whatever the id and however the runtime lowercases it, the name is a valid label. */
  lemma JobNameIsLabel(id: string, lower: string -> string, digest: string -> string)
    requires HexDigest(digest(id))
    ensures DnsLabel(JobName(id, lower, digest))
  {
    SanitizedIsLdh(id, lower);
    FramedIsLabel(Middle(Sanitized(id, lower)), digest(id));
  }

  /** Ids that share a name share a digest: sanitizing alone never makes two names collide. */
  lemma SameNameSameDigest(a: string, b: string, lower: string -> string, digest: string -> string)
    requires HexDigest(digest(a)) && HexDigest(digest(b))
    requires JobName(a, lower, digest) == JobName(b, lower, digest)
    ensures digest(a) == digest(b)
  {
    var name := JobName(a, lower, digest);
    assert name[|name| - DIGEST_LEN..] == digest(a);
    assert name[|name| - DIGEST_LEN..] == digest(b);
  }

  lemma {:induction false} CleanIsKept(s: string)
    requires forall i :: 0 <= i < |s| ==> LetDigHyp(s[i])
    ensures ReplaceRuns(s) == s
  {
    if s != "" { CleanIsKept(s[1..]); }
  }

  /** An id that is itself a label of at most 41 characters is kept whole between prefix and digest. */
  lemma CleanIdIsReadable(id: string, lower: string -> string, digest: string -> string)
    requires lower(id) == id && DnsLabel(id) && |id| <= 41
    ensures JobName(id, lower, digest) == NAME_PREFIX + id + "-" + digest(id)
  {
    CleanIsKept(id);
  }

  /** Characters outside the label alphabet only. */
  predicate Foreign(s: string) { forall i :: 0 <= i < |s| ==> !LetDigHyp(s[i]) }

  lemma {:induction false} DropRunIs(junk: string, rest: string)
    requires Foreign(junk) && (rest == "" || LetDigHyp(rest[0]))
    ensures DropRun(junk + rest) == rest
  {
    if junk == "" {
      assert junk + rest == rest;
    } else {
      assert (junk + rest)[1..] == junk[1..] + rest;
      DropRunIs(junk[1..], rest);
    }
  }

  /** Label characters stay, and each run of others between them becomes one hyphen. */
  lemma {:induction false} RunBecomesHyphen(clean: string, junk: string, rest: string)
    requires LdhString(clean) && Foreign(junk) && junk != "" && (rest == "" || LetDigHyp(rest[0]))
    ensures ReplaceRuns(clean + junk + rest) == clean + "-" + ReplaceRuns(rest)
  {
    if clean == "" {
      assert clean + junk + rest == junk + rest;
      DropRunIs(junk, rest);
    } else {
      assert (clean + junk + rest)[1..] == clean[1..] + junk + rest;
      RunBecomesHyphen(clean[1..], junk, rest);
    }
  }

  lemma {:induction false} HyphensAreStripped(s: string, k: nat)
    requires 0 < k <= |s| && s[k - 1] != '-' && forall i :: k <= i < |s| ==> s[i] == '-'
    ensures StripRight(s) == s[..k]
  {
    if k < |s| {
      assert s[..|s| - 1][..k] == s[..k];
      HyphensAreStripped(s[..|s| - 1], k);
    } else {
      assert s[..k] == s;
    }
  }

  /** A longer id that is a label is cut after 41 characters, and further back to the last that is no
      hyphen. */
  lemma LongIdIsCut(id: string, lower: string -> string, digest: string -> string, k: nat)
    requires lower(id) == id && LdhString(id) && |id| > 41 && id[0] != '-' && id[|id| - 1] != '-'
    requires 0 < k <= 41 && id[k - 1] != '-' && forall i :: k <= i < 41 ==> id[i] == '-'
    ensures JobName(id, lower, digest) == NAME_PREFIX + id[..k] + "-" + digest(id)
  {
    CleanIsKept(id);
    assert id[..41][..k] == id[..k];
    HyphensAreStripped(id[..41], k);
    assert NAME_PREFIX + (id[..k] + "-") + digest(id) == NAME_PREFIX + id[..k] + "-" + digest(id);
  }
}
