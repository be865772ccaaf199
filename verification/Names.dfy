/**
 Names and labels: NameForMirrorTrigger and SanitizeLabelValue of internal/jobs/builder.go,
 SyncLeaseName of internal/controller/gitmirror_controller.go.

 Two things are parameters: `hash`, the first twelve hex digits of SHA-256, and `lower`, the
 rune-wise strings.ToLower, of which only its action on ASCII letters, digits and dashes matters.
 */
module Names {

  predicate LowerAlnum(c: char) { 'a' <= c <= 'z' || '0' <= c <= '9' }
  predicate DnsChar(c: char) { LowerAlnum(c) || c == '-' }
  predicate HexChar(c: char) { 'a' <= c <= 'f' || '0' <= c <= '9' }
  predicate LabelAlnum(c: char) { LowerAlnum(c) || 'A' <= c <= 'Z' }
  predicate LabelChar(c: char) { LabelAlnum(c) || c == '-' || c == '_' || c == '.' }

  const HASH_LENGTH := 12
  const MAX_LABEL := 63
  const MAX_BASE := MAX_LABEL - HASH_LENGTH - 1

  /** A truncated hex digest. */
  ghost predicate IsHash(hash: string -> string) {
    forall s :: |hash(s)| == HASH_LENGTH && forall i :: 0 <= i < HASH_LENGTH ==> HexChar(hash(s)[i])
  }

  function AsciiLower(c: char): char { if 'A' <= c <= 'Z' then (c as int + 32) as char else c }

  /** On the letters, digits and the dash of ASCII `lower` is what it says. */
  ghost predicate IsLower(lower: char -> char) {
    forall c :: LabelAlnum(c) || c == '-' ==> lower(c) == AsciiLower(c)
  }

  /** A label in the sense of section 2.1 of RFC 1123, in lower case. */
  predicate ValidDnsLabel(s: string) {
    && 1 <= |s| <= MAX_LABEL
    && (forall i :: 0 <= i < |s| ==> DnsChar(s[i]))
    && LowerAlnum(s[0]) && LowerAlnum(s[|s| - 1])
  }

  predicate ValidLabelValue(s: string) {
    && 1 <= |s| <= MAX_LABEL
    && (forall i :: 0 <= i < |s| ==> LabelChar(s[i]))
    && LabelAlnum(s[0]) && LabelAlnum(s[|s| - 1])
  }

  /******* Trimming *******/

  function TrimLeft(s: string, keep: char -> bool): (r: string)
    ensures r == [] || keep(r[0])
    ensures |r| <= |s| && r == s[|s| - |r|..]
    ensures forall i :: 0 <= i < |s| - |r| ==> !keep(s[i])
  {
    if s == [] || keep(s[0]) then s else TrimLeft(s[1..], keep)
  }

  function TrimRight(s: string, keep: char -> bool): (r: string)
    ensures r == [] || keep(r[|r| - 1])
    ensures r <= s
    ensures forall i :: |r| <= i < |s| ==> !keep(s[i])
  {
    if s == [] || keep(s[|s| - 1]) then s else TrimRight(s[..|s| - 1], keep)
  }

  lemma {:induction false} TrimLeftAt(s: string, keep: char -> bool, lo: nat)
    requires lo < |s| && keep(s[lo]) && forall i :: 0 <= i < lo ==> !keep(s[i])
    ensures TrimLeft(s, keep) == s[lo..]
    decreases lo
  {
    if lo > 0 {
      TrimLeftAt(s[1..], keep, lo - 1);
    }
  }

  lemma {:induction false} TrimRightAt(s: string, keep: char -> bool, hi: nat)
    requires 0 < hi <= |s| && keep(s[hi - 1]) && forall i :: hi <= i < |s| ==> !keep(s[i])
    ensures TrimRight(s, keep) == s[..hi]
    decreases |s|
  {
    if hi < |s| {
      TrimRightAt(s[..|s| - 1], keep, hi);
    }
  }

  /******* Names *******/

  function DnsClean(s: string, lower: char -> char): (r: string)
    ensures |r| == |s| && forall i :: 0 <= i < |r| ==> DnsChar(r[i])
  {
    seq(|s|, i requires 0 <= i < |s| => if DnsChar(lower(s[i])) then lower(s[i]) else '-')
  }

  const NOT_DASH: char -> bool := c => c != '-'

  /** dnsLabel of the job builder trims on the left only, the controller's on both sides. */
  function DnsLabel(s: string, lower: char -> char, trimRight: bool): string {
    var left := TrimLeft(DnsClean(s, lower), NOT_DASH);
    if trimRight then TrimRight(left, NOT_DASH) else left
  }

  method BuildDnsLabel(s: string, lower: char -> char, trimRight: bool) returns (name: string)
    ensures name == DnsLabel(s, lower, trimRight)
  {
    var b := "";
    for i := 0 to |s|
      invariant |b| == i
      invariant forall k :: 0 <= k < i ==> b[k] == DnsClean(s, lower)[k]
    {
      var r := lower(s[i]);
      if ('a' <= r <= 'z') || ('0' <= r <= '9') || r == '-' {
        b := b + [r];
      } else {
        b := b + ['-'];
      }
    }
    assert b == DnsClean(s, lower);
    name := TrimLeft(b, NOT_DASH);
    if trimRight {
      name := TrimRight(name, NOT_DASH);
    }
  }

  function Shortened(base: string): string {
    if |base| > MAX_BASE then TrimRight(base[..MAX_BASE], NOT_DASH) else base
  }

  function HashedName(base: string, digest: string): string {
    var short := Shortened(base);
    (if short == "" then "gitmirror" else short) + "-" + digest
  }

  function TriggerInput(namespace: string, name: string, trigger: string): string {
    namespace + "/" + name + "/" + trigger
  }

  function NameForMirrorTrigger(namespace: string, name: string, trigger: string,
                                hash: string -> string, lower: char -> char): string {
    HashedName(JobBase(name, lower), hash(TriggerInput(namespace, name, trigger)))
  }

  function LeaseInput(namespace: string, provider: string, owner: string, repo: string): string {
    namespace + "/" + provider + "/" + owner + "/" + repo
  }

  function LeaseBase(owner: string, repo: string, lower: char -> char): string {
    DnsLabel("gitmirror-" + owner + "-" + repo, lower, true)
  }

  function JobBase(name: string, lower: char -> char): string {
    DnsLabel("gitmirror-" + name, lower, false)
  }

  function SyncLeaseName(namespace: string, provider: string, owner: string, repo: string,
                         hash: string -> string, lower: char -> char): string {
    HashedName(LeaseBase(owner, repo, lower), hash(LeaseInput(namespace, provider, owner, repo)))
  }

  /** Trimming on the right never reaches a kept first character. */
  lemma TrimRightKeepsHead(s: string, keep: char -> bool)
    requires s != "" && keep(s[0])
    ensures var r := TrimRight(s, keep); r != "" && r <= s && r[0] == s[0] && keep(r[|r| - 1])
  {}

  lemma ShortenedKeepsHead(l: string)
    requires l != "" && l[0] != '-'
    ensures Shortened(l) != ""
  {}

  /** A string that begins with a letter survives cleaning and trimming with that letter in front. */
  lemma LabelStarts(s: string, lower: char -> char, trimRight: bool)
    requires IsLower(lower) && s != "" && 'a' <= s[0] <= 'z'
    ensures var l := DnsLabel(s, lower, trimRight);
            && l != "" && l[0] == s[0] && (forall i :: 0 <= i < |l| ==> DnsChar(l[i]))
            && Shortened(l) != ""
  {
    var clean := DnsClean(s, lower);
    assert clean[0] == s[0] != '-';
    TrimRightKeepsHead(clean, NOT_DASH);
    ShortenedKeepsHead(DnsLabel(s, lower, trimRight));
  }

  lemma HashedNameValid(base: string, digest: string)
    requires base != "" && LowerAlnum(base[0]) && Shortened(base) != ""
    requires forall i :: 0 <= i < |base| ==> DnsChar(base[i])
    requires |digest| == HASH_LENGTH && forall i :: 0 <= i < HASH_LENGTH ==> HexChar(digest[i])
    ensures ValidDnsLabel(HashedName(base, digest))
  {}

  /** Job names are valid labels for all inputs, and their empty-base fallback is never taken. */
  lemma JobNameValid(namespace: string, name: string, trigger: string, hash: string -> string, lower: char -> char)
    requires IsHash(hash) && IsLower(lower)
    ensures ValidDnsLabel(NameForMirrorTrigger(namespace, name, trigger, hash, lower))
    ensures Shortened(JobBase(name, lower)) != ""
  {
    LabelStarts("gitmirror-" + name, lower, false);
    HashedNameValid(JobBase(name, lower), hash(TriggerInput(namespace, name, trigger)));
  }

  lemma LeaseNameValid(namespace: string, provider: string, owner: string, repo: string,
                       hash: string -> string, lower: char -> char)
    requires IsHash(hash) && IsLower(lower)
    ensures ValidDnsLabel(SyncLeaseName(namespace, provider, owner, repo, hash, lower))
    ensures Shortened(LeaseBase(owner, repo, lower)) != ""
  {
    LabelStarts("gitmirror-" + owner + "-" + repo, lower, true);
    HashedNameValid(LeaseBase(owner, repo, lower), hash(LeaseInput(namespace, provider, owner, repo)));
  }

  /******* How names are spelled *******/

  function AsciiLowered(s: string): (r: string)
    ensures |r| == |s| && forall i :: 0 <= i < |s| ==> r[i] == AsciiLower(s[i])
  {
    seq(|s|, i requires 0 <= i < |s| => AsciiLower(s[i]))
  }

  predicate Lettered(s: string) {
    forall i :: 0 <= i < |s| ==> LabelAlnum(s[i]) || s[i] == '-'
  }

  /** A string of letters, digits and dashes without dashes at its ends is only put in lower case. */
  lemma LabelSpelled(s: string, lower: char -> char, trimRight: bool)
    requires IsLower(lower) && Lettered(s) && s != "" && s[0] != '-' && (trimRight ==> s[|s| - 1] != '-')
    ensures DnsLabel(s, lower, trimRight) == AsciiLowered(s)
  {
    assert DnsClean(s, lower) == AsciiLowered(s);
  }

  /** A Job is called gitmirror, its mirror and the hash, as long as that fits. */
  lemma JobNameSpelled(namespace: string, name: string, trigger: string, hash: string -> string, lower: char -> char)
    requires IsLower(lower) && Lettered(name) && |name| <= 40
    ensures NameForMirrorTrigger(namespace, name, trigger, hash, lower)
         == "gitmirror-" + AsciiLowered(name) + "-" + hash(namespace + "/" + name + "/" + trigger)
  {
    var s := "gitmirror-" + name;
    LabelSpelled(s, lower, false);
    assert AsciiLowered(s) == "gitmirror-" + AsciiLowered(name);
  }

  lemma LoweredJoined(a: string, b: string)
    ensures AsciiLowered(a + b) == AsciiLowered(a) + AsciiLowered(b)
  {}

  lemma JoinedSpelled(prefix: string, owner: string, repo: string, lower: char -> char)
    requires IsLower(lower) && Lettered(prefix) && Lettered(owner) && Lettered(repo)
    requires prefix != "" && prefix[0] != '-' && repo != "" && repo[|repo| - 1] != '-'
    ensures DnsLabel(prefix + owner + "-" + repo, lower, true)
         == AsciiLowered(prefix) + AsciiLowered(owner) + "-" + AsciiLowered(repo)
  {
    LabelSpelled(prefix + owner + "-" + repo, lower, true);
    LoweredJoined(prefix + owner + "-", repo);
    LoweredJoined(prefix + owner, "-");
    LoweredJoined(prefix, owner);
    assert AsciiLowered("-") == "-";
  }

  /** A Lease after its repository, as long as that fits. */
  lemma LeaseNameSpelled(namespace: string, provider: string, owner: string, repo: string,
                         hash: string -> string, lower: char -> char)
    requires IsLower(lower) && Lettered(owner) && Lettered(repo) && |owner| + |repo| <= 39
    requires repo != "" && repo[|repo| - 1] != '-'
    ensures SyncLeaseName(namespace, provider, owner, repo, hash, lower)
         == "gitmirror-" + AsciiLowered(owner) + "-" + AsciiLowered(repo) + "-"
            + hash(namespace + "/" + provider + "/" + owner + "/" + repo)
  {
    PrefixLowered();
    JoinedSpelled("gitmirror-", owner, repo, lower);
    ShortNames(LeaseBase(owner, repo, lower), hash(LeaseInput(namespace, provider, owner, repo)));
  }

  lemma PrefixLowered()
    ensures Lettered("gitmirror-") && AsciiLowered("gitmirror-") == "gitmirror-" && "gitmirror-"[0] != '-'
  {}

  lemma ShortNames(base: string, digest: string)
    requires 0 < |base| <= 50
    ensures HashedName(base, digest) == base + "-" + digest
  {}

  /******* Hash inputs *******/

  /** A slash-free first part is determined by the joined string. */
  lemma {:induction false} SlashSplits(a: string, x: string, b: string, y: string)
    requires '/' !in a && '/' !in b && a + "/" + x == b + "/" + y
    ensures a == b && x == y
    decreases |a|
  {
    var s, t := a + "/" + x, b + "/" + y;
    assert s[0] == if a == "" then '/' else a[0];
    assert t[0] == if b == "" then '/' else b[0];
    if a == "" {
      assert s[1..] == x && t[1..] == y;
    } else {
      assert s[1..] == a[1..] + "/" + x && t[1..] == b[1..] + "/" + y;
      SlashSplits(a[1..], x, b[1..], y);
      assert a == [a[0]] + a[1..] && b == [b[0]] + b[1..];
    }
  }

  lemma TriggerInputInjective(ns1: string, n1: string, t1: string, ns2: string, n2: string, t2: string)
    requires '/' !in ns1 && '/' !in n1 && '/' !in ns2 && '/' !in n2
    requires TriggerInput(ns1, n1, t1) == TriggerInput(ns2, n2, t2)
    ensures ns1 == ns2 && n1 == n2 && t1 == t2
  {
    assert TriggerInput(ns1, n1, t1) == ns1 + "/" + (n1 + "/" + t1);
    assert TriggerInput(ns2, n2, t2) == ns2 + "/" + (n2 + "/" + t2);
    SlashSplits(ns1, n1 + "/" + t1, ns2, n2 + "/" + t2);
    SlashSplits(n1, t1, n2, t2);
  }

  lemma LeaseInputInjective(ns1: string, p1: string, o1: string, r1: string,
                            ns2: string, p2: string, o2: string, r2: string)
    requires '/' !in ns1 && '/' !in p1 && '/' !in o1 && '/' !in ns2 && '/' !in p2 && '/' !in o2
    requires LeaseInput(ns1, p1, o1, r1) == LeaseInput(ns2, p2, o2, r2)
    ensures ns1 == ns2 && p1 == p2 && o1 == o2 && r1 == r2
  {
    assert LeaseInput(ns1, p1, o1, r1) == ns1 + "/" + TriggerInput(p1, o1, r1);
    assert LeaseInput(ns2, p2, o2, r2) == ns2 + "/" + TriggerInput(p2, o2, r2);
    SlashSplits(ns1, TriggerInput(p1, o1, r1), ns2, TriggerInput(p2, o2, r2));
    TriggerInputInjective(p1, o1, r1, p2, o2, r2);
  }

  /** Two different strings with the same truncated digest. */
  predicate Collide(hash: string -> string, a: string, b: string) {
    a != b && hash(a) == hash(b)
  }

  lemma EqualNamesEqualDigests(base1: string, d1: string, base2: string, d2: string)
    requires |d1| == |d2| && HashedName(base1, d1) == HashedName(base2, d2)
    ensures d1 == d2
  {
    var s1, s2 := HashedName(base1, d1), HashedName(base2, d2);
    assert d1 == s1[|s1| - |d1|..] && d2 == s2[|s2| - |d2|..];
  }

  /** Equal Job names mean the same mirror and trigger, or a collision of the truncated hash. */
  lemma EqualJobNames(ns1: string, n1: string, t1: string, ns2: string, n2: string, t2: string,
                      hash: string -> string, lower: char -> char)
    requires IsHash(hash) && '/' !in ns1 && '/' !in n1 && '/' !in ns2 && '/' !in n2
    requires NameForMirrorTrigger(ns1, n1, t1, hash, lower) == NameForMirrorTrigger(ns2, n2, t2, hash, lower)
    ensures (ns1 == ns2 && n1 == n2 && t1 == t2) || Collide(hash, TriggerInput(ns1, n1, t1), TriggerInput(ns2, n2, t2))
  {
    var i1, i2 := TriggerInput(ns1, n1, t1), TriggerInput(ns2, n2, t2);
    EqualNamesEqualDigests(JobBase(n1, lower), hash(i1), JobBase(n2, lower), hash(i2));
    if i1 == i2 {
      TriggerInputInjective(ns1, n1, t1, ns2, n2, t2);
    }
  }

  /** Equal lease names mean the same repository, or a collision of the truncated hash. */
  lemma EqualLeaseNames(ns1: string, p1: string, o1: string, r1: string,
                        ns2: string, p2: string, o2: string, r2: string,
                        hash: string -> string, lower: char -> char)
    requires IsHash(hash) && '/' !in ns1 && '/' !in p1 && '/' !in o1 && '/' !in ns2 && '/' !in p2 && '/' !in o2
    requires SyncLeaseName(ns1, p1, o1, r1, hash, lower) == SyncLeaseName(ns2, p2, o2, r2, hash, lower)
    ensures (ns1 == ns2 && p1 == p2 && o1 == o2 && r1 == r2)
         || Collide(hash, LeaseInput(ns1, p1, o1, r1), LeaseInput(ns2, p2, o2, r2))
  {
    var i1, i2 := LeaseInput(ns1, p1, o1, r1), LeaseInput(ns2, p2, o2, r2);
    EqualNamesEqualDigests(LeaseBase(o1, r1, lower), hash(i1), LeaseBase(o2, r2, lower), hash(i2));
    if i1 == i2 {
      LeaseInputInjective(ns1, p1, o1, r1, ns2, p2, o2, r2);
    }
  }

  /******* Label values *******/

  const LABEL_ALNUM: char -> bool := c => LabelAlnum(c)

  function LabelClean(s: string): (r: string)
    ensures |r| == |s| && forall i :: 0 <= i < |r| ==> LabelChar(r[i])
  {
    seq(|s|, i requires 0 <= i < |s| => if LabelChar(s[i]) then s[i] else '-')
  }

  function LabelValueBase(s: string): string {
    var clean := TrimRight(TrimLeft(LabelClean(s), LABEL_ALNUM), LABEL_ALNUM);
    if clean == "" then "value" else clean
  }

  function SanitizeLabelValue(s: string, hash: string -> string): string {
    if s != "" && ValidLabelValue(s) then s
    else
      var base := LabelValueBase(s);
      var short := TrimRight(if |base| > MAX_BASE then base[..MAX_BASE] else base, LABEL_ALNUM);
      (if short == "" then "value" else short) + "-" + hash(s)
  }

  /** Only what no label value may begin or end with lies outside [lo, hi). */
  predicate Stripped(s: string, lo: nat, hi: nat) {
    && lo < hi <= |s| && LabelAlnum(s[lo]) && LabelAlnum(s[hi - 1])
    && (forall i :: 0 <= i < lo ==> !LabelAlnum(s[i])) && (forall i :: hi <= i < |s| ==> !LabelAlnum(s[i]))
  }

  /** The base is the string from its first to its last letter or digit, with a dash for each odd character. */
  lemma LabelBaseSpelled(s: string, lo: nat, hi: nat)
    requires Stripped(s, lo, hi)
    ensures var base := LabelValueBase(s);
            && |base| == hi - lo
            && forall i :: lo <= i < hi ==> base[i - lo] == if LabelChar(s[i]) then s[i] else '-'
  {
    var clean := LabelClean(s);
    forall i | 0 <= i < |s| ensures LABEL_ALNUM(clean[i]) == LabelAlnum(s[i]) {
      assert LabelAlnum(s[i]) ==> clean[i] == s[i];
    }
    TrimLeftAt(clean, LABEL_ALNUM, lo);
    RightTrimmed(clean, lo, hi);
    assert LabelValueBase(s) == clean[lo..hi];
  }

  lemma RightTrimmed(clean: string, lo: nat, hi: nat)
    requires lo < hi <= |clean| && LABEL_ALNUM(clean[hi - 1])
    requires forall i :: hi <= i < |clean| ==> !LABEL_ALNUM(clean[i])
    ensures TrimRight(clean[lo..], LABEL_ALNUM) == clean[lo..hi]
  {
    TrimRightAt(clean[lo..], LABEL_ALNUM, hi - lo);
    assert clean[lo..][..hi - lo] == clean[lo..hi];
  }

  method BuildLabelValueBase(s: string) returns (base: string)
    ensures base == LabelValueBase(s)
  {
    var b := "";
    for i := 0 to |s|
      invariant |b| == i
      invariant forall k :: 0 <= k < i ==> b[k] == LabelClean(s)[k]
    {
      if LabelChar(s[i]) {
        b := b + [s[i]];
      } else {
        b := b + ['-'];
      }
    }
    assert b == LabelClean(s);
    base := TrimRight(TrimLeft(b, LABEL_ALNUM), LABEL_ALNUM);
    if base == "" {
      base := "value";
    }
  }

  method IsValidLabelValue(s: string) returns (valid: bool)
    requires s != ""
    ensures valid == ValidLabelValue(s)
  {
    if |s| > MAX_LABEL {
      return false;
    }
    if !LabelAlnum(s[0]) || !LabelAlnum(s[|s| - 1]) {
      return false;
    }
    for i := 0 to |s|
      invariant forall k :: 0 <= k < i ==> LabelChar(s[k])
    {
      if !LabelChar(s[i]) {
        return false;
      }
    }
    return true;
  }

  /** The cleaned base starts with a letter or digit and has label characters only. */
  lemma BaseShape(s: string)
    ensures var b := LabelValueBase(s);
            b != "" && LabelAlnum(b[0]) && forall i :: 0 <= i < |b| ==> LabelChar(b[i])
  {
    var clean := LabelClean(s);
    var left := TrimLeft(clean, LABEL_ALNUM);
    var both := TrimRight(left, LABEL_ALNUM);
    forall i | 0 <= i < |both| ensures LabelChar(both[i]) {
      assert both[i] == left[i] == clean[|clean| - |left| + i];
    }
  }

  lemma JoinedValid(short: string, digest: string)
    requires short != "" && |short| <= MAX_BASE && LabelAlnum(short[0])
    requires forall i :: 0 <= i < |short| ==> LabelChar(short[i])
    requires |digest| == HASH_LENGTH && forall i :: 0 <= i < HASH_LENGTH ==> HexChar(digest[i])
    ensures ValidLabelValue(short + "-" + digest)
  {}

  /** The shortened base of an invalid value still starts with a letter or digit. */
  lemma ShortBase(s: string)
    ensures var base := LabelValueBase(s);
            var short := TrimRight(if |base| > MAX_BASE then base[..MAX_BASE] else base, LABEL_ALNUM);
            && short != "" && |short| <= MAX_BASE && LabelAlnum(short[0])
            && forall i :: 0 <= i < |short| ==> LabelChar(short[i])
  {
    BaseShape(s);
    CutKeeps(LabelValueBase(s));
  }

  lemma CutKeeps(base: string)
    requires base != "" && LabelAlnum(base[0]) && forall i :: 0 <= i < |base| ==> LabelChar(base[i])
    ensures var short := TrimRight(if |base| > MAX_BASE then base[..MAX_BASE] else base, LABEL_ALNUM);
            && short != "" && |short| <= MAX_BASE && LabelAlnum(short[0])
            && forall i :: 0 <= i < |short| ==> LabelChar(short[i])
  {
    var cut := if |base| > MAX_BASE then base[..MAX_BASE] else base;
    assert LABEL_ALNUM(cut[0]);
    TrimRightKeepsHead(cut, LABEL_ALNUM);
  }

  /** Every result is a valid label value. */
  lemma SanitizeValid(s: string, hash: string -> string)
    requires IsHash(hash)
    ensures ValidLabelValue(SanitizeLabelValue(s, hash))
  {
    if !(s != "" && ValidLabelValue(s)) {
      ShortBase(s);
      var base := LabelValueBase(s);
      var short := TrimRight(if |base| > MAX_BASE then base[..MAX_BASE] else base, LABEL_ALNUM);
      JoinedValid(short, hash(s));
      assert SanitizeLabelValue(s, hash) == short + "-" + hash(s);
    }
  }

  /** Exactly the valid values are left as they are, so sanitising twice is sanitising once. */
  lemma SanitizeFixpoints(s: string, hash: string -> string)
    requires IsHash(hash)
    ensures SanitizeLabelValue(s, hash) == s <==> ValidLabelValue(s)
    ensures SanitizeLabelValue(SanitizeLabelValue(s, hash), hash) == SanitizeLabelValue(s, hash)
  {
    SanitizeValid(s, hash);
    SanitizeValid(SanitizeLabelValue(s, hash), hash);
  }

  /**
   Two mirrors share a selector value only if they have the same name, if the truncated
   hashes collide, or if one is named like the other's hashed value.
   */
  lemma EqualLabelValues(a: string, b: string, hash: string -> string)
    requires IsHash(hash) && SanitizeLabelValue(a, hash) == SanitizeLabelValue(b, hash)
    ensures a == b || Collide(hash, a, b)
         || (ValidLabelValue(a) && a == SanitizeLabelValue(b, hash))
         || (ValidLabelValue(b) && b == SanitizeLabelValue(a, hash))
  {
    if !ValidLabelValue(a) && !ValidLabelValue(b) {
      var v, w := SanitizeLabelValue(a, hash), SanitizeLabelValue(b, hash);
      assert hash(a) == v[|v| - HASH_LENGTH..] && hash(b) == w[|w| - HASH_LENGTH..];
    }
  }
}
