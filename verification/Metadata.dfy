/**
 The metadata of a sync Job: name, labels and annotations as internal/jobs/builder.go writes
 them, and the generation annotation as the controller reads it back.
 */
module Metadata {
  import opened Base
  import opened GitMirrorStatus
  import opened Names

  datatype MirrorMeta = MirrorMeta(namespace: string, name: string, generation: int, owner: string, repo: string)

  datatype JobMeta = JobMeta(
    name: string,
    generateName: string,
    labels: map<string, string>,
    annotations: map<string, string>)

  const APP_NAME := "git-mirror-operator"
  const LABEL_NAME := "app.kubernetes.io/name"
  const LABEL_MIRROR := "mirror.shamubernetes.com/gitmirror"
  const LABEL_DELIVERY := "mirror.shamubernetes.com/delivery-id"
  const LABEL_OWNER := "mirror.shamubernetes.com/source-owner"
  const LABEL_REPO := "mirror.shamubernetes.com/source-repo"
  const NOTE_REVISION := "mirror.shamubernetes.com/revision"
  const NOTE_GENERATION := "mirror.shamubernetes.com/generation"
  const NOTE_MIRROR := "mirror.shamubernetes.com/gitmirror-name"
  const NOTE_OWNER := "mirror.shamubernetes.com/full-source-owner"
  const NOTE_REPO := "mirror.shamubernetes.com/full-source-repo"

  /******* Decimal numbers *******/

  const MIN_INT64 := -0x8000_0000_0000_0000
  const MAX_INT64 := 0x7fff_ffff_ffff_ffff

  predicate IsDigit(c: char) { '0' <= c <= '9' }

  function DigitOf(n: nat): (c: char)
    requires n < 10
    ensures IsDigit(c) && (c as int - '0' as int) == n
  {
    ('0' as int + n) as char
  }

  function Digits(n: nat): (s: string)
    ensures s != "" && forall i :: 0 <= i < |s| ==> IsDigit(s[i])
  {
    if n < 10 then [DigitOf(n)] else Digits(n / 10) + [DigitOf(n % 10)]
  }

  /** strconv.FormatInt in base ten. */
  function FormatInt(n: int): string {
    if n < 0 then "-" + Digits(-n) else Digits(n)
  }

  function ParseDigits(s: string): Option<nat> {
    if s == "" || !IsDigit(s[|s| - 1]) then None
    else
      var last := s[|s| - 1] as int - '0' as int;
      if |s| == 1 then Some(last)
      else
        var rest := ParseDigits(s[..|s| - 1]);
        if rest.None? then None else Some(10 * rest.value + last)
  }

  /** strconv.ParseInt in base ten for 64 bits: an optional sign, digits, and the range. */
  function ParseInt(s: string): Option<int> {
    if s == "" then None
    else
      var digits := ParseDigits(if s[0] == '-' || s[0] == '+' then s[1..] else s);
      if digits.None? then None
      else
        var n := (if s[0] == '-' then -1 else 1) * digits.value;
        if MIN_INT64 <= n <= MAX_INT64 then Some(n) else None
  }

  /** jobGenerationAnnotation: a missing or empty annotation is a legacy Job's. */
  function ReadGeneration(annotations: map<string, string>): Annotation {
    if NOTE_GENERATION !in annotations || annotations[NOTE_GENERATION] == "" then Absent
    else
      var n := ParseInt(annotations[NOTE_GENERATION]);
      if n.None? then Malformed else At(n.value)
  }

  function ReadRevision(annotations: map<string, string>): string {
    if NOTE_REVISION in annotations then annotations[NOTE_REVISION] else ""
  }

  lemma {:induction false} DigitsParse(n: nat)
    ensures ParseDigits(Digits(n)) == Some(n)
  {
    var s := Digits(n);
    if n >= 10 {
      DigitsParse(n / 10);
      assert s[..|s| - 1] == Digits(n / 10);
    }
  }

  /** Every generation the API server can store survives being written and read. */
  lemma IntRoundTrip(n: int)
    requires MIN_INT64 <= n <= MAX_INT64
    ensures FormatInt(n) != "" && ParseInt(FormatInt(n)) == Some(n)
  {
    var s := FormatInt(n);
    if n < 0 {
      DigitsParse(-n);
      assert s[1..] == Digits(-n);
    } else {
      DigitsParse(n);
      assert IsDigit(s[0]);
    }
  }

  /******* Building *******/

  function LabelsForMirror(m: MirrorMeta, hash: string -> string): map<string, string> {
    map[LABEL_NAME := APP_NAME,
        LABEL_MIRROR := SanitizeLabelValue(m.name, hash),
        LABEL_OWNER := SanitizeLabelValue(m.owner, hash),
        LABEL_REPO := SanitizeLabelValue(m.repo, hash)]
  }

  function JobLabels(m: MirrorMeta, trigger: string, hash: string -> string): map<string, string> {
    var labels := LabelsForMirror(m, hash);
    if trigger != "" then labels[LABEL_DELIVERY := SanitizeLabelValue(trigger, hash)] else labels
  }

  function JobAnnotations(m: MirrorMeta, revision: string): map<string, string> {
    var notes := map[NOTE_MIRROR := m.name, NOTE_OWNER := m.owner, NOTE_REPO := m.repo,
                     NOTE_GENERATION := FormatInt(m.generation)];
    if revision != "" then notes[NOTE_REVISION := revision] else notes
  }

  function MetaFor(m: MirrorMeta, trigger: string, revision: string,
                   hash: string -> string, lower: char -> char): JobMeta {
    JobMeta(
      if trigger != "" then NameForMirrorTrigger(m.namespace, m.name, trigger, hash, lower) else "",
      if trigger != "" then "" else DnsLabel("gitmirror-" + m.name + "-", lower, false),
      JobLabels(m, trigger, hash), JobAnnotations(m, revision))
  }

  method BuildMeta(m: MirrorMeta, trigger: string, revision: string, hash: string -> string, lower: char -> char)
    returns (meta: JobMeta)
    ensures meta == MetaFor(m, trigger, revision, hash, lower)
  {
    var labels := LabelsForMirror(m, hash);
    if trigger != "" {
      labels := labels[LABEL_DELIVERY := SanitizeLabelValue(trigger, hash)];
    }
    var notes := map[NOTE_MIRROR := m.name, NOTE_OWNER := m.owner, NOTE_REPO := m.repo];
    notes := notes[NOTE_GENERATION := FormatInt(m.generation)];
    if revision != "" {
      notes := notes[NOTE_REVISION := revision];
    }
    meta := JobMeta("", "", labels, notes);
    if trigger != "" {
      meta := meta.(name := NameForMirrorTrigger(m.namespace, m.name, trigger, hash, lower));
    } else {
      meta := meta.(generateName := DnsLabel("gitmirror-" + m.name + "-", lower, false));
    }
    assert notes == JobAnnotations(m, revision) && labels == JobLabels(m, trigger, hash);
  }

  lemma KeysDistinct()
    ensures NOTE_REVISION != NOTE_GENERATION && LABEL_MIRROR != LABEL_DELIVERY
    ensures NOTE_GENERATION !in [NOTE_MIRROR, NOTE_OWNER, NOTE_REPO]
    ensures NOTE_REVISION !in [NOTE_MIRROR, NOTE_OWNER, NOTE_REPO]
    ensures LABEL_MIRROR !in [LABEL_NAME, LABEL_OWNER, LABEL_REPO]
  {}

  /** The three notes, and then the five labels, have different keys. */
  lemma OtherKeysDistinct()
    ensures NOTE_MIRROR != NOTE_OWNER && NOTE_MIRROR != NOTE_REPO && NOTE_OWNER != NOTE_REPO
    ensures LABEL_NAME != LABEL_OWNER && LABEL_NAME != LABEL_REPO && LABEL_OWNER != LABEL_REPO
    ensures LABEL_DELIVERY !in [LABEL_NAME, LABEL_OWNER, LABEL_REPO]
  {}

  /**
   What the controller reads off a Job it built: the generation, the revision, and the label
   its own selector asks for.  A Job built for a trigger has a fixed name.
   */
  lemma MetaReadsBack(m: MirrorMeta, trigger: string, revision: string, hash: string -> string, lower: char -> char)
    requires MIN_INT64 <= m.generation <= MAX_INT64
    ensures var meta := MetaFor(m, trigger, revision, hash, lower);
            && ReadGeneration(meta.annotations) == At(m.generation)
            && ReadRevision(meta.annotations) == revision
            && LABEL_MIRROR in meta.labels
            && meta.labels[LABEL_MIRROR] == LabelsForMirror(m, hash)[LABEL_MIRROR]
            && (meta.name != "" <==> trigger != "")
  {
    KeysDistinct();
    IntRoundTrip(m.generation);
  }

  function ValueAt(values: map<string, string>, key: string): Option<string> {
    if key in values then Some(values[key]) else None
  }

  /** The rest: the application, mirror, owner and repository, and the trigger if there is one. */
  lemma LabelsReadBack(m: MirrorMeta, trigger: string, revision: string, hash: string -> string, lower: char -> char)
    ensures var meta := MetaFor(m, trigger, revision, hash, lower);
            var clean := (s: string) => Some(SanitizeLabelValue(s, hash));
            && ValueAt(meta.labels, "app.kubernetes.io/name") == Some("git-mirror-operator")
            && ValueAt(meta.labels, "mirror.shamubernetes.com/gitmirror") == clean(m.name)
            && ValueAt(meta.labels, "mirror.shamubernetes.com/source-owner") == clean(m.owner)
            && ValueAt(meta.labels, "mirror.shamubernetes.com/source-repo") == clean(m.repo)
            && ValueAt(meta.labels, "mirror.shamubernetes.com/delivery-id")
               == (if trigger == "" then None else clean(trigger))
  {
    KeysDistinct();
    OtherKeysDistinct();
  }

  lemma NotesReadBack(m: MirrorMeta, trigger: string, revision: string, hash: string -> string, lower: char -> char)
    ensures var notes := MetaFor(m, trigger, revision, hash, lower).annotations;
            && ValueAt(notes, "mirror.shamubernetes.com/gitmirror-name") == Some(m.name)
            && ValueAt(notes, "mirror.shamubernetes.com/full-source-owner") == Some(m.owner)
            && ValueAt(notes, "mirror.shamubernetes.com/full-source-repo") == Some(m.repo)
            && ValueAt(notes, "mirror.shamubernetes.com/revision") == (if revision == "" then None else Some(revision))
  {
    KeysDistinct();
    OtherKeysDistinct();
  }

  /**
   Two Jobs of mirrors with slash-free namespaces and names are named alike only for the same
   namespace, mirror and trigger, or by a collision of the truncated hash.
   */
  lemma MetaNamedApart(m1: MirrorMeta, t1: string, r1: string, m2: MirrorMeta, t2: string, r2: string,
                       hash: string -> string, lower: char -> char)
    requires IsHash(hash) && IsLower(lower)
    requires '/' !in m1.namespace && '/' !in m1.name && '/' !in m2.namespace && '/' !in m2.name
    requires t1 != "" && MetaFor(m1, t1, r1, hash, lower).name == MetaFor(m2, t2, r2, hash, lower).name
    ensures || (m1.namespace == m2.namespace && m1.name == m2.name && t1 == t2)
            || Collide(hash, m1.namespace + "/" + m1.name + "/" + t1, m2.namespace + "/" + m2.name + "/" + t2)
  {
    JobNameValid(m1.namespace, m1.name, t1, hash, lower);
    EqualJobNames(m1.namespace, m1.name, t1, m2.namespace, m2.name, t2, hash, lower);
  }

  /** Without a trigger the API server completes a name that begins with the mirror's. */
  lemma GeneratedNameSpelled(m: MirrorMeta, revision: string, hash: string -> string, lower: char -> char)
    requires IsLower(lower) && Lettered(m.name)
    ensures var meta := MetaFor(m, "", revision, hash, lower);
            meta.name == "" && meta.generateName == "gitmirror-" + AsciiLowered(m.name) + "-"
  {
    var prefix := "gitmirror-";
    PrefixLowered();
    LabelSpelled(prefix + m.name + "-", lower, false);
    LoweredJoined(prefix + m.name, "-");
    LoweredJoined(prefix, m.name);
    assert AsciiLowered("-") == "-";
  }

  predicate AllValid(labels: map<string, string>) {
    forall k :: k in labels ==> ValidLabelValue(labels[k])
  }

  lemma FourValid(app: string, mirror: string, owner: string, repo: string)
    requires ValidLabelValue(app) && ValidLabelValue(mirror) && ValidLabelValue(owner) && ValidLabelValue(repo)
    ensures AllValid(map[LABEL_NAME := app, LABEL_MIRROR := mirror, LABEL_OWNER := owner, LABEL_REPO := repo])
  {}

  lemma OneMoreValid(labels: map<string, string>, key: string, value: string)
    requires AllValid(labels) && ValidLabelValue(value)
    ensures AllValid(labels[key := value])
  {}

  lemma AppNameValid()
    ensures ValidLabelValue(APP_NAME)
  {}

  lemma LabelsValid(m: MirrorMeta, hash: string -> string)
    requires IsHash(hash)
    ensures AllValid(LabelsForMirror(m, hash))
  {
    AppNameValid();
    SanitizeValid(m.name, hash);
    SanitizeValid(m.owner, hash);
    SanitizeValid(m.repo, hash);
    var name, owner := SanitizeLabelValue(m.name, hash), SanitizeLabelValue(m.owner, hash);
    FourValid(APP_NAME, name, owner, SanitizeLabelValue(m.repo, hash));
  }

  /** Every label value of a Job is valid. */
  lemma JobLabelsValid(m: MirrorMeta, trigger: string, hash: string -> string)
    requires IsHash(hash)
    ensures AllValid(JobLabels(m, trigger, hash))
  {
    LabelsValid(m, hash);
    SanitizeValid(trigger, hash);
    OneMoreValid(LabelsForMirror(m, hash), LABEL_DELIVERY, SanitizeLabelValue(trigger, hash));
  }
}
