/**
 PatchGitMirrorStatus of internal/controller/status_update.go: read the object, mutate the
 copy, send the JSON merge patch between the two (RFC 7396), which the server applies to
 whatever status it holds by then.

 A status is serialised with omitempty, so a field at its zero value is absent from the
 document.  No status field is a JSON object (conditions is an array and is replaced
 whole), so section 2 of RFC 7396 reduces to one decision per top-level field.
 */
module StatusPatch {
  import opened Base
  import opened GitMirrorStatus

  datatype Field =
    | ObservedGeneration | LastWebhookAt | LastDeliveryID | LastTriggeredAt | LastJobName
    | LastCompletedJobName | LastSuccessAt | LastFailureAt | LastError
    | LastRequestedRevision | LastMirroredRevision | PendingResync | Conditions

  datatype Json =
    | Number(n: int) | Text(s: string) | Bool(b: bool) | Instant(t: Time) | Name(name: JobName)
    | List(conditions: map<string, Condition>)

  type Document = map<Field, Json>

  /** A merge patch: None is the JSON null that removes the member. */
  type Patch = map<Field, Option<Json>>

  /******* Serialisation *******/

  function NonEmpty(s: string): Option<Json> { if s == "" then None else Some(Text(s)) }
  function AtTime(t: Option<Time>): Option<Json> { if t.None? then None else Some(Instant(t.value)) }
  function Named(n: Option<JobName>): Option<Json> { if n.None? then None else Some(Name(n.value)) }

  function FieldOf(st: Status, f: Field): Option<Json> {
    match f
    case ObservedGeneration => if st.observedGeneration == 0 then None else Some(Number(st.observedGeneration))
    case LastWebhookAt => AtTime(st.lastWebhookAt)
    case LastDeliveryID => NonEmpty(st.lastDeliveryID)
    case LastTriggeredAt => AtTime(st.lastTriggeredAt)
    case LastJobName => Named(st.lastJobName)
    case LastCompletedJobName => Named(st.lastCompletedJobName)
    case LastSuccessAt => AtTime(st.lastSuccessAt)
    case LastFailureAt => AtTime(st.lastFailureAt)
    case LastError => NonEmpty(st.lastError)
    case LastRequestedRevision => NonEmpty(st.lastRequestedRevision)
    case LastMirroredRevision => NonEmpty(st.lastMirroredRevision)
    case PendingResync => if st.pendingResync then Some(Bool(true)) else None
    case Conditions => if st.conditions == map[] then None else Some(List(st.conditions))
  }

  function Encode(st: Status): Document {
    map f: Field | FieldOf(st, f).Some? :: FieldOf(st, f).value
  }

  function Get(d: Document, f: Field): Option<Json> { if f in d then Some(d[f]) else None }

  function StringAt(d: Document, f: Field): string { if f in d && d[f].Text? then d[f].s else "" }
  function TimeAt(d: Document, f: Field): Option<Time> { if f in d && d[f].Instant? then Some(d[f].t) else None }
  function NameAt(d: Document, f: Field): Option<JobName> { if f in d && d[f].Name? then Some(d[f].name) else None }

  function Decode(d: Document): Status {
    Status(
      if ObservedGeneration in d && d[ObservedGeneration].Number? then d[ObservedGeneration].n else 0,
      TimeAt(d, LastWebhookAt), StringAt(d, LastDeliveryID), TimeAt(d, LastTriggeredAt),
      NameAt(d, LastJobName), NameAt(d, LastCompletedJobName),
      TimeAt(d, LastSuccessAt), TimeAt(d, LastFailureAt),
      StringAt(d, LastError), StringAt(d, LastRequestedRevision), StringAt(d, LastMirroredRevision),
      PendingResync in d && d[PendingResync].Bool? && d[PendingResync].b,
      if Conditions in d && d[Conditions].List? then d[Conditions].conditions else map[])
  }

  /******* RFC 7396 *******/

  function Diff(base: Document, modified: Document): Patch {
    map f: Field | Get(base, f) != Get(modified, f) :: Get(modified, f)
  }

  function Apply(p: Patch, target: Document): Document {
    map f: Field | (if f in p then p[f].Some? else f in target) ::
      if f in p then p[f].value else target[f]
  }

  /** What the server stores after the patch between `base` and `modified` reaches `server`. */
  function Patched(base: Status, modified: Status, server: Status): Status {
    Decode(Apply(Diff(Encode(base), Encode(modified)), Encode(server)))
  }

  function Pick<T(==)>(base: T, modified: T, server: T): T {
    if modified == base then server else modified
  }

  /** The three-way merge, field by field. */
  function Merge(base: Status, modified: Status, server: Status): Status {
    Status(
      Pick(base.observedGeneration, modified.observedGeneration, server.observedGeneration),
      Pick(base.lastWebhookAt, modified.lastWebhookAt, server.lastWebhookAt),
      Pick(base.lastDeliveryID, modified.lastDeliveryID, server.lastDeliveryID),
      Pick(base.lastTriggeredAt, modified.lastTriggeredAt, server.lastTriggeredAt),
      Pick(base.lastJobName, modified.lastJobName, server.lastJobName),
      Pick(base.lastCompletedJobName, modified.lastCompletedJobName, server.lastCompletedJobName),
      Pick(base.lastSuccessAt, modified.lastSuccessAt, server.lastSuccessAt),
      Pick(base.lastFailureAt, modified.lastFailureAt, server.lastFailureAt),
      Pick(base.lastError, modified.lastError, server.lastError),
      Pick(base.lastRequestedRevision, modified.lastRequestedRevision, server.lastRequestedRevision),
      Pick(base.lastMirroredRevision, modified.lastMirroredRevision, server.lastMirroredRevision),
      Pick(base.pendingResync, modified.pendingResync, server.pendingResync),
      Pick(base.conditions, modified.conditions, server.conditions))
  }

  lemma EncodedField(st: Status, f: Field)
    ensures Get(Encode(st), f) == FieldOf(st, f)
  {}

  /** Two statuses that serialise alike field by field are equal: omitempty loses nothing. */
  lemma FieldsDetermineStatus(a: Status, b: Status)
    requires forall f: Field :: FieldOf(a, f) == FieldOf(b, f)
    ensures a == b
  {
    assert FieldOf(a, ObservedGeneration) == FieldOf(b, ObservedGeneration);
    assert FieldOf(a, LastWebhookAt) == FieldOf(b, LastWebhookAt);
    assert FieldOf(a, LastDeliveryID) == FieldOf(b, LastDeliveryID);
    assert FieldOf(a, LastTriggeredAt) == FieldOf(b, LastTriggeredAt);
    assert FieldOf(a, LastJobName) == FieldOf(b, LastJobName);
    assert FieldOf(a, LastCompletedJobName) == FieldOf(b, LastCompletedJobName);
    assert FieldOf(a, LastSuccessAt) == FieldOf(b, LastSuccessAt);
    assert FieldOf(a, LastFailureAt) == FieldOf(b, LastFailureAt);
    assert FieldOf(a, LastError) == FieldOf(b, LastError);
    assert FieldOf(a, LastRequestedRevision) == FieldOf(b, LastRequestedRevision);
    assert FieldOf(a, LastMirroredRevision) == FieldOf(b, LastMirroredRevision);
    assert FieldOf(a, PendingResync) == FieldOf(b, PendingResync);
    assert FieldOf(a, Conditions) == FieldOf(b, Conditions);
  }

  lemma DecodedField(st: Status, f: Field)
    ensures FieldOf(Decode(Encode(st)), f) == FieldOf(st, f)
  {
    EncodedField(st, f);
    var d := Encode(st);
    match f {
      case ObservedGeneration => assert Decode(d).observedGeneration == st.observedGeneration;
      case PendingResync => assert Decode(d).pendingResync == st.pendingResync;
      case Conditions => assert Decode(d).conditions == st.conditions;
      case _ =>
    }
  }

  lemma RoundTrip(st: Status)
    ensures Decode(Encode(st)) == st
  {
    forall f: Field ensures FieldOf(Decode(Encode(st)), f) == FieldOf(st, f) {
      DecodedField(st, f);
    }
    FieldsDetermineStatus(Decode(Encode(st)), st);
  }

  /** Every field of the merged record is the mutated one where it changed, else the server's. */
  lemma MergeField(base: Status, modified: Status, server: Status, f: Field)
    ensures FieldOf(Merge(base, modified, server), f) ==
            if FieldOf(modified, f) != FieldOf(base, f) then FieldOf(modified, f) else FieldOf(server, f)
  {}

  lemma PatchedDocument(base: Status, modified: Status, server: Status)
    ensures Apply(Diff(Encode(base), Encode(modified)), Encode(server)) == Encode(Merge(base, modified, server))
  {
    var d := Apply(Diff(Encode(base), Encode(modified)), Encode(server));
    forall f: Field ensures Get(d, f) == Get(Encode(Merge(base, modified, server)), f) {
      EncodedField(base, f);
      EncodedField(modified, f);
      EncodedField(server, f);
      MergeField(base, modified, server, f);
    }
    assert forall f: Field :: (f in d) == Get(d, f).Some?;
  }

  /** The whole read-mutate-diff-apply path is the field-wise three-way merge. */
  lemma PatchIsMerge(base: Status, modified: Status, server: Status)
    ensures Patched(base, modified, server) == Merge(base, modified, server)
    ensures Patched(base, modified, base) == modified
    ensures Patched(base, base, server) == server
  {
    PatchedDocument(base, modified, server);
    RoundTrip(Merge(base, modified, server));
    PatchedDocument(base, modified, base);
    RoundTrip(modified);
    PatchedDocument(base, base, server);
    RoundTrip(server);
  }

  predicate Changes(base: Status, modified: Status, f: Field) {
    FieldOf(base, f) != FieldOf(modified, f)
  }

  /** Patches that change disjoint fields commute, whatever each of them had read. */
  lemma DisjointPatchesCommute(base1: Status, mod1: Status, base2: Status, mod2: Status, server: Status)
    requires forall f: Field :: !(Changes(base1, mod1, f) && Changes(base2, mod2, f))
    ensures Patched(base1, mod1, Patched(base2, mod2, server)) == Patched(base2, mod2, Patched(base1, mod1, server))
  {
    var s1, s2 := Merge(base1, mod1, server), Merge(base2, mod2, server);
    var a, b := Merge(base1, mod1, s2), Merge(base2, mod2, s1);
    PatchIsMerge(base1, mod1, server);
    PatchIsMerge(base2, mod2, server);
    PatchIsMerge(base1, mod1, s2);
    PatchIsMerge(base2, mod2, s1);
    forall f: Field ensures FieldOf(a, f) == FieldOf(b, f) {
      assert !(Changes(base1, mod1, f) && Changes(base2, mod2, f));
      MergeField(base1, mod1, server, f);
      MergeField(base2, mod2, server, f);
      MergeField(base1, mod1, s2, f);
      MergeField(base2, mod2, s1, f);
    }
    FieldsDetermineStatus(a, b);
  }

  /******* The retry loop *******/

  datatype Reply = Accepted | Conflict | Refused

  /**
   One round trip: what the server holds when the read arrives and whether the object is
   found, what rivals have stored by the time the patch arrives, and the reply to it.
   */
  datatype Attempt = Attempt(before: Status, found: bool, rival: Status, reply: Reply)

  const RETRY_STEPS := 5

  /** The attempt that settles the call: the first one not answered by a conflict, if any. */
  function Settling(attempts: seq<Attempt>): (k: nat)
    ensures k <= |attempts|
    ensures forall i :: 0 <= i < k ==> attempts[i].found && attempts[i].reply == Conflict
    ensures k < |attempts| ==> !(attempts[k].found && attempts[k].reply == Conflict)
  {
    if attempts == [] || !(attempts[0].found && attempts[0].reply == Conflict) then 0
    else 1 + Settling(attempts[1..])
  }

  class Server {
    var status: Status

    /**
     Patches the stored status, re-reading after each conflict.  Success means exactly that
     some attempt was accepted, all earlier ones having conflicted, and then the stored
     status is the merge of that attempt's own read with what rivals stored before it.
     */
    method PatchGitMirrorStatus(mutate: Status -> Status, attempts: seq<Attempt>) returns (ok: bool)
      requires |attempts| == 5
      modifies this
      ensures var k := Settling(attempts);
              ok == (k < 5 && attempts[k].found && attempts[k].reply == Accepted)
      ensures var k := Settling(attempts);
              status == if k == 5 then attempts[k - 1].rival
                        else if !attempts[k].found then attempts[k].before
                        else if !ok then attempts[k].rival
                        else Merge(attempts[k].before, mutate(attempts[k].before), attempts[k].rival)
    {
      var i := 0;
      while i < RETRY_STEPS
        invariant i <= RETRY_STEPS
        invariant i <= Settling(attempts)
        invariant i > 0 ==> status == attempts[i - 1].rival
      {
        status := attempts[i].before;
        if !attempts[i].found {
          return false;
        }
        var base := status;
        var current := mutate(base);
        status := attempts[i].rival;
        match attempts[i].reply {
          case Accepted =>
            status := Decode(Apply(Diff(Encode(base), Encode(current)), Encode(status)));
            PatchIsMerge(base, current, attempts[i].rival);
            return true;
          case Refused =>
            return false;
          case Conflict =>
        }
        i := i + 1;
      }
      return false;
    }
  }
}
