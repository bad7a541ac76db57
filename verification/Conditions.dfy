/** The usual contract of SetStatusCondition: one entry a type, changed in place. */
module Conditions {
  import opened Types

  function Kinds(conditions: seq<Condition>): (kinds: seq<string>)
    ensures |kinds| == |conditions|
  {
    seq(|conditions|, i requires 0 <= i < |conditions| => conditions[i].kind)
  }

  /** The position of the first condition of a type, or the length if there is none. */
  function FirstOfKind(conditions: seq<Condition>, kind: string): (i: nat)
    ensures i <= |conditions|
    ensures forall j :: 0 <= j < i ==> conditions[j].kind != kind
    ensures i < |conditions| ==> conditions[i].kind == kind
  {
    assert forall j :: 0 <= j < |conditions| ==> Kinds(conditions)[j] == conditions[j].kind;
    IndexOf(Kinds(conditions), kind)
  }

  function SetStatusCondition(
    conditions: seq<Condition>, kind: string, status: ConditionStatus, reason: string, message: string, now: nat)
    : seq<Condition>
  {
    var i := FirstOfKind(conditions, kind);
    if i == |conditions| then
      conditions + [Condition(kind, status, reason, message, now)]
    else
      var since := if conditions[i].status != status then now else conditions[i].transition;
      conditions[i := Condition(kind, status, reason, message, since)]
  }

  predicate OneOfEach(conditions: seq<Condition>) {
    Distinct(Kinds(conditions))
  }

  /** Some condition of the type holds, as getClusterInstance looks for it. */
  predicate IsTrue(conditions: seq<Condition>, kind: string) {
    exists i :: 0 <= i < |conditions| && conditions[i].kind == kind && conditions[i].status.ConditionTrue?
  }

  lemma SetKeepsOneOfEach(
    conditions: seq<Condition>, kind: string, status: ConditionStatus, reason: string, message: string, now: nat)
    requires OneOfEach(conditions)
    ensures OneOfEach(SetStatusCondition(conditions, kind, status, reason, message, now))
  {
    var after := SetStatusCondition(conditions, kind, status, reason, message, now);
    var kinds := Kinds(conditions);
    assert Kinds(after) == if kind in kinds then kinds else kinds + [kind];
  }

  /** This entry is the first of its type. */
  predicate FirstAt(conditions: seq<Condition>, kind: string, i: nat) {
    i < |conditions| && conditions[i].kind == kind && forall j :: 0 <= j < i ==> conditions[j].kind != kind
  }

  /**
   Entry by entry: the first entry of the type, or a new one at the end, says what it was set to; its
   transition time is now exactly if there was no entry or its status differed; all others stay.
   */
  lemma SetChangesOneEntry(
    conditions: seq<Condition>, kind: string, status: ConditionStatus, reason: string, message: string, now: nat)
    ensures var after := SetStatusCondition(conditions, kind, status, reason, message, now);
            && ((forall j :: 0 <= j < |conditions| ==> conditions[j].kind != kind) ==>
                  after == conditions + [Condition(kind, status, reason, message, now)])
            && (forall i: nat :: FirstAt(conditions, kind, i) ==>
                  && |after| == |conditions|
                  && (forall j :: 0 <= j < |conditions| && j != i ==> after[j] == conditions[j])
                  && after[i].kind == kind && after[i].status == status
                  && after[i].reason == reason && after[i].message == message
                  && (conditions[i].status != status ==> after[i].transition == now)
                  && (conditions[i].status == status ==> after[i].transition == conditions[i].transition))
  {
    var first := FirstOfKind(conditions, kind);
    forall i: nat | FirstAt(conditions, kind, i)
      ensures i == first
    {
      assert first < |conditions| ==> conditions[first].kind == kind;
    }
  }

  /** Setting decides that type and no other. */
  lemma SetDecides(
    conditions: seq<Condition>, kind: string, status: ConditionStatus, reason: string, message: string, now: nat,
    other: string)
    requires OneOfEach(conditions)
    ensures var after := SetStatusCondition(conditions, kind, status, reason, message, now);
            && (IsTrue(after, kind) <==> status.ConditionTrue?)
            && (other != kind ==> (IsTrue(after, other) <==> IsTrue(conditions, other)))
  {
    SetKeepsOneOfEach(conditions, kind, status, reason, message, now);
    var after := SetStatusCondition(conditions, kind, status, reason, message, now);
    var i := FirstOfKind(conditions, kind);
    assert Kinds(after)[i] == kind && after[i].status == status;
    assert forall j :: 0 <= j < |after| ==> Kinds(after)[j] == after[j].kind;
    assert forall j :: 0 <= j < |conditions| && j != i ==> after[j] == conditions[j];
  }

  /** Repeating the same verdict at a later time changes nothing. */
  lemma SetIsIdempotent(
    conditions: seq<Condition>, kind: string, status: ConditionStatus, reason: string, message: string,
    now: nat, later: nat)
    ensures var once := SetStatusCondition(conditions, kind, status, reason, message, now);
            SetStatusCondition(once, kind, status, reason, message, later) == once
  {
    var once := SetStatusCondition(conditions, kind, status, reason, message, now);
    var i := FirstOfKind(conditions, kind);
    var k := FirstOfKind(once, kind);
    assert once[i].kind == kind && forall j :: 0 <= j < i ==> once[j].kind == conditions[j].kind;
    assert k == i;
  }
}
