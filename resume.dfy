/**
 * The nonce step of the external browser flow: when the other window posts
 * back a nonce, it is written into the resume-nonce context field of every
 * form among the flow action's `continueActions`.
 */
module Resume {
  import opened Wrappers
  import opened Haapi
  import opened Requests

  const ResumeNonceName := "_resume_nonce"

  /** The field that carries the nonce: a context field named `_resume_nonce`. */
  predicate IsNonceField(f: Field) {
    f.fieldType == ContextType && f.name == ResumeNonceName
  }

  /** A form action whose `fields` is an array: the only actions searched. */
  predicate IsFormWithFields(a: Action) {
    a.template == FormTemplate && a.model.fields.Some?
  }

  predicate FormHasNonceField(a: Action) {
    IsFormWithFields(a)
    && exists j :: 0 <= j < |a.model.fields.value| && IsNonceField(a.model.fields.value[j])
  }

  predicate HasNonceField(items: seq<Action>) {
    exists i :: 0 <= i < |items| && FormHasNonceField(items[i])
  }

  function InjectField(f: Field, nonce: string): Field {
    if IsNonceField(f) then f.(value := nonce) else f
  }

  function InjectFields(fields: seq<Field>, nonce: string): seq<Field> {
    seq(|fields|, j requires 0 <= j < |fields| => InjectField(fields[j], nonce))
  }

  function InjectAction(a: Action, nonce: string): Action {
    if IsFormWithFields(a)
    then a.(model := a.model.(fields := Some(InjectFields(a.model.fields.value, nonce))))
    else a
  }

  /** The continuation actions once the nonce is written. */
  function NonceInjected(items: seq<Action>, nonce: string): (r: seq<Action>)
    ensures |r| == |items|
    ensures forall i :: 0 <= i < |items| ==>
      r[i].template == items[i].template && r[i].kind == items[i].kind && r[i].title == items[i].title
    ensures forall i :: 0 <= i < |items| && IsFormWithFields(items[i]) ==>
      && r[i].model.fields.Some?
      && |r[i].model.fields.value| == |items[i].model.fields.value|
      && forall j :: 0 <= j < |items[i].model.fields.value| && IsNonceField(items[i].model.fields.value[j]) ==>
           r[i].model.fields.value[j].value == nonce
  {
    seq(|items|, i requires 0 <= i < |items| => InjectAction(items[i], nonce))
  }

  /** The nested loops of the resume action: every matching field gets the
      nonce, and `found` records whether any did. */
  method InjectNonce(items: seq<Action>, nonce: string) returns (updated: seq<Action>, found: bool)
    ensures updated == NonceInjected(items, nonce)
    ensures found <==> HasNonceField(items)
  {
    updated := items;
    found := false;
    var i := 0;
    while i < |items|
      invariant 0 <= i <= |items|
      invariant |updated| == |items|
      invariant forall k :: 0 <= k < i ==> updated[k] == InjectAction(items[k], nonce)
      invariant forall k :: i <= k < |items| ==> updated[k] == items[k]
      invariant found <==> exists k :: 0 <= k < i && FormHasNonceField(items[k])
    {
      var sub := items[i];
      if sub.template == FormTemplate && sub.model.fields.Some? {
        var fields := sub.model.fields.value;
        var fs := fields;
        var j := 0;
        ghost var foundBefore := found;
        while j < |fields|
          invariant 0 <= j <= |fields|
          invariant |fs| == |fields|
          invariant forall m :: 0 <= m < j ==> fs[m] == InjectField(fields[m], nonce)
          invariant forall m :: j <= m < |fields| ==> fs[m] == fields[m]
          invariant found <==> foundBefore || exists m :: 0 <= m < j && IsNonceField(fields[m])
        {
          if fs[j].fieldType == ContextType && fs[j].name == ResumeNonceName {
            fs := fs[j := fs[j].(value := nonce)];
            found := true;
          }
          j := j + 1;
        }
        assert fs == InjectFields(fields, nonce);
        updated := updated[i := sub.(model := sub.model.(fields := Some(fs)))];
      }
      i := i + 1;
    }
  }

  /** Every nonce field of a form among the continuation actions is sent with
      the nonce when that form is submitted. */
  lemma NonceReachesServer(items: seq<Action>, nonce: string, i: nat, j: nat)
    requires i < |items| && IsFormWithFields(items[i])
    requires j < |items[i].model.fields.value| && IsNonceField(items[i].model.fields.value[j])
    ensures NonceInjected(items, nonce)[i].model.fields.Some?
    ensures Pair(ResumeNonceName, nonce) in FormPairs(NonceInjected(items, nonce)[i].model.fields.value)
  {
    var fs := NonceInjected(items, nonce)[i].model.fields.value;
    assert fs[j] == items[i].model.fields.value[j].(value := nonce);
    assert Included(fs[j]);
    FormPairsOrder(fs);
    var idx := IncludedIndices(fs);
    var k :| 0 <= k < |idx| && idx[k] == j;
    assert FormPairs(fs)[k] == Pair(ResumeNonceName, nonce);
  }

  /** Writing a nonce leaves everything but nonce field values as it was. */
  lemma InjectionFrame(items: seq<Action>, nonce: string)
    ensures
      var u := NonceInjected(items, nonce);
      && |u| == |items|
      && forall i :: 0 <= i < |items| ==>
           && u[i].template == items[i].template && u[i].kind == items[i].kind
           && u[i].title == items[i].title
           && u[i].model.fields.Some? == items[i].model.fields.Some?
           && u[i].model == items[i].model.(fields := u[i].model.fields)
           && (!IsFormWithFields(items[i]) ==> u[i] == items[i])
           && (IsFormWithFields(items[i]) ==>
                 var fs := items[i].model.fields.value;
                 var gs := u[i].model.fields.value;
                 && |gs| == |fs|
                 && forall j :: 0 <= j < |fs| ==>
                      gs[j] == (if IsNonceField(fs[j]) then fs[j].(value := nonce) else fs[j]))
  {
  }

  /** Without a nonce field the continuation actions are left as they are. */
  lemma {:induction false} NoNonceFieldNoChange(items: seq<Action>, nonce: string)
    requires !HasNonceField(items)
    ensures NonceInjected(items, nonce) == items
  {
    forall i | 0 <= i < |items|
      ensures InjectAction(items[i], nonce) == items[i]
    {
      if IsFormWithFields(items[i]) {
        var fs := items[i].model.fields.value;
        assert !FormHasNonceField(items[i]);
        assert InjectFields(fs, nonce) == fs;
      }
    }
  }

  /** A second nonce overwrites the first. */
  lemma {:induction false} LastNonceWins(items: seq<Action>, n1: string, n2: string)
    ensures NonceInjected(NonceInjected(items, n1), n2) == NonceInjected(items, n2)
  {
    var once := NonceInjected(items, n1);
    forall i | 0 <= i < |items|
      ensures InjectAction(once[i], n2) == InjectAction(items[i], n2)
    {
      if IsFormWithFields(items[i]) {
        var fs := items[i].model.fields.value;
        assert InjectFields(InjectFields(fs, n1), n2) == InjectFields(fs, n2);
      }
    }
  }
}
