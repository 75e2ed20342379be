/**
 * The invalid-input handler of a rendered form. Each field of the form has an
 * error text shown beside it. When the server answers a submission with an
 * invalid-input problem, all error texts are cleared and then each listed
 * field that exists in the form gets its detail.
 */
module FieldErrors {
  import opened Wrappers
  import opened Haapi

  /** Error texts when nothing is marked. */
  function NoErrors(n: nat): seq<Option<string>> {
    seq(n, _ => None)
  }

  /** The position of the first field with the given name. */
  function FindField(fields: seq<Field>, name: string): (k: Option<nat>)
    ensures k.Some? ==> k.value < |fields| && fields[k.value].name == name
    ensures k.Some? ==> forall m :: 0 <= m < k.value ==> fields[m].name != name
    ensures k.None? ==> forall m :: 0 <= m < |fields| ==> fields[m].name != name
  {
    if fields == [] then None
    else if fields[0].name == name then Some(0)
    else match FindField(fields[1..], name)
      case Some(k) => Some(k + 1)
      case None => None
  }

  /** The error texts after the invalid fields are applied in order. */
  function Annotated(fields: seq<Field>, invalid: seq<InvalidField>): (e: seq<Option<string>>)
    ensures |e| == |fields|
  {
    if invalid == [] then NoErrors(|fields|)
    else
      var n := |invalid| - 1;
      var before := Annotated(fields, invalid[..n]);
      match FindField(fields, invalid[n].name)
      case Some(k) => before[k := Some(invalid[n].detail)]
      case None => before
  }

  /** The detail of the last invalid entry for a name. */
  function LastDetail(invalid: seq<InvalidField>, name: string): Option<string> {
    if invalid == [] then None
    else
      var n := |invalid| - 1;
      if invalid[n].name == name then Some(invalid[n].detail) else LastDetail(invalid[..n], name)
  }

  /** A field shows an error exactly when it is the first field of its name
      and some invalid entry names it; the text is the last such detail. */
  lemma {:induction false} AnnotatedMarks(fields: seq<Field>, invalid: seq<InvalidField>, k: nat)
    requires k < |fields|
    ensures Annotated(fields, invalid)[k] ==
      (if FindField(fields, fields[k].name) == Some(k) then LastDetail(invalid, fields[k].name) else None)
  {
    if invalid != [] {
      var n := |invalid| - 1;
      AnnotatedMarks(fields, invalid[..n], k);
      var f := FindField(fields, invalid[n].name);
      if f.Some? && f.value == k {
        assert FindField(fields, fields[k].name) == Some(k);
      } else if f.Some? && invalid[n].name == fields[k].name {
        assert FindField(fields, fields[k].name) == f;
      }
    }
  }

  /** One rendered form: its fields and the error text beside each. */
  class FormView {
    const fields: seq<Field>
    var errors: seq<Option<string>>

    ghost predicate Valid()
      reads this
    {
      |errors| == |fields|
    }

    constructor(fields: seq<Field>)
      ensures Valid()
      ensures this.fields == fields && errors == NoErrors(|fields|)
    {
      this.fields := fields;
      errors := NoErrors(|fields|);
    }

    /** `onInvalidInput`: clear every error, then mark the named fields. An
        absent `invalidFields` array throws after the clearing (`ok` false). */
    method OnInvalidInput(invalid: Option<seq<InvalidField>>) returns (ok: bool)
      requires Valid()
      modifies this
      ensures Valid()
      ensures ok <==> invalid.Some?
      ensures errors == if invalid.Some? then Annotated(fields, invalid.value) else NoErrors(|fields|)
    {
      var i := 0;
      while i < |errors|
        invariant 0 <= i <= |errors| == |fields|
        invariant forall m :: 0 <= m < i ==> errors[m].None?
      {
        errors := errors[i := None];
        i := i + 1;
      }
      assert errors == NoErrors(|fields|);
      if invalid.None? {
        return false;
      }
      var list := invalid.value;
      var n := 0;
      while n < |list|
        invariant 0 <= n <= |list|
        invariant errors == Annotated(fields, list[..n])
      {
        assert list[..n + 1][..n] == list[..n];
        var k := FindField(fields, list[n].name);
        if k.Some? {
          errors := errors[k.value := Some(list[n].detail)];
        }
        n := n + 1;
      }
      assert list[..n] == list;
      return true;
    }
  }
}
