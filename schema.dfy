/** The parts of zod's object validation that the page schemas use: each rule
    contributes at most one issue, attached to a field path, and the form is
    accepted when no rule contributes any. */
module Schema {
  import opened Wrappers

  /** One validation issue: the field it is attached to and its message. */
  datatype Issue<F> = Issue(field: F, message: string)

  /** zod's message for a required value that is missing. */
  const RequiredMessage := "Required"

  /** The fields that carry at least one issue. */
  function Fields<F>(issues: seq<Issue<F>>): set<F> {
    set k | 0 <= k < |issues| :: issues[k].field
  }

  lemma FieldsAppend<F>(a: seq<Issue<F>>, b: seq<Issue<F>>)
    ensures Fields(a + b) == Fields(a) + Fields(b)
  {
    forall x | x in Fields(a + b) ensures x in Fields(a) + Fields(b) {
      var k :| 0 <= k < |a + b| && (a + b)[k].field == x;
      if k < |a| {
        assert a[k].field == x;
      } else {
        assert b[k - |a|].field == x;
      }
    }
    forall x | x in Fields(a) + Fields(b) ensures x in Fields(a + b) {
      if x in Fields(a) {
        var k :| 0 <= k < |a| && a[k].field == x;
        assert (a + b)[k].field == x;
      } else {
        var k :| 0 <= k < |b| && b[k].field == x;
        assert (a + b)[|a| + k].field == x;
      }
    }
  }

  lemma FieldsEmpty<F>(issues: seq<Issue<F>>)
    ensures Fields(issues) == {} <==> issues == []
  {
    if issues != [] {
      assert issues[0].field in Fields(issues);
    }
  }

  /** The fields of a single issue. */
  lemma FieldsSingle<F>(i: Issue<F>)
    ensures Fields([i]) == {i.field}
  {
    assert [i][0].field == i.field;
  }

  /** A single check (`.min(n, message)`, `.refine(p, message)`): one issue on
      `field` exactly when the rule fails. */
  function Rule<F>(holds: bool, field: F, message: string): (r: seq<Issue<F>>)
    ensures Fields(r) == if holds then {} else {field}
  {
    if holds then [] else
      FieldsSingle(Issue(field, message));
      [Issue(field, message)]
  }

  /** `z.string().min(n, message)` on a value that may be missing. */
  function MinLength<F>(value: Option<string>, n: nat, field: F, message: string): (r: seq<Issue<F>>)
    ensures Fields(r) == if value.Some? && |value.value| >= n then {} else {field}
    ensures value.None? ==> r == [Issue(field, RequiredMessage)]
    ensures value.Some? && |value.value| < n ==> r == [Issue(field, message)]
  {
    match value
    case None =>
      FieldsSingle(Issue(field, RequiredMessage));
      [Issue(field, RequiredMessage)]
    case Some(s) => Rule(|s| >= n, field, message)
  }
}
