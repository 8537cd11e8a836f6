/** The purpose page of app/purpose/page.tsx: the six purposes offered (id and label) and
    the checkbox handler that adds a purpose to, or removes it from, the
    selected list. */
module PurposePage {
  import Validations

  datatype Purpose = Purpose(id: string, title: string)

  /** The purposes offered, in display order. */
  const Purposes: seq<Purpose> := [
    Purpose("employment", "Employment"),
    Purpose("loan", "Loan Application"),
    Purpose("credit_check", "Personal Credit Check"),
    Purpose("tenant", "Tenant Verification"),
    Purpose("business", "Business Purpose"),
    Purpose("other", "Other")
  ]

  /** The form's default selection. */
  const InitialSelection: seq<string> := []

  /** No two purposes share an id. */
  lemma PurposeIdsDistinct()
    ensures forall i, j :: 0 <= i < j < |Purposes| ==> Purposes[i].id != Purposes[j].id
  {
  }

  /** The form cannot be submitted before a purpose is chosen. */
  lemma InitialSelectionRejected()
    ensures Validations.PurposeIssues(InitialSelection) != []
  {
  }

  /** `value.filter(v => v !== id)`. */
  function Without(value: seq<string>, id: string): (r: seq<string>)
    ensures multiset(r) == multiset(value)[id := 0]
    ensures |r| == |value| - multiset(value)[id]
    decreases |value|
  {
    if value == [] then []
    else
      assert value == [value[0]] + value[1..];
      (if value[0] == id then [] else [value[0]]) + Without(value[1..], id)
  }

  /** The filter works element by element, so it keeps the order of what
      remains: filtering a concatenation filters each part. */
  lemma {:induction false} WithoutConcat(a: seq<string>, b: seq<string>, id: string)
    ensures Without(a + b, id) == Without(a, id) + Without(b, id)
  {
    if a == [] {
      assert a + b == b;
    } else {
      assert (a + b)[0] == a[0] && (a + b)[1..] == a[1..] + b;
      WithoutConcat(a[1..], b, id);
    }
  }

  /** An unchecked purpose is absent afterwards, and every other id is
      present exactly as often as before. */
  lemma WithoutMembership(value: seq<string>, id: string, other: string)
    requires other != id
    ensures id !in Without(value, id)
    ensures other in Without(value, id) <==> other in value
  {
    assert multiset(Without(value, id))[id] == 0;
    assert multiset(Without(value, id))[other] == multiset(value)[other];
  }

  /** `onCheckedChange`: append on check, filter on uncheck. */
  function Toggle(value: seq<string>, id: string, checked: bool): (r: seq<string>)
    ensures checked ==> |r| == |value| + 1 && r[..|value|] == value && r[|value|] == id
    ensures !checked ==> multiset(r) == multiset(value)[id := 0]
  {
    if checked then value + [id] else Without(value, id)
  }

  /** Unchecking then checking leaves the purpose selected exactly once. */
  lemma UncheckThenCheck(value: seq<string>, id: string)
    ensures multiset(Toggle(Toggle(value, id, false), id, true))[id] == 1
  {
  }

  predicate Distinct(s: seq<string>) {
    forall i, j :: 0 <= i < j < |s| ==> s[i] != s[j]
  }

  /** The checkbox reports "checked" exactly when the purpose is not yet in
      the list (its `checked` prop is `value.includes(id)`), so clicks keep
      the selection free of duplicates. */
  function Click(value: seq<string>, id: string): (r: seq<string>)
    ensures id in value ==> multiset(r)[id] == 0
    ensures id !in value ==> multiset(r)[id] == 1 && r == value + [id]
  {
    Toggle(value, id, id !in value)
  }

  lemma {:induction false} WithoutSubsequenceDistinct(value: seq<string>, id: string)
    requires Distinct(value)
    ensures Distinct(Without(value, id))
    decreases |value|
  {
    if value != [] {
      WithoutSubsequenceDistinct(value[1..], id);
      var rest := Without(value[1..], id);
      assert multiset(rest)[value[0]] == 0 by {
        assert value[0] !in value[1..];
        assert multiset(value[1..])[value[0]] == 0;
      }
      if value[0] != id {
        assert Without(value, id) == [value[0]] + rest;
        assert value[0] !in rest;
      }
    }
  }

  lemma ClickKeepsDistinct(value: seq<string>, id: string)
    requires Distinct(value)
    ensures Distinct(Click(value, id))
    ensures id in Click(value, id) <==> id !in value
  {
    if id in value {
      WithoutSubsequenceDistinct(value, id);
      assert multiset(Without(value, id))[id] == 0;
    }
  }
}
