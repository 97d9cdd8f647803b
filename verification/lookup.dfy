/** First-match lookup in a list of records: the behaviour of the helper
    `dict_from_list_key(list, key, value)`, which returns the first record whose
    `key` field equals `value`, or `None` when no record has it. The field is
    given as a projection function. */
module Lookup {
  import opened Wrappers

  /** No record strictly before index `i` carries `v` in the field. */
  ghost predicate NoneBefore<T>(xs: seq<T>, field: T -> string, v: string, i: int)
    requires 0 <= i <= |xs|
  {
    forall j :: 0 <= j < i ==> field(xs[j]) != v
  }

  /** Index `i` holds the first record carrying `v` in the field. */
  ghost predicate IsFirstMatch<T>(xs: seq<T>, field: T -> string, v: string, i: int)
  {
    0 <= i < |xs| && field(xs[i]) == v && NoneBefore(xs, field, v, i)
  }

  /** Position of the first record carrying `v`, scanning in list order. */
  function FirstIndex<T>(xs: seq<T>, field: T -> string, v: string): (r: Option<nat>)
    ensures r.Some? ==> IsFirstMatch(xs, field, v, r.value)
    ensures r.None? ==> NoneBefore(xs, field, v, |xs|)
  {
    if |xs| == 0 then None
    else if field(xs[0]) == v then Some(0)
    else match FirstIndex(xs[1..], field, v)
      case None => None
      case Some(i) => Some(i + 1)
  }

  /** The first record carrying `v`, or `None`. */
  function FirstMatch<T>(xs: seq<T>, field: T -> string, v: string): (r: Option<T>)
    ensures r.None? <==> NoneBefore(xs, field, v, |xs|)
    ensures r.Some? ==> exists i :: IsFirstMatch(xs, field, v, i) && r.value == xs[i]
  {
    match FirstIndex(xs, field, v)
    case None => None
    case Some(i) => Some(xs[i])
  }

  /** Whenever index `i` holds the first match, the lookup returns that record. */
  lemma FirstMatchAt<T>(xs: seq<T>, field: T -> string, v: string, i: int)
    requires IsFirstMatch(xs, field, v, i)
    ensures FirstMatch(xs, field, v) == Some(xs[i])
  {
  }

  /** Earlier records shadow later ones: a match in `xs` wins over anything in
      `ys`, and `ys` is only consulted when `xs` has no match. */
  lemma FirstMatchAppend<T>(xs: seq<T>, ys: seq<T>, field: T -> string, v: string)
    ensures FirstMatch(xs + ys, field, v) ==
            if FirstMatch(xs, field, v).Some? then FirstMatch(xs, field, v) else FirstMatch(ys, field, v)
  {
    var zs := xs + ys;
    assert forall j :: 0 <= j < |xs| ==> zs[j] == xs[j];
    assert forall j :: |xs| <= j < |zs| ==> zs[j] == ys[j - |xs|];
    match FirstMatch(xs, field, v) {
      case Some(x) =>
        var i :| IsFirstMatch(xs, field, v, i) && x == xs[i];
        FirstMatchAt(zs, field, v, i);
      case None =>
        match FirstMatch(ys, field, v) {
          case Some(y) =>
            var k :| IsFirstMatch(ys, field, v, k) && y == ys[k];
            FirstMatchAt(zs, field, v, |xs| + k);
          case None =>
        }
    }
  }
}
