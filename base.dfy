/** Shared vocabulary: optional values, results, primary keys and the
    loosely typed values that arrive in request payloads and keyword
    dictionaries. */
module Base {

  /** A database primary key. Auto-incremented ids start at 1, so a key is
      never falsy: the source's `if user.pk` and `if old_id` tests reduce to
      "is present". */
  type Pk = n: nat | 1 <= n witness 1

  datatype Option<+T> = None | Some(value: T)

  datatype Result<+R, +E> = Success(value: R) | Failure(error: E)

  /** A loosely typed value, as found in `request.data` or `**extra_fields`. */
  datatype PyValue = PyNone | PyBool(b: bool) | PyInt(i: int) | PyStr(s: string)

  /** Python truthiness of a payload value. */
  predicate Truthy(v: PyValue)
  {
    match v
    case PyNone => false
    case PyBool(b) => b
    case PyInt(i) => i != 0
    case PyStr(s) => s != ""
  }

  /** `d.get(key)` followed by a truthiness test: an absent key is falsy. */
  predicate TruthyEntry(v: Option<PyValue>)
  {
    v.Some? && Truthy(v.value)
  }

  /** The elements of `s` that satisfy `keep`, in their original order (a
      queryset `.filter(...)` over a table held in insertion order). */
  function Filter<T(!new)>(s: seq<T>, keep: T -> bool): (r: seq<T>)
    ensures |r| <= |s|
    ensures forall x :: x in r <==> x in s && keep(x)
  {
    if s == [] then []
    else if keep(s[|s| - 1]) then Filter(s[..|s| - 1], keep) + [s[|s| - 1]]
    else Filter(s[..|s| - 1], keep)
  }

  /** Two filters that agree on every element of `s` select the same
      subsequence. */
  lemma {:induction false} FilterAgree<T(!new)>(s: seq<T>, p: T -> bool, q: T -> bool)
    requires forall x :: x in s ==> p(x) == q(x)
    ensures Filter(s, p) == Filter(s, q)
  {
    if s != [] {
      FilterAgree(s[..|s| - 1], p, q);
    }
  }

  /** A filter that no element passes selects nothing. */
  lemma {:induction false} FilterNone<T(!new)>(s: seq<T>, keep: T -> bool)
    requires forall x :: x in s ==> !keep(x)
    ensures Filter(s, keep) == []
  {
    if s != [] {
      FilterNone(s[..|s| - 1], keep);
    }
  }

  /** Filtering distributes over concatenation. */
  lemma {:induction false} FilterAppend<T(!new)>(s: seq<T>, t: seq<T>, keep: T -> bool)
    ensures Filter(s + t, keep) == Filter(s, keep) + Filter(t, keep)
  {
    if t != [] {
      assert (s + t)[..|s + t| - 1] == s + t[..|t| - 1];
      FilterAppend(s, t[..|t| - 1], keep);
    } else {
      assert s + t == s;
    }
  }
}
