/** Shared vocabulary: optional values, error results, and the order Python sorts strings by. */
module Prelude {

  datatype Option<+T> = None | Some(value: T) {
    function GetOr(default: T): T {
      match this
      case None => default
      case Some(v) => v
    }
  }

  /** A raised exception is an Err carrying its message. */
  datatype Result<+T> = Ok(value: T) | Err(error: string) {
    predicate IsFailure() {
      Err?
    }

    function PropagateFailure<U>(): Result<U>
      requires Err?
    {
      Err(error)
    }

    function Extract(): T
      requires Ok?
    {
      value
    }
  }

  datatype Guard = Pass | Fail(error: string) {
    predicate IsFailure() {
      Fail?
    }

    function PropagateFailure<U>(): Result<U>
      requires Fail?
    {
      Err(error)
    }
  }

  /** `if not condition: raise ValueError(error)` */
  function Need(condition: bool, error: string): Guard {
    if condition then Pass else Fail(error)
  }

  /** A field is truthy when it is present and non-empty. */
  predicate Truthy(field: Option<string>) {
    field.Some? && field.value != ""
  }

  // ---------- the lexicographic order of sorted() ----------

  predicate Le(a: string, b: string) {
    a == "" || (b != "" && (a[0] < b[0] || (a[0] == b[0] && Le(a[1..], b[1..]))))
  }

  lemma {:induction false} LeReflexive(a: string)
    ensures Le(a, a)
  {
    if a != "" {
      LeReflexive(a[1..]);
    }
  }

  lemma {:induction false} LeTotal(a: string, b: string)
    ensures Le(a, b) || Le(b, a)
  {
    if a != "" && b != "" && a[0] == b[0] {
      LeTotal(a[1..], b[1..]);
    }
  }

  lemma {:induction false} LeAntisymmetric(a: string, b: string)
    requires Le(a, b) && Le(b, a)
    ensures a == b
  {
    if a != "" {
      LeAntisymmetric(a[1..], b[1..]);
      assert a == [a[0]] + a[1..] && b == [b[0]] + b[1..];
    }
  }

  lemma {:induction false} LeTransitive(a: string, b: string, c: string)
    requires Le(a, b) && Le(b, c)
    ensures Le(a, c)
  {
    if a != "" && a[0] == b[0] && b[0] == c[0] {
      LeTransitive(a[1..], b[1..], c[1..]);
    }
  }

  ghost predicate IsFirst(m: string, s: set<string>) {
    m in s && forall x :: x in s ==> Le(m, x)
  }

  lemma {:induction false} FirstExists(s: set<string>)
    requires s != {}
    ensures exists m :: IsFirst(m, s)
  {
    var x :| x in s;
    LeReflexive(x);
    if s == {x} {
      assert IsFirst(x, s);
    } else {
      FirstExists(s - {x});
      var m :| IsFirst(m, s - {x});
      LeTotal(x, m);
      if Le(x, m) {
        forall y | y in s ensures Le(x, y) {
          if y != x {
            LeTransitive(x, m, y);
          }
        }
        assert IsFirst(x, s);
      } else {
        assert IsFirst(m, s);
      }
    }
  }

  /** `sorted(s)[0]` */
  ghost function First(s: set<string>): (m: string)
    requires s != {}
    ensures IsFirst(m, s)
  {
    FirstExists(s);
    var m :| IsFirst(m, s);
    m
  }

  lemma FirstUnique(m: string, s: set<string>)
    requires IsFirst(m, s)
    ensures s != {} && First(s) == m
  {
    LeAntisymmetric(m, First(s));
  }

  /** `sorted(s)[0]`, computed */
  method SortedFirst(s: set<string>) returns (m: string)
    requires s != {}
    ensures m == First(s)
  {
    m :| m in s;
    var rest := s - {m};
    LeReflexive(m);
    while rest != {}
      invariant rest <= s
      invariant m in s && forall x :: x in s - rest ==> Le(m, x)
      decreases |rest|
    {
      var x :| x in rest;
      if !Le(m, x) {
        LeTotal(m, x);
        LeReflexive(x);
        forall y | y in s - rest ensures Le(x, y) {
          LeTransitive(x, m, y);
        }
        m := x;
      }
      rest := rest - {x};
    }
    FirstUnique(m, s);
  }
}
