/** Lists that hold an element at most once, and taking an element out. */
module Lists {

  ghost predicate NoDuplicates<T>(s: seq<T>) {
    forall i, j :: 0 <= i < j < |s| ==> s[i] != s[j]
  }

  /** `std::list::remove`. */
  function Without<T(==)>(s: seq<T>, x: T): seq<T> {
    if s == [] then [] else (if s[0] == x then [] else [s[0]]) + Without(s[1..], x)
  }

  lemma {:induction false} WithoutContents<T>(s: seq<T>, x: T)
    ensures forall y :: y in Without(s, x) <==> y in s && y != x
    ensures NoDuplicates(s) ==> NoDuplicates(Without(s, x))
  {
    if s != [] {
      WithoutContents(s[1..], x);
      assert s == [s[0]] + s[1..];
      if NoDuplicates(s) {
        assert forall j :: 0 <= j < |s[1..]| ==> s[1..][j] == s[j + 1];
        assert s[0] !in s[1..];
      }
    }
  }

  /** A loop that takes the elements of a set in any order. */
  lemma TakenOne<T>(all: set<T>, left: set<T>, x: T)
    requires left <= all && x in left
    ensures left - {x} <= all && all - (left - {x}) == all - left + {x}
  {
  }
}
