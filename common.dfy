/** Small shared vocabulary: an Option type and the insertion-ordered set
    that JavaScript's `Set` provides, kept as a sequence without duplicates. */
module Common {

  datatype Option<+T> = None | Some(value: T)

  /** No element occurs twice. */
  predicate NoDup<T(==)>(s: seq<T>) {
    forall i, j | 0 <= i < j < |s| :: s[i] != s[j]
  }

  /** `Set.prototype.add`: appends the element unless it is already there,
      so iteration order stays insertion order. */
  function SetAdd<T(==,!new)>(s: seq<T>, x: T): (r: seq<T>)
    ensures forall y :: y in r <==> y in s || y == x
    ensures NoDup(s) ==> NoDup(r)
    ensures x in s ==> r == s
    ensures x !in s ==> r == s + [x]
  {
    if x in s then s else s + [x]
  }

  /** `Set.prototype.delete`: removes the element and keeps the order of the others. */
  function SetDelete<T(==,!new)>(s: seq<T>, x: T): (r: seq<T>)
    ensures forall y :: y in r <==> y in s && y != x
    ensures NoDup(s) ==> NoDup(r)
    ensures |r| <= |s|
    ensures x !in s ==> r == s
  {
    if s == [] then []
    else if s[0] == x then SetDelete(s[1..], x)
    else
      NoDupTail(s);
      [s[0]] + SetDelete(s[1..], x)
  }

  lemma NoDupTail<T>(s: seq<T>)
    requires s != []
    ensures NoDup(s) ==> NoDup(s[1..]) && s[0] !in s[1..]
  {
  }

  /** Deleting an element that was just added to a set that lacked it gives the set back. */
  lemma {:induction false} AddThenDelete<T(!new)>(s: seq<T>, x: T)
    requires x !in s
    ensures SetDelete(SetAdd(s, x), x) == s
  {
    if s != [] {
      assert SetAdd(s, x)[1..] == SetAdd(s[1..], x);
      AddThenDelete(s[1..], x);
    } else {
      assert SetAdd(s, x) == [x];
      assert SetDelete([x], x) == SetDelete([x][1..], x);
    }
  }
}
