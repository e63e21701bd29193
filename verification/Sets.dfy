/** Sizes of finite sets. */
module Sets {

  function Size<T>(s: set<T>): nat {
    |s|
  }

  lemma SizeGrows<T>(a: set<T>, b: set<T>)
    requires a <= b
    ensures Size(a) <= Size(b)
  {
    assert b == a + (b - a);
  }

  lemma SizeOfUnion<T>(a: set<T>, b: set<T>)
    ensures Size(a + b) <= Size(a) + Size(b)
    ensures a !! b ==> Size(a + b) == Size(a) + Size(b)
  {
    assert |a + b| + |a * b| == |a| + |b|;
  }
}
