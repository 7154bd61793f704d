/** The domain registry's removal step, `domains.removeAll { $0 == domain }`,
    and what it does to the registry around a scoped registration. */
module Registry {

  /** `s` with every element equal to `x` taken out, the rest in order. */
  function Without<X(==)>(s: seq<X>, x: X): (r: seq<X>)
    ensures multiset(r) == multiset(s)[x := 0]
  {
    if s == [] then []
    else
      assert s == [s[0]] + s[1..];
      if s[0] == x then Without(s[1..], x)
      else [s[0]] + Without(s[1..], x)
  }

  /** Removal works element by element, so the survivors keep their order. */
  lemma {:induction false} WithoutAppend<X>(a: seq<X>, b: seq<X>, x: X)
    ensures Without(a + b, x) == Without(a, x) + Without(b, x)
  {
    if a == [] {
      assert a + b == b;
    } else {
      assert (a + b)[1..] == a[1..] + b;
      WithoutAppend(a[1..], b, x);
    }
  }

  /** Removing a name that is not there leaves the sequence as it is. */
  lemma {:induction false} WithoutAbsent<X>(s: seq<X>, x: X)
    requires x !in s
    ensures Without(s, x) == s
  {
    if s != [] {
      WithoutAbsent(s[1..], x);
    }
  }

  /** After a scoped registration of `d` over a body that leaves the registry
      as it found it, the registry is the old one without any `d`; when `d` was
      not registered before, it is exactly the old one. */
  lemma ScopedRegistrationRestores<X>(before: seq<X>, d: X)
    ensures Without(before + [d], d) == Without(before, d)
    ensures d !in before ==> Without(before + [d], d) == before
  {
    WithoutAppend(before, [d], d);
    assert Without([d], d) == [];
    if d !in before {
      WithoutAbsent(before, d);
    }
  }

  /** When `d` was registered before the scoped registration, the earlier
      registrations of `d` are gone afterwards too: the registry shrinks by
      every copy of `d`, not only the one just pushed. */
  lemma ScopedRegistrationRemovesEarlier<X>(before: seq<X>, d: X)
    requires d in before
    ensures d !in Without(before + [d], d)
    ensures |Without(before + [d], d)| == |before| - multiset(before)[d]
  {
    var r := Without(before + [d], d);
    assert d !in multiset(r);
    ScopedRegistrationRestores(before, d);
    var m := multiset(before);
    assert m == m[d := 0] + multiset{} [d := m[d]];
    assert |m| == |m[d := 0]| + m[d];
  }
}
