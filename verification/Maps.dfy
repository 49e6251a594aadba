// Counting the values of an injective map.
module Maps {
  ghost predicate Injective<K, V>(m: map<K, V>) {
    forall k1, k2 :: k1 in m && k2 in m && m[k1] == m[k2] ==> k1 == k2
  }

  // As many values as keys.
  lemma {:induction false} InjectiveSize<K, V>(m: map<K, V>)
    requires Injective(m)
    ensures |m.Values| == |m|
    decreases |m|
  {
    if m.Keys == {} {
      assert m.Values == {};
      assert |m| == |m.Keys|;
    } else {
      var k :| k in m;
      var rest := m - {k};
      assert m.Keys == rest.Keys + {k};
      assert |m| == |m.Keys| && |rest| == |rest.Keys|;
      InjectiveSize(rest);
      assert m[k] !in rest.Values;
      forall v ensures v in m.Values <==> v in rest.Values + {m[k]} {
        if v in m.Values {
          var k' :| k' in m && m[k'] == v;
          if k' != k { assert k' in rest && rest[k'] == v; }
        }
        if v in rest.Values {
          var k' :| k' in rest && rest[k'] == v;
          assert k' in m && m[k'] == v;
        }
      }
      assert m.Values == rest.Values + {m[k]};
    }
  }
}
