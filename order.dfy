/** Python's ordering of `str` values (code point by code point, a proper
    prefix first) and `sorted()` applied to a set of command names. */
module Order {

  /** `a < b` on Python strings. */
  predicate Below(a: string, b: string)
    decreases |a|
  {
    |b| > 0 && (|a| == 0 || a[0] < b[0] || (a[0] == b[0] && Below(a[1..], b[1..])))
  }

  lemma {:induction false} BelowIrreflexive(a: string)
    ensures !Below(a, a)
    decreases |a|
  {
    if |a| > 0 {
      BelowIrreflexive(a[1..]);
    }
  }

  lemma {:induction false} BelowTransitive(a: string, b: string, c: string)
    requires Below(a, b) && Below(b, c)
    ensures Below(a, c)
    decreases |a|
  {
    if |a| > 0 && a[0] == b[0] && b[0] == c[0] {
      BelowTransitive(a[1..], b[1..], c[1..]);
    }
  }

  /** Two different strings are always ordered one way or the other. */
  lemma {:induction false} BelowTotal(a: string, b: string)
    ensures a == b || Below(a, b) || Below(b, a)
    decreases |a|
  {
    if |a| > 0 && |b| > 0 && a[0] == b[0] {
      BelowTotal(a[1..], b[1..]);
      if a[1..] == b[1..] {
        assert a == [a[0]] + a[1..] && b == [b[0]] + b[1..];
      }
    }
  }

  lemma {:induction false} BelowAsymmetric(a: string, b: string)
    requires Below(a, b)
    ensures !Below(b, a)
  {
    if Below(b, a) {
      BelowTransitive(a, b, a);
      BelowIrreflexive(a);
    }
  }

  lemma BelowIsStrictOrder()
    ensures forall a, b :: Below(a, b) ==> !Below(b, a)
  {
    forall a, b | Below(a, b) ensures !Below(b, a) {
      BelowAsymmetric(a, b);
    }
  }

  /** `m` comes before every other member of `keys`. */
  predicate IsLeast(m: string, keys: set<string>)
  {
    m in keys && forall k :: k in keys && k != m ==> Below(m, k)
  }

  lemma {:induction false} LeastExists(keys: set<string>)
    requires keys != {}
    ensures exists m :: IsLeast(m, keys)
    decreases |keys|
  {
    var x :| x in keys;
    if keys == {x} {
      assert IsLeast(x, keys);
    } else {
      var rest := keys - {x};
      LeastExists(rest);
      var m :| IsLeast(m, rest);
      BelowTotal(x, m);
      if Below(x, m) {
        forall k | k in keys && k != x ensures Below(x, k) {
          if k != m {
            BelowTransitive(x, m, k);
          }
        }
        assert IsLeast(x, keys);
      } else {
        assert IsLeast(m, keys);
      }
    }
  }

  /** The least member of a non-empty set of names. */
  function Least(keys: set<string>): (m: string)
    requires keys != {}
    ensures IsLeast(m, keys)
  {
    LeastExists(keys);
    BelowIsStrictOrder();
    var m :| IsLeast(m, keys);
    m
  }

  predicate StrictlyAscending(s: seq<string>)
  {
    forall i, j :: 0 <= i < j < |s| ==> Below(s[i], s[j])
  }

  /** `sorted(keys)`: the names of the set in ascending order, each once. */
  function SortedKeys(keys: set<string>): (r: seq<string>)
    ensures |r| == |keys|
    ensures forall k :: k in r <==> k in keys
    ensures StrictlyAscending(r)
    decreases |keys|
  {
    if keys == {} then []
    else
      var m := Least(keys);
      var rest := SortedKeys(keys - {m});
      assert forall i :: 0 <= i < |rest| ==> Below(m, rest[i]) by {
        forall i | 0 <= i < |rest| ensures Below(m, rest[i]) {
          assert rest[i] in keys - {m};
        }
      }
      [m] + rest
  }

  /** A strictly ascending sequence holds no name twice. */
  lemma AscendingHasNoDuplicates(s: seq<string>, i: int, j: int)
    requires StrictlyAscending(s)
    requires 0 <= i < |s| && 0 <= j < |s| && s[i] == s[j]
    ensures i == j
  {
    if i < j {
      BelowIrreflexive(s[i]);
    } else if j < i {
      BelowIrreflexive(s[j]);
    }
  }

  /** The first name of a strictly ascending listing of `keys` is the
      least of them. */
  lemma HeadIsLeast(keys: set<string>, s: seq<string>)
    requires StrictlyAscending(s) && |s| > 0
    requires forall k :: k in s <==> k in keys
    ensures keys != {} && s[0] == Least(keys)
  {
    assert s[0] in keys;
    var m := Least(keys);
    forall k | k in keys && k != s[0] ensures Below(s[0], k) {
      var i :| 0 <= i < |s| && s[i] == k;
      assert i != 0;
    }
    if s[0] != m {
      BelowAsymmetric(s[0], m);
    }
  }

  /** Without its first name, a strictly ascending listing of `keys` lists
      the others, still ascending. */
  lemma TailLists(keys: set<string>, s: seq<string>)
    requires StrictlyAscending(s) && |s| > 0
    requires forall k :: k in s <==> k in keys
    ensures StrictlyAscending(s[1..])
    ensures forall k :: k in s[1..] <==> k in keys - {s[0]}
  {
    var tail := s[1..];
    forall k ensures k in tail <==> k in keys - {s[0]} {
      if k in tail {
        var i :| 0 <= i < |tail| && tail[i] == k;
        assert s[i + 1] == k;
        BelowIrreflexive(s[0]);
      }
      if k in keys - {s[0]} {
        var i :| 0 <= i < |s| && s[i] == k;
        assert tail[i - 1] == k;
      }
    }
  }

  /** `sorted` has exactly one possible answer: any strictly ascending
      listing of the same names is `SortedKeys`. */
  lemma {:induction false} SortedKeysUnique(keys: set<string>, s: seq<string>)
    requires StrictlyAscending(s)
    requires forall k :: k in s <==> k in keys
    ensures s == SortedKeys(keys)
    decreases |keys|
  {
    if |s| == 0 {
      assert keys == {};
    } else {
      HeadIsLeast(keys, s);
      TailLists(keys, s);
      var m := s[0];
      var rest := SortedKeys(keys - {m});
      assert SortedKeys(keys) == [m] + rest;
      SortedKeysUnique(keys - {m}, s[1..]);
      assert s == [m] + s[1..];
    }
  }
}
