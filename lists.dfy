/** The Python list operations the handlers and services use, on sequences. */
module Lists {

  predicate NoDuplicates<T(==)>(s: seq<T>)
  {
    forall i, j | 0 <= i < j < |s| :: s[i] != s[j]
  }

  /** `if x not in s: s.append(x)` */
  function AddAbsent<T(==, !new)>(s: seq<T>, x: T): (r: seq<T>)
    ensures x in r
    ensures forall y :: y in r <==> y in s || y == x
    ensures x in s ==> r == s
    ensures x !in s ==> r == s + [x]
    ensures NoDuplicates(s) ==> NoDuplicates(r)
  {
    if x in s then s else s + [x]
  }

  /** `s.remove(x)` for an `x` that is present; when `x` is absent the sequence is returned unchanged. */
  function RemoveFirst<T(==)>(s: seq<T>, x: T): (r: seq<T>)
    ensures x !in s ==> r == s
  {
    if s == [] then []
    else if s[0] == x then s[1..]
    else [s[0]] + RemoveFirst(s[1..], x)
  }

  /** One occurrence of a present value goes, and nothing else. */
  lemma {:induction false} RemoveFirstCount<T>(s: seq<T>, x: T)
    requires x in s
    ensures multiset(s) == multiset(RemoveFirst(s, x)) + multiset{x}
  {
    if s[0] == x {
      assert s == [x] + s[1..];
    } else {
      RemoveFirstCount(s[1..], x);
      assert s == [s[0]] + s[1..];
    }
  }

  /** `list.remove` takes out the first occurrence, at `k`, and keeps the order of everything else. */
  lemma {:induction false} RemoveFirstAt<T>(s: seq<T>, x: T, k: nat)
    requires k < |s| && s[k] == x && x !in s[..k]
    ensures RemoveFirst(s, x) == s[..k] + s[k + 1..]
    decreases k
  {
    if k == 0 {
      assert s[..0] + s[1..] == s[1..];
    } else {
      var t := s[1..];
      assert s[0] == s[..k][0];
      assert t[..k - 1] == s[..k][1..];
      RemoveFirstAt(t, x, k - 1);
      assert s[..k] == [s[0]] + t[..k - 1];
      assert s[k + 1..] == t[k..];
    }
  }

  /** A present value has a first occurrence. */
  lemma {:induction false} FirstOccurrence<T>(s: seq<T>, x: T) returns (k: nat)
    requires x in s
    ensures k < |s| && s[k] == x && x !in s[..k]
  {
    if s[0] == x {
      k := 0;
    } else {
      assert x in s[1..] by {
        var i :| 0 <= i < |s| && s[i] == x;
        assert s[1..][i - 1] == x;
      }
      var j := FirstOccurrence(s[1..], x);
      k := j + 1;
      assert s[..k] == [s[0]] + s[1..][..j];
    }
  }

  /** `list.remove` of a present value takes out its first occurrence and keeps the order of the rest. */
  lemma RemoveFirstSplit<T>(s: seq<T>, x: T)
    requires x in s
    ensures exists k | 0 <= k < |s| :: s[k] == x && x !in s[..k] && RemoveFirst(s, x) == s[..k] + s[k + 1..]
  {
    var k := FirstOccurrence(s, x);
    RemoveFirstAt(s, x, k);
  }

  /** Removing a present value shortens the sequence by one. */
  lemma RemoveFirstLength<T(!new)>(s: seq<T>, x: T)
    requires x in s
    ensures |RemoveFirst(s, x)| == |s| - 1
  {
    RemoveFirstCount(s, x);
    assert |multiset(s)| == |multiset(RemoveFirst(s, x))| + 1;
  }

  /** Removing a value keeps every other value. */
  lemma RemoveFirstKeepsOthers<T(!new)>(s: seq<T>, x: T, y: T)
    requires y != x
    ensures y in RemoveFirst(s, x) <==> y in s
  {
    if x in s {
      RemoveFirstCount(s, x);
      assert multiset(s)[y] == multiset(RemoveFirst(s, x))[y];
    }
  }

  /** In a sequence without duplicates, removing a value leaves it absent and leaves no duplicates. */
  lemma {:induction false} RemoveFirstNoDuplicates<T(!new)>(s: seq<T>, x: T)
    requires NoDuplicates(s)
    ensures x !in RemoveFirst(s, x) && NoDuplicates(RemoveFirst(s, x))
  {
    if s != [] {
      assert NoDuplicates(s[1..]) by {
        forall i, j | 0 <= i < j < |s[1..]| ensures s[1..][i] != s[1..][j] {
          assert s[1..][i] == s[i + 1] && s[1..][j] == s[j + 1];
        }
      }
      if s[0] != x {
        RemoveFirstNoDuplicates(s[1..], x);
        RemoveFirstKeepsOthers(s[1..], x, s[0]);
        assert RemoveFirst(s, x) == [s[0]] + RemoveFirst(s[1..], x);
      }
    }
  }

  /** The facts the handlers need about one removal, gathered. */
  lemma RemoveFirstFacts<T(!new)>(s: seq<T>, x: T)
    ensures forall y | y != x :: y in RemoveFirst(s, x) <==> y in s
    ensures NoDuplicates(s) ==> x !in RemoveFirst(s, x) && NoDuplicates(RemoveFirst(s, x))
  {
    forall y | y != x ensures y in RemoveFirst(s, x) <==> y in s {
      RemoveFirstKeepsOthers(s, x, y);
    }
    if NoDuplicates(s) {
      RemoveFirstNoDuplicates(s, x);
    }
  }

  /** A prefix one longer is the prefix and the next element. */
  lemma TakeSnoc<T>(s: seq<T>, i: nat)
    requires i < |s|
    ensures s[..i + 1] == s[..i] + [s[i]]
  {
  }
}
