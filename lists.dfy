/** List, string and option helpers shared by the components.
    Python's registries are lists mutated with `append` and `del l[l.index(x)]`;
    the functions here are those two idioms as values, with `str.split` and `str.join`. */
module Lists {

  datatype Option<+T> = None | Some(value: T)

  /** No element occurs twice. */
  predicate NoDup<T(==)>(xs: seq<T>) {
    forall i, j :: 0 <= i < j < |xs| ==> xs[i] != xs[j]
  }

  /** `if x in l: del l[l.index(x)]` -- drop the first occurrence of `x`, if any. */
  function RemoveFirst<T(==,!new)>(xs: seq<T>, x: T): (r: seq<T>)
    ensures x !in xs ==> r == xs
    ensures x in xs ==> multiset(r) == multiset(xs) - multiset{x}
    ensures x in xs ==> |r| == |xs| - 1
    ensures forall y :: y in r ==> y in xs
  {
    if xs == [] then []
    else if xs[0] == x then
      assert xs == [xs[0]] + xs[1..];
      xs[1..]
    else
      assert xs == [xs[0]] + xs[1..];
      [xs[0]] + RemoveFirst(xs[1..], x)
  }

  /** Removing the first occurrence at a known position `k` cuts out exactly that element. */
  lemma {:induction false} RemoveFirstAt<T(!new)>(xs: seq<T>, x: T, k: nat)
    requires k < |xs| && xs[k] == x && x !in xs[..k]
    ensures RemoveFirst(xs, x) == xs[..k] + xs[k + 1..]
  {
    if k > 0 {
      var t := xs[1..];
      assert xs[0] in xs[..k];
      assert t[..k - 1] == xs[1..k];
      assert x !in t[..k - 1];
      RemoveFirstAt(t, x, k - 1);
      assert RemoveFirst(xs, x) == [xs[0]] + RemoveFirst(t, x);
      assert xs[..k] == [xs[0]] + t[..k - 1];
      assert xs[k + 1..] == t[k..];
    }
  }

  /** In a list without duplicates, removing `x` removes exactly `x`. */
  lemma {:induction false} RemoveFirstNoDup<T(!new)>(xs: seq<T>, x: T)
    requires NoDup(xs)
    ensures NoDup(RemoveFirst(xs, x))
    ensures forall y :: y in RemoveFirst(xs, x) <==> y in xs && y != x
  {
    if xs != [] && xs[0] != x {
      assert NoDup(xs[1..]) by {
        forall i, j | 0 <= i < j < |xs[1..]| ensures xs[1..][i] != xs[1..][j] {
          assert xs[1..][i] == xs[i + 1] && xs[1..][j] == xs[j + 1];
        }
      }
      RemoveFirstNoDup(xs[1..], x);
      var r := RemoveFirst(xs[1..], x);
      assert xs[0] !in r by {
        forall k | 0 <= k < |xs[1..]| ensures xs[1..][k] != xs[0] {
          assert xs[1..][k] == xs[k + 1];
        }
      }
      forall i, j | 0 <= i < j < |[xs[0]] + r| ensures ([xs[0]] + r)[i] != ([xs[0]] + r)[j] {
        if i > 0 {
          assert ([xs[0]] + r)[i] == r[i - 1] && ([xs[0]] + r)[j] == r[j - 1];
        } else {
          assert ([xs[0]] + r)[j] == r[j - 1];
        }
      }
    } else if xs != [] {
      assert forall k :: 1 <= k < |xs| ==> xs[k] != xs[0];
      assert forall y :: y in xs[1..] ==> exists k :: 1 <= k < |xs| && xs[k] == y;
    }
  }

  /** `if not x in l: l.append(x)`. */
  function AppendIfAbsent<T(==,!new)>(xs: seq<T>, x: T): (r: seq<T>)
    ensures x in r
    ensures forall y :: y in r <==> y in xs || y == x
    ensures NoDup(xs) ==> NoDup(r)
    ensures x in xs ==> r == xs
  {
    if x in xs then xs else xs + [x]
  }

  /** Appending an element that is already present changes nothing, so a second call is idempotent. */
  lemma AppendIfAbsentIdempotent<T(!new)>(xs: seq<T>, x: T)
    ensures AppendIfAbsent(AppendIfAbsent(xs, x), x) == AppendIfAbsent(xs, x)
  {
  }

  /** Appending an absent element and then removing its first occurrence gives the list back:
      a suppress/unsuppress bracket around a path that was not suppressed leaves no trace. */
  lemma {:induction false} AppendThenRemove<T(!new)>(xs: seq<T>, x: T)
    requires x !in xs
    ensures RemoveFirst(AppendIfAbsent(xs, x), x) == xs
  {
    if xs != [] {
      assert (xs + [x])[1..] == xs[1..] + [x];
      AppendThenRemove(xs[1..], x);
    }
  }

  /** Removing the first `x` keeps every other element, duplicates or not. */
  lemma RemoveFirstKeepsOthers<T(!new)>(xs: seq<T>, x: T, y: T)
    requires y in xs && y != x
    ensures y in RemoveFirst(xs, x)
  {
    assert multiset(xs)[y] > 0;
    if x in xs {
      assert multiset(RemoveFirst(xs, x))[y] == multiset(xs)[y];
    }
  }

  /** Python's `s.split(sep)` for a one-character separator: every occurrence splits,
      empty pieces are kept, and the empty string splits into one empty piece. */
  function Split(s: string, sep: char): (parts: seq<string>)
    ensures |parts| >= 1
    ensures forall k :: 0 <= k < |parts| ==> sep !in parts[k]
  {
    if s == [] then [[]]
    else
      var rest := Split(s[1..], sep);
      if s[0] == sep then [[]] + rest
      else [[s[0]] + rest[0]] + rest[1..]
  }

  /** Python's `sep.join(parts)`. */
  function Join(parts: seq<string>, sep: string): string {
    if parts == [] then []
    else if |parts| == 1 then parts[0]
    else parts[0] + sep + Join(parts[1..], sep)
  }

  /** A string without the separator is one piece. */
  lemma {:induction false} SplitNoSep(a: string, sep: char)
    requires sep !in a
    ensures Split(a, sep) == [a]
  {
    if a != [] {
      SplitNoSep(a[1..], sep);
      assert [a[0]] + a[1..] == a;
    }
  }

  /** Splitting at the first separator gives the piece before it, then the split of the rest. */
  lemma {:induction false} SplitCons(a: string, sep: char, t: string)
    requires sep !in a
    ensures Split(a + [sep] + t, sep) == [a] + Split(t, sep)
  {
    var s := a + [sep] + t;
    if a == [] {
      assert s[1..] == t;
    } else {
      assert s[1..] == a[1..] + [sep] + t;
      SplitCons(a[1..], sep, t);
      assert [a[0]] + a[1..] == a;
    }
  }

  /** `sep.join` followed by `split(sep)` gives the pieces back when no piece holds the separator. */
  lemma {:induction false} SplitJoin(parts: seq<string>, sep: char)
    requires |parts| >= 1
    requires forall k :: 0 <= k < |parts| ==> sep !in parts[k]
    ensures Split(Join(parts, [sep]), sep) == parts
  {
    if |parts| == 1 {
      SplitNoSep(parts[0], sep);
    } else {
      SplitJoin(parts[1..], sep);
      SplitCons(parts[0], sep, Join(parts[1..], [sep]));
      assert [parts[0]] + parts[1..] == parts;
    }
  }

  /** Joining pieces that avoid a character, with a separator that avoids it, avoids it too. */
  lemma {:induction false} JoinAvoids(parts: seq<string>, sep: string, c: char)
    requires c !in sep
    requires forall k :: 0 <= k < |parts| ==> c !in parts[k]
    ensures c !in Join(parts, sep)
  {
    if |parts| > 1 {
      forall k | 0 <= k < |parts[1..]| ensures c !in parts[1..][k] {
        assert parts[1..][k] == parts[k + 1];
      }
      JoinAvoids(parts[1..], sep, c);
    }
  }

  /** A non-empty set of identifiers has a member to choose. */
  lemma NonEmptyHasMember(s: set<int>)
    requires s != {}
    ensures exists x :: x in s
  {
    if forall x :: x !in s {
      assert false;
    }
  }

  /** Two duplicate-free lists with no common element concatenate to a duplicate-free list. */
  lemma NoDupConcat<T(!new)>(xs: seq<T>, ys: seq<T>)
    requires NoDup(xs) && NoDup(ys)
    requires forall y :: y in ys ==> y !in xs
    ensures NoDup(xs + ys)
  {
    forall i, j | 0 <= i < j < |xs + ys| ensures (xs + ys)[i] != (xs + ys)[j] {
      if i >= |xs| {
        assert (xs + ys)[i] == ys[i - |xs|] && (xs + ys)[j] == ys[j - |xs|];
      } else if j >= |xs| {
        var b := (xs + ys)[j];
        assert b == ys[j - |xs|];
        assert b in ys;
        assert (xs + ys)[i] == xs[i];
      }
    }
  }

  /** `split(sep)` followed by `sep.join` gives the string back. */
  lemma {:induction false} JoinSplit(s: string, sep: char)
    ensures Join(Split(s, sep), [sep]) == s
  {
    if s != [] {
      JoinSplit(s[1..], sep);
      var rest := Split(s[1..], sep);
      if s[0] == sep {
        assert Join([[]] + rest, [sep]) == [] + [sep] + Join(rest, [sep]);
      } else {
        var parts := [[s[0]] + rest[0]] + rest[1..];
        if |rest| == 1 {
          assert Join(parts, [sep]) == [s[0]] + rest[0];
        } else {
          assert parts[1..] == rest[1..];
          assert Join(parts, [sep]) == [s[0]] + rest[0] + [sep] + Join(rest[1..], [sep]);
          assert Join(rest, [sep]) == rest[0] + [sep] + Join(rest[1..], [sep]);
        }
      }
      assert s == [s[0]] + s[1..];
    }
  }
}
