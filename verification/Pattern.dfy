/** Leftmost search for a fixed pattern, and the "flush and restart at zero" matcher
    that the guest's stream demultiplexer uses instead of a failure function. */
module Pattern {

  /** p occurs in s starting at position k. */
  predicate OccursAt<T(==)>(p: seq<T>, s: seq<T>, k: nat) {
    k + |p| <= |s| && s[k..k + |p|] == p
  }

  /** Where p first occurs in s; |s| when it does not occur. */
  ghost function Leftmost<T>(p: seq<T>, s: seq<T>): (k: nat)
    requires p != []
    ensures k <= |s|
    ensures k < |s| ==> OccursAt(p, s, k)
    ensures forall j: nat :: j < k ==> !OccursAt(p, s, j)
  {
    if k: nat :| OccursAt(p, s, k) then
      FirstOccurrence(p, s, k);
      var first: nat :| OccursAt(p, s, first) && forall j: nat :: j < first ==> !OccursAt(p, s, j);
      first
    else |s|
  }

  lemma FirstOccurrence<T>(p: seq<T>, s: seq<T>, k: nat)
    requires OccursAt(p, s, k)
    ensures exists l: nat :: OccursAt(p, s, l) && forall j: nat :: j < l ==> !OccursAt(p, s, j)
  {
    if j: nat :| j < k && OccursAt(p, s, j) {
      FirstOccurrence(p, s, j);
    }
  }

  /** The two clauses of Leftmost's contract determine its result. */
  lemma LeftmostIs<T>(p: seq<T>, s: seq<T>, k: nat)
    requires p != [] && k <= |s|
    requires k < |s| ==> OccursAt(p, s, k)
    requires forall j: nat :: j < k ==> !OccursAt(p, s, j)
    ensures Leftmost(p, s) == k
  {
    var l := Leftmost(p, s);
    assert l < |s| ==> OccursAt(p, s, l);
  }

  /** A single-counter matcher: m bytes of p are matched and not yet released, s is still
      to come. On a mismatch all m are released and matching starts again at 0 with the same
      element. The result is a position in p[..m] + s (its length when there is no match). */
  function RestartSearch<T(==)>(p: seq<T>, m: nat, s: seq<T>): nat
    requires m < |p|
    decreases |s|, m
  {
    if s == [] then m
    else if s[0] == p[m] then
      if m + 1 == |p| then 0 else RestartSearch(p, m + 1, s[1..])
    else if m > 0 then m + RestartSearch(p, 0, s)
    else 1 + RestartSearch(p, 0, s[1..])
  }

  /** Wherever a partial match p[..j] ends in a shorter prefix p[..b], both prefixes wait
      for the same next element. */
  ghost predicate BorderSafe<T>(p: seq<T>) {
    forall j: nat, b: nat {:trigger p[..b], p[j]} ::
      0 < b < j < |p| && p[..b] == p[j - b..j] ==> p[b] == p[j]
  }

  /** Releasing a failed partial match never releases the beginning of an occurrence. */
  lemma FlushIsSafe<T>(p: seq<T>, m: nat, t: seq<T>)
    requires BorderSafe(p) && m < |p| && t != [] && t[0] != p[m]
    ensures forall k: nat :: k < m ==> !OccursAt(p, p[..m] + t, k)
    ensures m == 0 ==> !OccursAt(p, t, 0)
  {
    var s := p[..m] + t;
    forall k: nat | k < m
      ensures !OccursAt(p, s, k)
    {
      if k + |p| <= |s| {
        var window, b := s[k..k + |p|], m - k;
        assert window[b] == t[0];
        assert window[..b] == p[m - b..m];
      }
    }
    if |p| <= |t| {
      assert t[..|p|][0] == t[0];
    }
  }

  /** Skipping elements at which nothing starts moves the leftmost occurrence by their number. */
  lemma LeftmostAfterSkip<T>(p: seq<T>, d: seq<T>, t: seq<T>)
    requires p != []
    requires forall k: nat :: k < |d| ==> !OccursAt(p, d + t, k)
    ensures Leftmost(p, d + t) == |d| + Leftmost(p, t)
  {
    var s, l := d + t, Leftmost(p, t);
    assert s[|d|..] == t;
    forall j: nat | j < |d| + l
      ensures !OccursAt(p, s, j)
    {
      if j >= |d| && OccursAt(p, s, j) {
        assert t[j - |d|..j - |d| + |p|] == s[j..j + |p|];
        assert OccursAt(p, t, j - |d|);
      }
    }
    if l < |t| {
      assert s[|d| + l..|d| + l + |p|] == t[l..l + |p|];
    }
    LeftmostIs(p, s, |d| + l);
  }

  lemma {:induction false} RestartFindsLeftmost<T>(p: seq<T>, m: nat, s: seq<T>)
    requires BorderSafe(p) && m < |p|
    ensures RestartSearch(p, m, s) == Leftmost(p, p[..m] + s)
    decreases |s|, m
  {
    if s == [] {
      LeftmostIs(p, p[..m] + s, m);
    } else if s[0] == p[m] {
      assert p[..m] + s == p[..m + 1] + s[1..];
      if m + 1 == |p| {
        assert (p + s[1..])[..|p|] == p;
        LeftmostIs(p, p[..m] + s, 0);
      } else {
        RestartFindsLeftmost(p, m + 1, s[1..]);
      }
    } else if m > 0 {
      FlushIsSafe(p, m, s);
      LeftmostAfterSkip(p, p[..m], s);
      RestartFindsLeftmost(p, 0, s);
      assert p[..0] + s == s;
    } else {
      FlushIsSafe(p, 0, s);
      assert [s[0]] + s[1..] == s == p[..0] + s;
      LeftmostAfterSkip(p, [s[0]], s[1..]);
      RestartFindsLeftmost(p, 0, s[1..]);
      assert p[..0] + s[1..] == s[1..];
    }
  }

  /** A stream shorter than what is missing cannot complete the match. */
  lemma {:induction false} RestartNeedsEnough<T>(p: seq<T>, m: nat, s: seq<T>)
    requires m < |p| && m + |s| < |p|
    ensures RestartSearch(p, m, s) == m + |s|
    decreases |s|, m
  {
    if s == [] {
    } else if s[0] == p[m] {
      RestartNeedsEnough(p, m + 1, s[1..]);
    } else if m > 0 {
      RestartNeedsEnough(p, 0, s);
    } else {
      RestartNeedsEnough(p, 0, s[1..]);
    }
  }

  /** Matching a prefix of p leaves the counter at its length. */
  lemma {:induction false} RestartAfterPrefix<T>(p: seq<T>, m: nat, j: nat, t: seq<T>)
    requires m <= j < |p|
    ensures RestartSearch(p, m, p[m..j] + t) == RestartSearch(p, j, t)
    decreases j - m
  {
    if m < j {
      assert (p[m..j] + t)[1..] == p[m + 1..j] + t;
      RestartAfterPrefix(p, m + 1, j, t);
    } else {
      assert p[m..j] + t == t;
    }
  }

  /** If a border waits for a different element, the input "p[..j] then the rest of p after the
      border" contains p, and the restarting matcher misses it. */
  lemma RestartMissesBorder<T>(p: seq<T>, j: nat, b: nat)
    requires 0 < b < j < |p| && p[..b] == p[j - b..j] && p[b] != p[j]
    ensures var s := p[..j] + p[b..]; RestartSearch(p, 0, s) != Leftmost(p, s)
  {
    var t := p[b..];
    var s := p[..j] + t;
    assert p[0..j] == p[..j];
    RestartAfterPrefix(p, 0, j, t);
    RestartNeedsEnough(p, 0, t);
    assert RestartSearch(p, 0, s) == |s|;
    assert s[j - b..j - b + |p|] == p[..b] + t == p;
    assert OccursAt(p, s, j - b);
  }

  /** Restarting at 0 is a correct leftmost search exactly for border-safe patterns. */
  lemma RestartCorrectIffBorderSafe<T(!new)>(p: seq<T>)
    requires p != []
    ensures (forall s: seq<T> :: RestartSearch(p, 0, s) == Leftmost(p, s)) <==> BorderSafe(p)
  {
    if BorderSafe(p) {
      forall s: seq<T>
        ensures RestartSearch(p, 0, s) == Leftmost(p, s)
      {
        RestartFindsLeftmost(p, 0, s);
        assert p[..0] + s == s;
      }
    } else {
      var j: nat, b: nat :| 0 < b < j < |p| && p[..b] == p[j - b..j] && p[b] != p[j];
      RestartMissesBorder(p, j, b);
    }
  }
}
