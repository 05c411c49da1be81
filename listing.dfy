/**
 * The "recent" read-outs of app.py: `ORDER BY timestamp DESC LIMIT n` over a
 * table, as a stable insertion sort followed by a prefix.
 */
module Listing {

  /** How many rows `/recent_transactions`, `/system_logs` (GET) and `/anomalies` return. */
  const RecentLimit: nat := 10

  /** `s` is ordered newest first by `key`. */
  predicate DescendingBy<T>(s: seq<T>, key: T -> int) {
    forall i, j | 0 <= i < j < |s| :: key(s[i]) >= key(s[j])
  }

  /** Inserts `x` into a newest-first sequence, keeping it newest first. */
  function InsertDesc<T(==)>(x: T, s: seq<T>, key: T -> int): (r: seq<T>)
    requires DescendingBy(s, key)
    ensures |r| == |s| + 1
    ensures r[0] == x || (s != [] && r[0] == s[0])
    ensures DescendingBy(r, key)
    ensures multiset(r) == multiset(s) + multiset{x}
  {
    if s == [] || key(x) >= key(s[0]) then
      [x] + s
    else
      var rest := InsertDesc(x, s[1..], key);
      assert s == [s[0]] + s[1..];
      assert key(s[0]) >= key(rest[0]);
      [s[0]] + rest
  }

  /** `s` sorted newest first. */
  function SortDesc<T(==)>(s: seq<T>, key: T -> int): (r: seq<T>)
    ensures |r| == |s|
    ensures DescendingBy(r, key)
    ensures multiset(r) == multiset(s)
  {
    if s == [] then []
    else
      assert s == [s[0]] + s[1..];
      InsertDesc(s[0], SortDesc(s[1..], key), key)
  }

  /** The first `k` rows of a newest-first sequence are at least as new as every row after them. */
  lemma PrefixIsNewest<T>(s: seq<T>, key: T -> int, k: nat)
    requires DescendingBy(s, key) && k <= |s|
    ensures multiset(s[..k]) <= multiset(s)
    ensures forall x | x in multiset(s) - multiset(s[..k]) :: forall y | y in s[..k] :: key(x) <= key(y)
  {
    assert s == s[..k] + s[k..];
    assert multiset(s) == multiset(s[..k]) + multiset(s[k..]);
    forall x | x in multiset(s) - multiset(s[..k])
      ensures forall y | y in s[..k] :: key(x) <= key(y)
    {
      assert x in multiset(s[k..]);
      assert x in s[k..];
      var j :| 0 <= j < |s[k..]| && s[k..][j] == x;
      forall y | y in s[..k] ensures key(x) <= key(y) {
        var i :| 0 <= i < k && s[..k][i] == y;
        assert s[i] == y && s[k + j] == x;
      }
    }
  }

  /**
   * The at most `limit` newest rows of `s`, newest first: as many rows as the
   * table has, up to `limit`; taken from the table; and no row left out is newer
   * than a row listed.
   */
  function Recent<T(==)>(s: seq<T>, key: T -> int, limit: nat): (r: seq<T>)
    ensures |r| == if |s| < limit then |s| else limit
    ensures DescendingBy(r, key)
    ensures multiset(r) <= multiset(s)
    ensures forall x | x in multiset(s) - multiset(r) :: forall y | y in r :: key(x) <= key(y)
  {
    var sorted := SortDesc(s, key);
    var k := if |s| < limit then |s| else limit;
    PrefixIsNewest(sorted, key, k);
    sorted[..k]
  }

  /** Listing an empty table gives nothing. */
  lemma RecentOfEmpty<T>(key: T -> int, limit: nat)
    ensures Recent([], key, limit) == []
  {
  }
}
