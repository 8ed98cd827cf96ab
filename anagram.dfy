/** `is_anagram` as written: count the characters of `a` in a dictionary,
    count them down over `b`, and fail as soon as a character of `b` is
    missing or over-used. It never checks that the counts end at zero. */
module Anagrams {

  /** The sorted-letters view of an anagram: the same characters with the
      same multiplicities. */
  ghost predicate AreAnagrams(a: string, b: string)
  {
    multiset(a) == multiset(b)
  }

  /** `counts` holds, for each character of `m`, its number of occurrences,
      and no other key. */
  ghost predicate CountsOf(counts: map<char, int>, m: multiset<char>)
  {
    (forall ch :: ch in counts <==> ch in m) &&
    (forall ch :: ch in counts ==> counts[ch] == m[ch])
  }

  /** `counts` holds, for each character of `a`, its occurrences in `a` less
      those already consumed by `used`. */
  ghost predicate Remaining(counts: map<char, int>, a: multiset<char>, used: multiset<char>)
  {
    (forall ch :: ch in counts <==> ch in a) &&
    (forall ch :: ch in counts ==> counts[ch] + used[ch] == a[ch])
  }

  lemma CountUp(counts: map<char, int>, m: multiset<char>, ch: char)
    requires CountsOf(counts, m)
    ensures CountsOf(counts[ch := (if ch in counts then counts[ch] else 0) + 1], m + multiset{ch})
  {
  }

  lemma CountDown(counts: map<char, int>, a: multiset<char>, used: multiset<char>, ch: char)
    requires Remaining(counts, a, used) && used <= a && ch in counts
    ensures Remaining(counts[ch := counts[ch] - 1], a, used + multiset{ch})
    ensures counts[ch] - 1 >= 0 ==> used + multiset{ch} <= a
    ensures counts[ch] - 1 < 0 ==> (used + multiset{ch})[ch] > a[ch]
  {
  }

  /** `is_anagram` as written. It returns True exactly when every character
      occurs in `b` at most as often as in `a`. */
  method IsAnagram(a: string, b: string) returns (r: bool)
    ensures r <==> multiset(b) <= multiset(a)
  {
    var counts: map<char, int> := map[];
    for i := 0 to |a|
      invariant CountsOf(counts, multiset(a[..i]))
    {
      var ch := a[i];
      assert a[..i + 1] == a[..i] + [ch];
      CountUp(counts, multiset(a[..i]), ch);
      counts := counts[ch := (if ch in counts then counts[ch] else 0) + 1];
    }
    assert a[..|a|] == a;
    // here counts[ch] is the number of occurrences of ch in a
    for j := 0 to |b|
      invariant Remaining(counts, multiset(a), multiset(b[..j]))
      invariant multiset(b[..j]) <= multiset(a)
    {
      var ch := b[j];
      assert b[..j + 1] == b[..j] + [ch];
      MultisetPrefix(b, j + 1);
      if ch !in counts {
        assert multiset(b[..j + 1])[ch] > multiset(a)[ch];
        return false;
      }
      CountDown(counts, multiset(a), multiset(b[..j]), ch);
      counts := counts[ch := counts[ch] - 1];
      if counts[ch] < 0 {
        return false;
      }
    }
    assert b[..|b|] == b;
    return true;
  }

  /** A prefix of `b` has no more of any character than `b` itself. */
  lemma MultisetPrefix(b: string, k: nat)
    requires k <= |b|
    ensures multiset(b[..k]) <= multiset(b)
  {
    assert b == b[..k] + b[k..];
  }

  /** Genuine anagrams are accepted. */
  lemma AnagramsAccepted(a: string, b: string)
    requires AreAnagrams(a, b)
    ensures multiset(b) <= multiset(a)
  {
  }

  /** When the lengths agree, the test is exactly the anagram test. */
  lemma {:induction false} EqualLengthIsExact(a: string, b: string)
    requires |a| == |b|
    ensures multiset(b) <= multiset(a) <==> AreAnagrams(a, b)
  {
    if multiset(b) <= multiset(a) {
      var extra := multiset(a) - multiset(b);
      assert multiset(a) == multiset(b) + extra;
      assert |multiset(a)| == |multiset(b)| + |extra|;
      assert extra == multiset{};
    }
  }

  /** The departure from the docstring: "ab" and "a" are not anagrams, yet
      "a" passes the test against "ab". */
  lemma SubMultisetAccepted()
    ensures multiset("a") <= multiset("ab")
    ensures !AreAnagrams("ab", "a")
  {
  }

  /** Characters are compared exactly: "A" and "a" do not match. */
  lemma CaseSensitive()
    ensures !(multiset("a") <= multiset("A"))
  {
  }

  /** The evidently intended test: the counting of `IsAnagram` plus the
      missing check that nothing of `a` is left over, which, once every count
      is non-negative, amounts to equal lengths. */
  method IsAnagramFixed(a: string, b: string) returns (r: bool)
    ensures r <==> AreAnagrams(a, b)
  {
    var contained := IsAnagram(a, b);
    if |a| == |b| {
      EqualLengthIsExact(a, b);
    } else {
      assert |multiset(a)| != |multiset(b)|;
    }
    r := contained && |a| == |b|;
  }
}
