/** Strings as the program handles them: the byte order its sorted collections keep, and the
    splitting and stripping its parsers are written with. */
module Text {
  import opened Wrappers

  /** Strict lexicographic order: the order of a `BTreeSet<String>` and of a JSON object's keys. */
  predicate Before(a: string, b: string) {
    b != [] && (a == [] || a[0] < b[0] || (a[0] == b[0] && Before(a[1..], b[1..])))
  }

  lemma {:induction false} BeforeIsStrict(a: string, b: string)
    ensures !(Before(a, b) && Before(b, a))
    ensures Before(a, b) || Before(b, a) || a == b
  {
    if a != [] && b != [] && a[0] == b[0] {
      BeforeIsStrict(a[1..], b[1..]);
      assert a == [a[0]] + a[1..] && b == [b[0]] + b[1..];
    }
  }

  lemma {:induction false} BeforeIsTransitive(a: string, b: string, c: string)
    requires Before(a, b) && Before(b, c)
    ensures Before(a, c)
  {
    if a != [] && a[0] == b[0] && b[0] == c[0] {
      BeforeIsTransitive(a[1..], b[1..], c[1..]);
    }
  }

  predicate IsLeast(x: string, s: set<string>) {
    x in s && forall other :: other in s ==> other == x || Before(x, other)
  }

  lemma {:induction false} LeastExists(s: set<string>)
    requires s != {}
    ensures exists x :: IsLeast(x, s)
  {
    var x :| x in s;
    if s == {x} {
      assert IsLeast(x, s);
    } else {
      LeastExists(s - {x});
      var y :| IsLeast(y, s - {x});
      BeforeIsStrict(x, y);
      if Before(x, y) {
        forall other | other in s && other != x
          ensures Before(x, other)
        {
          if other != y { BeforeIsTransitive(x, y, other); }
        }
        assert IsLeast(x, s);
      } else {
        assert IsLeast(y, s);
      }
    }
  }

  function Least(s: set<string>): (x: string)
    requires s != {}
    ensures IsLeast(x, s)
  {
    LeastExists(s);
    assert forall x, y | IsLeast(x, s) && IsLeast(y, s) :: x == y by {
      forall x, y | IsLeast(x, s) && IsLeast(y, s)
        ensures x == y
      {
        BeforeIsStrict(x, y);
      }
    }
    var x :| IsLeast(x, s);
    x
  }

  /** The order a sorted set or the keys of a JSON object are iterated in. */
  function Ascending(s: set<string>): (r: seq<string>)
    ensures forall x :: x in r <==> x in s
    ensures forall i, j :: 0 <= i < j < |r| ==> Before(r[i], r[j])
    ensures forall i, j :: 0 <= i < j < |r| ==> r[i] != r[j]
  {
    if s == {} then [] else
      var x := Least(s);
      var rest := Ascending(s - {x});
      assert forall i :: 0 <= i < |rest| ==> rest[i] in rest;
      assert forall y :: y in [x] + rest <==> y == x || y in rest;
      [x] + rest
  }

  /** `str::split_once`: around the first occurrence of `c`. */
  function SplitOnce(s: string, c: char): (r: Option<(string, string)>)
    ensures r.None? <==> c !in s
    ensures r.Some? ==> c !in r.value.0 && s == r.value.0 + [c] + r.value.1
  {
    if s == [] then None
    else if s[0] == c then
      assert s == [] + [c] + s[1..];
      Some(([], s[1..]))
    else match SplitOnce(s[1..], c)
      case None => assert s == [s[0]] + s[1..]; None
      case Some(parts) =>
        assert s == [s[0]] + s[1..];
        assert s == [s[0]] + parts.0 + [c] + parts.1;
        Some(([s[0]] + parts.0, parts.1))
  }

  /** Only one split is around a first occurrence, so a reader may name it. */
  lemma SplitOnceIs(s: string, c: char, head: string, tail: string)
    requires c !in head && s == head + [c] + tail
    ensures SplitOnce(s, c) == Some((head, tail))
  {
    assert s[|head|] == c;
    var parts := SplitOnce(s, c).value;
    assert s[|parts.0|] == c;
    assert forall k :: 0 <= k < |head| ==> s[k] == head[k] && head[k] != c;
    assert forall k :: 0 <= k < |parts.0| ==> s[k] == parts.0[k] && parts.0[k] != c;
    assert |head| == |parts.0|;
    assert head == s[..|head|] == parts.0;
    assert tail == s[|head| + 1..] == parts.1;
  }

  /** `str::split`. */
  function Split(s: string, c: char): (parts: seq<string>)
    ensures parts != []
    ensures c !in s ==> parts == [s]
    decreases |s|
  {
    match SplitOnce(s, c)
    case None => [s]
    case Some(halves) => [halves.0] + Split(halves.1, c)
  }

  /** `str::strip_prefix`. */
  function StripPrefix(s: string, prefix: string): (r: Option<string>)
    ensures r.Some? ==> s == prefix + r.value
    ensures r.None? ==> forall rest :: s != prefix + rest
  {
    if prefix <= s then
      assert s == prefix + s[|prefix|..];
      Some(s[|prefix|..])
    else
      assert forall rest :: prefix <= prefix + rest;
      None
  }

  lemma StripPrefixIs(prefix: string, rest: string)
    ensures StripPrefix(prefix + rest, prefix) == Some(rest)
  {
    assert (prefix + rest)[|prefix|..] == rest;
  }

  /** `str::strip_suffix` of one character. */
  function StripLast(s: string, c: char): (r: Option<string>)
    ensures r.Some? ==> s == r.value + [c]
  {
    if s != [] && s[|s| - 1] == c then Some(s[..|s| - 1]) else None
  }

  /** What follows the last `c`, or all of `s`: `rsplit(c).next()`. */
  function AfterLast(s: string, c: char): (r: string)
    ensures c !in r
    ensures c !in s ==> r == s
    ensures c in s ==> exists head :: s == head + [c] + r
  {
    if s == [] then []
    else if s[|s| - 1] == c then
      assert s == s[..|s| - 1] + [c] + [];
      []
    else
      var before := AfterLast(s[..|s| - 1], c);
      assert s == s[..|s| - 1] + [s[|s| - 1]];
      assert c in s ==> exists head :: s == head + [c] + (before + [s[|s| - 1]]) by {
        if c in s {
          var head :| s[..|s| - 1] == head + [c] + before;
          assert s == head + [c] + (before + [s[|s| - 1]]);
        }
      }
      before + [s[|s| - 1]]
  }

  lemma NoneAfterTheLast(head: string, c: char, tail: string, k: nat)
    requires c !in tail && k < |head + [c] + tail| && (head + [c] + tail)[k] == c
    ensures k <= |head|
  {
  }

  lemma AfterLastIs(head: string, c: char, tail: string)
    requires c !in tail
    ensures AfterLast(head + [c] + tail, c) == tail
  {
    hide AfterLast;
    var s := head + [c] + tail;
    assert s[|head|] == c;
    var rest := AfterLast(s, c);
    var before :| s == before + [c] + rest;
    NoneAfterTheLast(before, c, rest, |head|);
    NoneAfterTheLast(head, c, tail, |before|);
    assert tail == s[|head| + 1..] && rest == s[|before| + 1..];
  }

  predicate IsDigit(c: char) { '0' <= c <= '9' }

  predicate AllDigits(s: string) { forall i :: 0 <= i < |s| ==> IsDigit(s[i]) }

  function Digit(n: nat): (c: char)
    requires n < 10
    ensures IsDigit(c) && c as int - '0' as int == n
  {
    ('0' as int + n) as char
  }

  function Pow10(width: nat): (p: nat)
    ensures p >= 1
  {
    if width == 0 then 1 else 10 * Pow10(width - 1)
  }

  /** `n` in `width` decimal digits, zero padded. */
  function Padded(n: nat, width: nat): (s: string)
    ensures |s| == width && AllDigits(s)
  {
    if width == 0 then [] else Padded(n / 10, width - 1) + [Digit(n % 10)]
  }

  /** The number a run of digits spells. */
  function Spelled(s: string): (n: nat)
    requires AllDigits(s)
    ensures n < Pow10(|s|)
  {
    if s == [] then 0
    else 10 * Spelled(s[..|s| - 1]) + (s[|s| - 1] as int - '0' as int)
  }

  lemma {:induction false} PaddedSpells(n: nat, width: nat)
    requires n < Pow10(width)
    ensures Spelled(Padded(n, width)) == n
  {
    if width > 0 {
      PaddedSpells(n / 10, width - 1);
      var s := Padded(n, width);
      assert s[..|s| - 1] == Padded(n / 10, width - 1);
    }
  }

  lemma {:induction false} SpelledPads(s: string)
    requires AllDigits(s)
    ensures Padded(Spelled(s), |s|) == s
  {
    if s != [] {
      var rest := s[..|s| - 1];
      SpelledPads(rest);
      assert Spelled(s) / 10 == Spelled(rest);
      assert s == rest + [s[|s| - 1]];
    }
  }

  // ---- Replacing ----

  /** `str::replace`: every occurrence of `from`, read from the left, replaced by `to`. */
  function Replaced(s: string, from: string, to: string): string
    requires from != ""
    decreases |s|
  {
    if s == "" then ""
    else if from <= s then to + Replaced(s[|from|..], from, to)
    else [s[0]] + Replaced(s[1..], from, to)
  }

  const ID_SLOT := "{id}"

  /** `{id}` does not occur in `s`. */
  predicate NoIdIn(s: string) {
    forall i :: 0 <= i < |s| ==> !("{id}" <= s[i..])
  }

  /** A command with its machine's id in place of `{id}`, wherever it stands. */
  function Substituted(argv: seq<string>, id: string): (r: seq<string>)
    ensures |r| == |argv| && forall i :: 0 <= i < |r| ==> r[i] == Replaced(argv[i], "{id}", id)
  {
    seq(|argv|, i requires 0 <= i < |argv| => Replaced(argv[i], ID_SLOT, id))
  }

  /** A word is read up to its first `{id}`, which becomes the id, and on from there; one without it stays. */
  lemma {:induction false} IdIsPutIn(head: string, rest: string, id: string)
    requires NoIdIn(head)
    ensures Replaced(head, "{id}", id) == head
    ensures Replaced(head + "{id}" + rest, "{id}", id) == head + id + Replaced(rest, "{id}", id)
    decreases |head|
  {
    var word := head + "{id}" + rest;
    if head == "" {
      assert word[|"{id}"|..] == rest;
    } else {
      forall i | 0 <= i < |head| - 1
        ensures !("{id}" <= head[1..][i..])
      {
        assert head[1..][i..] == head[i + 1..];
      }
      IdIsPutIn(head[1..], rest, id);
      assert head[0..] == head;
      assert word[1..] == head[1..] + "{id}" + rest;
      if "{id}" <= word {
        NoEarlierId(head, rest);
      }
      assert [head[0]] + (head[1..] + id + Replaced(rest, "{id}", id)) == head + id + Replaced(rest, "{id}", id);
    }
  }

  /** An occurrence at the front is in `head`, the slot overlapping itself nowhere. */
  lemma NoEarlierId(head: string, rest: string)
    requires head != "" && "{id}" <= head + "{id}" + rest
    ensures "{id}" <= head
  {
    var word := head + "{id}" + rest;
    assert word[|head|] == '{';
    assert word[1] == 'i' && word[2] == 'd' && word[3] == '}';
    assert head[..4] == word[..4];
  }
}
