/**
 * Sequence helpers shared by the alert script and the dashboard: an
 * order-preserving filter (a pandas boolean mask over a table), the
 * concatenation of rendered lines, and `str.join`.
 */
module Seqs {

  /** The elements of `s` that satisfy `p`, in their original order. */
  function Filter<T(!new)>(s: seq<T>, p: T -> bool): (r: seq<T>)
    ensures |r| <= |s|
    ensures forall x :: x in r <==> x in s && p(x)
    ensures forall j :: 0 <= j < |r| ==> p(r[j])
  {
    if s == [] then [] else (if p(s[0]) then [s[0]] else []) + Filter(s[1..], p)
  }

  /** Filtering a table split in two filters each half: order is the table's. */
  lemma {:induction false} FilterConcat<T(!new)>(a: seq<T>, b: seq<T>, p: T -> bool)
    ensures Filter(a + b, p) == Filter(a, p) + Filter(b, p)
  {
    if a == [] {
      assert a + b == b;
    } else {
      assert (a + b)[0] == a[0];
      assert (a + b)[1..] == a[1..] + b;
      FilterConcat(a[1..], b, p);
    }
  }

  /** Two masks applied one after the other equal one mask with their conjunction. */
  lemma {:induction false} FilterFilter<T(!new)>(s: seq<T>, p: T -> bool, q: T -> bool, pq: T -> bool)
    requires forall x :: pq(x) == (p(x) && q(x))
    ensures Filter(Filter(s, p), q) == Filter(s, pq)
  {
    if s != [] {
      var head := if p(s[0]) then [s[0]] else [];
      FilterConcat(head, Filter(s[1..], p), q);
      FilterFilter(s[1..], p, q, pq);
    }
  }

  /** Masks that no element satisfies together select at most |s| rows between them. */
  lemma {:induction false} FilterDisjointLength<T(!new)>(s: seq<T>, p: T -> bool, q: T -> bool)
    requires forall x :: !(p(x) && q(x))
    ensures |Filter(s, p)| + |Filter(s, q)| <= |s|
  {
    if s != [] {
      FilterDisjointLength(s[1..], p, q);
    }
  }

  /** A weaker mask selects at least as many rows. */
  lemma {:induction false} FilterWeakerLength<T(!new)>(s: seq<T>, p: T -> bool, q: T -> bool)
    requires forall x :: q(x) ==> p(x)
    ensures |Filter(s, q)| <= |Filter(s, p)|
  {
    if s != [] {
      FilterWeakerLength(s[1..], p, q);
    }
  }

  /** The concatenation of all parts, in order. */
  function Concat(parts: seq<string>): string
  {
    if parts == [] then "" else Concat(parts[..|parts| - 1]) + parts[|parts| - 1]
  }

  lemma ConcatSnoc(parts: seq<string>, x: string)
    ensures Concat(parts + [x]) == Concat(parts) + x
  {
    assert (parts + [x])[..|parts|] == parts;
  }

  /** A heading followed by lines and one more line. */
  lemma ConcatAfterHeading(heading: string, parts: seq<string>, x: string)
    ensures heading + Concat(parts + [x]) == (heading + Concat(parts)) + x
  {
    ConcatSnoc(parts, x);
    AppendAssoc(heading, Concat(parts), x);
  }

  lemma NoEmptyRight(a: string)
    ensures a + "" == a
  {
  }

  lemma AppendAssoc(a: string, b: string, c: string)
    ensures (a + b) + c == a + (b + c)
  {
  }

  /** Python's `sep.join(parts)`. */
  function Join(sep: string, parts: seq<string>): string
  {
    if |parts| == 0 then ""
    else if |parts| == 1 then parts[0]
    else parts[0] + sep + Join(sep, parts[1..])
  }

  lemma JoinOne(sep: string, a: string)
    ensures Join(sep, [a]) == a
  {
  }

  lemma JoinTwo(sep: string, a: string, b: string)
    ensures Join(sep, [a, b]) == a + (sep + b)
  {
    assert [a, b][1..] == [b];
  }

  lemma JoinThree(sep: string, a: string, b: string, c: string)
    ensures Join(sep, [a, b, c]) == a + (sep + (b + (sep + c)))
  {
    assert [a, b, c][1..] == [b, c];
    JoinTwo(sep, b, c);
  }

  /** A joined list of at most three parts, the middle one `h`, under a header. */
  lemma JoinAround(header: string, sep: string, pre: seq<string>, h: string, post: seq<string>)
    requires |pre| <= 1 && |post| <= 1
    ensures header + Join(sep, pre + [h] + post)
            == header
               + (if pre != [] then pre[0] + sep else "")
               + h
               + (if post != [] then sep + post[0] else "")
  {
    var parts := pre + [h] + post;
    if pre != [] && post != [] {
      assert parts == [pre[0], h, post[0]];
      JoinBetween(header, sep, pre[0], h, post[0]);
    } else if pre != [] {
      assert parts == [pre[0], h];
      JoinAfterOne(header, sep, pre[0], h);
      NoEmptyRight(header + (pre[0] + sep) + h);
    } else if post != [] {
      assert parts == [h, post[0]];
      JoinBeforeOne(header, sep, h, post[0]);
      NoEmptyRight(header);
    } else {
      assert parts == [h];
      JoinAlone(header, sep, h);
      NoEmptyRight(header);
      NoEmptyRight(header + h);
    }
  }

  lemma JoinBetween(header: string, sep: string, a: string, h: string, c: string)
    ensures header + Join(sep, [a, h, c]) == header + (a + sep) + h + (sep + c)
  {
    JoinThree(sep, a, h, c);
    AppendAssoc(a, sep, h);
    AppendAssoc(a + sep, h, sep + c);
    AppendAssoc(header, a + sep, h);
    AppendAssoc(header, a + sep + h, sep + c);
    AppendAssoc(header, a + sep, h + (sep + c));
  }

  lemma JoinAfterOne(header: string, sep: string, a: string, h: string)
    ensures header + Join(sep, [a, h]) == header + (a + sep) + h
  {
    JoinTwo(sep, a, h);
    AppendAssoc(a, sep, h);
    AppendAssoc(header, a + sep, h);
  }

  lemma JoinBeforeOne(header: string, sep: string, h: string, c: string)
    ensures header + Join(sep, [h, c]) == header + h + (sep + c)
  {
    JoinTwo(sep, h, c);
    AppendAssoc(header, h, sep + c);
  }

  lemma JoinAlone(header: string, sep: string, h: string)
    ensures header + Join(sep, [h]) == header + h
  {
    JoinOne(sep, h);
  }

  /** `s` is a suffix of `m`. */
  predicate EndsWith<T(==)>(m: seq<T>, s: seq<T>)
  {
    |s| <= |m| && m[|m| - |s|..] == s
  }

  /** Under a header, a joined string still ends with its last part. */
  lemma JoinLastUnderHeader(header: string, sep: string, pre: seq<string>, last: string, m: string)
    requires m == header + Join(sep, pre + [last])
    ensures EndsWith(m, last)
  {
    var parts := pre + [last];
    var j := Join(sep, parts);
    JoinEndsWithLast(sep, parts);
    assert parts[|parts| - 1] == last;
    assert m[|m| - |last|..] == j[|j| - |last|..];
  }

  /** The first part opens the joined string. */
  lemma JoinStartsWithFirst(sep: string, parts: seq<string>)
    requires |parts| > 0
    ensures parts[0] <= Join(sep, parts)
  {
  }

  /** The last part closes the joined string. */
  lemma {:induction false} JoinEndsWithLast(sep: string, parts: seq<string>)
    requires |parts| > 0
    ensures var j := Join(sep, parts);
            var l := parts[|parts| - 1];
            |l| <= |j| && j[|j| - |l|..] == l
  {
    if |parts| > 1 {
      JoinEndsWithLast(sep, parts[1..]);
      var rest := Join(sep, parts[1..]);
      var l := parts[|parts| - 1];
      assert parts[1..][|parts[1..]| - 1] == l;
      var j := parts[0] + sep + rest;
      assert j[|j| - |l|..] == rest[|rest| - |l|..];
    }
  }
}
