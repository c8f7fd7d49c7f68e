/** Small sequence and string helpers shared by every component: the
    JavaScript string and array operations the components use
    (`substring(0, n)`, `startsWith`, `trim`, `slice(-n)`, `filter`,
    `join`), written once over Dafny sequences. */
module Common {

  datatype Option<+T> = None | Some(value: T)

  /** `s.substring(0, n)` for a non-negative `n`: the first `n` characters,
      or all of `s` when it is shorter. */
  function Take<T>(s: seq<T>, n: nat): (r: seq<T>)
    ensures |r| == if |s| < n then |s| else n
    ensures r <= s
  {
    if |s| <= n then s else s[..n]
  }

  /** `s.startsWith(prefix)`. */
  predicate StartsWith<T(==)>(s: seq<T>, prefix: seq<T>) {
    prefix <= s
  }

  /** The characters JavaScript's `String.prototype.trim` removes: the
      ECMAScript WhiteSpace and LineTerminator code points. */
  predicate IsJsWhitespace(c: char) {
    c == '\t' || c == '\n' || c == '\U{000B}' || c == '\U{000C}' || c == '\r' ||
    c == ' ' || c == '\U{00A0}' || c == '\U{1680}' ||
    ('\U{2000}' <= c <= '\U{200A}') ||
    c == '\U{2028}' || c == '\U{2029}' || c == '\U{202F}' || c == '\U{205F}' ||
    c == '\U{3000}' || c == '\U{FEFF}'
  }

  /** `!s.trim()`: the string is empty once its surrounding whitespace is
      removed, which is to say it consists of whitespace only. */
  predicate IsBlank(s: string) {
    forall i :: 0 <= i < |s| ==> IsJsWhitespace(s[i])
  }

  /** `s.slice(-n)` for `n > 0`: the last `n` elements, or all of `s` when
      it is shorter. It is also what `s.splice(0, s.length - n)` leaves
      behind when `s.length > n`. */
  function Last<T>(s: seq<T>, n: nat): (r: seq<T>)
    ensures |r| == if |s| < n then |s| else n
    ensures r == s[|s| - |r|..]
  {
    if |s| <= n then s else s[|s| - n..]
  }

  /** `s.filter(keep)`: the elements that satisfy `keep`, in order. */
  function Filter<T>(s: seq<T>, keep: T -> bool): (r: seq<T>)
    ensures |r| <= |s|
    ensures forall x :: x in r ==> x in s && keep(x)
    ensures forall x :: x in s && keep(x) ==> x in r
  {
    if s == [] then []
    else if keep(s[0]) then [s[0]] + Filter(s[1..], keep)
    else
      assert forall x :: x in s && x != s[0] ==> x in s[1..];
      Filter(s[1..], keep)
  }

  /** `filter` keeps every copy of what it keeps: each kept value occurs
      as often as before, each dropped value not at all. */
  lemma {:induction false} FilterCounts<T>(s: seq<T>, keep: T -> bool)
    ensures forall x :: x in s ==> multiset(Filter(s, keep))[x] == if keep(x) then multiset(s)[x] else 0
  {
    if s != [] {
      FilterCounts(s[1..], keep);
      assert s == [s[0]] + s[1..];
    }
  }

  /** A filter that every element passes changes nothing. */
  lemma {:induction false} FilterKeepsAll<T>(s: seq<T>, keep: T -> bool)
    requires forall i :: 0 <= i < |s| ==> keep(s[i])
    ensures Filter(s, keep) == s
  {
    if s != [] {
      FilterKeepsAll(s[1..], keep);
    }
  }

  /** `a` is `b` with some elements left out: order is kept. */
  predicate IsSubsequence<T(==)>(a: seq<T>, b: seq<T>)
    decreases |b|
  {
    a == [] ||
    (b != [] && (IsSubsequence(a, b[1..]) || (a[0] == b[0] && IsSubsequence(a[1..], b[1..]))))
  }

  lemma {:induction false} FilterIsSubsequence<T>(s: seq<T>, keep: T -> bool)
    ensures IsSubsequence(Filter(s, keep), s)
  {
    if s != [] {
      FilterIsSubsequence(s[1..], keep);
    }
  }

  /** A single element of `b` is a subsequence of it. */
  lemma {:induction false} SingletonSubsequence<T>(x: T, b: seq<T>)
    requires x in b
    ensures IsSubsequence([x], b)
    decreases |b|
  {
    if b[0] != x {
      assert x in b[1..];
      SingletonSubsequence(x, b[1..]);
    } else {
      assert [x][1..] == [];
    }
  }

  /** Writing index `k` twice keeps only the second write. */
  lemma UpdateTwice<T>(s: seq<T>, k: nat, a: T, b: T)
    requires k < |s|
    ensures s[k := a][k := b] == s[k := b]
  {
  }

  /** Overwriting the element just pushed is pushing the new one instead,
      also after dropping a prefix. */
  lemma ReplaceAppended<T>(s: seq<T>, d: nat, a: T, b: T)
    requires d <= |s|
    ensures (s + [a])[d..][|s| - d := b] == (s + [b])[d..]
  {
  }

  /** `parts.join(sep)`. */
  function Join(parts: seq<string>, sep: string): (r: string)
    ensures parts == [] ==> r == ""
    ensures |parts| == 1 ==> r == parts[0]
  {
    if parts == [] then ""
    else if |parts| == 1 then parts[0]
    else parts[0] + sep + Join(parts[1..], sep)
  }

  /** Appending one more part to a join adds the separator and the part at
      the end: the joined text lists the parts in order. */
  lemma {:induction false} JoinSnoc(parts: seq<string>, p: string, sep: string)
    requires parts != []
    ensures Join(parts + [p], sep) == Join(parts, sep) + sep + p
  {
    if |parts| == 1 {
      assert (parts + [p])[1..] == [p];
    } else {
      assert (parts + [p])[1..] == parts[1..] + [p];
      JoinSnoc(parts[1..], p, sep);
    }
  }

  /** How many times `c` occurs in `s`. */
  function Count(s: string, c: char): nat {
    if s == [] then 0 else (if s[0] == c then 1 else 0) + Count(s[1..], c)
  }

  lemma {:induction false} CountAppend(a: string, b: string, c: char)
    ensures Count(a + b, c) == Count(a, c) + Count(b, c)
  {
    if a != [] {
      assert (a + b)[1..] == a[1..] + b;
      CountAppend(a[1..], b, c);
    } else {
      assert a + b == b;
    }
  }

  /** A text without `c` counts no `c`. */
  lemma {:induction false} CountAbsent(s: string, c: char)
    requires forall i :: 0 <= i < |s| ==> s[i] != c
    ensures Count(s, c) == 0
  {
    if s != [] {
      CountAbsent(s[1..], c);
    }
  }

  /** Joining `k` parts none of which contains `c` with the separator
      `[c]` yields exactly `k - 1` occurrences of `c`: the text splits back
      into exactly `k` lines. */
  lemma {:induction false} JoinCount(parts: seq<string>, c: char)
    requires parts != []
    requires forall i :: 0 <= i < |parts| ==> Count(parts[i], c) == 0
    ensures Count(Join(parts, [c]), c) == |parts| - 1
  {
    if |parts| > 1 {
      JoinCount(parts[1..], c);
      CountAppend(parts[0], [c], c);
      CountAppend(parts[0] + [c], Join(parts[1..], [c]), c);
      assert Count([c], c) == 1 by {
        assert [c][1..] == [];
      }
    }
  }

  /** Decimal text of an integer, as JavaScript's `String(n)` writes it for
      an integral number. */
  function IntToString(n: int): (r: string)
    ensures r != []
  {
    if n < 0 then "-" + NatToString(-n) else NatToString(n)
  }

  function NatToString(n: nat): (r: string)
    ensures r != []
    ensures forall i :: 0 <= i < |r| ==> '0' <= r[i] <= '9'
    decreases n
  {
    if n < 10 then [Digit(n)] else NatToString(n / 10) + [Digit(n % 10)]
  }

  function Digit(d: nat): (c: char)
    requires d < 10
    ensures '0' <= c <= '9'
  {
    "0123456789"[d]
  }
}
