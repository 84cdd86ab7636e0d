/** Vocabulary shared by the other modules: optional values and results with
    a failure, distinctness of sequences, and the whitespace handling that
    Python's `str.strip()` performs. */
module Common {

  datatype Option<+T> = None | Some(value: T)

  datatype Result<+T, +E> = Ok(value: T) | Err(error: E)

  function Min(a: int, b: int): int
  {
    if a <= b then a else b
  }

  /** No element occurs twice. */
  predicate Distinct<T(==)>(s: seq<T>)
  {
    forall i, j :: 0 <= i < j < |s| ==> s[i] != s[j]
  }

  /** Whitespace as `str.strip()` sees it among the ASCII characters:
      tab, line feed, vertical tab, form feed, carriage return, the four
      separators \x1c to \x1f, and space. */
  predicate IsSpace(c: char)
  {
    c == ' ' || '\t' <= c <= '\r' || '\U{001C}' <= c <= '\U{001F}'
  }

  /** A string that is empty once stripped: Python treats it as false. */
  predicate IsBlank(s: string)
  {
    forall i :: 0 <= i < |s| ==> IsSpace(s[i])
  }

  /** `t` occurs inside `s` starting at index `i`. */
  predicate OccursAt(s: string, t: string, i: int)
  {
    0 <= i <= |s| - |t| && s[i..i + |t|] == t
  }

  /** `t` occurs somewhere inside `s`. */
  predicate Contains(s: string, t: string)
  {
    exists i :: 0 <= i <= |s| && OccursAt(s, t, i)
  }

  lemma ContainsMiddle(a: string, t: string, b: string)
    ensures Contains(a + t + b, t)
  {
    assert OccursAt(a + t + b, t, |a|);
  }

  /** Dropping one leading whitespace character before trimming the rest. */
  lemma TrimStartStep(s: string, rest: string)
    requires s != [] && IsSpace(s[0])
    requires |rest| <= |s| - 1 && rest == s[1..][|s| - 1 - |rest|..]
    requires IsBlank(s[1..][..|s| - 1 - |rest|])
    requires rest == [] <==> IsBlank(s[1..])
    ensures rest == s[|s| - |rest|..]
    ensures IsBlank(s[..|s| - |rest|])
    ensures rest == [] <==> IsBlank(s)
  {
    var cut := |s| - |rest|;
    assert s[1..][..cut - 1] == s[1..cut];
    assert s[1..][cut - 1..] == s[cut..];
    assert s[..cut] == [s[0]] + s[1..cut];
    assert IsBlank(s) ==> IsBlank(s[1..]) by {
      forall i | 0 <= i < |s| - 1 ensures IsBlank(s) ==> IsSpace(s[1..][i]) {
        assert s[1..][i] == s[i + 1];
      }
    }
    assert IsBlank(s[1..]) ==> IsBlank(s) by {
      forall i | 0 <= i < |s| ensures IsBlank(s[1..]) ==> IsSpace(s[i]) {
        if i > 0 { assert s[i] == s[1..][i - 1]; }
      }
    }
  }

  /** Drops leading whitespace: the result is the longest suffix of `s`
      whose removed prefix is blank and which does not start with whitespace. */
  function TrimStart(s: string): (r: string)
    ensures |r| <= |s| && r == s[|s| - |r|..]
    ensures IsBlank(s[..|s| - |r|])
    ensures r == [] || !IsSpace(r[0])
    ensures r == [] <==> IsBlank(s)
  {
    if s != [] && IsSpace(s[0]) then
      var rest := TrimStart(s[1..]);
      TrimStartStep(s, rest);
      rest
    else s
  }

  /** Dropping one trailing whitespace character before trimming the rest. */
  lemma TrimEndStep(s: string, rest: string)
    requires s != [] && IsSpace(s[|s| - 1])
    requires |rest| <= |s| - 1 && rest == s[..|s| - 1][..|rest|]
    requires IsBlank(s[..|s| - 1][|rest|..])
    requires rest == [] <==> IsBlank(s[..|s| - 1])
    ensures rest == s[..|rest|]
    ensures IsBlank(s[|rest|..])
    ensures rest == [] <==> IsBlank(s)
  {
    var init := s[..|s| - 1];
    assert init[..|rest|] == s[..|rest|];
    assert s[|rest|..] == init[|rest|..] + [s[|s| - 1]];
    assert IsBlank(s) ==> IsBlank(init) by {
      forall i | 0 <= i < |init| ensures IsBlank(s) ==> IsSpace(init[i]) {
        assert init[i] == s[i];
      }
    }
    assert IsBlank(init) ==> IsBlank(s) by {
      forall i | 0 <= i < |s| ensures IsBlank(init) ==> IsSpace(s[i]) {
        if i < |init| { assert s[i] == init[i]; }
      }
    }
  }

  /** Drops trailing whitespace, symmetrically to TrimStart. */
  function TrimEnd(s: string): (r: string)
    ensures |r| <= |s| && r == s[..|r|]
    ensures IsBlank(s[|r|..])
    ensures r == [] || !IsSpace(r[|r| - 1])
    ensures r == [] <==> IsBlank(s)
  {
    if s != [] && IsSpace(s[|s| - 1]) then
      var rest := TrimEnd(s[..|s| - 1]);
      TrimEndStep(s, rest);
      rest
    else s
  }

  /** Python's `str.strip()`: the input with its blank ends cut off, the
      cut leaving no whitespace at either end. */
  function Strip(s: string): (r: string)
    ensures |r| <= |s|
    ensures exists i, j :: 0 <= i <= j <= |s| && r == s[i..j] && IsBlank(s[..i]) && IsBlank(s[j..])
    ensures r == [] <==> IsBlank(s)
    ensures r != [] ==> !IsSpace(r[0]) && !IsSpace(r[|r| - 1])
  {
    var front := TrimStart(s);
    var r := TrimEnd(front);
    assert r != [] ==> r[0] == front[0];
    assert IsBlank(front) ==> front == [];
    var i := |s| - |front|;
    var j := i + |r|;
    assert s[i..j] == front[..|r|];
    assert s[j..] == front[|r|..];
    r
  }

  /** Stripping twice is stripping once. */
  lemma StripIdempotent(s: string)
    ensures Strip(Strip(s)) == Strip(s)
  {
    var r := Strip(s);
    assert r == [] || !IsSpace(r[0]);
    assert TrimStart(r) == r;
    assert r == [] || !IsSpace(r[|r| - 1]);
    assert TrimEnd(r) == r;
  }

  /** A text ends with its last part. */
  lemma ContainsEnd(a: string, t: string)
    ensures Contains(a + t, t)
  {
    assert (a + t)[|a|..|a| + |t|] == t;
    assert OccursAt(a + t, t, |a|);
  }

  /** Appending text keeps every occurrence, and a prefix stays a prefix. */
  lemma Extend(a: string, b: string)
    ensures forall t :: Contains(a, t) ==> Contains(a + b, t)
    ensures forall t :: OccursAt(a, t, 0) ==> OccursAt(a + b, t, 0)
  {
    forall t | Contains(a, t) ensures Contains(a + b, t) {
      var i :| 0 <= i <= |a| && OccursAt(a, t, i);
      assert (a + b)[i..i + |t|] == a[i..i + |t|];
      assert OccursAt(a + b, t, i);
    }
    forall t | OccursAt(a, t, 0) ensures OccursAt(a + b, t, 0) {
      assert (a + b)[..|t|] == a[..|t|];
    }
  }

  /** Both texts framed by `pre`, `mid` and `post` occur in the whole,
      which starts with `pre` and ends with `post`. */
  lemma FramedPair(pre: string, x: string, mid: string, y: string, post: string)
    ensures var s := pre + x + mid + y + post;
            && Contains(s, x) && Contains(s, y)
            && OccursAt(s, pre, 0) && s[|s| - |post|..] == post
  {
    assert OccursAt(pre, pre, 0);
    Extend(pre, x);
    ContainsEnd(pre, x);
    Extend(pre + x, mid);
    Extend(pre + x + mid, y);
    ContainsEnd(pre + x + mid, y);
    Extend(pre + x + mid + y, post);
  }

  /** Five labelled values one after another: each value occurs in the
      whole, which starts with the first label. */
  lemma LabelledFive(l1: string, x1: string, l2: string, x2: string, l3: string, x3: string,
                     l4: string, x4: string, l5: string, x5: string)
    ensures var s := l1 + x1 + l2 + x2 + l3 + x3 + l4 + x4 + l5 + x5;
            && OccursAt(s, l1, 0)
            && Contains(s, x1) && Contains(s, x2) && Contains(s, x3)
            && Contains(s, x4) && Contains(s, x5)
  {
    FramedPair(l1, x1, l2, x2, []);
    assert l1 + x1 + l2 + x2 + [] == l1 + x1 + l2 + x2;
    Extend(l1 + x1 + l2 + x2, l3);
    Extend(l1 + x1 + l2 + x2 + l3, x3);
    ContainsEnd(l1 + x1 + l2 + x2 + l3, x3);
    Extend(l1 + x1 + l2 + x2 + l3 + x3, l4);
    Extend(l1 + x1 + l2 + x2 + l3 + x3 + l4, x4);
    ContainsEnd(l1 + x1 + l2 + x2 + l3 + x3 + l4, x4);
    Extend(l1 + x1 + l2 + x2 + l3 + x3 + l4 + x4, l5);
    Extend(l1 + x1 + l2 + x2 + l3 + x3 + l4 + x4 + l5, x5);
    ContainsEnd(l1 + x1 + l2 + x2 + l3 + x3 + l4 + x4 + l5, x5);
  }

  /** Eight labelled values and a closing text one after another: each
      value occurs in the whole, which starts with the first label and ends
      with the closing text. */
  lemma LabelledEight(l1: string, x1: string, l2: string, x2: string, l3: string, x3: string,
                      l4: string, x4: string, l5: string, x5: string, l6: string, x6: string,
                      l7: string, x7: string, l8: string, x8: string, close: string)
    ensures var s := l1 + x1 + l2 + x2 + l3 + x3 + l4 + x4 + l5 + x5 + l6 + x6 + l7 + x7 + l8 + x8 + close;
            && OccursAt(s, l1, 0) && s[|s| - |close|..] == close
            && Contains(s, x1) && Contains(s, x2) && Contains(s, x3) && Contains(s, x4)
            && Contains(s, x5) && Contains(s, x6) && Contains(s, x7) && Contains(s, x8)
  {
    var front := l1 + x1 + l2 + x2 + l3 + x3 + l4 + x4 + l5 + x5;
    LabelledFive(l1, x1, l2, x2, l3, x3, l4, x4, l5, x5);
    Extend(front, l6);
    Extend(front + l6, x6);
    ContainsEnd(front + l6, x6);
    Extend(front + l6 + x6, l7);
    Extend(front + l6 + x6 + l7, x7);
    ContainsEnd(front + l6 + x6 + l7, x7);
    Extend(front + l6 + x6 + l7 + x7, l8);
    Extend(front + l6 + x6 + l7 + x7 + l8, x8);
    ContainsEnd(front + l6 + x6 + l7 + x7 + l8, x8);
    var body := front + l6 + x6 + l7 + x7 + l8 + x8;
    Extend(body, close);
    assert (body + close)[|body|..] == close;
  }

  /** Containment survives adding text on either side. */
  lemma ContainsWithin(a: string, s: string, b: string, t: string)
    requires Contains(s, t)
    ensures Contains(a + s + b, t)
  {
    var i :| 0 <= i <= |s| && OccursAt(s, t, i);
    assert (a + s + b)[|a| + i..|a| + i + |t|] == s[i..i + |t|];
    assert OccursAt(a + s + b, t, |a| + i);
  }

  /** Python's `dict.get(key, default)` on a dictionary of text. */
  function Lookup(d: map<string, string>, key: string, default: string): string
  {
    if key in d then d[key] else default
  }

  /** `" ".join(parts)`: the parts in order, one space between neighbours. */
  function JoinSpaced(parts: seq<string>): string
  {
    if |parts| == 0 then ""
    else if |parts| == 1 then parts[0]
    else JoinSpaced(parts[..|parts| - 1]) + " " + parts[|parts| - 1]
  }

  /** Four parts joined: the parts with one space between neighbours. */
  lemma JoinFour(a: string, b: string, c: string, d: string)
    ensures JoinSpaced([a, b, c, d]) == a + " " + b + " " + c + " " + d
  {
    assert [a, b, c, d][..3] == [a, b, c];
    assert [a, b, c][..2] == [a, b];
    assert [a, b][..1] == [a];
    assert JoinSpaced([a]) == a;
    assert JoinSpaced([a, b]) == a + " " + b;
    assert JoinSpaced([a, b, c]) == a + " " + b + " " + c;
  }

  /** Every part of a space-joined text occurs in it verbatim. */
  lemma {:induction false} JoinSpacedCarries(parts: seq<string>, k: nat)
    requires k < |parts|
    ensures Contains(JoinSpaced(parts), parts[k])
  {
    var n := |parts|;
    if n == 1 {
      ContainsEnd([], parts[0]);
      assert [] + parts[0] == JoinSpaced(parts);
    } else {
      var init := JoinSpaced(parts[..n - 1]);
      assert JoinSpaced(parts) == init + " " + parts[n - 1];
      if k == n - 1 {
        ContainsEnd(init + " ", parts[k]);
      } else {
        JoinSpacedCarries(parts[..n - 1], k);
        assert parts[..n - 1][k] == parts[k];
        Extend(init, " ");
        Extend(init + " ", parts[n - 1]);
      }
    }
  }

  /** The decimal digit for `d`. */
  function Digit(d: nat): (c: char)
    requires d < 10
    ensures '0' <= c <= '9' && c as int - '0' as int == d
  {
    ('0' as int + d) as char
  }

  predicate AllDigits(s: string)
  {
    forall i :: 0 <= i < |s| ==> '0' <= s[i] <= '9'
  }

  /** `str(n)` for a non-negative integer. */
  function DecimalText(n: nat): (s: string)
    ensures |s| >= 1 && AllDigits(s)
    ensures s[0] == '0' <==> n == 0
  {
    if n < 10 then [Digit(n)] else DecimalText(n / 10) + [Digit(n % 10)]
  }

  /** `int(s)` for a string of decimal digits. */
  function DecimalValue(s: string): nat
    requires AllDigits(s)
  {
    if s == [] then 0
    else 10 * DecimalValue(s[..|s| - 1]) + (s[|s| - 1] as int - '0' as int)
  }

  /** Reading back the decimal text of a number gives the number. */
  lemma {:induction false} DecimalRoundTrip(n: nat)
    ensures DecimalValue(DecimalText(n)) == n
  {
    var s := DecimalText(n);
    if n >= 10 {
      DecimalRoundTrip(n / 10);
      assert s[..|s| - 1] == DecimalText(n / 10);
    }
  }

  /** The strings of `parts` one after another. */
  function Concat(parts: seq<string>): string
  {
    if parts == [] then "" else Concat(parts[..|parts| - 1]) + parts[|parts| - 1]
  }

  /** One more part concatenated after the first k. */
  lemma ConcatStep(parts: seq<string>, k: nat)
    requires k < |parts|
    ensures Concat(parts[..k + 1]) == Concat(parts[..k]) + parts[k]
  {
    assert parts[..k + 1][..k] == parts[..k];
  }

  /** The concatenation of the first k parts begins the concatenation of all. */
  lemma {:induction false} ConcatPrefix(parts: seq<string>, k: nat)
    requires k <= |parts|
    ensures |Concat(parts[..k])| <= |Concat(parts)|
    ensures Concat(parts)[..|Concat(parts[..k])|] == Concat(parts[..k])
    decreases |parts| - k
  {
    if k < |parts| {
      ConcatPrefix(parts, k + 1);
      var shorter, longer := Concat(parts[..k]), Concat(parts[..k + 1]);
      assert parts[..k + 1][..k] == parts[..k];
      assert longer == shorter + parts[k];
      assert longer[..|shorter|] == shorter;
    } else {
      assert parts[..k] == parts;
    }
  }

  /** Part k sits in the concatenation right after the parts before it. */
  lemma ConcatPartAt(parts: seq<string>, k: nat)
    requires k < |parts|
    ensures OccursAt(Concat(parts), parts[k], |Concat(parts[..k])|)
  {
    ConcatPrefix(parts, k + 1);
    var before, upTo := Concat(parts[..k]), Concat(parts[..k + 1]);
    assert parts[..k + 1][..k] == parts[..k];
    assert upTo == before + parts[k];
    var all := Concat(parts);
    assert all[|before|..|before| + |parts[k]|] == upTo[|before|..];
  }

  /** A concatenation whose first part is not empty starts with that part's
      first character. */
  lemma {:induction false} ConcatFirst(parts: seq<string>)
    requires parts != [] && parts[0] != []
    ensures |Concat(parts)| > 0 && Concat(parts)[0] == parts[0][0]
  {
    var init := parts[..|parts| - 1];
    if init != [] {
      assert init[0] == parts[0];
      ConcatFirst(init);
    }
  }
}
