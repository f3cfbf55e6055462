/**
 * The ECMAScript string operations the sticker service uses:
 * `String.prototype.trim`, `String.prototype.endsWith` and
 * `String.prototype.split` with a one-character separator.
 */
module JsString {

  /**
   * WhiteSpace or LineTerminator as ECMAScript defines them (the characters
   * `trim` removes): TAB, VT, FF, ZWNBSP, every space separator (Zs), LF,
   * CR, LINE SEPARATOR and PARAGRAPH SEPARATOR.
   */
  predicate IsWhiteSpace(c: char)
  {
    var n := c as int;
    n == 0x09 || n == 0x0A || n == 0x0B || n == 0x0C || n == 0x0D ||
    n == 0x20 || n == 0xA0 || n == 0x1680 ||
    (0x2000 <= n <= 0x200A) ||
    n == 0x2028 || n == 0x2029 || n == 0x202F || n == 0x205F ||
    n == 0x3000 || n == 0xFEFF
  }

  /** Nothing but white space. */
  predicate AllWhiteSpace(s: string)
  {
    forall k :: 0 <= k < |s| ==> IsWhiteSpace(s[k])
  }

  /** No white space at either end. */
  predicate IsTrimmed(s: string)
  {
    s == [] || (!IsWhiteSpace(s[0]) && !IsWhiteSpace(s[|s| - 1]))
  }

  /** Drops the leading white space: the result is a suffix of `s` that does not start with white space. */
  function TrimStart(s: string): (r: string)
    ensures |r| <= |s| && r == s[|s| - |r|..]
    ensures r == [] || !IsWhiteSpace(r[0])
  {
    if |s| > 0 && IsWhiteSpace(s[0]) then TrimStart(s[1..]) else s
  }

  /** Drops the trailing white space: the result is a prefix of `s` that does not end with white space. */
  function TrimEnd(s: string): (r: string)
    ensures |r| <= |s| && r == s[..|r|]
    ensures r == [] || !IsWhiteSpace(r[|r| - 1])
  {
    if |s| > 0 && IsWhiteSpace(s[|s| - 1]) then TrimEnd(s[..|s| - 1]) else s
  }

  /** What `TrimStart` drops is white space. */
  lemma {:induction false} TrimStartCut(s: string)
    ensures forall k :: 0 <= k < |s| - |TrimStart(s)| ==> IsWhiteSpace(s[k])
  {
    if |s| > 0 && IsWhiteSpace(s[0]) {
      TrimStartCut(s[1..]);
    }
  }

  /** What `TrimEnd` drops is white space. */
  lemma {:induction false} TrimEndCut(s: string)
    ensures forall k :: |TrimEnd(s)| <= k < |s| ==> IsWhiteSpace(s[k])
  {
    if |s| > 0 && IsWhiteSpace(s[|s| - 1]) {
      TrimEndCut(s[..|s| - 1]);
    }
  }

  /** Slicing a suffix `s[i..]` is slicing `s` at offsets moved by `i`. */
  lemma SliceOfSuffix(s: string, i: nat, n: nat)
    requires i + n <= |s|
    ensures s[i..][..n] == s[i..i + n] && s[i..][n..] == s[i + n..]
  {
  }

  /** `s.trim()`: white space dropped at both ends. */
  function Trim(s: string): (r: string)
    ensures IsTrimmed(r) && |r| <= |s|
  {
    var t := TrimStart(s);
    var r := TrimEnd(t);
    assert r != [] ==> r[0] == t[0];
    r
  }

  /** What `trim` keeps is a slice `s[i..i + |Trim(s)|]` of its input, `i` the length of the leading white space. */
  lemma {:induction false} TrimSlice(s: string)
    ensures var r, i := Trim(s), |s| - |TrimStart(s)|;
      0 <= i <= i + |r| <= |s| && r == s[i..i + |r|]
  {
    var t := TrimStart(s);
    var r := TrimEnd(t);
    var i := |s| - |t|;
    assert Trim(s) == r;
    SliceOfSuffix(s, i, |r|);
  }

  /** Everything `trim` cuts off, on either side, is white space. */
  lemma {:induction false} TrimCutsWhiteSpace(s: string)
    ensures var r, i := Trim(s), |s| - |TrimStart(s)|;
      (forall k :: 0 <= k < i ==> IsWhiteSpace(s[k])) &&
      (forall k :: i + |r| <= k < |s| ==> IsWhiteSpace(s[k]))
  {
    var t := TrimStart(s);
    var r := TrimEnd(t);
    var i := |s| - |t|;
    assert Trim(s) == r;
    TrimStartCut(s);
    TrimEndCut(t);
    assert forall k :: i + |r| <= k < |s| ==> s[k] == t[k - i];
  }

  lemma {:induction false} TrimStartOfTrimmed(s: string)
    requires s == [] || !IsWhiteSpace(s[0])
    ensures TrimStart(s) == s
  {
  }

  lemma {:induction false} TrimEndOfTrimmed(s: string)
    requires s == [] || !IsWhiteSpace(s[|s| - 1])
    ensures TrimEnd(s) == s
  {
  }

  /** Trimming changes a string exactly when it has white space at one of its ends. */
  lemma TrimIdentity(s: string)
    ensures Trim(s) == s <==> IsTrimmed(s)
  {
    if IsTrimmed(s) {
      TrimStartOfTrimmed(s);
      TrimEndOfTrimmed(s);
    }
  }

  /** `trim` is idempotent. */
  lemma TrimIdempotent(s: string)
    ensures Trim(Trim(s)) == Trim(s)
  {
    TrimIdentity(Trim(s));
  }

  lemma {:induction false} TrimStartPadded(pre: string, x: string)
    requires AllWhiteSpace(pre) && (x == [] || !IsWhiteSpace(x[0]))
    ensures TrimStart(pre + x) == x
  {
    if |pre| == 0 {
      assert pre + x == x;
      TrimStartOfTrimmed(x);
    } else {
      assert (pre + x)[1..] == pre[1..] + x;
      TrimStartPadded(pre[1..], x);
    }
  }

  lemma {:induction false} TrimEndPadded(x: string, post: string)
    requires AllWhiteSpace(post) && (x == [] || !IsWhiteSpace(x[|x| - 1]))
    ensures TrimEnd(x + post) == x
  {
    if |post| == 0 {
      assert x + post == x;
      TrimEndOfTrimmed(x);
    } else {
      assert (x + post)[..|x + post| - 1] == x + post[..|post| - 1];
      TrimEndPadded(x, post[..|post| - 1]);
    }
  }

  /** Trimming removes exactly the white space around a text that has none at its own ends. */
  lemma TrimPadded(pre: string, x: string, post: string)
    requires AllWhiteSpace(pre) && AllWhiteSpace(post)
    requires IsTrimmed(x)
    ensures Trim(pre + x + post) == x
  {
    if x == [] {
      assert pre + x + post == (pre + post) + [];
      assert AllWhiteSpace(pre + post) by {
        assert forall k :: 0 <= k < |pre + post| ==> (pre + post)[k] == if k < |pre| then pre[k] else post[k - |pre|];
      }
      TrimStartPadded(pre + post, []);
    } else {
      assert pre + x + post == pre + (x + post);
      TrimStartPadded(pre, x + post);
      TrimEndPadded(x, post);
    }
  }

  /** `s.endsWith(suffix)`. */
  predicate EndsWith(s: string, suffix: string)
  {
    |suffix| <= |s| && s[|s| - |suffix|..] == suffix
  }

  /** `s.split(sep)` for a one-character separator: the pieces between separators, at least one. */
  function Split(s: string, sep: char): (parts: seq<string>)
    ensures |parts| >= 1
    ensures forall i :: 0 <= i < |parts| ==> sep !in parts[i]
  {
    if |s| == 0 then [""]
    else
      var rest := Split(s[1..], sep);
      if s[0] == sep then [""] + rest
      else [[s[0]] + rest[0]] + rest[1..]
  }

  /** `parts.join(sep)`. */
  function Join(parts: seq<string>, sep: string): string
  {
    if |parts| == 0 then ""
    else if |parts| == 1 then parts[0]
    else parts[0] + sep + Join(parts[1..], sep)
  }

  /** Joining a piece in front of at least one other puts the separator between them. */
  lemma JoinCons(p: string, parts: seq<string>, sep: string)
    requires |parts| >= 1
    ensures Join([p] + parts, sep) == p + sep + Join(parts, sep)
  {
    assert ([p] + parts)[1..] == parts;
  }

  /** Extending the first piece extends the joined text at its front. */
  lemma JoinFirstExtended(c: char, parts: seq<string>, sep: string)
    requires |parts| >= 1
    ensures Join([[c] + parts[0]] + parts[1..], sep) == [c] + Join(parts, sep)
  {
    var ext := [[c] + parts[0]] + parts[1..];
    if |parts| > 1 {
      assert ext[1..] == parts[1..];
    }
  }

  /** Splitting and joining with the same separator give back the original text. */
  lemma {:induction false} JoinSplit(s: string, sep: char)
    ensures Join(Split(s, sep), [sep]) == s
  {
    if |s| > 0 {
      var rest := Split(s[1..], sep);
      JoinSplit(s[1..], sep);
      if s[0] == sep {
        JoinCons("", rest, [sep]);
      } else {
        JoinFirstExtended(s[0], rest, [sep]);
      }
      assert [s[0]] + s[1..] == s;
    }
  }

  /** A piece that holds no separator splits into itself. */
  lemma {:induction false} SplitNoSeparator(a: string, sep: char)
    requires sep !in a
    ensures Split(a, sep) == [a]
  {
    if |a| > 0 {
      SplitNoSeparator(a[1..], sep);
      assert [a[0]] + a[1..] == a;
    }
  }

  /** The first separator of `a + [sep] + b` ends the first piece. */
  lemma {:induction false} SplitAtFirst(a: string, sep: char, b: string)
    requires sep !in a
    ensures Split(a + [sep] + b, sep) == [a] + Split(b, sep)
  {
    if |a| == 0 {
      assert a + [sep] + b == [sep] + b;
      assert ([sep] + b)[1..] == b;
    } else {
      var s := a + [sep] + b;
      assert s[1..] == a[1..] + [sep] + b;
      SplitAtFirst(a[1..], sep, b);
      assert [a[0]] + a[1..] == a;
    }
  }

  /** Joining pieces free of the separator and splitting again gives back the pieces. */
  lemma {:induction false} SplitJoin(parts: seq<string>, sep: char)
    requires |parts| >= 1
    requires forall i :: 0 <= i < |parts| ==> sep !in parts[i]
    ensures Split(Join(parts, [sep]), sep) == parts
  {
    if |parts| == 1 {
      SplitNoSeparator(parts[0], sep);
    } else {
      SplitJoin(parts[1..], sep);
      SplitAtFirst(parts[0], sep, Join(parts[1..], [sep]));
      assert [parts[0]] + parts[1..] == parts;
    }
  }
}
