/**
 * `formatCodeNumber`: a twelve-digit code number is shown as four groups of
 * three digits separated by `/`; any other text is shown trimmed and
 * otherwise unchanged.
 */
module CodeNumber {
  import opened Wrappers
  import opened JsString

  /** `\d` in a JavaScript regular expression without the `u` flag: an ASCII digit. */
  predicate IsDigit(c: char)
  {
    '0' <= c <= '9'
  }

  /** The test `/^\d{12}$/`. */
  predicate IsTwelveDigits(s: string)
  {
    |s| == 12 && forall k :: 0 <= k < 12 ==> IsDigit(s[k])
  }

  /** The replacement `'$1/$2/$3/$4'` of the four three-digit groups. */
  function Group(s: string): string
    requires |s| == 12
  {
    s[0..3] + "/" + s[3..6] + "/" + s[6..9] + "/" + s[9..12]
  }

  /** `(code || '').trim()`: null, undefined and the empty string all become the empty string. */
  function Clean(code: Option<string>): (r: string)
    ensures IsTrimmed(r)
  {
    Trim(code.GetOr(""))
  }

  /** `formatCodeNumber(code)`. */
  function FormatCodeNumber(code: Option<string>): (r: string)
    ensures IsTrimmed(r)
  {
    var clean := Clean(code);
    if IsTwelveDigits(clean) then
      var g := Group(clean);
      assert |g| == 15 && g[0] == clean[0] && g[14] == clean[11];
      g
    else clean
  }

  /**
   * Twelve digits are grouped: fifteen characters, a `/` at positions 3, 7
   * and 11, and the digits, in their order, everywhere else.
   */
  lemma {:induction false} GroupLayout(s: string)
    requires |s| == 12
    ensures |Group(s)| == 15
    ensures forall i :: 0 <= i < 15 ==> Group(s)[i] == if i % 4 == 3 then '/' else s[i - i / 4]
  {
    var g := Group(s);
    assert g == s[0..3] + ['/'] + s[3..6] + ['/'] + s[6..9] + ['/'] + s[9..12];
    forall i | 0 <= i < 15
      ensures g[i] == if i % 4 == 3 then '/' else s[i - i / 4]
    {
      if i < 3 {
      } else if i == 3 {
      } else if i < 7 {
      } else if i == 7 {
      } else if i < 11 {
      } else if i == 11 {
      } else {
      }
    }
  }

  /** A twelve-digit code number (after trimming) is shown grouped, digit for digit. */
  lemma FormatGroupsDigits(code: Option<string>)
    requires IsTwelveDigits(Clean(code))
    ensures var r, clean := FormatCodeNumber(code), Clean(code);
      |r| == 15 &&
      forall i :: 0 <= i < 15 ==> r[i] == if i % 4 == 3 then '/' else clean[i - i / 4]
  {
    GroupLayout(Clean(code));
  }

  /** Any other text (wrong length, a non-digit, empty, null or undefined) comes out exactly as trimmed. */
  lemma FormatPassesThrough(code: Option<string>)
    requires !IsTwelveDigits(Clean(code))
    ensures FormatCodeNumber(code) == Trim(code.GetOr(""))
  {
  }

  /** Grouping only inserts separators: removing the slashes from a grouped result gives back the trimmed input. */
  lemma FormatUngroups(code: Option<string>)
    requires IsTwelveDigits(Clean(code))
    ensures RemoveSlashes(FormatCodeNumber(code)) == Clean(code)
  {
    var clean := Clean(code);
    assert forall k :: 0 <= k < 12 ==> clean[k] != '/';
    RemoveSlashesGroup(clean);
  }

  /** The characters of `s` other than `/`, in order. */
  function RemoveSlashes(s: string): (r: string)
    ensures '/' !in r
  {
    if |s| == 0 then "" else (if s[0] == '/' then "" else [s[0]]) + RemoveSlashes(s[1..])
  }

  lemma {:induction false} RemoveSlashesAppend(a: string, b: string)
    ensures RemoveSlashes(a + b) == RemoveSlashes(a) + RemoveSlashes(b)
  {
    if |a| == 0 {
      assert a + b == b;
    } else {
      assert (a + b)[0] == a[0];
      assert (a + b)[1..] == a[1..] + b;
      RemoveSlashesAppend(a[1..], b);
      var head := if a[0] == '/' then "" else [a[0]];
      assert RemoveSlashes(a + b) == head + RemoveSlashes(a[1..] + b);
      assert RemoveSlashes(a) == head + RemoveSlashes(a[1..]);
    }
  }

  lemma {:induction false} RemoveSlashesNone(s: string)
    requires '/' !in s
    ensures RemoveSlashes(s) == s
  {
    if |s| > 0 {
      RemoveSlashesNone(s[1..]);
      assert [s[0]] + s[1..] == s;
    }
  }

  lemma {:induction false} RemoveSlashesAfter(a: string, b: string)
    requires '/' !in a
    ensures RemoveSlashes(a + ['/'] + b) == a + RemoveSlashes(b)
  {
    RemoveSlashesAppend(a, ['/'] + b);
    RemoveSlashesNone(a);
    assert a + ['/'] + b == a + (['/'] + b);
    assert (['/'] + b)[1..] == b;
  }

  lemma RemoveSlashesGroup(s: string)
    requires |s| == 12 && '/' !in s
    ensures RemoveSlashes(Group(s)) == s
  {
    var p2 := s[6..9] + ['/'] + s[9..12];
    var p1 := s[3..6] + ['/'] + p2;
    assert Group(s) == s[0..3] + ['/'] + p1;
    RemoveSlashesAfter(s[0..3], p1);
    RemoveSlashesAfter(s[3..6], p2);
    RemoveSlashesAfter(s[6..9], s[9..12]);
    RemoveSlashesNone(s[9..12]);
    assert s == s[0..3] + s[3..6] + s[6..9] + s[9..12];
  }

  /**
   * Formatting is idempotent: a grouped result holds `/` and is fifteen
   * characters long, so it never passes the twelve-digit test again, and it
   * has no white space at its ends, so trimming keeps it.
   */
  lemma FormatIdempotent(code: Option<string>)
    ensures FormatCodeNumber(Some(FormatCodeNumber(code))) == FormatCodeNumber(code)
  {
    var r := FormatCodeNumber(code);
    if IsTwelveDigits(Clean(code)) {
      GroupLayout(Clean(code));
      assert r[3] == '/';
    }
    FormatOfShown(r);
  }

  /** Text without white space at its ends that is not twelve digits is shown as it is. */
  lemma FormatOfShown(s: string)
    requires IsTrimmed(s) && !IsTwelveDigits(s)
    ensures FormatCodeNumber(Some(s)) == s
  {
    TrimIdentity(s);
  }

  lemma CleanExample()
    ensures Clean(Some("  100200300400  ")) == "100200300400"
  {
    var digits := "100200300400";
    assert AllWhiteSpace("  ") && IsTrimmed(digits) by {
      assert digits[0] == '1' && digits[11] == '0';
    }
    TrimPadded("  ", digits, "  ");
    assert "  " + digits + "  " == "  100200300400  ";
  }

  lemma GroupExample()
    ensures IsTwelveDigits("100200300400")
    ensures Group("100200300400") == "100/200/300/400"
  {
    var digits := "100200300400";
    assert digits[0..3] == "100" && digits[3..6] == "200";
    assert digits[6..9] == "300" && digits[9..12] == "400";
  }

  /** The worked example: `"  100200300400  "` is shown as `"100/200/300/400"`. */
  lemma FormatExample()
    ensures FormatCodeNumber(Some("  100200300400  ")) == "100/200/300/400"
  {
    CleanExample();
    GroupExample();
  }

  /** Empty, null and undefined code numbers are shown as the empty string. */
  lemma FormatEmpty()
    ensures FormatCodeNumber(Some("")) == ""
    ensures FormatCodeNumber(None) == ""
  {
    assert Some("").GetOr("") == "";
    assert None.GetOr("") == "";
    assert TrimStart("") == "";
    assert TrimEnd("") == "";
    assert Trim("") == "";
    assert Clean(None) == "";
    assert !IsTwelveDigits("");
  }
}
