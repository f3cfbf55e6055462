/**
 * `buildPayload`: the QR payload text. The eight asset fields are trimmed,
 * placed in a fixed order, pretty-printed as a JSON object with an indent
 * of two spaces, and the opening `{` line and closing `}` line are cut off.
 */
module Payload {
  import opened Wrappers
  import opened JsString
  import opened Json

  /** `AssetPayload`; None stands for a field whose value is null or undefined. */
  datatype AssetPayload = AssetPayload(
    assetName: Option<string>,
    specification: Option<string>,
    colour: Option<string>,
    date: Option<string>,
    user: Option<string>,
    location: Option<string>,
    emailOfficeActivation: Option<string>,
    codeNumber: Option<string>)

  /** A property written to the payload: its key and its (trimmed) value. */
  type Field = (string, string)

  /** The key order of the `ordered` object. */
  const Keys: seq<string> := ["assetName", "specification", "colour", "date", "user", "location", "emailOfficeActivation", "codeNumber"]

  /** The input values, in key order. */
  function Values(p: AssetPayload): (vs: seq<Option<string>>)
    ensures |vs| == |Keys|
  {
    [p.assetName, p.specification, p.colour, p.date, p.user, p.location, p.emailOfficeActivation, p.codeNumber]
  }

  /** `v?.trim()`: undefined stays undefined. */
  function TrimField(v: Option<string>): (r: Option<string>)
    ensures r.Some? <==> v.Some?
    ensures r.Some? ==> IsTrimmed(r.value) && |r.value| <= |v.value|
  {
    match v
    case None => None
    case Some(s) => Some(Trim(s))
  }

  /** The values of the `ordered` object, in its key order. */
  function Ordered(p: AssetPayload): (vs: seq<Option<string>>)
    ensures |vs| == |Keys|
  {
    var vs := Values(p);
    seq(|vs|, i requires 0 <= i < |vs| => TrimField(vs[i]))
  }

  /** The properties `JSON.stringify` writes, in order: those whose value is not undefined. */
  function Present(keys: seq<string>, vals: seq<Option<string>>): seq<Field>
    requires |keys| == |vals|
  {
    if |keys| == 0 then []
    else (if vals[0].Some? then [(keys[0], vals[0].value)] else []) + Present(keys[1..], vals[1..])
  }

  /** The properties written for `p`. */
  function Fields(p: AssetPayload): seq<Field>
  {
    Present(Keys, Ordered(p))
  }

  /** The value of the first property named `k`, if any. */
  function Lookup(fs: seq<Field>, k: string): Option<string>
  {
    if |fs| == 0 then None
    else if fs[0].0 == k then Some(fs[0].1)
    else Lookup(fs[1..], k)
  }

  /** The position of `k` in `keys`, or `|keys|` when it is absent. */
  function IndexOf(keys: seq<string>, k: string): (r: nat)
    ensures r <= |keys|
    ensures r < |keys| ==> keys[r] == k
    ensures r == |keys| <==> k !in keys
  {
    if |keys| == 0 then 0
    else if keys[0] == k then 0
    else 1 + IndexOf(keys[1..], k)
  }

  predicate Distinct(keys: seq<string>)
  {
    forall i, j :: 0 <= i < j < |keys| ==> keys[i] != keys[j]
  }

  lemma KeysDistinct()
    ensures Distinct(Keys)
  {
  }

  /** Every property written comes from `keys`. */
  lemma {:induction false} PresentKeys(keys: seq<string>, vals: seq<Option<string>>)
    requires |keys| == |vals|
    ensures forall a :: 0 <= a < |Present(keys, vals)| ==> Present(keys, vals)[a].0 in keys
  {
    if |keys| > 0 {
      PresentKeys(keys[1..], vals[1..]);
    }
  }

  lemma {:induction false} LookupAbsent(fs: seq<Field>, k: string)
    requires forall a :: 0 <= a < |fs| ==> fs[a].0 != k
    ensures Lookup(fs, k) == None
  {
    if |fs| > 0 {
      LookupAbsent(fs[1..], k);
    }
  }

  /** With distinct keys, the property named `keys[j]` is written exactly when `vals[j]` is defined, with that value. */
  lemma {:induction false} PresentLookup(keys: seq<string>, vals: seq<Option<string>>, j: int)
    requires |keys| == |vals| && Distinct(keys) && 0 <= j < |keys|
    ensures Lookup(Present(keys, vals), keys[j]) == vals[j]
  {
    var rest := Present(keys[1..], vals[1..]);
    var fs := Present(keys, vals);
    if vals[0].Some? {
      assert fs == [(keys[0], vals[0].value)] + rest;
      assert fs[1..] == rest;
    } else {
      assert fs == rest;
    }
    if j == 0 {
      if vals[0].None? {
        PresentKeys(keys[1..], vals[1..]);
        forall a | 0 <= a < |rest| ensures rest[a].0 != keys[0] {
          var i :| 0 <= i < |keys[1..]| && keys[1..][i] == rest[a].0;
          assert keys[i + 1] == rest[a].0;
        }
        LookupAbsent(rest, keys[0]);
      }
    } else {
      assert keys[j] != keys[0];
      assert keys[1..][j - 1] == keys[j];
      PresentLookup(keys[1..], vals[1..], j - 1);
    }
  }

  /** The names of `fs` come in the order of `keys`. */
  predicate InKeyOrder(keys: seq<string>, fs: seq<Field>)
  {
    forall a, b :: 0 <= a < b < |fs| ==> IndexOf(keys, fs[a].0) < IndexOf(keys, fs[b].0)
  }

  /** Past a distinct first key, positions shift by one. */
  lemma IndexOfTail(keys: seq<string>, k: string)
    requires |keys| > 0 && Distinct(keys) && k in keys[1..]
    ensures IndexOf(keys, k) == 1 + IndexOf(keys[1..], k)
  {
    var i :| 0 <= i < |keys[1..]| && keys[1..][i] == k;
    assert keys[i + 1] == k;
  }

  /** Properties in the order of the later keys are in the order of all keys. */
  lemma InKeyOrderTail(keys: seq<string>, rest: seq<Field>)
    requires |keys| > 0 && Distinct(keys) && InKeyOrder(keys[1..], rest)
    requires forall a :: 0 <= a < |rest| ==> rest[a].0 in keys[1..]
    ensures InKeyOrder(keys, rest)
  {
    forall a, b | 0 <= a < b < |rest|
      ensures IndexOf(keys, rest[a].0) < IndexOf(keys, rest[b].0)
    {
      IndexOfTail(keys, rest[a].0);
      IndexOfTail(keys, rest[b].0);
    }
  }

  /** A property under the first key, followed by properties in the order of the later keys, is in key order. */
  lemma InKeyOrderCons(keys: seq<string>, f: Field, rest: seq<Field>)
    requires |keys| > 0 && Distinct(keys) && f.0 == keys[0] && InKeyOrder(keys[1..], rest)
    requires forall a :: 0 <= a < |rest| ==> rest[a].0 in keys[1..]
    ensures InKeyOrder(keys, [f] + rest)
  {
    InKeyOrderTail(keys, rest);
    var fs := [f] + rest;
    forall a, b | 0 <= a < b < |fs|
      ensures IndexOf(keys, fs[a].0) < IndexOf(keys, fs[b].0)
    {
      assert fs[b] == rest[b - 1];
      if a > 0 {
        assert fs[a] == rest[a - 1];
      }
    }
  }

  /** With distinct keys, properties are written in the order of `keys`. */
  lemma {:induction false} PresentInOrder(keys: seq<string>, vals: seq<Option<string>>)
    requires |keys| == |vals| && Distinct(keys)
    ensures InKeyOrder(keys, Present(keys, vals))
  {
    if |keys| > 0 {
      var rest := Present(keys[1..], vals[1..]);
      assert Distinct(keys[1..]) by {
        assert forall i :: 0 <= i < |keys| - 1 ==> keys[1..][i] == keys[i + 1];
      }
      PresentInOrder(keys[1..], vals[1..]);
      PresentKeys(keys[1..], vals[1..]);
      if vals[0].Some? {
        assert Present(keys, vals) == [(keys[0], vals[0].value)] + rest;
        InKeyOrderCons(keys, (keys[0], vals[0].value), rest);
      } else {
        assert Present(keys, vals) == rest;
        InKeyOrderTail(keys, rest);
      }
    }
  }

  /** Each of the eight keys is written exactly when its input field is defined, with the trimmed value. */
  lemma FieldsLookup(p: AssetPayload, j: int)
    requires 0 <= j < |Keys|
    ensures Lookup(Fields(p), Keys[j]) == TrimField(Values(p)[j])
  {
    KeysDistinct();
    PresentLookup(Keys, Ordered(p), j);
  }

  /** Keys are written in the fixed order assetName, specification, colour, date, user, location, emailOfficeActivation, codeNumber. */
  lemma FieldsInOrder(p: AssetPayload)
    ensures InKeyOrder(Keys, Fields(p))
  {
    KeysDistinct();
    PresentInOrder(Keys, Ordered(p));
  }

  /** Only the eight keys are ever written. */
  lemma FieldsKeys(p: AssetPayload)
    ensures forall a :: 0 <= a < |Fields(p)| ==> Fields(p)[a].0 in Keys
  {
    PresentKeys(Keys, Ordered(p));
  }

  /** No property is written exactly when every field is undefined. */
  lemma FieldsEmpty(p: AssetPayload)
    ensures Fields(p) == [] <==> forall j :: 0 <= j < |Keys| ==> Values(p)[j].None?
  {
    if Fields(p) == [] {
      forall j | 0 <= j < |Keys| ensures Values(p)[j].None? {
        FieldsLookup(p, j);
      }
    } else {
      var k := Fields(p)[0].0;
      FieldsKeys(p);
      var j := IndexOf(Keys, k);
      FieldsLookup(p, j);
      assert Lookup(Fields(p), k).Some?;
    }
  }

  /** The input with every defined field trimmed. */
  function TrimAll(p: AssetPayload): AssetPayload
  {
    AssetPayload(TrimField(p.assetName), TrimField(p.specification), TrimField(p.colour), TrimField(p.date),
                 TrimField(p.user), TrimField(p.location), TrimField(p.emailOfficeActivation), TrimField(p.codeNumber))
  }

  lemma TrimFieldIdempotent(v: Option<string>)
    ensures TrimField(TrimField(v)) == TrimField(v)
  {
    if v.Some? {
      TrimIdempotent(v.value);
    }
  }

  /** Surrounding white space never reaches the payload: trimming the input first changes nothing. */
  lemma PayloadIgnoresSurroundingSpace(p: AssetPayload)
    ensures BuildPayload(TrimAll(p)) == BuildPayload(p)
  {
    var before, after := Ordered(p), Ordered(TrimAll(p));
    forall i | 0 <= i < |Keys| ensures after[i] == before[i] {
      assert Values(TrimAll(p))[i] == TrimField(Values(p)[i]);
      TrimFieldIdempotent(Values(p)[i]);
    }
    assert after == before;
  }

  /** One property as `JSON.stringify` writes it with a non-empty gap: quoted key, `: `, quoted value. */
  function Member(f: Field): string
  {
    Quote(f.0) + ": " + Quote(f.1)
  }

  function Members(fs: seq<Field>): (ms: seq<string>)
    ensures |ms| == |fs|
  {
    seq(|fs|, i requires 0 <= i < |fs| => Member(fs[i]))
  }

  /**
   * `JSON.stringify(obj, null, 2)` of an object whose properties are `fs`:
   * `{}` when there are none, otherwise `{`, each member on its own line
   * indented by two spaces with a comma between members, and `}`.
   */
  function Stringify(fs: seq<Field>): string
  {
    if |fs| == 0 then "{}"
    else "{\n  " + Join(Members(fs), ",\n  ") + "\n}"
  }

  /** `.replace(/^{\n/, '')`. */
  function StripOpening(s: string): (r: string)
    ensures r == s || s == "{\n" + r
    ensures r == s ==> !(|s| >= 2 && s[..2] == "{\n")
  {
    if |s| >= 2 && s[..2] == "{\n" then s[2..] else s
  }

  /** `.replace(/\n}$/, '')`. */
  function StripClosing(s: string): (r: string)
    ensures r == s || s == r + "\n}"
    ensures r == s ==> !EndsWith(s, "\n}")
  {
    if EndsWith(s, "\n}") then s[..|s| - 2] else s
  }

  /** The payload text for the properties `fs`: the pretty-printed object with its brace lines cut off. */
  function PayloadText(fs: seq<Field>): string
  {
    StripClosing(StripOpening(Stringify(fs)))
  }

  /** `buildPayload(p)`. */
  function BuildPayload(p: AssetPayload): string
  {
    PayloadText(Fields(p))
  }

  // ---------------------------------------------------------------------------
  // The lines of the payload

  /** Each text indented by two spaces, and followed by a comma unless it is the last. */
  function Indented(ms: seq<string>): (ls: seq<string>)
    ensures |ls| == |ms|
  {
    seq(|ms|, i requires 0 <= i < |ms| => "  " + ms[i] + (if i + 1 < |ms| then "," else ""))
  }

  /** The lines of the payload: `  "key": "value"`, with a comma on all but the last. */
  function Lines(fs: seq<Field>): (ls: seq<string>)
    ensures |ls| == |fs|
  {
    Indented(Members(fs))
  }

  /** Moving the indent of the next text in front of it: the regrouping `IndentedJoin` steps through. */
  lemma IndentRegroup(m: string, rest: string)
    ensures "  " + (m + ",\n  " + rest) == ("  " + m + ",") + "\n" + ("  " + rest)
  {
    assert ",\n  " == "," + "\n" + "  ";
  }

  /** Indenting the joined texts is joining the indented texts. */
  lemma {:induction false} IndentedJoin(ms: seq<string>)
    requires |ms| >= 1
    ensures "  " + Join(ms, ",\n  ") == Join(Indented(ms), "\n")
  {
    if |ms| > 1 {
      var ls := Indented(ms);
      IndentedJoin(ms[1..]);
      assert ls[1..] == Indented(ms[1..]);
      IndentRegroup(ms[0], Join(ms[1..], ",\n  "));
    }
  }

  /** No line holds a line break: escaping removes every control character. */
  lemma LinesHaveNoBreak(fs: seq<Field>)
    ensures forall i :: 0 <= i < |fs| ==> '\n' !in Lines(fs)[i]
  {
    forall i | 0 <= i < |fs| ensures '\n' !in Lines(fs)[i] {
      var l := Lines(fs)[i];
      assert forall k :: 0 <= k < |l| ==> l[k] as int >= 0x20;
    }
  }

  /** The payload text of at least one property is its lines joined by line breaks, and splits back into them. */
  lemma TextLines(fs: seq<Field>)
    requires fs != []
    ensures PayloadText(fs) == Join(Lines(fs), "\n")
    ensures Split(PayloadText(fs), '\n') == Lines(fs)
  {
    var body := "  " + Join(Members(fs), ",\n  ");
    BraceRegroup(Join(Members(fs), ",\n  "));
    StripBraces(body);
    IndentedJoin(Members(fs));
    LinesHaveNoBreak(fs);
    SplitJoin(Lines(fs), '\n');
  }

  lemma BraceRegroup(x: string)
    ensures "{\n  " + x + "\n}" == "{\n" + ("  " + x) + "\n}"
  {
    assert "{\n  " == "{\n" + "  ";
  }

  /** Cutting the brace lines off `{`, line break, `body`, line break, `}` leaves `body`. */
  lemma StripBraces(body: string)
    ensures StripClosing(StripOpening("{\n" + body + "\n}")) == body
  {
    var whole := "{\n" + body + "\n}";
    assert whole[..2] == "{\n";
    assert whole[2..] == body + "\n}";
    assert (body + "\n}")[..|body|] == body;
  }

  /**
   * A payload with at least one defined field is exactly one line per
   * defined field, `  "key": "value"`, joined by `,` and a line break; the
   * `{` and `}` lines are gone.
   */
  lemma PayloadLines(p: AssetPayload)
    requires Fields(p) != []
    ensures BuildPayload(p) == Join(Lines(Fields(p)), "\n")
    ensures Split(BuildPayload(p), '\n') == Lines(Fields(p))
  {
    TextLines(Fields(p));
  }

  /** When every field is undefined nothing is stripped and the payload is `{}`. */
  lemma PayloadAllUndefined(p: AssetPayload)
    requires Fields(p) == []
    ensures BuildPayload(p) == "{}"
  {
    assert "{}"[..2][1] == '}';
    assert !EndsWith("{}", "\n}");
  }

  // ---------------------------------------------------------------------------
  // Reading a payload back

  /** Reads one payload line; the last line has no trailing comma. */
  function ParseLine(line: string, last: bool): Option<Field>
  {
    if |line| < 3 || line[..3] != "  \"" then None
    else match ParseString(line[3..])
      case None => None
      case Some((k, t)) =>
        if |t| < 3 || t[..3] != ": \"" then None
        else match ParseString(t[3..])
          case None => None
          case Some((v, u)) => if u == (if last then "" else ",") then Some((k, v)) else None
  }

  function ParseLines(ls: seq<string>): Option<seq<Field>>
  {
    if |ls| == 0 then Some([])
    else match ParseLine(ls[0], |ls| == 1)
      case None => None
      case Some(f) =>
        match ParseLines(ls[1..])
        case None => None
        case Some(fs) => Some([f] + fs)
  }

  /** Reads a payload back into its properties. */
  function ParsePayload(s: string): Option<seq<Field>>
  {
    if s == "{}" then Some([]) else ParseLines(Split(s, '\n'))
  }

  /** Regrouping of a line around the two escaped texts `e1` and `e2`. */
  lemma LineShape(e1: string, e2: string, c: string)
    ensures "  " + ((['"'] + e1 + ['"']) + ": " + (['"'] + e2 + ['"'])) + c
         == "  \"" + (e1 + ['"'] + (": \"" + (e2 + ['"'] + c)))
  {
  }

  lemma ParseOneLine(fs: seq<Field>, i: int)
    requires 0 <= i < |fs|
    ensures ParseLine(Lines(fs)[i], i + 1 == |fs|) == Some(fs[i])
  {
    var (k, v) := fs[i];
    var c := if i + 1 < |fs| then "," else "";
    var l := Lines(fs)[i];
    var t := ": \"" + (Escape(v) + ['"'] + c);
    assert l == "  " + ((['"'] + Escape(k) + ['"']) + ": " + (['"'] + Escape(v) + ['"'])) + c;
    LineShape(Escape(k), Escape(v), c);
    assert l == "  \"" + (Escape(k) + ['"'] + t);
    assert l[..3] == "  \"";
    assert l[3..] == Escape(k) + ['"'] + t;
    ParseEscaped(k, t);
    assert t[..3] == ": \"";
    assert t[3..] == Escape(v) + ['"'] + c;
    ParseEscaped(v, c);
  }

  lemma {:induction false} ParseAllLines(fs: seq<Field>)
    ensures ParseLines(Lines(fs)) == Some(fs)
  {
    if |fs| > 0 {
      var ls := Lines(fs);
      assert ParseLine(ls[0], |ls| == 1) == Some(fs[0]) by {
        ParseOneLine(fs, 0);
      }
      assert ParseLines(ls[1..]) == Some(fs[1..]) by {
        LinesTail(fs);
        ParseAllLines(fs[1..]);
      }
      assert [fs[0]] + fs[1..] == fs;
    }
  }

  /** The lines after the first are the lines of the remaining properties. */
  lemma LinesTail(fs: seq<Field>)
    requires |fs| >= 1
    ensures Lines(fs)[1..] == Lines(fs[1..])
  {
    var ms := Members(fs);
    assert ms[1..] == Members(fs[1..]);
    assert Indented(ms)[1..] == Indented(ms[1..]);
  }

  /** The payload determines its properties: reading it back gives exactly the defined fields, trimmed, in key order. */
  lemma PayloadRoundTrip(p: AssetPayload)
    ensures ParsePayload(BuildPayload(p)) == Some(Fields(p))
  {
    var fs := Fields(p);
    if fs == [] {
      PayloadAllUndefined(p);
    } else {
      PayloadLines(p);
      var s := BuildPayload(p);
      assert Lines(fs)[0][0] == ' ';
      assert s != "{}" by {
        var ls := Lines(fs);
        if |ls| == 1 {
          assert s == ls[0];
        } else {
          assert s == ls[0] + "\n" + Join(ls[1..], "\n");
        }
        assert s[0] == ' ';
      }
      ParseAllLines(fs);
    }
  }
}
