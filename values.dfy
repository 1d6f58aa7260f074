// The Python values that flow through a tool's keyword arguments, with the
// three conversions the tools apply to them: truthiness (`if x:`),
// `str(x)` / f-string interpolation, and `repr(x)` / `{x!r}`.

module Values {
  import opened Text

  datatype Option<T> = None | Some(value: T)

  /**
   * A keyword-argument value. `ObjV` stands for the other values a JSON
   * request can carry (dicts, lists, floats): its type name, its `str` and
   * `repr` renderings, its truthiness and whether it can be a dictionary
   * key are carried along rather than computed. None of these types has a
   * `lower` or a `replace` method.
   */
  datatype Value =
    | NoneV
    | BoolV(b: bool)
    | IntV(i: int)
    | StrV(s: string)
    | ObjV(typeName: string, text: string, repr: string, truthy: bool, hashable: bool)

  /** The keyword arguments of one call, by name. */
  type Kwargs = map<string, Value>

  /** `kwargs.get(key, default)`. */
  function Get(kw: Kwargs, key: string, default: Value): Value
  {
    if key in kw then kw[key] else default
  }

  /** Python truthiness. */
  predicate Truthy(v: Value)
  {
    match v
    case NoneV => false
    case BoolV(b) => b
    case IntV(i) => i != 0
    case StrV(s) => s != ""
    case ObjV(_, _, _, truthy, _) => truthy
  }

  /** Whether the value can be looked up in a dictionary. */
  predicate Hashable(v: Value)
  {
    !v.ObjV? || v.hashable
  }

  /** `type(v).__name__`. */
  function TypeName(v: Value): string
  {
    match v
    case NoneV => "NoneType"
    case BoolV(_) => "bool"
    case IntV(_) => "int"
    case StrV(_) => "str"
    case ObjV(name, _, _, _, _) => name
  }

  function BoolText(b: bool): string
  {
    if b then "True" else "False"
  }

  /** `str(v)`, which is also what an f-string interpolates. */
  function Str(v: Value): string
  {
    match v
    case NoneV => "None"
    case BoolV(b) => BoolText(b)
    case IntV(i) => IntToString(i)
    case StrV(s) => s
    case ObjV(_, text, _, _, _) => text
  }

  /** `repr(v)`, which is what `{v!r}` interpolates. */
  function Repr(v: Value): string
  {
    match v
    case StrV(s) => QuoteStr(s)
    case ObjV(_, _, repr, _, _) => repr
    case _ => Str(v)
  }

  /** `str(b).lower()`, the way boolean query parameters are rendered. */
  lemma LowerBoolText(b: bool)
    ensures Lower(BoolText(b)) == if b then "true" else "false"
  {
    if b {
      assert Lower("True") == [LowerChar('T')] + Lower("rue");
    } else {
      assert Lower("False") == [LowerChar('F')] + Lower("alse");
    }
  }

  // ---- repr of a str ----

  /** The quote `repr` chooses: double quotes only when the text has a single quote and no double quote. */
  function QuoteChar(s: string): char
  {
    if '\'' in s && '"' !in s then '"' else '\''
  }

  function HexDigit(d: nat): char
    requires d < 16
  {
    if d < 10 then ('0' as int + d) as char else ('a' as int + d - 10) as char
  }

  /** Characters below U+0100 that `repr` writes as `\xNN`. */
  predicate HexEscaped(c: char)
  {
    c as int < 0x20 || (0x7f <= c as int <= 0xa0) || c as int == 0xad
  }

  function EscapeChar(c: char, q: char): string
  {
    if c == '\\' then "\\\\"
    else if c == q then ['\\', c]
    else if c == '\t' then "\\t"
    else if c == '\n' then "\\n"
    else if c == '\r' then "\\r"
    else if HexEscaped(c) then "\\x" + [HexDigit(c as int / 16), HexDigit(c as int % 16)]
    else [c]
  }

  function EscapeAll(s: string, q: char): string
  {
    if s == [] then "" else EscapeChar(s[0], q) + EscapeAll(s[1..], q)
  }

  /** `repr(s)` for a `str`. */
  function QuoteStr(s: string): string
  {
    var q := QuoteChar(s);
    [q] + EscapeAll(s, q) + [q]
  }

  /**
   * A name that `repr` wraps in single quotes unchanged and that a comma
   * can delimit: printable ASCII without quote, backslash or comma.
   */
  predicate Plain(s: string)
  {
    forall i :: 0 <= i < |s| ==> ' ' <= s[i] <= '~' && s[i] != '\'' && s[i] != '\\' && s[i] != ','
  }

  lemma {:induction false} EscapePlain(s: string)
    requires Plain(s)
    ensures EscapeAll(s, '\'') == s
  {
    if s != [] {
      EscapePlain(s[1..]);
    }
  }

  /** Lower-case letters and underscores only, as in Python identifiers such as `get_all_charges`. */
  predicate Identifier(s: string)
  {
    forall i :: 0 <= i < |s| ==> s[i] == '_' || 'a' <= s[i] <= 'z'
  }

  lemma IdentifierIsPlain(s: string)
    requires Identifier(s)
    ensures Plain(s)
  {
  }

  /** Two identifiers joined are an identifier. */
  lemma IdentifierConcat(a: string, b: string)
    requires Identifier(a) && Identifier(b)
    ensures Identifier(a + b)
  {
    forall i | 0 <= i < |a + b| ensures (a + b)[i] == '_' || 'a' <= (a + b)[i] <= 'z' {
      if i >= |a| {
        assert (a + b)[i] == b[i - |a|];
      }
    }
  }

  lemma QuotePlain(s: string)
    requires Plain(s)
    ensures QuoteStr(s) == "'" + s + "'"
  {
    EscapePlain(s);
  }

  // ---- repr of a tuple of str ----

  function QuoteAll(ks: seq<string>): (r: seq<string>)
    ensures |r| == |ks|
    ensures forall i :: 0 <= i < |ks| ==> r[i] == QuoteStr(ks[i])
  {
    if ks == [] then [] else [QuoteStr(ks[0])] + QuoteAll(ks[1..])
  }

  /** `str(tuple(ks))` for a tuple of strings, as an f-string renders `tuple(d.keys())`. */
  function TupleRepr(ks: seq<string>): string
  {
    if ks == [] then "()"
    else if |ks| == 1 then "(" + QuoteStr(ks[0]) + ",)"
    else "(" + Join(QuoteAll(ks), ", ") + ")"
  }

  /** Recovers the names listed by `TupleRepr`: drops the parentheses, splits at commas, unquotes. */
  function ParseTupleRepr(s: string): seq<string>
  {
    if |s| < 2 || s[0] != '(' || s[|s| - 1] != ')' then []
    else
      var inner := s[1..|s| - 1];
      if inner == "" then [] else UnquoteAll(Items(inner))
  }

  /** One listed item: an optional leading blank, then a single-quoted name. */
  function Unquote(p: string): string
  {
    var p := if p != [] && p[0] == ' ' then p[1..] else p;
    if |p| >= 2 then p[1..|p| - 1] else p
  }

  function UnquoteAll(ps: seq<string>): (r: seq<string>)
    ensures |r| == |ps|
    ensures forall i :: 0 <= i < |ps| ==> r[i] == Unquote(ps[i])
  {
    if ps == [] then [] else [Unquote(ps[0])] + UnquoteAll(ps[1..])
  }

  /** Every item but the first, with a blank in front. */
  function Spaced(ps: seq<string>): (r: seq<string>)
    ensures |r| == |ps|
    ensures |ps| > 0 ==> r[0] == ps[0]
    ensures forall i :: 0 < i < |ps| ==> r[i] == " " + ps[i]
  {
    if ps == [] then [] else [ps[0]] + seq(|ps| - 1, i requires 0 <= i < |ps| - 1 => " " + ps[i + 1])
  }

  lemma BlankBeforeJoin(x: string, ys: seq<string>)
    ensures " " + Join([x] + ys, ",") == Join([" " + x] + ys, ",")
  {
    if ys != [] {
      assert ([x] + ys)[1..] == ys;
      assert ([" " + x] + ys)[1..] == ys;
    }
  }

  /** Joining with ", " is joining with "," after a blank is put in front of every later item. */
  lemma {:induction false} JoinCommaBlank(ps: seq<string>)
    requires |ps| >= 1
    ensures Join(ps, ", ") == Join(Spaced(ps), ",")
  {
    if |ps| > 1 {
      var rest := ps[1..];
      JoinCommaBlank(rest);
      var tail := Spaced(rest)[1..];
      assert Spaced(rest) == [rest[0]] + tail;
      assert Spaced(ps)[1..] == [" " + rest[0]] + tail;
      BlankBeforeJoin(rest[0], tail);
    }
  }

  /** The comma-separated pieces of a listing, without the empty piece after a trailing comma. */
  function Items(inner: string): seq<string>
  {
    var pieces := Split(inner, ',');
    if pieces[|pieces| - 1] == "" then pieces[..|pieces| - 1] else pieces
  }

  lemma ParseParenthesised(inner: string)
    requires inner != ""
    ensures ParseTupleRepr("(" + inner + ")") == UnquoteAll(Items(inner))
  {
    var s := "(" + inner + ")";
    assert |s| == |inner| + 2 && s[0] == '(' && s[|s| - 1] == ')';
    assert s[1..|s| - 1] == inner;
  }

  lemma UnquoteQuoted(k: string)
    ensures Unquote("'" + k + "'") == k
    ensures Unquote(" " + ("'" + k + "'")) == k
  {
    var q := "'" + k + "'";
    assert q[1..|q| - 1] == k;
    assert (" " + q)[1..] == q;
  }

  lemma ListingOne(k: string)
    requires Plain(k)
    ensures ParseTupleRepr(TupleRepr([k])) == [k]
  {
    QuotePlain(k);
    var q := "'" + k + "'";
    assert TupleRepr([k]) == "(" + (q + ",") + ")";
    assert q + "," == q + [','] + "";
    SplitCons(q, ',', "");
    assert Split("", ',') == [""];
    assert Items(q + ",") == [q];
    ParseParenthesised(q + ",");
    UnquoteQuoted(k);
  }

  lemma {:induction false} QuoteAllPlain(ks: seq<string>)
    requires forall i :: 0 <= i < |ks| ==> Plain(ks[i])
    ensures forall i :: 0 <= i < |ks| ==> QuoteAll(ks)[i] == "'" + ks[i] + "'"
  {
    forall i | 0 <= i < |ks| ensures QuoteAll(ks)[i] == "'" + ks[i] + "'" {
      QuotePlain(ks[i]);
    }
  }

  lemma NoCommaQuoted(k: string)
    requires Plain(k)
    ensures ',' !in "'" + k + "'"
    ensures ',' !in " " + ("'" + k + "'")
  {
    assert forall j :: 0 <= j < |k| ==> k[j] != ',';
  }

  /** What `Spaced(QuoteAll(ks))` holds at each index, for ks of plain names. */
  lemma SpacedAt(ks: seq<string>, i: nat)
    requires forall j :: 0 <= j < |ks| ==> Plain(ks[j])
    requires i < |ks|
    ensures Spaced(QuoteAll(ks))[i] == if i == 0 then "'" + ks[i] + "'" else " " + ("'" + ks[i] + "'")
  {
    QuotePlain(ks[i]);
  }

  lemma UnquoteAt(ks: seq<string>, i: nat)
    requires forall j :: 0 <= j < |ks| ==> Plain(ks[j])
    requires i < |ks|
    ensures Unquote(Spaced(QuoteAll(ks))[i]) == ks[i]
  {
    SpacedAt(ks, i);
    UnquoteQuoted(ks[i]);
  }

  lemma UnquoteSpaced(ks: seq<string>)
    requires forall i :: 0 <= i < |ks| ==> Plain(ks[i])
    ensures UnquoteAll(Spaced(QuoteAll(ks))) == ks
  {
    var pieces := Spaced(QuoteAll(ks));
    var back := UnquoteAll(pieces);
    forall i | 0 <= i < |ks| ensures back[i] == ks[i] {
      UnquoteAt(ks, i);
    }
  }

  lemma SpacedNoComma(ks: seq<string>)
    requires forall i :: 0 <= i < |ks| ==> Plain(ks[i])
    ensures forall i :: 0 <= i < |ks| ==> ',' !in Spaced(QuoteAll(ks))[i]
    ensures |ks| > 0 ==> Spaced(QuoteAll(ks))[|ks| - 1] != ""
  {
    forall i | 0 <= i < |ks| ensures ',' !in Spaced(QuoteAll(ks))[i] {
      SpacedAt(ks, i);
      NoCommaQuoted(ks[i]);
    }
    if |ks| > 0 {
      SpacedAt(ks, |ks| - 1);
    }
  }

  lemma ListingMany(ks: seq<string>)
    requires |ks| >= 2
    requires forall i :: 0 <= i < |ks| ==> Plain(ks[i])
    ensures ParseTupleRepr(TupleRepr(ks)) == ks
  {
    var qs := QuoteAll(ks);
    var pieces := Spaced(qs);
    SpacedNoComma(ks);
    JoinCommaBlank(qs);
    SplitJoin(pieces, ',');
    var inner := Join(qs, ", ");
    assert inner != "" by {
      QuoteAllPlain(ks);
      assert inner == qs[0] + ", " + Join(qs[1..], ", ");
    }
    assert Items(inner) == pieces;
    ParseParenthesised(inner);
    UnquoteSpaced(ks);
    assert TupleRepr(ks) == "(" + inner + ")";
  }

  /**
   * The listing in the "not in supported" messages names every registered
   * name in registry order: parsing it back gives the registry.
   */
  lemma ListingRoundTrip(ks: seq<string>)
    requires forall i :: 0 <= i < |ks| ==> Plain(ks[i])
    ensures ParseTupleRepr(TupleRepr(ks)) == ks
  {
    if |ks| == 1 {
      ListingOne(ks[0]);
      assert [ks[0]] == ks;
    } else if |ks| >= 2 {
      ListingMany(ks);
    }
  }
}
