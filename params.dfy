// Request composition shared by the tools: dictionaries filled by a
// sequence of conditional assignments (`if cond: params[key] = value`),
// query strings `"&".join(f"{k}={v}" ...)`, and the `%2C` encoding of
// commas in id lists.

module Params {
  import opened Values
  import opened Text
  import opened Mech

  /** One conditional assignment `if on: d[key] = value`. */
  datatype Field<V> = Field(key: string, on: bool, value: V)

  /**
   * The assignments a builder makes, in source order; `Add` appends the
   * next one. Every builder in the tools assigns each key at most once, so
   * every assignment that happens adds a new entry at the end of the
   * (insertion-ordered) dictionary.
   */
  datatype Fields<V> = NoFields | Then(before: Fields<V>, last: Field<V>)
  {
    function Add(f: Field<V>): Fields<V>
    {
      Then(this, f)
    }
  }

  /** `params[key] = value`. */
  function Always<V>(key: string, value: V): Field<V>
  {
    Field(key, true, value)
  }

  /** `if value: params[key] = value`. */
  function IfTruthy(key: string, value: Value): Field<Value>
  {
    Field(key, Truthy(value), value)
  }

  /** `if value is not None: params[key] = value`. */
  function IfNotNone(key: string, value: Value): Field<Value>
  {
    Field(key, value != NoneV, value)
  }

  /** The assignment as executed: the entry it adds, if any. */
  function Entry<V>(f: Field<V>): seq<(string, V)>
  {
    if f.on then [(f.key, f.value)] else []
  }

  /** The dictionary after all the assignments, as its ordered list of entries. */
  function Present<V>(fs: Fields<V>): seq<(string, V)>
  {
    match fs
    case NoFields => []
    case Then(before, f) => Present(before) + Entry(f)
  }

  /** Every assignment of the builder, taken or not, in order. */
  function Candidates<V>(fs: Fields<V>): seq<Field<V>>
  {
    match fs
    case NoFields => []
    case Then(before, f) => Candidates(before) + [f]
  }

  function PairsOf<V>(cs: seq<Field<V>>): (r: seq<(string, V)>)
    ensures |r| == |cs|
    ensures forall i :: 0 <= i < |cs| ==> r[i] == (cs[i].key, cs[i].value)
  {
    if cs == [] then [] else PairsOf(cs[..|cs| - 1]) + [(cs[|cs| - 1].key, cs[|cs| - 1].value)]
  }

  /** `a` is `b` with some elements left out, the rest in the same order. */
  predicate Subsequence<T(==)>(a: seq<T>, b: seq<T>)
    decreases |b|
  {
    a == [] ||
    (b != [] &&
      ((a[|a| - 1] == b[|b| - 1] && Subsequence(a[..|a| - 1], b[..|b| - 1])) ||
       Subsequence(a, b[..|b| - 1])))
  }

  /**
   * `if cond: d[key] = value` on the dictionary built so far; the ghost
   * result is the assignment list extended by this one.
   */
  method Put<V>(ghost fs: Fields<V>, d: seq<(string, V)>, f: Field<V>) returns (d': seq<(string, V)>, ghost fs': Fields<V>)
    requires d == Present(fs)
    ensures d' == Present(fs.Add(f))
    ensures fs' == fs.Add(f) && d' == Present(fs')
  {
    fs' := fs.Add(f);
    if f.on {
      d' := d + [(f.key, f.value)];
    } else {
      d' := d;
    }
  }

  /** An assignment whose condition holds adds its entry. */
  lemma {:induction false} TakenIsPresent<V>(fs: Fields<V>, f: Field<V>)
    requires f in Candidates(fs) && f.on
    ensures (f.key, f.value) in Present(fs)
  {
    match fs
    case NoFields =>
    case Then(before, g) =>
      if f != g {
        assert f in Candidates(before);
        TakenIsPresent(before, f);
      }
  }

  /** Every entry comes from an assignment whose condition holds. */
  lemma {:induction false} PresentIsTaken<V>(fs: Fields<V>, p: (string, V))
    requires p in Present(fs)
    ensures exists f :: f in Candidates(fs) && f.on && p == (f.key, f.value)
  {
    match fs
    case NoFields =>
    case Then(before, g) =>
      if p in Present(before) {
        PresentIsTaken(before, p);
        var f :| f in Candidates(before) && f.on && p == (f.key, f.value);
        assert f in Candidates(fs);
      } else {
        assert g in Candidates(fs);
      }
  }

  lemma DropLast<T>(a: seq<T>, x: T)
    ensures (a + [x])[..|a|] == a && (a + [x])[|a|] == x
  {
  }

  /** The entries keep the order of the assignments that added them. */
  lemma {:induction false} PresentInOrder<V>(fs: Fields<V>)
    ensures Subsequence(Present(fs), PairsOf(Candidates(fs)))
  {
    match fs
    case NoFields =>
    case Then(before, f) =>
      PresentInOrder(before);
      var a, b := Present(before), PairsOf(Candidates(before));
      var cs := Candidates(before) + [f];
      assert cs[..|cs| - 1] == Candidates(before);
      assert PairsOf(cs) == b + [(f.key, f.value)];
      DropLast(b, (f.key, f.value));
      if f.on {
        DropLast(a, (f.key, f.value));
      } else {
        assert Present(fs) == a;
      }
  }

  // ---- payloads holding exactly the truthy fields ----

  /** The pairs whose value is truthy, in their order. */
  function KeepTruthy(ps: seq<(string, Value)>): seq<(string, Value)>
  {
    if ps == [] then []
    else KeepTruthy(ps[..|ps| - 1]) + (if Truthy(ps[|ps| - 1].1) then [ps[|ps| - 1]] else [])
  }

  /** A pair is kept exactly when it is one of the pairs and its value is truthy. */
  lemma {:induction false} KeepTruthyMembers(ps: seq<(string, Value)>, p: (string, Value))
    ensures p in KeepTruthy(ps) <==> p in ps && Truthy(p.1)
  {
    if ps != [] {
      var init := ps[..|ps| - 1];
      KeepTruthyMembers(init, p);
      assert ps == init + [ps[|ps| - 1]];
    }
  }

  /** The kept pairs are in the order of the pairs they come from. */
  lemma {:induction false} KeepTruthyInOrder(ps: seq<(string, Value)>)
    ensures Subsequence(KeepTruthy(ps), ps)
  {
    if ps != [] {
      var init, x := ps[..|ps| - 1], ps[|ps| - 1];
      KeepTruthyInOrder(init);
      if Truthy(x.1) {
        DropLast(KeepTruthy(init), x);
      } else {
        assert KeepTruthy(ps) == KeepTruthy(init);
        SubsequenceOfPrefix(KeepTruthy(init), init, x);
      }
    }
  }

  /** A subsequence of `b` is one of `b + [x]`. */
  lemma SubsequenceOfPrefix<T>(a: seq<T>, b: seq<T>, x: T)
    requires Subsequence(a, b)
    ensures Subsequence(a, b + [x])
  {
    DropLast(b, x);
  }

  /**
   * `if value: payload[key] = value` on the payload built so far from the
   * pairs `ps`.
   */
  method PutIfTruthy(ghost ps: seq<(string, Value)>, d: seq<(string, Value)>, key: string, value: Value)
    returns (d': seq<(string, Value)>, ghost ps': seq<(string, Value)>)
    requires d == KeepTruthy(ps)
    ensures d' == KeepTruthy(ps + [(key, value)])
    ensures ps' == ps + [(key, value)] && d' == KeepTruthy(ps')
  {
    ps' := ps + [(key, value)];
    assert ps'[..|ps'| - 1] == ps;
    if Truthy(value) {
      d' := d + [(key, value)];
    } else {
      d' := d;
    }
  }

  // ---- query strings ----

  /** `f"{k}={v}"`. */
  function Render(p: (string, Value)): string
  {
    p.0 + "=" + Str(p.1)
  }

  function RenderAll(ps: seq<(string, Value)>): (r: seq<string>)
    ensures |r| == |ps|
    ensures forall i :: 0 <= i < |ps| ==> r[i] == Render(ps[i])
  {
    if ps == [] then [] else RenderAll(ps[..|ps| - 1]) + [Render(ps[|ps| - 1])]
  }

  /** `"&".join(f"{k}={v}" for k, v in params.items())`. */
  function Query(ps: seq<(string, Value)>): string
  {
    Join(RenderAll(ps), "&")
  }

  /** `f"{base_url}?" + query`. */
  function Endpoint(base: string, ps: seq<(string, Value)>): string
  {
    base + "?" + Query(ps)
  }

  /** The pairs as a server reads them back: split at `&`, then at the first `=`. */
  function ParseQuery(q: string): seq<(string, string)>
  {
    if q == "" then [] else ParsePairs(Split(q, '&'))
  }

  function ParsePair(p: string): (string, string)
  {
    var i := IndexOf(p, '=');
    if i == |p| then (p, "") else (p[..i], p[i + 1..])
  }

  function ParsePairs(ps: seq<string>): (r: seq<(string, string)>)
    ensures |r| == |ps|
    ensures forall i :: 0 <= i < |ps| ==> r[i] == ParsePair(ps[i])
  {
    if ps == [] then [] else [ParsePair(ps[0])] + ParsePairs(ps[1..])
  }

  /** Each parameter with its value as interpolated. */
  function Texts(ps: seq<(string, Value)>): (r: seq<(string, string)>)
    ensures |r| == |ps|
    ensures forall i :: 0 <= i < |ps| ==> r[i] == (ps[i].0, Str(ps[i].1))
  {
    if ps == [] then [] else Texts(ps[..|ps| - 1]) + [(ps[|ps| - 1].0, Str(ps[|ps| - 1].1))]
  }

  /** Keys and values that the query syntax can carry unambiguously. */
  predicate Separable(ps: seq<(string, Value)>)
  {
    forall i :: 0 <= i < |ps| ==> '&' !in ps[i].0 && '=' !in ps[i].0 && '&' !in Str(ps[i].1)
  }

  lemma ParseRendered(k: string, v: string)
    requires '=' !in k
    ensures ParsePair(k + "=" + v) == (k, v)
  {
    var p := k + "=" + v;
    IndexOfPrefix(k, '=', v);
    assert p == k + ['='] + v;
    assert p[..|k|] == k && p[|k| + 1..] == v;
  }

  lemma RenderedNoAmp(p: (string, Value))
    requires '&' !in p.0 && '&' !in Str(p.1)
    ensures '&' !in Render(p)
  {
  }

  /**
   * Reading the query back gives the parameters in order, with their
   * values as interpolated, when no key holds `&` or `=` and no value
   * holds `&`.
   */
  lemma QueryRoundTrip(ps: seq<(string, Value)>)
    requires Separable(ps)
    ensures ParseQuery(Query(ps)) == Texts(ps)
  {
    if ps != [] {
      var parts := RenderAll(ps);
      forall i | 0 <= i < |parts| ensures '&' !in parts[i] {
        RenderedNoAmp(ps[i]);
      }
      SplitJoin(parts, '&');
      assert Query(ps) != "" by {
        assert |Render(ps[0])| >= 1;
        if |parts| > 1 {
          assert Query(ps) == parts[0] + "&" + Join(parts[1..], "&");
        }
      }
      var back := ParsePairs(parts);
      forall i | 0 <= i < |ps| ensures back[i] == (ps[i].0, Str(ps[i].1)) {
        ParseRendered(ps[i].0, Str(ps[i].1));
      }
    }
  }

  /** Appending `f"&{k}={v}"` to a URL that already has parameters adds one parameter at the end. */
  lemma EndpointSnoc(base: string, ps: seq<(string, Value)>, p: (string, Value))
    requires ps != []
    ensures Endpoint(base, ps + [p]) == Endpoint(base, ps) + "&" + p.0 + "=" + Str(p.1)
  {
    assert (ps + [p])[..|ps|] == ps;
    JoinSnoc(RenderAll(ps), "&", Render(p));
  }

  /** A URL with a single parameter. */
  lemma EndpointOne(base: string, p: (string, Value))
    ensures Endpoint(base, [p]) == base + "?" + p.0 + "=" + Str(p.1)
  {
    assert RenderAll([p]) == [Render(p)] by {
      assert [p][..0] == [];
    }
  }

  /** Each assignment adds its own entry after those before it. */
  lemma PresentAdd<V>(fs: Fields<V>, f: Field<V>)
    ensures Present(fs.Add(f)) == Present(fs) + Entry(f)
  {
  }

  /** `url = f"{url}&{key}={value}"` when the condition holds. */
  method Extend(ghost fs: Fields<Value>, base: string, url: string, f: Field<Value>) returns (url': string, ghost fs': Fields<Value>)
    requires Present(fs) != [] && url == Endpoint(base, Present(fs))
    ensures url' == Endpoint(base, Present(fs.Add(f)))
    ensures fs' == fs.Add(f) && url' == Endpoint(base, Present(fs'))
  {
    fs' := fs.Add(f);
    if f.on {
      assert Present(fs') == Present(fs) + [(f.key, f.value)];
      EndpointSnoc(base, Present(fs), (f.key, f.value));
      url' := url + "&" + f.key + "=" + Str(f.value);
    } else {
      assert Present(fs') == Present(fs);
      url' := url;
    }
  }

  // ---- commas in id lists ----

  /** `s.replace(",", "%2C")`. */
  function EncodeCommas(s: string): string
  {
    if s == [] then [] else (if s[0] == ',' then "%2C" else [s[0]]) + EncodeCommas(s[1..])
  }

  /** Turns every `%2C` back into a comma. */
  function DecodeCommas(s: string): string
  {
    if s == [] then []
    else if |s| >= 3 && s[..3] == "%2C" then "," + DecodeCommas(s[3..])
    else [s[0]] + DecodeCommas(s[1..])
  }

  /** The encoding removes every comma and, on text without `%`, can be undone. */
  lemma {:induction false} EncodeCommasRoundTrip(s: string)
    ensures ',' !in EncodeCommas(s)
    ensures '%' !in s ==> DecodeCommas(EncodeCommas(s)) == s
  {
    if s != [] {
      EncodeCommasRoundTrip(s[1..]);
      var rest := EncodeCommas(s[1..]);
      if s[0] == ',' {
        assert ("%2C" + rest)[..3] == "%2C" && ("%2C" + rest)[3..] == rest;
      } else if '%' !in s {
        assert ([s[0]] + rest)[1..] == rest;
      }
    }
  }

  /** Text without commas is left as it is. */
  lemma {:induction false} EncodeWithoutCommas(s: string)
    ensures ',' !in s ==> EncodeCommas(s) == s
  {
    if s != [] && ',' !in s {
      EncodeWithoutCommas(s[1..]);
    }
  }

  /**
   * `v.replace(",", "%2C")`, which only a `str` supports: the text comes
   * back without commas, unchanged when it had none, and decodable when it
   * has no `%`; any other value raises AttributeError.
   */
  function ReplaceCommas(v: Value): (r: Result<Value>)
    ensures r.Ok? <==> v.StrV?
    ensures r.Ok? ==> r.value.StrV? && ',' !in r.value.s
    ensures r.Ok? && ',' !in v.s ==> r.value == v
    ensures r.Ok? && '%' !in v.s ==> DecodeCommas(r.value.s) == v.s
    ensures r.Err? ==> r.error == AttributeError(v, "replace")
  {
    if v.StrV? then
      EncodeCommasRoundTrip(v.s);
      EncodeWithoutCommas(v.s);
      Ok(StrV(EncodeCommas(v.s)))
    else Err(AttributeError(v, "replace"))
  }
}
