/** Query strings as the controllers build them: `name=value` entries with
    the value inserted verbatim (no percent-encoding), joined with `&` behind
    a single `?`. Also the inverse reading, `ParseQuery` (split at `&`, then
    at the first `=`, with no decoding), used to state round trips. */
module QueryString {
  import opened Json

  /** `req.query`, one string per key. */
  type Query = map<string, string>

  /** `if (req.query[name])`: the parameter is there and is not `""`. */
  predicate Present(q: Query, name: string)
  {
    Truthy(if name in q then Some(Str(q[name])) else None)
  }

  lemma PresentMeansNonEmpty(q: Query, name: string)
    ensures Present(q, name) <==> name in q && q[name] != ""
  {
  }

  /** One forwarded query parameter. */
  datatype Param = Param(name: string, value: string)

  /** `${name}=${value}`, with no encoding of either part. */
  function Render(p: Param): string
  {
    p.name + "=" + p.value
  }

  function Renders(ps: seq<Param>): (r: seq<string>)
    ensures |r| == |ps|
    ensures forall i :: 0 <= i < |ps| ==> r[i] == Render(ps[i])
  {
    if ps == [] then [] else [Render(ps[0])] + Renders(ps[1..])
  }

  lemma RendersConcat(a: seq<Param>, b: seq<Param>)
    ensures Renders(a + b) == Renders(a) + Renders(b)
  {
  }

  /** Pushing the entry `name=value`, written with `name=` as one literal
      `lit`, renders one more parameter. */
  lemma RendersPush(ps: seq<Param>, p: Param, lit: string)
    requires lit == p.name + "="
    ensures Renders(ps + [p]) == Renders(ps) + [lit + p.value]
  {
    RendersConcat(ps, [p]);
  }

  /** `Array.prototype.join(sep)`. */
  function Join(parts: seq<string>, sep: string): string
  {
    if |parts| == 0 then ""
    else if |parts| == 1 then parts[0]
    else parts[0] + sep + Join(parts[1..], sep)
  }

  /** `String.prototype.split(c)` for a one-character separator: never an
      empty list. */
  function Split(s: string, c: char): (r: seq<string>)
    ensures |r| >= 1
  {
    if s == [] then [""]
    else
      var rest := Split(s[1..], c);
      if s[0] == c then [""] + rest
      else [[s[0]] + rest[0]] + rest[1..]
  }

  /** One `name=value` entry read back: the name runs up to the first `=`
      and the value is the rest; an entry without `=` has an empty value. */
  function ParseParam(s: string): Param
  {
    if s == [] then Param("", "")
    else if s[0] == '=' then Param("", s[1..])
    else
      var p := ParseParam(s[1..]);
      Param([s[0]] + p.name, p.value)
  }

  function ParseParams(entries: seq<string>): (ps: seq<Param>)
    ensures |ps| == |entries|
  {
    if entries == [] then [] else [ParseParam(entries[0])] + ParseParams(entries[1..])
  }

  /** A query string (the text after `?`) read back into its entries. */
  function ParseQuery(qs: string): seq<Param>
  {
    ParseParams(Split(qs, '&'))
  }

  /** What the controllers append to a URL: nothing when no parameter is
      forwarded, otherwise `?` and the `&`-join of the rendered entries. */
  function Suffix(ps: seq<Param>): string
  {
    if ps == [] then "" else "?" + Join(Renders(ps), "&")
  }

  /** An entry that reads back as itself: its name holds neither `=` nor `&`
      and its value holds no `&`. Nothing in the controllers enforces this. */
  predicate Separable(p: Param)
  {
    '=' !in p.name && '&' !in p.name && '&' !in p.value
  }

  // ---------------------------------------------------------------------
  // Join and Split are inverse on pieces free of the separator.

  lemma {:induction false} SplitWithoutSeparator(a: string, c: char)
    requires c !in a
    ensures Split(a, c) == [a]
  {
    if a != [] {
      SplitWithoutSeparator(a[1..], c);
      assert [a[0]] + a[1..] == a;
    }
  }

  lemma {:induction false} SplitAtFirstSeparator(a: string, b: string, c: char)
    requires c !in a
    ensures Split(a + [c] + b, c) == [a] + Split(b, c)
  {
    var s := a + [c] + b;
    if a == [] {
      assert s[1..] == b;
    } else {
      assert s[1..] == a[1..] + [c] + b;
      SplitAtFirstSeparator(a[1..], b, c);
      assert [a[0]] + a[1..] == a;
    }
  }

  lemma {:induction false} SplitJoin(parts: seq<string>, c: char)
    requires |parts| > 0
    requires forall i :: 0 <= i < |parts| ==> c !in parts[i]
    ensures Split(Join(parts, [c]), c) == parts
  {
    if |parts| == 1 {
      SplitWithoutSeparator(parts[0], c);
    } else {
      SplitAtFirstSeparator(parts[0], Join(parts[1..], [c]), c);
      SplitJoin(parts[1..], c);
      assert [parts[0]] + parts[1..] == parts;
    }
  }

  lemma {:induction false} JoinAvoids(parts: seq<string>, sep: string, c: char)
    requires c !in sep
    requires forall i :: 0 <= i < |parts| ==> c !in parts[i]
    ensures c !in Join(parts, sep)
  {
    if |parts| > 1 {
      JoinAvoids(parts[1..], sep, c);
    }
  }

  lemma {:induction false} ParseRender(p: Param)
    requires '=' !in p.name
    ensures ParseParam(Render(p)) == p
    decreases |p.name|
  {
    var s := Render(p);
    if p.name == [] {
      assert s == ['='] + p.value;
      assert s[1..] == p.value;
    } else {
      assert s[1..] == Render(Param(p.name[1..], p.value));
      ParseRender(Param(p.name[1..], p.value));
      assert [p.name[0]] + p.name[1..] == p.name;
    }
  }

  lemma {:induction false} ParseRenders(ps: seq<Param>)
    requires forall i :: 0 <= i < |ps| ==> '=' !in ps[i].name
    ensures ParseParams(Renders(ps)) == ps
  {
    if ps != [] {
      ParseRender(ps[0]);
      ParseRenders(ps[1..]);
      assert Renders(ps)[1..] == Renders(ps[1..]);
      assert [ps[0]] + ps[1..] == ps;
    }
  }

  /** `ParseQuery` reads back exactly the forwarded entries, in order, each
      once and verbatim, provided no name or value carries a separator. */
  lemma SuffixRoundTrip(ps: seq<Param>)
    requires ps != []
    requires forall i :: 0 <= i < |ps| ==> Separable(ps[i])
    ensures Suffix(ps) == "?" + Join(Renders(ps), "&")
    ensures ParseQuery(Join(Renders(ps), "&")) == ps
  {
    var parts := Renders(ps);
    forall i | 0 <= i < |parts|
      ensures '&' !in parts[i]
    {
      assert parts[i] == ps[i].name + "=" + ps[i].value;
    }
    SplitJoin(parts, '&');
    ParseRenders(ps);
  }

  /** How many times `c` occurs in `s`. */
  function Occurrences(s: string, c: char): (n: nat)
    ensures n == 0 <==> c !in s
    ensures n <= |s|
  {
    if s == [] then 0 else (if s[0] == c then 1 else 0) + Occurrences(s[1..], c)
  }

  lemma {:induction false} OccurrencesAppend(a: string, b: string, c: char)
    ensures Occurrences(a + b, c) == Occurrences(a, c) + Occurrences(b, c)
  {
    if a == [] {
      assert a + b == b;
    } else {
      assert (a + b)[0] == a[0];
      assert (a + b)[1..] == a[1..] + b;
      OccurrencesAppend(a[1..], b, c);
    }
  }

  /** A suffix contributes no `?` when nothing is forwarded and exactly one
      otherwise, as long as no name or value carries a `?` of its own. */
  lemma SuffixQuestionMarks(ps: seq<Param>)
    requires forall i :: 0 <= i < |ps| ==> '?' !in ps[i].name && '?' !in ps[i].value
    ensures Occurrences(Suffix(ps), '?') == if ps == [] then 0 else 1
  {
    if ps != [] {
      var parts := Renders(ps);
      forall i | 0 <= i < |parts|
        ensures '?' !in parts[i]
      {
        assert parts[i] == ps[i].name + "=" + ps[i].value;
      }
      JoinAvoids(parts, "&", '?');
      assert Suffix(ps) == "?" + Join(parts, "&");
      OccurrencesAppend("?", Join(parts, "&"), '?');
      assert Occurrences("?", '?') == 1;
    }
  }

  lemma AppendAssociates(a: string, b: string, c: string)
    ensures a + (b + c) == a + b + c
  {
  }

  lemma AppendFourAssociates(p: string, a: string, b: string, c: string, d: string)
    ensures p + (a + b + c + d) == p + a + b + c + d
  {
    AppendAssociates(p, a + b + c, d);
    AppendAssociates(p, a + b, c);
    AppendAssociates(p, a, b);
  }

  /** Appending `?` and the joined entries only when there are any is
      appending the suffix. */
  lemma AppendSuffix(prefix: string, parts: seq<string>, ps: seq<Param>)
    requires parts == Renders(ps)
    ensures (if |parts| > 0 then prefix + "?" + Join(parts, "&") else prefix) == prefix + Suffix(ps)
  {
    if |parts| > 0 {
      AppendAssociates(prefix, "?", Join(parts, "&"));
    } else {
      assert prefix + "" == prefix;
    }
  }

  /** A separator followed by one rendered entry, with the separator and
      `name=` written as one literal `lit`, as template strings write them. */
  lemma OpenEntry(open: string, name: string, value: string, lit: string)
    requires lit == open + name + "="
    ensures open + Render(Param(name, value)) == lit + value
  {
  }

  /** `?` and two entries joined with `&`, written the way hand-built
      template strings write them (`?a=${x}&b=${y}`). */
  lemma OpenTwoEntries(p1: Param, p2: Param, lit1: string, lit2: string)
    requires lit1 == "?" + p1.name + "=" && lit2 == "&" + p2.name + "="
    ensures Suffix([p1, p2]) == lit1 + p1.value + lit2 + p2.value
  {
    var a, b := Render(p1), Render(p2);
    assert Renders([p1, p2]) == [a, b];
    JoinTwo(a, b, "&");
    OpenEntry("?", p1.name, p1.value, lit1);
    OpenEntry("&", p2.name, p2.value, lit2);
    AppendAssociates("?", a + "&", b);
    AppendAssociates("?", a, "&");
    AppendAssociates("?" + a, "&", b);
    AppendAssociates(lit1 + p1.value, lit2, p2.value);
  }

  /** `?` and one entry (`?a=${x}`). */
  lemma OpenOneEntry(p: Param, lit: string)
    requires lit == "?" + p.name + "="
    ensures Suffix([p]) == lit + p.value
  {
    assert Renders([p]) == [Render(p)];
    OpenEntry("?", p.name, p.value, lit);
  }

  /** Behind the `?` of a suffixed URL `ParseQuery` reads back the forwarded
      entries, as long as they are separable. */
  lemma SuffixedUrlReadBack(prefix: string, ps: seq<Param>)
    requires ps != []
    requires forall i :: 0 <= i < |ps| ==> Separable(ps[i])
    ensures prefix + Suffix(ps) == prefix + "?" + Join(Renders(ps), "&")
    ensures ParseQuery(Join(Renders(ps), "&")) == ps
  {
    SuffixRoundTrip(ps);
    AppendAssociates(prefix, "?", Join(Renders(ps), "&"));
  }

  /** Values are not encoded: a value that itself holds `&` and a further
      `name=value` entry is read back as two entries, the second one never
      sent as a parameter of its own. */
  lemma InjectedEntry(p: Param, extra: Param)
    requires Separable(p) && Separable(extra)
    ensures ParseQuery(Render(Param(p.name, p.value + "&" + Render(extra)))) == [p, extra]
  {
    var a, b := Render(p), Render(extra);
    var s := Render(Param(p.name, p.value + "&" + b));
    assert s == a + ['&'] + b;
    assert '&' !in a && '&' !in b;
    SplitAtFirstSeparator(a, b, '&');
    SplitWithoutSeparator(b, '&');
    assert Split(s, '&') == [a, b];
    ParseRenders([p, extra]);
    assert Renders([p, extra]) == [a, b];
  }

  /** A `?`-free prefix and a suffix make a URL with at most one `?`. */
  lemma SuffixedUrlQuestionMarks(url: string, prefix: string, ps: seq<Param>)
    requires url == prefix + Suffix(ps)
    requires '?' !in prefix
    requires forall i :: 0 <= i < |ps| ==> '?' !in ps[i].name && '?' !in ps[i].value
    ensures Occurrences(url, '?') == if ps == [] then 0 else 1
  {
    SuffixQuestionMarks(ps);
    OccurrencesAppend(prefix, Suffix(ps), '?');
  }

  // ---------------------------------------------------------------------
  // Forwarding a list of parameter groups.

  predicate AllPresent(names: seq<string>, q: Query)
  {
    forall i :: 0 <= i < |names| ==> Present(q, names[i])
  }

  /** The entries `name=req.query[name]` for each name, in order. */
  function Values(names: seq<string>, q: Query): (ps: seq<Param>)
    requires AllPresent(names, q)
    ensures |ps| == |names|
    ensures forall i :: 0 <= i < |ps| ==> ps[i].name == names[i] && ps[i].value == q[names[i]]
  {
    if names == [] then [] else [Param(names[0], q[names[0]])] + Values(names[1..], q)
  }

  /** The parameters forwarded from `q`: each group of names is forwarded
      as a whole, in order, when every name in it is present, and not at all
      otherwise. A group of one name is a single optional parameter; the
      cart controller's date range is a group of two. */
  function QueryParams(groups: seq<seq<string>>, q: Query): seq<Param>
  {
    if groups == [] then []
    else (if AllPresent(groups[0], q) then Values(groups[0], q) else []) + QueryParams(groups[1..], q)
  }

  /** Forwarding two lists of groups one after the other forwards the
      concatenation of what each forwards. */
  lemma {:induction false} QueryParamsConcat(g1: seq<seq<string>>, g2: seq<seq<string>>, q: Query)
    ensures QueryParams(g1 + g2, q) == QueryParams(g1, q) + QueryParams(g2, q)
  {
    if g1 == [] {
      assert g1 + g2 == g2;
    } else {
      var head := if AllPresent(g1[0], q) then Values(g1[0], q) else [];
      assert (g1 + g2)[0] == g1[0];
      assert (g1 + g2)[1..] == g1[1..] + g2;
      QueryParamsConcat(g1[1..], g2, q);
      calc {
        QueryParams(g1 + g2, q);
        head + QueryParams(g1[1..] + g2, q);
        head + (QueryParams(g1[1..], q) + QueryParams(g2, q));
        (head + QueryParams(g1[1..], q)) + QueryParams(g2, q);
      }
    }
  }

  /** A group of one name is an optional parameter. */
  lemma OneNameGroup(name: string, q: Query)
    ensures QueryParams([[name]], q) == if Present(q, name) then [Param(name, q[name])] else []
  {
    assert AllPresent([name], q) == Present(q, name) by {
      assert [name][0] == name;
    }
    assert [[name]][0] == [name] && [[name]][1..] == [];
    if Present(q, name) {
      assert Values([name], q) == [Param(name, q[name])];
    }
  }

  /** A group of two names is forwarded as a pair or not at all. */
  lemma TwoNameGroup(a: string, b: string, q: Query)
    ensures QueryParams([[a, b]], q) ==
      if Present(q, a) && Present(q, b) then [Param(a, q[a]), Param(b, q[b])] else []
  {
    assert AllPresent([a, b], q) == (Present(q, a) && Present(q, b)) by {
      assert [a, b][0] == a && [a, b][1] == b;
    }
    assert [[a, b]][1..] == [];
  }

  lemma JoinTwo(a: string, b: string, sep: string)
    ensures Join([a, b], sep) == a + sep + b
  {
    assert [a, b][1..] == [b];
  }

  /** Every name a list of groups mentions. */
  function Names(groups: seq<seq<string>>): seq<string>
  {
    if groups == [] then [] else groups[0] + Names(groups[1..])
  }

  /** Two queries that agree on one name: both falsy there, or both truthy
      with the same value. */
  predicate AgreeOn(q1: Query, q2: Query, name: string)
  {
    Present(q1, name) == Present(q2, name) && (Present(q1, name) ==> q1[name] == q2[name])
  }

  /** Only the names in the groups matter: parameters outside them are never
      forwarded, whatever their values. */
  lemma {:induction false} QueryParamsReadOnlyNames(groups: seq<seq<string>>, q1: Query, q2: Query)
    requires forall n :: n in Names(groups) ==> AgreeOn(q1, q2, n)
    ensures QueryParams(groups, q1) == QueryParams(groups, q2)
  {
    if groups != [] {
      assert Names(groups) == groups[0] + Names(groups[1..]);
      var g := groups[0];
      assert AllPresent(g, q1) == AllPresent(g, q2) by {
        forall i | 0 <= i < |g| ensures AgreeOn(q1, q2, g[i]) {
          assert g[i] in Names(groups);
        }
      }
      if AllPresent(g, q1) {
        assert Values(g, q1) == Values(g, q2) by {
          forall i | 0 <= i < |g| ensures AgreeOn(q1, q2, g[i]) {
            assert g[i] in Names(groups);
          }
        }
      }
      QueryParamsReadOnlyNames(groups[1..], q1, q2);
    }
  }

  /** Every forwarded entry carries a present parameter's name and its value
      verbatim. */
  lemma {:induction false} QueryParamsVerbatim(groups: seq<seq<string>>, q: Query)
    ensures forall p :: p in QueryParams(groups, q) ==> Present(q, p.name) && p.value == q[p.name]
    ensures forall p :: p in QueryParams(groups, q) ==> p.name in Names(groups)
  {
    if groups != [] {
      QueryParamsVerbatim(groups[1..], q);
      var g := groups[0];
      if AllPresent(g, q) {
        var vs := Values(g, q);
        forall p | p in vs ensures Present(q, p.name) && p.value == q[p.name] && p.name in Names(groups) {
          var i :| 0 <= i < |vs| && vs[i] == p;
          assert g[i] in g;
        }
      }
    }
  }
}
