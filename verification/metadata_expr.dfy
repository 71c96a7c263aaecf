/** Filter expressions of the ML-metadata query language and the resource
    paths that scope a query (src/fancy_fashion/utils/metadata/expr.py). */
module MetadataExpr {
  import opened PyStrings

  /** A filter predicate. `And` and `Or` take any number of operands, as the
      variadic constructors of the source do; nothing is ever flattened. */
  datatype Expr =
    | Equals(attr: string, value: string)
    | InContext(context: string)
    | HasParentContext(context: string)
    | And(operands: seq<Expr>)
    | Or(operands: seq<Expr>)

  /** The filter text an expression stands for (`str(expr)`). Values are
      quoted but never escaped. */
  function Render(e: Expr): (r: string)
    ensures |r| > 0
    decreases e, 1
  {
    match e
    case Equals(a, v) => a + "=\"" + v + "\""
    case InContext(c) => "in_context(\"" + c + "\")"
    case HasParentContext(c) => "parent_contexts: \"" + c + "\""
    case And(es) => "(" + Join(RenderEach(es), " AND ") + ")"
    case Or(es) => "(" + Join(RenderEach(es), " OR ") + ")"
  }

  /** The renderings of a list of operands, in order. */
  function RenderEach(es: seq<Expr>): (rs: seq<string>)
    ensures |rs| == |es|
    ensures forall i :: 0 <= i < |es| ==> rs[i] == Render(es[i])
    decreases es, 0
  {
    if es == [] then [] else [Render(es[0])] + RenderEach(es[1..])
  }

  /** `a & b`: a fresh binary conjunction of the two operands. */
  function Conj(a: Expr, b: Expr): (r: Expr)
    ensures Render(r) == "(" + Render(a) + " AND " + Render(b) + ")"
  {
    assert RenderEach([a, b]) == [Render(a), Render(b)];
    JoinPrepend(Render(a), [Render(b)], " AND ");
    And([a, b])
  }

  /** `a | b`: a fresh binary disjunction of the two operands. */
  function Disj(a: Expr, b: Expr): (r: Expr)
    ensures Render(r) == "(" + Render(a) + " OR " + Render(b) + ")"
  {
    assert RenderEach([a, b]) == [Render(a), Render(b)];
    JoinPrepend(Render(a), [Render(b)], " OR ");
    Or([a, b])
  }

  /** `schema_title(name)`: equality on the `schema_title` attribute. */
  function SchemaTitle(name: string): (e: Expr)
    ensures e == Equals("schema_title", name)
    ensures Render(e) == "schema_title=\"" + name + "\""
  {
    Equals("schema_title", name)
  }

  /** Every composite renders inside one pair of parentheses, and a
      composite without operands renders as `()`. */
  lemma CompositeParenthesised(e: Expr)
    requires e.And? || e.Or?
    ensures var r := Render(e); |r| >= 2 && r[0] == '(' && r[|r| - 1] == ')'
    ensures |e.operands| == 0 ==> Render(e) == "()"
    ensures |e.operands| == 1 ==> Render(e) == "(" + Render(e.operands[0]) + ")"
  {
  }

  /** Operators nest instead of flattening: `(a & b) & c` keeps its inner
      parentheses, and differs from the ternary `And(a, b, c)`. */
  lemma NoFlattening(a: Expr, b: Expr, c: Expr)
    ensures Render(Conj(Conj(a, b), c))
      == "(" + ("(" + Render(a) + " AND " + Render(b) + ")") + " AND " + Render(c) + ")"
    ensures Render(Conj(Conj(a, b), c)) != Render(And([a, b, c]))
  {
    var nested := Render(Conj(Conj(a, b), c));
    assert |nested| == |Render(a)| + |Render(b)| + |Render(c)| + 14;
    TernaryLength(a, b, c);
  }

  /** The length of a ternary conjunction's text: three operands, two
      separators and the parentheses. */
  lemma TernaryLength(a: Expr, b: Expr, c: Expr)
    ensures |Render(And([a, b, c]))| == |Render(a)| + |Render(b)| + |Render(c)| + 12
  {
    var ra, rb, rc := Render(a), Render(b), Render(c);
    assert RenderEach([a, b, c]) == [ra, rb, rc];
    JoinPrepend(rb, [rc], " AND ");
    JoinPrepend(ra, [rb, rc], " AND ");
    assert Join([ra, rb, rc], " AND ") == ra + " AND " + (rb + " AND " + rc);
  }

  /** `metastore_context`: the resource path of a metadata store, the
      `/`-join of its six segments. */
  function MetastoreContext(projectId: string, region: string, store: string): (path: string)
    ensures path == Join(["projects", projectId, "locations", region, "metadataStores", store], "/")
  {
    SixSegments("projects", projectId, "locations", region, "metadataStores", store);
    assert "projects" + "/" == "projects/";
    assert "/" + "locations" + "/" == "/locations/";
    assert "/" + "metadataStores" + "/" == "/metadataStores/";
    "projects/" + projectId + "/locations/" + region + "/metadataStores/" + store
  }

  /** `pipeline_context`: the resource path of a pipeline's context, which
      extends its store's path by `/contexts/<name>`. */
  function PipelineContext(projectId: string, region: string, store: string, pipelineName: string): (path: string)
    ensures path == MetastoreContext(projectId, region, store) + "/contexts/" + pipelineName
  {
    "projects/" + projectId + "/locations/" + region + "/"
      + "metadataStores/" + store + "/contexts/" + pipelineName
  }

  /** `run_context`: the resource path of a pipeline run's context, which
      is addressed exactly like a pipeline's. */
  function RunContext(projectId: string, region: string, store: string, runName: string): (path: string)
    ensures path == PipelineContext(projectId, region, store, runName)
  {
    "projects/" + projectId + "/locations/" + region + "/"
      + "metadataStores/" + store + "/contexts/" + runName
  }

  /** The path segments are not validated: a store name that holds
      `/contexts/<n>` yields the same path as the context `<n>`. */
  lemma SegmentsNotValidated(p: string, r: string, s: string, n: string)
    ensures MetastoreContext(p, r, s + "/contexts/" + n) == PipelineContext(p, r, s, n)
  {
  }

  /** Six `/`-joined segments, grouped the way the store path is built. */
  lemma SixSegments(a: string, b: string, c: string, d: string, e: string, f: string)
    ensures Join([a, b, c, d, e, f], "/")
      == (a + "/") + b + ("/" + c + "/") + d + ("/" + e + "/") + f
  {
    var ef := Join([e, f], "/");
    JoinPrepend(e, [f], "/");
    var def := Join([d, e, f], "/");
    JoinPrepend(d, [e, f], "/");
    assert def == d + ("/" + e + "/") + f by {
      ConcatAssoc(d, "/", e + "/" + f);
      ConcatAssoc(e, "/", f);
      ConcatAssoc("/", e, "/" + f);
      ConcatAssoc("/" + e, "/", f);
      ConcatAssoc(d, "/" + e + "/", f);
    }
    JoinPrepend(c, [d, e, f], "/");
    var cdef := Join([c, d, e, f], "/");
    assert cdef == c + "/" + d + ("/" + e + "/") + f;
    JoinPrepend(b, [c, d, e, f], "/");
    var bcdef := Join([b, c, d, e, f], "/");
    assert bcdef == b + ("/" + c + "/") + d + ("/" + e + "/") + f by {
      var tail := d + ("/" + e + "/") + f;
      assert cdef == c + "/" + tail by {
        ConcatAssoc(c + "/" + d, "/" + e + "/", f);
        ConcatAssoc(c + "/", d, "/" + e + "/" + f);
        ConcatAssoc(d, "/" + e + "/", f);
      }
      ConcatAssoc(b, "/", c + "/" + tail);
      ConcatAssoc("/", c + "/", tail);
      ConcatAssoc("/", c, "/");
      ConcatAssoc(b, "/" + c + "/", tail);
      ConcatAssoc(b + ("/" + c + "/"), d + ("/" + e + "/"), f);
      ConcatAssoc(b + ("/" + c + "/"), d, "/" + e + "/");
    }
    JoinPrepend(a, [b, c, d, e, f], "/");
    assert Join([a, b, c, d, e, f], "/") == (a + "/") + bcdef;
    var rest := ("/" + c + "/") + d + ("/" + e + "/") + f;
    assert bcdef == b + rest by {
      ConcatAssoc(b + ("/" + c + "/") + d, "/" + e + "/", f);
      ConcatAssoc(b + ("/" + c + "/"), d, ("/" + e + "/") + f);
      ConcatAssoc(b, "/" + c + "/", d + (("/" + e + "/") + f));
      ConcatAssoc(("/" + c + "/") + d, "/" + e + "/", f);
      ConcatAssoc("/" + c + "/", d, ("/" + e + "/") + f);
    }
    ConcatAssoc(a + "/", b, rest);
    assert (a + "/") + b + rest == (a + "/") + b + ("/" + c + "/") + d + ("/" + e + "/") + f by {
      ConcatAssoc((a + "/") + b + ("/" + c + "/") + d, "/" + e + "/", f);
      ConcatAssoc((a + "/") + b + ("/" + c + "/"), d, ("/" + e + "/") + f);
      ConcatAssoc((a + "/") + b, "/" + c + "/", d + (("/" + e + "/") + f));
      ConcatAssoc(("/" + c + "/") + d, "/" + e + "/", f);
      ConcatAssoc("/" + c + "/", d, ("/" + e + "/") + f);
    }
  }

  /** A context path as the `/`-join of its segments. */
  lemma ContextPathSegments(p: string, r: string, s: string, n: string)
    ensures PipelineContext(p, r, s, n)
      == Join(["projects", p, "locations", r, "metadataStores", s, "contexts", n], "/")
  {
    var ws := ["projects", p, "locations", r, "metadataStores", s];
    JoinSnoc(ws, "contexts", "/");
    JoinSnoc(ws + ["contexts"], n, "/");
    assert ws + ["contexts"] + [n] == ["projects", p, "locations", r, "metadataStores", s, "contexts", n];
  }

  /** Splitting a store or context path at `/` recovers its components,
      provided none of them contains `/` itself. */
  lemma ContextPathRoundTrip(p: string, r: string, s: string, n: string)
    requires '/' !in p && '/' !in r && '/' !in s && '/' !in n
    ensures Split(MetastoreContext(p, r, s), '/')
      == ["projects", p, "locations", r, "metadataStores", s]
    ensures Split(PipelineContext(p, r, s, n), '/')
      == ["projects", p, "locations", r, "metadataStores", s, "contexts", n]
    ensures AfterLast(PipelineContext(p, r, s, n), '/') == n
  {
    ContextPathSegments(p, r, s, n);
    SplitJoin(["projects", p, "locations", r, "metadataStores", s], '/');
    SplitJoin(["projects", p, "locations", r, "metadataStores", s, "contexts", n], '/');
    AfterLastIsLastPiece(PipelineContext(p, r, s, n), '/');
  }
}
