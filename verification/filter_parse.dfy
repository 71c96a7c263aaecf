/** A reader for the filter text that `Render` produces, and the proof that
    it inverts `Render` on the expressions it can read back (`Unambiguous`:
    no quote in any attribute, value or context, and no attribute that
    starts with a parenthesis). On those, rendering loses only one thing:
    a composite with fewer than two operands prints the same under AND and
    OR. Outside them nothing is promised, and an unescaped quote inside a
    value can forge structure. */
module FilterParse {
  import opened Wrappers
  import opened PyStrings
  import opened MetadataExpr

  /** Text split around a quote character. */
  datatype Cut = Cut(before: string, after: string)

  /** One expression read from the front of a text, and the text after it. */
  datatype Parsed = Parsed(expr: Expr, rest: string)

  /** Operands read from the front of a text, and the text after them. */
  datatype ParsedList = ParsedList(exprs: seq<Expr>, rest: string)

  /** Expressions whose text can be read back: no quote inside a value,
      attribute or context, and no attribute that starts like a group. */
  predicate Unambiguous(e: Expr)
    decreases e
  {
    match e
    case Equals(a, v) => '"' !in a && '"' !in v && (a == [] || (a[0] != '(' && a[0] != ')'))
    case InContext(c) => '"' !in c
    case HasParentContext(c) => '"' !in c
    case And(es) => forall i :: 0 <= i < |es| ==> Unambiguous(es[i])
    case Or(es) => forall i :: 0 <= i < |es| ==> Unambiguous(es[i])
  }

  /** The canonical form of an expression: a composite with fewer than two
      operands is written as an `And`, since its text shows no operator. */
  function Norm(e: Expr): (n: Expr)
    decreases e, 1
  {
    match e
    case And(es) => And(NormEach(es))
    case Or(es) => if |es| <= 1 then And(NormEach(es)) else Or(NormEach(es))
    case _ => e
  }

  /** `Norm` applied to every operand. */
  function NormEach(es: seq<Expr>): (ns: seq<Expr>)
    ensures |ns| == |es|
    ensures forall i :: 0 <= i < |es| ==> ns[i] == Norm(es[i])
    decreases es, 0
  {
    if es == [] then [] else [Norm(es[0])] + NormEach(es[1..])
  }

  /** Node count, the measure the proofs below recurse on. */
  function Size(e: Expr): (size: nat)
    decreases e, 1
  {
    match e
    case And(es) => 1 + SizeEach(es)
    case Or(es) => 1 + SizeEach(es)
    case _ => 1
  }

  /** Total node count of a list of operands. */
  function SizeEach(es: seq<Expr>): (size: nat)
    decreases es, 0
  {
    if es == [] then 0 else Size(es[0]) + SizeEach(es[1..])
  }

  /** The text before the first quote and the text after it. */
  function CutAtQuote(s: string): (r: Option<Cut>)
    ensures r.Some? ==> s == r.value.before + "\"" + r.value.after && '"' !in r.value.before
    ensures r.None? ==> '"' !in s
  {
    if s == [] then None
    else if s[0] == '"' then Some(Cut("", s[1..]))
    else
      match CutAtQuote(s[1..])
      case None => None
      case Some(Cut(b, a)) => Some(Cut([s[0]] + b, a))
  }

  /** One leaf predicate: `attr="value"`, `in_context("c")` or
      `parent_contexts: "c"`. */
  function ParseLeaf(s: string): (r: Option<Parsed>)
    ensures r.Some? ==> |r.value.rest| < |s|
  {
    match CutAtQuote(s)
    case None => None
    case Some(Cut(head, body)) =>
      match CutAtQuote(body)
      case None => None
      case Some(Cut(text, after)) =>
        if head == "in_context(" then
          if |after| > 0 && after[0] == ')' then Some(Parsed(InContext(text), after[1..])) else None
        else if head == "parent_contexts: " then Some(Parsed(HasParentContext(text), after))
        else if |head| > 0 && head[|head| - 1] == '=' then
          Some(Parsed(Equals(head[..|head| - 1], text), after))
        else None
  }

  /** One expression from the front of `s`: a group when `s` opens a
      parenthesis, a leaf otherwise. */
  function ParseExpr(s: string): (r: Option<Parsed>)
    ensures r.Some? ==> |r.value.rest| < |s|
    decreases |s|, 0
  {
    if |s| > 0 && s[0] == '(' then ParseGroup(s[1..]) else ParseLeaf(s)
  }

  /** The inside of a group after its `(`: nothing, one operand, or operands
      joined by a single operator, up to the closing `)`. */
  function ParseGroup(t: string): (r: Option<Parsed>)
    ensures r.Some? ==> |r.value.rest| < |t|
    decreases |t|, 1
  {
    if |t| > 0 && t[0] == ')' then Some(Parsed(And([]), t[1..]))
    else
      match ParseExpr(t)
      case None => None
      case Some(Parsed(first, rest)) =>
        if |rest| > 0 && rest[0] == ')' then Some(Parsed(And([first]), rest[1..]))
        else if StartsWith(rest, " AND ") then
          match ParseTail(rest, " AND ")
          case None => None
          case Some(ParsedList(more, rest')) => Some(Parsed(And([first] + more), rest'))
        else if StartsWith(rest, " OR ") then
          match ParseTail(rest, " OR ")
          case None => None
          case Some(ParsedList(more, rest')) => Some(Parsed(Or([first] + more), rest'))
        else None
  }

  /** Further operands, each introduced by `sep`, up to the closing `)`. */
  function ParseTail(u: string, sep: string): (r: Option<ParsedList>)
    requires |sep| > 0
    ensures r.Some? ==> |r.value.rest| < |u|
    decreases |u|, 2
  {
    if |u| > 0 && u[0] == ')' then Some(ParsedList([], u[1..]))
    else if StartsWith(u, sep) then
      match ParseExpr(u[|sep|..])
      case None => None
      case Some(Parsed(e, rest)) =>
        match ParseTail(rest, sep)
        case None => None
        case Some(ParsedList(es, rest')) => Some(ParsedList([e] + es, rest'))
    else None
  }

  /** A whole filter text read as one expression. */
  function Parse(s: string): (e: Option<Expr>)
  {
    match ParseExpr(s)
    case None => None
    case Some(Parsed(e, rest)) => if rest == "" then Some(e) else None
  }

  /** Operands after the first, each preceded by the separator. */
  function Separated(es: seq<Expr>, sep: string): (text: string)
  {
    if es == [] then "" else sep + Render(es[0]) + Separated(es[1..], sep)
  }

  // ---------------------------------------------------------------------
  // Lemmas

  lemma SizeEachFirst(es: seq<Expr>)
    requires |es| > 0
    ensures Size(es[0]) <= SizeEach(es)
    ensures SizeEach(es[1..]) < SizeEach(es)
  {
  }

  /** The first quote of `x + "\"" + y` is the one right after `x`. */
  lemma {:induction false} CutAtFirstQuote(x: string, y: string)
    requires '"' !in x
    ensures CutAtQuote(x + "\"" + y) == Some(Cut(x, y))
    decreases |x|
  {
    if x != [] {
      assert (x + "\"" + y)[1..] == x[1..] + "\"" + y;
      CutAtFirstQuote(x[1..], y);
      assert [x[0]] + x[1..] == x;
    }
  }

  /** The `sep`-join of the renderings, seen as the first operand followed
      by the separated rest. */
  lemma {:induction false} JoinRendered(es: seq<Expr>, sep: string)
    requires |es| >= 1
    ensures Join(RenderEach(es), sep) == Render(es[0]) + Separated(es[1..], sep)
    decreases |es|
  {
    if |es| >= 2 {
      var rs := RenderEach(es);
      assert rs[1..] == RenderEach(es[1..]);
      JoinRendered(es[1..], sep);
      assert es[1..][1..] == es[2..];
    } else {
      assert es[1..] == [];
    }
  }

  /** A readable expression never renders starting with `)` and starts with
      `(` exactly when it is a composite. */
  lemma FirstCharacter(e: Expr)
    requires Unambiguous(e)
    ensures Render(e)[0] != ')'
    ensures Render(e)[0] == '(' <==> (e.And? || e.Or?)
  {
    match e
    case Equals(a, v) =>
      if a == [] { assert Render(e)[0] == '='; } else { assert Render(e)[0] == a[0]; }
    case _ =>
  }

  /** Reading a leaf's rendering gives the leaf back, whatever follows it. */
  lemma ParseLeafRender(e: Expr, rest: string)
    requires e.Equals? || e.InContext? || e.HasParentContext?
    requires Unambiguous(e)
    ensures ParseLeaf(Render(e) + rest) == Some(Parsed(e, rest))
  {
    match e
    case Equals(a, v) => ParseEqualsRender(a, v, rest);
    case InContext(c) => ParseInContextRender(c, rest);
    case HasParentContext(c) => ParseParentRender(c, rest);
  }

  /** The comparison case of `ParseLeafRender`. */
  lemma ParseEqualsRender(a: string, v: string, rest: string)
    requires Unambiguous(Equals(a, v))
    ensures ParseLeaf(Render(Equals(a, v)) + rest) == Some(Parsed(Equals(a, v), rest))
  {
    var head := a + "=";
    var body := v + "\"" + rest;
    var t := Render(Equals(a, v)) + rest;
    assert t == head + "\"" + body by {
      assert "=" + "\"" == "=\"";
      ConcatAssoc(a, "=", "\"");
      ConcatAssoc(head + "\"" + v, "\"", rest);
      ConcatAssoc(head + "\"", v, "\"" + rest);
    }
    assert '"' !in head;
    CutAtFirstQuote(head, body);
    CutAtFirstQuote(v, rest);
    assert head[|head| - 1] == '=' && head[..|head| - 1] == a;
    assert head != "in_context(" by {
      assert "in_context("[|"in_context("| - 1] == '(';
    }
    assert head != "parent_contexts: " by {
      assert "parent_contexts: "[|"parent_contexts: "| - 1] == ' ';
    }
  }

  /** The membership case of `ParseLeafRender`. */
  lemma ParseInContextRender(c: string, rest: string)
    requires Unambiguous(InContext(c))
    ensures ParseLeaf(Render(InContext(c)) + rest) == Some(Parsed(InContext(c), rest))
  {
    assert Render(InContext(c)) + rest == "in_context(" + "\"" + (c + "\"" + (")" + rest));
    CutAtFirstQuote("in_context(", c + "\"" + (")" + rest));
    CutAtFirstQuote(c, ")" + rest);
    assert (")" + rest)[1..] == rest;
  }

  /** The parent case of `ParseLeafRender`. */
  lemma ParseParentRender(c: string, rest: string)
    requires Unambiguous(HasParentContext(c))
    ensures ParseLeaf(Render(HasParentContext(c)) + rest) == Some(Parsed(HasParentContext(c), rest))
  {
    assert Render(HasParentContext(c)) + rest == "parent_contexts: " + "\"" + (c + "\"" + rest);
    CutAtFirstQuote("parent_contexts: ", c + "\"" + rest);
    CutAtFirstQuote(c, rest);
  }

  /** Reading the rendering of a readable expression, followed by anything,
      gives its canonical form and leaves exactly what followed. */
  lemma {:induction false} ParseRender(e: Expr, rest: string)
    requires Unambiguous(e)
    ensures ParseExpr(Render(e) + rest) == Some(Parsed(Norm(e), rest))
    decreases Size(e), 1
  {
    FirstCharacter(e);
    match e
    case And(es) => ParseRenderGroup(e, " AND ", rest);
    case Or(es) => ParseRenderGroup(e, " OR ", rest);
    case _ => ParseLeafRender(e, rest);
  }

  /** The composite case of `ParseRender`. */
  lemma {:induction false} ParseRenderGroup(e: Expr, sep: string, rest: string)
    requires e.And? || e.Or?
    requires sep == if e.And? then " AND " else " OR "
    requires Unambiguous(e)
    ensures ParseExpr(Render(e) + rest) == Some(Parsed(Norm(e), rest))
    decreases Size(e), 0
  {
    var es := e.operands;
    var s := Render(e) + rest;
    if es == [] {
      GroupOfNone(e, rest);
    } else {
      SizeEachFirst(es);
      GroupOpens(e, sep, rest);
      var tail := Separated(es[1..], sep) + ")" + rest;
      assert Unambiguous(es[0]);
      FirstCharacter(es[0]);
      ParseRender(es[0], tail);
      if |es| == 1 {
        GroupOfOne(e, Render(es[0]) + tail, tail, rest);
      } else {
        assert forall i :: 0 <= i < |es[1..]| ==> Unambiguous(es[1..][i]);
        ParseRenderTail(es[1..], sep, rest);
        GroupOfMany(e, sep, Render(es[0]) + tail, tail, rest);
      }
    }
  }

  /** A non-empty group's text opens with `(` and its first operand, so
      reading it reads a group from there. */
  lemma GroupOpens(e: Expr, sep: string, rest: string)
    requires (e.And? || e.Or?) && |e.operands| > 0
    requires sep == if e.And? then " AND " else " OR "
    ensures var t := Render(e.operands[0]) + (Separated(e.operands[1..], sep) + ")" + rest);
      ParseExpr(Render(e) + rest) == ParseGroup(t)
  {
    var es := e.operands;
    var s := Render(e) + rest;
    JoinRendered(es, sep);
    var r, sepd := Render(es[0]), Separated(es[1..], sep);
    var tail := sepd + ")" + rest;
    assert s == "(" + (r + sepd) + ")" + rest;
    assert s == "(" + (r + tail) by {
      ConcatAssoc("(", r + sepd, ")");
      ConcatAssoc("(", r + sepd + ")", rest);
      ConcatAssoc(r, sepd, ")");
      ConcatAssoc(r, sepd + ")", rest);
    }
    assert s[1..] == r + tail;
  }

  /** An empty group reads back as an empty `And`. */
  lemma GroupOfNone(e: Expr, rest: string)
    requires (e.And? || e.Or?) && e.operands == []
    ensures ParseExpr(Render(e) + rest) == Some(Parsed(Norm(e), rest))
  {
    var s := Render(e) + rest;
    assert s == "(" + (")" + rest);
    assert s[1..] == ")" + rest && (")" + rest)[1..] == rest;
  }

  /** A group of one operand reads back as a one-operand `And`. */
  lemma GroupOfOne(e: Expr, t: string, tail: string, rest: string)
    requires (e.And? || e.Or?) && |e.operands| == 1
    requires tail == Separated(e.operands[1..], " AND ") + ")" + rest
    requires |t| > 0 && t[0] != ')'
    requires ParseExpr(t) == Some(Parsed(Norm(e.operands[0]), tail))
    ensures ParseGroup(t) == Some(Parsed(Norm(e), rest))
  {
    var first := Norm(e.operands[0]);
    assert e.operands[1..] == [];
    assert Separated(e.operands[1..], " AND ") == "";
    assert tail == ")" + rest && tail[0] == ')' && tail[1..] == rest;
    assert ParseGroup(t) == Some(Parsed(And([first]), rest));
    assert NormEach(e.operands) == [first];
  }

  /** A group of two or more operands reads back with its own operator. */
  lemma GroupOfMany(e: Expr, sep: string, t: string, tail: string, rest: string)
    requires (e.And? || e.Or?) && |e.operands| >= 2
    requires sep == if e.And? then " AND " else " OR "
    requires tail == Separated(e.operands[1..], sep) + ")" + rest
    requires |t| > 0 && t[0] != ')'
    requires ParseExpr(t) == Some(Parsed(Norm(e.operands[0]), tail))
    requires ParseTail(tail, sep) == Some(ParsedList(NormEach(e.operands[1..]), rest))
    ensures ParseGroup(t) == Some(Parsed(Norm(e), rest))
  {
    var es := e.operands;
    var x := es[1..];
    TailShape(x, sep, rest);
    GroupStep(t, Norm(es[0]), tail, sep, NormEach(x), rest);
    assert NormEach(es) == [Norm(es[0])] + NormEach(x);
  }

  /** The text after a first operand, when more operands follow, starts
      with the separator and with no other operator. */
  lemma TailShape(x: seq<Expr>, sep: string, rest: string)
    requires |x| >= 1
    requires sep == " AND " || sep == " OR "
    ensures var tail := Separated(x, sep) + ")" + rest;
      && |tail| > 0 && tail[0] == ' '
      && StartsWith(tail, sep)
      && (StartsWith(tail, " AND ") <==> sep == " AND ")
  {
    var tail := Separated(x, sep) + ")" + rest;
    var r, s' := Render(x[0]), Separated(x[1..], sep);
    Regroup(sep, r, s', rest);
    var more := r + (s' + ")" + rest);
    assert tail == sep + more;
    assert tail[..|sep|] == sep;
    assert tail[1] == sep[1];
  }

  /** How `ParseGroup` combines a first operand with the operands read by
      `ParseTail`. */
  lemma GroupStep(t: string, first: Expr, tail: string, sep: string, more: seq<Expr>, rest: string)
    requires |t| > 0 && t[0] != ')'
    requires sep == " AND " || sep == " OR "
    requires ParseExpr(t) == Some(Parsed(first, tail))
    requires |tail| > 0 && tail[0] == ' '
    requires StartsWith(tail, sep)
    requires StartsWith(tail, " AND ") <==> sep == " AND "
    requires ParseTail(tail, sep) == Some(ParsedList(more, rest))
    ensures ParseGroup(t)
      == Some(Parsed(if sep == " AND " then And([first] + more) else Or([first] + more), rest))
  {
  }

  /** The text of further operands, regrouped around the first of them. */
  lemma Regroup(sep: string, r: string, s: string, rest: string)
    ensures sep + r + s + ")" + rest == sep + (r + (s + ")" + rest))
  {
    ConcatAssoc(sep, r, s);
    ConcatAssoc(sep, r + s, ")");
    ConcatAssoc(sep, r + s + ")", rest);
    ConcatAssoc(r, s, ")");
    ConcatAssoc(r, s + ")", rest);
  }

  /** How `ParseTail` reads one more operand after the separator. */
  lemma TailStep(u: string, sep: string, v: string, e: Expr, more: string, es: seq<Expr>, rest: string)
    requires sep == " AND " || sep == " OR "
    requires u == sep + v
    ensures ParseExpr(v) == Some(Parsed(e, more)) && ParseTail(more, sep) == Some(ParsedList(es, rest))
      ==> ParseTail(u, sep) == Some(ParsedList([e] + es, rest))
  {
    assert u[0] == ' ' && u[..|sep|] == sep && u[|sep|..] == v;
  }

  /** Reading the separated operands and the closing parenthesis gives their
      canonical forms and leaves exactly what followed. */
  lemma {:induction false} ParseRenderTail(es: seq<Expr>, sep: string, rest: string)
    requires sep == " AND " || sep == " OR "
    requires forall i :: 0 <= i < |es| ==> Unambiguous(es[i])
    ensures ParseTail(Separated(es, sep) + ")" + rest, sep) == Some(ParsedList(NormEach(es), rest))
    decreases SizeEach(es), 2
  {
    if es == [] {
      var u := Separated(es, sep) + ")" + rest;
      assert u == ")" + rest && u[1..] == rest;
    } else {
      SizeEachFirst(es);
      var more := Separated(es[1..], sep) + ")" + rest;
      assert Unambiguous(es[0]);
      ParseRender(es[0], more);
      ParseRenderTail(es[1..], sep, rest);
      TailCons(es, sep, rest);
    }
  }

  /** The step of `ParseRenderTail`: one operand read after the separator,
      then the rest. */
  lemma TailCons(es: seq<Expr>, sep: string, rest: string)
    requires |es| > 0
    requires sep == " AND " || sep == " OR "
    requires var more := Separated(es[1..], sep) + ")" + rest;
      && ParseExpr(Render(es[0]) + more) == Some(Parsed(Norm(es[0]), more))
      && ParseTail(more, sep) == Some(ParsedList(NormEach(es[1..]), rest))
    ensures ParseTail(Separated(es, sep) + ")" + rest, sep) == Some(ParsedList(NormEach(es), rest))
  {
    var u := Separated(es, sep) + ")" + rest;
    var r, s' := Render(es[0]), Separated(es[1..], sep);
    var more := s' + ")" + rest;
    assert Separated(es, sep) == sep + r + s';
    Regroup(sep, r, s', rest);
    TailStep(u, sep, r + more, Norm(es[0]), more, NormEach(es[1..]), rest);
    assert NormEach(es) == [Norm(es[0])] + NormEach(es[1..]);
  }

  /** The round trip: a readable expression's filter text reads back as its
      canonical form. */
  lemma ParseRenderRoundTrip(e: Expr)
    requires Unambiguous(e)
    ensures Parse(Render(e)) == Some(Norm(e))
  {
    ParseRender(e, "");
    assert Render(e) + "" == Render(e);
  }

  /** A conjunction of two readable leaves reads back as itself. */
  lemma PairReadsBack(a: Expr, b: Expr)
    requires !a.And? && !a.Or? && !b.And? && !b.Or?
    requires Unambiguous(a) && Unambiguous(b)
    ensures Parse(Render(And([a, b]))) == Some(And([a, b]))
  {
    var e := And([a, b]);
    ParseRenderRoundTrip(e);
    var ns := NormEach([a, b]);
    assert ns[0] == a && ns[1] == b;
    assert ns == [a, b];
  }

  /** Canonicalising does not change the text. */
  lemma {:induction false} RenderNorm(e: Expr)
    ensures Render(Norm(e)) == Render(e)
    decreases Size(e), 1
  {
    match e
    case And(es) => RenderNormEach(es);
    case Or(es) => RenderNormEach(es);
    case _ =>
  }

  lemma {:induction false} RenderNormEach(es: seq<Expr>)
    ensures RenderEach(NormEach(es)) == RenderEach(es)
    decreases SizeEach(es), 2
  {
    if es != [] {
      SizeEachFirst(es);
      RenderNorm(es[0]);
      RenderNormEach(es[1..]);
      assert NormEach(es) == [Norm(es[0])] + NormEach(es[1..]);
      assert NormEach(es)[1..] == NormEach(es[1..]);
    }
  }

  /** Two readable expressions have the same filter text exactly when they
      have the same canonical form. */
  lemma RenderInjectiveUpToNorm(e1: Expr, e2: Expr)
    requires Unambiguous(e1) && Unambiguous(e2)
    ensures Render(e1) == Render(e2) <==> Norm(e1) == Norm(e2)
  {
    ParseRenderRoundTrip(e1);
    ParseRenderRoundTrip(e2);
    RenderNorm(e1);
    RenderNorm(e2);
  }

  /** Values are not escaped: a quote in a value forges a second operand, so
      a one-operand conjunction and a two-operand one print alike. */
  lemma QuoteInjection(a: string, b: string, c: string, d: string)
    ensures var forged := b + "\"" + " AND " + c + "=\"" + d;
      && Render(And([Equals(a, forged)])) == Render(And([Equals(a, b), Equals(c, d)]))
      && Norm(And([Equals(a, forged)])) != Norm(And([Equals(a, b), Equals(c, d)]))
  {
    var q, and, eq := "\"", " AND ", "=\"";
    var forged := b + q + and + c + eq + d;
    var x := a + eq;
    assert x + forged == x + b + q + and + c + eq + d by {
      ConcatAssoc(x, b + q + and + c + eq, d);
      ConcatAssoc(x, b + q + and + c, eq);
      ConcatAssoc(x, b + q + and, c);
      ConcatAssoc(x, b + q, and);
      ConcatAssoc(x, b, q);
    }
    var ra, rc := x + b + q, c + eq + d + q;
    var y := ra + and;
    assert y + rc == y + c + eq + d + q by {
      ConcatAssoc(y, c + eq + d, q);
      ConcatAssoc(y, c + eq, d);
      ConcatAssoc(y, c, eq);
    }
    assert RenderEach([Equals(a, forged)]) == [x + forged + q];
    assert RenderEach([Equals(a, b), Equals(c, d)]) == [ra, rc];
    JoinPrepend(ra, [rc], and);
    assert NormEach([Equals(a, forged)]) == [Equals(a, forged)];
    assert |NormEach([Equals(a, b), Equals(c, d)])| == 2;
  }
}
