/**
 * What the pipeline hands to the relational store: column values, parameterised
 * statements with `%s` placeholders (psycopg2's paramstyle), and the positional
 * binding of a VALUES list to a column list.
 */
module Sql {

  /** A value bound to a placeholder or stored in a column. */
  datatype Value =
    | Null
    | Int(i: int)
    | Text(s: string)
    | Real(r: real)
    | Timestamp(t: int)
    | Json(doc: string)

  /**
   * One piece of a statement: SQL text written out in the program, or a `%s`
   * placeholder that the driver fills with the next parameter. `PlainText` says
   * that a statement's text pieces contain no `%`. For the generated pieces
   * (`ParamList`) that is proved; for the SQL string constants of the program it
   * holds by reading them, since proving it about long literals is beyond the
   * verifier's budget.
   */
  datatype Fragment = Verbatim(text: string) | Param

  type Statement = seq<Fragment>

  /** The statement as the driver receives it. */
  function Render(q: Statement): string
  {
    if q == [] then ""
    else (match q[0] case Verbatim(t) => t case Param => "%s") + Render(q[1..])
  }

  /** Number of `%s` placeholders in a statement. */
  function Placeholders(q: Statement): nat
  {
    if q == [] then 0 else (if q[0].Param? then 1 else 0) + Placeholders(q[1..])
  }

  /** Number of `%` characters in a string. */
  function Percents(s: string): nat
  {
    if s == [] then 0 else (if s[0] == '%' then 1 else 0) + Percents(s[1..])
  }

  lemma {:induction false} PercentsAppend(a: string, b: string)
    ensures Percents(a + b) == Percents(a) + Percents(b)
  {
    if a == [] {
      assert a + b == b;
    } else {
      assert (a + b)[1..] == a[1..] + b;
      PercentsAppend(a[1..], b);
    }
  }

  lemma {:induction false} NoPercents(s: string)
    requires '%' !in s
    ensures Percents(s) == 0
  {
    if s != [] {
      assert s[0] != '%';
      assert forall c :: c in s[1..] ==> c in s;
      NoPercents(s[1..]);
    }
  }

  /** No SQL text of the statement contains a `%`. */
  predicate PlainText(q: Statement)
  {
    forall i :: 0 <= i < |q| && q[i].Verbatim? ==> '%' !in q[i].text
  }

  lemma PlainTextAppend(a: Statement, b: Statement)
    requires PlainText(a) && PlainText(b)
    ensures PlainText(a + b)
  {
    assert forall i :: |a| <= i < |a + b| ==> (a + b)[i] == b[i - |a|];
  }

  /**
   * When the SQL text has no `%`, the rendered statement has one `%` per
   * placeholder: `Placeholders` counts the `%s` the driver fills.
   */
  lemma {:induction false} RenderPlaceholders(q: Statement)
    requires PlainText(q)
    ensures Percents(Render(q)) == Placeholders(q)
  {
    if q != [] {
      var head := match q[0] case Verbatim(t) => t case Param => "%s";
      assert Render(q) == head + Render(q[1..]);
      PercentsAppend(head, Render(q[1..]));
      if q[0].Verbatim? {
        NoPercents(q[0].text);
      } else {
        assert "%s"[1..] == "s";
      }
      assert forall i :: 0 <= i < |q[1..]| ==> q[1..][i] == q[i + 1];
      RenderPlaceholders(q[1..]);
    }
  }

  lemma {:induction false} PlaceholdersAppend(a: Statement, b: Statement)
    ensures Placeholders(a + b) == Placeholders(a) + Placeholders(b)
  {
    if a == [] {
      assert a + b == b;
    } else {
      assert (a + b)[1..] == a[1..] + b;
      PlaceholdersAppend(a[1..], b);
    }
  }

  /** SQL text alone has no placeholder and binds nothing. */
  lemma TextBindsNothing(text: string, context: string)
    ensures Placeholders([Verbatim(text)]) == 0
    ensures Bindings([Verbatim(text)], [], context) == []
  {
    assert [Verbatim(text)][1..] == [];
  }

  /**
   * What the driver binds: each placeholder, in order, with the SQL text just
   * before it (the clause it completes) and the parameter that fills it.
   * `context` is the text seen before the first fragment.
   */
  function Bindings(q: Statement, params: seq<Value>, context: string): (b: seq<(string, Value)>)
    requires Placeholders(q) == |params|
    ensures |b| == |params| && forall k :: 0 <= k < |b| ==> b[k].1 == params[k]
  {
    if q == [] then []
    else
      match q[0]
      case Verbatim(t) => Bindings(q[1..], params, t)
      case Param => [(context, params[0])] + Bindings(q[1..], params[1..], context)
  }

  /** The parameters are the bound values, in placeholder order. */
  lemma BindingsValues(q: Statement, params: seq<Value>, context: string, head: seq<(string, Value)>,
                       tail: seq<(string, Value)>)
    requires Placeholders(q) == |params| && Bindings(q, params, context) == head + tail
    ensures |params| >= |tail| && forall k :: 0 <= k < |tail| ==> params[|head| + k] == tail[k].1
  {
    var b := Bindings(q, params, context);
    assert forall k :: 0 <= k < |tail| ==> b[|head| + k] == tail[k];
  }

  /** A statement that opens with SQL text binds the same way whatever came before it. */
  lemma BindingsFreshContext(q: Statement, params: seq<Value>, c1: string, c2: string)
    requires Placeholders(q) == |params| && q != [] && q[0].Verbatim?
    ensures Bindings(q, params, c1) == Bindings(q, params, c2)
  {
  }

  /** Appending a clause that opens with SQL text appends its bindings. */
  lemma {:induction false} BindingsAppend(a: Statement, pa: seq<Value>, b: Statement, pb: seq<Value>, context: string)
    requires Placeholders(a) == |pa| && Placeholders(b) == |pb| && b != [] && b[0].Verbatim?
    ensures Placeholders(a + b) == |pa + pb|
    ensures Bindings(a + b, pa + pb, context) == Bindings(a, pa, context) + Bindings(b, pb, context)
    decreases |a|
  {
    PlaceholdersAppend(a, b);
    if a == [] {
      assert a + b == b && pa + pb == pb;
    } else {
      assert (a + b)[1..] == a[1..] + b;
      match a[0]
      case Verbatim(t) =>
        BindingsAppend(a[1..], pa, b, pb, t);
        BindingsFreshContext(b, pb, t, context);
      case Param =>
        assert (pa + pb)[1..] == pa[1..] + pb;
        BindingsAppend(a[1..], pa[1..], b, pb, context);
    }
  }

  /** `%s, %s, ..., %s` with `n` placeholders. */
  function ParamList(n: nat): (q: Statement)
    ensures Placeholders(q) == n
    ensures PlainText(q)
  {
    if n == 0 then []
    else if n == 1 then [Param]
    else
      var rest := ParamList(n - 1);
      PlaceholdersAppend([Param, Verbatim(", ")], rest);
      PlainTextAppend([Param, Verbatim(", ")], rest);
      [Param, Verbatim(", ")] + rest
  }

  /** No column is named twice. */
  predicate Distinct(cols: seq<string>)
  {
    forall i, j :: 0 <= i < j < |cols| ==> cols[i] != cols[j]
  }

  /**
   * The row an INSERT writes: the i-th column receives the i-th parameter.
   * (The store refuses a statement whose column list and VALUES list differ in
   * length, so callers bind only lists of equal length.)
   */
  function Bind(cols: seq<string>, vals: seq<Value>): (row: map<string, Value>)
    requires |cols| == |vals|
    ensures row.Keys == set c | c in cols
  {
    if cols == [] then map[]
    else Bind(cols[1..], vals[1..])[cols[0] := vals[0]]
  }

  /** Positional binding puts every value under its own column. */
  lemma {:induction false} BindAt(cols: seq<string>, vals: seq<Value>, i: nat)
    requires |cols| == |vals| && Distinct(cols) && i < |cols|
    ensures cols[i] in Bind(cols, vals) && Bind(cols, vals)[cols[i]] == vals[i]
  {
    if i > 0 {
      assert cols[i] == cols[1..][i - 1];
      assert cols[0] != cols[i];
      BindAt(cols[1..], vals[1..], i - 1);
    }
  }
}
