/**
 Inferring a demand scope from a query (crates/velorix-api/src/demand_query_scope.rs): the WHERE
 clause with its table alias dropped and its bind values written in, when every form in the
 query is one of the admitted ones.
 */
module QueryScope {
  import opened Wrappers

  datatype Value = Null | Bool(b: bool) | Int(i: int) | Text(s: string)

  // A bind value and whether its kind may be written into the predicate.
  datatype Bind = Bind(value: Value, writable: bool)

  datatype Expr =
    | Column(name: string)
    | Qualified(path: seq<string>)
    | Literal(value: Value)
    | Placeholder(index: nat)            // $1 is index 1; index 0 or an unreadable one is no bind
    | Nested(inner: Expr)
    | Binary(op: string, left: Expr, right: Expr)
    | Unary(op: string, arg: Expr)
    | Cast(ty: string, arg: Expr)
    | IsNull(negated: bool, arg: Expr)
    | Between(negated: bool, arg: Expr, low: Expr, high: Expr)
    | InList(negated: bool, arg: Expr, list: seq<Expr>)
    | Call(name: string, args: seq<Expr>) // any function, aggregate or window
    | Subquery

  datatype Projection = Wildcard | TableWildcard(table: string) | Selected(expr: Expr) | OtherItem

  // `plain` says that none of the refused clauses occurs; `trailing` are the expressions of
  // ORDER BY, LIMIT, OFFSET and FETCH.
  datatype Query = Query(plain: bool, table: seq<string>, joins: nat, alias: Option<string>, projection: seq<Projection>,
                         selection: Option<Expr>, trailing: seq<Expr>)

  datatype Schema = Schema(relation: string, columns: set<string>)

  // ---------------------------------------------------------------- meaning

  // What operators and casts do with values; None is an evaluation error.
  datatype Semantics = Semantics(binary: (string, Value, Value) -> Option<Value>, unary: (string, Value) -> Option<Value>,
                                 cast: (string, Value) -> Option<Value>)

  // One row under a table name, with the bind values of the query.
  datatype Env = Env(row: map<string, Value>, qualifier: string, binds: seq<Bind>)

  function Not3(v: Value): Value {
    if v.Bool? then Bool(!v.b) else Null
  }

  function And3(a: Value, b: Value): Value {
    if a == Bool(false) || b == Bool(false) then Bool(false)
    else if a == Bool(true) && b == Bool(true) then Bool(true)
    else Null
  }

  function Or3(a: Value, b: Value): Value {
    Not3(And3(Not3(a), Not3(b)))
  }

  function Signed(negated: bool, v: Value): Value {
    if negated then Not3(v) else v
  }

  // The three-valued result of an expression, or None when it cannot be evaluated.
  ghost function Eval(sem: Semantics, env: Env, e: Expr): Option<Value>
    decreases e
  {
    match e
    case Column(name) => if name in env.row then Some(env.row[name]) else None
    case Qualified(path) => if |path| == 2 && path[0] == env.qualifier && path[1] in env.row then Some(env.row[path[1]]) else None
    case Literal(v) => Some(v)
    case Placeholder(i) => if 0 < i <= |env.binds| then Some(env.binds[i - 1].value) else None
    case Nested(x) => Eval(sem, env, x)
    case Binary(op, l, r) =>
      var a, b := Eval(sem, env, l), Eval(sem, env, r);
      if a.None? || b.None? then None
      else if op == "AND" then Some(And3(a.value, b.value))
      else if op == "OR" then Some(Or3(a.value, b.value))
      else sem.binary(op, a.value, b.value)
    case Unary(op, x) =>
      var a := Eval(sem, env, x);
      if a.None? then None else if op == "NOT" then Some(Not3(a.value)) else sem.unary(op, a.value)
    case Cast(ty, x) =>
      var a := Eval(sem, env, x);
      if a.None? then None else sem.cast(ty, a.value)
    case IsNull(negated, x) =>
      var a := Eval(sem, env, x);
      if a.None? then None else Some(Bool((a.value == Null) != negated))
    case Between(negated, x, low, high) =>
      var a, lo, hi := Eval(sem, env, x), Eval(sem, env, low), Eval(sem, env, high);
      if a.None? || lo.None? || hi.None? then None
      else
        var ge, le := sem.binary(">=", a.value, lo.value), sem.binary("<=", a.value, hi.value);
        if ge.None? || le.None? then None else Some(Signed(negated, And3(ge.value, le.value)))
    case InList(negated, x, list) =>
      var a := Eval(sem, env, x);
      if a.None? then None
      else
        var hit := EvalAny(sem, env, a.value, list);
        if hit.None? then None else Some(Signed(negated, hit.value))
    case Call(_, _) => None
    case Subquery => None
  }

  // Whether a value equals one of a list.
  ghost function EvalAny(sem: Semantics, env: Env, v: Value, list: seq<Expr>): Option<Value>
    decreases list
  {
    if list == [] then Some(Bool(false))
    else
      var head, rest := Eval(sem, env, list[0]), EvalAny(sem, env, v, list[1..]);
      if head.None? || rest.None? then None
      else
        var eq := sem.binary("=", v, head.value);
        if eq.None? then None else Some(Or3(eq.value, rest.value))
  }

  // ---------------------------------------------------------------- the rewrite

  // Drops the alias and writes in the bind values; None at the first form that is not admitted.
  function Normalize(schema: Schema, qualifier: string, binds: seq<Bind>, e: Expr): Option<Expr>
    decreases e
  {
    match e
    case Column(name) => if name in schema.columns then Some(e) else None
    case Qualified(path) =>
      if |path| == 2 && path[0] == qualifier && path[1] in schema.columns then Some(Column(path[1])) else None
    case Literal(_) => Some(e)
    case Placeholder(i) => if 0 < i <= |binds| && binds[i - 1].writable then Some(Literal(binds[i - 1].value)) else None
    case Nested(x) =>
      var a := Normalize(schema, qualifier, binds, x);
      if a.None? then None else Some(Nested(a.value))
    case Binary(op, l, r) =>
      var a, b := Normalize(schema, qualifier, binds, l), Normalize(schema, qualifier, binds, r);
      if a.None? || b.None? then None else Some(Binary(op, a.value, b.value))
    case Unary(op, x) =>
      var a := Normalize(schema, qualifier, binds, x);
      if a.None? then None else Some(Unary(op, a.value))
    case Cast(ty, x) =>
      var a := Normalize(schema, qualifier, binds, x);
      if a.None? then None else Some(Cast(ty, a.value))
    case IsNull(negated, x) =>
      var a := Normalize(schema, qualifier, binds, x);
      if a.None? then None else Some(IsNull(negated, a.value))
    case Between(negated, x, low, high) =>
      var a := Normalize(schema, qualifier, binds, x);
      var lo, hi := Normalize(schema, qualifier, binds, low), Normalize(schema, qualifier, binds, high);
      if a.None? || lo.None? || hi.None? then None else Some(Between(negated, a.value, lo.value, hi.value))
    case InList(negated, x, list) =>
      var a, items := Normalize(schema, qualifier, binds, x), NormalizeAll(schema, qualifier, binds, list);
      if a.None? || items.None? then None else Some(InList(negated, a.value, items.value))
    case Call(_, _) => None
    case Subquery => None
  }

  function NormalizeAll(schema: Schema, qualifier: string, binds: seq<Bind>, list: seq<Expr>): Option<seq<Expr>>
    decreases list
  {
    if list == [] then Some([])
    else
      var head, rest := Normalize(schema, qualifier, binds, list[0]), NormalizeAll(schema, qualifier, binds, list[1..]);
      if head.None? || rest.None? then None else Some([head.value] + rest.value)
  }

  // ---------------------------------------------------------------- what it keeps

  // Same row, whatever the table is called and whatever is bound.
  ghost predicate SameRow(schema: Schema, env: Env, env': Env) {
    env.row == env'.row && schema.columns <= env.row.Keys
  }

  lemma {:induction false} NormalizeKeeps(sem: Semantics, schema: Schema, env: Env, env': Env, e: Expr)
    requires SameRow(schema, env, env') && Normalize(schema, env.qualifier, env.binds, e).Some?
    ensures Eval(sem, env', Normalize(schema, env.qualifier, env.binds, e).value) == Eval(sem, env, e)
    decreases e
  {
    match e
    case Nested(x) => NormalizeKeeps(sem, schema, env, env', x);
    case Binary(op, l, r) =>
      NormalizeKeeps(sem, schema, env, env', l);
      NormalizeKeeps(sem, schema, env, env', r);
    case Unary(op, x) => NormalizeKeeps(sem, schema, env, env', x);
    case Cast(ty, x) => NormalizeKeeps(sem, schema, env, env', x);
    case IsNull(negated, x) => NormalizeKeeps(sem, schema, env, env', x);
    case Between(negated, x, low, high) =>
      NormalizeKeeps(sem, schema, env, env', x);
      NormalizeKeeps(sem, schema, env, env', low);
      NormalizeKeeps(sem, schema, env, env', high);
    case InList(negated, x, list) =>
      NormalizeKeeps(sem, schema, env, env', x);
      var a := Eval(sem, env, x);
      if a.Some? {
        NormalizeAllKeeps(sem, schema, env, env', a.value, list);
      }
    case _ =>
  }

  lemma {:induction false} NormalizeAllKeeps(sem: Semantics, schema: Schema, env: Env, env': Env, v: Value, list: seq<Expr>)
    requires SameRow(schema, env, env') && NormalizeAll(schema, env.qualifier, env.binds, list).Some?
    ensures EvalAny(sem, env', v, NormalizeAll(schema, env.qualifier, env.binds, list).value) == EvalAny(sem, env, v, list)
    decreases list
  {
    if list != [] {
      NormalizeKeeps(sem, schema, env, env', list[0]);
      NormalizeAllKeeps(sem, schema, env, env', v, list[1..]);
      var all := NormalizeAll(schema, env.qualifier, env.binds, list).value;
      assert all[1..] == NormalizeAll(schema, env.qualifier, env.binds, list[1..]).value;
    }
  }

  // A normalized predicate normalizes to itself, under any table name and any binds: nothing
  // in it refers to either.
  lemma {:induction false} NormalizeIsClosed(schema: Schema, qualifier: string, binds: seq<Bind>, e: Expr, q: string, bs: seq<Bind>)
    requires Normalize(schema, qualifier, binds, e).Some?
    ensures var p := Normalize(schema, qualifier, binds, e).value; Normalize(schema, q, bs, p) == Some(p)
    decreases e
  {
    match e
    case Nested(x) => NormalizeIsClosed(schema, qualifier, binds, x, q, bs);
    case Binary(op, l, r) =>
      NormalizeIsClosed(schema, qualifier, binds, l, q, bs);
      NormalizeIsClosed(schema, qualifier, binds, r, q, bs);
    case Unary(op, x) => NormalizeIsClosed(schema, qualifier, binds, x, q, bs);
    case Cast(ty, x) => NormalizeIsClosed(schema, qualifier, binds, x, q, bs);
    case IsNull(negated, x) => NormalizeIsClosed(schema, qualifier, binds, x, q, bs);
    case Between(negated, x, low, high) =>
      NormalizeIsClosed(schema, qualifier, binds, x, q, bs);
      NormalizeIsClosed(schema, qualifier, binds, low, q, bs);
      NormalizeIsClosed(schema, qualifier, binds, high, q, bs);
    case InList(negated, x, list) =>
      NormalizeIsClosed(schema, qualifier, binds, x, q, bs);
      NormalizeAllIsClosed(schema, qualifier, binds, list, q, bs);
    case _ =>
  }

  lemma {:induction false} NormalizeAllIsClosed(schema: Schema, qualifier: string, binds: seq<Bind>, list: seq<Expr>, q: string, bs: seq<Bind>)
    requires NormalizeAll(schema, qualifier, binds, list).Some?
    ensures var p := NormalizeAll(schema, qualifier, binds, list).value; NormalizeAll(schema, q, bs, p) == Some(p)
    decreases list
  {
    if list != [] {
      NormalizeIsClosed(schema, qualifier, binds, list[0], q, bs);
      NormalizeAllIsClosed(schema, qualifier, binds, list[1..], q, bs);
      var all := NormalizeAll(schema, qualifier, binds, list).value;
      assert all[1..] == NormalizeAll(schema, qualifier, binds, list[1..]).value;
    }
  }

  // ---------------------------------------------------------------- the query

  function QualifierOf(query: Query): string
    requires |query.table| == 1
  {
    if query.alias.Some? then query.alias.value else query.table[0]
  }

  // A projection is admitted when it is a wildcard of this table or an admitted expression.
  predicate ProjectionOk(schema: Schema, qualifier: string, binds: seq<Bind>, item: Projection) {
    match item
    case Wildcard => true
    case TableWildcard(table) => table == qualifier
    case Selected(e) => Normalize(schema, qualifier, binds, e).Some?
    case OtherItem => false
  }

  predicate ShapeOk(query: Query, schema: Schema) {
    query.plain && query.selection.Some? && query.joins == 0 && |query.table| == 1 && query.table[0] == schema.relation
  }

  // Infers the scope of a query, or nothing, which stands for the full closure. A scope selects
  // exactly the rows the WHERE clause selects, with the same three-valued result on each.
  method InferScope(query: Query, binds: seq<Bind>, schema: Schema) returns (r: Option<Expr>)
    ensures r.Some? <==>
      && ShapeOk(query, schema)
      && (forall i :: 0 <= i < |query.projection| ==> ProjectionOk(schema, QualifierOf(query), binds, query.projection[i]))
      && Normalize(schema, QualifierOf(query), binds, query.selection.value).Some?
      && NormalizeAll(schema, QualifierOf(query), binds, query.trailing).Some?
    ensures r.Some? ==> forall sem: Semantics, row: map<string, Value>, q: string, bs: seq<Bind> :: schema.columns <= row.Keys ==>
      Eval(sem, Env(row, q, bs), r.value) == Eval(sem, Env(row, QualifierOf(query), binds), query.selection.value)
    ensures r.Some? ==> forall q: string, bs: seq<Bind> :: Normalize(schema, q, bs, r.value) == r
  {
    if !ShapeOk(query, schema) {
      return None;
    }
    var qualifier := QualifierOf(query);
    var i := 0;
    while i < |query.projection|
      invariant 0 <= i <= |query.projection|
      invariant forall k :: 0 <= k < i ==> ProjectionOk(schema, qualifier, binds, query.projection[k])
    {
      if !ProjectionOk(schema, qualifier, binds, query.projection[i]) {
        return None;
      }
      i := i + 1;
    }
    if NormalizeAll(schema, qualifier, binds, query.trailing).None? {
      return None;
    }
    r := Normalize(schema, qualifier, binds, query.selection.value);
    if r.Some? {
      forall sem: Semantics, row: map<string, Value>, q: string, bs: seq<Bind> | schema.columns <= row.Keys
        ensures Eval(sem, Env(row, q, bs), r.value) == Eval(sem, Env(row, qualifier, binds), query.selection.value)
      {
        NormalizeKeeps(sem, schema, Env(row, qualifier, binds), Env(row, q, bs), query.selection.value);
      }
      forall q: string, bs: seq<Bind> ensures Normalize(schema, q, bs, r.value) == r {
        NormalizeIsClosed(schema, qualifier, binds, query.selection.value, q, bs);
      }
    }
  }
}
