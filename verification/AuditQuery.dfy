/**
  The audit reader's filter compiler: the WHERE text and positional arguments it emits, and what
  a SQL engine makes of them on the rows that Record stores.
  */
module AuditQuery {
  import opened Wrappers

  // Stored rows.

  datatype Value = Null | Int(n: int) | Text(s: string)

  /** Timestamps are Unix nanoseconds. The actor's groups and the extra payload are not filtered on
      and are not part of this model. */
  datatype Event = Event(
    timestamp: int,
    requestId: string,
    route: string,
    actorSub: string,
    actorEmail: string,
    verb: string,
    outcome: string,
    cluster: string,
    group: string,
    version: string,
    resource: string,
    namespace_: string,
    name: string,
    reason: string
  )

  datatype Row = Row(
    tsUnixNano: Value,
    requestId: Value,
    route: Value,
    actorSub: Value,
    actorEmail: Value,
    verb: Value,
    outcome: Value,
    cluster: Value,
    resGroup: Value,
    resVersion: Value,
    resType: Value,
    resNamespace: Value,
    resName: Value,
    reason: Value
  )

  /** Empty strings are stored as NULL. */
  function Nullable(v: string): Value {
    if v == "" then Null else Text(v)
  }

  function NullStr(v: Value): string {
    if v.Text? then v.s else ""
  }

  function Record(e: Event): Row {
    Row(Int(e.timestamp), Nullable(e.requestId), Nullable(e.route), Text(e.actorSub), Nullable(e.actorEmail),
        Text(e.verb), Text(e.outcome), Nullable(e.cluster), Nullable(e.group), Nullable(e.version),
        Nullable(e.resource), Nullable(e.namespace_), Nullable(e.name), Nullable(e.reason))
  }

  /** Reads a row back; the route is not among the selected columns. */
  function ScanRow(r: Row): Event {
    Event(if r.tsUnixNano.Int? then r.tsUnixNano.n else 0, NullStr(r.requestId), "", NullStr(r.actorSub),
          NullStr(r.actorEmail), NullStr(r.verb), NullStr(r.outcome), NullStr(r.cluster), NullStr(r.resGroup),
          NullStr(r.resVersion), NullStr(r.resType), NullStr(r.resNamespace), NullStr(r.resName), NullStr(r.reason))
  }

  lemma RecordRoundTrip(e: Event)
    ensures ScanRow(Record(e)) == e.(route := "")
  {
  }

  // SQL.

  datatype Truth = True | False | Unknown

  datatype Op = Eq | Ge | Lt

  function Cell(r: Row, column: string): Option<Value> {
    if column == "ts_unix_nano" then Some(r.tsUnixNano)
    else if column == "request_id" then Some(r.requestId)
    else if column == "actor_sub" then Some(r.actorSub)
    else if column == "verb" then Some(r.verb)
    else if column == "outcome" then Some(r.outcome)
    else if column == "cluster" then Some(r.cluster)
    else if column == "res_namespace" then Some(r.resNamespace)
    else if column == "res_name" then Some(r.resName)
    else None
  }

  /** Three-valued comparison: anything with NULL is unknown. */
  function Compare(a: Value, op: Op, b: Value): Truth {
    if a == Null || b == Null then Unknown
    else match op
      case Eq => if a == b then True else False
      case Ge => if a.Int? && b.Int? && a.n >= b.n then True else False
      case Lt => if a.Int? && b.Int? && a.n < b.n then True else False
  }

  function And(a: Truth, b: Truth): Truth {
    if a == False || b == False then False else if a == True && b == True then True else Unknown
  }

  predicate EndsWith(s: string, suffix: string) {
    |suffix| <= |s| && s[|s| - |suffix|..] == suffix
  }

  /** Reads one comparison `column op ?`. */
  function ParseClause(s: string): Option<(string, Op)> {
    if EndsWith(s, " = ?") then Some((s[..|s| - 4], Eq))
    else if EndsWith(s, " >= ?") then Some((s[..|s| - 5], Ge))
    else if EndsWith(s, " < ?") then Some((s[..|s| - 4], Lt))
    else None
  }

  /** Cuts a text at every " AND ". */
  function SplitAnd(s: string): (parts: seq<string>)
    ensures parts != []
  {
    if |s| < 5 then [s]
    else if s[..5] == " AND " then [""] + SplitAnd(s[5..])
    else
      var rest := SplitAnd(s[1..]);
      [[s[0]] + rest[0]] + rest[1..]
  }

  function EvalClause(s: string, arg: Value, r: Row): Option<Truth> {
    match ParseClause(s)
    case None => None
    case Some((column, op)) =>
      match Cell(r, column)
      case None => None
      case Some(v) => Some(Compare(v, op, arg))
  }

  /** Binds the arguments to the placeholders in order; None is an engine error. */
  function EvalClauses(clauses: seq<string>, args: seq<Value>, r: Row): Option<Truth> {
    if clauses == [] then if args == [] then Some(True) else None
    else if args == [] then None
    else
      match (EvalClause(clauses[0], args[0], r), EvalClauses(clauses[1..], args[1..], r))
      case (Some(a), Some(b)) => Some(And(a, b))
      case _ => None
  }

  /** A row is selected when its value is Some(True). */
  function EvalWhere(where: string, args: seq<Value>, r: Row): Option<Truth> {
    if where == "" then if args == [] then Some(True) else None
    else if |where| >= 6 && where[..6] == "WHERE " then EvalClauses(SplitAnd(where[6..]), args, r)
    else None
  }

  function Placeholders(s: string): nat {
    multiset(s)['?']
  }

  // The compiler.

  /** A filter left unset is None or "". */
  datatype QueryArgs = QueryArgs(
    from: Option<int>,
    to: Option<int>,
    actor: string,
    verb: string,
    outcome: string,
    cluster: string,
    namespace_: string,
    resourceName: string,
    requestId: string,
    limit: int,
    offset: int
  )

  /** What the caller asked for. */
  predicate Matches(q: QueryArgs, e: Event) {
    && (q.from.Some? ==> q.from.value <= e.timestamp)
    && (q.to.Some? ==> e.timestamp < q.to.value)
    && (q.actor != "" ==> e.actorSub == q.actor)
    && (q.verb != "" ==> e.verb == q.verb)
    && (q.outcome != "" ==> e.outcome == q.outcome)
    && (q.cluster != "" ==> e.cluster == q.cluster)
    && (q.namespace_ != "" ==> e.namespace_ == q.namespace_)
    && (q.resourceName != "" ==> e.name == q.resourceName)
    && (q.requestId != "" ==> e.requestId == q.requestId)
  }

  datatype Filter = From | To | Actor | Verb | Outcome | Cluster | Namespace | ResourceName | RequestId

  function ClauseText(f: Filter): string {
    match f
    case From => "ts_unix_nano >= ?"
    case To => "ts_unix_nano < ?"
    case Actor => "actor_sub = ?"
    case Verb => "verb = ?"
    case Outcome => "outcome = ?"
    case Cluster => "cluster = ?"
    case Namespace => "res_namespace = ?"
    case ResourceName => "res_name = ?"
    case RequestId => "request_id = ?"
  }

  datatype Bound = Bound(filter: Filter, arg: Value)

  function When(set_: bool, f: Filter, arg: Value): seq<Bound> {
    if set_ then [Bound(f, arg)] else []
  }

  function IntOf(v: Option<int>): Value {
    if v.Some? then Int(v.value) else Null
  }

  /** The clauses that apply, with their arguments: who and when ... */
  function ActorFilters(q: QueryArgs): seq<Bound> {
    When(q.from.Some?, From, IntOf(q.from))
    + When(q.to.Some?, To, IntOf(q.to))
    + When(q.actor != "", Actor, Text(q.actor))
  }

  /** ... did what ... */
  function ActionFilters(q: QueryArgs): seq<Bound> {
    When(q.verb != "", Verb, Text(q.verb))
    + When(q.outcome != "", Outcome, Text(q.outcome))
    + When(q.cluster != "", Cluster, Text(q.cluster))
  }

  /** ... to what. */
  function ObjectFilters(q: QueryArgs): seq<Bound> {
    When(q.namespace_ != "", Namespace, Text(q.namespace_))
    + When(q.resourceName != "", ResourceName, Text(q.resourceName))
    + When(q.requestId != "", RequestId, Text(q.requestId))
  }

  function Filters(q: QueryArgs): seq<Bound> {
    ActorFilters(q) + ActionFilters(q) + ObjectFilters(q)
  }

  function Texts(bs: seq<Bound>, text: Filter -> string): (cs: seq<string>)
    ensures |cs| == |bs|
  {
    if bs == [] then [] else [text(bs[0].filter)] + Texts(bs[1..], text)
  }

  function Clauses(bs: seq<Bound>): seq<string> {
    Texts(bs, ClauseText)
  }

  function Args(bs: seq<Bound>): (args: seq<Value>)
    ensures |args| == |bs|
  {
    if bs == [] then [] else [bs[0].arg] + Args(bs[1..])
  }

  function JoinAnd(parts: seq<string>): string
    requires parts != []
  {
    if |parts| == 1 then parts[0] else parts[0] + " AND " + JoinAnd(parts[1..])
  }

  function WhereText(q: QueryArgs): string {
    var cs := Clauses(Filters(q));
    if cs == [] then "" else "WHERE " + JoinAnd(cs)
  }

  lemma {:induction false} JoinAndAppend(parts: seq<string>, p: string)
    requires parts != []
    ensures JoinAnd(parts + [p]) == JoinAnd(parts) + " AND " + p
  {
    if |parts| > 1 {
      assert (parts + [p])[1..] == parts[1..] + [p];
      JoinAndAppend(parts[1..], p);
    }
  }

  method JoinParts(parts: seq<string>) returns (out: string)
    requires parts != []
    ensures out == JoinAnd(parts)
  {
    out := parts[0];
    for k := 1 to |parts|
      invariant out == JoinAnd(parts[..k])
    {
      assert parts[..k + 1] == parts[..k] + [parts[k]];
      JoinAndAppend(parts[..k], parts[k]);
      out := out + " AND " + parts[k];
    }
    assert parts[..|parts|] == parts;
  }

  lemma {:induction false} FiltersGrow(bs: seq<Bound>, text: Filter -> string, set_: bool, f: Filter, arg: Value)
    ensures Texts(bs + When(set_, f, arg), text) == if set_ then Texts(bs, text) + [text(f)] else Texts(bs, text)
    ensures Args(bs + When(set_, f, arg)) == if set_ then Args(bs) + [arg] else Args(bs)
  {
    if !set_ {
      assert bs + When(set_, f, arg) == bs;
    } else if bs != [] {
      assert (bs + [Bound(f, arg)])[1..] == bs[1..] + [Bound(f, arg)];
      FiltersGrow(bs[1..], text, set_, f, arg);
    }
  }

  lemma Regroup<T>(s: seq<T>, a: seq<T>, b: seq<T>, c: seq<T>)
    ensures s + a + b + c == s + (a + b + c)
  {
  }

  /** One filter, if it is set: its clause's text and its argument are appended together. */
  method AddFilter(set_: bool, f: Filter, arg: Value, text: Filter -> string, clauses: seq<string>, args: seq<Value>,
                   ghost bs: seq<Bound>)
    returns (clauses': seq<string>, args': seq<Value>)
    requires clauses == Texts(bs, text) && args == Args(bs)
    ensures clauses' == Texts(bs + When(set_, f, arg), text) && args' == Args(bs + When(set_, f, arg))
  {
    clauses', args' := clauses, args;
    if set_ {
      clauses', args' := clauses' + [text(f)], args' + [arg];
    }
    FiltersGrow(bs, text, set_, f, arg);
  }

  method AddActorFilters(q: QueryArgs, text: Filter -> string, clauses: seq<string>, args: seq<Value>,
                         ghost bs: seq<Bound>)
    returns (clauses': seq<string>, args': seq<Value>)
    requires clauses == Texts(bs, text) && args == Args(bs)
    ensures clauses' == Texts(bs + ActorFilters(q), text) && args' == Args(bs + ActorFilters(q))
  {
    ghost var a := When(q.from.Some?, From, IntOf(q.from));
    ghost var b := When(q.to.Some?, To, IntOf(q.to));
    ghost var c := When(q.actor != "", Actor, Text(q.actor));
    clauses', args' := AddFilter(q.from.Some?, From, IntOf(q.from), text, clauses, args, bs);
    clauses', args' := AddFilter(q.to.Some?, To, IntOf(q.to), text, clauses', args', bs + a);
    clauses', args' := AddFilter(q.actor != "", Actor, Text(q.actor), text, clauses', args', bs + a + b);
    Regroup(bs, a, b, c);
  }

  method AddActionFilters(q: QueryArgs, text: Filter -> string, clauses: seq<string>, args: seq<Value>,
                          ghost bs: seq<Bound>)
    returns (clauses': seq<string>, args': seq<Value>)
    requires clauses == Texts(bs, text) && args == Args(bs)
    ensures clauses' == Texts(bs + ActionFilters(q), text) && args' == Args(bs + ActionFilters(q))
  {
    ghost var a := When(q.verb != "", Verb, Text(q.verb));
    ghost var b := When(q.outcome != "", Outcome, Text(q.outcome));
    ghost var c := When(q.cluster != "", Cluster, Text(q.cluster));
    clauses', args' := AddFilter(q.verb != "", Verb, Text(q.verb), text, clauses, args, bs);
    clauses', args' := AddFilter(q.outcome != "", Outcome, Text(q.outcome), text, clauses', args', bs + a);
    clauses', args' := AddFilter(q.cluster != "", Cluster, Text(q.cluster), text, clauses', args', bs + a + b);
    Regroup(bs, a, b, c);
  }

  method AddObjectFilters(q: QueryArgs, text: Filter -> string, clauses: seq<string>, args: seq<Value>,
                          ghost bs: seq<Bound>)
    returns (clauses': seq<string>, args': seq<Value>)
    requires clauses == Texts(bs, text) && args == Args(bs)
    ensures clauses' == Texts(bs + ObjectFilters(q), text) && args' == Args(bs + ObjectFilters(q))
  {
    ghost var a := When(q.namespace_ != "", Namespace, Text(q.namespace_));
    ghost var b := When(q.resourceName != "", ResourceName, Text(q.resourceName));
    ghost var c := When(q.requestId != "", RequestId, Text(q.requestId));
    clauses', args' := AddFilter(q.namespace_ != "", Namespace, Text(q.namespace_), text, clauses, args, bs);
    clauses', args' := AddFilter(q.resourceName != "", ResourceName, Text(q.resourceName), text, clauses', args',
                                 bs + a);
    clauses', args' := AddFilter(q.requestId != "", RequestId, Text(q.requestId), text, clauses', args', bs + a + b);
    Regroup(bs, a, b, c);
  }

  method BuildQueryWhere(q: QueryArgs) returns (where: string, args: seq<Value>)
    ensures where == WhereText(q)
    ensures args == Args(Filters(q))
  {
    var clauses: seq<string>;
    clauses, args := AddActorFilters(q, ClauseText, [], [], []);
    clauses, args := AddActionFilters(q, ClauseText, clauses, args, [] + ActorFilters(q));
    clauses, args := AddObjectFilters(q, ClauseText, clauses, args, [] + ActorFilters(q) + ActionFilters(q));
    assert [] + ActorFilters(q) == ActorFilters(q);
    if clauses == [] {
      return "", [];
    }
    var joined := JoinParts(clauses);
    where := "WHERE " + joined;
  }
}
