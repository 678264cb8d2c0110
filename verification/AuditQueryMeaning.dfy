/** The emitted WHERE text selects exactly the events the caller asked for. */
module AuditQueryMeaning {
  import opened Wrappers
  import opened AuditQuery

  // The text reads back as its clauses.

  lemma {:induction false} SplitAtFirstAnd(p: string, rest: string)
    requires 'A' !in p
    ensures SplitAnd(p + " AND " + rest) == [p] + SplitAnd(rest)
  {
    var s := p + " AND " + rest;
    if p == "" {
      assert s[..5] == " AND " && s[5..] == rest;
    } else {
      assert s[1..] == p[1..] + " AND " + rest;
      SplitAtFirstAnd(p[1..], rest);
      assert s[1] == (if |p| > 1 then p[1] else ' ');
      assert s[..5] != " AND ";
      assert [s[0]] + p[1..] == p;
    }
  }

  lemma {:induction false} SplitWithoutAnd(p: string)
    requires 'A' !in p
    ensures SplitAnd(p) == [p]
  {
    if |p| >= 5 {
      assert p[..5] != " AND " by {
        assert p[..5][1] == p[1];
      }
      SplitWithoutAnd(p[1..]);
      assert [p[0]] + p[1..] == p;
    }
  }

  lemma {:induction false} SplitUndoesJoin(parts: seq<string>)
    requires parts != [] && forall p :: p in parts ==> 'A' !in p
    ensures SplitAnd(JoinAnd(parts)) == parts
  {
    if |parts| == 1 {
      SplitWithoutAnd(parts[0]);
    } else {
      SplitUndoesJoin(parts[1..]);
      SplitAtFirstAnd(parts[0], JoinAnd(parts[1..]));
      assert JoinAnd(parts) == parts[0] + " AND " + JoinAnd(parts[1..]);
    }
  }

  // What each clause means.

  function ColumnName(f: Filter): string {
    match f
    case From => "ts_unix_nano"
    case To => "ts_unix_nano"
    case Actor => "actor_sub"
    case Verb => "verb"
    case Outcome => "outcome"
    case Cluster => "cluster"
    case Namespace => "res_namespace"
    case ResourceName => "res_name"
    case RequestId => "request_id"
  }

  function Column(f: Filter, r: Row): Value {
    match f
    case From => r.tsUnixNano
    case To => r.tsUnixNano
    case Actor => r.actorSub
    case Verb => r.verb
    case Outcome => r.outcome
    case Cluster => r.cluster
    case Namespace => r.resNamespace
    case ResourceName => r.resName
    case RequestId => r.requestId
  }

  function Operator(f: Filter): Op {
    match f
    case From => Ge
    case To => Lt
    case _ => Eq
  }

  function OperatorText(op: Op): string {
    match op
    case Eq => " = ?"
    case Ge => " >= ?"
    case Lt => " < ?"
  }

  lemma ClauseTextForm(f: Filter)
    ensures ClauseText(f) == ColumnName(f) + OperatorText(Operator(f))
  {
  }

  lemma ColumnByName(f: Filter, r: Row)
    ensures Cell(r, ColumnName(f)) == Some(Column(f, r))
  {
  }

  lemma EndsWithOwn(column: string, suffix: string)
    ensures EndsWith(column + suffix, suffix) && (column + suffix)[..|column + suffix| - |suffix|] == column
  {
    assert (column + suffix)[|column + suffix| - |suffix|..] == suffix;
  }

  lemma EndsDifferently(s: string, suffix: string, k: nat)
    requires k < |suffix| && k < |s| && s[|s| - 1 - k] != suffix[|suffix| - 1 - k]
    ensures !EndsWith(s, suffix)
  {
    if |suffix| <= |s| {
      assert s[|s| - |suffix|..][|suffix| - 1 - k] == s[|s| - 1 - k];
    }
  }

  lemma ParseEq(column: string)
    ensures ParseClause(column + " = ?") == Some((column, Eq))
  {
    EndsWithOwn(column, " = ?");
  }

  lemma ParseGe(column: string)
    ensures ParseClause(column + " >= ?") == Some((column, Ge))
  {
    EndsWithOwn(column, " >= ?");
    EndsDifferently(column + " >= ?", " = ?", 3);
  }

  lemma ParseLt(column: string)
    ensures ParseClause(column + " < ?") == Some((column, Lt))
  {
    EndsWithOwn(column, " < ?");
    EndsDifferently(column + " < ?", " = ?", 2);
    EndsDifferently(column + " < ?", " >= ?", 2);
  }

  lemma ParseForm(column: string, op: Op)
    ensures ParseClause(column + OperatorText(op)) == Some((column, op))
  {
    match op
    case Eq => ParseEq(column);
    case Ge => ParseGe(column);
    case Lt => ParseLt(column);
  }

  lemma ClauseMeans(f: Filter, arg: Value, r: Row)
    ensures EvalClause(ClauseText(f), arg, r) == Some(Compare(Column(f, r), Operator(f), arg))
  {
    ClauseTextForm(f);
    ParseForm(ColumnName(f), Operator(f));
    ColumnByName(f, r);
  }

  /** A column name has no capital and no question mark. */
  predicate Plain(s: string) {
    forall i :: 0 <= i < |s| ==> s[i] != 'A' && s[i] != '?'
  }

  lemma ColumnIsPlain(f: Filter)
    ensures Plain(ColumnName(f))
  {
  }

  lemma ClauseTextIsPlain(f: Filter)
    ensures 'A' !in ClauseText(f) && Placeholders(ClauseText(f)) == 1
  {
    ClauseTextForm(f);
    ColumnIsPlain(f);
    var column, op := ColumnName(f), OperatorText(Operator(f));
    NoMark(column);
    PlaceholdersAppend(column, op);
    OperatorHasOneMark(Operator(f));
  }

  lemma PlaceholdersAppend(a: string, b: string)
    ensures Placeholders(a + b) == Placeholders(a) + Placeholders(b)
  {
  }

  lemma NoMark(s: string)
    requires '?' !in s
    ensures Placeholders(s) == 0
  {
  }

  lemma MarkAtEnd(s: string)
    requires '?' !in s
    ensures Placeholders(s + "?") == 1
  {
    NoMark(s);
    PlaceholdersAppend(s, "?");
  }

  lemma EqHasOneMark()
    ensures 'A' !in " = ?" && Placeholders(" = ?") == 1
  {
    var s := " = ";
    assert " = ?" == s + "?";
    MarkAtEnd(s);
  }

  lemma GeHasOneMark()
    ensures 'A' !in " >= ?" && Placeholders(" >= ?") == 1
  {
    var s := " >= ";
    assert " >= ?" == s + "?";
    MarkAtEnd(s);
  }

  lemma LtHasOneMark()
    ensures 'A' !in " < ?" && Placeholders(" < ?") == 1
  {
    var s := " < ";
    assert " < ?" == s + "?";
    MarkAtEnd(s);
  }

  lemma OperatorHasOneMark(op: Op)
    ensures 'A' !in OperatorText(op) && Placeholders(OperatorText(op)) == 1
  {
    EqHasOneMark();
    GeHasOneMark();
    LtHasOneMark();
  }

  // What the conjunction means.

  predicate Holds(b: Bound, r: Row) {
    Compare(Column(b.filter, r), Operator(b.filter), b.arg) == True
  }

  ghost predicate AllHold(bs: seq<Bound>, r: Row) {
    forall b :: b in bs ==> Holds(b, r)
  }

  lemma AllHoldCons(b: Bound, bs: seq<Bound>, r: Row)
    ensures AllHold([b] + bs, r) <==> Holds(b, r) && AllHold(bs, r)
  {
    assert b in [b] + bs;
    assert forall c :: c in bs ==> c in [b] + bs;
  }

  lemma {:induction false} ConjunctionMeans(bs: seq<Bound>, r: Row)
    ensures
      var v := EvalClauses(Clauses(bs), Args(bs), r);
      v.Some? && (v.value == True <==> AllHold(bs, r))
  {
    if bs != [] {
      ClauseMeans(bs[0].filter, bs[0].arg, r);
      ConjunctionMeans(bs[1..], r);
      AllHoldCons(bs[0], bs[1..], r);
      assert bs == [bs[0]] + bs[1..];
      EvalCons(ClauseText(bs[0].filter), Clauses(bs[1..]), bs[0].arg, Args(bs[1..]), r);
    }
  }

  lemma EvalCons(c: string, cs: seq<string>, arg: Value, args: seq<Value>, r: Row)
    requires EvalClause(c, arg, r).Some? && EvalClauses(cs, args, r).Some?
    ensures EvalClauses([c] + cs, [arg] + args, r)
         == Some(And(EvalClause(c, arg, r).value, EvalClauses(cs, args, r).value))
  {
    assert ([c] + cs)[1..] == cs && ([arg] + args)[1..] == args;
  }

  lemma {:induction false} ClausesArePlain(bs: seq<Bound>)
    ensures forall c :: c in Clauses(bs) ==> 'A' !in c && Placeholders(c) == 1
  {
    if bs != [] {
      ClauseTextIsPlain(bs[0].filter);
      ClausesArePlain(bs[1..]);
    }
  }

  lemma AndHasNoMark()
    ensures Placeholders(" AND ") == 0
  {
    NoMark(" AND ");
  }

  lemma WhereHasNoMark()
    ensures Placeholders("WHERE ") == 0
  {
    NoMark("WHERE ");
  }

  lemma {:induction false} JoinCountsPlaceholders(parts: seq<string>)
    requires parts != [] && forall p :: p in parts ==> Placeholders(p) == 1
    ensures Placeholders(JoinAnd(parts)) == |parts|
  {
    assert parts[0] in parts;
    if |parts| > 1 {
      JoinCountsPlaceholders(parts[1..]);
      var rest := JoinAnd(parts[1..]);
      AndHasNoMark();
      PlaceholdersAppend(parts[0], " AND ");
      PlaceholdersAppend(parts[0] + " AND ", rest);
    }
  }

  lemma TextCountsPlaceholders(bs: seq<Bound>)
    requires bs != []
    ensures Placeholders("WHERE " + JoinAnd(Clauses(bs))) == |bs|
  {
    ClausesArePlain(bs);
    JoinCountsPlaceholders(Clauses(bs));
    WhereHasNoMark();
    PlaceholdersAppend("WHERE ", JoinAnd(Clauses(bs)));
  }

  /** One placeholder for each argument. */
  lemma PlaceholdersMatchArgs(q: QueryArgs)
    ensures Placeholders(WhereText(q)) == |Args(Filters(q))|
  {
    if Filters(q) != [] {
      TextCountsPlaceholders(Filters(q));
    }
  }

  lemma FiltersMeanMatches(q: QueryArgs, e: Event)
    ensures AllHold(Filters(q), Record(e)) <==> Matches(q, e)
  {
    var r := Record(e);
    assert forall b :: b in Filters(q) <==> b in ActorFilters(q) || b in ActionFilters(q) || b in ObjectFilters(q);
    ActorFiltersMean(q, e);
    ActionFiltersMean(q, e);
    ObjectFiltersMean(q, e);
  }

  lemma ActorFiltersMean(q: QueryArgs, e: Event)
    ensures AllHold(ActorFilters(q), Record(e)) <==>
              && (q.from.Some? ==> q.from.value <= e.timestamp)
              && (q.to.Some? ==> e.timestamp < q.to.value)
              && (q.actor != "" ==> e.actorSub == q.actor)
  {
    WhenMeans(q.from.Some?, From, IntOf(q.from), Record(e));
    WhenMeans(q.to.Some?, To, IntOf(q.to), Record(e));
    WhenMeans(q.actor != "", Actor, Text(q.actor), Record(e));
  }

  lemma ActionFiltersMean(q: QueryArgs, e: Event)
    ensures AllHold(ActionFilters(q), Record(e)) <==>
              && (q.verb != "" ==> e.verb == q.verb)
              && (q.outcome != "" ==> e.outcome == q.outcome)
              && (q.cluster != "" ==> e.cluster == q.cluster)
  {
    WhenMeans(q.verb != "", Verb, Text(q.verb), Record(e));
    WhenMeans(q.outcome != "", Outcome, Text(q.outcome), Record(e));
    WhenMeans(q.cluster != "", Cluster, Text(q.cluster), Record(e));
  }

  lemma ObjectFiltersMean(q: QueryArgs, e: Event)
    ensures AllHold(ObjectFilters(q), Record(e)) <==>
              && (q.namespace_ != "" ==> e.namespace_ == q.namespace_)
              && (q.resourceName != "" ==> e.name == q.resourceName)
              && (q.requestId != "" ==> e.requestId == q.requestId)
  {
    WhenMeans(q.namespace_ != "", Namespace, Text(q.namespace_), Record(e));
    WhenMeans(q.resourceName != "", ResourceName, Text(q.resourceName), Record(e));
    WhenMeans(q.requestId != "", RequestId, Text(q.requestId), Record(e));
  }

  lemma WhenMeans(set_: bool, f: Filter, arg: Value, r: Row)
    ensures AllHold(When(set_, f, arg), r) <==> (set_ ==> Holds(Bound(f, arg), r))
  {
    if set_ {
      assert Bound(f, arg) in When(set_, f, arg);
    }
  }

  /** On any stored row the engine accepts the text with its arguments, and selects the row exactly
      when the event it was stored from meets every filter that is set. An unset column is NULL and
      compares as unknown, so a filter never selects it. */
  lemma WhereSelectsMatches(q: QueryArgs, e: Event)
    ensures
      var v := EvalWhere(WhereText(q), Args(Filters(q)), Record(e));
      v.Some? && (v.value == True <==> Matches(q, e))
  {
    var bs := Filters(q);
    FiltersMeanMatches(q, e);
    if bs != [] {
      ConjunctionMeans(bs, Record(e));
      ClausesArePlain(bs);
      SplitUndoesJoin(Clauses(bs));
      var text := WhereText(q);
      assert text[..6] == "WHERE " && text[6..] == JoinAnd(Clauses(bs));
    }
  }
}
