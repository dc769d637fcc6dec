/** The SELECT statements CollectionDb sends to SQLite: CollectionDb.sqlSelect,
    which assembles statement text and bind arguments from a table, a field list,
    a WHERE description, INNER JOINs and ORDER BY terms, and concatKeys, which
    builds the string keys of the id caches. Java's HashMaps appear as sequences
    of entries in the order the map iterates them. */
module SelectStatement {
  import opened Common

  /** WhereInfo: each key is compared with each of its values, and all the
      comparisons are chained with `connection` ("AND" or "OR"). */
  datatype WhereInfo = WhereInfo(connection: string, where: seq<(string, seq<string>)>)

  /** JoinInfo: INNER JOIN `table` ON the conjunction of `left = right`. */
  datatype JoinInfo = JoinInfo(table: string, conditions: seq<(string, string)>)

  /** What mDb.rawQuery receives: the statement text and the bind arguments
      (null when there are none). */
  datatype SqlQuery = SqlQuery(statement: string, args: Option<seq<string>>)

  /** The placeholder comparison for one where key. */
  function WhereTerm(table: string, key: string): string {
    table + "." + key + " = ?"
  }

  /** One comparison per (key, value) pair, keys in map order and each key's
      values in array order. */
  function Conditions(table: string, entries: seq<(string, seq<string>)>): seq<string>
  {
    if |entries| == 0 then []
    else
      var last := entries[|entries| - 1];
      Conditions(table, entries[..|entries| - 1]) + Copies(WhereTerm(table, last.0), |last.1|)
  }

  /** `n` copies of `term`. */
  function Copies(term: string, n: nat): (r: seq<string>)
    ensures |r| == n
  {
    if n == 0 then [] else Copies(term, n - 1) + [term]
  }

  /** The bind values, in the same order as the comparisons. */
  function WhereValues(entries: seq<(string, seq<string>)>): seq<string>
  {
    if |entries| == 0 then []
    else WhereValues(entries[..|entries| - 1]) + entries[|entries| - 1].1
  }

  lemma {:induction false} ConditionsMatchValues(table: string, entries: seq<(string, seq<string>)>)
    ensures |Conditions(table, entries)| == |WhereValues(entries)|
    decreases |entries|
  {
    if |entries| > 0 {
      ConditionsMatchValues(table, entries[..|entries| - 1]);
    }
  }

  function WhereSeparator(w: WhereInfo): string {
    " " + w.connection + " "
  }

  function WhereClause(table: string, where: Option<WhereInfo>): string
  {
    match where
    case None => ""
    case Some(w) => " WHERE " + Join(Conditions(table, w.where), WhereSeparator(w))
  }

  function WhereArgs(where: Option<WhereInfo>): Option<seq<string>>
  {
    var values := if where.Some? then WhereValues(where.value.where) else [];
    if |values| > 0 then Some(values) else None
  }

  /** A filter on one key: one `table.key = ?` term per value, separated by
      the connective, and the values bound in order (no arguments at all when
      there are no values). */
  lemma {:induction false} SingleKeyWhere(table: string, connection: string, key: string, values: seq<string>)
    ensures WhereClause(table, Some(WhereInfo(connection, [(key, values)])))
            == " WHERE " + Join(Copies(WhereTerm(table, key), |values|), " " + connection + " ")
    ensures WhereArgs(Some(WhereInfo(connection, [(key, values)]))) == if |values| > 0 then Some(values) else None
  {
    var entries := [(key, values)];
    var terms := Copies(WhereTerm(table, key), |values|);
    assert entries[..0] == [];
    assert Conditions(table, entries) == terms by {
      assert Conditions(table, entries) == Conditions(table, entries[..0]) + terms;
    }
    assert WhereValues(entries) == values by {
      assert WhereValues(entries) == WhereValues(entries[..0]) + values;
    }
  }

  function JoinCondition(c: (string, string)): string {
    c.0 + " = " + c.1
  }

  function JoinConditions(cs: seq<(string, string)>): seq<string>
    ensures |JoinConditions(cs)| == |cs|
  {
    if |cs| == 0 then [] else JoinConditions(cs[..|cs| - 1]) + [JoinCondition(cs[|cs| - 1])]
  }

  function JoinPart(j: JoinInfo): string {
    " INNER JOIN " + j.table + " ON " + Join(JoinConditions(j.conditions), " AND ")
  }

  function JoinParts(js: seq<JoinInfo>): seq<string>
    ensures |JoinParts(js)| == |js|
  {
    if |js| == 0 then [] else JoinParts(js[..|js| - 1]) + [JoinPart(js[|js| - 1])]
  }

  function JoinClause(joins: Option<seq<JoinInfo>>): string {
    if joins.None? then "" else Concat(JoinParts(joins.value))
  }

  function FieldsClause(fields: Option<seq<string>>): string {
    if fields.None? then "*" else Join(fields.value, ", ")
  }

  /** ORDER BY with the terms separated by " , ". */
  function OrderClause(orderBy: Option<seq<string>>): string {
    if orderBy.None? then "" else " ORDER BY " + Join(orderBy.value, " , ")
  }

  /** The statement up to the joins. */
  function Head(table: string, fields: Option<seq<string>>, joins: Option<seq<JoinInfo>>): string {
    "SELECT " + FieldsClause(fields) + " FROM " + table + JoinClause(joins)
  }

  /** What the ORDER BY loop appends to the join string for `n` terms: one
      " , " before every term but the first. */
  function OrderSeparators(n: nat): string {
    if n == 0 then "" else Repeat(" , ", n - 1)
  }

  /** The statement and arguments sqlSelect is meant to produce. */
  function Select(table: string, fields: Option<seq<string>>, where: Option<WhereInfo>,
                  joins: Option<seq<JoinInfo>>, orderBy: Option<seq<string>>): SqlQuery
  {
    SqlQuery(Head(table, fields, joins) + WhereClause(table, where) + OrderClause(orderBy),
             WhereArgs(where))
  }

  /** The statement sqlSelect produces as written: the ORDER BY loop appends its
      separators to the join string and none to the order string. */
  function SelectAsWritten(table: string, fields: Option<seq<string>>, where: Option<WhereInfo>,
                           joins: Option<seq<JoinInfo>>, orderBy: Option<seq<string>>): SqlQuery
  {
    var separators := if orderBy.Some? then OrderSeparators(|orderBy.value|) else "";
    var order := if orderBy.None? then "" else " ORDER BY " + Concat(orderBy.value);
    SqlQuery(Head(table, fields, joins) + separators + WhereClause(table, where) + order,
             WhereArgs(where))
  }

  lemma {:induction false} JoinOne(parts: seq<string>, sep: string)
    requires |parts| == 1
    ensures Join(parts, sep) == Concat(parts) == parts[0]
  {
    assert Concat(parts) == Concat(parts[..0]) + parts[0];
  }

  /** With at most one ORDER BY term, as every caller in CollectionDb passes,
      the written and the intended statement coincide. */
  lemma {:induction false} SingleOrderTermAgrees(table: string, fields: Option<seq<string>>, where: Option<WhereInfo>,
                              joins: Option<seq<JoinInfo>>, orderBy: Option<seq<string>>)
    requires orderBy.Some? ==> |orderBy.value| <= 1
    ensures SelectAsWritten(table, fields, where, joins, orderBy) == Select(table, fields, where, joins, orderBy)
  {
    var head := Head(table, fields, joins);
    assert head + "" == head;
    if orderBy.Some? && |orderBy.value| == 1 {
      JoinOne(orderBy.value, " , ");
    }
  }

  /** The statement of a lookup with no ORDER BY term or one: the head, the
      WHERE clause and, for one term, ` ORDER BY ` and that term. */
  lemma {:induction false} OrderedLookup(table: string, fields: Option<seq<string>>, where: Option<WhereInfo>,
                                         joins: Option<seq<JoinInfo>>, orderBy: Option<seq<string>>)
    ensures (orderBy.Some? ==> |orderBy.value| <= 1) ==>
              SelectAsWritten(table, fields, where, joins, orderBy) == Select(table, fields, where, joins, orderBy)
    ensures orderBy.None? ==>
              SelectAsWritten(table, fields, where, joins, orderBy).statement
              == Head(table, fields, joins) + WhereClause(table, where)
    ensures orderBy.Some? && |orderBy.value| == 1 ==>
              SelectAsWritten(table, fields, where, joins, orderBy).statement
              == Head(table, fields, joins) + WhereClause(table, where) + " ORDER BY " + orderBy.value[0]
  {
    if orderBy.None? || |orderBy.value| <= 1 {
      SingleOrderTermAgrees(table, fields, where, joins, orderBy);
    }
    if orderBy.Some? && |orderBy.value| == 1 {
      JoinOne(orderBy.value, " , ");
    }
  }

  lemma TwoTerms()
    ensures Concat(["a", "b"]) == "ab"
    ensures Join(["a", "b"], " , ") == "a , b"
    ensures Repeat(" , ", 1) == " , " == OrderSeparators(2)
  {
    assert ["a", "b"][..1] == ["a"];
    JoinOne(["a"], " , ");
  }

  /** With two ORDER BY terms the written statement puts the separator after the
      joins and runs the terms together... */
  lemma TwoOrderTermsAsWritten()
    ensures SelectAsWritten("t", None, None, None, Some(["a", "b"])).statement
            == "SELECT * FROM t ,  ORDER BY ab"
  {
    var head := Head("t", None, None);
    assert head == "SELECT * FROM t";
    TwoTerms();
    assert WhereClause("t", None) == "";
    var q := SelectAsWritten("t", None, None, None, Some(["a", "b"]));
    assert q.statement == head + " , " + "" + " ORDER BY ab";
    assert head + " , " == "SELECT * FROM t , ";
    assert head + " , " + "" == "SELECT * FROM t , ";
  }

  /** ...where the intended statement separates them. */
  lemma TwoOrderTermsIntended()
    ensures Select("t", None, None, None, Some(["a", "b"])).statement
            == "SELECT * FROM t ORDER BY a , b"
  {
    assert Head("t", None, None) == "SELECT * FROM t";
    assert WhereClause("t", None) == "";
    TwoTermsClause();
  }

  lemma TwoTermsClause()
    ensures OrderClause(Some(["a", "b"])) == " ORDER BY a , b"
  {
    TwoTerms();
  }

  // ---------------------------------------------------------------------------
  // Placeholders and bind arguments

  /** Total number of `c` in the parts. */
  function SumCount(parts: seq<string>, c: char): nat
  {
    if |parts| == 0 then 0 else SumCount(parts[..|parts| - 1], c) + CountChar(parts[|parts| - 1], c)
  }

  lemma {:induction false} JoinCount(parts: seq<string>, sep: string, c: char)
    requires c !in sep
    ensures CountChar(Join(parts, sep), c) == SumCount(parts, c)
    decreases |parts|
  {
    if |parts| == 1 {
      assert SumCount(parts, c) == SumCount(parts[..0], c) + CountChar(parts[0], c);
    } else if |parts| > 1 {
      var p := parts[..|parts| - 1];
      JoinCount(p, sep, c);
      CountCharAbsent(sep, c);
      CountCharAppend(Join(p, sep), sep, c);
      CountCharAppend(Join(p, sep) + sep, parts[|parts| - 1], c);
    }
  }

  lemma {:induction false} ConcatCount(parts: seq<string>, c: char)
    ensures CountChar(Concat(parts), c) == SumCount(parts, c)
    decreases |parts|
  {
    if |parts| > 0 {
      ConcatCount(parts[..|parts| - 1], c);
      CountCharAppend(Concat(parts[..|parts| - 1]), parts[|parts| - 1], c);
    }
  }

  lemma {:induction false} SumCountAppend(a: seq<string>, b: seq<string>, c: char)
    ensures SumCount(a + b, c) == SumCount(a, c) + SumCount(b, c)
    decreases |b|
  {
    if |b| > 0 {
      assert (a + b)[..|a + b| - 1] == a + b[..|b| - 1];
      SumCountAppend(a, b[..|b| - 1], c);
    } else {
      assert a + b == a;
    }
  }

  lemma {:induction false} SumCountSame(n: nat, s: string, c: char)
    ensures SumCount(Copies(s, n), c) == n * CountChar(s, c)
    decreases n
  {
    if n > 0 {
      assert Copies(s, n)[..n - 1] == Copies(s, n - 1);
      SumCountSame(n - 1, s, c);
    }
  }

  lemma {:induction false} SumCountNone(parts: seq<string>, c: char)
    requires forall i | 0 <= i < |parts| :: c !in parts[i]
    ensures SumCount(parts, c) == 0
    decreases |parts|
  {
    if |parts| > 0 {
      SumCountNone(parts[..|parts| - 1], c);
      CountCharAbsent(parts[|parts| - 1], c);
    }
  }

  lemma {:induction false} WhereTermCount(table: string, key: string)
    requires '?' !in table && '?' !in key
    ensures CountChar(WhereTerm(table, key), '?') == 1
  {
    var pre := table + "." + key + " = ";
    assert WhereTerm(table, key) == pre + "?";
    assert '?' !in "." && '?' !in " = ";
    CountCharAbsent(pre, '?');
    CountCharAppend(pre, "?", '?');
    assert CountChar("?", '?') == 1 by {
      assert "?"[..0] == "";
    }
  }

  lemma {:induction false} ConditionsCount(table: string, entries: seq<(string, seq<string>)>)
    requires '?' !in table
    requires forall i | 0 <= i < |entries| :: '?' !in entries[i].0
    ensures SumCount(Conditions(table, entries), '?') == |Conditions(table, entries)|
    decreases |entries|
  {
    if |entries| > 0 {
      var p, last := entries[..|entries| - 1], entries[|entries| - 1];
      ConditionsCount(table, p);
      SumCountAppend(Conditions(table, p), Copies(WhereTerm(table, last.0), |last.1|), '?');
      SumCountSame(|last.1|, WhereTerm(table, last.0), '?');
      WhereTermCount(table, last.0);
    }
  }

  lemma {:induction false} HeadCount(table: string, fields: Option<seq<string>>, joins: Option<seq<JoinInfo>>)
    requires '?' !in table
    requires fields.Some? ==> forall i | 0 <= i < |fields.value| :: '?' !in fields.value[i]
    requires joins.Some? ==> forall i | 0 <= i < |joins.value| :: '?' !in JoinPart(joins.value[i])
    ensures CountChar(Head(table, fields, joins), '?') == 0
  {
    var f, j := FieldsClause(fields), JoinClause(joins);
    if fields.Some? {
      JoinCount(fields.value, ", ", '?');
      SumCountNone(fields.value, '?');
    } else {
      CountCharAbsent(f, '?');
    }
    if joins.Some? {
      ConcatCount(JoinParts(joins.value), '?');
      forall i | 0 <= i < |joins.value| ensures '?' !in JoinParts(joins.value)[i] {
        JoinPartsAt(joins.value, i);
      }
      SumCountNone(JoinParts(joins.value), '?');
    } else {
      CountCharAbsent(j, '?');
    }
    assert '?' !in "SELECT " && '?' !in " FROM ";
    CountCharAbsent("SELECT ", '?');
    CountCharAbsent(" FROM ", '?');
    CountCharAbsent(table, '?');
    CountCharAppend("SELECT ", f, '?');
    CountCharAppend("SELECT " + f, " FROM ", '?');
    CountCharAppend("SELECT " + f + " FROM ", table, '?');
    CountCharAppend("SELECT " + f + " FROM " + table, j, '?');
  }

  lemma {:induction false} WhereCount(table: string, w: WhereInfo)
    requires '?' !in table && '?' !in w.connection
    requires forall i | 0 <= i < |w.where| :: '?' !in w.where[i].0
    ensures CountChar(WhereClause(table, Some(w)), '?') == |WhereValues(w.where)|
  {
    assert '?' !in " WHERE " && '?' !in " ";
    JoinCount(Conditions(table, w.where), WhereSeparator(w), '?');
    ConditionsCount(table, w.where);
    ConditionsMatchValues(table, w.where);
    CountCharAbsent(" WHERE ", '?');
    CountCharAppend(" WHERE ", Join(Conditions(table, w.where), WhereSeparator(w)), '?');
  }

  lemma {:induction false} OrderCount(orderBy: Option<seq<string>>)
    requires orderBy.Some? ==> forall i | 0 <= i < |orderBy.value| :: '?' !in orderBy.value[i]
    ensures CountChar(OrderClause(orderBy), '?') == 0
  {
    if orderBy.Some? {
      assert '?' !in " ORDER BY " && '?' !in " , ";
      JoinCount(orderBy.value, " , ", '?');
      SumCountNone(orderBy.value, '?');
      CountCharAbsent(" ORDER BY ", '?');
      CountCharAppend(" ORDER BY ", Join(orderBy.value, " , "), '?');
    }
  }

  /** What the ORDER BY loop as written adds, after the joins and at the end,
      holds no '?' when the terms hold none. */
  lemma {:induction false} WrittenOrderCount(orderBy: Option<seq<string>>)
    requires orderBy.Some? ==> forall i | 0 <= i < |orderBy.value| :: '?' !in orderBy.value[i]
    ensures orderBy.Some? ==> CountChar(OrderSeparators(|orderBy.value|), '?') == 0
    ensures orderBy.Some? ==> CountChar(" ORDER BY " + Concat(orderBy.value), '?') == 0
  {
    if orderBy.Some? {
      assert '?' !in " ORDER BY " && '?' !in " , ";
      if |orderBy.value| > 0 {
        RepeatCount(" , ", |orderBy.value| - 1, '?');
      } else {
        CountCharAbsent("", '?');
      }
      ConcatCount(orderBy.value, '?');
      SumCountNone(orderBy.value, '?');
      CountCharAbsent(" ORDER BY ", '?');
      CountCharAppend(" ORDER BY ", Concat(orderBy.value), '?');
    }
  }

  lemma {:induction false} RepeatCount(s: string, n: nat, c: char)
    requires c !in s
    ensures CountChar(Repeat(s, n), c) == 0
    decreases n
  {
    if n > 0 {
      RepeatCount(s, n - 1, c);
      CountCharAbsent(s, c);
      CountCharAppend(Repeat(s, n - 1), s, c);
    }
  }

  /** The names of the query: none of them holds a '?'. */
  predicate NamesFree(table: string, fields: Option<seq<string>>, where: Option<WhereInfo>,
                      joins: Option<seq<JoinInfo>>, orderBy: Option<seq<string>>)
  {
    && '?' !in table
    && (fields.Some? ==> forall i | 0 <= i < |fields.value| :: '?' !in fields.value[i])
    && (where.Some? ==> '?' !in where.value.connection
                        && forall i | 0 <= i < |where.value.where| :: '?' !in where.value.where[i].0)
    && (joins.Some? ==> forall i | 0 <= i < |joins.value| :: '?' !in JoinPart(joins.value[i]))
    && (orderBy.Some? ==> forall i | 0 <= i < |orderBy.value| :: '?' !in orderBy.value[i])
  }

  /** Every '?' of the statement has its bind argument: when no name holds a
      '?', the statement has exactly as many placeholders as there are
      arguments, and the arguments are the where values in comparison order. */
  lemma {:induction false} PlaceholdersMatchArgs(table: string, fields: Option<seq<string>>, where: Option<WhereInfo>,
                              joins: Option<seq<JoinInfo>>, orderBy: Option<seq<string>>)
    requires NamesFree(table, fields, where, joins, orderBy)
    ensures var q := Select(table, fields, where, joins, orderBy);
            CountChar(q.statement, '?') == (if q.args.None? then 0 else |q.args.value|)
    ensures where.None? ==> Select(table, fields, where, joins, orderBy).args.None?
    ensures var q := SelectAsWritten(table, fields, where, joins, orderBy);
            CountChar(q.statement, '?') == (if q.args.None? then 0 else |q.args.value|)
    ensures where.None? ==> SelectAsWritten(table, fields, where, joins, orderBy).args.None?
  {
    var h, w, o := Head(table, fields, joins), WhereClause(table, where), OrderClause(orderBy);
    var seps := if orderBy.Some? then OrderSeparators(|orderBy.value|) else "";
    var order := if orderBy.None? then "" else " ORDER BY " + Concat(orderBy.value);
    var args := WhereArgs(where);
    var n := if args.None? then 0 else |args.value|;
    assert CountChar(h, '?') == 0 by { HeadCount(table, fields, joins); }
    assert CountChar(w, '?') == n && (where.None? ==> args.None?) by {
      if where.Some? {
        WhereCount(table, where.value);
      } else {
        CountCharAbsent(w, '?');
      }
    }
    assert CountChar(o, '?') == 0 by { OrderCount(orderBy); }
    assert CountChar(seps, '?') == 0 && CountChar(order, '?') == 0 by {
      WrittenOrderCount(orderBy);
      CountCharAbsent("", '?');
    }
    assert CountChar(h + w + o, '?') == n by {
      CountCharAppend(h, w, '?');
      CountCharAppend(h + w, o, '?');
    }
    assert CountChar(h + seps + w + order, '?') == n by {
      CountCharAppend(h, seps, '?');
      CountCharAppend(h + seps, w, '?');
      CountCharAppend(h + seps + w, order, '?');
    }
  }

  lemma {:induction false} JoinPartsAt(js: seq<JoinInfo>, i: int)
    requires 0 <= i < |js|
    ensures JoinParts(js)[i] == JoinPart(js[i])
    decreases |js|
  {
    if i < |js| - 1 {
      JoinPartsAt(js[..|js| - 1], i);
    }
  }

  // ---------------------------------------------------------------------------
  // The imperative builder

  /** The parts joined by `sep`, with the "notFirst" flag loop every clause of
      sqlSelect uses. */
  method JoinWith(parts: seq<string>, sep: string) returns (s: string)
    ensures s == Join(parts, sep)
  {
    s := "";
    var notFirst := false;
    for i := 0 to |parts|
      invariant s == Join(parts[..i], sep)
      invariant notFirst <==> i > 0
    {
      assert parts[..i + 1][..i] == parts[..i];
      if notFirst {
        s := s + sep;
      }
      notFirst := true;
      s := s + parts[i];
    }
    assert parts[..|parts|] == parts;
  }

  lemma {:induction false} JoinSnoc(parts: seq<string>, x: string, sep: string)
    ensures Join(parts + [x], sep) == if |parts| == 0 then x else Join(parts, sep) + sep + x
  {
    assert (parts + [x])[..|parts|] == parts;
  }

  /** One more comparison after `done` and `j` copies of `term`. */
  lemma {:induction false} WhereStep(done: seq<string>, term: string, j: nat, sep: string)
    ensures var before := done + Copies(term, j);
            Join(done + Copies(term, j + 1), sep)
            == if |before| == 0 then term else Join(before, sep) + sep + term
  {
    assert done + Copies(term, j + 1) == (done + Copies(term, j)) + [term];
    JoinSnoc(done + Copies(term, j), term, sep);
  }

  /** One turn of the inner WHERE loop: a separator when a comparison is
      already there, then the comparison. */
  lemma {:induction false} AppendStep(clause: string, notFirst: bool, done: seq<string>, term: string, j: nat, sep: string)
    requires clause == " WHERE " + Join(done + Copies(term, j), sep)
    requires notFirst <==> |done + Copies(term, j)| > 0
    ensures (if notFirst then clause + sep else clause) + term == " WHERE " + Join(done + Copies(term, j + 1), sep)
    ensures |done + Copies(term, j + 1)| > 0
  {
    WhereStep(done, term, j, sep);
  }

  /** The inner WHERE loop: one comparison per value of one key, appended to
      a clause that already holds the comparisons `done`. */
  method AppendComparisons(clause0: string, values0: seq<string>, notFirst0: bool, ghost done: seq<string>,
                           term: string, whereValues: seq<string>, sep: string)
    returns (clause: string, values: seq<string>, notFirst: bool)
    requires clause0 == " WHERE " + Join(done, sep)
    requires notFirst0 <==> |done| > 0
    ensures clause == " WHERE " + Join(done + Copies(term, |whereValues|), sep)
    ensures values == values0 + whereValues
    ensures notFirst <==> |done + Copies(term, |whereValues|)| > 0
  {
    clause, values, notFirst := clause0, values0, notFirst0;
    assert done + Copies(term, 0) == done;
    for j := 0 to |whereValues|
      invariant clause == " WHERE " + Join(done + Copies(term, j), sep)
      invariant values == values0 + whereValues[..j]
      invariant notFirst <==> |done + Copies(term, j)| > 0
    {
      AppendStep(clause, notFirst, done, term, j, sep);
      if notFirst {
        clause := clause + sep;
      }
      notFirst := true;
      clause := clause + term;
      values := values + [whereValues[j]];
      assert values == values0 + whereValues[..j + 1] by {
        assert whereValues[..j + 1] == whereValues[..j] + [whereValues[j]];
      }
    }
    assert whereValues[..|whereValues|] == whereValues;
  }

  /** The WHERE loop: the clause and the bind values. */
  method BuildWhere(table: string, w: WhereInfo) returns (clause: string, values: seq<string>)
    ensures clause == WhereClause(table, Some(w))
    ensures values == WhereValues(w.where)
  {
    var sep := WhereSeparator(w);
    clause := " WHERE ";
    values := [];
    var notFirst := false;
    for i := 0 to |w.where|
      invariant clause == " WHERE " + Join(Conditions(table, w.where[..i]), sep)
      invariant values == WhereValues(w.where[..i])
      invariant notFirst <==> |Conditions(table, w.where[..i])| > 0
    {
      var (key, whereValues) := w.where[i];
      assert w.where[..i + 1][..i] == w.where[..i];
      clause, values, notFirst :=
        AppendComparisons(clause, values, notFirst, Conditions(table, w.where[..i]),
                          WhereTerm(table, key), whereValues, sep);
    }
    assert w.where[..|w.where|] == w.where;
  }

  /** The JOIN loop. */
  method BuildJoins(joins: seq<JoinInfo>) returns (clause: string)
    ensures clause == Concat(JoinParts(joins))
  {
    clause := "";
    for i := 0 to |joins|
      invariant clause == Concat(JoinParts(joins[..i]))
    {
      assert joins[..i + 1][..i] == joins[..i];
      ghost var before := clause;
      clause := clause + (" INNER JOIN " + joins[i].table + " ON ");
      var conditions := JoinConditions(joins[i].conditions);
      var on := JoinWith(conditions, " AND ");
      clause := clause + on;
      assert clause == before + JoinPart(joins[i]);
    }
    assert joins[..|joins|] == joins;
  }

  /** The ORDER BY loop as written: the separators go onto the join string,
      the terms onto the order string with nothing between them. */
  method BuildOrder(joinString0: string, orderBy: seq<string>) returns (joinString: string, orderString: string)
    ensures joinString == joinString0 + OrderSeparators(|orderBy|)
    ensures orderString == " ORDER BY " + Concat(orderBy)
  {
    joinString, orderString := joinString0, " ORDER BY ";
    var notFirst := false;
    assert orderBy[..0] == [];
    for i := 0 to |orderBy|
      invariant joinString == joinString0 + OrderSeparators(i)
      invariant orderString == " ORDER BY " + Concat(orderBy[..i])
      invariant notFirst <==> i > 0
    {
      assert orderBy[..i + 1][..i] == orderBy[..i];
      if notFirst {
        ghost var before := OrderSeparators(i);
        joinString := joinString + " , ";
        assert joinString == joinString0 + (before + " , ");
      }
      notFirst := true;
      orderString := orderString + orderBy[i];
    }
    assert orderBy[..|orderBy|] == orderBy;
  }

  /** The statement sqlSelect assembles from its four strings. */
  lemma {:induction false} AsWrittenPieces(table: string, fields: Option<seq<string>>, where: Option<WhereInfo>,
                                           joins: Option<seq<JoinInfo>>, orderBy: Option<seq<string>>,
                                           fieldsString: string, joinString: string,
                                           whereString: string, orderString: string)
    requires fieldsString == FieldsClause(fields)
    requires joinString == JoinClause(joins) + if orderBy.Some? then OrderSeparators(|orderBy.value|) else ""
    requires whereString == WhereClause(table, where)
    requires orderString == if orderBy.None? then "" else " ORDER BY " + Concat(orderBy.value)
    ensures "SELECT " + fieldsString + " FROM " + table + joinString + whereString + orderString
            == SelectAsWritten(table, fields, where, joins, orderBy).statement
  {
    var prefix := "SELECT " + fieldsString + " FROM " + table;
    var separators := if orderBy.Some? then OrderSeparators(|orderBy.value|) else "";
    var head := Head(table, fields, joins);
    assert head == prefix + JoinClause(joins);
    assert prefix + joinString == head + separators by {
      assert joinString == JoinClause(joins) + separators;
    }
    assert SelectAsWritten(table, fields, where, joins, orderBy).statement
           == head + separators + whereString + orderString;
  }

  /** CollectionDb.sqlSelect as written. With at most one ORDER BY term, as
      every caller passes, that is the intended statement. */
  method SqlSelect(table: string, fields: Option<seq<string>>, where: Option<WhereInfo>,
                   joins: Option<seq<JoinInfo>>, orderBy: Option<seq<string>>) returns (q: SqlQuery)
    ensures q == SelectAsWritten(table, fields, where, joins, orderBy)
    ensures (orderBy.Some? ==> |orderBy.value| <= 1) ==> q == Select(table, fields, where, joins, orderBy)
  {
    var whereString := "";
    var allWhereValues: seq<string> := [];
    if where.Some? {
      whereString, allWhereValues := BuildWhere(table, where.value);
    }
    var joinString := "";
    if joins.Some? {
      joinString := BuildJoins(joins.value);
    }
    var orderString := "";
    if orderBy.Some? {
      joinString, orderString := BuildOrder(joinString, orderBy.value);
    }
    var fieldsString := "*";
    if fields.Some? {
      fieldsString := JoinWith(fields.value, ", ");
    }
    var statement := "SELECT " + fieldsString + " FROM " + table + joinString + whereString + orderString;
    var args := None;
    if |allWhereValues| > 0 {
      args := Some(allWhereValues);
    }
    q := SqlQuery(statement, args);
    AsWrittenPieces(table, fields, where, joins, orderBy, fieldsString, joinString, whereString, orderString);
    if orderBy.Some? ==> |orderBy.value| <= 1 {
      SingleOrderTermAgrees(table, fields, where, joins, orderBy);
    }
  }

  // ---------------------------------------------------------------------------
  // Cache keys

  const KEY_SEPARATOR: string := "♣"

  /** CollectionDb.concatKeys: the keys joined by "♣". */
  method ConcatKeys(keys: seq<string>) returns (r: string)
    ensures r == Join(keys, KEY_SEPARATOR)
  {
    r := "";
    for i := 0 to |keys|
      invariant r == Join(keys[..i], KEY_SEPARATOR)
    {
      assert keys[..i + 1][..i] == keys[..i];
      if i > 0 {
        r := r + KEY_SEPARATOR;
      }
      r := r + keys[i];
    }
    assert keys[..|keys|] == keys;
  }

  /** Position of the first `ch` in `s` (|s| when there is none). */
  function IndexOf(s: string, ch: char): nat
  {
    if |s| == 0 || s[0] == ch then 0 else 1 + IndexOf(s[1..], ch)
  }

  lemma {:induction false} IndexOfAfter(a: string, rest: string, ch: char)
    requires ch !in a
    ensures IndexOf(a + [ch] + rest, ch) == |a|
    decreases |a|
  {
    if |a| > 0 {
      assert (a + [ch] + rest)[1..] == a[1..] + [ch] + rest;
      IndexOfAfter(a[1..], rest, ch);
    }
  }

  /** Two-part keys whose parts hold no separator can be split again: the
      concatenation is injective on them. */
  lemma {:induction false} PairKeyInjective(a: string, b: string, c: string, d: string)
    requires '♣' !in a && '♣' !in c
    requires Join([a, b], KEY_SEPARATOR) == Join([c, d], KEY_SEPARATOR)
    ensures a == c && b == d
  {
    JoinSnoc([a], b, KEY_SEPARATOR);
    JoinSnoc([c], d, KEY_SEPARATOR);
    JoinOne([a], KEY_SEPARATOR);
    JoinOne([c], KEY_SEPARATOR);
    var s := a + KEY_SEPARATOR + b;
    assert s == c + KEY_SEPARATOR + d;
    IndexOfAfter(a, b, '♣');
    IndexOfAfter(c, d, '♣');
    assert a == s[..|a|] && c == s[..|c|];
    assert b == s[|a| + 1..] && d == s[|c| + 1..];
  }

  /** Without that restriction two different artists can share a key. */
  lemma PairKeyCollision()
    ensures Join(["a♣b", ""], KEY_SEPARATOR) == Join(["a", "b♣"], KEY_SEPARATOR) == "a♣b♣"
  {
    JoinSnoc(["a♣b"], "", KEY_SEPARATOR);
    JoinSnoc(["a"], "b♣", KEY_SEPARATOR);
    JoinOne(["a♣b"], KEY_SEPARATOR);
    JoinOne(["a"], KEY_SEPARATOR);
  }
}
