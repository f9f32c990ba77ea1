/** The parameterised statements the event handlers send to the backend:
    their text, the positional parameters `$1`, `$2`, ... they mention, the
    column or condition each parameter feeds, and the parameter arrays. */
module Statements {
  import opened Sequences
  import opened Text
  import opened Events
  import opened Pagination

  /** `column = $slot` in the SET list of an update. */
  datatype Assignment = Assignment(column: string, slot: nat)

  /** The shapes of statement the handlers issue; each slot is the number of
      a positional parameter. */
  datatype Statement =
    | InsertOne(columns: seq<string>, group: seq<nat>)
    | InsertMany(columns: seq<string>, groups: seq<seq<nat>>)
    | SelectAll
    | UpdateById(assignments: seq<Assignment>, idSlot: nat)
    | DeleteById(idSlot: nat)
    | SelectByCountry(countrySlot: nat)
    | SelectPage(limitSlot: nat, offsetSlot: nat)

  /** A statement together with its parameter array; `$m` denotes `params[m - 1]`. */
  datatype Query = Query(statement: Statement, params: seq<Param>)

  /** What a positional parameter supplies: a column of an inserted or
      updated row, or an operand of the WHERE, LIMIT or OFFSET clause. */
  datatype Target = Column(row: nat, name: string) | IdMatch | CountryMatch | LimitClause | OffsetClause

  // ---------------------------------------------------------------------
  // Statement text

  /** Line break and indentation inside the multi-line template literals. */
  const Indent: string := "\n            "

  function ColumnList(columns: seq<string>): string
  {
    "(" + Join(", ", columns) + ")"
  }

  /** One row of the VALUES list: `($a, $b, ...)`. */
  function GroupText(group: seq<nat>): string
  {
    "(" + Join(", ", seq(|group|, k requires 0 <= k < |group| => Placeholder(group[k]))) + ")"
  }

  /** The rows of the VALUES list, joined with a comma. */
  function ValuesList(groups: seq<seq<nat>>): string
  {
    Join(",", seq(|groups|, i requires 0 <= i < |groups| => GroupText(groups[i])))
  }

  function AssignmentText(a: Assignment): string
  {
    a.column + " = " + Placeholder(a.slot)
  }

  function SetList(assignments: seq<Assignment>): string
  {
    Join(", ", seq(|assignments|, k requires 0 <= k < |assignments| => AssignmentText(assignments[k])))
  }

  function InsertHead(columns: seq<string>): string
  {
    "insert into " + TableName + " " + ColumnList(columns) + " values " + Indent
  }

  /** The statement text as the handlers' template literals produce it. */
  function Sql(s: Statement): string
  {
    match s
    case InsertOne(columns, group) =>
      InsertHead(columns) + GroupText(group) + " returning *"
    case InsertMany(columns, groups) =>
      InsertHead(columns) + ValuesList(groups) + Indent + "returning *"
    case SelectAll =>
      "select * from " + TableName
    case UpdateById(assignments, idSlot) =>
      "update " + TableName + " set " + SetList(assignments) + " where id = " + Placeholder(idSlot) + " returning *"
    case DeleteById(idSlot) =>
      "delete from " + TableName + " where id = " + Placeholder(idSlot) + " returning *"
    case SelectByCountry(countrySlot) =>
      "select * from " + TableName + " where country = " + Placeholder(countrySlot)
    case SelectPage(limitSlot, offsetSlot) =>
      "select * from " + TableName + " limit " + Placeholder(limitSlot) + " offset " + Placeholder(offsetSlot)
  }

  // ---------------------------------------------------------------------
  // Structure: which parameter feeds what

  /** The parameter numbers the statement mentions, in textual order. */
  function Placeholders(s: Statement): seq<nat>
  {
    match s
    case InsertOne(_, group) => group
    case InsertMany(_, groups) => Flat<nat>(groups)
    case SelectAll => []
    case UpdateById(assignments, idSlot) =>
      seq(|assignments|, k requires 0 <= k < |assignments| => assignments[k].slot) + [idSlot]
    case DeleteById(idSlot) => [idSlot]
    case SelectByCountry(countrySlot) => [countrySlot]
    case SelectPage(limitSlot, offsetSlot) => [limitSlot, offsetSlot]
  }

  /** Every VALUES row has one slot per listed column. */
  ghost predicate Consistent(s: Statement)
  {
    match s
    case InsertOne(columns, group) => |group| == |columns|
    case InsertMany(columns, groups) => Uniform(groups, |columns|)
    case _ => true
  }

  /** The row of targets of VALUES row `row`. */
  function RowTargets(columns: seq<string>, row: nat): seq<Target>
  {
    seq(|columns|, k requires 0 <= k < |columns| => Column(row, columns[k]))
  }

  /** What each mentioned parameter feeds, in the order of `Placeholders`. */
  function Targets(s: Statement): seq<Target>
  {
    match s
    case InsertOne(columns, _) => RowTargets(columns, 0)
    case InsertMany(columns, groups) =>
      Flat(seq(|groups|, i requires 0 <= i < |groups| => RowTargets(columns, i)))
    case SelectAll => []
    case UpdateById(assignments, _) =>
      seq(|assignments|, k requires 0 <= k < |assignments| => Column(0, assignments[k].column)) + [IdMatch]
    case DeleteById(_) => [IdMatch]
    case SelectByCountry(_) => [CountryMatch]
    case SelectPage(_, _) => [LimitClause, OffsetClause]
  }

  /** Each mentioned parameter has a target and denotes an element of the array. */
  ghost predicate WellBound(q: Query)
  {
    && Consistent(q.statement)
    && |Targets(q.statement)| == |Placeholders(q.statement)|
    && forall j :: 0 <= j < |Placeholders(q.statement)| ==> 1 <= Placeholders(q.statement)[j] <= |q.params|
  }

  /** The parameters are mentioned as `$1`, `$2`, ..., `$count`, in this order. */
  ghost predicate NumberedInOrder(slots: seq<nat>, count: nat)
  {
    |slots| == count && forall j :: 0 <= j < |slots| ==> slots[j] == j + 1
  }

  /** What the statement means to the backend: the `j`-th parameter it
      mentions, `$m`, feeds the `j`-th target with `params[m - 1]`. */
  function Bindings(q: Query): seq<(Target, Param)>
    requires WellBound(q)
  {
    var slots, targets := Placeholders(q.statement), Targets(q.statement);
    seq(|slots|, j requires 0 <= j < |slots| => (targets[j], q.params[slots[j] - 1]))
  }

  // ---------------------------------------------------------------------
  // The queries the handlers build

  /** Single insert: `$1` .. `$8` in column order. */
  function InsertQuery(e: Event): Query
  {
    Query(InsertOne(Columns, [1, 2, 3, 4, 5, 6, 7, 8]), Tuple(e))
  }

  /** Placeholder group of VALUES row `index`. */
  function Group(index: nat): (g: seq<nat>)
    ensures |g| == Width
    ensures forall k :: 0 <= k < Width ==> g[k] == Width * index + k + 1
  {
    [index * 8 + 1, index * 8 + 2, index * 8 + 3, index * 8 + 4,
     index * 8 + 5, index * 8 + 6, index * 8 + 7, index * 8 + 8]
  }

  /** The per-event tuples, in event order. */
  function Values(events: seq<Event>): seq<seq<Param>>
  {
    seq(|events|, i requires 0 <= i < |events| => Tuple(events[i]))
  }

  /** Bulk insert: one placeholder group per tuple, numbered by the tuple's
      index, and the tuples flattened into one parameter array. */
  function BulkQuery(events: seq<Event>): Query
  {
    var values := Values(events);
    Query(InsertMany(Columns, seq(|values|, index requires 0 <= index < |values| => Group(index))), Flat(values))
  }

  function AllQuery(): Query
  {
    Query(SelectAll, [])
  }

  /** Full-row update: the eight fields at `$1` .. `$8`, the id at `$9`. */
  function UpdateQuery(id: string, e: Event): Query
  {
    Query(
      UpdateById([Assignment("title", 1), Assignment("description", 2), Assignment("year", 3),
                  Assignment("period", 4), Assignment("month", 5), Assignment("day", 6),
                  Assignment("country", 7), Assignment("city", 8)], 9),
      [e.title, e.description, e.year, e.period, e.month, e.day, e.country, e.city, Text(id)])
  }

  function DeleteQuery(id: string): Query
  {
    Query(DeleteById(1), [Text(id)])
  }

  function CountryQuery(country: string): Query
  {
    Query(SelectByCountry(1), [Text(country)])
  }

  function PageQuery(page: int, pageSize: int): Query
  {
    Query(SelectPage(1, 2), [Number(Limit(page, pageSize)), Number(Offset(page, pageSize))])
  }

  // ---------------------------------------------------------------------
  // Properties

  /** Parameters numbered in order are each mentioned exactly once: the
      mentioned numbers are exactly 1 .. count, strictly increasing. */
  lemma NumberedOnce(slots: seq<nat>, count: nat)
    requires NumberedInOrder(slots, count)
    ensures forall m :: m in slots <==> 1 <= m <= count
    ensures forall a, b :: 0 <= a < b < |slots| ==> slots[a] < slots[b]
  {
    forall m | 1 <= m <= count
      ensures m in slots
    {
      assert slots[m - 1] == m;
    }
  }

  /** Bulk insert of `n` events: `8n` parameters, mentioned as `$1` .. `$8n`
      in order, each feeding a column of some row. */
  lemma BulkLayout(events: seq<Event>)
    ensures WellBound(BulkQuery(events))
    ensures |BulkQuery(events).params| == Width * |events|
    ensures NumberedInOrder(Placeholders(BulkQuery(events).statement), Width * |events|)
  {
    var q := BulkQuery(events);
    var n := |events|;
    var values := Values(events);
    var groups := q.statement.groups;
    var rows := seq(|groups|, i requires 0 <= i < |groups| => RowTargets(Columns, i));
    assert Uniform(values, Width);
    assert Uniform(groups, Width);
    assert Uniform(rows, Width);
    FlatLength(values, Width);
    FlatLength(groups, Width);
    FlatLength(rows, Width);
    var slots := Placeholders(q.statement);
    assert slots == Flat<nat>(groups);
    forall j | 0 <= j < |slots|
      ensures slots[j] == j + 1
    {
      var i, k := j / Width, j % Width;
      assert j == Width * i + k;
      FlatAt(groups, Width, i, k);
    }
  }

  /** Placeholder `k` of VALUES row `i` is `$(8i + k + 1)`; it feeds column
      `k` of row `i` and denotes field `k` of event `i`, the field that the
      column list names at position `k`. */
  lemma {:induction false} BulkBinding(events: seq<Event>, i: nat, k: nat)
    requires i < |events| && k < Width
    ensures WellBound(BulkQuery(events))
    ensures BulkQuery(events).statement.groups[i][k] == Width * i + k + 1
    ensures Width * i + k < |Bindings(BulkQuery(events))|
    ensures Bindings(BulkQuery(events))[Width * i + k]
         == (Column(i, Columns[k]), FieldNamed(events[i], Columns[k]))
  {
    BulkLayout(events);
    BulkSlot(events, i, k);
    BulkTarget(events, i, k);
    BulkParams(events, i, k);
  }

  /** Position `8i + k` of the mentioned numbers is slot `k` of group `i`. */
  lemma {:induction false} BulkSlot(events: seq<Event>, i: nat, k: nat)
    requires i < |events| && k < Width
    ensures Width * i + k < |Placeholders(BulkQuery(events).statement)|
    ensures Placeholders(BulkQuery(events).statement)[Width * i + k]
         == BulkQuery(events).statement.groups[i][k] == Width * i + k + 1
  {
    var groups := BulkQuery(events).statement.groups;
    assert Uniform(groups, Width);
    FlatAt(groups, Width, i, k);
  }

  /** Position `8i + k` of the targets is column `k` of row `i`. */
  lemma {:induction false} BulkTarget(events: seq<Event>, i: nat, k: nat)
    requires i < |events| && k < Width
    ensures Width * i + k < |Targets(BulkQuery(events).statement)|
    ensures Targets(BulkQuery(events).statement)[Width * i + k] == Column(i, Columns[k])
  {
    var groups := BulkQuery(events).statement.groups;
    var rows := seq(|groups|, r requires 0 <= r < |groups| => RowTargets(Columns, r));
    assert Uniform(rows, Width);
    FlatAt(rows, Width, i, k);
  }

  /** The parameter array is the tuples of the events, back to back: element
      `8i + k` is field `k` of event `i`. */
  lemma {:induction false} BulkParams(events: seq<Event>, i: nat, k: nat)
    requires i < |events| && k < Width
    ensures |BulkQuery(events).params| == Width * |events|
    ensures BulkQuery(events).params[Width * i + k] == FieldNamed(events[i], Columns[k])
  {
    var values := Values(events);
    assert Uniform(values, Width);
    FlatAt(values, Width, i, k);
  }

  /** Splitting a bulk upload in two splits its parameter array in two:
      the parameters of `a + b` are those of `a` followed by those of `b`. */
  lemma BulkParamsAppend(a: seq<Event>, b: seq<Event>)
    ensures BulkQuery(a + b).params == BulkQuery(a).params + BulkQuery(b).params
  {
    assert Values(a + b) == Values(a) + Values(b);
    FlatAppend(Values(a), Values(b));
  }

  /** The VALUES list is empty exactly when there are no events; the
      statement text is then `... values` followed directly by `returning *`. */
  lemma EmptyValuesList(events: seq<Event>)
    ensures ValuesList(BulkQuery(events).statement.groups) == "" <==> events == []
  {
    var groups := BulkQuery(events).statement.groups;
    if events != [] {
      var parts := seq(|groups|, i requires 0 <= i < |groups| => GroupText(groups[i]));
      JoinStartsWithFirst(",", parts);
      assert |parts[0]| > 0;
    }
  }

  /** Single insert binds like a bulk insert of that one event. */
  lemma SingleInsertIsBulkOfOne(e: Event)
    ensures WellBound(InsertQuery(e)) && WellBound(BulkQuery([e]))
    ensures Placeholders(InsertQuery(e).statement) == Placeholders(BulkQuery([e]).statement)
    ensures InsertQuery(e).params == BulkQuery([e]).params
    ensures Bindings(InsertQuery(e)) == Bindings(BulkQuery([e]))
  {
    var bulk := BulkQuery([e]);
    BulkLayout([e]);
    assert Values([e]) == [Tuple(e)];
    assert bulk.statement.groups == [Group(0)];
    assert Flat([Tuple(e)]) == Tuple(e) + Flat([]);
    assert Flat([Group(0)]) == Group(0) + Flat([]);
    var rows := seq(1, r requires 0 <= r < 1 => RowTargets(Columns, r));
    assert Flat(rows) == RowTargets(Columns, 0) + Flat([]);
  }

  /** Single insert: `$1` .. `$8` feed the columns in column-list order with
      the event's fields. */
  lemma InsertLayout(e: Event)
    ensures WellBound(InsertQuery(e))
    ensures NumberedInOrder(Placeholders(InsertQuery(e).statement), |InsertQuery(e).params|)
    ensures |Bindings(InsertQuery(e))| == Width
    ensures forall k :: 0 <= k < Width ==>
      Bindings(InsertQuery(e))[k] == (Column(0, Columns[k]), FieldNamed(e, Columns[k]))
  {
  }

  /** Update: `$1` .. `$9`, each once and in order. */
  lemma UpdateNumbering(id: string, e: Event)
    ensures WellBound(UpdateQuery(id, e))
    ensures NumberedInOrder(Placeholders(UpdateQuery(id, e).statement), |UpdateQuery(id, e).params|)
  {
    var s := UpdateQuery(id, e).statement;
    assert Placeholders(s) == [1, 2, 3, 4, 5, 6, 7, 8, 9];
    assert |Targets(s)| == 9;
  }

  /** Update: `$1` .. `$8` feed the columns in column-list order with the
      event's fields, and `$9` is the id the WHERE clause matches. */
  lemma UpdateLayout(id: string, e: Event)
    ensures WellBound(UpdateQuery(id, e))
    ensures |Bindings(UpdateQuery(id, e))| == Width + 1
    ensures forall k :: 0 <= k < Width ==>
      Bindings(UpdateQuery(id, e))[k] == (Column(0, Columns[k]), FieldNamed(e, Columns[k]))
    ensures Bindings(UpdateQuery(id, e))[Width] == (IdMatch, Text(id))
  {
    UpdateNumbering(id, e);
    var s := UpdateQuery(id, e).statement;
    assert Targets(s) == [Column(0, "title"), Column(0, "description"), Column(0, "year"), Column(0, "period"),
                          Column(0, "month"), Column(0, "day"), Column(0, "country"), Column(0, "city"), IdMatch];
  }

  /** Update binds its first eight parameters exactly as the single insert does. */
  lemma UpdateMatchesInsert(id: string, e: Event)
    ensures WellBound(UpdateQuery(id, e)) && WellBound(InsertQuery(e))
    ensures Bindings(UpdateQuery(id, e))[..Width] == Bindings(InsertQuery(e))
  {
    UpdateLayout(id, e);
    InsertLayout(e);
  }

  /** The full-table read binds nothing. */
  lemma AllQueryLayout()
    ensures WellBound(AllQuery()) && Bindings(AllQuery()) == []
  {
  }

  /** Delete: `$1` is the id the WHERE clause matches. */
  lemma DeleteLayout(id: string)
    ensures WellBound(DeleteQuery(id))
    ensures NumberedInOrder(Placeholders(DeleteQuery(id).statement), |DeleteQuery(id).params|)
    ensures Bindings(DeleteQuery(id)) == [(IdMatch, Text(id))]
  {
  }

  /** Country filter: `$1` is the country the WHERE clause matches. */
  lemma CountryLayout(country: string)
    ensures WellBound(CountryQuery(country))
    ensures NumberedInOrder(Placeholders(CountryQuery(country).statement), |CountryQuery(country).params|)
    ensures Bindings(CountryQuery(country)) == [(CountryMatch, Text(country))]
  {
  }

  /** Page read: `$1` is the limit and `$2` the offset of the page. */
  lemma PageLayout(page: int, pageSize: int)
    ensures WellBound(PageQuery(page, pageSize))
    ensures NumberedInOrder(Placeholders(PageQuery(page, pageSize).statement), |PageQuery(page, pageSize).params|)
    ensures Bindings(PageQuery(page, pageSize))
         == [(LimitClause, Number(Limit(page, pageSize))), (OffsetClause, Number(Offset(page, pageSize)))]
  {
  }

  // ---------------------------------------------------------------------
  // Text and structure agree

  /** Every column name the statement writes is clean text: no `$`, and no
      leading digit that could extend a reference written just before it. */
  predicate PlainNames(s: Statement)
  {
    match s
    case InsertOne(columns, _) => forall i :: 0 <= i < |columns| ==> Clean(columns[i])
    case InsertMany(columns, _) => forall i :: 0 <= i < |columns| ==> Clean(columns[i])
    case UpdateById(assignments, _) => forall k :: 0 <= k < |assignments| ==> Clean(assignments[k].column)
    case _ => true
  }

  lemma InsertHeadClean(columns: seq<string>)
    requires forall i :: 0 <= i < |columns| ==> Clean(columns[i])
    ensures Clean(InsertHead(columns))
  {
    JoinAvoids('$', ", ", columns);
  }

  /** `($a, $b, ...)` mentions exactly the group's numbers, in order. */
  lemma {:induction false} GroupTextMentions(group: seq<nat>)
    ensures Delimited(GroupText(group))
    ensures PlaceholderNumbers(GroupText(group)) == group
  {
    var parts := seq(|group|, k requires 0 <= k < |group| => Placeholder(group[k]));
    forall k | 0 <= k < |group|
      ensures Delimited(parts[k]) && PlaceholderNumbers(parts[k]) == [group[k]]
    {
      PlaceholderReadBack(group[k]);
    }
    JoinPlaceholders(", ", parts);
    var refs := seq(|parts|, k requires 0 <= k < |parts| => PlaceholderNumbers(parts[k]));
    FlatSingletons(refs, group);
    Framed("(", Join(", ", parts), ")");
  }

  /** Flattening one-element rows gives the sequence of their elements. */
  lemma {:induction false} FlatSingletons(refs: seq<seq<nat>>, xs: seq<nat>)
    requires |refs| == |xs| && forall k :: 0 <= k < |xs| ==> refs[k] == [xs[k]]
    ensures Flat(refs) == xs
  {
    if xs != [] {
      FlatSingletons(refs[1..], xs[1..]);
    }
  }

  /** The VALUES list mentions the groups' numbers, group after group. */
  lemma {:induction false} ValuesListMentions(groups: seq<seq<nat>>)
    ensures Delimited(ValuesList(groups))
    ensures PlaceholderNumbers(ValuesList(groups)) == Flat(groups)
  {
    var parts := seq(|groups|, i requires 0 <= i < |groups| => GroupText(groups[i]));
    forall i | 0 <= i < |groups|
      ensures Delimited(parts[i]) && PlaceholderNumbers(parts[i]) == groups[i]
    {
      GroupTextMentions(groups[i]);
    }
    JoinPlaceholders(",", parts);
    var refs := seq(|parts|, i requires 0 <= i < |parts| => PlaceholderNumbers(parts[i]));
    assert refs == groups;
  }

  /** The SET list mentions the assignments' slots, in order. */
  lemma {:induction false} SetListMentions(assignments: seq<Assignment>)
    requires forall k :: 0 <= k < |assignments| ==> Clean(assignments[k].column)
    ensures Delimited(SetList(assignments))
    ensures PlaceholderNumbers(SetList(assignments))
         == seq(|assignments|, k requires 0 <= k < |assignments| => assignments[k].slot)
  {
    var parts := seq(|assignments|, k requires 0 <= k < |assignments| => AssignmentText(assignments[k]));
    forall k | 0 <= k < |assignments|
      ensures Delimited(parts[k]) && PlaceholderNumbers(parts[k]) == [assignments[k].slot]
    {
      var a := assignments[k];
      PlaceholderReadBack(a.slot);
      Framed(a.column + " = ", Placeholder(a.slot), []);
      assert a.column + " = " + Placeholder(a.slot) + [] == parts[k];
    }
    JoinPlaceholders(", ", parts);
    var refs := seq(|parts|, k requires 0 <= k < |parts| => PlaceholderNumbers(parts[k]));
    FlatSingletons(refs, seq(|assignments|, k requires 0 <= k < |assignments| => assignments[k].slot));
  }

  lemma InsertOneMentions(columns: seq<string>, group: seq<nat>)
    requires forall i :: 0 <= i < |columns| ==> Clean(columns[i])
    ensures PlaceholderNumbers(Sql(InsertOne(columns, group))) == group
  {
    InsertHeadClean(columns);
    GroupTextMentions(group);
    Framed(InsertHead(columns), GroupText(group), " returning *");
  }

  lemma InsertManyMentions(columns: seq<string>, groups: seq<seq<nat>>)
    requires forall i :: 0 <= i < |columns| ==> Clean(columns[i])
    ensures PlaceholderNumbers(Sql(InsertMany(columns, groups))) == Flat(groups)
  {
    InsertHeadClean(columns);
    ValuesListMentions(groups);
    Framed(InsertHead(columns), ValuesList(groups), Indent + "returning *");
    assert Sql(InsertMany(columns, groups)) == InsertHead(columns) + ValuesList(groups) + (Indent + "returning *");
  }

  lemma UpdateMentions(assignments: seq<Assignment>, idSlot: nat)
    requires forall k :: 0 <= k < |assignments| ==> Clean(assignments[k].column)
    ensures PlaceholderNumbers(Sql(UpdateById(assignments, idSlot)))
         == Placeholders(UpdateById(assignments, idSlot))
  {
    SetListMentions(assignments);
    PlaceholderReadBack(idSlot);
    Framed2("update " + TableName + " set ", SetList(assignments), " where id = ", Placeholder(idSlot), " returning *");
  }

  /** The column names the handlers write are plain names. */
  lemma ColumnsPlain()
    ensures forall i :: 0 <= i < |Columns| ==> Clean(Columns[i])
  {
    forall i | 0 <= i < |Columns|
      ensures Clean(Columns[i])
    {
      assert forall k :: 0 <= k < |Columns[i]| ==> 'a' <= Columns[i][k] <= 'y';
    }
  }

  /** The update's assignments name the insert columns, in the same order. */
  lemma UpdateColumns(id: string, e: Event)
    ensures var s := UpdateQuery(id, e).statement;
      |s.assignments| == Width &&
      forall k :: 0 <= k < Width ==> s.assignments[k] == Assignment(Columns[k], k + 1)
  {
  }

  /** Reading the statement text back gives exactly the structured
      statement's parameter numbers, in the same order. */
  lemma SqlMentions(s: Statement)
    requires PlainNames(s)
    ensures PlaceholderNumbers(Sql(s)) == Placeholders(s)
  {
    match s
    case InsertOne(columns, group) =>
      InsertOneMentions(columns, group);
    case InsertMany(columns, groups) =>
      InsertManyMentions(columns, groups);
    case SelectAll =>
      CleanText(Sql(s));
    case UpdateById(assignments, idSlot) =>
      UpdateMentions(assignments, idSlot);
    case DeleteById(idSlot) =>
      SingleMentions(s, "delete from " + TableName + " where id = ", idSlot, " returning *");
    case SelectByCountry(countrySlot) =>
      SingleMentions(s, "select * from " + TableName + " where country = ", countrySlot, []);
    case SelectPage(limitSlot, offsetSlot) =>
      PageMentions(limitSlot, offsetSlot);
  }

  /** A statement whose text is one parameter reference inside clean text. */
  lemma SingleMentions(s: Statement, pre: string, slot: nat, post: string)
    requires Clean(pre) && Clean(post)
    requires Sql(s) == pre + Placeholder(slot) + post && Placeholders(s) == [slot]
    ensures PlaceholderNumbers(Sql(s)) == Placeholders(s)
  {
    PlaceholderReadBack(slot);
    Framed(pre, Placeholder(slot), post);
  }

  lemma PageMentions(limitSlot: nat, offsetSlot: nat)
    ensures PlaceholderNumbers(Sql(SelectPage(limitSlot, offsetSlot))) == [limitSlot, offsetSlot]
  {
    var s := SelectPage(limitSlot, offsetSlot);
    PlaceholderReadBack(limitSlot);
    PlaceholderReadBack(offsetSlot);
    Framed2("select * from " + TableName + " limit ", Placeholder(limitSlot), " offset ", Placeholder(offsetSlot), []);
    assert Sql(s) + [] == Sql(s);
  }
}
