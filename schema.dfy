/** The schema entities a SQLite connection builds from its catalog, how they are
    built from the catalog rows, and the order they are kept in. */
module Schema {
  import opened Wrappers
  import opened Errors
  import opened SqlJs
  import opened SqliteParser

  /** One entity of the schema (DataSchema): its kind (`type`), its canonical name,
      the catalog's SQL text and the parsed statement. */
  datatype DataSchema = DataSchema(kind: Kind, name: Option<string>, sql: string, ast: Statement)

  /** `ast.name?.name || ast.target?.name`: the statement's own name unless it is
      missing or empty, else its target's name (which may be missing too). */
  function CanonicalName(ast: Statement): Option<string> {
    if ast.name.Some? && ast.name.value != "" then ast.name else ast.target
  }

  /** The SQL text of a catalog row, its third cell, when that is a non-empty string;
      `None` for the rows the source skips with a warning. */
  function CatalogSql(row: seq<SqlValue>): Option<string> {
    if |row| > 2 && row[2].Text? && row[2].s != "" then Some(row[2].s) else None
  }

  /** Parses one catalog SQL text into an entity; `ast.statement[0]` of an empty
      statement list is `undefined`, so reading its `name` throws a TypeError. */
  function ParseEntity(sql: string, parser: Parser): (r: Result<DataSchema, Error>)
    ensures r.Success? <==> parser(sql).Success? && |parser(sql).value.statement| > 0
    ensures r.Success? ==> Describes(r.value, sql, parser)
    ensures parser(sql).Failure? ==> r == Failure(ParseError(parser(sql).error))
  {
    match parser(sql)
    case Failure(message) => Failure(ParseError(message))
    case Success(program) =>
      if |program.statement| == 0 then Failure(TypeError("name"))
      else
        var ast := program.statement[0];
        Success(DataSchema(ast.format, CanonicalName(ast), sql, ast))
  }

  /** The loop over the catalog rows: rows without SQL text are skipped, every other
      row is parsed and appended, and the first parse failure aborts the whole fold. */
  function CollectEntities(rows: seq<seq<SqlValue>>, parser: Parser): Result<seq<DataSchema>, Error>
    decreases |rows|
  {
    if rows == [] then Success([])
    else
      var entities :- CollectEntities(rows[..|rows| - 1], parser);
      match CatalogSql(rows[|rows| - 1])
      case None => Success(entities)
      case Some(sql) =>
        var e :- ParseEntity(sql, parser);
        Success(entities + [e])
  }

  /** The SQL texts of the rows that carry one, in catalog order. */
  function SqlTexts(rows: seq<seq<SqlValue>>): seq<string>
    decreases |rows|
  {
    if rows == [] then []
    else
      SqlTexts(rows[..|rows| - 1]) +
        match CatalogSql(rows[|rows| - 1]) case Some(sql) => [sql] case None => []
  }

  /** `e` is what the source builds from catalog text `sql`: it keeps the text, and its
      kind and name come from the first parsed statement, not from the catalog row. */
  ghost predicate Describes(e: DataSchema, sql: string, parser: Parser) {
    && parser(sql).Success?
    && |parser(sql).value.statement| > 0
    && e.ast == parser(sql).value.statement[0]
    && e.sql == sql
    && e.kind == e.ast.format
    && e.name == CanonicalName(e.ast)
  }

  /** Every text parses. */
  ghost predicate AllParse(texts: seq<string>, parser: Parser) {
    forall k :: 0 <= k < |texts| ==> ParseEntity(texts[k], parser).Success?
  }

  /** `entities` are what the texts parse to, one per text, in the same order. */
  ghost predicate ParsedFrom(entities: seq<DataSchema>, texts: seq<string>, parser: Parser) {
    && |entities| == |texts|
    && forall k :: 0 <= k < |texts| ==> ParseEntity(texts[k], parser) == Success(entities[k])
  }

  /** The fold yields exactly one entity per row with SQL text, in catalog order,
      when every such text parses; otherwise it fails with the error of the first
      text that does not. */
  lemma {:induction false} CollectEntitiesMeaning(rows: seq<seq<SqlValue>>, parser: Parser)
    ensures var texts, r := SqlTexts(rows), CollectEntities(rows, parser);
      && (r.Success? <==> AllParse(texts, parser))
      && (r.Success? ==> ParsedFrom(r.value, texts, parser))
      && (r.Failure? ==>
            exists k :: 0 <= k < |texts| && FirstFailure(texts, parser, k) &&
              ParseEntity(texts[k], parser) == Failure(r.error))
    decreases |rows|
  {
    var texts, r := SqlTexts(rows), CollectEntities(rows, parser);
    if rows != [] {
      var init := rows[..|rows| - 1];
      CollectEntitiesMeaning(init, parser);
      var texts0, r0 := SqlTexts(init), CollectEntities(init, parser);
      if r0.Failure? {
        assert r == r0;
        var k :| 0 <= k < |texts0| && FirstFailure(texts0, parser, k) &&
          ParseEntity(texts0[k], parser) == Failure(r0.error);
        PrefixTexts(texts0, texts, k + 1);
        assert FirstFailure(texts, parser, k);
      } else {
        match CatalogSql(rows[|rows| - 1])
        case None =>
          assert texts == texts0 && r == r0;
        case Some(sql) =>
          assert texts == texts0 + [sql];
          PrefixTexts(texts0, texts, |texts0|);
          var e := ParseEntity(sql, parser);
          if e.Failure? {
            assert r == Failure(e.error);
            assert texts[|texts0|] == sql;
            assert FirstFailure(texts, parser, |texts0|);
          } else {
            assert r == Success(r0.value + [e.value]);
            assert ParsedFrom(r.value, texts, parser) by {
              forall k | 0 <= k < |texts|
                ensures ParseEntity(texts[k], parser) == Success(r.value[k])
              {
                if k < |texts0| {
                  assert r.value[k] == r0.value[k];
                }
              }
            }
          }
      }
    }
  }

  /** `texts0` agrees with `texts` below `n`. */
  lemma PrefixTexts(texts0: seq<string>, texts: seq<string>, n: nat)
    requires n <= |texts0| && texts0 <= texts
    ensures forall j :: 0 <= j < n ==> texts[j] == texts0[j]
  {
  }

  /** `texts[k]` is the first text that does not parse. */
  ghost predicate FirstFailure(texts: seq<string>, parser: Parser, k: nat)
    requires k < |texts|
  {
    && ParseEntity(texts[k], parser).Failure?
    && forall j :: 0 <= j < k ==> ParseEntity(texts[j], parser).Success?
  }

  /** Once a prefix of the rows fails, the whole fold fails with the same error. */
  lemma {:induction false} CollectPrefixFailure(rows: seq<seq<SqlValue>>, i: nat, parser: Parser)
    requires i <= |rows|
    requires CollectEntities(rows[..i], parser).Failure?
    ensures CollectEntities(rows, parser) == CollectEntities(rows[..i], parser)
    decreases |rows| - i
  {
    if i < |rows| {
      assert rows[..|rows| - 1][..i] == rows[..i];
      CollectPrefixFailure(rows[..|rows| - 1], i, parser);
    } else {
      assert rows[..i] == rows;
    }
  }

  /** The catalog's `type` and `tbl_name` cells play no part: rows that agree on
      their SQL text give the same entities. */
  lemma {:induction false} CollectEntitiesIgnoresLabels(rows: seq<seq<SqlValue>>, rows': seq<seq<SqlValue>>, parser: Parser)
    requires |rows| == |rows'|
    requires forall k :: 0 <= k < |rows| ==> CatalogSql(rows[k]) == CatalogSql(rows'[k])
    ensures CollectEntities(rows, parser) == CollectEntities(rows', parser)
    decreases |rows|
  {
    if rows != [] {
      CollectEntitiesIgnoresLabels(rows[..|rows| - 1], rows'[..|rows'| - 1], parser);
    }
  }

  //
  // order
  //

  /** The precedence map `{ table: 0, index: 1, view: 2, trigger: 3 }`. */
  function Rank(k: Kind): nat {
    match k
    case Table => 0
    case Index => 1
    case View => 2
    case Trigger => 3
  }

  /** Lexicographic order on strings, character by character. */
  predicate TextLe(a: string, b: string)
    decreases |a|
  {
    if a == [] then true
    else if b == [] then false
    else if a[0] != b[0] then a[0] < b[0]
    else TextLe(a[1..], b[1..])
  }

  /** JavaScript's `a < b` on two strings. */
  predicate TextLt(a: string, b: string) {
    TextLe(a, b) && a != b
  }

  /** Order on possibly missing names: a missing name comes first. */
  predicate NameLe(a: Option<string>, b: Option<string>) {
    match a
    case None => true
    case Some(x) => b.Some? && TextLe(x, b.value)
  }

  /** `a` may come before `b`: a lower kind rank, or the same kind and a name no greater. */
  predicate EntityLe(a: DataSchema, b: DataSchema) {
    Rank(a.kind) < Rank(b.kind) || (a.kind == b.kind && NameLe(a.name, b.name))
  }

  /** Every entity may come before every later one. */
  predicate SchemaSorted(s: seq<DataSchema>) {
    forall i, j :: 0 <= i < j < |s| ==> EntityLe(s[i], s[j])
  }

  /** The comparator passed to `schema.sort`, for entities whose names are present. */
  function Comparator(a: DataSchema, b: DataSchema): int
    requires a.name.Some? && b.name.Some?
  {
    if a.kind != b.kind then (if Rank(a.kind) < Rank(b.kind) then -1 else 1)
    else if TextLt(a.name.value, b.name.value) then -1 else 1
  }

  lemma {:induction false} TextLeTotal(a: string, b: string)
    ensures TextLe(a, b) || TextLe(b, a)
    decreases |a|
  {
    if a != [] && b != [] && a[0] == b[0] {
      TextLeTotal(a[1..], b[1..]);
    }
  }

  lemma {:induction false} TextLeTransitive(a: string, b: string, c: string)
    requires TextLe(a, b) && TextLe(b, c)
    ensures TextLe(a, c)
    decreases |a|
  {
    if a != [] && b != [] && c != [] && a[0] == b[0] && b[0] == c[0] {
      TextLeTransitive(a[1..], b[1..], c[1..]);
    }
  }

  lemma {:induction false} TextLeAntisymmetric(a: string, b: string)
    requires TextLe(a, b) && TextLe(b, a)
    ensures a == b
    decreases |a|
  {
    if a != [] {
      TextLeAntisymmetric(a[1..], b[1..]);
      assert a == [a[0]] + a[1..] && b == [b[0]] + b[1..];
    }
  }

  lemma EntityLeTotal(a: DataSchema, b: DataSchema)
    ensures EntityLe(a, b) || EntityLe(b, a)
  {
    if a.kind == b.kind && a.name.Some? && b.name.Some? {
      TextLeTotal(a.name.value, b.name.value);
    }
  }

  lemma EntityLeTransitive(a: DataSchema, b: DataSchema, c: DataSchema)
    requires EntityLe(a, b) && EntityLe(b, c)
    ensures EntityLe(a, c)
  {
    if a.kind == b.kind == c.kind && a.name.Some? && b.name.Some? && c.name.Some? {
      TextLeTransitive(a.name.value, b.name.value, c.name.value);
    }
  }

  /** The order agrees with the source's comparator: `a` may precede `b` exactly when
      the comparator does not put `b` strictly first. */
  lemma EntityLeMatchesComparator(a: DataSchema, b: DataSchema)
    requires a.name.Some? && b.name.Some?
    ensures EntityLe(a, b) <==> Comparator(b, a) == 1
  {
    TextLeTotal(a.name.value, b.name.value);
    if TextLe(a.name.value, b.name.value) && TextLe(b.name.value, a.name.value) {
      TextLeAntisymmetric(a.name.value, b.name.value);
    }
  }

  /** Sorts the entities in place by kind rank, then by name. */
  method SortSchema(a: array<DataSchema>)
    modifies a
    ensures SchemaSorted(a[..])
    ensures multiset(a[..]) == multiset(old(a[..]))
  {
    var i := 0;
    while i < a.Length
      invariant 0 <= i <= a.Length
      invariant SchemaSorted(a[..i])
      invariant multiset(a[..]) == multiset(old(a[..]))
    {
      InsertLast(a, i);
      i := i + 1;
    }
    assert a[..] == a[..a.Length];
  }

  /** One step of the insertion sort: moves `a[i]` down into the sorted prefix `a[..i]`. */
  method InsertLast(a: array<DataSchema>, i: nat)
    requires i < a.Length
    requires SchemaSorted(a[..i])
    modifies a
    ensures SchemaSorted(a[..i + 1])
    ensures multiset(a[..]) == multiset(old(a[..]))
  {
    var j := i;
    while j > 0 && !EntityLe(a[j - 1], a[j])
      invariant 0 <= j <= i
      invariant multiset(a[..]) == multiset(old(a[..]))
      invariant forall p, q :: 0 <= p < q <= i && p != j && q != j ==> EntityLe(a[p], a[q])
      invariant forall q :: j < q <= i ==> EntityLe(a[j], a[q])
    {
      EntityLeTotal(a[j - 1], a[j]);
      Swap(a, j - 1);
      j := j - 1;
    }
    forall p, q | 0 <= p < q <= i
      ensures EntityLe(a[p], a[q])
    {
      if q == j && p < j - 1 {
        EntityLeTransitive(a[p], a[j - 1], a[j]);
      }
    }
  }

  /** Exchanges `a[k]` and `a[k + 1]`. */
  method Swap(a: array<DataSchema>, k: nat)
    requires k + 1 < a.Length
    modifies a
    ensures a[k] == old(a[k + 1]) && a[k + 1] == old(a[k])
    ensures forall m :: 0 <= m < a.Length && m != k && m != k + 1 ==> a[m] == old(a[m])
    ensures multiset(a[..]) == multiset(old(a[..]))
  {
    a[k], a[k + 1] := a[k + 1], a[k];
  }
}
