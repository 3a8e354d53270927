/**
 * The schema translation of `ORMMapper.convert_to_db` (lab7.py): a class's
 * name and annotated fields become one `CREATE TABLE IF NOT EXISTS`
 * statement, which is then run against an SQLite database.
 */
module Orm {
  import opened Wrappers
  import opened PyText

  /**
   * The Python type objects an annotation can name. The lookup table of
   * `convert_to_db` has keys `int`, `str`, `float` and `bool`; every other
   * type (user classes, `list`, a string annotation, ...) is `Other`.
   */
  datatype PyType = Int | Str | Float | Bool | Other(name: string)

  /** One entry `name: typ` of a class's `__annotations__`. */
  datatype Field = Field(name: string, typ: PyType)

  /**
   * The target class as the mapper sees it: its `__name__` and the items of
   * its `__annotations__`, in insertion order.
   */
  datatype ClassDescriptor = ClassDescriptor(name: string, annotations: seq<Field>)

  /** The `ValueError` raised for a class without annotated fields. */
  datatype Error = NoAnnotatedFields

  // ---------------------------------------------------------------------
  // The `fields` dict comprehension
  // ---------------------------------------------------------------------

  /** The keys of an ordered dict held as its items. */
  function NameSet(d: seq<Field>): set<string>
  {
    set i | 0 <= i < |d| :: d[i].name
  }

  /** No key occurs twice: what makes a sequence of items the items of a dict. */
  predicate UniqueNames(d: seq<Field>)
  {
    forall i, j :: 0 <= i < j < |d| ==> d[i].name != d[j].name
  }

  /**
   * `d[f.name] = f.typ` on a Python dict: an existing key keeps its position
   * and takes the new value, a new key goes to the end.
   */
  function DictSet(d: seq<Field>, f: Field): (r: seq<Field>)
    ensures NameSet(r) == NameSet(d) + {f.name}
    ensures f in r
  {
    if |d| == 0 then [f]
    else if d[0].name == f.name then
      NameSetCons(f, d[1..]);
      NameSetCons(d[0], d[1..]);
      assert [d[0]] + d[1..] == d;
      [f] + d[1..]
    else
      var rest := DictSet(d[1..], f);
      assert NameSet([d[0]] + rest) == {d[0].name} + NameSet(rest) by {
        NameSetCons(d[0], rest);
      }
      NameSetCons(d[0], d[1..]);
      assert [d[0]] + d[1..] == d;
      [d[0]] + rest
  }

  lemma NameSetCons(x: Field, d: seq<Field>)
    ensures NameSet([x] + d) == {x.name} + NameSet(d)
  {
    var s := [x] + d;
    forall k | k in NameSet(s) ensures k in {x.name} + NameSet(d) {
      var i :| 0 <= i < |s| && s[i].name == k;
      if i > 0 {
        assert d[i - 1].name == k;
      }
    }
    forall k | k in NameSet(d) ensures k in NameSet(s) {
      var i :| 0 <= i < |d| && d[i].name == k;
      assert s[i + 1].name == k;
    }
    assert s[0].name == x.name;
  }

  /**
   * `{name: typ for name, typ in items}`: the dict built by assigning the
   * items one after another.
   */
  function FieldsDict(items: seq<Field>): (d: seq<Field>)
    ensures NameSet(d) == NameSet(items)
    ensures |d| == 0 <==> |items| == 0
  {
    if |items| == 0 then []
    else
      var n := |items| - 1;
      assert NameSet(items) == NameSet(items[..n]) + {items[n].name} by {
        forall k | k in NameSet(items) ensures k in NameSet(items[..n]) + {items[n].name} {
          var i :| 0 <= i < |items| && items[i].name == k;
          if i < n {
            assert items[..n][i].name == k;
          }
        }
      }
      DictSet(FieldsDict(items[..n]), items[n])
  }

  /** Setting a key that is not yet present appends it. */
  lemma {:induction false} DictSetFresh(d: seq<Field>, f: Field)
    requires f.name !in NameSet(d)
    ensures DictSet(d, f) == d + [f]
  {
    if |d| > 0 {
      assert d[0].name in NameSet(d);
      NameSetCons(d[0], d[1..]);
      assert [d[0]] + d[1..] == d;
      DictSetFresh(d[1..], f);
    }
  }

  /** Setting a key that is present replaces its entry in place and leaves the others alone. */
  lemma {:induction false} DictSetExisting(d: seq<Field>, f: Field, i: nat)
    requires UniqueNames(d)
    requires i < |d| && d[i].name == f.name
    ensures DictSet(d, f) == d[i := f]
  {
    if i > 0 {
      assert d[0].name != f.name;
      assert UniqueNames(d[1..]) by {
        forall a, b | 0 <= a < b < |d| - 1 ensures d[1..][a].name != d[1..][b].name {
          assert d[1..][a] == d[a + 1] && d[1..][b] == d[b + 1];
        }
      }
      DictSetExisting(d[1..], f, i - 1);
      assert [d[0]] + d[1..][i - 1 := f] == d[i := f];
    }
  }

  /** Setting a key keeps the keys of a dict distinct. */
  lemma {:induction false} DictSetUnique(d: seq<Field>, f: Field)
    requires UniqueNames(d)
    ensures UniqueNames(DictSet(d, f))
  {
    if |d| > 0 {
      assert [d[0]] + d[1..] == d;
      NameSetCons(d[0], d[1..]);
      if d[0].name == f.name {
        var r := [f] + d[1..];
        forall i, j | 0 <= i < j < |r| ensures r[i].name != r[j].name {
          assert r[i].name == d[i].name && r[j].name == d[j].name;
        }
      } else {
        var rest := DictSet(d[1..], f);
        DictSetUnique(d[1..], f);
        var r := [d[0]] + rest;
        forall i, j | 0 <= i < j < |r| ensures r[i].name != r[j].name {
          if i == 0 {
            assert r[j].name in NameSet(rest);
            assert d[0].name !in NameSet(d[1..]) by {
              forall k | 0 <= k < |d| - 1 ensures d[1..][k].name != d[0].name {
                assert d[k + 1].name != d[0].name;
              }
            }
          } else {
            assert r[i] == rest[i - 1] && r[j] == rest[j - 1];
          }
        }
      }
    }
  }

  /** The comprehension always yields a dict: its keys are distinct. */
  lemma {:induction false} FieldsDictUnique(items: seq<Field>)
    ensures UniqueNames(FieldsDict(items))
  {
    if |items| > 0 {
      var n := |items| - 1;
      FieldsDictUnique(items[..n]);
      DictSetUnique(FieldsDict(items[..n]), items[n]);
    }
  }

  /**
   * Run over the items of a dict, such as `__annotations__.items()`, the
   * comprehension copies them: same fields, same order.
   */
  lemma {:induction false} FieldsDictCopies(items: seq<Field>)
    requires UniqueNames(items)
    ensures FieldsDict(items) == items
  {
    if |items| > 0 {
      var n := |items| - 1;
      FieldsDictCopies(items[..n]);
      assert items[n].name !in NameSet(items[..n]) by {
        forall i | 0 <= i < n ensures items[..n][i].name != items[n].name {
          assert items[..n][i] == items[i];
        }
      }
      DictSetFresh(items[..n], items[n]);
      assert items[..n] + [items[n]] == items;
    }
  }

  /**
   * Corollary of `FieldsDictUnique` and `FieldsDictCopies`: building the dict
   * again from its own items changes nothing.
   */
  lemma FieldsDictIdempotent(items: seq<Field>)
    ensures FieldsDict(FieldsDict(items)) == FieldsDict(items)
  {
    FieldsDictUnique(items);
    FieldsDictCopies(FieldsDict(items));
  }

  // ---------------------------------------------------------------------
  // The `sql_field_types` lookup
  // ---------------------------------------------------------------------

  /**
   * `sql_field_types`: the four Python types it has keys for, each mapped to
   * one of the three SQLite column types, all three of which occur.
   */
  function SqlFieldTypes(): (m: map<PyType, string>)
    ensures m.Keys == {Int, Str, Float, Bool}
    ensures m.Values == {"INTEGER", "TEXT", "REAL"}
  {
    var m := map[Int := "INTEGER", Str := "TEXT", Float := "REAL", Bool := "INTEGER"];
    assert m[Int] == "INTEGER" && m[Str] == "TEXT" && m[Float] == "REAL";
    m
  }

  /**
   * `sql_field_types.get(field_type, "TEXT")`: for a hashable annotation it never fails and yields one
   * of the three SQLite types; only `float` gives REAL, only `int` and `bool`
   * give INTEGER, and every type outside the table gives TEXT.
   */
  function SqlType(t: PyType): (r: string)
    ensures r in {"INTEGER", "TEXT", "REAL"}
    ensures r == "INTEGER" <==> t == Int || t == Bool
    ensures r == "REAL" <==> t == Float
    ensures r == "TEXT" <==> t == Str || t.Other?
  {
    var table := SqlFieldTypes();
    if t in table then table[t] else "TEXT"
  }

  // ---------------------------------------------------------------------
  // The column loop
  // ---------------------------------------------------------------------

  /**
   * `f"{field_name} {sql_type}"` for one field: the name, then a single
   * space, then one of the three column types, the field's own.
   */
  function ColumnDef(f: Field): (c: string)
    ensures f.name <= c && |c| > |f.name| && c[|f.name|] == ' '
    ensures c[|f.name| + 1..] == SqlType(f.typ)
    ensures c[|f.name| + 1..] in {"INTEGER", "TEXT", "REAL"}
  {
    f.name + " " + SqlType(f.typ)
  }

  /** The column entries the loop is to produce: one per field, in field order. */
  function Columns(fields: seq<Field>): (cs: seq<string>)
    ensures |cs| == |fields|
    ensures forall i :: 0 <= i < |fields| ==> cs[i] == ColumnDef(fields[i])
  {
    if |fields| == 0 then [] else [ColumnDef(fields[0])] + Columns(fields[1..])
  }

  /**
   * The `for` loop over `fields.items()` appending to `columns`: exactly one
   * entry per field, entry `i` being field `i`'s name, a space and its
   * column type.
   */
  method BuildColumns(fields: seq<Field>) returns (columns: seq<string>)
    ensures |columns| == |fields|
    ensures forall i :: 0 <= i < |fields| ==> columns[i] == fields[i].name + " " + SqlType(fields[i].typ)
    ensures columns == Columns(fields)
  {
    columns := [];
    for k := 0 to |fields|
      invariant |columns| == k
      invariant forall i :: 0 <= i < k ==> columns[i] == ColumnDef(fields[i])
    {
      var sqlType := SqlType(fields[k].typ);
      columns := columns + [fields[k].name + " " + sqlType];
    }
  }

  /** A name with no space and no comma, as every Python identifier is. */
  predicate BareName(s: string)
  {
    ' ' !in s && ',' !in s
  }

  /** Splits one column entry at its first space into name and type. */
  function ParseColumn(c: string): (r: Option<(string, string)>)
  {
    var name := UpToSpace(c);
    if |name| < |c| then Some((name, c[|name| + 1..])) else None
  }

  /** A column entry has a comma only if its field name has one. */
  lemma ColumnDefCommaFree(f: Field)
    requires ',' !in f.name
    ensures CommaFree(ColumnDef(f))
  {
  }

  /** Reading a column entry back gives the field's name and its column type. */
  lemma ColumnDefParses(f: Field)
    requires ' ' !in f.name
    ensures ParseColumn(ColumnDef(f)) == Some((f.name, SqlType(f.typ)))
  {
    UpToSpaceStops(f.name, " " + SqlType(f.typ));
    assert ColumnDef(f) == f.name + (" " + SqlType(f.typ));
  }

  // ---------------------------------------------------------------------
  // The statement text
  // ---------------------------------------------------------------------

  /** The text of the f-string before the table name. */
  const Head := "\n        CREATE TABLE IF NOT EXISTS "
  /** The text between the table name and the column list. */
  const Open := " (\n            "
  /** The text after the column list. */
  const Tail := "\n        );\n        "

  /**
   * The f-string `create_table_query`, with its line breaks and indentation:
   * the `CREATE TABLE IF NOT EXISTS` clause naming the table and opening the
   * parenthesis, the joined column entries, and the closing `);`.
   */
  function CreateTableQuery(tableName: string, columns: seq<string>): (q: string)
    ensures "\n        CREATE TABLE IF NOT EXISTS " + tableName + " (\n            " <= q
    ensures |q| >= |"\n        );\n        "| && q[|q| - |"\n        );\n        "|..] == "\n        );\n        "
  {
    Head + tableName + Open + Join(columns, ", ") + Tail
  }

  /** The statement as its parts: the table name and the column entries. */
  datatype Statement = Statement(table: string, columns: seq<string>)

  /** The longest prefix of `s` without a space. */
  function UpToSpace(s: string): (r: string)
    ensures r <= s && ' ' !in r
  {
    if |s| == 0 || s[0] == ' ' then "" else [s[0]] + UpToSpace(s[1..])
  }

  lemma {:induction false} UpToSpaceStops(a: string, t: string)
    requires ' ' !in a && |t| > 0 && t[0] == ' '
    ensures UpToSpace(a + t) == a
  {
    if |a| > 0 {
      assert (a + t)[1..] == a[1..] + t;
      UpToSpaceStops(a[1..], t);
      assert [a[0]] + a[1..] == a;
    } else {
      assert a + t == t;
    }
  }

  /** Reads a statement text back into its table name and column entries. */
  function ParseQuery(q: string): (r: Option<Statement>)
  {
    if |q| < |Head| + |Tail| || q[..|Head|] != Head || q[|q| - |Tail|..] != Tail then None
    else
      var body := q[|Head|..|q| - |Tail|];
      var table := UpToSpace(body);
      var rest := body[|table|..];
      if |rest| < |Open| || rest[..|Open|] != Open then None
      else Some(Statement(table, Split(rest[|Open|..])))
  }

  /**
   * The statement text determines the table name and the column entries:
   * reading it back gives them unchanged when the name has no space and the
   * entries no comma.
   */
  lemma QueryParses(tableName: string, columns: seq<string>)
    requires ' ' !in tableName
    requires |columns| > 0
    requires forall i :: 0 <= i < |columns| ==> CommaFree(columns[i])
    ensures ParseQuery(CreateTableQuery(tableName, columns)) == Some(Statement(tableName, columns))
  {
    var joined := Join(columns, ", ");
    var q := CreateTableQuery(tableName, columns);
    var body := tableName + Open + joined;
    assert q == Head + body + Tail;
    assert q[..|Head|] == Head;
    assert q[|q| - |Tail|..] == Tail;
    assert q[|Head|..|q| - |Tail|] == body;
    UpToSpaceStops(tableName, Open + joined);
    assert body == tableName + (Open + joined);
    assert body[|tableName|..] == Open + joined;
    assert (Open + joined)[..|Open|] == Open;
    assert (Open + joined)[|Open|..] == joined;
    SplitJoin(columns);
  }

  // ---------------------------------------------------------------------
  // The whole translation
  // ---------------------------------------------------------------------

  /**
   * Lines 18-48 of `convert_to_db`: the statement for a class, or the
   * `ValueError` when it has no annotated fields.
   */
  function Translate(cls: ClassDescriptor): (r: Result<string, Error>)
    ensures r.Failure? <==> |cls.annotations| == 0
    ensures r.Failure? ==> r.error == NoAnnotatedFields
  {
    var fields := FieldsDict(cls.annotations);
    if |fields| == 0 then Failure(NoAnnotatedFields)
    else Success(CreateTableQuery(cls.name, Columns(fields)))
  }

  /**
   * For a class with fields and bare names, the statement names the class as
   * the table and lists each field, in order, with its column type.
   */
  lemma TranslateSchema(cls: ClassDescriptor)
    requires |cls.annotations| > 0
    requires ' ' !in cls.name
    requires forall i :: 0 <= i < |cls.annotations| ==> BareName(cls.annotations[i].name)
    ensures Translate(cls).Success?
    ensures var fields := FieldsDict(cls.annotations);
            var st := ParseQuery(Translate(cls).value);
            && st.Some?
            && st.value.table == cls.name
            && |st.value.columns| == |fields|
            && forall i :: 0 <= i < |fields| ==>
                 ParseColumn(st.value.columns[i]) == Some((fields[i].name, SqlType(fields[i].typ)))
  {
    var fields := FieldsDict(cls.annotations);
    var columns := Columns(fields);
    forall i | 0 <= i < |fields| ensures BareName(fields[i].name) {
      assert fields[i].name in NameSet(fields);
      var j :| 0 <= j < |cls.annotations| && cls.annotations[j].name == fields[i].name;
    }
    forall i | 0 <= i < |columns| ensures CommaFree(columns[i]) {
      ColumnDefCommaFree(fields[i]);
    }
    QueryParses(cls.name, columns);
    forall i | 0 <= i < |fields|
      ensures ParseColumn(columns[i]) == Some((fields[i].name, SqlType(fields[i].typ)))
    {
      ColumnDefParses(fields[i]);
    }
  }

  // ---------------------------------------------------------------------
  // The mapper object
  // ---------------------------------------------------------------------

  /** The default database file of `ORMMapper.__init__`. */
  const DefaultDbName := "database.db"

  /** What the mapper asks of the SQLite connection, in order. */
  datatype StoreEvent = Connect(dbName: string) | Execute(sql: string) | Commit

  /** The outcome reported after a successful call: table and database file. */
  datatype Created = Created(tableName: string, dbName: string)

  /** `ORMMapper`: a target class and a database file, both fixed at construction. */
  class OrmMapper {
    const targetClass: ClassDescriptor
    const dbName: string

    constructor (targetClass: ClassDescriptor, dbName: string := DefaultDbName)
      ensures this.targetClass == targetClass && this.dbName == dbName
    {
      this.targetClass := targetClass;
      this.dbName := dbName;
    }

    /**
     * `convert_to_db`: with no annotated fields it fails before touching the
     * database; otherwise it connects to `dbName`, executes exactly the
     * translated statement once, commits, and reports the table it created.
     */
    method ConvertToDb() returns (r: Result<Created, Error>, trace: seq<StoreEvent>)
      ensures r.Failure? <==> |targetClass.annotations| == 0
      ensures r.Failure? ==> r == Failure(NoAnnotatedFields) && trace == []
      ensures r.Success? ==>
                && r.value == Created(targetClass.name, dbName)
                && Translate(targetClass).Success?
                && trace == [Connect(dbName), Execute(Translate(targetClass).value), Commit]
    {
      var tableName := targetClass.name;
      var fields := FieldsDict(targetClass.annotations);
      if |fields| == 0 {
        return Failure(NoAnnotatedFields), [];
      }
      var columns := BuildColumns(fields);
      var query := CreateTableQuery(tableName, columns);
      trace := [Connect(dbName), Execute(query), Commit];
      r := Success(Created(tableName, dbName));
    }
  }
}
