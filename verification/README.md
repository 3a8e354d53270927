# ORMMapper schema translation, modelled in Dafny

`lab7.py` defines `ORMMapper`, which turns a Python class into an SQLite
table. `convert_to_db` takes the class's `__name__` as the table name. It
copies the class's `__annotations__` into a `fields` dict and raises
`ValueError` when there are none. It looks up each annotated type in the
table `{int: "INTEGER", str: "TEXT", float: "REAL", bool: "INTEGER"}`, with
`"TEXT"` for any other type. It builds one `"<name> <type>"` entry per field
in a loop, joins the entries with `", "`, and writes them into a
`CREATE TABLE IF NOT EXISTS` statement. Last, it opens the database file,
executes the statement and commits.

The model has four modules:

- `Wrappers` (`wrappers.dfy`): `Option` and `Result`.
- `PyText` (`py_text.dfy`): Python's `sep.join(parts)` as `Join`. `Split`
  undoes `", ".join` and is there to state what the column list determines.
- `Orm` (`orm_mapper.dfy`): the translation and the mapper class.
  - A Python type is a `PyType`: `Int`, `Str`, `Float`, `Bool`, or
    `Other(name)` for every other hashable annotation, none of which is a key of the lookup table.
  - The class is a `ClassDescriptor`: its name and the items of its
    `__annotations__`, in dict order.
  - The `fields` comprehension is `FieldsDict`. It is built with the
    assignment rule of a Python dict (`DictSet`): an existing key keeps its
    place and a new key goes last.
  - The lookup is `SqlType`. The column loop is the method `BuildColumns`,
    proved against the function `Columns`.
  - The statement is the exact text of the f-string (`CreateTableQuery`).
    That includes the leading line break, the 8- and 12-space indentation and
    the trailing 8 spaces. `ParseQuery` reads that text back into a
    `Statement` (table name and column entries), so the lemmas can say what
    the text contains.
  - `Translate` is lines 18-48 as one function. It returns the statement
    text or `NoAnnotatedFields` for the `ValueError`.
  - `OrmMapper` is the class. Its two fields are `const`, because the source
    sets them once in `__init__`. `ConvertToDb` returns the outcome and the
    list of requests it makes of the database (`Connect`, `Execute`,
    `Commit`).
- `OrmExamples` (`orm_examples.dfy`): the `User` class of the example run at
  the end of `lab7.py`, used as a test vector.

The source file has CRLF line endings. Python reads source text with
universal newlines, so each line break inside the f-string is one `"\n"`,
and the model uses that.

The statement is the multi-line, indented text of the f-string at
lab7.py:44-48. The `ValueError` of lab7.py:27 is `NoAnnotatedFields`. Type
tags are Python type objects, matched by equality as dict keys.

## Model

| member | source | states |
|---|---|---|
| `Orm.DictSet` | lab7.py:21-24 | assigning a field into the dict adds exactly its name to the key set, and the field is in the result |
| `Orm.DictSetExisting` | lab7.py:21-24 | assigning a name that is already a key replaces that entry in place, and every other entry keeps its value and position |
| `Orm.DictSetFresh` | lab7.py:21-24 | assigning a name that is not yet a key appends the field at the end |
| `Orm.DictSetUnique` | lab7.py:21-24 | assigning into a dict with distinct keys keeps the keys distinct |
| `Orm.FieldsDict` | lab7.py:21-26 | `fields` has exactly the annotated names as keys, and it is empty exactly when there are no annotations, so the `if not fields` test fails exactly for a class without annotations |
| `Orm.FieldsDictUnique` | lab7.py:21-24 | `fields` never holds a name twice |
| `Orm.FieldsDictCopies` | lab7.py:21-24 | over the items of a dict such as `__annotations__` (distinct names), the comprehension gives back the same fields in the same order |
| `Orm.FieldsDictIdempotent` | lab7.py:21-24 | a corollary of the two rows above: building the dict again from its own items changes nothing |
| `Orm.SqlFieldTypes` | lab7.py:30-35 | the table has keys for exactly `int`, `str`, `float` and `bool`, and its values are exactly INTEGER, TEXT and REAL |
| `Orm.SqlType` | lab7.py:30-40 | for every hashable annotation the lookup succeeds and yields INTEGER, TEXT or REAL. INTEGER comes exactly from `int` and `bool`. REAL comes exactly from `float`. TEXT comes exactly from `str` and every type outside the table, user classes included |
| `Orm.ColumnDef` | lab7.py:41 | an entry is the field's name, one space, then the field's SQL type, which is INTEGER, TEXT or REAL (read back by `Orm.ColumnDefParses`) |
| `Orm.Columns` | lab7.py:38-41 | the entries the loop must produce: one per field, entry `i` for field `i` (the loop `Orm.BuildColumns` is proved equal to it) |
| `Orm.BuildColumns` | lab7.py:38-41 | the loop makes exactly one entry per field. Entry `i` belongs to field `i` in annotation order and is its name, one space and its SQL type. The result equals the specification `Columns` |
| `Orm.ColumnDefParses` | lab7.py:41 | a column entry splits at its first space back into the field's name and SQL type, when the name has no space |
| `Orm.CreateTableQuery` | lab7.py:44-48 | the text starts with a line break, the indented `CREATE TABLE IF NOT EXISTS`, the table name and the opening parenthesis, and ends with the indented `);` line (its full content is read back by `Orm.QueryParses`) |
| `Orm.QueryParses` | lab7.py:44-48 | reading the statement text back gives exactly the table name and the column entries in order. The entries sit between the parentheses, separated by `", "` with none before the first or after the last. This holds for a space-free name and at least one comma-free entry |
| `Orm.Translate` | lab7.py:18-48 | the translation fails exactly when the class has no annotated fields, and then with `NoAnnotatedFields` |
| `Orm.TranslateSchema` | lab7.py:18-48 | for a class with fields, whose name has no space and whose field names have no space and no comma, the statement's table is the class name. It has one column per field, and column `i` reads back as field `i`'s name and SQL type |
| `Orm.OrmMapper.constructor` | lab7.py:4-11 | the mapper holds the target class and the database file, `database.db` by default |
| `Orm.OrmMapper.ConvertToDb` | lab7.py:13-54 | without annotated fields it fails with `NoAnnotatedFields` and makes no request of the database. Otherwise it connects to `dbName`, executes exactly the translated statement once, commits, and reports the table name and database file |
| `PyText.Join` | lab7.py:46 | joining no parts gives the empty text, and a non-empty join starts with the first part |
| `PyText.JoinLength` | lab7.py:46 | `n` parts joined take their own lengths plus exactly `n - 1` separators |
| `PyText.JoinSnoc` | lab7.py:46 | joining a list with one more part appends one separator and that part, so the last part ends the text |
| `PyText.SplitJoin` | lab7.py:46 | splitting at `", "` recovers a non-empty list of comma-free parts from their join |
| `OrmExamples.UserColumns` | lab7.py:62-66 | `User{id: int, name: str, age: int, is_active: bool}` gives the columns `id INTEGER`, `name TEXT`, `age INTEGER`, `is_active INTEGER`, in that order |
| `OrmExamples.UserStatement` | lab7.py:62-66 | `User` gives exactly the statement text, line breaks and indentation included |
| `OrmExamples.ExampleRun` | lab7.py:69-70 | `ORMMapper(User).convert_to_db()` connects to `database.db`, executes the `User` statement, commits, and reports table `User` |

## Left out

- Reading `__name__` and `__annotations__` by reflection. The caller supplies the name and the annotation items. Inherited or missing `__annotations__` on older Python versions is therefore not modelled.
- The SQLite layer (`sqlite3.connect`, `cursor`, `execute`, `commit`, and the `with` block's own commit or rollback on exit). It is foreign library I/O, so the model records only the requests the mapper makes, in order. What SQLite does with them is not modelled: that the statement parses, that `IF NOT EXISTS` makes a second call a no-op, and store errors.
- The status `print` after a successful run. It is console output. `ConvertToDb` returns the table name and database file it would print.
- Identifier quoting and validation. The source does neither. The lemmas that read the statement back require names without spaces or commas; the translation itself accepts any name.
- `Orm.SqlType`: annotation values are taken to be hashable (type objects, string annotations, `typing` aliases). An unhashable annotation such as `x: [int]` makes the lookup at lab7.py:40 raise `TypeError` before any connection is opened; that failure is not modelled, and such a field is not representable as a `PyType`.
