/** The example run at the end of lab7.py, as a test vector for the translation. */
module OrmExamples {
  import opened Wrappers
  import opened PyText
  import opened Orm

  /** The `User` class of the example run. */
  const User := ClassDescriptor("User", [
    Field("id", Int), Field("name", Str), Field("age", Int), Field("is_active", Bool)])

  lemma UserFieldsCopied()
    ensures FieldsDict(User.annotations) == User.annotations
  {
    assert UniqueNames(User.annotations);
    FieldsDictCopies(User.annotations);
  }

  lemma UserColumnEntries()
    ensures Columns(User.annotations) == ["id INTEGER", "name TEXT", "age INTEGER", "is_active INTEGER"]
  {
    var a := User.annotations;
    assert ColumnDef(a[0]) == "id INTEGER";
    assert ColumnDef(a[1]) == "name TEXT";
    assert ColumnDef(a[2]) == "age INTEGER";
    assert ColumnDef(a[3]) == "is_active INTEGER";
  }

  /** `User` gives four columns, one per annotation, in declaration order. */
  lemma UserColumns()
    ensures Columns(FieldsDict(User.annotations)) == ["id INTEGER", "name TEXT", "age INTEGER", "is_active INTEGER"]
  {
    UserFieldsCopied();
    UserColumnEntries();
  }

  // UserColumnList, UserColumnListShape and UserColumnListText are steps on
  // literal strings; they are kept apart only so that no single proof about
  // the literal text grows too large for the solver.

  lemma UserColumnList()
    ensures Join(["id INTEGER", "name TEXT", "age INTEGER", "is_active INTEGER"], ", ")
            == "id INTEGER, name TEXT, age INTEGER, is_active INTEGER"
  {
    UserColumnListShape();
    UserColumnListText();
  }

  lemma UserColumnListShape()
    ensures Join(["id INTEGER", "name TEXT", "age INTEGER", "is_active INTEGER"], ", ")
            == "id INTEGER" + ", " + "name TEXT" + ", " + "age INTEGER" + ", " + "is_active INTEGER"
  {
  }

  lemma UserColumnListText()
    ensures "id INTEGER" + ", " + "name TEXT" + ", " + "age INTEGER" + ", " + "is_active INTEGER"
            == "id INTEGER, name TEXT, age INTEGER, is_active INTEGER"
  {
  }

  /** `User` gives the expected statement text, line breaks and indentation included. */
  lemma UserStatement()
    ensures Translate(User) == Success(
      "\n        CREATE TABLE IF NOT EXISTS User (\n            "
      + "id INTEGER, name TEXT, age INTEGER, is_active INTEGER"
      + "\n        );\n        ")
  {
    UserQuery();
    UserQueryText();
  }

  lemma UserQuery()
    ensures Translate(User)
            == Success(CreateTableQuery("User", ["id INTEGER", "name TEXT", "age INTEGER", "is_active INTEGER"]))
  {
    UserColumns();
  }

  lemma UserQueryText()
    ensures CreateTableQuery("User", ["id INTEGER", "name TEXT", "age INTEGER", "is_active INTEGER"])
            == "\n        CREATE TABLE IF NOT EXISTS User (\n            "
               + "id INTEGER, name TEXT, age INTEGER, is_active INTEGER"
               + "\n        );\n        "
  {
    UserColumnList();
  }

  /**
   * The example run: `ORMMapper(User)` on the default database file connects
   * to `database.db`, executes the `User` statement once and commits.
   */
  method ExampleRun() returns (r: Result<Created, Error>, trace: seq<StoreEvent>)
    ensures r == Success(Created("User", "database.db"))
    ensures trace == [
      Connect("database.db"),
      Execute("\n        CREATE TABLE IF NOT EXISTS User (\n            "
              + "id INTEGER, name TEXT, age INTEGER, is_active INTEGER"
              + "\n        );\n        "),
      Commit]
  {
    var mapper := new OrmMapper(User);
    r, trace := mapper.ConvertToDb();
    UserStatement();
  }
}
