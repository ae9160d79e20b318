/**
 * Classification of a database path by its suffix, as Connect and
 * CreateDatabase do it with Python's `str.endswith` (case-sensitive).
 */
module Dispatch {
  import opened Types

  /** Python's `s.endswith(suffix)`. */
  predicate EndsWith(s: string, suffix: string) {
    |suffix| <= |s| && s[|s| - |suffix|..] == suffix
  }

  predicate IsAccessPath(path: string) {
    EndsWith(path, ".mdb") || EndsWith(path, ".accdb")
  }

  predicate IsSqlitePath(path: string) {
    EndsWith(path, ".db") || EndsWith(path, ".sqlite") || EndsWith(path, ".sqlite3")
  }

  /** The kind of file CreateDatabase produces. */
  datatype StoreKind = SqliteStore | AccessTemplate

  /**
   * The backend Connect picks for a path: the empty path is an in-memory
   * SQLite store, Access suffixes go to the ODBC driver, SQLite suffixes to
   * a SQLite file; anything else is rejected.
   */
  function ConnectBackend(path: string): (r: Result<Backend>)
    ensures r == Ok(MemorySqlite) <==> path == ""
    ensures r.Err? ==> r.error == UnsupportedExtension(path) && path != ""
  {
    if path == "" then Ok(MemorySqlite)
    else if IsAccessPath(path) then Ok(AccessOdbc)
    else if IsSqlitePath(path) then Ok(SqliteFile)
    else Err(UnsupportedExtension(path))
  }

  /** The branch CreateDatabase takes for a path (SQLite suffixes are tested first). */
  function CreateTarget(path: string): (r: Option<StoreKind>)
    ensures r.Some? ==> path != ""
  {
    if IsSqlitePath(path) then Some(SqliteStore)
    else if IsAccessPath(path) then Some(AccessTemplate)
    else None
  }

  /** A path ending with a suffix has the suffix's characters at its end. */
  lemma EndsWithAt(s: string, suffix: string, i: int)
    requires EndsWith(s, suffix)
    requires 0 <= i < |suffix|
    ensures s[|s| - |suffix| + i] == suffix[i]
  {
  }

  lemma EndsWithAppended(stem: string, suffix: string)
    ensures EndsWith(stem + suffix, suffix)
  {
  }

  /**
   * No path is both an Access path and a SQLite path, so the order in which
   * Connect and CreateDatabase test the two groups does not matter.
   */
  lemma SuffixGroupsDisjoint(path: string)
    ensures !(IsAccessPath(path) && IsSqlitePath(path))
  {
    if IsAccessPath(path) && IsSqlitePath(path) {
      var n := |path|;
      // every Access suffix ends in "db" preceded by a letter other than '.'
      if EndsWith(path, ".mdb") {
        EndsWithAt(path, ".mdb", 1);
        EndsWithAt(path, ".mdb", 3);
      } else {
        EndsWithAt(path, ".accdb", 3);
        EndsWithAt(path, ".accdb", 5);
      }
      assert path[n - 3] != '.' && path[n - 1] == 'b';
      if EndsWith(path, ".db") {
        EndsWithAt(path, ".db", 0);
      } else if EndsWith(path, ".sqlite") {
        EndsWithAt(path, ".sqlite", 6);
      } else {
        EndsWithAt(path, ".sqlite3", 7);
      }
      assert false;
    }
  }

  /**
   * On a non-empty path Connect and CreateDatabase agree: SQLite files on
   * the same suffixes, Access files on the same suffixes, and the same paths
   * rejected. The empty path is an in-memory store for Connect only.
   */
  lemma DispatchAgrees(path: string)
    ensures path == "" ==> ConnectBackend(path) == Ok(MemorySqlite) && CreateTarget(path) == None
    ensures path != "" ==>
      && (ConnectBackend(path) == Ok(SqliteFile) <==> CreateTarget(path) == Some(SqliteStore))
      && (ConnectBackend(path) == Ok(AccessOdbc) <==> CreateTarget(path) == Some(AccessTemplate))
      && (ConnectBackend(path).Err? <==> CreateTarget(path).None?)
  {
    SuffixGroupsDisjoint(path);
  }

  /** Each recognised suffix selects its backend, whatever precedes it. */
  lemma RecognisedSuffixes(stem: string)
    ensures ConnectBackend(stem + ".mdb") == Ok(AccessOdbc)
    ensures ConnectBackend(stem + ".accdb") == Ok(AccessOdbc)
    ensures ConnectBackend(stem + ".db") == Ok(SqliteFile)
    ensures ConnectBackend(stem + ".sqlite") == Ok(SqliteFile)
    ensures ConnectBackend(stem + ".sqlite3") == Ok(SqliteFile)
    ensures CreateTarget(stem + ".mdb") == Some(AccessTemplate)
    ensures CreateTarget(stem + ".accdb") == Some(AccessTemplate)
    ensures CreateTarget(stem + ".db") == Some(SqliteStore)
    ensures CreateTarget(stem + ".sqlite") == Some(SqliteStore)
    ensures CreateTarget(stem + ".sqlite3") == Some(SqliteStore)
  {
    EndsWithAppended(stem, ".mdb");
    SuffixGroupsDisjoint(stem + ".mdb");
    EndsWithAppended(stem, ".accdb");
    SuffixGroupsDisjoint(stem + ".accdb");
    EndsWithAppended(stem, ".db");
    SuffixGroupsDisjoint(stem + ".db");
    EndsWithAppended(stem, ".sqlite");
    SuffixGroupsDisjoint(stem + ".sqlite");
    EndsWithAppended(stem, ".sqlite3");
    SuffixGroupsDisjoint(stem + ".sqlite3");
  }

  /** A path shorter than a suffix, or differing from it at one position, does not end with it. */
  lemma DiffersAt(s: string, suffix: string, i: int)
    requires 0 <= i < |suffix|
    requires |suffix| <= |s| ==> s[|s| - |suffix| + i] != suffix[i]
    ensures !EndsWith(s, suffix)
  {
  }

  /**
   * Matching is case-sensitive: a non-empty path whose last character is
   * none of 'b', 'e', '3' (the last characters of the five suffixes) is
   * rejected by both dispatches, e.g. "data.DB" or "data.MDB".
   */
  lemma UnrecognisedLastCharRejected(path: string)
    requires path != ""
    requires path[|path| - 1] != 'b' && path[|path| - 1] != 'e' && path[|path| - 1] != '3'
    ensures ConnectBackend(path) == Err(UnsupportedExtension(path))
    ensures CreateTarget(path) == None
  {
  }

  /** Upper-case spellings of the suffixes are rejected. */
  lemma UpperCaseSuffixesRejected(stem: string)
    ensures ConnectBackend(stem + ".DB").Err? && CreateTarget(stem + ".DB").None?
    ensures ConnectBackend(stem + ".MDB").Err? && CreateTarget(stem + ".MDB").None?
    ensures ConnectBackend(stem + ".ACCDB").Err? && CreateTarget(stem + ".ACCDB").None?
    ensures ConnectBackend(stem + ".SQLITE").Err? && CreateTarget(stem + ".SQLITE").None?
    ensures ConnectBackend(stem + ".SQLITE3").Err? && CreateTarget(stem + ".SQLITE3").None?
  {
    var p := stem + ".DB";
    assert p[|p| - 1] == 'B';
    UnrecognisedLastCharRejected(p);
    p := stem + ".MDB";
    assert p[|p| - 1] == 'B';
    UnrecognisedLastCharRejected(p);
    p := stem + ".ACCDB";
    assert p[|p| - 1] == 'B';
    UnrecognisedLastCharRejected(p);
    p := stem + ".SQLITE";
    assert p[|p| - 1] == 'E';
    UnrecognisedLastCharRejected(p);
    UpperCaseSqlite3Rejected(stem);
  }

  lemma UpperCaseSqlite3Rejected(stem: string)
    ensures ConnectBackend(stem + ".SQLITE3").Err? && CreateTarget(stem + ".SQLITE3").None?
  {
    var p := stem + ".SQLITE3";
    var n := |p|;
    assert p[n - 1] == '3' && p[n - 7] == 'S';
    DiffersAt(p, ".mdb", 3);
    DiffersAt(p, ".accdb", 5);
    DiffersAt(p, ".db", 2);
    DiffersAt(p, ".sqlite", 6);
    DiffersAt(p, ".sqlite3", 1);
  }

  /** `endswith` holds exactly when the path is some stem followed by the suffix. */
  lemma EndsWithIffStem(path: string, suffix: string)
    ensures EndsWith(path, suffix) <==> exists stem :: path == stem + suffix
  {
    if EndsWith(path, suffix) {
      var stem := path[..|path| - |suffix|];
      assert path == stem + suffix;
    }
    if exists stem :: path == stem + suffix {
      var stem :| path == stem + suffix;
      EndsWithAppended(stem, suffix);
    }
  }

  /**
   * Every non-empty path that is not a stem followed by one of the five
   * suffixes is rejected by both dispatches, whatever its case or its
   * other characters ("data.xdb", "data.Db", "data.sqlitE", ...).
   */
  lemma UnrecognisedSuffixRejected(path: string)
    requires path != ""
    requires forall stem :: path != stem + ".mdb" && path != stem + ".accdb"
    requires forall stem :: path != stem + ".db" && path != stem + ".sqlite" && path != stem + ".sqlite3"
    ensures ConnectBackend(path) == Err(UnsupportedExtension(path))
    ensures CreateTarget(path) == None
  {
    EndsWithIffStem(path, ".mdb");
    EndsWithIffStem(path, ".accdb");
    EndsWithIffStem(path, ".db");
    EndsWithIffStem(path, ".sqlite");
    EndsWithIffStem(path, ".sqlite3");
  }

  /**
   * The converse of RecognisedSuffixes: Access ODBC and a SQLite file are
   * chosen only for a path that is a stem followed by a suffix of their group,
   * in Connect and in CreateDatabase.
   */
  lemma BackendOnlyForRecognisedSuffix(path: string)
    ensures ConnectBackend(path) == Ok(AccessOdbc) || CreateTarget(path) == Some(AccessTemplate) ==>
      exists stem :: path == stem + ".mdb" || path == stem + ".accdb"
    ensures ConnectBackend(path) == Ok(SqliteFile) || CreateTarget(path) == Some(SqliteStore) ==>
      exists stem :: path == stem + ".db" || path == stem + ".sqlite" || path == stem + ".sqlite3"
  {
    EndsWithIffStem(path, ".mdb");
    EndsWithIffStem(path, ".accdb");
    EndsWithIffStem(path, ".db");
    EndsWithIffStem(path, ".sqlite");
    EndsWithIffStem(path, ".sqlite3");
  }

  /** Mixed-case and near-miss spellings are rejected: matching is exact and case-sensitive. */
  lemma MixedCaseSuffixesRejected(stem: string)
    ensures ConnectBackend(stem + ".Db").Err? && CreateTarget(stem + ".Db").None?
    ensures ConnectBackend(stem + ".xdb").Err? && CreateTarget(stem + ".xdb").None?
    ensures ConnectBackend(stem + ".sqlitE").Err? && CreateTarget(stem + ".sqlitE").None?
  {
    MixedCaseDbRejected(stem);
    NearMissXdbRejected(stem);
    var p := stem + ".sqlitE";
    assert p[|p| - 1] == 'E';
    UnrecognisedLastCharRejected(p);
  }

  /** Helper of MixedCaseSuffixesRejected: the `.Db` case. */
  lemma MixedCaseDbRejected(stem: string)
    ensures ConnectBackend(stem + ".Db").Err? && CreateTarget(stem + ".Db").None?
  {
    var p := stem + ".Db";
    assert p[|p| - 2] == 'D' && p[|p| - 1] == 'b';
    DiffersAt(p, ".mdb", 2);
    DiffersAt(p, ".accdb", 4);
    DiffersAt(p, ".db", 1);
    DiffersAt(p, ".sqlite", 6);
    DiffersAt(p, ".sqlite3", 7);
  }

  /** Helper of MixedCaseSuffixesRejected: the `.xdb` case. */
  lemma NearMissXdbRejected(stem: string)
    ensures ConnectBackend(stem + ".xdb").Err? && CreateTarget(stem + ".xdb").None?
  {
    var p := stem + ".xdb";
    assert p[|p| - 4] == '.' && p[|p| - 3] == 'x' && p[|p| - 1] == 'b';
    DiffersAt(p, ".mdb", 1);
    DiffersAt(p, ".accdb", 3);
    DiffersAt(p, ".db", 0);
    DiffersAt(p, ".sqlite", 6);
    DiffersAt(p, ".sqlite3", 7);
  }
}
