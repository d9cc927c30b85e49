/** Classification of the database URL: `_using_file_sqlite` and the engine options
    `_setup_connection` chooses by URL prefix. */
module Urls {

  const SQLITE_URL_PREFIX: string := "sqlite://"
  const MARIADB_URL_PREFIX: string := "mariadb://"
  const MARIADB_PYMYSQL_URL_PREFIX: string := "mariadb+pymysql://"
  const MYSQLDB_URL_PREFIX: string := "mysql://"
  const MYSQLDB_PYMYSQL_URL_PREFIX: string := "mysql+pymysql://"
  const MEMORY_MARKER: string := ":memory:"

  predicate StartsWith(s: string, prefix: string)
  {
    |prefix| <= |s| && s[..|prefix|] == prefix
  }

  predicate Contains(s: string, sub: string)
  {
    exists i :: 0 <= i <= |s| && StartsWith(s[i..], sub)
  }

  predicate IsMySqlFamily(url: string)
  {
    StartsWith(url, MARIADB_URL_PREFIX) || StartsWith(url, MARIADB_PYMYSQL_URL_PREFIX) ||
    StartsWith(url, MYSQLDB_URL_PREFIX) || StartsWith(url, MYSQLDB_PYMYSQL_URL_PREFIX)
  }

  /** SQLite stored in a file: an sqlite URL that is more than the bare prefix. */
  predicate UsingFileSqlite(url: string)
  {
    url != SQLITE_URL_PREFIX && StartsWith(url, SQLITE_URL_PREFIX)
  }

  datatype PoolClass = MutexPool | RecorderPool | DefaultPool

  datatype ConnectArgs =
    | NoConnectArgs
    | CheckSameThreadOff          // {"check_same_thread": False}
    | Utf8mb4(withConv: bool)     // {"charset": "utf8mb4"}, plus the MySQLdb converter when asked

  /** The keyword arguments handed to `create_engine`, and whether the SQLite file is validated first. */
  datatype EngineOptions = EngineOptions(pool: PoolClass, connectArgs: ConnectArgs,
                                         resetOnReturnOff: bool, echoOff: bool, validateFile: bool)

  function EngineOptionsFor(url: string): (o: EngineOptions)
    ensures o.validateFile <==> UsingFileSqlite(url)
    ensures o.echoOff <==> !StartsWith(url, SQLITE_URL_PREFIX)
    ensures o.pool == MutexPool <==> (url == SQLITE_URL_PREFIX || Contains(url, MEMORY_MARKER))
    ensures o.pool == RecorderPool ==> UsingFileSqlite(url)
    ensures o.resetOnReturnOff <==> o.pool == MutexPool
    ensures o.connectArgs.Utf8mb4? ==> IsMySqlFamily(url) && o.echoOff
  {
    var sqlite := StartsWith(url, SQLITE_URL_PREFIX);
    var base := EngineOptions(DefaultPool, NoConnectArgs, false, !sqlite, UsingFileSqlite(url));
    if url == SQLITE_URL_PREFIX || Contains(url, MEMORY_MARKER) then
      base.(pool := MutexPool, connectArgs := CheckSameThreadOff, resetOnReturnOff := true)
    else if sqlite then
      base.(pool := RecorderPool)
    else if IsMySqlFamily(url) then
      base.(connectArgs := Utf8mb4(StartsWith(url, MARIADB_URL_PREFIX) || StartsWith(url, MYSQLDB_URL_PREFIX)))
    else
      base
  }

  /** A file path appended to the sqlite prefix (the default URL has this shape) selects the
      recycling pool and the file check, as long as the path does not name an in-memory database. */
  lemma FileUrlUsesRecorderPool(path: string)
    requires path != [] && !Contains(SQLITE_URL_PREFIX + path, MEMORY_MARKER)
    ensures UsingFileSqlite(SQLITE_URL_PREFIX + path)
    ensures EngineOptionsFor(SQLITE_URL_PREFIX + path).pool == RecorderPool
    ensures EngineOptionsFor(SQLITE_URL_PREFIX + path).validateFile
  {
  }

  /** The bare prefix is the in-memory database: mutex pool, no file check. */
  lemma BarePrefixIsInMemory()
    ensures !UsingFileSqlite(SQLITE_URL_PREFIX)
    ensures EngineOptionsFor(SQLITE_URL_PREFIX).pool == MutexPool
    ensures EngineOptionsFor(SQLITE_URL_PREFIX).connectArgs == CheckSameThreadOff
  {
  }

  /** The MySQLdb converter is requested only for the non-PyMySQL drivers; MySQL-family URLs
      keep the default pool. */
  lemma PyMySqlGetsNoConverter(url: string)
    requires StartsWith(url, MYSQLDB_PYMYSQL_URL_PREFIX) || StartsWith(url, MARIADB_PYMYSQL_URL_PREFIX)
    requires !Contains(url, MEMORY_MARKER)
    ensures EngineOptionsFor(url).connectArgs == Utf8mb4(false)
    ensures EngineOptionsFor(url).pool == DefaultPool
  {
    assert url[5] == '+' || url[7] == '+';
  }

  lemma MySqlGetsConverter(url: string)
    requires StartsWith(url, MYSQLDB_URL_PREFIX) || StartsWith(url, MARIADB_URL_PREFIX)
    requires !Contains(url, MEMORY_MARKER)
    ensures EngineOptionsFor(url).connectArgs == Utf8mb4(true)
    ensures EngineOptionsFor(url).pool == DefaultPool && EngineOptionsFor(url).echoOff
  {
    assert url[0] == 'm';
  }
}
