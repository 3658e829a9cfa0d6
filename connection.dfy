/** The driver holder of backend/database/connection.py: `init_driver` reads the settings,
    checks connectivity and applies the schema one statement at a time, tolerating
    statements that fail; `close_driver` closes the driver; `query` refuses to run without
    a driver and otherwise picks the database. */
module Connection {
  import opened Payload
  import opened Text
  import opened Seqs

  const DefaultDatabase := "neo4j"
  const UriKey := "NEO4J_URI"
  const UserKey := "NEO4J_USERNAME"
  const PasswordKey := "NEO4J_PASSWORD"
  const DatabaseKey := "NEO4J_DB"

  /** The variable is set to a non-empty value (`all([uri, user, password])` tests each
      for truth, so an empty string counts as missing). */
  predicate Present(env: map<string, string>, key: string) {
    key in env && env[key] != ""
  }

  predicate Configured(env: map<string, string>) {
    Present(env, UriKey) && Present(env, UserKey) && Present(env, PasswordKey)
  }

  /** `os.getenv("NEO4J_DB", "neo4j")`: a variable set to "" stays "". */
  function DatabaseSetting(env: map<string, string>): string {
    if DatabaseKey in env then env[DatabaseKey] else DefaultDatabase
  }

  // ---------------------------------------------------------------- the schema split

  predicate NonBlank(piece: string) {
    Strip(piece) != ""
  }

  /** `[stmt.strip() for stmt in pieces if stmt.strip()]`. */
  function Stripped(pieces: seq<string>): seq<string> {
    MapFilter(NonBlank, Strip, pieces)
  }

  /** The statements `init_driver` runs for a schema text. */
  function SchemaStatements(schema: string): seq<string> {
    Stripped(SplitOn(schema, ';'))
  }

  /** Stripping twice strips nothing more. */
  lemma StripIdempotent(s: string)
    ensures Strip(Strip(s)) == Strip(s)
  {
    var r := Strip(s);
    if r != [] {
      assert LeadCount(r) == 0;
      assert r[0..] == r;
      assert TrailCount(r) == 0;
    }
  }

  /** The statements are the stripped forms of the non-blank pieces, in the pieces' order. */
  lemma StrippedIsFilter(pieces: seq<string>)
    ensures var kept := Filter(NonBlank, pieces);
            && |Stripped(pieces)| == |kept|
            && forall k :: 0 <= k < |kept| ==> Stripped(pieces)[k] == Strip(kept[k])
  {
    MapFilterIsFilter(NonBlank, Strip, pieces);
  }

  /** A statement `init_driver` can send: stripped, non-empty and free of ';'. */
  predicate WellFormedStatement(st: string) {
    st != "" && Strip(st) == st && ';' !in st
  }

  /** A non-blank piece free of ';' strips to a well-formed statement. */
  lemma StrippedPieceWellFormed(piece: string)
    requires NonBlank(piece) && ';' !in piece
    ensures WellFormedStatement(Strip(piece))
  {
    StripIdempotent(piece);
    if ';' in Strip(piece) {
      StripChars(piece, ';');
    }
  }

  /** Every statement is stripped, non-empty and free of ';'. */
  lemma StatementsWellFormed(schema: string)
    ensures forall k :: 0 <= k < |SchemaStatements(schema)| ==> WellFormedStatement(SchemaStatements(schema)[k])
  {
    var pieces := SplitOn(schema, ';');
    forall x | x in pieces && NonBlank(x)
      ensures WellFormedStatement(Strip(x))
    {
      var j :| 0 <= j < |pieces| && pieces[j] == x;
      StrippedPieceWellFormed(x);
    }
    MapFilterAll(NonBlank, Strip, WellFormedStatement, pieces);
  }

  /** The statements keep the order of the schema text: the pieces join back to the text
      with ';', the kept pieces are a subsequence of them, and statement k is the k-th
      non-blank piece stripped. */
  lemma StatementsInOrder(schema: string)
    ensures var pieces := SplitOn(schema, ';');
            var kept := Filter(NonBlank, pieces);
            && Join(pieces, ";") == schema
            && IsSubseq(kept, pieces)
            && |SchemaStatements(schema)| == |kept|
            && forall k :: 0 <= k < |kept| ==> SchemaStatements(schema)[k] == Strip(kept[k])
  {
    var pieces := SplitOn(schema, ';');
    StrippedIsFilter(pieces);
    FilterSpec(NonBlank, pieces);
  }

  /** A schema text of blank pieces only yields no statement. */
  lemma {:induction false} BlankSchemaRunsNothing(pieces: seq<string>)
    requires forall k :: 0 <= k < |pieces| ==> AllSpace(pieces[k])
    ensures Stripped(pieces) == []
  {
    if |pieces| > 0 {
      BlankSchemaRunsNothing(pieces[1..]);
    }
  }

  // ---------------------------------------------------------------- the driver holder

  /** A driver object: where it points, as whom, and whether it was closed. */
  datatype Driver = Driver(uri: string, user: string, password: string, closed: bool)

  /** What happens when `init_driver` builds the driver and runs the connectivity query:
      the constructor raises, the query raises, or both succeed. */
  datatype Probe = Rejected | Unreachable | Reachable

  /** How `init_driver` ends: ValueError for missing settings, the re-raised connection
      error, or normal return with the statements whose run raised (each logged as a
      warning). */
  datatype InitOutcome = MissingSettings | ConnectFailed | Connected(warnings: seq<string>)

  /** How `query` ends: ConnectionError, or the statement handed to the driver for the
      named database. */
  datatype QueryOutcome = NotInitialized | Sent(database: string)

  /** `db or NEO4J_DB`: an override that is None or "" falls back to the current
      database. */
  function TargetDatabase(db: Option<string>, current: string): (name: string)
    ensures db.Some? && db.value != "" ==> name == db.value
    ensures db.None? || db.value == "" ==> name == current
  {
    match db
    case Some(d) => if d != "" then d else current
    case None => current
  }

  /** The driver after `if driver: await driver.close()`. */
  function Closed(d: Option<Driver>): (r: Option<Driver>)
    ensures r.Some? <==> d.Some?
    ensures r.Some? ==> r.value == d.value.(closed := true)
  {
    match d
    case Some(x) => Some(x.(closed := true))
    case None => None
  }

  /** The module globals `driver` and `NEO4J_DB`, and the statements sent through the
      schema session, in order. */
  class Connection {
    var driver: Option<Driver>
    var database: string
    var sent: seq<string>

    /** The state at import: no driver, the default database. */
    constructor ()
      ensures driver == None && database == DefaultDatabase && sent == []
    {
      driver := None;
      database := DefaultDatabase;
      sent := [];
    }

    /** `init_driver`. `probe` says how building the driver and the connectivity query
        went, and `runs(st)` whether running schema statement `st` returns normally. The
        database setting is read before the settings are checked, so it changes even
        when the call raises. */
    method InitDriver(env: map<string, string>, schema: string, probe: Probe, runs: string -> bool)
      returns (outcome: InitOutcome)
      modifies this
      ensures database == DatabaseSetting(env)
      ensures !Configured(env) ==> outcome == MissingSettings && driver == old(driver) && sent == old(sent)
      ensures Configured(env) && probe == Rejected ==>
                outcome == ConnectFailed && driver == Closed(old(driver)) && sent == old(sent)
      ensures Configured(env) && probe == Unreachable ==>
                && outcome == ConnectFailed
                && driver == Some(Driver(env[UriKey], env[UserKey], env[PasswordKey], true))
                && sent == old(sent)
      ensures Configured(env) && probe == Reachable ==>
                && driver == Some(Driver(env[UriKey], env[UserKey], env[PasswordKey], false))
                && sent == old(sent) + SchemaStatements(schema)
                && outcome == Connected(Filter((st: string) => !runs(st), SchemaStatements(schema)))
    {
      database := DatabaseSetting(env);
      if !Configured(env) {
        return MissingSettings;
      }
      match probe {
        case Rejected =>
          driver := Closed(driver);
          return ConnectFailed;
        case Unreachable =>
          driver := Some(Driver(env[UriKey], env[UserKey], env[PasswordKey], true));
          return ConnectFailed;
        case Reachable =>
          driver := Some(Driver(env[UriKey], env[UserKey], env[PasswordKey], false));
      }
      var warnings := ApplySchema(SchemaStatements(schema), runs);
      outcome := Connected(warnings);
    }

    /** The session loop of `init_driver`: every statement is run in order, and one that
        raises is logged as a warning and does not stop the ones after it. */
    method ApplySchema(statements: seq<string>, runs: string -> bool) returns (warnings: seq<string>)
      modifies this
      ensures sent == old(sent) + statements
      ensures warnings == Filter((st: string) => !runs(st), statements)
      ensures driver == old(driver) && database == old(database)
    {
      var fails := (st: string) => !runs(st);
      warnings := [];
      for i := 0 to |statements|
        invariant sent == old(sent) + statements[..i]
        invariant warnings == Filter(fails, statements[..i])
        invariant driver == old(driver) && database == old(database)
      {
        assert statements[..i + 1] == statements[..i] + [statements[i]];
        FilterSnoc(fails, statements[..i], statements[i]);
        sent := sent + [statements[i]];
        if !runs(statements[i]) {
          warnings := warnings + [statements[i]];
        }
      }
      assert statements[..|statements|] == statements;
    }

    /** `close_driver`. */
    method CloseDriver()
      modifies this
      ensures driver == Closed(old(driver))
      ensures database == old(database) && sent == old(sent)
    {
      driver := Closed(driver);
    }

    /** `query`: without a driver it raises ConnectionError; otherwise the statement goes
        to the override database, or to NEO4J_DB when the override is None or "". A closed
        driver still passes the guard. */
    method Query(db: Option<string>) returns (outcome: QueryOutcome)
      ensures outcome == NotInitialized <==> driver.None?
      ensures driver.Some? ==> outcome == Sent(TargetDatabase(db, database))
    {
      if driver.None? {
        return NotInitialized;
      }
      outcome := Sent(TargetDatabase(db, database));
    }
  }

  /** Every statement is attempted, whichever raise: the warnings are exactly the failing
      statements in schema order, and a statement after a failing one is still among
      those sent. */
  lemma FailuresDoNotStopLaterStatements(statements: seq<string>, runs: string -> bool, i: nat, j: nat)
    requires i < j < |statements| && !runs(statements[i])
    ensures statements[i] in Filter((st: string) => !runs(st), statements)
    ensures runs(statements[j]) ==> statements[j] !in Filter((st: string) => !runs(st), statements)
  {
    FilterSpec((st: string) => !runs(st), statements);
  }
}
