/**
 * Cloud SQL instance discovery of internal/sqlproxy/cloudsql.go: the database
 * type read off an instance's version string, its default port, and the list
 * of second-generation instances of a set of projects.
 *
 * The Cloud SQL Admin API is an oracle: `listed(project)` is the sequence of
 * instances its paged listing delivers for that project (a listing that fails
 * part-way delivers what it delivered before failing; the failure is only logged).
 */
module CloudSql {
  import opened Wrappers
  import opened GoStrings

  /** CloudSQLInstanceType is a Go string type; these are its named values. */
  const TypePostgres: string := "POSTGRES"
  const TypeMySql: string := "MYSQL"
  const TypeSqlServer: string := "SQLSERVER"
  const TypeUnknown: string := "UNKNOWN"

  /** The fields of an Admin API DatabaseInstance that the listing reads. */
  datatype DatabaseInstance = DatabaseInstance(
    backendType: string, project: string, region: string, name: string, databaseVersion: string)

  datatype CloudSqlInstance = CloudSqlInstance(connectionName: string, instanceType: string, defaultPort: int)

  /** GetDefaultPortForType: the engine's standard port, 0 for any other type value. */
  function DefaultPortForType(dbType: string): int {
    if dbType == TypePostgres then 5432
    else if dbType == TypeMySql then 3306
    else if dbType == TypeSqlServer then 1433
    else 0
  }

  /** getSQLInstanceType: the first engine name, in the order POSTGRES, SQLSERVER, MYSQL, found in the version. */
  function SqlInstanceType(databaseVersion: string): string {
    if Contains(databaseVersion, "POSTGRES") then TypePostgres
    else if Contains(databaseVersion, "SQLSERVER") then TypeSqlServer
    else if Contains(databaseVersion, "MYSQL") then TypeMySql
    else TypeUnknown
  }

  /** The "project:region:name" connection name and the type and port of an instance. */
  function Describe(inst: DatabaseInstance): CloudSqlInstance {
    var dbType := SqlInstanceType(inst.databaseVersion);
    CloudSqlInstance(inst.project + ":" + inst.region + ":" + inst.name, dbType, DefaultPortForType(dbType))
  }

  /** The proxy only supports second-generation instances. */
  predicate Proxyable(inst: DatabaseInstance) {
    inst.backendType == "SECOND_GEN"
  }

  /** The descriptions of the proxyable instances of one project's listing, in listing order. */
  function SecondGen(items: seq<DatabaseInstance>): seq<CloudSqlInstance> {
    if items == [] then []
    else SecondGen(items[..|items| - 1])
         + (if Proxyable(items[|items| - 1]) then [Describe(items[|items| - 1])] else [])
  }

  /** Everything the listings of `projects` deliver, project after project. */
  function Collected(projects: seq<string>, listed: string -> seq<DatabaseInstance>): seq<CloudSqlInstance> {
    if projects == [] then []
    else Collected(projects[..|projects| - 1], listed) + SecondGen(listed(projects[|projects| - 1]))
  }

  /** fmt's %v of a []string. */
  function FormatList(items: seq<string>): string {
    "[" + Join(items, " ") + "]"
  }

  /**
   * The ([]CloudSQLInstance, error) pair of GetInstancesList; `clientErr` is the
   * error sqladmin.New returns, if any.
   */
  function InstancesList(projects: seq<string>, clientErr: Option<string>, listed: string -> seq<DatabaseInstance>)
    : Result<seq<CloudSqlInstance>, string>
  {
    if projects == [] then Ok([])
    else if clientErr.Some? then Err(clientErr.value)
    else
      var ret := Collected(projects, listed);
      if ret == [] then Err("no Cloud SQL Instances found in these projects: " + FormatList(projects))
      else Ok(ret)
  }

  /**
   * GetInstancesList. The source lists the projects concurrently and collects the
   * instances in arrival order; this loop takes one such order, project by project.
   */
  method GetInstancesList(projects: seq<string>, clientErr: Option<string>, listed: string -> seq<DatabaseInstance>)
    returns (r: Result<seq<CloudSqlInstance>, string>)
    ensures r == InstancesList(projects, clientErr, listed)
  {
    if |projects| == 0 {
      return Ok([]);
    }
    if clientErr.Some? {
      return Err(clientErr.value);
    }
    var ret: seq<CloudSqlInstance> := [];
    var p := 0;
    while p < |projects|
      invariant 0 <= p <= |projects|
      invariant ret == Collected(projects[..p], listed)
    {
      assert projects[..p + 1][..p] == projects[..p];
      var items := listed(projects[p]);
      var start := ret;
      var k := 0;
      while k < |items|
        invariant 0 <= k <= |items|
        invariant ret == start + SecondGen(items[..k])
      {
        assert items[..k + 1][..k] == items[..k];
        var inst := items[k];
        if inst.backendType == "SECOND_GEN" {
          ret := ret + [Describe(inst)];
        }
        k := k + 1;
      }
      assert items[..k] == items;
      p := p + 1;
    }
    assert projects[..p] == projects;
    if |ret| == 0 {
      return Err("no Cloud SQL Instances found in these projects: " + FormatList(projects));
    }
    return Ok(ret);
  }

  // ---------------------------------------------------------------------------

  /** A known type has a non-zero port, distinct per engine; anything else has none. */
  lemma DefaultPortOfType(dbType: string)
    ensures DefaultPortForType(dbType) != 0 <==> dbType in {TypePostgres, TypeMySql, TypeSqlServer}
    ensures DefaultPortForType(TypePostgres) != DefaultPortForType(TypeMySql)
    ensures DefaultPortForType(TypeMySql) != DefaultPortForType(TypeSqlServer)
    ensures DefaultPortForType(TypePostgres) != DefaultPortForType(TypeSqlServer)
  {
  }

  /**
   * The type is UNKNOWN, and the port 0, exactly when the version names none of
   * the three engines; a version naming POSTGRES is Postgres whatever else it names.
   */
  lemma SqlInstanceTypeCases(version: string)
    ensures var t := SqlInstanceType(version);
            && (t == TypeUnknown <==>
                  !Contains(version, "POSTGRES") && !Contains(version, "SQLSERVER") && !Contains(version, "MYSQL"))
            && (t == TypeUnknown <==> DefaultPortForType(t) == 0)
            && (Contains(version, "POSTGRES") ==> t == TypePostgres)
            && (t == TypeMySql ==> Contains(version, "MYSQL") && !Contains(version, "SQLSERVER"))
  {
  }

  lemma {:induction false} ContainsPrefix(s: string, sub: string, rest: string)
    requires s == sub + rest
    ensures Contains(s, sub)
  {
    assert s[..|sub|] == sub;
  }

  /** A string lacking some character of `sub` does not contain `sub`. */
  lemma {:induction false} NotContainsChar(s: string, sub: string, c: char)
    requires c in sub && c !in s
    ensures !Contains(s, sub)
    decreases |s|
  {
    if s != [] {
      NotContainsChar(s[1..], sub, c);
    }
  }

  /** Which engine a version names, from which of the three names it contains. */
  lemma TypeOfNames(v: string, postgres: bool, sqlserver: bool, mysql: bool)
    requires Contains(v, "POSTGRES") == postgres && Contains(v, "SQLSERVER") == sqlserver
    requires Contains(v, "MYSQL") == mysql
    ensures postgres ==> SqlInstanceType(v) == TypePostgres
    ensures !postgres && sqlserver ==> SqlInstanceType(v) == TypeSqlServer
    ensures !postgres && !sqlserver && mysql ==> SqlInstanceType(v) == TypeMySql
  {
  }

  /**
   * Admin API version strings (POSTGRES_13, MYSQL_5_7, SQLSERVER_2017_STANDARD)
   * map to the engine they start with and its port.
   */
  lemma PostgresVersion(rest: string)
    ensures SqlInstanceType("POSTGRES" + rest) == TypePostgres
    ensures DefaultPortForType(SqlInstanceType("POSTGRES" + rest)) == 5432
  {
    var v := "POSTGRES" + rest;
    ContainsPrefix(v, "POSTGRES", rest);
    TypeOfNames(v, true, Contains(v, "SQLSERVER"), Contains(v, "MYSQL"));
  }

  lemma MySqlVersion(rest: string)
    requires 'P' !in rest && 'E' !in rest
    ensures SqlInstanceType("MYSQL" + rest) == TypeMySql
    ensures DefaultPortForType(SqlInstanceType("MYSQL" + rest)) == 3306
  {
    var v := "MYSQL" + rest;
    ContainsPrefix(v, "MYSQL", rest);
    assert 'P' !in v && 'E' !in v;
    NotContainsChar(v, "POSTGRES", 'P');
    NotContainsChar(v, "SQLSERVER", 'E');
    TypeOfNames(v, false, false, true);
  }

  lemma SqlServerVersion(rest: string)
    requires 'P' !in rest
    ensures SqlInstanceType("SQLSERVER" + rest) == TypeSqlServer
    ensures DefaultPortForType(SqlInstanceType("SQLSERVER" + rest)) == 1433
  {
    var v := "SQLSERVER" + rest;
    ContainsPrefix(v, "SQLSERVER", rest);
    assert 'P' !in v;
    NotContainsChar(v, "POSTGRES", 'P');
    TypeOfNames(v, false, true, Contains(v, "MYSQL"));
  }

  /** The connection name splits back into project, region and instance name. */
  lemma ConnectionNameParts(inst: DatabaseInstance)
    requires ':' !in inst.project && ':' !in inst.region && ':' !in inst.name
    ensures Split(Describe(inst).connectionName, ':') == [inst.project, inst.region, inst.name]
    ensures Describe(inst).defaultPort == DefaultPortForType(Describe(inst).instanceType)
  {
    var parts := [inst.project, inst.region, inst.name];
    assert parts[1..] == [inst.region, inst.name];
    assert parts[1..][1..] == [inst.name];
    assert Join([inst.name], [':']) == inst.name;
    assert Join(parts[1..], [':']) == inst.region + [':'] + inst.name;
    assert Join(parts, [':']) == inst.project + ":" + inst.region + ":" + inst.name;
    SplitOfJoin(parts, ':');
  }

  /** A listing contributes exactly the descriptions of its second-generation instances. */
  lemma {:induction false} SecondGenMembers(items: seq<DatabaseInstance>, x: CloudSqlInstance)
    ensures x in SecondGen(items) <==> exists inst :: inst in items && Proxyable(inst) && x == Describe(inst)
  {
    if items != [] {
      var p := items[..|items| - 1];
      var last := items[|items| - 1];
      SecondGenMembers(p, x);
      assert items == p + [last];
      if x in SecondGen(items) && x !in SecondGen(p) {
        assert Proxyable(last) && x == Describe(last);
      }
      if exists inst :: inst in items && Proxyable(inst) && x == Describe(inst) {
        var inst :| inst in items && Proxyable(inst) && x == Describe(inst);
        if inst != last {
          assert inst in p;
        }
      }
    }
  }

  /** The list holds exactly the second-generation instances of the requested projects. */
  lemma {:induction false} CollectedMembers(projects: seq<string>, listed: string -> seq<DatabaseInstance>,
                                            x: CloudSqlInstance)
    ensures x in Collected(projects, listed) <==>
              exists i, inst :: 0 <= i < |projects| && inst in listed(projects[i]) && Proxyable(inst) && x == Describe(inst)
  {
    if projects != [] {
      var n := |projects| - 1;
      var p := projects[..n];
      CollectedMembers(p, listed, x);
      SecondGenMembers(listed(projects[n]), x);
      if exists i, inst :: 0 <= i < |projects| && inst in listed(projects[i]) && Proxyable(inst) && x == Describe(inst) {
        var i, inst :| 0 <= i < |projects| && inst in listed(projects[i]) && Proxyable(inst) && x == Describe(inst);
        if i < n {
          assert p[i] == projects[i];
        }
      }
      if x in Collected(p, listed) {
        var i, inst :| 0 <= i < |p| && inst in listed(p[i]) && Proxyable(inst) && x == Describe(inst);
        assert projects[i] == p[i];
      }
    }
  }

  /**
   * GetInstancesList reports an error exactly when projects were requested and
   * either the client could not be created (that error is passed on) or none of
   * them has a second-generation instance; no projects is no error.
   */
  lemma InstancesListOutcome(projects: seq<string>, clientErr: Option<string>, listed: string -> seq<DatabaseInstance>)
    ensures projects == [] ==> InstancesList(projects, clientErr, listed) == Ok([])
    ensures projects != [] && clientErr.Some? ==> InstancesList(projects, clientErr, listed) == Err(clientErr.value)
    ensures InstancesList(projects, clientErr, listed).Err? <==>
              projects != [] &&
              (clientErr.Some? ||
               forall i, inst :: 0 <= i < |projects| && inst in listed(projects[i]) ==> !Proxyable(inst))
    ensures InstancesList(projects, clientErr, listed).Ok? ==>
              forall x :: x in InstancesList(projects, clientErr, listed).value <==>
                exists i, inst :: 0 <= i < |projects| && inst in listed(projects[i]) && Proxyable(inst) && x == Describe(inst)
  {
    forall x {
      CollectedMembers(projects, listed, x);
    }
    if projects != [] && Collected(projects, listed) != [] {
      CollectedMembers(projects, listed, Collected(projects, listed)[0]);
    }
    if Collected(projects, listed) == [] {
      forall i, inst | 0 <= i < |projects| && inst in listed(projects[i])
        ensures !Proxyable(inst)
      {
        CollectedMembers(projects, listed, Describe(inst));
      }
    }
  }
}
