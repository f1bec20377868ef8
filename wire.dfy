/** How the renderer's saved profile reaches the backend: `connectToDatabase` posts the
    profile object to `create-connection`, whose JSON body the backend reads as its
    `connection_data`. The extra `id` and `isActive` keys are ignored there. */
module Wire {
  import opened Wrappers
  import opened Text
  import Renderer
  import Backend

  /** The JSON body the backend sees for a profile the connection form produced: a SQLite
      profile carries no `host`, `port`, `username` or `password` key. */
  function ToProfile(d: Renderer.ConnectionData): (p: Backend.Profile)
    ensures p.name == Some(d.name) && p.dbType == Some(d.dbType) && p.color == Some(d.color)
    ensures p.database == Some(d.database)
    ensures d.SqliteData? <==> p.host.None?
    ensures d.SqliteData? ==> p.port.None? && p.username.None? && p.password.None?
    ensures d.ServerData? ==>
      p.host == Some(d.host) && p.port == Some(d.port) && p.username == Some(d.username) && p.password == Some(d.password)
  {
    match d
    case SqliteData(name, dbType, color, database) =>
      Backend.Profile(Some(name), Some(dbType), Some(color), Some(database), None, None, None, None)
    case ServerData(name, dbType, color, host, port, username, password, database) =>
      Backend.Profile(Some(name), Some(dbType), Some(color), Some(database), Some(host), Some(port),
                      Some(username), Some(password))
  }

  /** The driver routine the backend selects for a server type name. */
  function KindOf(dbType: string): Option<Backend.ServerKind> {
    if dbType == "mysql" then Some(Backend.MySql)
    else if dbType == "postgresql" then Some(Backend.PostgreSql)
    else if dbType == "mssql" then Some(Backend.MsSql)
    else None
  }

  /** The supported type names are already lower case. */
  lemma {:induction false} SupportedNamesLower(t: string)
    requires t in Backend.SupportedTypes
    ensures Lower(t) == t
  {
    if t == "sqlite" {
      assert Lower("sqlite") == "sqlite";
    } else if t == "mysql" {
      assert Lower("mysql") == "mysql";
    } else if t == "postgresql" {
      assert Lower("postgresql") == "postgresql";
    } else {
      assert Lower("mssql") == "mssql";
    }
  }

  /** The server type names are supported names other than "sqlite". */
  lemma {:induction false} KindNames(t: string)
    requires KindOf(t).Some?
    ensures t in Backend.SupportedTypes && t != "sqlite"
  {
    if t == "mysql" {
      assert |t| == 5;
    } else if t == "postgresql" {
      assert |t| == 10;
    } else {
      assert t == "mssql" && t[1] == 's';
    }
  }

  /** Both sides default to the same port for each server type. */
  lemma {:induction false} DefaultPortsAgree(t: string)
    requires KindOf(t).Some?
    ensures Renderer.DefaultPort(t) == Backend.DefaultPort(KindOf(t).value)
  {
  }

  /** A profile the form produced never fails the backend's key lookups: with a supported
      type it resolves to the driver call holding exactly the form's values; with any other
      type the reply is "Unsupported database type". */
  lemma {:induction false} FormProfileResolves(d: Renderer.ConnectionData)
    requires Renderer.FormShaped(d)
    ensures Backend.ResolveDriverCall(ToProfile(d)).Ok? <==> Lower(d.dbType) in Backend.SupportedTypes
    ensures Lower(d.dbType) == "sqlite" ==>
      Backend.ResolveDriverCall(ToProfile(d)) == Ok(Backend.SqliteCall(d.database))
    ensures d.ServerData? && KindOf(Lower(d.dbType)).Some? ==>
      Backend.ResolveDriverCall(ToProfile(d))
        == Ok(Backend.ServerCall(KindOf(Lower(d.dbType)).value, d.host, d.port, d.username, d.password, d.database))
  {
    var p := ToProfile(d);
    var t := Lower(d.dbType);
    if t !in Backend.SupportedTypes {
      assert Backend.ResolveDriverCall(p) == Err(Backend.UnsupportedType(t));
    } else if d.SqliteData? {
      SupportedNamesLower(d.dbType);
    }
  }

  /** A server profile without a port gets the type's default port. */
  lemma {:induction false} PortlessServerProfile(d: Renderer.ConnectionData)
    requires Renderer.FormShaped(d) && d.ServerData? && KindOf(Lower(d.dbType)).Some?
    ensures var kind := KindOf(Lower(d.dbType)).value;
      Backend.ResolveDriverCall(ToProfile(d).(port := None))
        == Ok(Backend.ServerCall(kind, d.host, Backend.DefaultPort(kind), d.username, d.password, d.database))
  {
  }

  /** Leaving the form's port field blank connects to the port the backend would use for a
      profile without a port. */
  lemma {:induction false} BlankPortMatchesBackendDefault(form: Renderer.ConnectionForm)
    requires JsTrim(form.name) != [] && JsTrim(form.host) != [] && JsTrim(form.username) != []
    requires JsTrim(form.database) != [] && JsTrim(form.port) == []
    requires KindOf(form.dbType).Some?
    ensures var d := Renderer.ConnectionDataOf(form);
      && d.Some? && d.value.ServerData?
      && Backend.ResolveDriverCall(ToProfile(d.value))
         == Backend.ResolveDriverCall(ToProfile(d.value).(port := None))
  {
    var t := form.dbType;
    KindNames(t);
    var d := Renderer.ConnectionDataOf(form).value;
    assert d.port == Renderer.PortOrDefault([], t);
    Renderer.PortOrDefaultCases(0, t);
    assert d.port == Renderer.DefaultPort(t);
    SupportedNamesLower(t);
    DefaultPortsAgree(t);
    FormProfileResolves(d);
    PortlessServerProfile(d);
  }
}
