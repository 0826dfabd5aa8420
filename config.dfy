/**
 * Start-up configuration (backend/internal/config/config.go): values read
 * from the environment, given here as a map from variable name to value (an
 * unset variable is absent), with the defaults the gateway ships with.
 */
module Config {
  import opened Wrappers
  import opened Text

  type Env = map<string, string>

  /** getEnv: the variable's value, or the default when it is unset or empty. */
  function GetEnv(env: Env, key: string, defaultVal: string): (v: string)
    ensures (key !in env || env[key] == "") ==> v == defaultVal
    ensures key in env && env[key] != "" ==> v == env[key]
  {
    if key in env && env[key] != "" then env[key] else defaultVal
  }

  /**
   * getEnvInt: the variable parsed as a decimal integer, or the default when
   * it is unset, empty or not an integer.
   */
  function GetEnvInt(env: Env, key: string, defaultVal: int): (v: int)
    ensures (key !in env || Atoi(env[key]).None?) ==> v == defaultVal
    ensures key in env && Atoi(env[key]).Some? ==> v == Atoi(env[key]).value
  {
    if key in env && env[key] != "" && Atoi(env[key]).Some? then Atoi(env[key]).value else defaultVal
  }

  /** A port written in the environment is read back as that port. */
  lemma PortFromEnv(env: Env, port: int)
    ensures GetEnvInt(env["PORT" := Itoa(port)], "PORT", 8050) == port
  {
    AtoiItoa(port);
  }

  /** `host:port`, as `fmt.Sprintf("%s:%d", host, port)` prints it. */
  function HostPort(host: string, port: int): string {
    host + ":" + Itoa(port)
  }

  /** For a host without ':' both parts can be read back from the address. */
  lemma HostPortSplits(host: string, port: int)
    requires forall i :: 0 <= i < |host| ==> host[i] != ':'
    ensures var a := HostPort(host, port);
      |host| < |a| && a[|host|] == ':' && a[..|host|] == host && Atoi(a[|host| + 1..]) == Some(port)
  {
    var a := HostPort(host, port);
    assert a[|host| + 1..] == Itoa(port);
    AtoiItoa(port);
  }

  /** Distinct ports on one host give distinct addresses. */
  lemma HostPortInjective(host: string, p1: int, p2: int)
    requires HostPort(host, p1) == HostPort(host, p2)
    ensures p1 == p2
  {
    var a := HostPort(host, p1);
    assert a[|host| + 1..] == Itoa(p1);
    assert HostPort(host, p2)[|host| + 1..] == Itoa(p2);
    ItoaInjective(p1, p2);
  }

  /** config.Config. */
  class Config {
    var host: string
    var port: int
    var databasePath: string
    var secretKey: string
    var adminUsername: string
    var adminPassword: string

    /** Load: every field from its variable, or its default. */
    constructor Load(env: Env)
      ensures host == GetEnv(env, "HOST", "0.0.0.0")
      ensures port == GetEnvInt(env, "PORT", 8050)
      ensures databasePath == GetEnv(env, "DATABASE_PATH", "./data/gateway.db")
      ensures secretKey == GetEnv(env, "SECRET_KEY", "")
      ensures adminUsername == GetEnv(env, "ADMIN_USERNAME", "admin")
      ensures adminPassword == GetEnv(env, "ADMIN_PASSWORD", "admin123")
    {
      host := GetEnv(env, "HOST", "0.0.0.0");
      port := GetEnvInt(env, "PORT", 8050);
      databasePath := GetEnv(env, "DATABASE_PATH", "./data/gateway.db");
      secretKey := GetEnv(env, "SECRET_KEY", "");
      adminUsername := GetEnv(env, "ADMIN_USERNAME", "admin");
      adminPassword := GetEnv(env, "ADMIN_PASSWORD", "admin123");
    }

    /** SetSecretKey: the key read from the database replaces the secret; nothing else changes. */
    method SetSecretKey(key: string)
      modifies this
      ensures secretKey == key
      ensures host == old(host) && port == old(port) && databasePath == old(databasePath)
      ensures adminUsername == old(adminUsername) && adminPassword == old(adminPassword)
    {
      secretKey := key;
    }

    /** Addr: the listen address. */
    function Addr(): string
      reads this
    {
      HostPort(host, port)
    }
  }

  /** With an empty environment the gateway listens on 0.0.0.0:8050. */
  lemma DefaultsWithEmptyEnv()
    ensures GetEnv(map[], "HOST", "0.0.0.0") == "0.0.0.0"
    ensures GetEnvInt(map[], "PORT", 8050) == 8050
    ensures GetEnv(map[], "DATABASE_PATH", "./data/gateway.db") == "./data/gateway.db"
    ensures GetEnv(map[], "SECRET_KEY", "") == ""
    ensures GetEnv(map[], "ADMIN_USERNAME", "admin") == "admin"
    ensures GetEnv(map[], "ADMIN_PASSWORD", "admin123") == "admin123"
    ensures HostPort("0.0.0.0", 8050) == "0.0.0.0:8050"
  {
    assert Itoa(8050) == "8050" by {
      assert NatToDecimal(8) == "8";
      assert NatToDecimal(80) == "80";
      assert NatToDecimal(805) == "805";
    }
  }
}
