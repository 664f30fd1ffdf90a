/** The command line of the `snowsql` shell client (django_snowflake/client.py). */
module Client {
  import opened Common

  /** `executable_name` (client.py:7). */
  const ExecutableName: string := "snowsql"

  /** The settings passed as flags, in the order the flags are emitted. */
  const Flags: seq<(string, string)> := [
    ("ACCOUNT", "-a"), ("NAME", "-d"), ("HOST", "-h"), ("PORT", "-p"),
    ("ROLE", "-r"), ("SCHEMA", "-s"), ("USER", "-u"), ("WAREHOUSE", "-w")
  ]

  /** Python's `settings_dict.get(key)`. */
  function Get(settings: map<string, Param>, key: string): Param
  {
    if key in settings then settings[key] else NoneValue
  }

  /** The flag arguments of the first `k` settings of `flags`: each truthy
      setting contributes its flag followed by its value. */
  function FlagArgs(settings: map<string, Param>, flags: seq<(string, string)>, k: nat): seq<Param>
    requires k <= |flags|
  {
    if k == 0 then []
    else FlagArgs(settings, flags, k - 1) + FlagPair(settings, flags[k - 1].0, flags[k - 1].1)
  }

  /** `[flag, value]` when the setting is truthy, else nothing. */
  function FlagPair(settings: map<string, Param>, key: string, flag: string): seq<Param>
  {
    if ParamTruthy(Get(settings, key)) then [Str(flag), Get(settings, key)] else []
  }

  /** The number of truthy settings among the first `k` of `flags`. */
  function TruthyCount(settings: map<string, Param>, flags: seq<(string, string)>, k: nat): nat
    requires k <= |flags|
  {
    if k == 0 then 0
    else TruthyCount(settings, flags, k - 1) + (if ParamTruthy(Get(settings, flags[k - 1].0)) then 1 else 0)
  }

  /** `env or None`: the password in `SNOWSQL_PWD` when it is truthy. */
  function PasswordEnv(settings: map<string, Param>): Option<map<string, Param>>
  {
    if ParamTruthy(Get(settings, "PASSWORD")) then Some(map["SNOWSQL_PWD" := Get(settings, "PASSWORD")]) else None
  }

  /** `settings_to_cmd_args_env` (client.py:10-43). `parameters` is accepted
      and not used. */
  method SettingsToCmdArgsEnv(settings: map<string, Param>, parameters: seq<string>)
    returns (args: seq<Param>, env: Option<map<string, Param>>)
    ensures args == [Str(ExecutableName)] + FlagArgs(settings, Flags, |Flags|)
    ensures env == PasswordEnv(settings)
  {
    args := [Str(ExecutableName)];
    var account := Get(settings, "ACCOUNT");
    var dbname := Get(settings, "NAME");
    var host := Get(settings, "HOST");
    var password := Get(settings, "PASSWORD");
    var port := Get(settings, "PORT");
    var role := Get(settings, "ROLE");
    var schema := Get(settings, "SCHEMA");
    var user := Get(settings, "USER");
    var warehouse := Get(settings, "WAREHOUSE");

    ghost var before0 := args;
    if ParamTruthy(account) {
      args := args + [Str("-a"), account];
    }
    FlagArgsStep(settings, before0, args, 0, "ACCOUNT", "-a");
    ghost var before1 := args;
    if ParamTruthy(dbname) {
      args := args + [Str("-d"), dbname];
    }
    FlagArgsStep(settings, before1, args, 1, "NAME", "-d");
    ghost var before2 := args;
    if ParamTruthy(host) {
      args := args + [Str("-h"), host];
    }
    FlagArgsStep(settings, before2, args, 2, "HOST", "-h");
    ghost var before3 := args;
    if ParamTruthy(port) {
      args := args + [Str("-p"), port];
    }
    FlagArgsStep(settings, before3, args, 3, "PORT", "-p");
    ghost var before4 := args;
    if ParamTruthy(role) {
      args := args + [Str("-r"), role];
    }
    FlagArgsStep(settings, before4, args, 4, "ROLE", "-r");
    ghost var before5 := args;
    if ParamTruthy(schema) {
      args := args + [Str("-s"), schema];
    }
    FlagArgsStep(settings, before5, args, 5, "SCHEMA", "-s");
    ghost var before6 := args;
    if ParamTruthy(user) {
      args := args + [Str("-u"), user];
    }
    FlagArgsStep(settings, before6, args, 6, "USER", "-u");
    ghost var before7 := args;
    if ParamTruthy(warehouse) {
      args := args + [Str("-w"), warehouse];
    }
    FlagArgsStep(settings, before7, args, 7, "WAREHOUSE", "-w");

    var envMap: map<string, Param> := map[];
    if ParamTruthy(password) {
      envMap := envMap["SNOWSQL_PWD" := password];
      assert "SNOWSQL_PWD" in envMap;
    }
    env := if envMap == map[] then None else Some(envMap);
  }

  /** The `k`-th `if` of the method appends that setting's flag pair. */
  lemma FlagArgsStep(settings: map<string, Param>, before: seq<Param>, after: seq<Param>, k: nat, key: string, flag: string)
    requires k < |Flags| && Flags[k] == (key, flag)
    requires before == [Str(ExecutableName)] + FlagArgs(settings, Flags, k)
    requires after == before + FlagPair(settings, key, flag)
    ensures after == [Str(ExecutableName)] + FlagArgs(settings, Flags, k + 1)
  {
  }

  /** The argv grows by two per truthy setting: it has
      1 + 2 * (number of truthy settings) entries. */
  lemma {:induction false} FlagArgsLength(settings: map<string, Param>, flags: seq<(string, string)>, k: nat)
    requires k <= |flags|
    ensures |FlagArgs(settings, flags, k)| == 2 * TruthyCount(settings, flags, k)
  {
    if k > 0 {
      FlagArgsLength(settings, flags, k - 1);
    }
  }

  /** Flags and values alternate: every even position holds one of the
      table's flags and the next position a truthy value. */
  lemma {:induction false} FlagArgsAlternate(settings: map<string, Param>, flags: seq<(string, string)>, k: nat)
    requires k <= |flags|
    ensures |FlagArgs(settings, flags, k)| % 2 == 0
    ensures forall i :: 0 <= i < |FlagArgs(settings, flags, k)| / 2 ==>
      (exists j :: 0 <= j < k && FlagArgs(settings, flags, k)[2 * i] == Str(flags[j].1)) &&
      ParamTruthy(FlagArgs(settings, flags, k)[2 * i + 1])
  {
    if k > 0 {
      FlagArgsAlternate(settings, flags, k - 1);
      var a := FlagArgs(settings, flags, k - 1);
      var r := FlagArgs(settings, flags, k);
      forall i | 0 <= i < |r| / 2
        ensures (exists j :: 0 <= j < k && r[2 * i] == Str(flags[j].1)) && ParamTruthy(r[2 * i + 1])
      {
        if 2 * i < |a| {
          var j :| 0 <= j < k - 1 && a[2 * i] == Str(flags[j].1);
          assert r[2 * i] == Str(flags[j].1);
        } else {
          assert r[2 * i] == Str(flags[k - 1].1);
        }
      }
    }
  }

  /** No flag reads the password: argv does not depend on it. */
  lemma {:induction false} FlagArgsIgnorePassword(settings: map<string, Param>, flags: seq<(string, string)>, k: nat, password: Param)
    requires k <= |flags|
    requires forall j :: 0 <= j < |flags| ==> flags[j].0 != "PASSWORD"
    ensures FlagArgs(settings["PASSWORD" := password], flags, k) == FlagArgs(settings, flags, k)
  {
    if k > 0 {
      FlagArgsIgnorePassword(settings, flags, k - 1, password);
    }
  }

  /** The command line is the same whatever the password; the password goes
      to the environment, which is None exactly when the password is falsy. */
  lemma PasswordOnlyInEnvironment(settings: map<string, Param>, password: Param)
    ensures FlagArgs(settings["PASSWORD" := password], Flags, |Flags|) == FlagArgs(settings, Flags, |Flags|)
    ensures PasswordEnv(settings).Some? <==> ParamTruthy(Get(settings, "PASSWORD"))
    ensures PasswordEnv(settings).Some? ==> PasswordEnv(settings).value["SNOWSQL_PWD"] == Get(settings, "PASSWORD")
  {
    FlagArgsIgnorePassword(settings, Flags, |Flags|, password);
  }
}
