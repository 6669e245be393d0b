/** Configuration loading and validation at startup. A configuration object
    holds seven string settings read from the process environment (a missing
    or empty variable becomes the empty string); validation walks the settings
    in declaration order and fails at the first empty one, naming it.

    The environment is a parameter (a map from variable name to value) rather
    than global process state. */
module Configuration {

  /** The seven setting names, in the order the fields are declared. */
  const Keys: seq<string> :=
    ["MONGODB_URL", "JWT_TOKEN", "NODE_ENV", "SECRECT_KEY_ONE",
     "SECRECT_KEY_TWO", "CLIENT_URL", "REDIS_HOST"]

  /** Outcome of validation: success, or the error thrown for the first empty
      setting, with its key and message. */
  datatype Validation = Passed | Failed(key: string, message: string)

  /** The message of the error thrown for an empty setting: the fixed
      prefix, the key itself, the fixed suffix, so the key can be read back. */
  function UndefinedMessage(key: string): (m: string)
    ensures |m| == 14 + |key| + 13
    ensures m[..14] == "Configuration "
    ensures m[14..14 + |key|] == key
    ensures m[14 + |key|..] == " is undefined"
  {
    "Configuration " + key + " is undefined"
  }

  /** The message for the first setting, spelled out. */
  lemma MongoUrlMessage()
    ensures UndefinedMessage("MONGODB_URL") == "Configuration MONGODB_URL is undefined"
  {
  }

  /** The value a setting takes from the environment: the variable's value
      when it is set and non-empty, and the empty string otherwise. Since the
      empty string is the only falsy string, this is simply the variable's
      value when it is set at all. */
  function EnvValue(env: map<string, string>, name: string): (v: string)
    ensures v == if name in env then env[name] else ""
    ensures v != "" <==> name in env && env[name] != ""
  {
    if name in env && env[name] != "" then env[name] else ""
  }

  /** The (key, value) pairs a configuration built from `env` enumerates. */
  function FromEnvironment(env: map<string, string>): (entries: seq<(string, string)>)
    ensures |entries| == |Keys|
    ensures forall i :: 0 <= i < |Keys| ==> entries[i] == (Keys[i], EnvValue(env, Keys[i]))
  {
    [("MONGODB_URL", EnvValue(env, "MONGODB_URL")),
     ("JWT_TOKEN", EnvValue(env, "JWT_TOKEN")),
     ("NODE_ENV", EnvValue(env, "NODE_ENV")),
     ("SECRECT_KEY_ONE", EnvValue(env, "SECRECT_KEY_ONE")),
     ("SECRECT_KEY_TWO", EnvValue(env, "SECRECT_KEY_TWO")),
     ("CLIENT_URL", EnvValue(env, "CLIENT_URL")),
     ("REDIS_HOST", EnvValue(env, "REDIS_HOST"))]
  }

  /** Every value in the enumeration is non-empty. */
  ghost predicate AllSet(entries: seq<(string, string)>) {
    forall i :: 0 <= i < |entries| ==> entries[i].1 != ""
  }

  /** Index i holds the first empty value of the enumeration. */
  ghost predicate IsFirstEmpty(entries: seq<(string, string)>, i: int) {
    0 <= i < |entries| && entries[i].1 == "" && AllSet(entries[..i])
  }

  /** Reference definition of validation: the first empty value, scanning
      from the front, decides the error; no empty value means success. */
  function Validate(entries: seq<(string, string)>): (r: Validation)
    ensures r.Failed? ==> r.message == UndefinedMessage(r.key)
  {
    if entries == [] then Passed
    else if entries[0].1 == "" then Failed(entries[0].0, UndefinedMessage(entries[0].0))
    else Validate(entries[1..])
  }

  /** Validation succeeds if and only if no value is empty. */
  lemma {:induction false} ValidatePassed(entries: seq<(string, string)>)
    ensures Validate(entries).Passed? <==> AllSet(entries)
  {
    if entries != [] {
      ValidatePassed(entries[1..]);
      if entries[0].1 != "" {
        assert AllSet(entries) <==> AllSet(entries[1..]) by {
          forall i | 0 < i < |entries| ensures entries[i] == entries[1..][i - 1] { }
        }
      }
    }
  }

  /** When validation fails, it names the first empty value's key. */
  lemma {:induction false} ValidateFirstEmpty(entries: seq<(string, string)>, i: int)
    requires IsFirstEmpty(entries, i)
    ensures Validate(entries) == Failed(entries[i].0, UndefinedMessage(entries[i].0))
  {
    if i > 0 {
      assert entries[0] == entries[..i][0];
      assert entries[1..][..i - 1] == entries[..i][1..];
      assert IsFirstEmpty(entries[1..], i - 1);
      ValidateFirstEmpty(entries[1..], i - 1);
    }
  }

  /** An enumeration with an empty value has a first one. */
  lemma {:induction false} FirstEmptyExists(entries: seq<(string, string)>)
    requires !AllSet(entries)
    ensures exists i :: IsFirstEmpty(entries, i)
  {
    if entries[0].1 == "" {
      assert IsFirstEmpty(entries, 0);
    } else {
      FirstEmptyExists(entries[1..]);
      var i :| IsFirstEmpty(entries[1..], i);
      assert entries[..i + 1] == [entries[0]] + entries[1..][..i];
      assert IsFirstEmpty(entries, i + 1);
    }
  }

  /** Validation of a configuration read from `env` succeeds if and only if
      all seven variables are set to non-empty values. */
  lemma EnvironmentPassed(env: map<string, string>)
    ensures Validate(FromEnvironment(env)).Passed? <==>
      forall k :: k in Keys ==> k in env && env[k] != ""
  {
    var entries := FromEnvironment(env);
    ValidatePassed(entries);
    if AllSet(entries) {
      forall k | k in Keys ensures k in env && env[k] != "" {
        var i :| 0 <= i < |Keys| && Keys[i] == k;
        assert entries[i].1 != "";
      }
    }
    if forall k :: k in Keys ==> k in env && env[k] != "" {
      forall i | 0 <= i < |entries| ensures entries[i].1 != "" {
        assert Keys[i] in Keys;
      }
    }
  }

  /** If key number i is the first of the seven that is missing or empty in
      `env`, validation of the configuration read from `env` fails naming it. */
  lemma EnvironmentFirstMissing(env: map<string, string>, i: nat)
    requires i < |Keys|
    requires Keys[i] !in env || env[Keys[i]] == ""
    requires forall j :: 0 <= j < i ==> Keys[j] in env && env[Keys[j]] != ""
    ensures Validate(FromEnvironment(env)) == Failed(Keys[i], UndefinedMessage(Keys[i]))
  {
    var entries := FromEnvironment(env);
    assert IsFirstEmpty(entries, i) by {
      forall j | 0 <= j < i ensures entries[..i][j].1 != "" {
        assert entries[j] == (Keys[j], EnvValue(env, Keys[j]));
      }
    }
    ValidateFirstEmpty(entries, i);
  }

  /** With MONGODB_URL missing (for instance in an empty environment),
      validation fails at MONGODB_URL, the first setting. */
  lemma MissingMongoUrl(env: map<string, string>)
    requires "MONGODB_URL" !in env || env["MONGODB_URL"] == ""
    ensures Validate(FromEnvironment(env)) == Failed("MONGODB_URL", UndefinedMessage("MONGODB_URL"))
    ensures Validate(FromEnvironment(env)).message == "Configuration MONGODB_URL is undefined"
  {
    MongoUrlMessage();
    var entries := FromEnvironment(env);
    assert entries[0] == ("MONGODB_URL", "");
    assert IsFirstEmpty(entries, 0);
    ValidateFirstEmpty(entries, 0);
  }

  /** The configuration object: the seven settings as mutable fields. */
  class Config {
    var MONGODB_URL: string
    var JWT_TOKEN: string
    var NODE_ENV: string
    var SECRECT_KEY_ONE: string
    var SECRECT_KEY_TWO: string
    var CLIENT_URL: string
    var REDIS_HOST: string

    /** The object's own (key, value) pairs in declaration order; the two
        methods of the class are not among them. */
    function Entries(): (entries: seq<(string, string)>)
      reads this
      ensures |entries| == |Keys|
      ensures forall i :: 0 <= i < |Keys| ==> entries[i].0 == Keys[i]
    {
      [("MONGODB_URL", MONGODB_URL),
       ("JWT_TOKEN", JWT_TOKEN),
       ("NODE_ENV", NODE_ENV),
       ("SECRECT_KEY_ONE", SECRECT_KEY_ONE),
       ("SECRECT_KEY_TWO", SECRECT_KEY_TWO),
       ("CLIENT_URL", CLIENT_URL),
       ("REDIS_HOST", REDIS_HOST)]
    }

    /** Fills each field from the environment, one by one. */
    constructor (env: map<string, string>)
      ensures MONGODB_URL == EnvValue(env, "MONGODB_URL")
      ensures JWT_TOKEN == EnvValue(env, "JWT_TOKEN")
      ensures NODE_ENV == EnvValue(env, "NODE_ENV")
      ensures SECRECT_KEY_ONE == EnvValue(env, "SECRECT_KEY_ONE")
      ensures SECRECT_KEY_TWO == EnvValue(env, "SECRECT_KEY_TWO")
      ensures CLIENT_URL == EnvValue(env, "CLIENT_URL")
      ensures REDIS_HOST == EnvValue(env, "REDIS_HOST")
      ensures Entries() == FromEnvironment(env)
    {
      MONGODB_URL := EnvValue(env, "MONGODB_URL");
      JWT_TOKEN := EnvValue(env, "JWT_TOKEN");
      NODE_ENV := EnvValue(env, "NODE_ENV");
      SECRECT_KEY_ONE := EnvValue(env, "SECRECT_KEY_ONE");
      SECRECT_KEY_TWO := EnvValue(env, "SECRECT_KEY_TWO");
      CLIENT_URL := EnvValue(env, "CLIENT_URL");
      REDIS_HOST := EnvValue(env, "REDIS_HOST");
    }

    /** Walks the entries in order and stops at the first empty value. The
        object is only read, so repeated calls agree. */
    method ValidateConfig() returns (r: Validation)
      ensures r == Validate(Entries())
      ensures r.Passed? <==> AllSet(Entries())
      ensures r.Failed? ==>
        exists i :: IsFirstEmpty(Entries(), i) && r == Failed(Keys[i], UndefinedMessage(Keys[i]))
    {
      var entries := Entries();
      for i := 0 to |entries|
        invariant AllSet(entries[..i])
      {
        if entries[i].1 == "" {
          var key := entries[i].0;
          assert IsFirstEmpty(entries, i);
          ValidateFirstEmpty(entries, i);
          assert key == Keys[i];
          return Failed(key, UndefinedMessage(key));
        }
        assert entries[..i + 1] == entries[..i] + [entries[i]];
      }
      assert entries[..|entries|] == entries;
      ValidatePassed(entries);
      r := Passed;
    }
  }

  /** Startup: build the configuration from the environment and validate it. */
  method LoadConfig(env: map<string, string>) returns (r: Validation)
    ensures r == Validate(FromEnvironment(env))
  {
    var config := new Config(env);
    r := config.ValidateConfig();
  }

  /** Validation changes no field, so validating twice gives the same outcome. */
  method ValidateTwice(config: Config) returns (first: Validation, second: Validation)
    ensures first == second
  {
    first := config.ValidateConfig();
    second := config.ValidateConfig();
  }
}
