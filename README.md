# Error taxonomy and startup configuration of a chat backend

This project models the two self-contained pieces of logic in a Node.js chat
backend (Express, Socket.IO, Redis, MongoDB), and proves properties of the model:

- **Error taxonomy** (`error_handler.dfy`, module `ErrorHandler`). The source
  has an abstract `CustomError` class and six concrete subclasses. Each
  subclass fixes the status string `'error'` and an HTTP status code. The base
  class turns an error into the body `{message, status, statusCode}`. That
  method is spelled `serialzeErrors` in the source. The model is a closed
  datatype `ErrorKind` with one constructor per subclass, each holding the
  message. The kinds keep the source's class names. `Status`, `StatusCode`
  and `Serialize` are pure functions on it.
  The status codes are the ones RFC 9110 defines: 400 (section 15.5.1),
  401 (section 15.5.2), 404 (section 15.5.5), 413 (section 15.5.14) and
  503 (section 15.6.4). They are written as literals, because the package
  the source takes them from is not part of this model.
- **Configuration** (`config.dfy`, module `Configuration`). A
  `Config` object has seven string fields. Its constructor fills each one from
  the process environment; a variable that is unset or empty gives `''`.
  `validateConfig` walks the object's own entries in declaration order. It
  throws `Configuration <key> is undefined` at the first empty value. The model
  is a class `Config` with the seven fields. The environment is a
  `map<string, string>` passed to the constructor. `ValidateConfig` is a method
  with a `for` loop and an early return. It returns `Validation.Failed(key,
  message)` where the source throws, and `Passed` where it returns normally.
  It is proved equal to the recursive reference function `Validate`, and the
  lemmas about `Validate` give its meaning. `Object.entries(this)` iterates the
  seven fields in the order they are declared and assigned. The methods live on
  the prototype and are not enumerated. `Config.Entries` is that enumeration.

## Model

| member | source | states |
|---|---|---|
| ErrorHandler.Status | src/shared/globals/helpers/error-handler.ts:33-85 | every one of the six kinds has status string "error" |
| ErrorHandler.StatusCode | src/shared/globals/helpers/error-handler.ts:33-85 | the code table read both ways: 400 exactly for the validation and bad-request kinds, 404 exactly for not-found, 401 exactly for unauthorized, 413 exactly for file-too-large, 503 exactly for server error; every code is in 400–599; only ServerError is 5xx and all others are 4xx |
| ErrorHandler.Serialize | src/shared/globals/helpers/error-handler.ts:24-30 | the body keeps the constructor's message, and its status and statusCode are the kind's status and code |
| ErrorHandler.SerializeTable | src/shared/globals/helpers/error-handler.ts:33-85 | for any message m, each kind serialises to {m, "error", code} with its code from the table |
| ErrorHandler.SerializeNotFoundSample | src/shared/globals/helpers/error-handler.ts:51-58 | NotfoundError("room missing") serialises to {"room missing", "error", 404} |
| ErrorHandler.Classify | src/shared/globals/helpers/error-handler.ts:24-30 | inverse of serialisation: accepts exactly the bodies with status "error" and a code of the table, and keeps the message |
| ErrorHandler.ClassifySerialize | src/shared/globals/helpers/error-handler.ts:24-30 | reading back a serialised error gives the same error, except that a validation error comes back as a bad-request error with the same message |
| ErrorHandler.SerializeClassify | src/shared/globals/helpers/error-handler.ts:24-30 | every accepted body is the serialisation of the error it is read back as |
| ErrorHandler.SerializeEqual | src/shared/globals/helpers/error-handler.ts:24-30 | two errors have the same body iff they are equal, or have the same message and both are 400 kinds; so the body depends only on kind and message |
| Configuration.UndefinedMessage | src/config.ts:33 | the error text is "Configuration ", then the key, then " is undefined", so the key can be read back from the message |
| Configuration.MongoUrlMessage | src/config.ts:33 | the message for MONGODB_URL is exactly "Configuration MONGODB_URL is undefined" |
| Configuration.EnvValue | src/config.ts:16-22 | a field is the variable's value when it is set, and "" when it is unset; it is non-empty exactly when the variable is set to a non-empty value |
| Configuration.FromEnvironment | src/config.ts:7-22 | a configuration read from an environment enumerates seven pairs: (key i, the value key i gets from the environment), in declaration order |
| Configuration.Validate | src/config.ts:30-36 | reference definition of validation; a failure carries the message naming its key |
| Configuration.ValidatePassed | src/config.ts:30-36 | validation passes iff no value is empty |
| Configuration.ValidateFirstEmpty | src/config.ts:31-34 | when index i holds the first empty value, validation fails with that key and the message "Configuration <key> is undefined" |
| Configuration.FirstEmptyExists | src/config.ts:30-36 | when some value is empty there is a first empty one, so a failure always names one |
| Configuration.EnvironmentPassed | src/config.ts:15-36 | a configuration read from an environment validates iff all seven variables are set to non-empty values |
| Configuration.EnvironmentFirstMissing | src/config.ts:15-36 | if key i is the first of the seven that is unset or empty, validation fails naming key i |
| Configuration.MissingMongoUrl | src/config.ts:15-36 | with MONGODB_URL unset or empty (for example, an empty environment), validation fails at MONGODB_URL, with the message "Configuration MONGODB_URL is undefined" |
| Configuration.Config.Entries | src/config.ts:6-13 | the object's own entries are the seven fields, keyed by their names in declaration order |
| Configuration.Config.constructor | src/config.ts:15-23 | each field is the value it gets from the environment, and the entries are those of FromEnvironment |
| Configuration.Config.ValidateConfig | src/config.ts:30-36 | the loop returns what Validate gives for the entries: Passed iff every value is non-empty, otherwise Failed with the key at the first empty index and its message |
| Configuration.LoadConfig | src/app.ts:17-19 | startup validation: building the configuration from an environment (the singleton of src/config.ts:39) and validating it gives Validate of FromEnvironment |
| Configuration.ValidateTwice | src/config.ts:30-36 | validation changes no field, so two calls in a row give the same outcome |

## Left out

- Subclassing mechanics (`extends Error`, stack traces, `instanceof`): the kinds are a closed datatype instead.
- The global error middleware in `src/setupServer.ts` (lines 74-83): Express wiring and logging. It calls `serializeErrors`, but the class only defines `serialzeErrors`, so the model does not claim that this middleware sends a serialised body. Errors that are not `CustomError`s get no response there.
- Socket.IO server, Redis publish/subscribe adapter, Express middleware, and HTTP listen in `src/setupServer.ts`: network I/O and configuration of third-party libraries. The connection handler is empty, and cross-process delivery happens inside the Redis adapter library, which is not part of this model.
- Database connection and reconnect in `src/setupDatabase.ts`, and the bootstrap order in `src/app.ts`: asynchronous I/O and process exit.
- `createLogger` (src/config.ts:25-28): a call into a logging library.
- `dotenv.config` (src/config.ts:4): reading the `.env` file is I/O. The environment it produces is the `env` parameter.
- Startup validation (`loadConfig`, src/app.ts:17-19) of the module-level singleton `config` (src/config.ts:39) is modelled by `LoadConfig`, which builds a fresh object per call; shared global state is not modelled.
- The thrown `Error` of `validateConfig` is modelled as a returned `Failed` value. What the caller does with it (at startup, the process stops) is not modelled.
