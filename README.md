# Service Manager: list-query generation, the aggregation-policy fake, and logging settings

This project models three small pieces of the Service Manager repository in Dafny and proves properties of them.

- **`ListQuery`** (`list_query.dfy`, from `test/list.go`). This is how the listing test suite builds filter queries. `expandFieldQuery` turns a test object's fields into `key op value` clauses. It skips nil values. Values of dynamic type `map[string]interface{}` or `[]interface{}` are replaced by their JSON text. `expandLabelQuery` emits one clause per value of every label key. Each expander also returns its clauses joined with `|`. The entry loop of `DescribeListTestsFor` does four things:
  - It panics on an empty template.
  - It expands the fields of a copy of the arguments with `labels` deleted.
  - It registers one request per clause, plus the joined query when there is more than one clause.
  - When the resource supports labels and the entry's `labels` argument is present and not nil (an empty label map included), it does the same for labels and adds the combined `fieldQuery=…&labelQuery=…` request.
- **`HealthFakes`** (`health_fakes.dfy`, from `pkg/health/healthfakes/fake_aggregation_policy.go`). This is the generated test double of `AggregationPolicy`, modelled as a class with the same fields:
  - an argument log;
  - a per-call return table and a default return;
  - an optional stub;
  - an invocation log keyed by method name.

  `Apply` looks up the per-call return at the number of earlier calls, then appends the call. The stub takes precedence over the per-call return, and the per-call return takes precedence over the default. The object invariant `Valid()` says that the invocation log mirrors the argument log.
- **`Log`** (`log_settings.dfy`, from `pkg/log/log.go`). `Settings.Validate` checks the level first, then the format. `SetupLogging` parses the level, which panics on failure, and applies it. It then looks the format up in the table of supported formatters (`json`, `text`), which panics on a miss. The accept/panic decision is a function (`SetupOutcome`). The step-by-step update of the global logger is a method on a `Logger` class. That method records that the level is already applied when the format panics.

Library calls become parameters: `fmt.Sprintf` (`Filler`), `json.Marshal` (`Marshaller`, which can fail) and `logrus.ParseLevel` (`LevelParser`). A Go map is a sequence of `(key, value)` pairs listed in one iteration order. Every property is stated per position or as a count, so it holds for whatever order Go picks. Panics are results (`Expansion.Panicked`, `Result.Err`, `Setup.LevelPanic`/`FormatPanic`). No `requires` excludes them.

The filter language itself has seven operators, clause splitting and validation. It is implemented on the server, and that code is not part of this model. The 200/400 expectations in `test/list.go` exercise it only over HTTP. The model follows the code that is present and does not reconstruct the server's parser from those expectations.

## Model

| member | source | states |
|---|---|---|
| ListQuery.Substitute | test/list.go:395-409 | values of dynamic type `map[string]interface{}` (`Object`) or `[]interface{}` (`Array`) become `Text` of their JSON serialisation (success exactly when Marshal succeeds, the Marshal error otherwise); every other value is substituted unchanged |
| ListQuery.FieldClausesFillNonNilEntries | test/list.go:390-410 | field expansion succeeds iff every non-nil map/slice value serialises; then there is exactly one clause per non-nil entry, clause j being the template filled with that entry's key first and its substituted value second |
| ListQuery.NilEntriesAreSkipped | test/list.go:391-393 | arguments whose values are all nil produce no clause |
| ListQuery.EmptyArgumentsExpandToNothing | test/list.go:388-389 | empty field or label input yields an empty clause list and the empty multi-clause query |
| ListQuery.ExpandFieldQuery | test/list.go:387-415 | the loop returns the clauses of the field specification joined by `|`, or the Marshal error it panics with |
| ListQuery.SplitJoin | test/list.go:413 | splitting the `|`-joined query on `|` gives back the clause list whenever no clause contains `|` |
| ListQuery.LabelClausesFillPairs | test/list.go:421-425 | label expansion succeeds iff every label value is a list; then there is exactly one clause per (key, value) pair, in order, filled key first and value second |
| ListQuery.LabelClauseCount | test/list.go:421-425 | the number of label clauses is the sum of the value-list lengths |
| ListQuery.ExpandLabelQuery | test/list.go:417-429 | the nested loops return the label clauses joined by `|`, or panic on a value that is not a list |
| ListQuery.DeleteRemovesOnlyKey | test/list.go:335-336 | after delete the key is absent and every other key maps to what it mapped to before |
| ListQuery.FieldsExcludeLabels | test/list.go:335-337 | field expansion sees no `labels` entry and every other field unchanged (that label expansion reads the entry's own arguments is stated by `EntryRequestShape`) |
| ListQuery.QueriesForShape | test/list.go:341-352 | one request `param + clause` per clause in clause order, then the joined query exactly when there is more than one clause; with a single clause the joined query equals the single request |
| ListQuery.PrefixEach | test/list.go:341-342 | one request `param + clause` per clause, in clause order |
| ListQuery.DescribeEntry | test/list.go:328-381 | one entry's requests equal the specification: template guard, field requests, label requests and the combined request |
| ListQuery.EntryRequestShape | test/list.go:338-379 | a successful entry has a non-empty template and registers exactly: one `fieldQuery=` request per field clause, the joined field query exactly when there is more than one field clause, and, when labels are expanded, one `labelQuery=` request per label clause, the joined label query exactly when there is more than one label clause, and last `fquery + "&" + lquery`; the request count is given exactly in both cases |
| ListQuery.DescribeListTests | test/list.go:327-382 | the entry loop returns every entry's requests in order, or the first panic |
| ListQuery.ListPlanEntries | test/list.go:327-382 | a table that does not panic registers one request list per entry, in table order, each entry succeeding and the i-th list being exactly the i-th entry's requests |
| ListQuery.EmptyTemplatePanics | test/list.go:329-331 | an empty query template in any entry makes the whole table panic |
| HealthFakes.OverrideAt | pkg/health/healthfakes/fake_aggregation_policy.go:28 | the per-call return is found iff the table is non-nil and holds the index, and it is the stored value |
| HealthFakes.StubTakesPrecedence | pkg/health/healthfakes/fake_aggregation_policy.go:34-36 | a set stub decides the result whatever the overrides and default |
| HealthFakes.OverrideBeforeDefault | pkg/health/healthfakes/fake_aggregation_policy.go:37-40 | without a stub, an override for the current index wins, and the default is returned exactly when there is none |
| HealthFakes.Recorded | pkg/health/healthfakes/fake_aggregation_policy.go:86-96 | recording creates the map and slot lazily, appends the arguments to the key's slot and leaves every other key as it was |
| HealthFakes.FakeAggregationPolicy.constructor | pkg/health/healthfakes/fake_aggregation_policy.go:10-24 | a new fake has every field at its zero value and satisfies the invariant |
| HealthFakes.FakeAggregationPolicy.Apply | pkg/health/healthfakes/fake_aggregation_policy.go:26-41 | appends exactly one argument record and one invocation, changes nothing else, returns by stub, then override at the number of earlier calls, then default, and preserves the invariant |
| HealthFakes.FakeAggregationPolicy.ApplyCallCount | pkg/health/healthfakes/fake_aggregation_policy.go:43-47 | the number of recorded calls |
| HealthFakes.FakeAggregationPolicy.ApplyArgsForCall | pkg/health/healthfakes/fake_aggregation_policy.go:49-53 | the argument of the i-th (0-based) call; out of range is the index panic |
| HealthFakes.FakeAggregationPolicy.ApplyReturns | pkg/health/healthfakes/fake_aggregation_policy.go:55-60 | clears the stub and sets the default, touching no other field |
| HealthFakes.FakeAggregationPolicy.ApplyReturnsOnCall | pkg/health/healthfakes/fake_aggregation_policy.go:62-72 | clears the stub, creates the table if nil, sets entry i and leaves every other entry as it was |
| HealthFakes.FakeAggregationPolicy.Invocations | pkg/health/healthfakes/fake_aggregation_policy.go:74-84 | a map with the same keys and values as the invocation log, empty when nothing was recorded; under the invariant, exactly the `Apply` slot holding one argument list per recorded call |
| HealthFakes.FakeAggregationPolicy.RecordInvocation | pkg/health/healthfakes/fake_aggregation_policy.go:86-96 | the log becomes the recorded log, only the invocation field changes |
| HealthFakes.OverrideTargetsCallIndex | pkg/health/healthfakes/fake_aggregation_policy.go:28-31 | on a fresh fake with an override for call 1, call 0 gets the default and call 1 the override; two calls are counted and call 0's argument is recorded |
| HealthFakes.StubOverridesConfiguredReturns | pkg/health/healthfakes/fake_aggregation_policy.go:34-36 | a stub set after configuring returns answers the call; configuring a return again clears it; both calls land in the `Apply` invocation slot |
| Log.Validate | pkg/log/log.go:33-41 | no error iff level and format are both non-empty; an empty level reports the missing level (also when both are empty), otherwise an empty format reports the missing format, each with its message text |
| Log.SetupOutcome | pkg/log/log.go:43-60 | configured iff the level parses and the format is `json` or `text`, with the parsed level and the table's formatter; an unparsable level panics with its message; a parsable level with any other format panics with `Invalid log format: ` and the format, after the parsed level was applied |
| Log.LevelCheckedBeforeFormat | pkg/log/log.go:50-55 | with an unparsable level the outcome does not depend on the format |
| Log.ValidSettingsCanStillPanic | pkg/log/log.go:33-41 | settings that pass Validate (level `info`, format `yaml`) still make SetupLogging panic on the format |
| Log.Logger.SetupLogging | pkg/log/log.go:49-60 | the logger ends configured with the parsed level and formatter, or unchanged on a level panic, or with only the level changed on a format panic |

## Left out

- The server-side filter parser and evaluator are not part of this model. test/list.go only exercises them through HTTP status codes.
- The Ginkgo `Describe`/`Context`/`DescribeTable` construction is left out. So are the five fixed requests registered before the table: the basic-auth request and the four requests with no query or empty queries (test/list.go:277-325), `verifyListOp`, the HTTP requests and the response assertions. They are test-framework and I/O code. The entry loop is modelled as the list of query strings each entry registers.
- `fmt.Sprintf` is not modelled internally. That includes indexed verbs such as `%[2]v` and how `%v` prints a value. It is an abstract `Filler` parameter.
- `json.Marshal` is not modelled internally. It is an abstract `Marshaller` parameter that may fail.
- ListQuery.Substitute: the value domain is JSON-decoded values only. Go's type assertions at test/list.go:395 and :402 match only the exact dynamic types `map[string]interface{}` and `[]interface{}`. A `common.Object`, `[]string` or `map[string]string` field value would reach `Sprintf` unserialised, and a typed-nil slice or map would pass the nil test at :391 and marshal to `null`. `Value` cannot represent these, so the model does not capture them.
- ListQuery.ExpandLabelQuery: for the same reason, a label value list of a Go type other than `[]interface{}` (for example `[]string`), which panics at test/list.go:422, is not representable. The only panic modelled there is a value that is not a list at all.
- HealthFakes.FakeAggregationPolicy.Apply: the fake records the caller's map by reference (fake_aggregation_policy.go:29-31), and `Invocations` shares the recorded inner slices (:80-82). A later mutation of that map or those slices is visible through `ApplyArgsForCall` and `Invocations` in Go. The model records immutable values, so it does not capture this aliasing.
- `common.CopyObject` is not part of this model. Dafny values are immutable, so the copy is the value itself, and the delete acts on that copy only.
- Go's map iteration order is left out. Inputs are sequences in one iteration order, and the proved properties are per-position or counts.
- Permutation invariance is not proved. The model does not prove that reordering the input map reorders the clauses the same way.
- Distinct keys are not required of the input sequences. For a real Go map they always are. With duplicate keys the model simply treats each pair as an entry.
- The `sync.RWMutex` locking in the fake is left out. Concurrent use is not modelled.
- The stub is an opaque pure function. A stub that calls back into the fake is not modelled.
- `health.Health` is not part of this model. It is an opaque record, and the fake never inspects it. Pointer identity is not modelled.
- `logrus.ParseLevel` is an abstract `LevelParser` parameter. `SetLevel` and `SetFormatter` are modelled only as the two fields of `Logger`. The library's default logger state is a constructor argument.
- The text of Go's runtime panic messages for the failed type assertions on `labels` (test/list.go:358, 422) is not modelled. The model uses fixed messages of its own.
- test/broker_test/broker_test.go is left out. It is HTTP integration tests, and its local logic only edits request fixtures: deleting fields, and trimming or appending a trailing `/` on the broker URL.
