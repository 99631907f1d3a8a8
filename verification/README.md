# DataHub ingestion task for Kestra, modelled in Dafny

This project models the two pieces of sequential logic in the Kestra DataHub
plugin:

- **`DataHubLogConsumer`** is the accumulator that receives each line the
  ingestion container prints. A line that contains `INFO` is counted as stdout
  whatever stream it came from. The line is then offered to the plugin's output
  parser. If the parser declares outputs, they are merged into `outputs`, and
  the last write wins. If it declares nothing, the raw line is stored under the
  next numeric key: "1", "2", and so on. Finally exactly one of the two line
  counters is incremented.
- **`Ingestion.run`** runs one DataHub ingestion in a Docker container. In
  order, it:
  1. opens a Docker client;
  2. applies the pull policy (ALWAYS, NEVER or IF_NOT_PRESENT);
  3. stages the recipe as a YAML file, either from a `kestra://` storage URI or
     from an inline map;
  4. creates a container that runs `ingest -c /recipe.yml`, with the recipe
     bound read-only at `/recipe.yml` on the task's network;
  5. starts the container, waits for it and reads its logs;
  6. closes the client and reports `success` exactly when the exit code is 0.

Files:

- `values.dfy` (module `Values`) holds `Option` and `Result`, and the JSON/YAML
  value shape used for output values and recipe documents.
- `java_text.dfy` (module `JavaText`) holds `String.contains`, and
  `String.valueOf` of a non-negative int together with its inverse.
- `log_consumer.dfy` (module `LogConsumer`) holds the consumer. It is a class
  whose `Accept` updates its fields in place. Its specification is `Replay`, a
  fold of one-step `Consume` over the calls made so far. The class invariant
  `Valid()` ties the fields to `Replay` of the ghost history `delivered`.
- `runtime.dfy` (module `Runtime`) holds the outside world that `run` talks
  to: the Docker daemon, the working directory and the internal storage. A
  `Host` object answers from a fixed `World` and appends every command to a
  ghost `trace`.
- `ingestion.dfy` (module `Ingestion`) holds the task, its pure decision rules
  and the `PullImage`, `GetRecipe` and `Run` methods. Each method is specified
  by a function of the task, the run context and the `World`: `PullCommands`,
  `Staged` and `Expected`.

The outside world's answers are inputs of the model. These are the local image
list, the stored files, the temporary path, the container id and the exit
code.

Two behaviours of the code are modelled as written and pointed out by lemmas:

- Under ALWAYS, the code pulls the task's `image` property as configured
  (Ingestion.java:236). The container is created from the rendered name
  (Ingestion.java:129,146). `AlwaysPullsUnrenderedImage` states both facts.
- IF_NOT_PRESENT compares only the first repo tag of each local image
  (Ingestion.java:242). An image whose wanted name is a later tag is pulled
  again; `LaterTagsIgnored` shows this.

Two facts about `run` shape the model:

- `run` returns only `Output.success`, with no exit code, outputs or line
  counts (Ingestion.java:188-197).
- `run` does not attach a `DataHubLogConsumer`; its log callback only forwards
  frames to the logger (Ingestion.java:172-186), so the consumer is modelled
  on its own.

## Model

| member | source | states |
|---|---|---|
| `JavaText.Contains` | src/main/java/io/kestra/plugin/datahub/DataHubLogConsumer.java:23 | `line.contains(sub)` is false when `sub` is longer than the line, true for the empty `sub`, and true when the line ends with `sub`. |
| `JavaText.ContainsExactlyWhenOccurs` | src/main/java/io/kestra/plugin/datahub/DataHubLogConsumer.java:23 | The left-to-right scan modelling `line.contains(sub)` answers true exactly when `sub` occurs contiguously at some index of `line` (case-sensitive). |
| `JavaText.DecimalString` | src/main/java/io/kestra/plugin/datahub/DataHubLogConsumer.java:29 | `String.valueOf(n)` is a non-empty string of decimal digits, with no leading zero unless n is 0. |
| `JavaText.DecimalRoundTrip` | src/main/java/io/kestra/plugin/datahub/DataHubLogConsumer.java:29 | Reading the decimal string of n back gives n. |
| `JavaText.DecimalDistinct` | src/main/java/io/kestra/plugin/datahub/DataHubLogConsumer.java:29 | Distinct counter values give distinct synthetic keys. |
| `LogConsumer.StdErrAfterReclassify` | src/main/java/io/kestra/plugin/datahub/DataHubLogConsumer.java:23-25 | A line is treated as stderr exactly when it was declared stderr and does not contain INFO. |
| `LogConsumer.Consume` | src/main/java/io/kestra/plugin/datahub/DataHubLogConsumer.java:21-39 | One `accept` call raises the sum of the two line counters by exactly one, raises the counter by zero or one, and never removes a key from `outputs`. |
| `LogConsumer.DataHubLogConsumer.constructor` | src/main/java/io/kestra/plugin/datahub/DataHubLogConsumer.java:16-19 | A new consumer has counter 0, no outputs, both line counters 0 and no calls recorded; the invariant holds. |
| `LogConsumer.DataHubLogConsumer.CountsMatchCalls` | src/main/java/io/kestra/plugin/datahub/DataHubLogConsumer.java:21-39 | For any consumer whose invariant holds, stdout plus stderr lines equals the number of `accept` calls made, and the counter equals the number of lines the parser declared nothing for. |
| `LogConsumer.DataHubLogConsumer.Accept` | src/main/java/io/kestra/plugin/datahub/DataHubLogConsumer.java:21-39 | Requires a non-null `isStdErr` unless the line contains INFO. The flag becomes false for an INFO line and is passed to the parser. If the parser gives no entries, the counter goes from n to n+1 and `outputs` gains only `valueOf(n+1)` mapped to the raw line. Otherwise `outputs` is the old map overridden by the parsed entries and the counter is unchanged. Exactly one line counter, chosen by the reclassified flag, grows by 1. The fields still equal `Replay` of all calls. |
| `LogConsumer.DataHubLogConsumer.AcceptAt` | src/main/java/io/kestra/plugin/datahub/DataHubLogConsumer.java:41-44 | The three-argument `accept` has exactly the effect of one `Consume` step, the same as the two-argument one; the instant is ignored. |
| `LogConsumer.ConsumeUnstructured` | src/main/java/io/kestra/plugin/datahub/DataHubLogConsumer.java:28-29 | A line the parser declares nothing for raises the counter by one and adds only the raw line, under the decimal string of the new counter. |
| `LogConsumer.ConsumeStructured` | src/main/java/io/kestra/plugin/datahub/DataHubLogConsumer.java:30-31 | A line with declared outputs leaves the counter unchanged and merges the outputs into the map; a declared key overrides an existing one. |
| `LogConsumer.ConsumeFields` | src/main/java/io/kestra/plugin/datahub/DataHubLogConsumer.java:21-39 | Any state that changes the outputs, the counter and the two line counters as one `accept` call prescribes is exactly the `Consume` step. |
| `LogConsumer.EveryLineCountedOnce` | src/main/java/io/kestra/plugin/datahub/DataHubLogConsumer.java:34-38 | After any sequence of calls, stdout plus stderr lines equals the number of calls. |
| `LogConsumer.StdErrCountsUnmarkedErrorLines` | src/main/java/io/kestra/plugin/datahub/DataHubLogConsumer.java:23-25 | The stderr counter equals the number of lines declared stderr that lack INFO; every other line is counted on stdout. |
| `LogConsumer.InfoLineCountedOnStdout` | src/main/java/io/kestra/plugin/datahub/DataHubLogConsumer.java:23-27 | A stderr line containing INFO leaves the stderr counter unchanged, adds one to stdout and is parsed as stdout. |
| `LogConsumer.CounterMonotone` | src/main/java/io/kestra/plugin/datahub/DataHubLogConsumer.java:18-29 | The counter never decreases as more lines arrive. |
| `LogConsumer.SyntheticKeysStep` | src/main/java/io/kestra/plugin/datahub/DataHubLogConsumer.java:28-31 | One call keeps the synthetic keys numbered 1..counter, each mapped to its raw line, with no larger numeral present. This needs the parser to declare no numeral key for that line. |
| `LogConsumer.CounterCountsUnstructuredLines` | src/main/java/io/kestra/plugin/datahub/DataHubLogConsumer.java:18-29 | Over any run, whatever keys the parser declares, the counter equals the number of lines the parser declared nothing for. |
| `LogConsumer.SyntheticKeysNumberUnstructuredLines` | src/main/java/io/kestra/plugin/datahub/DataHubLogConsumer.java:18-31 | Over a run, the counter equals the number of unstructured lines. The k-th of them sits under key `valueOf(k)`, and no key above the counter exists: no gaps, no repeats. This assumes the parser never declares a numeral key. |
| `LogConsumer.ReplayAppend` | src/main/java/io/kestra/plugin/datahub/DataHubLogConsumer.java:21-39 | One more call applies exactly one `Consume` step to the accumulated state. |
| `LogConsumer.OneStructuredTwoUnstructured` | src/main/java/io/kestra/plugin/datahub/DataHubLogConsumer.java:21-39 | Three lines declared stdout, with or without INFO (unstructured, one declaring a non-numeral key, unstructured), leave exactly three outputs: "1" with the first line, that key, and "2" with the third line. All three are counted on stdout. |
| `Runtime.Host.Connect` | src/main/java/io/kestra/plugin/datahub/Ingestion.java:131-136 | Opening the Docker client is recorded in the trace. |
| `Runtime.Host.ListImages` | src/main/java/io/kestra/plugin/datahub/Ingestion.java:239-240 | Listing images returns the daemon's local image list and is recorded. |
| `Runtime.Host.PullImage` | src/main/java/io/kestra/plugin/datahub/Ingestion.java:236-249 | A pull of the given name is recorded. |
| `Runtime.Host.CreateTempFile` | src/main/java/io/kestra/plugin/datahub/Ingestion.java:202 | Creating the temporary file returns the path of the temp file the working directory hands out and is recorded. |
| `Runtime.Host.ReadStorage` | src/main/java/io/kestra/plugin/datahub/Ingestion.java:210 | Reading a storage URI returns what the stored file reads as (a mapping, YAML's null, or neither), or says there is no such file, and is recorded. |
| `Runtime.Host.WriteRecipe` | src/main/java/io/kestra/plugin/datahub/Ingestion.java:215-229 | Writing the map, or the null map, to the path is recorded. |
| `Runtime.Host.CreateContainer` | src/main/java/io/kestra/plugin/datahub/Ingestion.java:160 | Creating a container with the given parameters returns its id and is recorded. |
| `Runtime.Host.StartContainer` | src/main/java/io/kestra/plugin/datahub/Ingestion.java:164 | Starting the container is recorded. |
| `Runtime.Host.WaitContainer` | src/main/java/io/kestra/plugin/datahub/Ingestion.java:166-170 | Waiting for the container returns its exit code and is recorded. |
| `Runtime.Host.ReadLogs` | src/main/java/io/kestra/plugin/datahub/Ingestion.java:172-186 | Reading the container's logs is recorded. |
| `Runtime.Host.Close` | src/main/java/io/kestra/plugin/datahub/Ingestion.java:135-136 | Closing the client at the end of the try-with-resources block is recorded. |
| `Ingestion.DefaultTaskRun` | src/main/java/io/kestra/plugin/datahub/Ingestion.java:85-123 | A task with only its recipe set (image `acryldata/datahub-ingestion:head`, network `datahub_network`, IF_NOT_PRESENT, no env) first lists the local images, pulls only the rendered default image, and on success creates its container from that image on `datahub_network` with no environment. |
| `Ingestion.FirstTagIs` | src/main/java/io/kestra/plugin/datahub/Ingestion.java:242 | An image matches the wanted name only if its repo tags are non-null and contain that name. |
| `Ingestion.ImageExists` | src/main/java/io/kestra/plugin/datahub/Ingestion.java:239-242 | True exactly when some listed image has non-null, non-empty repo tags whose first element equals the name. |
| `Ingestion.PullCommands` | src/main/java/io/kestra/plugin/datahub/Ingestion.java:231-257 | Only list and pull commands are issued, and a list happens only under IF_NOT_PRESENT. ALWAYS issues exactly one pull, of the unrendered `image`. NEVER issues nothing. IF_NOT_PRESENT lists, then pulls the rendered name exactly when no listed image has it as first tag. |
| `Ingestion.LaterTagsIgnored` | src/main/java/io/kestra/plugin/datahub/Ingestion.java:242 | An image listed with the wanted name only as its second tag is pulled again. |
| `Ingestion.PullImage` | src/main/java/io/kestra/plugin/datahub/Ingestion.java:231-257 | Appends exactly `PullCommands` for the task's policy to the trace. |
| `Ingestion.Staged` | src/main/java/io/kestra/plugin/datahub/Ingestion.java:201-216 | The temp file is always created first. A URI whose scheme is not exactly "kestra" fails right after that: IllegalArgumentException, or NullPointerException for no scheme. Such a failure reads no storage and writes nothing. A recipe that is neither URI nor map fails the cast. A "kestra" URI is read from storage right after the temp file is created. A missing file fails with the storage error, and a stored file that is neither a mapping nor YAML's null fails with the format error. Staging succeeds exactly when the recipe resolves to a map: the inline map unchanged, or what a "kestra" URI's stored file reads as, including the null map for YAML's null. On success, the last command writes that map to the temp file, whose path is returned. |
| `Ingestion.GetRecipe` | src/main/java/io/kestra/plugin/datahub/Ingestion.java:201-229 | Appends exactly the staging commands to the trace and returns the staged path or the failure `Staged` gives. |
| `Ingestion.SplitEnvEntry` | src/main/java/io/kestra/plugin/datahub/Ingestion.java:156 | Splitting a `KEY=VALUE` string at its first '=' gives a key with no '=', and the two parts joined with '=' give back the string. There is no split only when the string has no '='. |
| `Ingestion.EnvEntryRoundTrip` | src/main/java/io/kestra/plugin/datahub/Ingestion.java:156 | For a key without '=', `key + "=" + value` splits back into exactly (key, value). |
| `Ingestion.EnvStrings` | src/main/java/io/kestra/plugin/datahub/Ingestion.java:153-156 | There is one string per rendered entry, in iteration order. Each entry whose key has no '=' is read back from its string exactly. |
| `Ingestion.EnvStringsCanCollide` | src/main/java/io/kestra/plugin/datahub/Ingestion.java:156 | The entries ("A=", "b") and ("A", "=b") render to the same string. |
| `Ingestion.OneEnvStringPerEntry` | src/main/java/io/kestra/plugin/datahub/Ingestion.java:150-157 | For any listing of a map's entries, there are as many env strings as map entries, and every entry's `k=v` string is among them. |
| `Ingestion.EnvOf` | src/main/java/io/kestra/plugin/datahub/Ingestion.java:150-158 | The container gets an environment exactly when the task's `env` is non-null. |
| `Ingestion.OutputFor` | src/main/java/io/kestra/plugin/datahub/Ingestion.java:188-197 | `success` is true exactly when the exit code is 0. |
| `Ingestion.ContainerFor` | src/main/java/io/kestra/plugin/datahub/Ingestion.java:142-148 | The creation request uses the given image, network and env, runs a single command `ingest -c` on the mount path, and has exactly one bind: the recipe file, read-only, at `/recipe.yml`. |
| `Ingestion.ContainerCommands` | src/main/java/io/kestra/plugin/datahub/Ingestion.java:160-186 | The container phase consists only of create, start, wait and read-logs commands. |
| `Ingestion.Expected` | src/main/java/io/kestra/plugin/datahub/Ingestion.java:125-199 | Every run's trace opens the client first and closes it last, and the run throws exactly when staging the recipe failed. |
| `Ingestion.Run` | src/main/java/io/kestra/plugin/datahub/Ingestion.java:125-199 | Appends exactly `Expected`'s trace and returns or throws exactly `Expected`'s result. The trace is: open client, pull decision, stage recipe; then create, start, wait and read logs only if staging succeeded; then close. |
| `Ingestion.ClientReleasedOnEveryPath` | src/main/java/io/kestra/plugin/datahub/Ingestion.java:135-198 | On every path, including recipe failures, the trace starts with opening the client and ends with closing it. Neither occurs anywhere else. |
| `Ingestion.PullDecidedBeforeStaging` | src/main/java/io/kestra/plugin/datahub/Ingestion.java:138-140 | Every list or pull command comes before the recipe's temporary file is created. |
| `Ingestion.OutcomeFollowsExitCode` | src/main/java/io/kestra/plugin/datahub/Ingestion.java:188-197 | `run` returns exactly when staging succeeded, with `success` true iff the exit code is 0; otherwise it throws the staging failure. |
| `Ingestion.RejectedSchemeTouchesNothing` | src/main/java/io/kestra/plugin/datahub/Ingestion.java:205-208 | A URI with a scheme other than exactly "kestra" (e.g. "KESTRA") makes `run` throw IllegalArgumentException. No storage read, recipe write, container creation or start happens. |
| `Ingestion.ContainerEnvHoldsRenderedEntries` | src/main/java/io/kestra/plugin/datahub/Ingestion.java:150-158 | When the env strings are built from an iteration over the rendered env map, the created container has exactly as many env strings as that map has entries, and each entry's `k=v` string is among them. |
| `Ingestion.NullStoredRecipeRuns` | src/main/java/io/kestra/plugin/datahub/Ingestion.java:209-228 | A "kestra" recipe file that reads as YAML's null is not rejected: the null map is written to the temp file, the container is created, and `run` returns the exit-code outcome. |
| `Ingestion.ContainerRunsStagedRecipe` | src/main/java/io/kestra/plugin/datahub/Ingestion.java:140-172 | A successful run writes the resolved recipe to the temp file. Then it creates a container with: the rendered image; the single command `ingest -c /recipe.yml`; that file bound read-only at `/recipe.yml`; the task's network; and the env strings. Then it starts, waits for and reads the logs of the returned container id, and closes the client. |
| `Ingestion.AlwaysPullsUnrenderedImage` | src/main/java/io/kestra/plugin/datahub/Ingestion.java:233-236 | Under ALWAYS, the pull is of the configured `image` while the container is created from `render(image)`. |

## Left out

- Docker itself is not modelled: `DockerService.client`, `findHost`, the `exec()` calls, `awaitCompletion` and `awaitStatusCode`. Each command is a recorded trace event, answered from the `World` inputs. The task's `host` property is carried but not interpreted.
- Docker command failures (a failed pull, a rejected create or start, an unreachable daemon) are not modelled. Every Docker command is taken to succeed; only the recipe failures are modelled as exceptions.
- YAML is not modelled: neither Jackson's `readValue` of a stored recipe nor the block-style SnakeYAML dump. The stored file is an input: a parsed mapping, YAML's null (read as a null map and dumped as `null`), or anything else, which the reader rejects. The write is recorded with the document it dumps, so no file-content round trip is stated.
- Templating is not modelled. `RunContext.render` and `RunContext.renderMap` are function parameters. The rendered env map's iteration order is the parameter `RunContext.renderEnv`; that it lists exactly the entries of `renderMap`'s result is a premise of `ContainerEnvHoldsRenderedEntries`, not a property of the model.
- Logging (`logger.info`/`logger.error`) is not modelled, including the stderr-to-error forwarding in the log callback, which has no effect on the result.
- Internal storage access beyond a lookup by URI is not modelled. A missing file and a failure to create the temporary file are represented only as the `StorageUnavailable` outcome, or not at all for the temporary file.
- `PluginUtilsService.parseOut` is not part of this model. It is an arbitrary function from a line and its stream flag to a map.
- `AbstractLogConsumer` is not part of this model. Its `outputs` map and line counters are taken to start empty and at zero.
- `LogConsumer.DataHubLogConsumer.Accept`: the counters are unbounded naturals. The source's `AtomicInteger` would wrap to a negative value after 2^31-1 increments. The atomicity of `AtomicInteger` is not modelled either, since nothing here is concurrent.
- A null `pullPolicy` and the `default` branch of the policy switch are not modelled. The enum has three values and the switch covers them.
- A null recipe is excluded: the property is `@NotNull`, and the payload of a recipe that is neither a URI nor a map is a non-null, non-map value.
- `IngestionTest.java` is not modelled. It is disabled, needs a live DataHub, and calls an API (`taskRunner`, `ScriptOutput`) that this `Ingestion` does not have.
