/**
 * The `Ingestion` task: it decides whether to pull the DataHub ingestion
 * image, stages the recipe as a YAML file, creates a container that runs
 * `ingest` on it, starts it, waits for it, reads its logs and reports
 * whether the container exited with code 0.
 */
module Ingestion {
  import opened Values
  import opened Runtime

  datatype PullPolicy = Always | Never | IfNotPresent

  /** A non-null object that is not a `Map`: what the cast to `Map` rejects. */
  type NonMapValue = v: Value | !v.Object? && !v.Null? witness Bool(false)

  /**
   * The task's `Object recipe` (never null): a storage URI, a map, or any
   * other object, which the cast to `Map` rejects.
   */
  datatype Recipe = UriRecipe(uri: Uri) | MapRecipe(doc: Document) | OtherRecipe(value: NonMapValue)

  /** The task's properties, as configured (before rendering). */
  datatype Task = Task(
    image: string,
    network: string,
    host: Option<string>,
    pullPolicy: PullPolicy,
    recipe: Recipe,
    env: Option<map<string, string>>)

  /**
   * The run context, reduced to its templating: `render` for a string,
   * `renderMap` for the environment map, and `renderEnv`, the entries of
   * the rendered map in its iteration order.
   */
  datatype RunContext = RunContext(
    render: string -> string,
    renderMap: map<string, string> -> map<string, string>,
    renderEnv: map<string, string> -> seq<(string, string)>)

  /** The exceptions the task throws before a container is created. */
  datatype Failure =
    | SchemeMissing           // NullPointerException: a URI without a scheme
    | InvalidRecipeReference  // IllegalArgumentException: a URI whose scheme is not "kestra"
    | NotAMap                 // ClassCastException: a recipe that is neither a URI nor a Map
    | StorageUnavailable      // the storage has no file at the URI
    | InvalidRecipeFormat     // the stored file is neither a YAML mapping nor YAML's null

  datatype Output = Output(success: bool)

  const DefaultImage := "acryldata/datahub-ingestion:head"
  const DefaultNetwork := "datahub_network"
  const StorageScheme := "kestra"
  const RecipeMount := "/recipe.yml"
  const IngestCommand := "ingest -c /recipe.yml"

  /** A task built with only its recipe set: every other property takes its default. */
  function Defaults(recipe: Recipe): Task
  {
    Task(DefaultImage, DefaultNetwork, None, IfNotPresent, recipe, None)
  }

  // ---------------------------------------------------------------------
  // Pull policy
  // ---------------------------------------------------------------------

  /** Only the first repo tag of a listed image is compared; a null or empty tag array never matches. */
  predicate FirstTagIs(img: Image, name: string)
    ensures FirstTagIs(img, name) ==> img.repoTags.Some? && name in img.repoTags.value
  {
    img.repoTags.Some? && |img.repoTags.value| > 0 && img.repoTags.value[0] == name
  }

  /** The `anyMatch` over the listed images. */
  function ImageExists(images: seq<Image>, name: string): (b: bool)
    ensures b <==> exists i :: 0 <= i < |images| && FirstTagIs(images[i], name)
  {
    if |images| == 0 then false
    else
      assert forall i :: 0 < i < |images| ==> images[1..][i - 1] == images[i];
      FirstTagIs(images[0], name) || ImageExists(images[1..], name)
  }

  /**
   * The Docker commands `pullImage` issues. ALWAYS pulls the task's `image`
   * property as configured; IF_NOT_PRESENT compares and pulls the rendered
   * `dockerImage`.
   */
  function PullCommands(policy: PullPolicy, image: string, dockerImage: string, images: seq<Image>): (cmds: seq<Event>)
    ensures forall e :: e in cmds ==> e.ImagesListed? || e.ImagePulled?
    ensures ImagesListed in cmds <==> policy == IfNotPresent
    ensures policy == Always ==> cmds == [ImagePulled(image)]
    ensures policy == Never ==> cmds == []
    ensures policy == IfNotPresent ==>
      cmds == [ImagesListed] + (if exists i :: 0 <= i < |images| && FirstTagIs(images[i], dockerImage) then [] else [ImagePulled(dockerImage)])
  {
    match policy
    case Always => [ImagePulled(image)]
    case IfNotPresent => [ImagesListed] + (if ImageExists(images, dockerImage) then [] else [ImagePulled(dockerImage)])
    case Never => []
  }

  /** An image listed locally under the wanted name as a later tag is pulled again. */
  lemma LaterTagsIgnored(image: string, dockerImage: string, other: string)
    requires other != dockerImage
    ensures PullCommands(IfNotPresent, image, dockerImage, [Image(Some([other, dockerImage]))])
            == [ImagesListed, ImagePulled(dockerImage)]
  {
    assert !FirstTagIs(Image(Some([other, dockerImage])), dockerImage);
  }

  /** `pullImage`: applies the task's pull policy through the Docker client. */
  method PullImage(task: Task, host: Host, dockerImage: string)
    modifies host
    ensures host.trace == old(host.trace) + PullCommands(task.pullPolicy, task.image, dockerImage, host.world.images)
  {
    match task.pullPolicy {
      case Always =>
        host.PullImage(task.image);
      case IfNotPresent =>
        var images := host.ListImages();
        var imageExists := ImageExists(images, dockerImage);
        if !imageExists {
          host.PullImage(dockerImage);
        }
      case Never =>
    }
  }

  // ---------------------------------------------------------------------
  // Recipe staging
  // ---------------------------------------------------------------------

  /** The commands `getRecipe` issues and the path of the staged recipe, or why it failed. */
  datatype Staging = Staging(events: seq<Event>, path: Result<string, Failure>)

  /** The map a stored file is read as: its mapping, or the null map (`None`). */
  ghost predicate ReadsAs(stored: Stored, doc: Option<Document>)
  {
    || (stored.Mapping? && doc == Some(stored.doc))
    || (stored.NullDocument? && doc == None)
  }

  /** The map the recipe resolves to when staging succeeds; `None` is a null map. */
  ghost predicate Resolves(recipe: Recipe, world: World, doc: Option<Document>)
  {
    || (recipe.MapRecipe? && doc == Some(recipe.doc))
    || (recipe.UriRecipe? && recipe.uri.scheme == Some(StorageScheme)
        && recipe.uri in world.storage && ReadsAs(world.storage[recipe.uri], doc))
  }

  /**
   * `getRecipe`: the temporary file is created first; a URI must have the
   * scheme "kestra" (compared case-sensitively) before the storage is read;
   * a map is written as it is.
   */
  function Staged(recipe: Recipe, world: World): (st: Staging)
    ensures |st.events| >= 1 && st.events[0] == TempFileCreated(world.tempFile)
    ensures forall e :: e in st.events ==> e.TempFileCreated? || e.StorageRead? || e.RecipeWritten?
    ensures recipe.UriRecipe? && recipe.uri.scheme != Some(StorageScheme) ==>
      |st.events| == 1 && st.path.Failure?
      && st.path.error == (if recipe.uri.scheme.None? then SchemeMissing else InvalidRecipeReference)
    ensures recipe.OtherRecipe? ==> st == Staging([TempFileCreated(world.tempFile)], Failure(NotAMap))
    ensures recipe.UriRecipe? && recipe.uri.scheme == Some(StorageScheme) ==>
      && |st.events| >= 2 && st.events[1] == StorageRead(recipe.uri)
      && (recipe.uri !in world.storage ==> st.path == Failure(StorageUnavailable))
      && (recipe.uri in world.storage && world.storage[recipe.uri].NotAMapping? ==> st.path == Failure(InvalidRecipeFormat))
    ensures st.path.Success? <==> exists doc :: Resolves(recipe, world, doc)
    ensures st.path.Success? ==>
      && st.path.value == world.tempFile
      && st.events[|st.events| - 1].RecipeWritten?
      && st.events[|st.events| - 1].path == world.tempFile
      && Resolves(recipe, world, st.events[|st.events| - 1].doc)
    ensures st.path.Failure? ==> forall e :: e in st.events ==> !e.RecipeWritten?
  {
    var created := [TempFileCreated(world.tempFile)];
    match recipe
    case UriRecipe(from) =>
      if from.scheme.None? then Staging(created, Failure(SchemeMissing))
      else if from.scheme.value != StorageScheme then Staging(created, Failure(InvalidRecipeReference))
      else if from !in world.storage then Staging(created + [StorageRead(from)], Failure(StorageUnavailable))
      else if world.storage[from].NotAMapping? then Staging(created + [StorageRead(from)], Failure(InvalidRecipeFormat))
      else
        var yaml := if world.storage[from].Mapping? then Some(world.storage[from].doc) else None;
        assert Resolves(recipe, world, yaml);
        Staging(created + [StorageRead(from), RecipeWritten(world.tempFile, yaml)], Success(world.tempFile))
    case MapRecipe(doc) =>
      assert Resolves(recipe, world, Some(doc));
      Staging(created + [RecipeWritten(world.tempFile, Some(doc))], Success(world.tempFile))
    case OtherRecipe(_) =>
      Staging(created, Failure(NotAMap))
  }

  /** `getRecipe` followed by `store`. */
  method GetRecipe(task: Task, host: Host) returns (path: Result<string, Failure>)
    modifies host
    ensures host.trace == old(host.trace) + Staged(task.recipe, host.world).events
    ensures path == Staged(task.recipe, host.world).path
  {
    var tempFile := host.CreateTempFile();
    var yaml: Option<Document>;
    match task.recipe {
      case UriRecipe(from) =>
        if from.scheme.None? {
          return Failure(SchemeMissing);
        }
        if from.scheme.value != StorageScheme {
          return Failure(InvalidRecipeReference);
        }
        var stored := host.ReadStorage(from);
        if stored.None? {
          return Failure(StorageUnavailable);
        }
        match stored.value {
          case NotAMapping =>
            return Failure(InvalidRecipeFormat);
          case NullDocument =>
            yaml := None;
          case Mapping(doc) =>
            yaml := Some(doc);
        }
      case MapRecipe(doc) =>
        yaml := Some(doc);
      case OtherRecipe(_) =>
        return Failure(NotAMap);
    }
    host.WriteRecipe(tempFile, yaml);
    path := Success(tempFile);
  }

  // ---------------------------------------------------------------------
  // Environment
  // ---------------------------------------------------------------------

  /**
   * How a `KEY=VALUE` string is read back: split at the first '='; `None`
   * when there is no '='.
   */
  function SplitEnvEntry(s: string): (r: Option<(string, string)>)
    ensures r.Some? ==> '=' !in r.value.0 && r.value.0 + "=" + r.value.1 == s
    ensures r.None? ==> '=' !in s
  {
    if |s| == 0 then None
    else if s[0] == '=' then
      assert s == "" + "=" + s[1..];
      Some(("", s[1..]))
    else
      match SplitEnvEntry(s[1..])
      case None => None
      case Some(kv) =>
        assert s == [s[0]] + kv.0 + "=" + kv.1;
        Some(([s[0]] + kv.0, kv.1))
  }

  /** An entry whose key has no '=' is read back from its string exactly. */
  lemma {:induction false} EnvEntryRoundTrip(key: string, value: string)
    requires '=' !in key
    ensures SplitEnvEntry(key + "=" + value) == Some((key, value))
  {
    var s := key + "=" + value;
    if |key| > 0 {
      assert s[0] == key[0];
      assert s[1..] == key[1..] + "=" + value;
      EnvEntryRoundTrip(key[1..], value);
      assert [key[0]] + key[1..] == key;
    }
  }

  /** The `e.getKey() + "=" + e.getValue()` mapping over the rendered entries. */
  function EnvStrings(entries: seq<(string, string)>): (r: seq<string>)
    ensures |r| == |entries|
    ensures forall i :: 0 <= i < |entries| && '=' !in entries[i].0 ==> SplitEnvEntry(r[i]) == Some(entries[i])
  {
    EnvStringsRoundTrip(entries);
    seq(|entries|, i requires 0 <= i < |entries| => entries[i].0 + "=" + entries[i].1)
  }

  lemma EnvStringsRoundTrip(entries: seq<(string, string)>)
    ensures forall i :: 0 <= i < |entries| && '=' !in entries[i].0 ==>
      SplitEnvEntry(entries[i].0 + "=" + entries[i].1) == Some(entries[i])
  {
    forall i | 0 <= i < |entries| && '=' !in entries[i].0 {
      EnvEntryRoundTrip(entries[i].0, entries[i].1);
    }
  }

  /** Two different entries can render to the same string when a key holds '='. */
  lemma EnvStringsCanCollide()
    ensures EnvStrings([("A=", "b")]) == EnvStrings([("A", "=b")])
  {
    assert "A=" + "=" + "b" == "A" + "=" + "=b";
  }

  /** `entries` lists each entry of `m` once: what iterating over `entrySet()` yields. */
  ghost predicate Enumerates(entries: seq<(string, string)>, m: map<string, string>)
  {
    && (forall i, j :: 0 <= i < j < |entries| ==> entries[i].0 != entries[j].0)
    && (forall i :: 0 <= i < |entries| ==> entries[i].0 in m && m[entries[i].0] == entries[i].1)
    && (forall k :: k in m ==> exists i :: 0 <= i < |entries| && entries[i].0 == k)
  }

  function KeysOf(entries: seq<(string, string)>): set<string>
  {
    set i | 0 <= i < |entries| :: entries[i].0
  }

  lemma {:induction false} DistinctKeysCount(entries: seq<(string, string)>)
    requires forall i, j :: 0 <= i < j < |entries| ==> entries[i].0 != entries[j].0
    ensures |KeysOf(entries)| == |entries|
  {
    if |entries| > 0 {
      var init := entries[..|entries| - 1];
      var last := entries[|entries| - 1];
      DistinctKeysCount(init);
      assert KeysOf(entries) == KeysOf(init) + {last.0} by {
        forall k | k in KeysOf(entries) ensures k in KeysOf(init) + {last.0} {
          var i :| 0 <= i < |entries| && entries[i].0 == k;
          if i < |entries| - 1 {
            assert init[i].0 == k;
          }
        }
        forall k | k in KeysOf(init) ensures k in KeysOf(entries) {
          var i :| 0 <= i < |init| && init[i].0 == k;
          assert entries[i].0 == k;
        }
      }
      assert last.0 !in KeysOf(init);
    }
  }

  /**
   * The environment of the container holds one `KEY=VALUE` string per entry
   * of the rendered map, and every entry's string is there.
   */
  lemma OneEnvStringPerEntry(m: map<string, string>, entries: seq<(string, string)>)
    requires Enumerates(entries, m)
    ensures |EnvStrings(entries)| == |m|
    ensures forall k :: k in m ==> k + "=" + m[k] in EnvStrings(entries)
  {
    DistinctKeysCount(entries);
    assert KeysOf(entries) == m.Keys;
    var r := EnvStrings(entries);
    forall k | k in m ensures k + "=" + m[k] in r {
      var i :| 0 <= i < |entries| && entries[i].0 == k;
      assert r[i] == k + "=" + m[k];
    }
  }

  // ---------------------------------------------------------------------
  // The container and the outcome
  // ---------------------------------------------------------------------

  /** The environment strings, set only when the task has an `env` map. */
  function EnvOf(task: Task, ctx: RunContext): (env: Option<seq<string>>)
    ensures env.Some? <==> task.env.Some?
  {
    if task.env.Some? then Some(EnvStrings(ctx.renderEnv(task.env.value))) else None
  }

  /** The container creation request: the fixed command, a read-only bind of the recipe, the network. */
  function ContainerFor(dockerImage: string, recipePath: string, network: string, env: Option<seq<string>>): (spec: ContainerSpec)
    ensures spec.image == dockerImage && spec.networkMode == network && spec.env == env
    ensures |spec.cmd| == 1 && spec.cmd[0] == "ingest -c " + RecipeMount
    ensures forall b :: b in spec.binds ==> b.mode == ReadOnly
    ensures forall b :: b in spec.binds ==> b.hostPath == recipePath && b.volume == RecipeMount
    ensures |spec.binds| == 1
  {
    ContainerSpec(dockerImage, [IngestCommand], [Bind(recipePath, RecipeMount, ReadOnly)], network, env)
  }

  /** `Output.success` is true exactly when the container exited with code 0. */
  function OutputFor(exitCode: int): (o: Output)
    ensures o.success <==> exitCode == 0
  {
    if exitCode != 0 then Output(false) else Output(true)
  }

  /** The commands one run issues, in order, and what it returns or throws. */
  datatype Execution = Execution(trace: seq<Event>, result: Result<Output, Failure>)

  /** The container commands of a run whose recipe was staged: create, start, wait, read the logs. */
  function ContainerCommands(task: Task, ctx: RunContext, world: World, st: Staging): (cmds: seq<Event>)
    ensures forall e :: e in cmds ==> e.ContainerCreated? || e.ContainerStarted? || e.ContainerAwaited? || e.LogsRead?
  {
    if st.path.Failure? then []
    else
      var spec := ContainerFor(ctx.render(task.image), st.path.value, task.network, EnvOf(task, ctx));
      var id := world.containerId;
      [ContainerCreated(spec), ContainerStarted(id), ContainerAwaited(id), LogsRead(id)]
  }

  /**
   * What `run` does, as a function of the task, its context and the outside
   * world: open the client, pull, stage the recipe, run the container if the
   * recipe was staged, close the client; then return the outcome or rethrow.
   */
  function Expected(task: Task, ctx: RunContext, world: World): (x: Execution)
    ensures |x.trace| >= 3 && x.trace[0] == Connected && x.trace[|x.trace| - 1] == Closed
    ensures x.result.Failure? <==> Staged(task.recipe, world).path.Failure?
  {
    var pull := PullCommands(task.pullPolicy, task.image, ctx.render(task.image), world.images);
    var st := Staged(task.recipe, world);
    Execution(
      [Connected] + pull + st.events + ContainerCommands(task, ctx, world, st) + [Closed],
      if st.path.Failure? then Failure(st.path.error) else Success(OutputFor(world.exitCode)))
  }

  /** `run`. */
  method Run(task: Task, ctx: RunContext, host: Host) returns (r: Result<Output, Failure>)
    modifies host
    ensures host.trace == old(host.trace) + Expected(task, ctx, host.world).trace
    ensures r == Expected(task, ctx, host.world).result
  {
    ghost var before := host.trace;
    ghost var pull := PullCommands(task.pullPolicy, task.image, ctx.render(task.image), host.world.images);
    ghost var st := Staged(task.recipe, host.world);

    var dockerImage := ctx.render(task.image);
    host.Connect();

    PullImage(task, host, dockerImage);
    AppendAssoc(before, [Connected], pull);

    var recipeFilePath := GetRecipe(task, host);
    AppendAssoc(before, [Connected] + pull, st.events);
    ghost var staged := [Connected] + pull + st.events;
    if recipeFilePath.Failure? {
      host.Close();
      AppendAssoc(before, staged, [Closed]);
      assert staged + [] == staged;
      return Failure(recipeFilePath.error);
    }

    var env := EnvOf(task, ctx);
    var spec := ContainerFor(dockerImage, recipeFilePath.value, task.network, env);
    var container := host.CreateContainer(spec);
    host.StartContainer(container);
    var exitCode := host.WaitContainer(container);
    host.ReadLogs(container);
    ghost var cc := ContainerCommands(task, ctx, host.world, st);
    assert host.trace == (before + staged) + cc;
    host.Close();
    AppendAssoc(before, staged, cc);
    AppendAssoc(before, staged + cc, [Closed]);
    r := Success(OutputFor(exitCode));
  }

  /** Concatenation of traces is associative. */
  lemma AppendAssoc(a: seq<Event>, b: seq<Event>, c: seq<Event>)
    ensures (a + b) + c == a + (b + c)
  {
  }

  // ---------------------------------------------------------------------
  // Properties of a run
  // ---------------------------------------------------------------------

  /** A trace that opens the client first and closes it last, with neither in between. */
  lemma Bracketed(middle: seq<Event>)
    requires forall e :: e in middle ==> e != Connected && e != Closed
    ensures var t := [Connected] + middle + [Closed];
      && t[0] == Connected && t[|t| - 1] == Closed
      && forall i :: 0 < i < |t| - 1 ==> t[i] != Connected && t[i] != Closed
  {
    var t := [Connected] + middle + [Closed];
    forall i | 0 < i < |t| - 1 ensures t[i] != Connected && t[i] != Closed {
      assert t[i] == middle[i - 1] && middle[i - 1] in middle;
    }
  }

  /** The Docker client is opened first and closed last, once each, on every path. */
  lemma ClientReleasedOnEveryPath(task: Task, ctx: RunContext, world: World)
    ensures var t := Expected(task, ctx, world).trace;
      && |t| >= 2 && t[0] == Connected && t[|t| - 1] == Closed
      && forall i :: 0 < i < |t| - 1 ==> t[i] != Connected && t[i] != Closed
  {
    var pull := PullCommands(task.pullPolicy, task.image, ctx.render(task.image), world.images);
    var st := Staged(task.recipe, world);
    var cc := ContainerCommands(task, ctx, world, st);
    var middle := pull + st.events + cc;
    assert forall e :: e in middle ==> e in pull || e in st.events || e in cc;
    Bracketed(middle);
    AppendAssoc([Connected], pull, st.events);
    AppendAssoc([Connected], pull + st.events, cc);
  }

  /** Image commands, all at the front of a trace, come before anything staged after them. */
  lemma ImageCommandsFirst(pull: seq<Event>, rest: seq<Event>)
    requires forall e :: e in pull ==> e.ImagesListed? || e.ImagePulled?
    requires forall e :: e in rest ==> !e.ImagesListed? && !e.ImagePulled?
    ensures var t := [Connected] + pull + rest;
      forall i, j :: 0 <= i < |t| && 0 <= j < |t| && (t[i].ImagesListed? || t[i].ImagePulled?) && t[j].TempFileCreated? ==> i < j
  {
    var t := [Connected] + pull + rest;
    var k := 1 + |pull|;
    assert forall i :: k <= i < |t| ==> !t[i].ImagesListed? && !t[i].ImagePulled? by {
      forall i | k <= i < |t| ensures !t[i].ImagesListed? && !t[i].ImagePulled? {
        assert t[i] == rest[i - k] && rest[i - k] in rest;
      }
    }
    assert forall j :: 0 <= j < k ==> !t[j].TempFileCreated? by {
      forall j | 0 <= j < k ensures !t[j].TempFileCreated? {
        if j > 0 {
          assert t[j] == pull[j - 1] && pull[j - 1] in pull;
        }
      }
    }
  }

  /** Every image command is issued before the recipe's temporary file is created. */
  lemma PullDecidedBeforeStaging(task: Task, ctx: RunContext, world: World)
    ensures var t := Expected(task, ctx, world).trace;
      forall i, j :: 0 <= i < |t| && 0 <= j < |t| && (t[i].ImagesListed? || t[i].ImagePulled?) && t[j].TempFileCreated? ==> i < j
  {
    var pull := PullCommands(task.pullPolicy, task.image, ctx.render(task.image), world.images);
    var st := Staged(task.recipe, world);
    var cc := ContainerCommands(task, ctx, world, st);
    var rest := st.events + cc + [Closed];
    assert forall e :: e in rest ==> e in st.events || e in cc || e == Closed;
    ImageCommandsFirst(pull, rest);
    assert Expected(task, ctx, world).trace == [Connected] + pull + rest;
  }

  /** Exit code 0 is success, any other code failure; a staging failure is thrown, not returned. */
  lemma OutcomeFollowsExitCode(task: Task, ctx: RunContext, world: World)
    ensures var x := Expected(task, ctx, world); var st := Staged(task.recipe, world);
      && (x.result.Success? <==> st.path.Success?)
      && (x.result.Success? ==> (x.result.value.success <==> world.exitCode == 0))
      && (x.result.Failure? ==> x.result.error == st.path.error)
  {
  }

  /**
   * A URI recipe whose scheme is not exactly "kestra" is rejected before the
   * storage is read, the recipe written or any container created.
   */
  lemma RejectedSchemeTouchesNothing(task: Task, ctx: RunContext, world: World)
    requires task.recipe.UriRecipe? && task.recipe.uri.scheme.Some?
    requires task.recipe.uri.scheme.value != StorageScheme
    ensures var x := Expected(task, ctx, world);
      && x.result == Failure(InvalidRecipeReference)
      && forall e :: e in x.trace ==> !e.StorageRead? && !e.RecipeWritten? && !e.ContainerCreated? && !e.ContainerStarted?
  {
  }

  /**
   * A run that reaches the container writes the recipe to the temporary
   * file, then creates a container from the rendered image that runs the
   * fixed command with that file bound read-only at /recipe.yml on the
   * task's network, then starts it, waits for it and reads its logs.
   */
  lemma ContainerRunsStagedRecipe(task: Task, ctx: RunContext, world: World)
    requires Expected(task, ctx, world).result.Success?
    ensures var t := Expected(task, ctx, world).trace; var n := |t|;
      && n >= 8
      && t[n - 6].RecipeWritten? && t[n - 6].path == world.tempFile
      && (exists doc :: Resolves(task.recipe, world, doc) && t[n - 6].doc == doc)
      && t[n - 5] == ContainerCreated(ContainerSpec(
           ctx.render(task.image), [IngestCommand], [Bind(world.tempFile, RecipeMount, ReadOnly)],
           task.network, EnvOf(task, ctx)))
      && t[n - 4..] == [ContainerStarted(world.containerId), ContainerAwaited(world.containerId), LogsRead(world.containerId), Closed]
  {
    var pull := PullCommands(task.pullPolicy, task.image, ctx.render(task.image), world.images);
    var st := Staged(task.recipe, world);
    var cc := ContainerCommands(task, ctx, world, st);
    var t := Expected(task, ctx, world).trace;
    assert st.path.Success?;
    assert |st.events| >= 2 by {
      assert st.events[|st.events| - 1].RecipeWritten?;
    }
    assert t == [Connected] + pull + st.events + cc + [Closed];
    assert t[|t| - 6] == st.events[|st.events| - 1];
  }

  /**
   * A stored recipe that reads as YAML's null is staged, not rejected: the
   * null map is dumped to the temporary file and the container runs on it.
   */
  lemma NullStoredRecipeRuns(task: Task, ctx: RunContext, world: World)
    requires task.recipe.UriRecipe? && task.recipe.uri.scheme == Some(StorageScheme)
    requires task.recipe.uri in world.storage && world.storage[task.recipe.uri] == NullDocument
    ensures var x := Expected(task, ctx, world); var t := x.trace;
      && x.result == Success(OutputFor(world.exitCode))
      && |t| >= 8
      && t[|t| - 6] == RecipeWritten(world.tempFile, None)
      && t[|t| - 5].ContainerCreated?
  {
    assert Resolves(task.recipe, world, None);
    ContainerRunsStagedRecipe(task, ctx, world);
  }

  /**
   * The container's environment holds one `KEY=VALUE` string per entry of
   * the rendered env map, and every entry's string is there, when the
   * entries are those of the rendered map.
   */
  lemma ContainerEnvHoldsRenderedEntries(task: Task, ctx: RunContext, world: World)
    requires task.env.Some?
    requires Enumerates(ctx.renderEnv(task.env.value), ctx.renderMap(task.env.value))
    requires Expected(task, ctx, world).result.Success?
    ensures var t := Expected(task, ctx, world).trace; var m := ctx.renderMap(task.env.value);
      && |t| >= 8
      && t[|t| - 5].ContainerCreated?
      && t[|t| - 5].spec.env.Some?
      && |t[|t| - 5].spec.env.value| == |m|
      && forall k :: k in m ==> k + "=" + m[k] in t[|t| - 5].spec.env.value
  {
    ContainerRunsStagedRecipe(task, ctx, world);
    OneEnvStringPerEntry(ctx.renderMap(task.env.value), ctx.renderEnv(task.env.value));
  }

  /**
   * A task with only its recipe set lists the local images first and pulls,
   * if at all, the rendered default image; its container joins the default
   * network with no environment.
   */
  lemma DefaultTaskRun(recipe: Recipe, ctx: RunContext, world: World)
    ensures var t := Expected(Defaults(recipe), ctx, world).trace;
      && t[1] == ImagesListed
      && forall e :: e in t && e.ImagePulled? ==> e.name == ctx.render(DefaultImage)
    ensures var t := Expected(Defaults(recipe), ctx, world).trace;
      Expected(Defaults(recipe), ctx, world).result.Success? ==>
        && t[|t| - 5].ContainerCreated?
        && t[|t| - 5].spec.image == ctx.render(DefaultImage)
        && t[|t| - 5].spec.networkMode == DefaultNetwork
        && t[|t| - 5].spec.env == None
  {
    var task := Defaults(recipe);
    var pull := PullCommands(task.pullPolicy, task.image, ctx.render(task.image), world.images);
    var st := Staged(task.recipe, world);
    var cc := ContainerCommands(task, ctx, world, st);
    var rest := st.events + cc + [Closed];
    assert forall e :: e in rest ==> e in st.events || e in cc || e == Closed;
    assert Expected(task, ctx, world).trace == [Connected] + pull + rest;
    OnlyPullsFrom(pull, rest, ctx.render(DefaultImage));
    if Expected(task, ctx, world).result.Success? {
      ContainerRunsStagedRecipe(task, ctx, world);
    }
  }

  /** Pulls that all name `name`, followed by commands that pull nothing, pull only `name`. */
  lemma OnlyPullsFrom(pull: seq<Event>, rest: seq<Event>, name: string)
    requires forall e :: e in pull && e.ImagePulled? ==> e.name == name
    requires forall e :: e in rest ==> !e.ImagePulled?
    ensures forall e :: e in [Connected] + pull + rest && e.ImagePulled? ==> e.name == name
  {
  }

  /**
   * Under ALWAYS the pulled image is the `image` property as configured,
   * while the container is created from its rendered form: when rendering
   * changes the name, the image pulled is not the one run.
   */
  lemma AlwaysPullsUnrenderedImage(task: Task, ctx: RunContext, world: World)
    requires task.pullPolicy == Always
    requires Expected(task, ctx, world).result.Success?
    ensures var t := Expected(task, ctx, world).trace;
      && t[1] == ImagePulled(task.image)
      && t[|t| - 5].ContainerCreated? && t[|t| - 5].spec.image == ctx.render(task.image)
  {
    ContainerRunsStagedRecipe(task, ctx, world);
  }
}
