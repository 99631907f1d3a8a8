/**
 * What `Ingestion.run` touches outside the task: the Docker daemon reached
 * through the Docker client, the task's working directory and Kestra's
 * internal storage. Each operation only records itself in a trace and
 * answers from a fixed description of that outside world; what Docker,
 * the file system and the storage actually do is not part of this model.
 */
module Runtime {
  import opened Values

  /** An entry of `listImages`: its `repoTags` array may be null. */
  datatype Image = Image(repoTags: Option<seq<string>>)

  /** A `java.net.URI`, reduced to what the task reads: its scheme (null for a relative URI). */
  datatype Uri = Uri(scheme: Option<string>, schemeSpecificPart: string)

  datatype AccessMode = ReadOnly | ReadWrite

  /** A bind mount from a host path to a path inside the container. */
  datatype Bind = Bind(hostPath: string, volume: string, mode: AccessMode)

  /** The parameters of a container creation request. */
  datatype ContainerSpec = ContainerSpec(
    image: string,
    cmd: seq<string>,
    binds: seq<Bind>,
    networkMode: string,
    env: Option<seq<string>>)

  /** One command issued to the outside world, in the order issued. */
  datatype Event =
    | Connected
    | ImagesListed
    | ImagePulled(name: string)
    | TempFileCreated(path: string)
    | StorageRead(uri: Uri)
    | RecipeWritten(path: string, doc: Option<Document>)
    | ContainerCreated(spec: ContainerSpec)
    | ContainerStarted(id: string)
    | ContainerAwaited(id: string)
    | LogsRead(id: string)
    | Closed

  /**
   * What reading a stored file as a YAML `Map` gives: a mapping, YAML's
   * null (which the reader returns as a null map), or anything else, which
   * the reader rejects.
   */
  datatype Stored = Mapping(doc: Document) | NullDocument | NotAMapping

  /**
   * The answers the outside world gives during one run: the local image
   * list, the stored files (absent: the storage has no such file), the
   * temporary file the working directory hands out, the id of the created
   * container and its exit code.
   */
  datatype World = World(
    images: seq<Image>,
    storage: map<Uri, Stored>,
    tempFile: string,
    containerId: string,
    exitCode: int)

  /** The outside world during one run, with the trace of commands issued to it. */
  class Host {
    const world: World
    ghost var trace: seq<Event>

    constructor (world: World)
      ensures this.world == world && trace == []
    {
      this.world := world;
      trace := [];
    }

    /** `DockerService.client`: opens the connection to the daemon. */
    method Connect()
      modifies this
      ensures trace == old(trace) + [Connected]
    {
      trace := trace + [Connected];
    }

    /** `listImagesCmd().exec()`. */
    method ListImages() returns (images: seq<Image>)
      modifies this
      ensures images == world.images
      ensures trace == old(trace) + [ImagesListed]
    {
      images := world.images;
      trace := trace + [ImagesListed];
    }

    /** `pullImageCmd(name)` run to completion. */
    method PullImage(name: string)
      modifies this
      ensures trace == old(trace) + [ImagePulled(name)]
    {
      trace := trace + [ImagePulled(name)];
    }

    /** `runContext.workingDir().createTempFile(".yml")`. */
    method CreateTempFile() returns (path: string)
      modifies this
      ensures path == world.tempFile
      ensures trace == old(trace) + [TempFileCreated(path)]
    {
      path := world.tempFile;
      trace := trace + [TempFileCreated(path)];
    }

    /** `runContext.storage().getFile(uri)` read as YAML; absent when there is no such file. */
    method ReadStorage(uri: Uri) returns (stored: Option<Stored>)
      modifies this
      ensures stored == if uri in world.storage then Some(world.storage[uri]) else None
      ensures trace == old(trace) + [StorageRead(uri)]
    {
      stored := if uri in world.storage then Some(world.storage[uri]) else None;
      trace := trace + [StorageRead(uri)];
    }

    /** Dumps `doc` to the file at `path` as block-style YAML; `None` is the null map, dumped as `null`. */
    method WriteRecipe(path: string, doc: Option<Document>)
      modifies this
      ensures trace == old(trace) + [RecipeWritten(path, doc)]
    {
      trace := trace + [RecipeWritten(path, doc)];
    }

    /** `createContainerCmd(...).exec()`: yields the new container's id. */
    method CreateContainer(spec: ContainerSpec) returns (id: string)
      modifies this
      ensures id == world.containerId
      ensures trace == old(trace) + [ContainerCreated(spec)]
    {
      id := world.containerId;
      trace := trace + [ContainerCreated(spec)];
    }

    /** `startContainerCmd(id).exec()`. */
    method StartContainer(id: string)
      modifies this
      ensures trace == old(trace) + [ContainerStarted(id)]
    {
      trace := trace + [ContainerStarted(id)];
    }

    /** `waitContainerCmd(id)` awaited to completion: the container's exit code. */
    method WaitContainer(id: string) returns (exitCode: int)
      modifies this
      ensures exitCode == world.exitCode
      ensures trace == old(trace) + [ContainerAwaited(id)]
    {
      exitCode := world.exitCode;
      trace := trace + [ContainerAwaited(id)];
    }

    /** `logContainerCmd(id)` with stdout and stderr, read to the end of the stream. */
    method ReadLogs(id: string)
      modifies this
      ensures trace == old(trace) + [LogsRead(id)]
    {
      trace := trace + [LogsRead(id)];
    }

    /** Closes the Docker client at the end of the try-with-resources block. */
    method Close()
      modifies this
      ensures trace == old(trace) + [Closed]
    {
      trace := trace + [Closed];
    }
  }
}
