/**
 * The collaborators the resume service talks to, reduced to what the
 * service observes of them: the cloud disk and the local disk as maps from
 * paths to bytes, the external process and the Gemini endpoint as fixed
 * answer functions (oracles) plus a log of the calls made to them. A
 * process run is logged with the local files it could read.
 */
module Platform {
  import opened Php

  type Bytes = seq<bv8>

  /** Laravel's `Storage::disk('cloud')`. */
  class CloudDisk {
    var objects: map<string, Bytes>

    constructor (initial: map<string, Bytes>)
      ensures objects == initial
    {
      objects := initial;
    }

    /** exists($path) */
    method Exists(path: string) returns (b: bool)
      ensures b <==> path in objects
    {
      b := path in objects;
    }

    /** get($path); the caller has checked that the object exists. */
    method Get(path: string) returns (bytes: Bytes)
      requires path in objects
      ensures bytes == objects[path]
    {
      bytes := objects[path];
    }

    /** storeAs / put: writes (or overwrites) the object at `path`. */
    method Put(path: string, bytes: Bytes)
      modifies this
      ensures objects == old(objects)[path := bytes]
    {
      objects := objects[path := bytes];
    }
  }

  /** The local file system the scratch files live on. */
  class LocalDisk {
    var files: map<string, Bytes>

    constructor (initial: map<string, Bytes>)
      ensures files == initial
    {
      files := initial;
    }

    /** file_put_contents($path, $bytes) */
    method Write(path: string, bytes: Bytes)
      modifies this
      ensures files == old(files)[path := bytes]
    {
      files := files[path := bytes];
    }

    /** file_exists($path) */
    method Exists(path: string) returns (b: bool)
      ensures b <==> path in files
    {
      b := path in files;
    }

    /** unlink($path) */
    method Unlink(path: string)
      modifies this
      ensures files == old(files) - {path}
    {
      files := files - {path};
    }
  }

  /** A command line and the working directory it is started in. */
  datatype Invocation = Invocation(argv: seq<string>, cwd: string)

  /**
   * What `Process::run()` ends with: the process finished, successfully
   * (exit code 0) or not, with its standard output; or `run()` threw
   * (the 180 s timeout expired, or the command could not be started).
   */
  datatype ProcessOutcome =
    | Finished(successful: bool, stdout: string)
    | Aborted

  /**
   * One run of a process: the command, and the local files as they were
   * while it ran (what a mounted directory shows the container).
   */
  datatype ProcessRun = ProcessRun(invocation: Invocation, files: map<string, Bytes>)

  /**
   * Symfony Process. How a run ends may depend on every run so far: a run
   * ends as `behaviour(log)`, the runs up to and including its own.
   */
  class ProcessRunner {
    const behaviour: seq<ProcessRun> -> ProcessOutcome
    var log: seq<ProcessRun>

    constructor (behaviour: seq<ProcessRun> -> ProcessOutcome)
      ensures this.behaviour == behaviour && log == []
    {
      this.behaviour := behaviour;
      log := [];
    }

    /** `$process->run()` for `inv`, started while the local disk holds `files`. */
    method Run(inv: Invocation, files: map<string, Bytes>) returns (outcome: ProcessOutcome)
      modifies this
      ensures log == old(log) + [ProcessRun(inv, files)]
      ensures outcome == behaviour(log)
    {
      log := log + [ProcessRun(inv, files)];
      outcome := behaviour(log);
    }
  }

  /**
   * The part of Gemini's HTTP response the service reads: the status code
   * and the value at `candidates.0.content.parts.0.text` of the JSON body
   * (Null when the body is not JSON or the path is absent).
   */
  datatype HttpResponse = HttpResponse(status: int, text: Value)

  /** `$res->successful()`: a 2xx status. */
  predicate Successful(status: int) {
    200 <= status < 300
  }

  /**
   * The Gemini generateContent endpoint. Its answer may depend on
   * everything posted so far: a post gets `reply(prompts)`, the prompts
   * posted up to and including its own.
   */
  class GeminiClient {
    const reply: seq<string> -> HttpResponse
    var prompts: seq<string>

    constructor (reply: seq<string> -> HttpResponse)
      ensures this.reply == reply && prompts == []
    {
      this.reply := reply;
      prompts := [];
    }

    /** Http::timeout(60)->post($url, $payload) for a payload carrying `prompt`. */
    method Post(prompt: string) returns (res: HttpResponse)
      modifies this
      ensures prompts == old(prompts) + [prompt]
      ensures res == reply(prompts)
    {
      prompts := prompts + [prompt];
      res := reply(prompts);
    }
  }
}
