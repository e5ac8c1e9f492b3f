/** The world outside the core, as the core sees it: the image library
    (rendering a chunk, saving a still), the file system (writing the
    manifest, removing clips) and the ffmpeg process. Each is an oracle that
    answers one action; the work directory records every action attempted,
    in order. */
module Environment {

  import opened Types
  import opened Compose

  /** One effect on the outside world. */
  datatype Action =
    | SaveImage(name: string, still: Still)     // `target.save(work_dir.join(name))`
    | Spawn(args: seq<string>)                  // `Command::new("ffmpeg").args(args).output()`
    | WriteFile(name: string, content: string)  // `std::fs::write`
    | RemoveFile(name: string)                  // `std::fs::remove_file`, result ignored

  /** What running ffmpeg yields: an exit status, or no process at all. A
      process killed by a signal has no code and is not a success, so it is
      folded into a non-zero code. */
  datatype Exit = Exited(code: int) | SpawnFailed

  /** The oracles: whether rendering a chunk (`draw_data`) succeeds, whether
      a save or write succeeds, and how ffmpeg exits on given arguments. */
  datatype Env = Env(draw: Chunk -> bool, store: Action -> bool, exec: seq<string> -> Exit)

  /** Whether the outside world reports success for `a`. */
  predicate Succeeds(env: Env, a: Action) {
    match a
    case SaveImage(_, _) => env.store(a)
    case WriteFile(_, _) => env.store(a)
    case Spawn(args) => env.exec(args) == Exited(0)
    case RemoveFile(_) => true
  }

  /** A world in which nothing fails. */
  ghost predicate AllOk(env: Env) {
    && (forall c :: env.draw(c))
    && (forall a :: env.store(a))
    && (forall args :: env.exec(args) == Exited(0))
  }

  /** The work directory: every action attempted through it, in order. */
  class WorkDir {
    const env: Env
    var trace: seq<Action>

    constructor (env: Env)
      ensures this.env == env && trace == []
    {
      this.env := env;
      trace := [];
    }

    method Save(name: string, still: Still) returns (ok: bool)
      modifies this
      ensures trace == old(trace) + [SaveImage(name, still)]
      ensures ok == Succeeds(env, SaveImage(name, still))
    {
      trace := trace + [SaveImage(name, still)];
      ok := env.store(SaveImage(name, still));
    }

    method Write(name: string, content: string) returns (ok: bool)
      modifies this
      ensures trace == old(trace) + [WriteFile(name, content)]
      ensures ok == Succeeds(env, WriteFile(name, content))
    {
      trace := trace + [WriteFile(name, content)];
      ok := env.store(WriteFile(name, content));
    }

    method Run(args: seq<string>) returns (exit: Exit)
      modifies this
      ensures trace == old(trace) + [Spawn(args)]
      ensures exit == env.exec(args)
      ensures Succeeds(env, Spawn(args)) <==> exit == Exited(0)
    {
      trace := trace + [Spawn(args)];
      exit := env.exec(args);
    }

    method Remove(name: string)
      modifies this
      ensures trace == old(trace) + [RemoveFile(name)]
    {
      trace := trace + [RemoveFile(name)];
    }
  }
}
