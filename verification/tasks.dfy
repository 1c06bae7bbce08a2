/**
 * Discrete tasks and the discrete-task broker's clone policy.
 *
 * A discrete task names either an external script (by URL) or a script stored
 * in the repository (by filename, directory, author and version). Either kind
 * carries execution options and, once submitted, the caller-facing task token.
 */
module Tasks {
  import opened Wrappers

  /** Caller-facing handle correlating a submission with its eventual result. */
  datatype TaskToken = TaskToken(id: nat)

  /** Execution options of a task; the broker never looks inside, it only copies them. */
  datatype TaskOptions = TaskOptions(settings: seq<(string, string)>)

  datatype Task =
    | External(url: string, options: TaskOptions, token: Option<TaskToken>)
    | Stored(filename: string, directory: string, author: string, version: string,
             options: TaskOptions, token: Option<TaskToken>)
  {
    /** The task's `external` field: the script URL, or "" for a stored script. */
    function ExternalRef(): string {
      if External? then url else ""
    }

    /** The stored-script fields, read as "" on an external task (where they are unset). */
    function Filename(): string {
      if Stored? then filename else ""
    }

    function Directory(): string {
      if Stored? then directory else ""
    }

    function Author(): string {
      if Stored? then author else ""
    }

    function Version(): string {
      if Stored? then version else ""
    }

    /** The broker's test for an external task: a non-empty `external` field. */
    predicate IsExternal() {
      ExternalRef() != ""
    }

    /** A task as its own constructor builds it: an external task has a URL. */
    predicate WellFormed() {
      Stored? || url != ""
    }
  }

  /**
   * The broker's clone of a task: an external task is rebuilt from its URL and
   * options, any other from its stored-script fields and options; the clone then
   * receives the original's task token.
   */
  function CloneTask(genesis: Task): (clone: Task)
    ensures clone.External? <==> genesis.IsExternal()
    ensures clone.External? ==> clone.url == genesis.url
    ensures clone.Stored? ==>
              && clone.filename == genesis.Filename()
              && clone.directory == genesis.Directory()
              && clone.author == genesis.Author()
              && clone.version == genesis.Version()
    ensures clone.options == genesis.options
    ensures clone.token == genesis.token
    ensures clone.ExternalRef() == genesis.ExternalRef()
    ensures clone.WellFormed()
  {
    var rebuilt :=
      if genesis.ExternalRef() != "" then
        External(genesis.ExternalRef(), genesis.options, None)
      else
        Stored(genesis.Filename(), genesis.Directory(), genesis.Author(), genesis.Version(),
               genesis.options, None);
    rebuilt.(token := genesis.token)
  }

  /** A well-formed task is reproduced exactly by cloning: nothing that defines execution is lost. */
  lemma CloneReproducesWellFormed(t: Task)
    requires t.WellFormed()
    ensures CloneTask(t) == t
  {
  }

  /** Cloning a clone changes nothing further. */
  lemma CloneIdempotent(t: Task)
    ensures CloneTask(CloneTask(t)) == CloneTask(t)
  {
    CloneReproducesWellFormed(CloneTask(t));
  }
}
