/**
 * Per-directory configuration of mod_auth_example: the auth_ex_cfg record,
 * how Apache creates one per configuration section, how a section inherits
 * from its enclosing one, and the three directives that fill it.
 */
module AuthConfig {
  import opened Options
  import opened CLib

  /** Size of every char array in the module, terminating NUL included. */
  const BUF_SIZE: nat := 256

  const DefaultLoginsPath: string := "/etc/apache2/mod_auth_example-logins"
  const DefaultLogsPath: string := "/etc/apache2/mod_auth_example-logs"
  const UndefinedContext: string := "Undefined context"
  const MergedContext: string := "Merged configuration"

  /** s can be strcpy'd into a char[BUF_SIZE] together with its terminator. */
  predicate Fits(s: string)
  {
    |s| < BUF_SIZE
  }

  /** Arguments of AuthExampleFlush that turn flush mode on: "allow" in any case. */
  predicate AllowsFlush(arg: string)
  {
    Lower(arg) == "allow"
  }

  /** auth_ex_cfg: one section's settings, updated in place by the directive handlers. */
  class DirConfig {
    var context: string
    var loginsPath: string
    var logsPath: string
    var flush: bool

    /** Every string field fits its char[BUF_SIZE] array. */
    ghost predicate Valid()
      reads this
    {
      Fits(context) && Fits(loginsPath) && Fits(logsPath)
    }

    /** Both paths name something (the state create_dir_conf leaves them in). */
    predicate PathsSet()
      reads this
    {
      loginsPath != [] && logsPath != []
    }

    /**
     * create_dir_conf: the section's name (or "Undefined context" when Apache
     * gives none), the two fixed default paths, and flush mode off.
     */
    constructor (ctx: Option<string>)
      requires ctx.Some? ==> Fits(ctx.value)
      ensures Valid() && PathsSet()
      ensures context == (if ctx.Some? then ctx.value else UndefinedContext)
      ensures loginsPath == DefaultLoginsPath && logsPath == DefaultLogsPath
      ensures !flush
    {
      context := if ctx.Some? then ctx.value else UndefinedContext;
      loginsPath := DefaultLoginsPath;
      logsPath := DefaultLogsPath;
      flush := false;
    }

    /**
     * create_dir_conf as its inheritance rule needs it: both paths left
     * empty, meaning "not set in this section", so that Merge takes the
     * enclosing section's; the defaults apply only where no section set a
     * path (LoginsFile, LogsFile).
     */
    constructor Unset(ctx: Option<string>)
      requires ctx.Some? ==> Fits(ctx.value)
      ensures Valid() && !PathsSet()
      ensures context == (if ctx.Some? then ctx.value else UndefinedContext)
      ensures loginsPath == [] && logsPath == []
      ensures !flush
    {
      context := if ctx.Some? then ctx.value else UndefinedContext;
      loginsPath := [];
      logsPath := [];
      flush := false;
    }

    /**
     * Corrected design only: the logins file under the inheritance rule that
     * Unset makes work, the path some section set, else the default. The
     * handler as written stats and opens loginsPath exactly as stored.
     */
    function LoginsFile(): (p: string)
      reads this
      requires Valid()
      ensures p != [] && Fits(p)
      ensures loginsPath != [] ==> p == loginsPath
    {
      if loginsPath == [] then DefaultLoginsPath else loginsPath
    }

    /**
     * Corrected design only: the log file under the inheritance rule that
     * Unset makes work, the path some section set, else the default. The
     * handler as written stats and opens logsPath exactly as stored.
     */
    function LogsFile(): (p: string)
      reads this
      requires Valid()
      ensures p != [] && Fits(p)
      ensures logsPath != [] ==> p == logsPath
    {
      if logsPath == [] then DefaultLogsPath else logsPath
    }

    /**
     * merge_dir_conf: a fresh configuration named "Merged configuration"
     * whose paths come from the inner section add unless add's is empty, in
     * which case the enclosing section base supplies it; flush is add's own
     * and is never inherited. Neither input changes.
     */
    static method Merge(base: DirConfig, add: DirConfig) returns (conf: DirConfig)
      requires base.Valid() && add.Valid()
      ensures fresh(conf) && conf.Valid()
      ensures conf.context == MergedContext
      ensures conf.loginsPath == (if add.loginsPath == [] then base.loginsPath else add.loginsPath)
      ensures conf.logsPath == (if add.logsPath == [] then base.logsPath else add.logsPath)
      ensures conf.flush == add.flush
      ensures base.PathsSet() || add.PathsSet() ==> conf.PathsSet()
    {
      conf := new DirConfig(Some(MergedContext));
      conf.loginsPath := if add.loginsPath == [] then base.loginsPath else add.loginsPath;
      conf.logsPath := if add.logsPath == [] then base.logsPath else add.logsPath;
      conf.flush := add.flush;
    }

    /** set_logins_path (directive AuthExampleLoginsPath): overwrites the logins path only. */
    method SetLoginsPath(arg: string)
      requires Valid() && Fits(arg)
      modifies this`loginsPath
      ensures Valid() && loginsPath == arg
    {
      loginsPath := arg;
    }

    /** set_logs_path (directive AuthExampleLogsPath): overwrites the logs path only. */
    method SetLogsPath(arg: string)
      requires Valid() && Fits(arg)
      modifies this`logsPath
      ensures Valid() && logsPath == arg
    {
      logsPath := arg;
    }

    /** set_flush (directive AuthExampleFlush): flush mode is on exactly for "allow", in any case. */
    method SetFlush(arg: string)
      modifies this`flush
      ensures flush <==> AllowsFlush(arg)
    {
      flush := StrCaseCmp(arg, "allow") == 0;
    }
  }

  /** The directive spellings that switch flush mode on and off. */
  lemma FlushDirectiveArguments()
    ensures AllowsFlush("allow") && AllowsFlush("Allow") && AllowsFlush("ALLOW")
    ensures !AllowsFlush("deny") && !AllowsFlush("allowed") && !AllowsFlush("")
  {
    assert Lower("Allow") == "allow";
    assert Lower("ALLOW") == "allow";
  }

  /**
   * As written: a section that only says "AuthExampleFlush allow" still
   * holds create_dir_conf's default paths, so merging gives it the defaults
   * whatever paths the enclosing section configured; base.loginsPath ==
   * "/srv/auth/logins" is not inherited.
   */
  method ScopeWithoutPathsGetsDefaults(base: DirConfig) returns (merged: DirConfig)
    requires base.Valid()
    ensures merged.loginsPath == DefaultLoginsPath && merged.logsPath == DefaultLogsPath
    ensures merged.flush
  {
    var add := new DirConfig(Some("/auth/flush"));
    add.SetFlush("allow");
    FlushDirectiveArguments();
    merged := DirConfig.Merge(base, add);
  }

  /**
   * Corrected: when create_dir_conf leaves the paths unset, the same section
   * uses exactly the files its enclosing section uses.
   */
  method ScopeWithoutPathsInherits(base: DirConfig) returns (merged: DirConfig)
    requires base.Valid()
    ensures merged.Valid()
    ensures merged.LoginsFile() == base.LoginsFile() && merged.LogsFile() == base.LogsFile()
    ensures merged.flush
  {
    var add := new DirConfig.Unset(Some("/auth/flush"));
    add.SetFlush("allow");
    FlushDirectiveArguments();
    merged := DirConfig.Merge(base, add);
  }
}
