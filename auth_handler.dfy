/**
 * auth_example_handler: one request against the logins file. The file checks
 * come first, then the choice between flush mode, verification and a 511,
 * then one pass over the logins file, which in verification stops at the
 * first line naming the user and appends one audit record when its password
 * does not match.
 *
 * The file system is abstracted to a FileView, the query string to two
 * optional strings and the HTML page to an Outcome; the log file is a
 * LogFile object that the handler appends to.
 */
module AuthHandler {
  import opened Options
  import opened CLib
  import opened AuthConfig
  import opened LoginLine
  import opened Verdicts

  /** apr_filetype_e: what apr_stat reports a path to be. */
  datatype FileType = NoFile | Reg | Dir | Chr | Blk | Pipe | Lnk | Sock | UnkFile

  /**
   * What the file system shows one request: apr_stat of the logins path and
   * of the log path (None when the call fails), whether each apr_file_open
   * succeeds, and the successive chunks apr_file_gets reads from the logins
   * file, each ending at its newline.
   */
  datatype FileView = FileView(
    loginsStat: Option<FileType>,
    logsStat: Option<FileType>,
    loginsOpens: bool,
    logsOpens: bool,
    logins: seq<string>)

  /** A stat result the handler accepts: neither "no file" nor a directory. */
  predicate Usable(t: FileType)
  {
    t != NoFile && t != Dir
  }

  /** Both stat calls succeed and report usable files. */
  predicate StatsOk(fs: FileView)
  {
    fs.loginsStat.Some? && fs.logsStat.Some? && Usable(fs.loginsStat.value) && Usable(fs.logsStat.value)
  }

  /** Both files open: the logins file for reading, the log file for appending. */
  predicate Opens(fs: FileView)
  {
    fs.loginsOpens && fs.logsOpens
  }

  /**
   * What the handler answers. The stat checks come before anything about the
   * query; flush mode needs the flag and a missing user or passwd; a missing
   * file handle yields an empty dump or "no such user", still with status OK.
   */
  function Respond(flush: bool, fs: FileView, user: Option<string>, passwd: Option<string>): (r: Outcome)
    ensures fs.loginsStat.None? || fs.logsStat.None? <==> r == Forbidden
    ensures r == NotFound <==> fs.loginsStat.Some? && fs.logsStat.Some? && !StatsOk(fs)
    ensures r == AuthRequired <==> StatsOk(fs) && !flush && (user.None? || passwd.None?)
    ensures r.Flush? <==> StatsOk(fs) && flush && (user.None? || passwd.None?)
    ensures r.Flush? ==> r.lines == if Opens(fs) then Echo(fs.logins) else []
    ensures r.Success? || r == WrongPassword ==> StatsOk(fs) && Opens(fs) && user.Some? && passwd.Some?
    ensures StatsOk(fs) && user.Some? && passwd.Some? && !Opens(fs) ==> r == NoSuchUser
    ensures StatsOk(fs) && user.Some? && passwd.Some? && Opens(fs) ==> r == Verdict(Entries(fs.logins), user.value, passwd.value)
  {
    if fs.loginsStat.None? || fs.logsStat.None? then Forbidden
    else if !StatsOk(fs) then NotFound
    else if user.None? || passwd.None? then
      (if flush then Flush(if Opens(fs) then Echo(fs.logins) else []) else AuthRequired)
    else if Opens(fs) then Verdict(Entries(fs.logins), user.value, passwd.value)
    else NoSuchUser
  }

  /**
   * What the handler appends to the log file: one record when verification
   * reaches a line naming the user whose password token is missing or
   * different, nothing otherwise. The record is written with the bounded
   * snprintf, so it is cut to BUF_SIZE - 1 bytes when it does not fit.
   */
  function AuditTrail(flush: bool, fs: FileView, user: Option<string>, passwd: Option<string>): (w: seq<string>)
    ensures |w| <= 1
    ensures w != [] <==> Respond(flush, fs, user, passwd) == WrongPassword
    ensures w != [] ==> user.Some? && passwd.Some? && w == [BoundedAuditRecord(user.value, passwd.value)]
  {
    if StatsOk(fs) && Opens(fs) && user.Some? && passwd.Some? then
      match FirstMatch(Entries(fs.logins), user.value)
      case None => []
      case Some(k) =>
        if Entries(fs.logins)[k].passwd != passwd then [BoundedAuditRecord(user.value, passwd.value)] else []
    else []
  }

  /** The log file, as the sequence of records appended to it. */
  class LogFile {
    var records: seq<string>

    constructor ()
      ensures records == []
    {
      records := [];
    }

    /** apr_file_write in append mode: the record lands whole at the end. */
    method Write(rec: string)
      modifies this
      ensures records == old(records) + [rec]
    {
      records := records + [rec];
    }
  }

  /**
   * One iteration of the verification loop, on chunk i: the strtok and
   * strcmp calls, and when the user token is user, the message printed and,
   * for a wrong password, the audit record appended. None when the chunk
   * names another user, and then nothing is written.
   */
  method CheckEntry(lines: seq<string>, i: nat, user: string, passwd: string, log: LogFile)
    returns (verdict: Option<Outcome>)
    requires i < |lines|
    modifies log
    ensures verdict.None? <==> Entries(lines)[i].user != Some(user)
    ensures verdict.Some? ==> verdict.value ==
                                (if Entries(lines)[i].passwd == Some(passwd) then Success(Entries(lines)[i].info) else WrongPassword)
    ensures log.records == old(log.records) + (if verdict == Some(WrongPassword) then [BoundedAuditRecord(user, passwd)] else [])
  {
    var found, accepted, info := MatchLine(lines[i], user, passwd);
    if !found {
      verdict := None;
    } else if accepted {
      verdict := Some(Success(info));
    } else {
      log.Write(BoundedAuditRecord(user, passwd));
      verdict := Some(WrongPassword);
    }
  }

  /**
   * The while loop of auth_example_handler, run once both files are open.
   * In flush mode every chunk is printed, as the C string the read buffer
   * holds, and nothing is written. Otherwise the first chunk whose user
   * token is user ends the loop (CheckEntry); verdict is the message it
   * printed, and verdict.Some? is the handler's user_found flag.
   */
  method ScanLogins(lines: seq<string>, flushMode: bool, user: Option<string>, passwd: Option<string>, log: LogFile)
    returns (verdict: Option<Outcome>, echoed: seq<string>)
    requires !flushMode ==> user.Some? && passwd.Some?
    modifies log
    ensures flushMode ==> verdict.None? && echoed == Echo(lines) && log.records == old(log.records)
    ensures !flushMode ==> (verdict.None? <==> FirstMatch(Entries(lines), user.value).None?)
    ensures !flushMode && verdict.Some? ==> verdict.value == Verdict(Entries(lines), user.value, passwd.value)
    ensures !flushMode ==> log.records == old(log.records) +
                                          (if verdict == Some(WrongPassword) then [BoundedAuditRecord(user.value, passwd.value)] else [])
  {
    verdict, echoed := None, [];
    var i := 0;
    while i < |lines|
      invariant 0 <= i <= |lines|
      invariant log.records == old(log.records)
      invariant flushMode ==> echoed == Echo(lines[..i])
      invariant !flushMode ==> forall j :: 0 <= j < i ==> Entries(lines)[j].user != Some(user.value)
    {
      if flushMode {
        echoed := echoed + [CStr(lines[i])];
        assert echoed == Echo(lines[..i + 1]);
      } else {
        var v := CheckEntry(lines, i, user.value, passwd.value, log);
        if v.Some? {
          FirstEntryDecides(Entries(lines), user.value, passwd.value, i);
          verdict := v;
          break;
        }
      }
      i := i + 1;
    }
    assert flushMode ==> lines[..i] == lines;
  }

  /**
   * auth_example_handler, from the stat checks to the final status. user and
   * passwd are what apr_table_get returns: C strings, so without NUL.
   */
  method AuthExampleHandler(config: DirConfig, fs: FileView, user: Option<string>, passwd: Option<string>, log: LogFile)
    returns (outcome: Outcome)
    requires user.Some? ==> '\0' !in user.value
    requires passwd.Some? ==> '\0' !in passwd.value
    modifies log
    ensures outcome == Respond(config.flush, fs, user, passwd)
    ensures log.records == old(log.records) + AuditTrail(config.flush, fs, user, passwd)
  {
    if fs.loginsStat.Some? && fs.logsStat.Some? {
      if !Usable(fs.loginsStat.value) || !Usable(fs.logsStat.value) {
        return NotFound;
      }
    } else {
      return Forbidden;
    }

    var flushMode := config.flush && (user.None? || passwd.None?);
    if !flushMode && (user.None? || passwd.None?) {
      return AuthRequired;
    }

    var verdict: Option<Outcome> := None;
    var echoed: seq<string> := [];
    if fs.loginsOpens && fs.logsOpens {
      verdict, echoed := ScanLogins(fs.logins, flushMode, user, passwd, log);
    }

    if flushMode {
      outcome := Flush(echoed);
    } else if verdict.None? {
      outcome := NoSuchUser;
    } else {
      outcome := verdict.value;
    }
  }
}
