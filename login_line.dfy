/**
 * One chunk of the logins file as the handler's strtok calls cut it: the
 * user up to ':', the password up to the next ':', the info up to ';'.
 * Which layouts of a line the scan reads as intended follows from that.
 */
module LoginLine {
  import opened Options
  import opened CLib

  /**
   * The fields the handler's strtok calls cut from one chunk: the user up to
   * a ':', then the password up to the next ':', then the info up to a ';'.
   * Each is absent when strtok returns NULL, and a later field is looked for
   * only when the earlier one exists.
   */
  datatype Fields = Fields(user: Option<string>, passwd: Option<string>, info: Option<string>)

  /**
   * The three strtok calls on the C string in the read buffer: the user up
   * to ':', then the password up to the next ':', then the info up to ';',
   * each call resuming after the delimiter that ended the previous token.
   */
  function ParseLine(line: string): (f: Fields)
    ensures f.user.None? ==> f.passwd.None?
    ensures f.passwd.None? ==> f.info.None?
  {
    var s := CStr(line);
    match Strtok(s, ':')
    case None => Fields(None, None, None)
    case Some(u) =>
      match Strtok(u.rest, ':')
      case None => Fields(Some(u.text), None, None)
      case Some(p) =>
        var info := Strtok(p.rest, ';');
        Fields(Some(u.text), Some(p.text), if info.Some? then Some(info.value.text) else None)
  }

  /**
   * The strtok and strcmp calls of one verification iteration on the chunk
   * line: whether its user token is user, and if so whether its password
   * token is passwd and what its info token is.
   */
  method MatchLine(line: string, user: string, passwd: string) returns (found: bool, accepted: bool, info: Option<string>)
    ensures found <==> ParseLine(line).user == Some(user)
    ensures found ==> (accepted <==> ParseLine(line).passwd == Some(passwd))
    ensures found && accepted ==> info == ParseLine(line).info
  {
    found, accepted, info := false, false, None;
    var buffer := CStr(line);
    var fUser := Strtok(buffer, ':');
    if fUser.Some? && StrCmp(user, fUser.value.text) == 0 {
      found := true;
      var fPasswd := Strtok(fUser.value.rest, ':');
      if fPasswd.Some? && StrCmp(passwd, fPasswd.value.text) == 0 {
        accepted := true;
        var fInfo := Strtok(fPasswd.value.rest, ';');
        info := if fInfo.Some? then Some(fInfo.value.text) else None;
      }
    }
  }

  /** Every field present is nonempty and free of NUL and of the delimiter that ends it. */
  lemma ParseLineFields(line: string)
    ensures ParseLine(line).user.Some? ==> var t := ParseLine(line).user.value; t != [] && ':' !in t && '\0' !in t
    ensures ParseLine(line).passwd.Some? ==> var t := ParseLine(line).passwd.value; t != [] && ':' !in t && '\0' !in t
    ensures ParseLine(line).info.Some? ==> var t := ParseLine(line).info.value; t != [] && ';' !in t && '\0' !in t
  {
    var s := CStr(line);
    CStrPrefix(line);
    if Strtok(s, ':').Some? {
      var u := Strtok(s, ':').value;
      StrtokTokenClean(s, ':');
      StrtokKeepsOut(s, ':', '\0');
      if Strtok(u.rest, ':').Some? {
        var pw := Strtok(u.rest, ':').value;
        StrtokTokenClean(u.rest, ':');
        StrtokKeepsOut(u.rest, ':', '\0');
        if Strtok(pw.rest, ';').Some? {
          StrtokTokenClean(pw.rest, ';');
          StrtokKeepsOut(pw.rest, ';', '\0');
        }
      }
    }
  }

  /**
   * The layout the scan reads as intended: user, ':', password, ':', info,
   * ';', then the newline apr_file_gets keeps.
   */
  lemma ColonLayoutParses(u: string, p: string, info: string)
    requires u != [] && p != [] && info != []
    requires ':' !in u && ':' !in p && ';' !in info
    requires '\0' !in u && '\0' !in p && '\0' !in info
    ensures ParseLine(u + ":" + (p + ":" + (info + ";" + "\n"))) == Fields(Some(u), Some(p), Some(info))
  {
    var r2 := info + ";" + "\n";
    var r1 := p + ":" + r2;
    var line := u + ":" + r1;
    assert CStr(line) == line by {
      assert '\0' !in line;
      CStrWhole(line);
    }
    assert Strtok(line, ':') == Some(Token(u, r1)) by {
      StrtokLeading(u, ':', r1);
    }
    assert Strtok(r1, ':') == Some(Token(p, r2)) by {
      StrtokLeading(p, ':', r2);
    }
    assert Strtok(r2, ';') == Some(Token(info, "\n")) by {
      StrtokLeading(info, ';', "\n");
    }
  }

  /**
   * The layout user:password;info is not read as intended: ';' does not end
   * the password token, which runs on to the end of the line.
   */
  lemma SemicolonLayoutFields(u: string, p: string, info: string)
    requires u != [] && ':' !in u && ':' !in p && ':' !in info
    requires '\0' !in u && '\0' !in p && '\0' !in info
    ensures ParseLine(u + ":" + (p + ";" + info + "\n")) == Fields(Some(u), Some(p + ";" + info + "\n"), None)
  {
    var r1 := p + ";" + info + "\n";
    var line := u + ":" + r1;
    assert CStr(line) == line by {
      assert '\0' !in line;
      CStrWhole(line);
    }
    assert Strtok(line, ':') == Some(Token(u, r1)) by {
      StrtokLeading(u, ':', r1);
    }
    assert Strtok(r1, ':') == Some(Token(r1, [])) by {
      assert ':' !in r1;
      StrtokWhole(r1, ':');
    }
  }

  /** A line without ':' is one user token, newline included, with no password. */
  lemma ColonlessLineIsUserOnly(line: string)
    requires line != [] && ':' !in line && '\0' !in line
    ensures ParseLine(line) == Fields(Some(line), None, None)
  {
    CStrWhole(line);
    StrtokWhole(line, ':');
  }
}
