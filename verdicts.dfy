/**
 * What verification mode decides from the logins file, stated on values:
 * the fields of each chunk in file order, the first entry naming the user,
 * the verdict it gives, and the audit record a wrong password leaves.
 */
module Verdicts {
  import opened Options
  import opened CLib
  import opened AuthConfig
  import opened LoginLine

  /** The handler's answer: an HTTP status, and for 200 what the page reports. */
  datatype Outcome =
    | Forbidden                      // 403: a stat call failed
    | NotFound                       // 404: stat succeeds but reports no file or a directory
    | AuthRequired                   // 511: user or passwd missing outside flush mode
    | Flush(lines: seq<string>)      // 200: the logins file echoed chunk by chunk
    | Success(info: Option<string>)  // 200: credentials accepted, with the user's info if any
    | WrongPassword                  // 200: user found, password wrong, incident logged
    | NoSuchUser                     // 200: no line names the user

  /** What every audit record starts with. */
  const AuditPrefix: string := "Password incorrect login= "

  /** The audit line for a wrong password, as the handler's sprintf formats it. */
  function AuditRecord(user: string, passwd: string): (r: string)
    ensures |r| == |user| + |passwd| + 29
  {
    AuditPrefix + user + ":" + passwd + ";\r"
  }

  /**
   * As written, the record is formatted into the char[BUF_SIZE] that held the
   * chunk; user and passwd come from the query string, and once they total
   * more than 226 bytes the record, with its NUL, runs past the buffer.
   */
  lemma AuditRecordOverflows(user: string, passwd: string)
    requires |user| + |passwd| > 226
    ensures !Fits(AuditRecord(user, passwd))
  {
  }

  /**
   * The record as snprintf(aux_buf, BUF_SIZE, ...) leaves it: whole when it
   * fits, otherwise its first BUF_SIZE - 1 bytes. This is what the handler
   * appends to the log file.
   */
  function BoundedAuditRecord(user: string, passwd: string): (r: string)
    ensures Fits(r) && r <= AuditRecord(user, passwd)
    ensures |r| == if Fits(AuditRecord(user, passwd)) then |AuditRecord(user, passwd)| else BUF_SIZE - 1
  {
    var rec := AuditRecord(user, passwd);
    if Fits(rec) then rec else rec[..BUF_SIZE - 1]
  }

  /** Credentials totalling at most 226 bytes are logged in full. */
  lemma ShortCredentialsLoggedWhole(user: string, passwd: string)
    requires |user| + |passwd| <= 226
    ensures BoundedAuditRecord(user, passwd) == AuditRecord(user, passwd)
  {
  }

  /** What flush mode prints of each chunk: the C string in the read buffer. */
  function Echo(lines: seq<string>): (r: seq<string>)
    ensures |r| == |lines|
    ensures forall i :: 0 <= i < |lines| ==> r[i] <= lines[i] && '\0' !in r[i]
  {
    assert forall i :: 0 <= i < |lines| ==> CStr(lines[i]) <= lines[i] && '\0' !in CStr(lines[i]) by {
      forall i | 0 <= i < |lines| {
        CStrPrefix(lines[i]);
      }
    }
    seq(|lines|, i requires 0 <= i < |lines| => CStr(lines[i]))
  }

  /** Flush mode shows each chunk exactly as read when no chunk holds a NUL. */
  lemma EchoVerbatim(lines: seq<string>)
    requires forall i :: 0 <= i < |lines| ==> '\0' !in lines[i]
    ensures Echo(lines) == lines
  {
    forall i | 0 <= i < |lines|
      ensures Echo(lines)[i] == lines[i]
    {
      CStrWhole(lines[i]);
    }
  }

  /** The fields of each chunk, in file order. */
  function Entries(lines: seq<string>): (es: seq<Fields>)
    ensures |es| == |lines|
  {
    seq(|lines|, i requires 0 <= i < |lines| => ParseLine(lines[i]))
  }

  /** The index of the first entry whose user token is u (strcmp equal). */
  function FirstMatch(es: seq<Fields>, u: string): (r: Option<nat>)
    ensures r.Some? ==> r.value < |es| && es[r.value].user == Some(u)
    ensures r.Some? ==> forall j :: 0 <= j < r.value ==> es[j].user != Some(u)
    ensures r.None? <==> forall j :: 0 <= j < |es| ==> es[j].user != Some(u)
  {
    if es == [] then None
    else if es[0].user == Some(u) then Some(0)
    else
      match FirstMatch(es[1..], u)
      case None => None
      case Some(k) => Some(k + 1)
  }

  /**
   * The verdict of verification mode: the first entry for u decides, by
   * its password token; no entry for u means no such user.
   */
  function Verdict(es: seq<Fields>, u: string, p: string): (r: Outcome)
    ensures r.Success? || r == WrongPassword || r == NoSuchUser
    ensures r == NoSuchUser <==> forall j :: 0 <= j < |es| ==> es[j].user != Some(u)
  {
    match FirstMatch(es, u)
    case None => NoSuchUser
    case Some(k) => if es[k].passwd == Some(p) then Success(es[k].info) else WrongPassword
  }

  /** The entries of two files back to back are the two files' entries back to back. */
  lemma EntriesAppend(lines: seq<string>, more: seq<string>)
    ensures Entries(lines + more) == Entries(lines) + Entries(more)
  {
    forall i | 0 <= i < |lines + more|
      ensures Entries(lines + more)[i] == (Entries(lines) + Entries(more))[i]
    {
      if i >= |lines| {
        assert (lines + more)[i] == more[i - |lines|];
      }
    }
  }

  /** The first match in a + b is the first match in a, failing that the first in b, shifted past a. */
  lemma {:induction false} FirstMatchAppend(a: seq<Fields>, b: seq<Fields>, u: string)
    ensures FirstMatch(a + b, u) ==
              if FirstMatch(a, u).Some? then FirstMatch(a, u)
              else if FirstMatch(b, u).Some? then Some(|a| + FirstMatch(b, u).value)
              else None
  {
    if a == [] {
      assert a + b == b;
    } else {
      assert (a + b)[0] == a[0];
      assert (a + b)[1..] == a[1..] + b;
      FirstMatchAppend(a[1..], b, u);
    }
  }

  /**
   * Verification reads front to back and stops at the first entry for the
   * user: once a names u, whatever follows is never looked at; when it does
   * not, its entries are skipped as if absent.
   */
  lemma VerdictAppend(a: seq<Fields>, b: seq<Fields>, u: string, p: string)
    ensures Verdict(a + b, u, p) == if FirstMatch(a, u).Some? then Verdict(a, u, p) else Verdict(b, u, p)
  {
    FirstMatchAppend(a, b, u);
    if FirstMatch(a, u).Some? {
      var k := FirstMatch(a, u).value;
      assert (a + b)[k] == a[k];
    } else if FirstMatch(b, u).Some? {
      var k := FirstMatch(b, u).value;
      assert (a + b)[|a| + k] == b[k];
    }
  }

  /**
   * The entry that decides: when entry k is the first whose user token is
   * u, the verdict is its password token compared with p, and on a match
   * its info token.
   */
  lemma FirstEntryDecides(es: seq<Fields>, u: string, p: string, k: nat)
    requires k < |es| && es[k].user == Some(u)
    requires forall j :: 0 <= j < k ==> es[j].user != Some(u)
    ensures FirstMatch(es, u) == Some(k)
    ensures Verdict(es, u, p) == if es[k].passwd == Some(p) then Success(es[k].info) else WrongPassword
  {
  }

  /**
   * A file whose only line for u has the layout user:password;info refuses
   * u's right password (the password token runs on past the ';'). The line
   * is shorter than BUF_SIZE, so apr_file_gets reads it as one chunk.
   */
  lemma SemicolonLayoutRejected(u: string, p: string, info: string)
    requires u != [] && ':' !in u && ':' !in p && ':' !in info
    requires Fits(u + ":" + (p + ";" + info + "\n"))
    requires '\0' !in u && '\0' !in p && '\0' !in info
    ensures Verdict(Entries([u + ":" + (p + ";" + info + "\n")]), u, p) == WrongPassword
  {
    var line := u + ":" + (p + ";" + info + "\n");
    SemicolonLayoutFields(u, p, info);
    var es := Entries([line]);
    assert |p + ";" + info + "\n"| > |p|;
    FirstEntryDecides(es, u, p, 0);
  }

  /**
   * A well-formed line for u settles every request for u, whatever comes
   * after it (another line for u included): only its password is accepted,
   * and its info is what the welcome shows. The line is shorter than
   * BUF_SIZE, so apr_file_gets reads it as one chunk.
   */
  lemma WellFormedLineSettlesUser(u: string, pw: string, info: string, later: seq<string>, p: string)
    requires u != [] && pw != [] && info != []
    requires Fits(u + ":" + (pw + ":" + (info + ";" + "\n")))
    requires ':' !in u && ':' !in pw && ';' !in info
    requires '\0' !in u && '\0' !in pw && '\0' !in info
    ensures Verdict(Entries([u + ":" + (pw + ":" + (info + ";" + "\n"))] + later), u, p)
            == if p == pw then Success(Some(info)) else WrongPassword
  {
    var first := [u + ":" + (pw + ":" + (info + ";" + "\n"))];
    ColonLayoutParses(u, pw, info);
    EntriesAppend(first, later);
    FirstEntryDecides(Entries(first), u, p, 0);
    VerdictAppend(Entries(first), Entries(later), u, p);
  }
}
