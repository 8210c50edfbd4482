# mod_auth_example in Dafny

A model of mod_auth_example, an Apache httpd 2.4 module that authenticates a
user against a plaintext logins file, and the proofs about it. A request
names a `user` and a `passwd` in its query string. The handler does four
things in order:

1. It checks both configured files with `apr_stat`: 403 when a stat call
   fails (a missing path included), 404 when both succeed but one reports
   no file (`APR_NOFILE`) or a directory.
2. It chooses between flush mode (dump the logins file), verification, and
   a 511 for missing credentials.
3. It reads the logins file chunk by chunk with `apr_file_gets` and cuts
   each chunk with `strtok`.
4. On the first chunk whose user token is `user`, it either welcomes the
   user or reports a wrong password. In the second case it appends one audit
   record to the log file.

Each configuration section (`<Directory>`, `<Location>`) has its own
`auth_ex_cfg`. `create_dir_conf` creates it, `merge_dir_conf` merges it with
the enclosing section's, and three directives fill it.

The model has six modules:

- `Options`: the optional value that stands for a NULL pointer.
- `CLib`: the C library routines the module relies on.
  - `strcmp` and `strcasecmp`, reduced to the sign of their result.
  - The C string a buffer holds (`CStr`).
  - `strtok` with a one-character delimiter set, including its skipping of
    leading delimiters and the text a later call resumes at.
  - A reference description of a split (`SplitAt`), proved to pin down
    `strtok`'s result exactly.
- `AuthConfig`: `auth_ex_cfg` as the class `DirConfig`.
  - Its fields are updated in place by the directive handlers.
  - `create_dir_conf` is its constructor and `merge_dir_conf` is the static
    method `Merge`.
- `LoginLine`: what the three `strtok` calls cut from one chunk (`ParseLine`)
  and the iteration's `strtok`/`strcmp` steps on it (`MatchLine`).
  - Which layouts of a line authenticate as intended.
- `Verdicts`: verification mode stated on values.
  - The fields of every chunk in file order.
  - The first entry naming the user and the verdict it gives.
  - The audit record.
  - Lemmas on how the verdict behaves when more lines follow.
- `AuthHandler`: the request handler.
  - The file system is a `FileView`: the two stat results, whether each open
    succeeds, and the chunks of the logins file.
  - The page is an `Outcome`.
  - The log file is a `LogFile` object that the handler appends to.
  - `Respond` and `AuditTrail` state the answer and the log writes as
    functions of the request. The `AuthExampleHandler` method, with its
    while loop `ScanLogins`, is proved to produce exactly those.

The handler's `while` loop tests `flush_mode` inside its body. `ScanLogins`
keeps that shape. The body of one verification iteration is the method
`CheckEntry`: the `strtok`/`strcmp` calls, the message, and the audit write.
The handler's `user_found` flag is `verdict.Some?`.

## Model

| member | source | states |
|---|---|---|
| `AuthHandler.AuthExampleHandler` | mod_auth_example.c:92-273 | The status and page are `Respond`'s. The log gains exactly `AuditTrail`'s records, at its end, and nothing else. The present `user` and `passwd` are C strings, without NUL. |
| `AuthHandler.Respond` | mod_auth_example.c:119-272 | 403 exactly when a stat call fails. 404 exactly when both succeed but a target is `APR_NOFILE` or `APR_DIR`. Both are decided before the query is looked at. 511 exactly when the files are usable, the flag is off and `user` or `passwd` is missing. Flush mode exactly when the flag is on and one of them is missing. It dumps the echoed chunks, or nothing when an open fails. With both credentials, the verdict of the logins file, or "no such user" with OK when an open fails. |
| `AuthHandler.AuditTrail` | mod_auth_example.c:240-256 | At most one record. It is present exactly when the answer is "wrong password", and it is then the record for `user` and `passwd`, cut to 255 bytes when it does not fit. No other path writes, so 403, 404, 511, flush mode, success and an unknown user leave the log untouched. |
| `AuthHandler.Usable` | mod_auth_example.c:122-123 | A stat result the handler goes on with: neither `APR_NOFILE` nor `APR_DIR`. |
| `AuthHandler.ScanLogins` | mod_auth_example.c:200-260 | In flush mode: every chunk echoed in file order, no verdict, and the log unchanged. In verification: a verdict exactly when some entry names the user, equal to `Verdict` of the entries. The log gains one record exactly when that verdict is "wrong password". |
| `AuthHandler.CheckEntry` | mod_auth_example.c:214-257 | On chunk i: no verdict and nothing written when its user token is not `user`. Otherwise success with its info token when its password token equals `passwd`. Otherwise "wrong password" with exactly one audit record appended. |
| `AuthHandler.LogFile.Write` | mod_auth_example.c:253-254 | An append-mode write adds the record whole, at the end, and changes nothing before it. |
| `LoginLine.MatchLine` | mod_auth_example.c:214-228 | The user token equals `user` exactly when `ParseLine` finds that user. When it does, the password matches exactly when the parsed password is `passwd`. The info returned on success is the parsed info token. |
| `LoginLine.ParseLine` | mod_auth_example.c:217-228 | A password token is looked for only after a user token, and an info token only after a password token. |
| `LoginLine.ParseLineFields` | mod_auth_example.c:217-228 | Every field present is nonempty and holds neither NUL nor the delimiter that ended it. |
| `LoginLine.ColonLayoutParses` | mod_auth_example.c:217-228 | A line `user:password:info;` followed by its newline gives exactly those three fields. |
| `LoginLine.SemicolonLayoutFields` | mod_auth_example.c:223 | In a line `user:password;info`, the password token runs on to the end of the line, newline included, and there is no info token. |
| `LoginLine.ColonlessLineIsUserOnly` | mod_auth_example.c:217 | A line without ':' is read whole, newline included, as the user token, with no password. It is not skipped. |
| `Verdicts.FirstMatch` | mod_auth_example.c:217-222 | The index of an entry whose user token is `u`, with no earlier such entry. None exactly when no entry names `u`. |
| `Verdicts.Verdict` | mod_auth_example.c:220-257 | Always success, "wrong password" or "no such user". "No such user" exactly when no entry names the user. |
| `Verdicts.FirstEntryDecides` | mod_auth_example.c:220-238 | When entry k is the first naming u, it is the match. The verdict is then success with its info when its password token equals p, else "wrong password". |
| `Verdicts.FirstMatchAppend` | mod_auth_example.c:200-222 | The first match in a + b is a's first match. When a has none, it is b's first match shifted past a. |
| `Verdicts.VerdictAppend` | mod_auth_example.c:200-260 | Verification stops at the first entry for the user. Once a names u, whatever follows is irrelevant. When a does not, a's entries count as if absent. |
| `Verdicts.EntriesAppend` | mod_auth_example.c:200 | Chunks read back to back give their entries back to back. |
| `Verdicts.WellFormedLineSettlesUser` | mod_auth_example.c:217-257 | A well-formed line for u, shorter than 256 bytes so that it is read as one chunk, decides every request for u, whatever lines follow, including later lines for u. Exactly its password is accepted, with its info. |
| `Verdicts.SemicolonLayoutRejected` | mod_auth_example.c:223-257 | A file whose line for u, shorter than 256 bytes, has the layout `user:password;info` rejects u's own password as wrong. |
| `Verdicts.AuditRecord` | mod_auth_example.c:250-251 | The record's length is the two credentials' plus the 29 bytes of fixed text. |
| `Verdicts.AuditRecordOverflows` | mod_auth_example.c:250-251 | As written: once user and passwd total more than 226 bytes, the record and its NUL do not fit the 256-byte buffer `sprintf` writes into. |
| `Verdicts.BoundedAuditRecord` | mod_auth_example.c:250-254 | Corrected: the record written fits the buffer and is a prefix of the full record. It is the whole record when that fits, otherwise its first 255 bytes. |
| `Verdicts.ShortCredentialsLoggedWhole` | mod_auth_example.c:250-254 | Credentials totalling at most 226 bytes are logged in full. |
| `Verdicts.Echo` | mod_auth_example.c:205 | Flush mode prints one string per chunk, in file order. Each is a NUL-free prefix of its chunk. |
| `Verdicts.Entries` | mod_auth_example.c:200-228 | One entry per chunk `apr_file_gets` reads, in file order. |
| `Verdicts.EchoVerbatim` | mod_auth_example.c:202-206 | When no chunk holds a NUL, flush mode prints every chunk exactly as read, in file order. |
| `CLib.CStrPrefix` | mod_auth_example.c:215 | The C string in a buffer is its longest NUL-free prefix: it holds no NUL, it is a prefix, and it stops at a NUL or at the end. |
| `CLib.CStrWhole` | mod_auth_example.c:205 | A buffer without NUL is read back whole. |
| `CLib.StrCmp` | mod_auth_example.c:220 | The result is -1, 0 or 1, and it is 0 exactly when the two strings are equal. |
| `CLib.StrCaseCmp` | mod_auth_example.c:413 | The result is -1, 0 or 1, and it is 0 exactly when the two strings are equal after `tolower`. |
| `CLib.CStr` | mod_auth_example.c:205-215 | The C string a buffer holds, as `%s` prints it and `strcpy` copies it: never longer than the buffer (its other properties are `CStrPrefix`'s). |
| `CLib.Strtok` | mod_auth_example.c:217-228 | Every `strtok` call with a one-character delimiter: a token, when there is one, is nonempty, and the text a later call resumes at is shorter than the text given. |
| `CLib.StrtokNull` | mod_auth_example.c:217 | `strtok` returns NULL exactly when nothing but delimiters is left. |
| `CLib.StrtokSplits` | mod_auth_example.c:223 | What `strtok` returns is a split: skipped delimiters, then a nonempty delimiter-free token, then the end of the string or one delimiter followed by the text a later call resumes at. |
| `CLib.StrtokExact` | mod_auth_example.c:223 | Any split of that shape is the one `strtok` returns, so a split determines its result. |
| `CLib.StrtokTokenClean` | mod_auth_example.c:228 | A token never holds its delimiter. |
| `CLib.StrtokKeepsOut` | mod_auth_example.c:228 | A character absent from the text is absent from the token and from the text that remains. |
| `CLib.StrtokLeading` | mod_auth_example.c:217 | A token followed by its delimiter is cut off, and the next call resumes right after the delimiter. |
| `CLib.StrtokWhole` | mod_auth_example.c:223 | A text without the delimiter is one token with nothing left after it. |
| `CLib.SkippedAreDelims` | mod_auth_example.c:217 | Everything `strtok` skips before a token is a delimiter. |
| `CLib.TokenHasNoDelim` | mod_auth_example.c:217 | Nothing inside a token is its delimiter. |
| `AuthConfig.DirConfig.constructor` | mod_auth_example.c:294-318 | The section name, or "Undefined context" when Apache gives none. The two fixed default paths. Flush off. |
| `AuthConfig.DirConfig.Unset` | mod_auth_example.c:294-318 | Corrected creation: the same, except that both paths are left empty, meaning "not set in this section". |
| `AuthConfig.DirConfig.Merge` | mod_auth_example.c:329-349 | A fresh configuration named "Merged configuration". Each path comes from the inner section unless that one is empty, and then from the enclosing section. Flush is the inner section's and is never inherited. The paths are set when either input's are. |
| `AuthConfig.DirConfig.LoginsFile` | mod_auth_example.c:335-339 | Corrected, part of the corrected half of the first finding: under the inheritance rule of `Unset`, the logins file is the path a section set, else the default. It is never empty. The code as written uses the stored path as it is. |
| `AuthConfig.DirConfig.LogsFile` | mod_auth_example.c:335-340 | Corrected, part of the corrected half of the first finding: under the inheritance rule of `Unset`, the log file is the path a section set, else the default. It is never empty. The code as written uses the stored path as it is. |
| `AuthConfig.DirConfig.SetLoginsPath` | mod_auth_example.c:356-372 | The logins path becomes the argument. Nothing else changes. |
| `AuthConfig.DirConfig.SetLogsPath` | mod_auth_example.c:379-395 | The log path becomes the argument. Nothing else changes. |
| `AuthConfig.DirConfig.SetFlush` | mod_auth_example.c:402-417 | Flush mode is on exactly when the argument is "allow" in any case. Nothing else changes. |
| `AuthConfig.AllowsFlush` | mod_auth_example.c:413 | The arguments that turn flush mode on: "allow" in any case. |
| `AuthConfig.FlushDirectiveArguments` | mod_auth_example.c:413 | "allow", "Allow" and "ALLOW" turn flush mode on. "deny", "allowed" and the empty string do not. |
| `AuthConfig.ScopeWithoutPathsGetsDefaults` | mod_auth_example.c:305-346 | As written: a section that only sets `AuthExampleFlush allow` ends up with the default paths, whatever paths its enclosing section set. |
| `AuthConfig.ScopeWithoutPathsInherits` | mod_auth_example.c:335-346 | Corrected: such a section uses exactly the files of its enclosing section, with flush on. |

Behaviour of the code a reader may not expect:

- **Line format.** The code parses the format `user:password:info;`. The
  password token is cut at ':' and the info token at ';'. So a line
  `alice:secret;VIP` rejects `secret`, because the password token is
  `secret;VIP` plus the newline.
- **Flush mode.** It needs the flag and at least one of `user` and
  `passwd` missing.
- **Open failures.** A failed open of either file does not fail the
  request: verification answers "no such user" and flush mode dumps
  nothing, both with status OK.
- **Lines without ':'.** They are not skipped. The whole chunk, newline
  included, becomes the user token.

## Left out

- The handler-name check (mod_auth_example.c:99-100), the directive table,
  the module record and hook registration are Apache glue with no logic of
  their own.
- `ap_get_module_config`, `ap_args_to_table` and `apr_table_get` are left
  out. The configuration, `user` and `passwd` are inputs.
- `apr_stat`, `apr_file_open` and `apr_file_gets` are not modelled as I/O.
  Their results are the inputs in `FileView`. Chunks are given as they are
  read, so the 255-byte chunking of long lines is not modelled, and a chunk
  in the model has no length bound.
- The HTML the handler prints is not modelled. It is reduced to the
  `Outcome` it reports.
- The file handles are not modelled. That includes closing them, and the
  logins file staying open when the log file fails to open.
- A partial or failed `apr_file_write` is not modelled: an append always
  adds the whole record.
- Concurrent requests and whether appends are atomic are not modelled. The
  model is sequential and each append is indivisible.
- The model never has `apr_pcalloc` return NULL, so the setters' NULL
  checks on the configuration are not modelled.
- `AuthConfig.DirConfig.constructor` requires the section name to fit in
  256 bytes. The C copies it with `strcpy` and overflows past that.
- `AuthConfig.DirConfig.Unset` carries the same precondition as the
  constructor.
- `AuthConfig.DirConfig.SetLoginsPath` requires the argument to fit in 256
  bytes, which `strcpy` does not check.
- `AuthConfig.DirConfig.SetLogsPath` requires the argument to fit in 256
  bytes, which `strcpy` does not check.
- `AuthHandler.AuditTrail` and `AuthHandler.AuthExampleHandler` log the
  record through the bounded write of the second row under "## Findings".
  When `user` and `passwd` total more than 226 bytes, the log gets the
  record cut to 255 bytes. The code as written overflows `aux_buf` there
  instead.
- `AuthConfig.DirConfig.Merge` requires both inputs to hold fitting
  strings. Configurations built through the constructor and the setters
  always do.

## Findings

| source | as written | input that shows it | evidently intended | confidence | as-written member | corrected member |
|---|---|---|---|---|---|---|
| mod_auth_example.c:305-340 | `create_dir_conf` fills both paths with the defaults. So `merge_dir_conf`'s "inherit when empty" test holds only when a section sets an empty path, and an inner section that sets no path gets the defaults, not its enclosing section's paths. | An enclosing section with `AuthExampleLoginsPath /srv/auth/logins`, and an inner section with only `AuthExampleFlush allow`. | The inner section uses `/srv/auth/logins`, as the comment at lines 335-338 says. | high; not executed | `AuthConfig.ScopeWithoutPathsGetsDefaults` | `AuthConfig.ScopeWithoutPathsInherits` |
| mod_auth_example.c:250-251 | `sprintf` formats the audit record into the 256-byte `aux_buf`. `user` and `passwd` come from the query string and are not bounded. | `user` and `passwd` totalling 227 bytes or more: the record plus its NUL takes 257 bytes or more. | A bounded write (`snprintf` with `BUF_SIZE`) that logs the record cut to 255 bytes. | high; not executed | `Verdicts.AuditRecordOverflows` | `Verdicts.BoundedAuditRecord` |
