# nexpanel website lifecycle, modelled in Dafny

nexpanel is a Node.js hosting panel. Its `websites` routes create, start,
stop, restart and delete sites. A site is a row in a SQLite table plus
state on the machine: a document root under `/var/www`, an nginx virtual
host, a php-fpm pool or a pm2 process. The routes drive the services that
change that state. This project models the routes and those services, and
the smaller services of the panel: files, git, cron, firewall,
certificates, Redis, monitoring and PHP extensions. It then proves what each
operation does.

## Structure

One module per source file, plus three shared ones.

- `World` (world.dfy) is the machine.
  - `World.Host` is a class whose fields are the state the services change: nginx `available` files and `enabled` links, php-fpm `pools`, pm2 `processes`, `siteDirs` and the `www-data` `crontab`.
  - Every shell command, and every file-system call outside src/services/files.js, is a `Cmd`, appended to `log`.
  - Its answer comes from `shell`, a function of the call and its position in the log, which stands for the operating system. So every contract is stated for all possible answers.
  - `parseManifest` stands for `JSON.parse` of a `package.json`.
- `Text` (text.dfy) holds JavaScript's string operations on `seq<char>`: `split`, `join`, `trim`, `includes`, `indexOf`, `toLowerCase` (on ASCII letters), and `Number` on decimal digits.
- `Shell` (shell.dfy) holds the `runAsUser` quoting (`sudo -u www-data bash -c '…'`), what bash reads back from it, and what the `echo` built into `/bin/sh` prints. `/bin/sh` is taken to be dash, as on the Debian-family systems the services target (they install packages with `apt-get`, src/services/php_extensions.js:55); dash's `echo` reads backslash escapes.
- `Websites` (websites.dfy) is the route file.
  - `Websites.Panel` holds the `websites` table as a map from id to row, next to the host.
  - `Panel.Valid()` is the table invariant `TableOk`: unique names, distinct ports, and rows that create could have inserted.
  - Every handler keeps `Valid()`.
- `Validation`, `Nginx`, `PhpFpm`, `NodeJs`, `Python`, `Git`, `Files`, `Cron`, `Security`, `Ssl`, `Redis`, `Monitoring` and `PhpExtensions` each model one service file.
  - Loops in the source are `while` loops proved against a function of the inputs and the log position.
  - Parsers are functions, with round-trip lemmas against the format the command prints.
  - `Files.Disk` is a class holding the file system as a map from absolute path to node. Its calls are not answered by the oracle; `Files.StatError` gives ENOTDIR for a path below a regular file and ENOENT for a missing one.

### Quirks reproduced as written

Each quirk has a lemma that exhibits it.

- The route's name check (2–50 characters) and the shared validator (3–63) disagree.
- The file manager's guard is the string test `startsWith('/var/www')`, which `/var/www-x` passes.
- `detectFramework` always picks django, because its `grep … || echo ""` always prints something.
- A site without `requirements.txt` fails to start as a Python app.
- Restarting a PHP site reloads the 8.2 daemon whatever its version.
- `removePool` unlinks the unsanitised name, so a pool written under a sanitised name is not removed.
- Deleting a site whose stop fails answers 500 and keeps the row. A failed pool step of create leaves the vhost in place.
- A php site created without `php_version` gets an nginx vhost that forwards to `/run/php/phpundefined-fpm-<name>.sock`, while its pool listens on the 8.2 socket (`Websites.PhpSocketsAgree`).
- Delete leaves `/var/www/<name>` on disk.
- Restart never updates the row. Restarting a stopped Node.js or Python site starts it and registers its process, while the row stays `stopped` (`Websites.Panel.Restart`, `Websites.RestartRegisters`).
- A Node.js or Python start whose `pm2 save` fails answers 500 and leaves the row stopped, but `pm2 start` has already registered the process (`NodeJs.SaveFailureKeepsProcess`, `Python.SaveFailureKeepsProcess`, `Websites.Panel.Start`). Delete stops only a running row, so deleting that row leaves the process registered (`Websites.DeleteSkipsStoppedRow`, `Websites.Panel.Delete`).
- Cron save pipes the list through `echo`, which turns `\n` in a job into a line break stops at `\c`, and prints `\0` as a zero byte (`Shell.EchoBreaksLine`, `Shell.EchoStopsAtC`, `Shell.EchoKeepsZero`). A job holding a backslash is therefore not installed as written.

## Model

| member | source | states |
|---|---|---|
| World.Host.Exec | src/services/nginx.js:31 | a call is appended to the log and answered by the oracle at its position |
| World.Host.ExecAll | src/services/git.js:62-66 | sequential awaited calls stop at the first rejection, whose message is returned; the log holds exactly the calls made |
| World.RunUntilError | src/services/git.js:62-66 | a run never makes more calls than it was given, and a run without error made them all |
| World.RunUntilErrorMeaning | src/services/git.js:62-66 | a run succeeds exactly when every call succeeds; a failed run stops right after its first failed call, with that call's message |
| World.FirstError | src/services/nginx.js:39-45 | the first failing step of a `try` block: none exactly when every step passes, else the earliest failing index and its message |
| World.FirstErrorAppend | src/services/nginx.js:39-45 | the first error of two blocks of steps is the first of the first block, or else the first of the second, shifted |
| Shell.EscapeQuotes | src/services/nodejs.js:8 | `'` becomes `'\''`; the result is never shorter than the command |
| Shell.QuoteArgRoundTrip | src/services/nodejs.js:6-11 | bash reads `'<escaped cmd>'` back as exactly the original command, whatever quotes it contains |
| Shell.ReadEscaped | src/services/python.js:7-10 | the escaped text followed by the closing quote reads as the command, then whatever follows |
| Shell.OctalRun | src/services/cron.js:30 | the octal digits an `echo` escape takes: at most the bound (three for `echo`), all octal, and at least one when the text starts with an octal digit |
| Shell.EchoRunPlain | src/services/cron.js:30 | `echo` prints text without a backslash as it is, before whatever follows it |
| Shell.EchoPlain | src/services/cron.js:30 | `echo` prints text without a backslash as it is, and a newline |
| Shell.EchoBreaksLine | src/services/cron.js:30 | a `\n` in the argument comes out as a line break |
| Shell.EchoStopsAtC | src/services/cron.js:30 | a `\c` in the argument ends the output there, with no newline |
| Shell.EchoKeepsZero | src/services/cron.js:30 | a `\0` in the argument prints a zero byte and the rest of the text follows it |
| Validation.ValidNameIsSafe | src/utils/validation.js:1-5 | a valid website name has no shell metacharacter, no dot and no slash |
| Validation.DomainOfLabels | src/utils/validation.js:7-11 | any labels of 1 to 63 characters with no hyphen at either end, followed by a 2–63 letter top-level domain, form a valid domain |
| Validation.ValidDomainIsSafe | src/utils/validation.js:7-11 | a valid domain has no shell metacharacter |
| Validation.ValidBranchIsSafe | src/utils/validation.js:13-19 | a valid branch has no shell metacharacter and no two dots in a row |
| Validation.NoDoubleDot | src/utils/validation.js:17 | a string with no two adjacent dots passes the `includes('..')` test |
| Validation.ScpSplitUnique | src/utils/validation.js:25 | the user, host and path of an scp-style address are fixed by the first `@` and the first `:` after it |
| Validation.SchemeUrlOf | src/utils/validation.js:25 | each of the four schemes followed by a non-empty run of URL characters is accepted |
| Validation.ScpUrlOf | src/utils/validation.js:25 | `user@host:path` with a plain user and host is accepted |
| Validation.NameExamples | src/utils/validation.test.js:6-12 | the repository's name test cases hold, both accepted and refused |
| Validation.DomainExamples | src/utils/validation.test.js:15-17 | `example.com`, `sub.example.com` and `localhost` are valid domains |
| Validation.SubdomainExample | src/utils/validation.test.js:16 | `sub.example.com` is a valid domain |
| Validation.DomainCounterExamples | src/utils/validation.test.js:18-19 | `example` and `;ls` are refused |
| Validation.BranchExamples | src/utils/validation.test.js:22-24 | `main` and `v1.0` are valid branches |
| Validation.SlashBranchExample | src/utils/validation.test.js:23 | `feature/foo` is a valid branch |
| Validation.BranchCounterExamples | src/utils/validation.test.js:25-26 | `../foo` and `foo;bar` are refused |
| Validation.RepoUrlCounterExample | src/utils/validation.test.js:32 | a URL carrying `;` is refused |
| Websites.ParseRuntime | src/routes/websites.js:30-32 | a runtime is recognised exactly when it is `php`, `nodejs` or `python` |
| Websites.Push | src/routes/websites.js:13-37 | `errors.push` after a failed check: the list is empty only if it was and the check passed, and holds exactly the old messages plus this one when the check failed |
| Websites.ValidationErrorsMeaning | src/routes/websites.js:9-40 | a request is refused exactly when one of the six checks fails, and each message is present exactly when its own check failed |
| Websites.PushSix | src/routes/websites.js:9-40 | six pushes of distinct messages give the empty list exactly when nothing failed, and a message exactly when its check failed |
| Websites.MessagesDistinct | src/routes/websites.js:14-36 | the six validation messages are pairwise different |
| Websites.ValidateWebsiteInput | src/routes/websites.js:9-40 | the loop-free check sequence pushes the messages of `ValidationErrors`, in check order |
| Websites.AllocatePort | src/routes/websites.js:293-301 | the port is the least port from 3000 on that no row holds; there is none exactly when all of 3000–65535 are held |
| Websites.NameCheckShortDisagreement | src/routes/websites.js:13-18 | `ab` passes the route's name checks and fails the shared validator |
| Websites.NameCheckLongDisagreement | src/routes/websites.js:16-18 | names of 51 to 63 allowed characters pass the shared validator and fail the route |
| Websites.AcceptedNamePoolRemovable | src/routes/websites.js:110-112 | for a name the route accepts, the pool create writes is one delete removes |
| Websites.PhpSocketsAgree | src/services/nginx.js:75 | nginx forwards to the socket the pool listens on exactly when a PHP version was given |
| Websites.AcceptedRowOk | src/routes/websites.js:94-97 | an accepted request with its allocated port makes a row the table invariant admits |
| Websites.Panel.constructor | src/routes/websites.js:94-97 | an empty table whose first id is 1, over the given host |
| Websites.Panel.Screen | src/routes/websites.js:72-91 | the refusal before any change is the validation 400, the duplicate 409 or the port 500, in that order; with none, the request is accepted, the name is free and the port is the least free one (none for php) |
| Websites.Panel.Insert | src/routes/websites.js:94-99 | the row is inserted under the next id, with status `stopped`, and the table invariant is kept |
| Websites.Panel.MakeSiteDir | src/routes/websites.js:102-104 | `mkdir -p` then `chown` of `/var/www/<name>`, stopping at the first failure; the directory is recorded when `mkdir` succeeded |
| Websites.Panel.Configure | src/routes/websites.js:107-112 | the vhost, then for php the pool of `php_version` or 8.2; the result is whether both steps succeeded, and the vhost is in place after a failed pool step; on success the calls are the vhost's four, then the pool file's write and its daemon's reload |
| Websites.Panel.CreatePool | src/routes/websites.js:110-112 | `createPool(name, php_version || '8.2')`: success exactly when its calls succeed, and the pool file exists exactly then; on success the calls are the pool file's write, then its daemon's reload |
| Websites.Panel.Provision | src/routes/websites.js:101-119 | success exactly when every provisioning call succeeds; then the calls were `mkdir`, `chown`, the vhost's and for php the pool's, the site directory exists, the vhost of the runtime is written and linked, and a php site has its pool |
| Websites.Panel.Create | src/routes/websites.js:69-124 | a refusal changes nothing: no row, no call, no directory, vhost or pool; otherwise the row is inserted under the next id and kept, and the reply is 201 with that id exactly when provisioning succeeded (the calls were then directory, vhost and for php pool, and the site has its directory, its vhost written and linked, and for php its pool), else 500 |
| Websites.Panel.RunStart | src/routes/websites.js:144-151 | the start of the row's runtime: Node.js start, Python start with the row's port, or for php `createPool` (write the pool file, then reload its daemon, the file removed on failure); the calls made, the process registered (none for php) and, for php, the pool file present exactly when the start succeeded; node and python never touch pools |
| Websites.StartedRegisters | src/routes/websites.js:144-151 | a node or python start that succeeded registered a process; the php start never registers one |
| Websites.Panel.RunStop | src/routes/websites.js:179-185 | the stop of the row's runtime; php makes no call; the pm2 process goes exactly when its delete succeeded |
| Websites.Panel.Start | src/routes/websites.js:137-159 | unknown id: 404 and nothing changes (no call, process table and pools as they were); otherwise the runtime's start calls are made and its process registered (php: its pool file written), and the row is marked running exactly when the start succeeded; a started node or python site then has its process registered, a started php site its pool |
| Websites.Panel.Stop | src/routes/websites.js:172-191 | unknown id: 404, no call, and the process table as it was; otherwise the stop's calls are made, the pm2 process goes exactly when its `pm2 delete` succeeded (never for php), and the row is marked stopped exactly when its runtime stopped (always, for php) |
| Websites.Panel.RunRestart | src/routes/websites.js:210-227 | php: the one reload of the 8.2 daemon, whose outcome is the result, and the process table as it was; node and python: the stop's calls, the process dropped when `pm2 delete` succeeded, then, unless the stop failed, the start's calls from where the stop's end, its result and its registration; a success leaves a node or python process registered; pools never change |
| Websites.RestartRegisters | src/routes/websites.js:218-222 | a node or python restart that succeeded leaves the site's process registered |
| Websites.Panel.Restart | src/routes/websites.js:204-232 | unknown id: 404, no call, process table as it was; otherwise what `RunRestart` does, with 200 exactly when it succeeded and 500 otherwise; a 200 leaves a node or python process registered; pools and the row are never changed |
| Websites.Panel.RunDelete | src/routes/websites.js:252-264 | the stop of a running row, then, unless it failed, the teardown: the calls are those two parts in order; the vhost is gone exactly when the stop succeeded and untouched otherwise; the pools lose every version of the site's pool exactly when a php delete succeeded; the process table loses the site exactly when the row was running and `pm2 delete` succeeded |
| Websites.Panel.Delete | src/routes/websites.js:245-279 | unknown id: 404 and no call, process table, pools or vhost changed; a running site is stopped first; the row goes exactly when the stop and the nginx reload succeed; the calls are the stop's then the teardown's; the vhost is gone whenever the stop succeeded and untouched when it failed; the pools lose every version of the site's pool exactly when a php delete succeeded; the process table loses the site exactly when it was running, not php, and `pm2 delete` succeeded, and is otherwise unchanged |
| Websites.DeleteSkipsStoppedRow | src/routes/websites.js:252-256 | delete of a stopped row makes no stop call |
| Websites.Panel.Teardown | src/routes/websites.js:259-264 | the vhost file and link are gone; the result is the nginx reload's; the calls are the two unlinks and the reload, then `removePool`'s after a successful reload of a php site; the pools then lose every version of the site's pool and are otherwise unchanged |
| Nginx.PhpConfigShape | src/services/nginx.js:57-89 | a PHP vhost serves the domain, hands `.php` to the socket of the site's version and name, and denies `.ht*` and `.git` |
| Nginx.NodeConfigShape | src/services/nginx.js:91-114 | a Node.js vhost proxies to 127.0.0.1 at the site's port and forwards the WebSocket upgrade headers |
| Nginx.PythonConfigShape | src/services/nginx.js:116-140 | a Python vhost proxies to the site's port, forwards no upgrade header and serves `/static` from the site directory |
| Nginx.ProxyHeadNoUpgrade | src/services/nginx.js:116-124 | the shared opening of the proxy templates sets no upgrade header |
| Nginx.PythonProxyNoUpgrade | src/services/nginx.js:124-132 | the Python `location /` block sets no upgrade header |
| Nginx.PythonStaticNoUpgrade | src/services/nginx.js:134-137 | the Python `/static` block sets no upgrade header |
| Nginx.TestError | src/services/nginx.js:31-34 | `nginx -t` fails exactly when the call fails or its stderr is non-empty without the word `successful` |
| Nginx.WriteAndLink | src/services/nginx.js:25-28 | writes the file, then links it when the write succeeded; a link already there is an error |
| Nginx.TestAndReload | src/services/nginx.js:31-37 | the test, then the reload only if the test passed; the error is the first one |
| Nginx.RunVhostSteps | src/services/nginx.js:25-37 | the four steps run until the first failure, whose message is returned |
| Nginx.CreateVhost | src/services/nginx.js:9-46 | success leaves the rendered template written and linked; any failure removes the file and the link (even one there before) and rethrows the first step's error |
| Nginx.RollBackVhost | src/services/nginx.js:40-45 | unlinks the file, then the link, ignoring failures; both are gone |
| Nginx.RemoveVhost | src/services/nginx.js:48-55 | the link and the file are gone whatever happens; the only error is the reload's |
| PhpFpm.SanitizeName | src/services/php-fpm.js:9-12 | the result holds only `[a-zA-Z0-9_-]` and is no longer than the name |
| PhpFpm.SanitizeKeepsOrder | src/services/php-fpm.js:9-12 | sanitising works character by character, keeping the allowed ones in order |
| PhpFpm.SanitizeIdentity | src/services/php-fpm.js:9-12 | a clean name is unchanged, so sanitising twice is sanitising once |
| PhpFpm.PoolConfigShape | src/services/php-fpm.js:54-76 | the pool is named after the site, listens on its own socket of its version and runs under `www-data` in the site directory |
| PhpFpm.CreatePool | src/services/php-fpm.js:24-37 | writes the pool of the sanitised name and reloads that version; on either failure the file is removed and the error rethrown; the calls made are those of `PoolCalls` |
| PhpFpm.RemovePool | src/services/php-fpm.js:39-47 | for each of the four versions, unlinks the pool of the raw name and reloads, ignoring failures; no such pool is left |
| PhpFpm.ReloadPool | src/services/php-fpm.js:14-22 | reloads the given version's daemon, 8.2 when none is given; no file changes |
| PhpFpm.SwitchVersion | src/services/php-fpm.js:49-52 | `removePool` then `createPool` with the new version; the result is the create's; the calls are `removePool`'s, then `createPool`'s from where those end |
| PhpFpm.RemovePoolMissesSanitized | src/services/php-fpm.js:27 | for a name with a character outside `[a-zA-Z0-9_-]`, the pool `createPool` writes is not one `removePool` deletes |
| PhpFpm.RemovePoolFindsClean | src/services/php-fpm.js:43 | for a clean name, `removePool` deletes the pool `createPool` wrote, whatever its version |
| NodeJs.ProbeCalls | src/services/nodejs.js:44-53 | one `test -f` per candidate file, in order |
| NodeJs.FirstEntryMeaning | src/services/nodejs.js:44-53 | the entry found is the first file whose probe succeeds, all earlier probes having failed; none is found exactly when every probe fails |
| NodeJs.FindEntry | src/services/nodejs.js:44-53 | the loop stops at the first existing file and makes exactly the probes up to it |
| NodeJs.Pm2CommandNamesSite | src/services/nodejs.js:65-67 | both forms of the pm2 command name the process after the site |
| NodeJs.Prepare | src/services/nodejs.js:19-30 | a successful preparation made exactly the check, the read and the install |
| NodeJs.RunPrepare | src/services/nodejs.js:19-30 | the manifest check, read and parse and the install, each failure prefixed, as `Prepare` states |
| NodeJs.ChooseStart | src/services/nodejs.js:35-58 | the start command from the manifest, or by probing the entry files |
| NodeJs.RunProceed | src/services/nodejs.js:35-75 | from the choice of start command to the save, as `Proceed` states |
| NodeJs.RunLaunch | src/services/nodejs.js:65-70 | `pm2 start` registering the process, then `pm2 save` |
| NodeJs.Start | src/services/nodejs.js:13-76 | the calls, their order and the result are those of `StartFrom`; a successful `pm2 start` registers the site's process |
| NodeJs.StartErrorsPrefixed | src/services/nodejs.js:73-75 | every failure of start carries the same prefix |
| NodeJs.StartNeedsManifest | src/services/nodejs.js:19-75 | when the `test -f … && echo exists` check fails (as it does for an absent `package.json`) or prints no marker, only the check is made, nothing is registered and start fails with the prefixed check error or "package.json not found" |
| NodeJs.StartRegisters | src/services/nodejs.js:65-67 | a started app was registered under the site's name with the command of the priority rule |
| NodeJs.SaveFailureKeepsProcess | src/services/nodejs.js:69-70 | a `pm2 save` that fails after a successful `pm2 start` fails the start with the prefixed message while the process stays registered |
| NodeJs.StartCommandPriority | src/services/nodejs.js:35-58 | the `start` script first, then `main`, then the first entry file that exists, else no command |
| NodeJs.StopError | src/services/nodejs.js:82-86 | a failed stop is harmless exactly when its message mentions `not found`; otherwise it is prefixed |
| NodeJs.Stop | src/services/nodejs.js:78-88 | `pm2 delete` then `pm2 save`; the process goes exactly when the delete succeeded |
| Python.Detect | src/services/python.js:72-84 | django exactly when the django grep succeeds and prints something; flask when only the flask grep does; otherwise fastapi |
| Python.DetectAlwaysDjango | src/services/python.js:74 | with the `|| echo ""` fallback the django grep always prints, so django is always chosen |
| Python.DetectFramework | src/services/python.js:72-84 | the two greps, stopping at the first that decides, as `Detect` states |
| Python.GunicornServes | src/services/python.js:35-37 | a gunicorn launch binds 127.0.0.1 at the port and serves the callable it names |
| Python.LaunchCommandBinds | src/services/python.js:33-40 | every framework's launch serves on 127.0.0.1 at the site's port, with that framework's entry point |
| Python.Prepare | src/services/python.js:21-27 | a successful preparation made exactly the chown, the venv and the requirements calls |
| Python.RunPrepare | src/services/python.js:21-27 | the three preparation steps, stopping at the first failure |
| Python.RunLaunch | src/services/python.js:43-44 | `pm2 start` registering the process, then `pm2 save` |
| Python.Start | src/services/python.js:12-50 | the calls, their order and the result are those of `StartFrom` |
| Python.RunProceed | src/services/python.js:30-44 | from the framework detection to the save, as `Proceed` states |
| Python.StartErrorsPrefixed | src/services/python.js:47-49 | every failure of start carries the same prefix |
| Python.RequirementsFailureFailsStart | src/services/python.js:27 | when the requirements step fails, for example with no `requirements.txt`, start fails and nothing is registered |
| Python.StartRegisters | src/services/python.js:43 | a started app is registered under the site's name with the detected framework's launch |
| Python.SaveFailureKeepsProcess | src/services/python.js:43-44 | a `pm2 save` that fails after a successful `pm2 start` fails the start with the prefixed message while the process stays registered |
| Python.StartAlwaysDjango | src/services/python.js:30-44 | with the fallback honoured, every started Python app is launched as django |
| Python.StopError | src/services/python.js:56-59 | a failed stop is harmless exactly when it mentions `not found` or `doesn't exist` |
| Python.Stop | src/services/python.js:52-61 | `pm2 delete` then `pm2 save`; the process goes exactly when the delete succeeded |
| Git.Sanitize | src/services/git.js:16-19 | the result holds no stripped character and no surrounding white space |
| Git.SanitizeIdempotent | src/services/git.js:16-19 | sanitising twice is sanitising once |
| Git.SanitizeClean | src/services/git.js:16-19 | a parameter with nothing to strip and no surrounding white space is kept as it is |
| Git.DefaultBranchKept | src/services/git.js:25 | the default branch `main` survives sanitising |
| Git.BranchOrMain | src/services/git.js:25 | the branch is the sanitised one, or `main` when that is empty; it is never empty |
| Git.CloneGuard | src/services/git.js:27-34 | the URL is checked before the destination; an error exactly when either fails |
| Git.CloneGuardFirst | src/services/git.js:27-34 | a clone whose URL or destination fails its guard makes no call at all |
| Git.Prefixed | src/services/git.js:67-70 | a run's error is reported behind the operation's prefix |
| Git.Clone | src/services/git.js:21-71 | a failing guard makes no call; otherwise the calls, with or without the deploy key, are made until one fails, every error prefixed |
| Git.Pull | src/services/git.js:73-92 | a path outside `/var/www/` makes no call; otherwise the pull, its error prefixed |
| Git.Push | src/services/git.js:94-110 | a path outside `/var/www/` makes no call; otherwise add, commit and push until one fails |
| Git.NonEmpty | src/services/git.js:119 | holds exactly the non-empty lines, and every line when none is empty |
| Git.ParseCommits | src/services/git.js:119-122 | one record per non-empty line |
| Git.CommitOfFormat | src/services/git.js:116-122 | a formatted line reads back as its commit |
| Git.LogRoundTrip | src/services/git.js:112-126 | parsing the log of commits whose fields hold no `|` and no newline gives one complete record per commit, in order |
| Git.SubjectCutAtBar | src/services/git.js:120 | a subject containing `|` is cut at its first `|` |
| Git.RemoveFirstStar | src/services/git.js:134 | a line without `*` is unchanged; otherwise it loses exactly one character |
| Git.NonBlank | src/services/git.js:134 | holds exactly the lines that are not blank |
| Git.ParseBranches | src/services/git.js:134 | one trimmed name per non-blank line |
| Git.BranchLines | src/services/git.js:128-138 | the marked current branch and an indented branch both read as their bare names |
| Git.GetCommitHistory | src/services/git.js:112-126 | the parsed log; `[]` with no call for a bad path, or for a failed call |
| Git.GetBranches | src/services/git.js:128-138 | the parsed branch list; `[]` with no call for a bad path, or for a failed call |
| Files.StripSlashes | src/services/files.js:15 | the relative part never starts with `/` |
| Files.NormalizeGivesNames | src/services/files.js:15 | a resolved path is made of names only: no empty, `.` or `..` segment |
| Files.ResolvePath | src/services/files.js:12-23 | an accepted path starts with the string `/var/www`; any other is refused with the access error |
| Files.ResolveFalsy | src/services/files.js:14 | a missing or empty path is the base directory |
| Files.ResolveDropsDotDot | src/services/files.js:14 | a leading `../` is dropped before anything else |
| Files.NamesUnderBase | src/services/files.js:15 | a relative path of names resolves to itself under `/var/www` |
| Files.AbsoluteIsRerooted | src/services/files.js:15 | an absolute path is re-rooted: `/etc/passwd` resolves to `/var/www/etc/passwd` |
| Files.SiblingPassesGuard | src/services/files.js:18 | `a/../../www-x` resolves to `/var/www-x`, outside `/var/www`, and passes the guard |
| Files.RootPathsRefused | src/services/files.js:125-127 | a missing path, `""`, `.` and `..` all resolve to the base directory, which delete refuses |
| Files.Utf8Size | src/services/files.js:73-76 | the UTF-8 size of a text lies between its number of characters and four times that |
| Files.StatError | src/services/files.js:25-140 | the `fs.stat` and `fs.access` calls of listFiles, readFile, createFile and deleteItem: they succeed exactly when the entry exists and no directory on the way is a regular file; a file on the way gives ENOTDIR, a missing entry ENOENT |
| Files.ReadFile | src/services/files.js:69-83 | a path outside the guard gives the bare access error; the text comes back exactly when `stat` succeeds on a file of at most 1 MiB; every other failure carries the read prefix |
| Files.ReadBelowFile | src/services/files.js:69-83 | reading `f/x` where `/var/www/f` is a file fails with the read prefix and ENOTDIR from `stat` |
| Files.WriteThenRead | src/services/files.js:69-93 | after a successful write the text reads back unchanged unless it is over 1 MiB |
| Files.MadeDirs | src/services/files.js:95-103 | the directories `mkdir -p` adds are the path and its missing ancestors |
| Files.MkdirMakesPath | src/services/files.js:95-103 | after a successful `mkdir -p` the path and every ancestor are directories and nothing else changed |
| Files.RemoveTree | src/services/files.js:132-136 | the entry and everything below it are gone, everything else is kept |
| Files.MoveTreeMeaning | src/services/files.js:142-152 | a rename puts what was at the old path at the new one, with everything below it, and leaves entries outside both trees alone |
| Files.NameLeTotal | src/services/files.js:60-63 | any two names are ordered one way or the other |
| Files.NameLeTrans | src/services/files.js:60-63 | the name order is transitive |
| Files.NameLeAntisym | src/services/files.js:60-63 | two names each ordered before the other are equal |
| Files.SortFiles | src/services/files.js:60-63 | the listing sorted directories first and by name, a permutation of the input |
| Files.PermutedListing | src/services/files.js:36-63 | a reordering of a listing still lists each child once with its own entry |
| Files.Disk.constructor | src/services/files.js:5 | a disk holding the given nodes |
| Files.Disk.ReadDirectory | src/services/files.js:34-58 | every child of the directory once, each with the kind and size `fs.stat` reports, in any order |
| Files.Disk.ListFiles | src/services/files.js:25-67 | a refused path, a failed `stat` (its ENOTDIR or ENOENT) or a file gives an error; otherwise every child once, sorted directories first and by name |
| Files.Disk.WriteFile | src/services/files.js:85-93 | the resolved path holds the text, or the write error is reported and nothing changes |
| Files.Disk.CreateDirectory | src/services/files.js:95-103 | a recursive `mkdir`: the path and its ancestors are directories, or the error leaves everything unchanged |
| Files.Disk.CreateFile | src/services/files.js:105-121 | an empty file, refused when `access` finds anything at the path, otherwise the write error (ENOTDIR, EISDIR, ENOENT) or the new file |
| Files.Disk.DeleteItem | src/services/files.js:123-140 | the base directory is refused; a failed `stat` gives its ENOTDIR or ENOENT; a directory goes with everything below it, a file alone |
| Files.Disk.RenameItem | src/services/files.js:142-152 | both paths pass the guard, the old one checked first, then the tree moves |
| Files.DeleteKeepsOthers | src/services/files.js:130-136 | deleting a directory removes everything below it and keeps every other entry |
| Cron.Collect | src/services/cron.js:51-76 | the jobs of the lines, in order, one per line that has one |
| Cron.ParseCrontab | src/services/cron.js:51-76 | the `forEach` loop collects exactly `Collect` of the lines |
| Cron.Lines | src/services/cron.js:18-20 | one serialised line per job, in order |
| Cron.SaveCommandQuotes | src/services/cron.js:29-30 | the quoted argument reaches `echo` as exactly the serialised list, so no job escapes the quotes |
| Cron.ParseSerializedLine | src/services/cron.js:18-20 | the saved line of a job made of words parses back to the job |
| Cron.WellFormedParses | src/services/cron.js:55-73 | a well-formed job's saved line parses back to the job |
| Cron.SerializeNoBackslash | src/services/cron.js:18-20 | the saved list of well-formed jobs holds no backslash |
| Cron.ParseInstalled | src/services/cron.js:17-76 | a list of well-formed jobs, installed and re-read, is the same list in the same order |
| Cron.InstalledLines | src/services/cron.js:18-30 | the text `echo` hands to `crontab -` for well-formed jobs has one line per job, then two empty lines |
| Cron.List | src/services/cron.js:6-15 | the parsed jobs of the installed crontab, or none when there is no crontab |
| Cron.Save | src/services/cron.js:17-32 | the one call is the quoted `echo` piped to `crontab -`; on success the crontab is what `echo` printed for the serialised list; its failure is rethrown |
| Cron.Add | src/services/cron.js:34-39 | the new job goes after all the listed ones and the whole list is saved |
| Cron.Remove | src/services/cron.js:41-49 | an index inside the list deletes that job and saves; any other index saves nothing and returns false |
| Cron.AddThenList | src/services/cron.js:34-39 | after a successful add of well-formed jobs, list gives the earlier jobs and then the new one |
| Cron.RemoveThenList | src/services/cron.js:41-49 | after a successful remove, list gives the other jobs in their order |
| Security.ParseUfwStatus | src/services/security.js:52-74 | the loop raises the flag on the marker and pushes the rules line by line, giving `StatusOf` |
| Security.OtherLinesIgnored | src/services/security.js:59 | a line not starting with `[` adds no rule, wherever it stands |
| Security.RulesInOrder | src/services/security.js:57-71 | the rules of consecutive blocks of lines are the rules of each, in order |
| Security.ActiveStep | src/services/security.js:58 | one more line raises the flag exactly when it holds `Status: active` |
| Security.RuleLineParses | src/services/security.js:60-68 | every rule line in the printed shape parses back to its number, target, two action words joined by a space, and trimmed source |
| Security.LineRulesOf | src/services/security.js:59-68 | a `[` line the pattern matches gives the rule of its groups |
| Security.PortValid | src/services/security.js:15 | the guard accepts exactly the non-empty strings of decimal digits |
| Security.PortGuard | src/services/security.js:15 | every port written in decimal passes the guard, and nothing with another character does |
| Security.GetStatus | src/services/security.js:5-12 | the parsed listing, or the command's error behind the status prefix |
| Security.AllowOrDeny | src/services/security.js:14-32 | a port that is not all digits is refused before any call; otherwise the rule command with `tcp` by default, its error prefixed |
| Security.DeleteRule | src/services/security.js:34-42 | `yes \| ufw delete <n>`, its error prefixed |
| Security.EnableOrDisable | src/services/security.js:44-50 | the command's own error passes through unchanged |
| Ssl.EmailAccepted | src/services/ssl.js:12 | any `local@host.tld` of non-empty plain runs passes the check |
| Ssl.EmailShape | src/services/ssl.js:12 | an accepted address has no white space and exactly one `@`, with text before it |
| Ssl.DomainShape | src/services/ssl.js:9 | an accepted domain is a non-empty word with no white space and no `/` |
| Ssl.GenerateCert | src/services/ssl.js:6-42 | a bad domain, then a bad email, is refused before any call; otherwise certbot, whose failure is prefixed; the HSTS edit and reload that follow cannot fail the call |
| Ssl.RenewCerts | src/services/ssl.js:44-51 | `certbot renew`, its failure prefixed |
| Ssl.RevokeCert | src/services/ssl.js:83-90 | `certbot delete` of the name, its failure prefixed |
| Ssl.ParseCerts | src/services/ssl.js:58-74 | the parse loop, with the certificate being filled held apart, gives `CertsOf` of the lines |
| Ssl.ListCerts | src/services/ssl.js:53-81 | the parsed certificates, or none when the command fails |
| Ssl.NamesInOrder | src/services/ssl.js:63-65 | one certificate per name line, named by it, in the order of the lines |
| Ssl.NoNamesNoCerts | src/services/ssl.js:64-74 | lines without a name line give no certificate |
| Ssl.LeadingLinesIgnored | src/services/ssl.js:66-72 | lines before the first name line set nothing |
| Ssl.BlockCert | src/services/ssl.js:62-74 | a name line and the lines after it make one certificate, filled by those lines in order |
| Ssl.SplitColons | src/services/ssl.js:65 | `split(':')[1]` is the text between the first and second colons |
| Ssl.DomainsLine | src/services/ssl.js:67 | a `Domains:` line gives the names after the colon, split on single spaces |
| Ssl.ExpiryLine | src/services/ssl.js:69 | an `Expiry Date:` line gives the date before the parenthesis, trimmed |
| Redis.ParseData | src/services/redis.js:30-36 | the loop fills exactly the dictionary `DataOf` describes |
| Redis.ParseRedisInfo | src/services/redis.js:29-48 | the six fields are looked up in the filled dictionary, each absent when its key is |
| Redis.RecordedKeys | src/services/redis.js:32-36 | a key is in the dictionary exactly when some line records it |
| Redis.LastLineWins | src/services/redis.js:36 | a key's value is the one recorded by the last line that records it |
| Redis.EntryOfLine | src/services/redis.js:34-36 | a `key:value` line records its key and the trimmed value |
| Redis.GetInfo | src/services/redis.js:5-13 | the parsed information, or none when the command fails |
| Redis.FlushAll | src/services/redis.js:15-22 | `redis-cli flushall`, its failure prefixed |
| Redis.Restart | src/services/redis.js:24-27 | the restart's own error passes through |
| Monitoring.UptimeBounds | src/services/monitoring.js:128-133 | hours below 24, minutes below 60, and the parts account for the seconds to within the last minute |
| Monitoring.FormatUptimeReads | src/services/monitoring.js:128-133 | the text reads back as the days, hours and minutes |
| Monitoring.StatusCalls | src/services/monitoring.js:56-58 | one `systemctl is-active` call per service, in order |
| Monitoring.StatusFromMeaning | src/services/monitoring.js:54-65 | for distinct services the map has exactly their keys, each holding the verdict on its own call |
| Monitoring.ServiceStatusMeaning | src/services/monitoring.js:52-66 | the five services are reported exactly, each up exactly when its own call printed `active` |
| Monitoring.CheckServices | src/services/monitoring.js:56-63 | the loop makes the status calls in order and fills the map `StatusFrom` describes |
| Monitoring.GetServiceStatus | src/services/monitoring.js:52-66 | the status map over the five services |
| Monitoring.GetTrafficStats | src/services/monitoring.js:68-90 | the three counts from the awk line, or zeros when the command fails |
| Monitoring.TrafficReads | src/services/monitoring.js:80-86 | the line awk prints reads back as its three counts |
| PhpExtensions.GetPhpVersion | src/services/php_extensions.js:11-18 | the trimmed output, or 8.2 when the call fails |
| PhpExtensions.PackageNameTail | src/services/php_extensions.js:33 | the package is `php<version>-` followed by exactly the extension's name |
| PhpExtensions.PackageNameInjective | src/services/php_extensions.js:33 | for one version, different extensions have different packages |
| PhpExtensions.Describe | src/services/php_extensions.js:32-43 | one entry per extension, in order, installed when its package is in the dpkg output and active when its name is in the lower-cased module list |
| PhpExtensions.ListedPackageInstalled | src/services/php_extensions.js:34 | a package named in the dpkg output is reported installed |
| PhpExtensions.PrintedModuleActive | src/services/php_extensions.js:35 | a module printed in any letter case is reported active |
| PhpExtensions.ListExtensions | src/services/php_extensions.js:20-46 | the version, then the dpkg and `php -m` calls; a failure of either is the error; otherwise the entries of `Describe` |
| PhpExtensions.Change | src/services/php_extensions.js:48-76 | an unknown extension is refused before any call; otherwise the apt call and the restart until one fails, the error naming the package |
| PhpExtensions.InstallExtension | src/services/php_extensions.js:48-62 | `Change` with `install` |
| PhpExtensions.UninstallExtension | src/services/php_extensions.js:64-76 | `Change` with `remove` |

## Left out

- Every shell command, every file-system call outside src/services/files.js and every `JSON.parse` of the source is answered by the oracle on `World.Host`. The model proves what the services do for every possible answer, not what the machine answers.
- `Files.Disk`: the file manager's calls act on a fixed in-memory tree, not on the oracle. They fail only for what the tree's shape gives: a missing entry (ENOENT), a regular file on the way (ENOTDIR), a directory opened as a file (EISDIR), an existing entry (EEXIST) and a rename into its own subtree (EINVAL). Permission (EACCES), full-disk (ENOSPC), read-only (EROFS) and I/O (EIO) failures never occur. When the two paths of a rename would fail for different reasons, the model's choice of errno may differ from the kernel's.
- The HTTP layer is not modelled: Fastify, authentication, the audit log, the rate limits and the GET handlers (`GET /` and `GET /:id`). The SQLite database is the `sites` map of `Websites.Panel`.
- Concurrency is not modelled: `Promise.all` in `listFiles` is sequential, and the calls of one request run in order.
- `Websites.Panel.RunStart`: for php it states the pool set and the calls, not the vhost or any other host field, which it does not change.
- `Websites.Panel.Create`: states the reply, the row and the result of provisioning, not every host field after a failed provisioning.
- `Websites.Panel.Create`: a `php_version` sent as JSON `null` passes validation as in the source, but the model reads it as absent (`None`). The vhost then names `phpundefined-fpm-<name>.sock`, where the source's template would write `phpnull-fpm-<name>.sock`.
- Delete does not remove `/var/www/<name>` (the source does not either); `siteDirs` is not reduced.
- `Files.NameLe`: `localeCompare` is replaced by code-point order on names.
- Files: `mtime` is not modelled, and a failed `fs.stat` of a single entry is not modelled. `rename` and `mkdir` follow simplified POSIX rules. A new directory reports size 4096.
- `Git.Clone`: the deploy-key file name (`Date.now()` and `Math.random()`) is a parameter. The keyed clone is given `GIT_SSH_COMMAND` through `exec`'s `env` option; the model writes it as a `GIT_SSH_COMMAND='…'` prefix of the command text. That option replaces the whole environment, so `PATH`, `HOME` and every other variable are missing in the clone; the model does not capture that.
- `Cron.List`: `crontab -l` is answered from the host's `crontab` field, so list after save reads what save installed.
- `Cron.ParseInstalled`: the round trip holds only for well-formed jobs: a five-field schedule, single-spaced command and comment, no `#` in the command, and no backslash in any field, since `echo` reads backslashes as escapes. The source gives no guarantee for other jobs.
- `Cron.InstalledLines`: holds for well-formed, and so backslash-free, jobs. For a job with a backslash, `Shell.Echo` states what `echo` prints, but no lemma counts the lines.
- `Cron.AddThenList`: holds for well-formed, and so backslash-free, jobs. For a job with a backslash, no lemma states what list reads back after the add.
- `Cron.RemoveThenList`: holds for well-formed, and so backslash-free, jobs. For a job with a backslash, no lemma states what list reads back after the remove.
- `Cron.Save`: the installed crontab is `Shell.Echo` of the serialised list, which follows dash's `echo`. A `/bin/sh` that is bash would print the list as written; that case is not modelled. `crontab`'s own checking of the installed text is not modelled: a successful call installs the text as printed.
- `Shell.Echo`: only the escapes of dash's `echo` are modelled; `-n` is not, because the argument ends with a newline and so is never exactly `-n`. An octal escape gives the character of the byte value modulo 256, not a raw byte; a value of 0 prints the zero character and the text goes on, as dash 0.5.12 does.
- `Text.Lower`: `toLowerCase` is modelled on the ASCII letters A–Z only. Other cased letters, such as `É` or `İ`, are kept as they are.
- Name and domain lengths (`Validation`, and the route's 2–50 check in `Websites`) count code points. JavaScript's `length` counts UTF-16 code units, so the two differ for characters outside the Basic Multilingual Plane.
- `Security.AllowOrDeny`: the protocol argument is not validated, as in the source.
- Monitoring: `getSystemStats`, `getCpuUsage`, `cpuAverage` and `formatBytes` are left out, because they are floating-point figures from `os`. The bandwidth is carried as a byte count, not its formatted text. `os.uptime` is taken in whole seconds.
- `Monitoring.TrafficOf`: `Number` is approximated by reading decimal digit words, and any other word reads as 0. The awk script is a constant whose output comes from the oracle, so its counting 2xx responses as errors is not modelled.
- `Ssl.ValidDomain` accepts `..` and names starting with a dot, as the source's pattern does.
- `Redis`: the JavaScript quirk where a `__proto__` key is not stored in a plain object is not modelled; every key is stored.
- `PhpExtensions.Describe`: the `php -m` check is the source's substring test, so `gd` is active whenever any module name contains `gd`. A dpkg `grep` with no match fails the call, and with it `listExtensions`, as in the source.
- The Node.js and Python `restart` and `getLogs` are not modelled. The route's restart calls stop and start directly.
- `fs.unlink` in the rollbacks and in `removeVhost`/`removePool` always removes the entry; its failure is ignored by the source.
- `NodeJs.FirstEntry`: its own contract bounds only the probe count; what the entry means is stated by `NodeJs.FirstEntryMeaning`.
- `Text.Trim`: its own contract is stated through `TrimStart` and `TrimEnd`, whose contracts say what is removed. `Text.IsSpace` is ECMAScript's white space and line terminators, listed character by character.
- The Node.js `runAsUser` and Python `runAsUser` are the single `RunAs` command form; `sudo` itself is not modelled.
