# harness-migration, modelled in Dafny

`main.py` moves applications from Harness FirstGen to Harness NextGen in three
stages. This project models the deterministic logic of each stage, with the
network, the shell and the file system replaced by inputs and recorded outputs:

- **Lister** (`get_all_applications`, module `Lister`). It pages through the
  legacy GraphQL API at offsets 0, 100, 200, … and stops at the first empty
  page, or at the first response without `data.applications.nodes` (the
  source's `KeyError` path, which keeps the records already gathered). It then
  applies the optional comma-separated name filter, or its reverse. The server
  is a sequence of replies indexed by page. Past its end the server answers an
  empty page.
- **Provisioner** (`create_next_gen_projects`, module `Provisioner`). For each
  application it does four things:
  - derives the project identifier by deleting every character outside
    `[0-9a-zA-Z]` from the name;
  - formats the colour `'#' + hex(n)[2:]` from a draw `n`;
  - posts one project payload;
  - stores the identifier on the application record in place (a class with a
    mutable `identifier` field).

  The random draws and the server's replies are inputs. The posted payloads
  and the warnings logged for `ERROR` replies are outputs.
- **Runner** (`migrate_harness`, module `Runner`). It builds the list of
  `harness-upgrade` subcommands from four flags. Then, for each application,
  it writes a ten-key configuration map to `./values-<identifier>.yaml`. Next,
  for each subcommand, it logs the re-run hint
  `harness-upgrade --load <file> <subcommand>` and runs the full command. Last,
  it logs the progress line `k applications migrated out of total`. These
  effects are recorded in order as a sequence of `Effect` values.

The subcommand list is modelled as the source writes it. In `main.py:95-96`,
the empty literal that ends the third conditional and the literal
`'workflows --all --as-pipelines'` are adjacent, so Python joins them into one
literal. The third list element is therefore `workflows --all` when the
workflows flag is set. Otherwise it is `workflows --all --as-pipelines` when
the workflows-as-pipelines flag is set, and empty when neither is. The list
never holds both workflow subcommands. `Runner.MigrationsShape` states this
outright.

Two consequences of the code as written:

- `hex` does not zero-pad (main.py:66), so draws below 0x100000 give a colour
  shorter than `#rrggbb` (`Provisioner.ColourFormat`).
- The runner needs every application to carry an identifier (in the source, a
  missing one raises `KeyError`). `main` always provisions first, so
  `Runner.MigrateHarness` requires it (`Runner.Provisioned`).

Modules: `Common` (Option, an order-preserving `Filter`, the subsequence
relation, concatenated blocks), `Applications` (the application record),
`Lister`, `Provisioner` and `Runner`.

## Model

| member | source | states |
|---|---|---|
| Applications.Application.constructor | main.py:152 | a decoded `{id name description}` node starts without an identifier |
| Common.Filter | main.py:99 | the kept elements all satisfy the test and are no more than the input (the shape of `filter(None, …)`, `re.sub` with a class, and the filter loop) |
| Lister.PageCount | main.py:155-160 | the number of pages fetched before the loop stops: every earlier page holds records, and the page at that index holds none or lacks the nodes key |
| Lister.Collected | main.py:155-159 | the records gathered by the loop: at least one per page fetched before the stop, and none exactly when the first page already stops it |
| Lister.CollectedIsLeadingPages | main.py:155-160 | the gathered records are all the records of the pages before the first empty or malformed one, in page order; later pages are never read |
| Lister.CollectsAllPages | main.py:151-160 | for a server holding N records in pages of 100, the loop gathers exactly those records in order, after ceil(N/100) non-empty pages |
| Lister.FetchPages | main.py:153-163 | queries offsets 0, 100, 200, … in order, the last one being 100 × (number of non-empty pages); returns the concatenation of the non-empty pages; reports the missing-key stop exactly when the stopping reply lacks the key |
| Lister.SplitOn | main.py:166 | `str.split(',')` never returns an empty list, and no piece contains the separator |
| Lister.JoinSplitOn | main.py:166 | joining the split pieces with the separator gives back the filter string |
| Lister.SplitOnJoin | main.py:166 | splitting a join of separator-free pieces gives back the pieces |
| Lister.NameFilter | main.py:167-170 | every kept application passes the test of main.py:168 (its name's membership in the split list differs from the reverse flag), no more than the input, and each one taken from the input |
| Lister.NameFilterKeeps | main.py:165-170 | the filtered list is an order-preserving subsequence of the input; each kept name's membership in the split list differs from the reverse flag; every application meeting that test is kept; and every order-preserving selection of applications meeting it is a selection of the result, so repeated entries are kept as often as they occur |
| Lister.NameFilterPartition | main.py:166-170 | for a fixed filter, the direct and the reverse filter together hold every fetched application exactly once |
| Lister.FilterApplications | main.py:165-172 | an empty filter string returns the list unchanged; otherwise the loop returns exactly the name-filter subsequence |
| Lister.GetAllApplications | main.py:143-174 | the records gathered by the paging loop, filtered, together with the offsets queried and the missing-key flag; the filter still runs on the pages gathered before a missing-key stop |
| Provisioner.Identifier | main.py:62 | the identifier holds only ASCII letters and digits |
| Provisioner.IdentifierIsAlnumSubsequence | main.py:62 | the identifier is a subsequence of the name, and every letters-and-digits subsequence of the name is a subsequence of it, so it is the name's alphanumeric characters in order |
| Provisioner.IdentifierIdempotent | main.py:62 | sanitising twice changes nothing, and an alphanumeric name is its own identifier |
| Provisioner.IdentifierEmpty | main.py:62 | the identifier is empty exactly when the name holds no ASCII letter or digit |
| Provisioner.Hex | main.py:66 | `hex(n)[2:]` has at least one digit, only lower-case hex digits, and no leading zero for positive n |
| Provisioner.HexRoundTrip | main.py:66 | the digits denote n |
| Provisioner.HexLength | main.py:66 | n has at most k hex digits exactly when n < 16^k |
| Provisioner.Colour | main.py:66 | the colour is `#` followed by at least one lower-case hexadecimal digit |
| Provisioner.ColourFormat | main.py:66 | for a draw in [0, 2^24), the colour is `#` then 1 to 6 lower-case hex digits denoting the draw; it has 7 characters exactly when the draw is at least 0x100000 |
| Provisioner.ProjectForFields | main.py:51-66 | the payload posted for an application: the fixed organisation and module list, an identifier that is all of the name's ASCII letters and digits in order (a letters-and-digits subsequence of the name containing every other one), the name and the description as they are, and `#` then lower-case hexadecimal digits denoting the colour draw with no leading zero, at most 7 characters for a draw below 2^24 |
| Provisioner.Warnings | main.py:68-69 | at most one warning per reply |
| Provisioner.WarningsAreErrorMessages | main.py:68-69 | the warnings are exactly the messages of the `ERROR` replies, in reply order |
| Provisioner.CreateNextGenProjects | main.py:45-73 | returns the same list; sets every application's identifier to the sanitised name; posts one payload per application in order, with the fixed organisation and module list and the application's identifier, name, description and colour; logs a warning for each `ERROR` reply; no reply drops an application |
| Runner.Migrations | main.py:92-99 | the subcommand list has at most three entries |
| Runner.MigrationsInOrder | main.py:92-99 | the list is exactly the enabled subcommands in the fixed order, `workflows --all --as-pipelines` appearing only when the workflows flag is off |
| Runner.MigrationsShape | main.py:92-99 | no entry is empty; the length is the number of enabled flags, with the two workflow flags counted once; each subcommand is present exactly when its flag asks for it; the two workflow subcommands never both appear |
| Runner.ConfigPath | main.py:103 | the file name is `./values-`, the identifier, then `.yaml`, so the identifier can be read back from it |
| Runner.ConfigEntries | main.py:103-115 | the configuration has exactly the ten keys, which are the command's option names, with `app` the application id and `project` its identifier |
| Runner.ConfigLookup | main.py:103-115 | reading the configuration in the command's option order gives the command's option values |
| Runner.ConfigRebuildsCommand | main.py:103-135 | the command is rebuilt from the configuration file's entries and the subcommand alone, which is what the `--load` re-run hint relies on |
| Runner.Command | main.py:129-132 | the command ends in its subcommand |
| Runner.CommandIsTemplate | main.py:129-132 | the command is `harness-upgrade` followed by ` --api-key <token>`, ` --project <identifier>`, ` --org`, ` --account`, ` --app <id>`, ` --secret-scope`, ` --connector-scope`, ` --template-scope`, ` --workflow-scope`, ` --env`, each with its value, in the f-string's order, then a space and the subcommand |
| Runner.Hint | main.py:135 | the re-run hint ends in its subcommand |
| Runner.HintNamesFile | main.py:135 | the hint is `harness-upgrade --load `, the application's configuration file name, a space, then the subcommand |
| Runner.CommandEffectsAt | main.py:128-136 | one hint and one command per subcommand, in list order, each command ending in its subcommand |
| Runner.AppEffectsAt | main.py:102-139 | an application's block is its configuration write, then hint and command pairs for each subcommand in order, then the progress line |
| Runner.RunnerEffectsAt | main.py:100-140 | the k-th application's block (its `AppEffects`, numbered k + 1) occupies the slice [Times(k, B), Times(k, B) + B) of the trace, where Times(k, B) is k·B counted block by block and B = 2·(number of subcommands) + 2, so each file is written before that application's commands and the counter after the k-th application is k |
| Runner.RunnerBlockAt | main.py:100-140 | the same layout as products: the trace has n·B effects for n applications, and the slice [k·B, k·B + B) is the k-th application's block |
| Runner.RunnerEndsAtTotal | main.py:139-140 | the last progress line reports the total out of the total |
| Runner.MigrateApplication | main.py:103-136 | one iteration of the runner's loop up to the progress line: the configuration write, then the hint and the command of each subcommand in list order |
| Runner.MigrateHarness | main.py:92-140 | the loop's effects are exactly the specified trace over the applications' ids and identifiers, with the subcommand list and the total count |

## Left out

- HTTP calls and JSON decoding (main.py:46-50, 67, 144-158): the legacy API's
  answers and the creation responses are inputs. The GraphQL query text, URLs
  and headers are not modelled beyond the offset each query carries.
- `run_cmd` (main.py:25-42): commands are recorded, not executed. Its output is
  ignored by the runner.
- YAML serialisation and the file write (main.py:103-116): modelled as a write
  of a key/value map to `./values-<identifier>.yaml`.
- `random.randrange` (main.py:66): the draws are a parameter, each required to
  lie in [0, 2^24).
- Logging: only the re-run hint, the progress line and the `ERROR` warnings are
  recorded. The debug, info and error lines, and the `migration_type` label
  (main.py:117-127), are left out. That label only feeds a log line, and its
  else branch is dead because the application record is always truthy.
- Argument parsing in `main` (main.py:177-314). Its defaults are:
  applications on; pipelines, workflows and workflows-as-pipelines off;
  organisation `default`; scopes account/account/account/project;
  environment `Prod`.
- Uncaught stops: network errors and a non-JSON body; a creation reply
  without `status`, or an `ERROR` reply without `message` (`KeyError` at
  main.py:68-69); a listing reply whose `data` or `applications` is JSON
  `null` (`TypeError` at main.py:158, which the `except KeyError` at
  main.py:163 does not catch); command output that is not valid UTF-8
  (`UnicodeDecodeError` at main.py:30 or main.py:32, which the
  `except subprocess.CalledProcessError` at main.py:39 does not catch). The
  last one ends the migration partway, so `Runner.MigrateHarness` and
  `Runner.MigrateApplication` describe the trace of a run in which every
  command's output decodes.
- `null` names and descriptions: both are strings here. A `null` name makes
  `re.sub` raise `TypeError` at main.py:62; a `null` description is posted
  as JSON `null`.
- A server that returns non-empty pages forever: the server is a finite
  sequence of replies, so the paging loop always ends.
- Provisioner.Warnings: its own contract only bounds the count. Which
  messages are logged, and in what order, is stated by
  `Provisioner.WarningsAreErrorMessages`.
- Runner.MigrateHarness: requires every application to carry an identifier
  (the source raises `KeyError` otherwise). The only caller guarantees it.
- Runner.MigrateApplication: requires the application to carry an identifier,
  for the same reason.
