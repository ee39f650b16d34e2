# qtai, modelled in Dafny

qtai is a command-line launcher. It reads a TOML configuration that holds a global
`default_runner`, a `default_menu`, and an ordered table of *collections*. Each collection
maps item labels to payloads and may carry its own `default_runner`. qtai lets the user
query, filter and pick an item, either through a menu program (`run`) or a terminal
chooser (`terminal_run`). It then executes the item's payload as `$1` of the runner chosen
by precedence. Further subcommands edit the configuration file in place, and at startup
qtai decides which configuration a command runs with, generating a template file when asked
or when the file is missing.

The model covers the decision logic of that program:

- `results.dfy` (`Results`): `Option` and `Result`.
- `text.dfy` (`Text`): lower-casing and substring containment, used by every query.
- `tables.dfy` (`Tables`): ordered maps (IndexMap / TOML tables) as sequences of key-value
  pairs. It defines the order-keeping `Filter` and the lookup, in-place insert and
  order-keeping removal laws.
- `collections.dfy` (`Collections`): `src/collections.rs` — a collection and its item query.
- `configuration.dfy` (`Configuration`): `src/config.rs` — filtering, querying, the
  0 / 1 / many selection policy, the flattening of query results into entries, and the
  failure rules of `list_collections` and `search_items`.
- `run.dfy` (`Run`): `src/run.rs` — display disambiguation, runner precedence, the command
  vector, and the mapping of the menu's output back to an item.
- `confirm.dfy` (`Confirm`) and `startup.dfy` (`Startup`): `src/main.rs`. These cover
  `with_confirmation`, the config-path choice and the decision table of `determine_config`.
- `config_edit.dfy` (`ConfigEdit`): `src/config_edit.rs`. The TOML document is a class
  `Document` whose fields each command updates in place. `add_collection` works on the
  file's text.

Side effects become parameters:

- the interactive chooser's answer is an `Option<nat>` (None when input could not be read);
- the confirmation prompt's answer is a `Reply`;
- the menu program's output is a string;
- the parse result and whether the file exists are inputs of `DetermineConfig`;
- the configuration directory is an `Option<Path>`;
- processes become the argument vectors that would be executed.

Declining the confirmation of `remove_collection` is an error: the code returns
"User changed their mind.", and so does `ConfigEdit.RemoveCollection`.

## Model

| member | source | states |
|---|---|---|
| Text.LowerIdempotent | src/collections.rs:19 | lower-casing twice is lower-casing once |
| Text.ContainsEmpty | src/collections.rs:19-20 | every string contains the empty string, so an empty query matches |
| Tables.Filter | src/collections.rs:16-23 | the kept elements are exactly those satisfying the predicate, in original order (a subsequence), never more than the input |
| Tables.FilterMultiset | src/collections.rs:16-23 | every occurrence of a satisfying element is kept and no occurrence of any other, so duplicates are kept as often as they occur |
| Tables.FilterUnique | src/config.rs:39-57 | filtering a table with unique keys leaves unique keys |
| Tables.PutLookup | src/config_edit.rs:29 | `Put` (IndexMap / toml_edit insert), seen through `Lookup` (`get`, the first entry with the key): after an insert the key maps to the new value, every other key keeps its value, and an existing key keeps its position |
| Tables.RemoveLookup | src/config_edit.rs:53 | `Remove` (order-keeping `remove`): after a removal the key is absent and every other key keeps its value |
| Tables.RemoveUndoesPut | src/config_edit.rs:50-53 | removing a key that was just inserted as a new key restores the table |
| Collections.QueryItems | src/collections.rs:15-24 | the result holds exactly the items whose lower-cased label or payload contains the lower-cased query, in collection order, as a subsequence no longer than the items |
| Collections.QueryItemsEmptyQuery | src/collections.rs:19-20 | the empty query returns every item in order |
| Collections.QueryItemsIgnoresQueryCase | src/collections.rs:19-20 | the result does not depend on the query's case |
| Collections.QueryItemsUnique | src/collections.rs:15-24 | unique labels stay unique in the result |
| Collections.Template | src/collections.rs:26-33 | no runner of its own and exactly the item "example key" → "example value" |
| Configuration.Template | src/config.rs:17-23 | empty runner, menu "dmenu", no collections |
| Configuration.Default | src/config.rs:9-14 | the derived default has every field empty |
| Configuration.FilterCollections | src/config.rs:26-60 | no inputs keep every collection; otherwise a collection is kept iff its lower-cased name equals (selective) or contains (not selective) some lower-cased input; order kept, as a subsequence |
| Configuration.FilterCollectionsUnique | src/config.rs:39-57 | no collection appears twice, however many inputs match it |
| Configuration.ListCollections | src/config.rs:63-67 | fails with "No collections are found" iff the filter keeps nothing |
| Configuration.ListAllFailsOnlyWhenEmpty | src/config.rs:32-36 | listing without inputs fails iff the configuration has no collections |
| Configuration.QueryCollections | src/config.rs:83-89 | exactly the collections whose lower-cased name contains the lower-cased query, in order |
| Configuration.QueryCollectionsEmptyQuery | src/config.rs:83-89 | the empty query finds every collection |
| Configuration.Choose | src/config.rs:97-111 | the 0 / 1 / many policy: not-found error, the single candidate, the chooser's candidate, "Cannot observe user input", "Index out of bounds"; a success is always a candidate |
| Configuration.SelectCollections | src/config.rs:92-113 | "No collections are found!" on an empty configuration, else the policy over the query result; a selected collection is in the configuration and matches |
| Configuration.SelectCollectionsSingleMatch | src/config.rs:99-100 | with a single match the chooser's answer is irrelevant |
| Configuration.Groups | src/config.rs:118 | one group per collection, in order, holding that collection's own query result |
| Configuration.QueryItemsDropsEmpty | src/config.rs:115-121 | the config-level query is the per-collection query with exactly the empty groups removed, order kept |
| Configuration.Tag | src/config.rs:147 | each item becomes an entry naming its collection, in order |
| Configuration.EntriesAppend | src/run.rs:22-30 | `Entries`, the `flat_map` of all collections into entries: flattening distributes over concatenation of collection lists |
| Configuration.EntriesOrigin | src/run.rs:22-30 | every flattened entry comes from a collection that is present and holds that item |
| Configuration.TagQueryItems | src/config.rs:144-148 | tagging an item query's result equals filtering the tagged items |
| Configuration.FlattenQueryItems | src/config.rs:143-148 | `Flatten` (the `flat_map` over query groups): the flattened query results are exactly the matching entries of the whole configuration, in order |
| Configuration.SelectItems | src/config.rs:143-172 | the 0 / 1 / many policy over the matching entries with "Cannot find any items with that query."; a selected entry exists and matches |
| Configuration.SearchItems | src/config.rs:124-140 | the counting loop fails with "Cannot find any results with query." iff the query yields no group |
| Configuration.SearchFailsIffNoMatch | src/config.rs:124-140 | search fails iff no item of any collection matches |
| Run.KeyCountPositive | src/run.rs:123 | a label that occurs is counted, so the lookup of the duplicate flag always finds it |
| Run.DisplayPairs | src/run.rs:108-130 | the loop that fills the duplicate map and then labels the pairs computes `Displayed` |
| Run.DisplayedBareIffUnique | src/run.rs:110-127 | `Displayed` gives one string per entry, in order; an entry is bare iff its label occurs exactly once in the whole list, and otherwise is `WithOrigin` (label, ` (from collection "`, name, `")`) |
| Run.DisplayedPairCollision | src/run.rs:119-129 | two entries with the same label are both shown with their collection |
| Run.ResolveRunner | src/run.rs:142-152 | explicit runner first, then the origin collection's runner, then the global default; free text uses the global default |
| Run.RunCommand | src/run.rs:153-157 | the executed vector is `sh -c <runner> qtai <payload>`, so the payload is `$1` |
| Run.Position | src/run.rs:55-58 | the first index holding the value, or None when no index holds it |
| Run.MenuSelection | src/run.rs:55-65 | the output minus its last character selects the first entry with that display string (no earlier display string equals it); otherwise the unstripped output is free text with no origin |
| Run.MenuSelectionOfListedLine | src/run.rs:34-65 | a listed line printed back by the menu always hits an entry, and hits the entry itself when no earlier entry has the same display string |
| Run.KnownOrigin | src/run.rs:146 | an offered item's collection is in the configuration, so the lookup before running cannot fail |
| Run.RunItems | src/run.rs:22-30 | every item offered names a collection of the configuration |
| Run.RunWithMenu | src/run.rs:9-67 | "No items are found" iff nothing is offered; otherwise the menu command `sh -c <menu>`, the listing `MenuListing` (every display string followed by a newline, the `fold`) and the whole command vector of the selected or free-text item |
| Run.TerminalRun | src/run.rs:70-105 | "No items are found" when nothing is offered, "Cannot observe user input" when the chooser could not read input; otherwise the whole command vector of the chosen entry, with its collection's runner precedence |
| Run.DeployItems | src/run.rs:22-30 | worked example: both `deploy` items are offered, in collection order |
| Run.DeployDisplayed | src/run.rs:119-129 | worked example: the shared label makes both display strings name their collection |
| Run.DeployRunners | src/run.rs:142-157 | worked example: `web` runs with its own runner, `db` falls back to the global one |
| Confirm.WithConfirmation | src/main.rs:221-248 | with `assume_yes` the yes branch; otherwise the branch the answer picks, Enter taking the default |
| Startup.ConfigPathAsWritten | src/main.rs:108-113 | as written: no configuration directory is an error even when `--config` is given |
| Startup.ConfigPath | src/main.rs:108-113 | `--config` when given, else `DefaultConfigPath`, `<config_dir>/qtai/qtai.toml`; an error only when both are missing |
| Startup.ConfigPathEagerFallback | src/main.rs:108-113 | the two agree when the directory exists and differ when `--config` is given without one |
| Startup.DetermineConfig | src/main.rs:158-218 | the decision table: parsed config kept; regeneration with no default prompt, declining gives `Config::default()`; generation offered with default yes on a parse error when asked or missing, declining gives "No config file."; a broken existing file is an error |
| Startup.GenerationOnlyWhenAskedOrMissing | src/main.rs:166-216 | a file is generated only when asked for or missing, always with the template configuration; any other success is the parsed or default configuration |
| Startup.AssumeYesFailsOnlyOnBrokenFile | src/main.rs:188-216 | with `--assume-yes` startup fails iff the file exists, does not parse and generation was not asked for |
| ConfigEdit.SetInEffect | src/config_edit.rs:29 | `SetIn` (with `Assigned` for the entry, created as an inline table when missing), assigning `collections.<name>.<key>` sets exactly that key; other keys and entries unchanged, no entry moves, a new entry is appended, a table stays a table |
| ConfigEdit.RemoveInEffect | src/config_edit.rs:50-53 | `RemoveIn`: removal fails iff the entry is not a table; otherwise exactly that key is gone and everything else is unchanged |
| ConfigEdit.RemoveUndoesAdd | src/config_edit.rs:50-53 | removing an item just added to a table restores the document |
| ConfigEdit.SetInUnique | src/config_edit.rs:29 | an assignment never duplicates a collection entry |
| ConfigEdit.RemoveInUnique | src/config_edit.rs:50-53 | a removal never duplicates a collection entry |
| ConfigEdit.Document.constructor | src/config_edit.rs:26-28 | the document holds the given top-level values and collection entries |
| ConfigEdit.AddItem | src/config_edit.rs:14-38 | selection errors pass through; "Collection already has key." leaves the document untouched; otherwise exactly the new string item is set; unique entry names stay unique |
| ConfigEdit.RemoveItem | src/config_edit.rs:40-58 | selection errors pass through with no edit; otherwise the selected item is removed from its table, or "Trouble converting collection as a table" with no edit; unique entry names stay unique |
| ConfigEdit.AddCollection | src/config_edit.rs:60-79 | fails with "Config already has this key." iff the exact name exists; otherwise the text is the old text followed by `CollectionHeader`, `[collections."<name>"]` and an empty line |
| ConfigEdit.RemoveCollection | src/config_edit.rs:81-109 | the selected collection is removed only after confirmation (default no); declining gives "User changed their mind." with no edit; unique entry names stay unique |
| ConfigEdit.ChangeRunner | src/config_edit.rs:140-177 | with a query the selected collection's `default_runner`, else the top-level one, is set as a literal string; selection errors pass through with no edit; nothing else changes; unique entry names stay unique |
| ConfigEdit.ChangeMenu | src/config_edit.rs:179-191 | the top-level `default_menu` becomes the literal string; nothing else changes |
| ConfigEdit.GenerateConfigFile | src/config_edit.rs:112-137 | the document becomes the template with runner `'notify-send $1'`, while the returned configuration is the template, whose runner is empty |

## Left out

- Processes: the `echo` pipe, the menu program and the final command are not run. The model yields the argument vectors and the listing text. The errors "Cannot run menu…", "Output is not utf8" and "Cannot run the command." are not modelled.
- Prompts (`dialoguer` `Select` and `Confirm`) become parameters. Their I/O failure after `interact().unwrap()` in `with_confirmation` is a panic that is not modelled.
- File I/O, TOML parsing and serialisation (figment, serde, toml, toml_edit's preservation of comments and spacing), clap parsing and `dirs::config_dir` are not modelled. The parsed `Config` and the edited `Document` are independent inputs. The file the document came from is not tied to the configuration.
- Printing and ANSI styling (`println!`, `colored`) are not modelled, including the listing loops of `list_collections` and `search_items`.
- The dispatch of subcommands in `main` (src/main.rs:114-153) is a plain match that passes arguments through, so it has no member of its own.
- Text.LowerChar: folds ASCII letters only, while the source uses Unicode `to_lowercase`.
- Configuration.QueryItems: carries no contract of its own. Its meaning is stated by `QueryItemsDropsEmpty` and `FlattenQueryItems`.
- Run.MenuSelection: requires non-empty menu output whose last character is ASCII. The source cuts off the last byte, so it panics on an empty string and on output ending in a multi-byte character.
- Run.RunWithMenu: requires the same of the menu output when items are offered, for the same reason; with no items the menu is never run.
- Run.TerminalRun: requires the chooser's index to be in range when items are offered, which the terminal chooser guarantees; with no items it is never consulted.
- Run.ResolveRunner: requires the origin collection to exist, because of the `unwrap` in the source. `Run.KnownOrigin` shows that every offered item meets this.
- ConfigEdit.AddItem: stores the value as `Basic`, which stands for toml_edit's default quoting of a string value; the chosen quoting and the serialised text are not modelled.
- ConfigEdit.AddItem: requires the selected entry to be absent or table-like, because assigning through a plain value panics in toml_edit.
- ConfigEdit.ChangeRunner: requires a value that is valid inside a TOML literal string (section "Literal strings" of TOML v1.0.0), unless a query is given and its selection fails first. The same entry condition as `AddItem` applies. On most excluded values the source's `unwrap` panics, but the requires also excludes values such as `'''x'''`: quoted once more they read as a multi-line literal string (section "Multi-line literal strings" of TOML v1.0.0), the parse succeeds, and the source stores a value different from the input (`'x'`). The model does not capture that case.
- ConfigEdit.ChangeMenu: requires a value that is valid inside a TOML literal string. On most excluded values the source's `unwrap` panics, but values such as `''''` read as a multi-line literal string once quoted; the source then stores a different value (here the empty string), which the model does not capture.
- ConfigEdit.RemoveCollection: assumes the document's `collections` is a standard table. The "Trouble converting collection as a table" error for an inline `collections` is not modelled.
- ConfigEdit.GenerateConfigFile: does not model creating parent directories or any write failure.
- ConfigEdit.AddCollection: a failed append is only printed and still returns `Ok`, so the text model always appends. Opening the file with `unwrap` is not modelled.
- Startup.DetermineConfig: treats generation as always succeeding with the template. A write failure would turn the yes branch into an error.
- Startup.DetermineConfig: requires that Enter is not pressed at a prompt without a default, because that prompt keeps waiting instead of returning.

## Findings

| source | as written | input that shows it | evidently intended | confidence | as-written member | corrected member |
|---|---|---|---|---|---|---|
| src/main.rs:108-113 | `unwrap_or` receives the default path after the `?` on `dirs::config_dir()` has already run, so a missing configuration directory aborts startup with "Config directory not found." | `--config /tmp/q.toml` on a system where `dirs::config_dir()` returns None | use the `--config` path whenever it is given, and consult the configuration directory only otherwise (`unwrap_or_else` or a `match`) | not executed | Startup.ConfigPathAsWritten | Startup.ConfigPath |
