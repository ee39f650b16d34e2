/** Picking an item and resolving the command that runs it (src/run.rs).
    The menu program, the terminal selector and the final command are
    processes; here they become their inputs and outputs as data. */
module Run {
  import opened Results
  import opened Tables
  import opened Configuration

  // ---------------------------------------------------------------- display strings

  /** How many entries carry this key. */
  function KeyCount(entries: seq<Entry>, key: string): nat {
    if entries == [] then 0
    else KeyCount(entries[..|entries| - 1], key) + (if entries[|entries| - 1].key == key then 1 else 0)
  }

  /** The display string of an entry whose key collides with another one. */
  function WithOrigin(e: Entry): string {
    e.key + " (from collection \"" + e.collection + "\")"
  }

  /** `display_pairs` as a value: bare keys, except that a key occurring more than once
      anywhere in the list is shown with its collection. */
  function Displayed(entries: seq<Entry>): seq<string> {
    seq(|entries|, i requires 0 <= i < |entries| =>
      if KeyCount(entries, entries[i].key) > 1 then WithOrigin(entries[i]) else entries[i].key)
  }

  /** Counting over a prefix that grows by one entry. */
  lemma KeyCountSnoc(entries: seq<Entry>, i: nat, key: string)
    requires i < |entries|
    ensures KeyCount(entries[..i + 1], key) == KeyCount(entries[..i], key) + (if entries[i].key == key then 1 else 0)
  {
    assert entries[..i + 1][..i] == entries[..i];
  }

  /** A key that occurs in the list is counted at least once. */
  lemma {:induction false} KeyCountPositive(entries: seq<Entry>, i: nat)
    requires i < |entries|
    ensures KeyCount(entries, entries[i].key) >= 1
  {
    var n := |entries| - 1;
    if i < n {
      assert entries[..n][i] == entries[i];
      KeyCountPositive(entries[..n], i);
    }
  }

  /** `display_pairs`: fills the `has_duplicate` map in one pass, then labels every entry. */
  method DisplayPairs(pairs: seq<Entry>) returns (r: seq<string>)
    ensures r == Displayed(pairs)
  {
    var hasDuplicate: map<string, bool> := map[];
    for i := 0 to |pairs|
      invariant forall key :: key in hasDuplicate <==> KeyCount(pairs[..i], key) > 0
      invariant forall key :: key in hasDuplicate ==> hasDuplicate[key] == (KeyCount(pairs[..i], key) > 1)
    {
      var key := pairs[i].key;
      forall k ensures KeyCount(pairs[..i + 1], k) == KeyCount(pairs[..i], k) + (if key == k then 1 else 0) {
        KeyCountSnoc(pairs, i, k);
      }
      if key in hasDuplicate {
        hasDuplicate := hasDuplicate[key := true];
      } else {
        hasDuplicate := hasDuplicate[key := false];
      }
    }
    assert pairs[..|pairs|] == pairs;
    forall k | 0 <= k < |pairs| ensures pairs[k].key in hasDuplicate {
      KeyCountPositive(pairs, k);
    }
    r := seq(|pairs|, k requires 0 <= k < |pairs| =>
      if hasDuplicate[pairs[k].key] then WithOrigin(pairs[k]) else pairs[k].key);
  }

  /** One display string per entry, in order; an entry is shown bare exactly when
      its key is unique in the whole list, and with its collection otherwise. */
  lemma DisplayedBareIffUnique(entries: seq<Entry>, i: nat)
    requires i < |entries|
    ensures |Displayed(entries)| == |entries|
    ensures Displayed(entries)[i] == entries[i].key <==> KeyCount(entries, entries[i].key) == 1
    ensures KeyCount(entries, entries[i].key) != 1 ==> Displayed(entries)[i] == WithOrigin(entries[i])
  {
    KeyCountPositive(entries, i);
    assert |WithOrigin(entries[i])| > |entries[i].key|;
  }

  /** The menu's input: every display string followed by a newline (the `fold`). */
  function MenuListing(displays: seq<string>): string {
    if displays == [] then "" else MenuListing(displays[..|displays| - 1]) + displays[|displays| - 1] + "\n"
  }

  // ---------------------------------------------------------------- runner resolution

  /** What `run_command` receives: the origin collection (None for free text), the key, the payload. */
  datatype Selected = Selected(origin: Option<string>, key: Option<string>, payload: string)

  /** The origin collection's own runner, when it has one. */
  function CollectionRunner(config: Config, origin: Option<string>): Option<string>
    requires origin.Some? ==> HasKey(config.collections, origin.value)
  {
    match origin
    case None => None
    case Some(name) => Lookup(config.collections, name).value.defaultRunner
  }

  /** The runner precedence of `run_command`: explicit runner, then the origin collection's
      runner, then the global default. */
  function ResolveRunner(runner: Option<string>, origin: Option<string>, config: Config): (r: string)
    requires origin.Some? ==> HasKey(config.collections, origin.value)
    ensures runner.Some? ==> r == runner.value
    ensures runner.None? && CollectionRunner(config, origin).Some? ==> r == CollectionRunner(config, origin).value
    ensures runner.None? && CollectionRunner(config, origin).None? ==> r == config.defaultRunner
    ensures origin.None? && runner.None? ==> r == config.defaultRunner
  {
    match runner
    case Some(x) => x
    case None =>
      match origin
      case Some(name) =>
        (match Lookup(config.collections, name).value.defaultRunner
         case Some(x) => x
         case None => config.defaultRunner)
      case None => config.defaultRunner
  }

  /** The argument vector `run_command` executes: the payload becomes `$1` of the runner. */
  function RunCommand(toRun: Selected, runner: Option<string>, config: Config): (argv: seq<string>)
    requires toRun.origin.Some? ==> HasKey(config.collections, toRun.origin.value)
    ensures |argv| == 5 && argv[0] == "sh" && argv[1] == "-c" && argv[3] == "qtai"
    ensures argv[2] == ResolveRunner(runner, toRun.origin, config)
    ensures argv[4] == toRun.payload
  {
    ["sh", "-c", ResolveRunner(runner, toRun.origin, config), "qtai", toRun.payload]
  }

  // ---------------------------------------------------------------- the menu round trip

  /** The first position of `x` in `s` (`Iterator::position`). */
  function Position(s: seq<string>, x: string): (r: Option<nat>)
    ensures r.Some? ==> r.value < |s| && s[r.value] == x && forall j :: 0 <= j < r.value ==> s[j] != x
    ensures r.None? ==> forall j :: 0 <= j < |s| ==> s[j] != x
  {
    if s == [] then None
    else if s[0] == x then Some(0)
    else match Position(s[1..], x)
      case None => None
      case Some(i) => Some(i + 1)
  }

  /** Maps the menu's output back to an entry: the trailing character is dropped and the first
      equal display string wins; output that matches nothing is passed on as free text, unstripped. */
  function MenuSelection(items: seq<Entry>, displays: seq<string>, output: string): (r: Selected)
    requires |output| > 0 && output[|output| - 1] as int < 0x80 && |displays| == |items|
    ensures r.origin.Some? ==> exists i :: 0 <= i < |items| && displays[i] == output[..|output| - 1] &&
                                 (forall j :: 0 <= j < i ==> displays[j] != output[..|output| - 1]) &&
                                 r == Selected(Some(items[i].collection), Some(items[i].key), items[i].payload)
    ensures r.origin.None? <==> output[..|output| - 1] !in displays
    ensures r.origin.None? ==> r == Selected(None, None, output)
  {
    match Position(displays, output[..|output| - 1])
    case Some(x) => Selected(Some(items[x].collection), Some(items[x].key), items[x].payload)
    case None => Selected(None, None, output)
  }

  /** The round trip: when the menu prints back line `i` of its listing, the entry picked is the
      first one with the same display string, which is entry `i` itself when no earlier entry shares it. */
  lemma MenuSelectionOfListedLine(items: seq<Entry>, i: nat)
    requires i < |items|
    ensures var ds := Displayed(items);
            var r := MenuSelection(items, ds, ds[i] + "\n");
            && r.origin.Some?
            && ((forall j :: 0 <= j < i ==> ds[j] != ds[i]) ==>
                  r == Selected(Some(items[i].collection), Some(items[i].key), items[i].payload))
  {
    var ds := Displayed(items);
    var out := ds[i] + "\n";
    assert out[|out| - 1] == '\n';
    assert out[..|out| - 1] == ds[i];
    var p := Position(ds, ds[i]);
    assert p.Some? && p.value <= i;
    assert MenuSelection(items, ds, out) == Selected(Some(items[p.value].collection), Some(items[p.value].key), items[p.value].payload);
  }

  // ---------------------------------------------------------------- run and terminal_run

  /** Every item offered comes from a collection of the configuration, so the lookup
      in `run_command` always finds it. */
  lemma KnownOrigin(config: Config, inputs: seq<string>, selective: bool, e: Entry)
    requires e in Entries(FilterCollections(config, inputs, selective))
    ensures HasKey(config.collections, e.collection)
  {
    var filtered := FilterCollections(config, inputs, selective);
    EntriesOrigin(filtered, e);
    var j :| 0 <= j < |filtered| && filtered[j].0 == e.collection;
    var m :| 0 <= m < |config.collections| && config.collections[m] == filtered[j];
    assert Keys(config.collections)[m] == e.collection;
  }

  /** The item list of `run` and `terminal_run`: the filtered collections' items, in order. */
  function RunItems(config: Config, inputs: seq<string>, selective: bool): (r: seq<Entry>)
    ensures forall i :: 0 <= i < |r| ==> HasKey(config.collections, r[i].collection)
  {
    var es := Entries(FilterCollections(config, inputs, selective));
    forall i | 0 <= i < |es| ensures HasKey(config.collections, es[i].collection) {
      KnownOrigin(config, inputs, selective, es[i]);
    }
    es
  }

  /** What `run` does, as data: the menu command, the text handed to `echo` (which adds one more
      newline before the menu reads it), and the final command. */
  datatype RunPlan = RunPlan(menuArgv: seq<string>, listing: string, commandArgv: seq<string>)

  /** `run`: `output` is what the menu program printed. */
  method RunWithMenu(menuOption: Option<string>, inputs: seq<string>, runner: Option<string>, config: Config,
                     selective: bool, output: string) returns (r: Result<RunPlan>)
    requires RunItems(config, inputs, selective) != [] ==> |output| > 0 && output[|output| - 1] as int < 0x80
    ensures var items := RunItems(config, inputs, selective);
            && (r.Err? <==> items == [])
            && (r.Err? ==> r.msg == "No items are found")
            && (r.Ok? ==>
                  && r.value.menuArgv == ["sh", "-c", menuOption.GetOr(config.defaultMenu)]
                  && r.value.listing == MenuListing(Displayed(items))
                  && r.value.commandArgv == RunCommand(MenuSelection(items, Displayed(items), output), runner, config))
  {
    var menu := match menuOption case Some(x) => x case None => config.defaultMenu;
    var items := RunItems(config, inputs, selective);
    if |items| == 0 {
      return Err("No items are found");
    }
    var displays := DisplayPairs(items);
    var selected := MenuSelection(items, displays, output);
    r := Ok(RunPlan(["sh", "-c", menu], MenuListing(displays), RunCommand(selected, runner, config)));
  }

  /** `terminal_run`: the terminal selector returns an index into the item list
      (None when the input could not be read). */
  function TerminalRun(inputs: seq<string>, runner: Option<string>, config: Config, selective: bool,
                       choice: Option<nat>): (r: Result<seq<string>>)
    requires RunItems(config, inputs, selective) != [] && choice.Some? ==> choice.value < |RunItems(config, inputs, selective)|
    ensures var items := RunItems(config, inputs, selective);
            && (r.Err? <==> items == [] || choice.None?)
            && (items == [] ==> r == Err("No items are found"))
            && (items != [] && choice.None? ==> r == Err("Cannot observe user input"))
            && (r.Ok? ==>
                  var e := items[choice.value];
                  r.value == RunCommand(Selected(Some(e.collection), Some(e.key), e.payload), runner, config))
  {
    var items := RunItems(config, inputs, selective);
    if |items| == 0 then Err("No items are found")
    else match choice
      case None => Err("Cannot observe user input")
      case Some(i) =>
        Ok(RunCommand(Selected(Some(items[i].collection), Some(items[i].key), items[i].payload), runner, config))
  }

  // ---------------------------------------------------------------- a worked example

  /** Two collections with a `deploy` item each; only `web` has a runner of its own. */
  function DeployConfig(): Config {
    Config("sh -c", "dmenu", [
      ("web", Collections.Collection(Some("./web-runner"), [("deploy", "./deploy.sh")])),
      ("db", Collections.Collection(None, [("deploy", "./db-deploy.sh")]))])
  }

  /** Both `deploy` items are offered, `web`'s first. */
  lemma DeployItems()
    ensures RunItems(DeployConfig(), [], false) == [Entry("web", "deploy", "./deploy.sh"), Entry("db", "deploy", "./db-deploy.sh")]
  {
  }

  /** Two entries that share a key are both shown with their collection. */
  lemma DisplayedPairCollision(a: Entry, b: Entry)
    requires a.key == b.key
    ensures Displayed([a, b]) == [WithOrigin(a), WithOrigin(b)]
  {
    assert [a, b][..1] == [a];
    assert [a][..0] == [];
    assert KeyCount([a], a.key) == 1;
    assert KeyCount([a, b], a.key) == KeyCount([a], a.key) + 1;
  }

  /** The two display strings with their collection spelled out. */
  lemma DeployLabels()
    ensures WithOrigin(Entry("web", "deploy", "./deploy.sh")) == "deploy (from collection \"web\")"
    ensures WithOrigin(Entry("db", "deploy", "./db-deploy.sh")) == "deploy (from collection \"db\")"
  {
    assert WithOrigin(Entry("web", "deploy", "./deploy.sh")) == "deploy" + " (from collection \"" + "web" + "\")";
    assert WithOrigin(Entry("db", "deploy", "./db-deploy.sh")) == "deploy" + " (from collection \"" + "db" + "\")";
  }

  /** The shared key makes both items carry their collection in the menu. */
  lemma DeployDisplayed()
    ensures Displayed(RunItems(DeployConfig(), [], false)) ==
              ["deploy (from collection \"web\")", "deploy (from collection \"db\")"]
  {
    DeployItems();
    DisplayedPairCollision(Entry("web", "deploy", "./deploy.sh"), Entry("db", "deploy", "./db-deploy.sh"));
    DeployLabels();
  }

  /** Each item runs with its own collection's runner, falling back to the global one for `db`. */
  lemma DeployRunners()
    ensures TerminalRun([], None, DeployConfig(), false, Some(0)) == Ok(["sh", "-c", "./web-runner", "qtai", "./deploy.sh"])
    ensures TerminalRun([], None, DeployConfig(), false, Some(1)) == Ok(["sh", "-c", "sh -c", "qtai", "./db-deploy.sh"])
  {
    DeployItems();
    var cols := DeployConfig().collections;
    assert "web" != "db" by { assert "web"[0] != "db"[0]; }
    assert cols[1..] == [cols[1]];
    assert Lookup(cols, "db") == Lookup(cols[1..], "db") == Some(cols[1].1);
  }
}
