/** The configuration-editing commands (src/config_edit.rs).
    Every command but `add_collection` re-reads the configuration file as a TOML
    document, edits it in place and writes it back. The document is modelled by its
    logical content: the two top-level strings and the ordered table of collection
    entries, each a table of keys (the collection's `default_runner` is one of them). */
module ConfigEdit {
  import opened Results
  import opened Tables
  import opened Configuration
  import Collections
  import Confirm

  /** A TOML string value: literal (single-quoted) when the code asks for it explicitly, and
      `Basic` otherwise, standing for whatever quoting toml_edit's encoder picks by default. */
  datatype TomlString = Basic(text: string) | Literal(text: string)

  /** A collection entry of the document: a `[collections."name"]` table, an inline table,
      or a plain value. */
  datatype Section =
    | Table(entries: seq<(string, TomlString)>)
    | InlineTable(entries: seq<(string, TomlString)>)
    | Scalar(scalar: TomlString)

  /** The editable document behind the configuration file. */
  class Document {
    var defaultRunner: Option<TomlString>
    var defaultMenu: Option<TomlString>
    var collections: seq<(string, Section)>

    constructor (defaultRunner: Option<TomlString>, defaultMenu: Option<TomlString>, collections: seq<(string, Section)>)
      ensures this.defaultRunner == defaultRunner && this.defaultMenu == defaultMenu
      ensures this.collections == collections
    {
      this.defaultRunner := defaultRunner;
      this.defaultMenu := defaultMenu;
      this.collections := collections;
    }
  }

  // ---------------------------------------------------------------- the edits, as values

  /** The value stored under `collections.<name>.<key>`, if any. */
  function ValueAt(collections: seq<(string, Section)>, name: string, key: string): Option<TomlString> {
    var s := Lookup(collections, name);
    if s.None? || s.value.Scalar? then None else Lookup(s.value.entries, key)
  }

  /** `doc["collections"][name][key]` can be assigned: the entry is absent or table-like
      (assigning through a plain value panics). */
  predicate Indexable(collections: seq<(string, Section)>, name: string) {
    Lookup(collections, name).None? || !Lookup(collections, name).value.Scalar?
  }

  /** The entry after `entry[key] = v`: a missing entry becomes an inline table holding just
      that key, and a table-like entry keeps its kind. */
  function Assigned(s: Option<Section>, key: string, v: TomlString): Section
    requires s.None? || !s.value.Scalar?
  {
    if s.None? then InlineTable([(key, v)])
    else if s.value.Table? then Table(Put(s.value.entries, key, v))
    else InlineTable(Put(s.value.entries, key, v))
  }

  lemma AssignedLookup(s: Option<Section>, key: string, v: TomlString, k: string)
    requires s.None? || !s.value.Scalar?
    ensures !Assigned(s, key, v).Scalar?
    ensures s.Some? && s.value.Table? ==> Assigned(s, key, v).Table?
    ensures Lookup(Assigned(s, key, v).entries, k) ==
              if k == key then Some(v) else if s.None? then None else Lookup(s.value.entries, k)
  {
    if s.Some? {
      PutLookup(s.value.entries, key, v, k);
    }
  }

  /** `doc["collections"][name][key] = v`. */
  function SetIn(collections: seq<(string, Section)>, name: string, key: string, v: TomlString): seq<(string, Section)>
    requires Indexable(collections, name)
  {
    Put(collections, name, Assigned(Lookup(collections, name), key, v))
  }

  /** The assignment sets exactly `collections.<name>.<key>`: every other key of that entry and
      every other entry stay as they were, no entry moves, and a table stays a table. */
  lemma SetInEffect(collections: seq<(string, Section)>, name: string, key: string, v: TomlString)
    requires Indexable(collections, name)
    ensures var r := SetIn(collections, name, key, v);
            && ValueAt(r, name, key) == Some(v)
            && (forall k :: k != key ==> ValueAt(r, name, k) == ValueAt(collections, name, k))
            && (forall n :: n != name ==> Lookup(r, n) == Lookup(collections, n))
            && Keys(r) == (if HasKey(collections, name) then Keys(collections) else Keys(collections) + [name])
            && (Lookup(collections, name).Some? && Lookup(collections, name).value.Table? ==>
                  Lookup(r, name).value.Table?)
  {
    var s := Lookup(collections, name);
    var sec := Assigned(s, key, v);
    var r := Put(collections, name, sec);
    PutLookup(collections, name, sec, name);
    forall n | n != name ensures Lookup(r, n) == Lookup(collections, n) {
      PutLookup(collections, name, sec, n);
    }
    forall k ensures ValueAt(r, name, k) == if k == key then Some(v) else ValueAt(collections, name, k) {
      AssignedLookup(s, key, v, k);
    }
  }

  /** `doc["collections"][name].as_table_mut()?.remove(key)`: only a `[collections."name"]`
      table can be edited; anything else (an inline table, a value, a missing entry) is an error. */
  function RemoveIn(collections: seq<(string, Section)>, name: string, key: string): Result<seq<(string, Section)>> {
    var s := Lookup(collections, name);
    if s.Some? && s.value.Table? then Ok(Put(collections, name, Table(Remove(s.value.entries, key))))
    else Err("Trouble converting collection as a table")
  }

  /** The removal deletes exactly `collections.<name>.<key>` and fails exactly when the entry is not a table. */
  lemma RemoveInEffect(collections: seq<(string, Section)>, name: string, key: string)
    ensures var r := RemoveIn(collections, name, key);
            && (r.Ok? <==> Lookup(collections, name).Some? && Lookup(collections, name).value.Table?)
            && (r.Ok? ==>
                  && ValueAt(r.value, name, key) == None
                  && (forall k :: k != key ==> ValueAt(r.value, name, k) == ValueAt(collections, name, k))
                  && (forall n :: n != name ==> Lookup(r.value, n) == Lookup(collections, n))
                  && Keys(r.value) == Keys(collections)
                  && Lookup(r.value, name).value.Table?)
  {
    var s := Lookup(collections, name);
    if s.Some? && s.value.Table? {
      var sec := Table(Remove(s.value.entries, key));
      forall n ensures Lookup(Put(collections, name, sec), n) == if n == name then Some(sec) else Lookup(collections, n) {
        PutLookup(collections, name, sec, n);
      }
      forall k ensures Lookup(Remove(s.value.entries, key), k) == if k == key then None else Lookup(s.value.entries, k) {
        RemoveLookup(s.value.entries, key, k);
      }
    }
  }

  /** Removing an item that was just added restores the document. */
  lemma RemoveUndoesAdd(collections: seq<(string, Section)>, name: string, key: string, v: TomlString)
    requires UniqueKeys(collections)
    requires Lookup(collections, name).Some? && Lookup(collections, name).value.Table?
    requires !HasKey(Lookup(collections, name).value.entries, key)
    ensures RemoveIn(SetIn(collections, name, key, v), name, key) == Ok(collections)
  {
    var es := Lookup(collections, name).value.entries;
    var added := Put(collections, name, Table(Put(es, key, v)));
    PutLookup(collections, name, Table(Put(es, key, v)), name);
    RemoveUndoesPut(es, key, v);
    PutPut(collections, name, Table(Put(es, key, v)), Table(es));
    PutSame(collections, name, Table(es));
    assert RemoveIn(added, name, key) == Ok(Put(added, name, Table(es)));
  }

  /** An assignment never duplicates a collection entry. */
  lemma SetInUnique(collections: seq<(string, Section)>, name: string, key: string, v: TomlString)
    requires Indexable(collections, name) && UniqueKeys(collections)
    ensures UniqueKeys(SetIn(collections, name, key, v))
  {
    PutUnique(collections, name, Assigned(Lookup(collections, name), key, v));
  }

  /** Neither does a removal. */
  lemma RemoveInUnique(collections: seq<(string, Section)>, name: string, key: string)
    requires UniqueKeys(collections) && RemoveIn(collections, name, key).Ok?
    ensures UniqueKeys(RemoveIn(collections, name, key).value)
  {
    PutUnique(collections, name, Table(Remove(Lookup(collections, name).value.entries, key)));
  }

  /** TOML literal strings (section "Literal strings" of TOML v1.0.0) hold any character
      but the single quote and the control characters other than tab. */
  predicate LiteralChar(c: char) {
    c as int == 0x09 || (c as int >= 0x20 && c as int != 0x27 && c as int != 0x7F)
  }

  /** `format!("'{}'", s).parse::<Item>()` yields exactly the literal string `s`. */
  predicate LiteralSafe(s: string) {
    forall i :: 0 <= i < |s| ==> LiteralChar(s[i])
  }

  // ---------------------------------------------------------------- commands on the document

  /** `add_item`: the guard reads the parsed configuration; only then is the document edited. */
  method AddItem(doc: Document, config: Config, query: string, key: string, value: string, choice: Option<nat>)
    returns (r: Result<()>)
    requires var sel := SelectCollections(config, query, choice);
             sel.Ok? && !HasKey(sel.value.1.items, key) ==> Indexable(doc.collections, sel.value.0)
    modifies doc
    ensures var sel := SelectCollections(config, query, choice);
            && (sel.Err? ==> r == Err(sel.msg))
            && (sel.Ok? && HasKey(sel.value.1.items, key) ==> r == Err("Collection already has key."))
            && (r.Ok? <==> sel.Ok? && !HasKey(sel.value.1.items, key))
            && doc.defaultRunner == old(doc.defaultRunner) && doc.defaultMenu == old(doc.defaultMenu)
            && doc.collections == (if r.Ok? then SetIn(old(doc.collections), sel.value.0, key, Basic(value))
                                   else old(doc.collections))
    ensures UniqueKeys(old(doc.collections)) ==> UniqueKeys(doc.collections)
  {
    var sel := SelectCollections(config, query, choice);
    if sel.Err? {
      return Err(sel.msg);
    }
    if HasKey(sel.value.1.items, key) {
      return Err("Collection already has key.");
    }
    if UniqueKeys(doc.collections) {
      SetInUnique(doc.collections, sel.value.0, key, Basic(value));
    }
    doc.collections := SetIn(doc.collections, sel.value.0, key, Basic(value));
    r := Ok(());
  }

  /** `remove_item`: the item is chosen across all collections, then deleted from its entry. */
  method RemoveItem(doc: Document, config: Config, query: string, choice: Option<nat>) returns (r: Result<()>)
    modifies doc
    ensures var sel := SelectItems(config, query, choice);
            && (sel.Err? ==> r == Err(sel.msg) && doc.collections == old(doc.collections))
            && (sel.Ok? ==> var edit := RemoveIn(old(doc.collections), sel.value.collection, sel.value.key);
                  && (edit.Err? ==> r == Err(edit.msg) && doc.collections == old(doc.collections))
                  && (edit.Ok? ==> r == Ok(()) && doc.collections == edit.value))
            && doc.defaultRunner == old(doc.defaultRunner) && doc.defaultMenu == old(doc.defaultMenu)
    ensures UniqueKeys(old(doc.collections)) ==> UniqueKeys(doc.collections)
  {
    var sel := SelectItems(config, query, choice);
    if sel.Err? {
      return Err(sel.msg);
    }
    var edit := RemoveIn(doc.collections, sel.value.collection, sel.value.key);
    if edit.Err? {
      return Err(edit.msg);
    }
    if UniqueKeys(doc.collections) {
      RemoveInUnique(doc.collections, sel.value.collection, sel.value.key);
    }
    doc.collections := edit.value;
    r := Ok(());
  }

  /** The text `add_collection` appends: a table header for the new name and an empty line. */
  function CollectionHeader(name: string): string {
    "[collections.\"" + name + "\"]\n\n"
  }

  /** `add_collection`: the name is checked exactly (case-sensitively) against the parsed
      configuration, then the file's text is appended to. */
  function AddCollection(config: Config, name: string, text: string): (r: Result<string>)
    ensures r.Err? <==> name in Keys(config.collections)
    ensures r.Err? ==> r.msg == "Config already has this key."
    ensures r.Ok? ==> |r.value| == |text| + |name| + 18
    ensures r.Ok? ==> r.value[..|text|] == text && r.value[|text|..] == CollectionHeader(name)
  {
    if HasKey(config.collections, name) then Err("Config already has this key.")
    else Ok(text + CollectionHeader(name))
  }

  /** `remove_collection`: the collection is chosen, the user confirms (Enter means no),
      and only then is its entry deleted. */
  method RemoveCollection(doc: Document, config: Config, query: string, choice: Option<nat>,
                          assumeYes: bool, reply: Confirm.Reply) returns (r: Result<()>)
    modifies doc
    ensures var sel := SelectCollections(config, query, choice);
            var confirmed := Confirm.WithConfirmation(assumeYes, Some(false), reply, true, false);
            && (sel.Err? ==> r == Err(sel.msg))
            && (sel.Ok? && !confirmed ==> r == Err("User changed their mind."))
            && (r.Ok? <==> sel.Ok? && confirmed)
            && doc.collections == (if r.Ok? then Remove(old(doc.collections), sel.value.0) else old(doc.collections))
            && doc.defaultRunner == old(doc.defaultRunner) && doc.defaultMenu == old(doc.defaultMenu)
    ensures UniqueKeys(old(doc.collections)) ==> UniqueKeys(doc.collections)
  {
    var sel := SelectCollections(config, query, choice);
    if sel.Err? {
      return Err(sel.msg);
    }
    if Confirm.WithConfirmation(assumeYes, Some(false), reply, true, false) {
      if UniqueKeys(doc.collections) {
        FilterUnique(doc.collections, OtherKey<string, Section>(sel.value.0));
      }
      doc.collections := Remove(doc.collections, sel.value.0);
      r := Ok(());
    } else {
      r := Err("User changed their mind.");
    }
  }

  /** `change_runner`: with a query the chosen collection's `default_runner` is set, without one
      the top-level `default_runner`; either way as a literal string. */
  method ChangeRunner(doc: Document, config: Config, newRunner: string, query: Option<string>, choice: Option<nat>)
    returns (r: Result<()>)
    requires query.None? || SelectCollections(config, query.value, choice).Ok? ==> LiteralSafe(newRunner)
    requires query.Some? && SelectCollections(config, query.value, choice).Ok? ==>
               Indexable(doc.collections, SelectCollections(config, query.value, choice).value.0)
    modifies doc
    ensures doc.defaultMenu == old(doc.defaultMenu)
    ensures query.None? ==> r == Ok(()) && doc.defaultRunner == Some(Literal(newRunner))
                            && doc.collections == old(doc.collections)
    ensures query.Some? ==>
              var sel := SelectCollections(config, query.value, choice);
              && doc.defaultRunner == old(doc.defaultRunner)
              && (sel.Err? ==> r == Err(sel.msg) && doc.collections == old(doc.collections))
              && (sel.Ok? ==>
                    && r == Ok(())
                    && doc.collections == SetIn(old(doc.collections), sel.value.0, "default_runner", Literal(newRunner)))
    ensures UniqueKeys(old(doc.collections)) ==> UniqueKeys(doc.collections)
  {
    match query {
      case Some(q) =>
        var sel := SelectCollections(config, q, choice);
        if sel.Err? {
          return Err(sel.msg);
        }
        if UniqueKeys(doc.collections) {
          SetInUnique(doc.collections, sel.value.0, "default_runner", Literal(newRunner));
        }
        doc.collections := SetIn(doc.collections, sel.value.0, "default_runner", Literal(newRunner));
        r := Ok(());
      case None =>
        doc.defaultRunner := Some(Literal(newRunner));
        r := Ok(());
    }
  }

  /** `change_menu`: sets the top-level `default_menu` as a literal string. */
  method ChangeMenu(doc: Document, newMenu: string) returns (r: Result<()>)
    requires LiteralSafe(newMenu)
    modifies doc
    ensures r == Ok(())
    ensures doc.defaultMenu == Some(Literal(newMenu))
    ensures doc.defaultRunner == old(doc.defaultRunner) && doc.collections == old(doc.collections)
  {
    doc.defaultMenu := Some(Literal(newMenu));
    r := Ok(());
  }

  /** `generate_config_file`: the document becomes the template with the runner
      `'notify-send $1'`, while the returned configuration is the template itself,
      whose runner is empty. */
  method GenerateConfigFile(doc: Document) returns (config: Config)
    modifies doc
    ensures doc.defaultRunner == Some(Literal("notify-send $1"))
    ensures doc.defaultMenu == Some(Basic("dmenu"))
    ensures doc.collections == []
    ensures config == Template()
  {
    doc.defaultRunner := Some(Basic(Template().defaultRunner));
    doc.defaultMenu := Some(Basic(Template().defaultMenu));
    doc.collections := [];
    doc.defaultRunner := Some(Literal("notify-send $1"));
    config := Template();
  }
}
