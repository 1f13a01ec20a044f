/** The dashboard's module-level `state` object (public/app.js) and the
    handlers that change it: drawing the tree, collapsing a category,
    selecting an item, applying a loaded guild state, and the actions that
    read the selection. */
module Dashboard {
  import opened Js
  import opened Settings
  import opened Tree
  import opened Actions
  import opened Html
  import opened Url

  /** `collapsedCats` after `toggleCat(id)`: `id` flips membership, every
      other id keeps its own. */
  function Toggled(collapsed: set<string>, id: string): (r: set<string>)
    ensures id in r <==> id !in collapsed
    ensures forall x :: x != id ==> (x in r <==> x in collapsed)
  {
    if id in collapsed then collapsed - {id} else collapsed + {id}
  }

  /** Toggling twice restores the set. */
  lemma ToggledTwice(collapsed: set<string>, id: string)
    ensures Toggled(Toggled(collapsed, id), id) == collapsed
  {
  }

  /** `items.find(c => c.id === id)`: None when no item has the id,
      otherwise an item with it. */
  function FindById(items: seq<Channel>, id: string): (r: Option<Channel>)
    ensures r.None? <==> forall i :: 0 <= i < |items| ==> items[i].id != id
    ensures r.Some? ==> r.value in items && r.value.id == id
  {
    if items == [] then None
    else if items[0].id == id then Some(items[0])
    else FindById(items[1..], id)
  }

  /** The item found is the first with the id. */
  lemma {:induction false} FindByIdFirst(items: seq<Channel>, id: string, i: nat)
    requires i < |items| && items[i].id == id
    requires forall j :: 0 <= j < i ==> items[j].id != id
    ensures FindById(items, id) == Some(items[i])
  {
    if i > 0 {
      FindByIdFirst(items[1..], id, i - 1);
    }
  }

  /** The heading `selectItem` shows: the name of the first item of that
      kind with the id, or "Category" / "Channel" when there is none or its
      name is empty. */
  function Title(categories: seq<Channel>, channels: seq<Channel>, kind: SelectionKind, id: string): (r: string)
    ensures r != ""
  {
    var found := FindById(if kind == CategoryItem then categories else channels, id);
    if found.Some? && found.value.name != "" then found.value.name
    else if kind == CategoryItem then "Category" else "Channel"
  }

  /** The heading in terms of the items themselves: the kind's fallback when
      no item has the id; otherwise the name of the first item with the id,
      or the fallback when that name is empty. */
  lemma TitleOfFirst(categories: seq<Channel>, channels: seq<Channel>, kind: SelectionKind, id: string)
    ensures var items, fallback := if kind == CategoryItem then categories else channels,
                                   if kind == CategoryItem then "Category" else "Channel";
            && ((forall i :: 0 <= i < |items| ==> items[i].id != id) ==> Title(categories, channels, kind, id) == fallback)
            && (forall i :: 0 <= i < |items| && items[i].id == id && (forall j :: 0 <= j < i ==> items[j].id != id) ==>
                  Title(categories, channels, kind, id) == if items[i].name != "" then items[i].name else fallback)
  {
    var items := if kind == CategoryItem then categories else channels;
    forall i | 0 <= i < |items| && items[i].id == id && (forall j :: 0 <= j < i ==> items[j].id != id)
      ensures FindById(items, id) == Some(items[i])
    {
      FindByIdFirst(items, id, i);
    }
  }

  /** Appends the rows of `list` to `rows`, as the two row loops of
      `renderTree` do. */
  method PushChannelRows(rows: seq<Row>, list: seq<Channel>, selected: Option<Selection>) returns (out: seq<Row>)
    ensures out == rows + ChannelRows(list, selected)
  {
    out := rows;
    for j := 0 to |list|
      invariant out == rows + ChannelRows(list[..j], selected)
    {
      ChannelRowsPrefix(list, j, selected);
      out := out + [ChannelRowOf(list[j], selected)];
    }
    assert list[..|list|] == list;
  }

  /** Appends a category's block to the blocks of the categories before
      it, as one iteration of the category loop in `renderTree` does. */
  method PushSection(rows: seq<Row>, done: seq<Channel>, cat: Channel, byParent: map<string, seq<Channel>>,
                     chans: seq<Channel>, collapsed: set<string>, selected: Option<Selection>) returns (out: seq<Row>)
    requires forall k :: Lookup(byParent, k) == Bucket(chans, k)
    requires rows == Sections(done, chans, collapsed, selected)
    ensures out == Sections(done + [cat], chans, collapsed, selected)
  {
    var head := CategoryHead(cat, EscapeHtml(cat.name), cat.id in collapsed);
    out := rows + [head];
    if cat.id !in collapsed {
      out := PushChannelRows(out, Lookup(byParent, cat.id), selected);
    }
    SectionsSnoc(done, cat, chans, collapsed, selected);
  }

  /** The uncategorised block, drawn when the "none" group is not empty. */
  method PushUncategorised(byParent: map<string, seq<Channel>>, chans: seq<Channel>, selected: Option<Selection>) returns (rows: seq<Row>)
    requires forall k :: Lookup(byParent, k) == Bucket(chans, k)
    ensures rows == UncategorisedSection(chans, selected)
  {
    rows := [];
    var unc := Lookup(byParent, "none");
    assert unc == Bucket(chans, "none");
    if |unc| > 0 {
      rows := PushChannelRows([UncategorisedHead], unc, selected);
    }
  }

  /** The blocks of the categories, in the order given. */
  method PushSections(cats: seq<Channel>, byParent: map<string, seq<Channel>>, chans: seq<Channel>,
                      collapsed: set<string>, selected: Option<Selection>) returns (rows: seq<Row>)
    requires forall k :: Lookup(byParent, k) == Bucket(chans, k)
    ensures rows == Sections(cats, chans, collapsed, selected)
  {
    rows := [];
    for i := 0 to |cats|
      invariant rows == Sections(cats[..i], chans, collapsed, selected)
    {
      rows := PushSection(rows, cats[..i], cats[i], byParent, chans, collapsed, selected);
      assert cats[..i + 1] == cats[..i] + [cats[i]];
    }
    assert cats[..|cats|] == cats;
  }

  /** `state`: the loaded settings, the guild's name, its categories and
      channels as last loaded, the selection, the collapsed categories, and
      the texts of the heading and the two logs. */
  class State {
    var cfg: Config
    var guildName: string
    var categories: seq<Channel>
    var channels: seq<Channel>
    var selected: Option<Selection>
    var collapsedCats: set<string>
    var selectedTitle: string
    var actionLog: string
    var cmdLog: string

    /** The initial state, with the settings `loadCfg` gave at boot. */
    constructor(cfg: Config)
      ensures this.cfg == cfg && categories == [] && channels == [] && selected == None && collapsedCats == {}
      ensures guildName == "" && selectedTitle == "" && actionLog == "" && cmdLog == ""
    {
      this.cfg := cfg;
      guildName := "";
      categories := [];
      channels := [];
      selected := None;
      collapsedCats := {};
      selectedTitle := "";
      actionLog := "";
      cmdLog := "";
    }

    /** `renderTree`: sorts copies of the categories and channels, groups the
        channels by parent, then draws the uncategorised block and each
        category's block. The state is left as it was. */
    method RenderTree() returns (rows: seq<Row>)
      ensures rows == TreeRows(categories, channels, collapsedCats, selected)
    {
      var chans := SortByPosition(channels);
      var byParent := GroupByParent(chans);
      var top := PushUncategorised(byParent, chans, selected);
      var blocks := PushSections(SortByPosition(categories), byParent, chans, collapsedCats, selected);
      rows := top + blocks;
    }

    /** `toggleCat(id)`: flips the category's collapsed flag and redraws. */
    method ToggleCat(id: string) returns (rows: seq<Row>)
      modifies this
      ensures collapsedCats == Toggled(old(collapsedCats), id)
      ensures cfg == old(cfg) && guildName == old(guildName) && categories == old(categories) && channels == old(channels)
      ensures selected == old(selected) && selectedTitle == old(selectedTitle)
      ensures actionLog == old(actionLog) && cmdLog == old(cmdLog)
      ensures rows == TreeRows(categories, channels, collapsedCats, selected)
    {
      if id in collapsedCats {
        collapsedCats := collapsedCats - {id};
      } else {
        collapsedCats := collapsedCats + {id};
      }
      rows := RenderTree();
    }

    /** `selectItem(kind, id)`: records the selection, shows its title and
        redraws, the selected channel's row now marked active. */
    method SelectItem(kind: SelectionKind, id: string) returns (rows: seq<Row>)
      modifies this
      ensures selected == Some(Selection(kind, id))
      ensures selectedTitle == Title(categories, channels, kind, id)
      ensures cfg == old(cfg) && guildName == old(guildName) && categories == old(categories) && channels == old(channels)
      ensures collapsedCats == old(collapsedCats) && actionLog == old(actionLog) && cmdLog == old(cmdLog)
      ensures rows == TreeRows(categories, channels, collapsedCats, selected)
    {
      selected := Some(Selection(kind, id));
      selectedTitle := Title(categories, channels, kind, id);
      rows := RenderTree();
    }

    /** The guard at the start of `loadGuild`: without a Relay URL the load
        stops with a message in the action log; otherwise the log says the
        load has begun. */
    method BeginLoadGuild() returns (proceed: bool)
      modifies this`actionLog
      ensures proceed <==> cfg.relayUrl != ""
      ensures actionLog == if proceed then "Loading guild state\U{2026}" else "Missing Relay URL. Open Settings."
    {
      if cfg.relayUrl == "" {
        actionLog := "Missing Relay URL. Open Settings.";
        proceed := false;
      } else {
        actionLog := "Loading guild state\U{2026}";
        proceed := true;
      }
    }

    /** The settings form's save handler: a blank Relay URL is refused;
        otherwise the cleaned form is stored (`raw` is the stored text) and
        the settings are loaded again from the build-time layer and the
        store. When the stored text reads back as the saved record and its
        URLs are settled, the state ends up with exactly what was saved. */
    method Save(form: Config, windowConfig: Json, raw: string, parse: string -> Option<Json>) returns (outcome: SaveOutcome)
      modifies this`cfg
      ensures outcome == SaveSettings(form)
      ensures outcome.Rejected? ==> cfg == old(cfg)
      ensures outcome.Persisted? ==>
                cfg == (var loaded := LoadCfg(windowConfig, Some(raw), parse); if loaded.Ok? then loaded.value else old(cfg))
      ensures (&& outcome.Persisted? && Settled(outcome.next.backendUrl) && Settled(outcome.next.relayUrl)
               && raw != "" && parse(raw) == Some(ConfigJson(outcome.next))) ==> cfg == outcome.next
    {
      outcome := SaveSettings(form);
      if outcome.Persisted? {
        var loaded := LoadCfg(windowConfig, Some(raw), parse);
        if loaded.Ok? {
          cfg := loaded.value;
        }
        if Settled(outcome.next.backendUrl) && Settled(outcome.next.relayUrl) && raw != "" && parse(raw) == Some(ConfigJson(outcome.next)) {
          SaveThenLoad(form, windowConfig, raw, parse);
        }
      }
    }

    /** The state part of `loadGuild` once the Relay has answered: the
        guild's name ("Guild" when it has none), its categories sorted in
        place by position, its channels as sent (an absent list is given
        as empty), and a redraw. */
    method ApplyGuildState(name: string, cats: seq<Channel>, chans: seq<Channel>) returns (rows: seq<Row>)
      modifies this`guildName, this`categories, this`channels, this`actionLog
      ensures guildName == (if name == "" then "Guild" else name)
      ensures categories == SortByPosition(cats) && channels == chans
      ensures actionLog == "OK"
      ensures cfg == old(cfg) && selected == old(selected) && collapsedCats == old(collapsedCats)
      ensures selectedTitle == old(selectedTitle) && cmdLog == old(cmdLog)
      ensures rows == TreeRows(categories, channels, collapsedCats, selected)
    {
      StoreGuild(name, cats, chans);
      rows := RenderTree();
      actionLog := "OK";
    }

    /** The assignments `loadGuild` makes before it redraws. */
    method StoreGuild(name: string, cats: seq<Channel>, chans: seq<Channel>)
      modifies this`guildName, this`categories, this`channels
      ensures guildName == (if name == "" then "Guild" else name)
      ensures categories == SortByPosition(cats) && channels == chans
    {
      guildName := if name == "" then "Guild" else name;
      categories := SortByPosition(cats);
      channels := chans;
    }

    /** `doRename` with the prompt's answer. */
    method DoRename(answer: Option<string>) returns (out: Outcome)
      modifies this`actionLog
      ensures out == Rename(selected, answer)
      ensures actionLog == if out.Refused? then out.message else old(actionLog)
    {
      out := Rename(selected, answer);
      if out.Refused? {
        actionLog := out.message;
      }
    }

    /** `doMove` with the prompt's answer. */
    method DoMove(answer: Option<string>) returns (out: Outcome)
      modifies this`actionLog
      ensures out == Move(selected, answer)
      ensures actionLog == if out.Refused? then out.message else old(actionLog)
    {
      out := Move(selected, answer);
      if out.Refused? {
        actionLog := out.message;
      }
    }

    /** `doDelete` with the confirmation's answer. `completed` says whether
        the `relayPost` the handler awaits resolved: only then do the
        statements after it run and clear the selection; when it rejects
        the handler stops there and the selection stays. */
    method DoDelete(confirmed: bool, completed: bool) returns (out: Outcome)
      modifies this
      ensures out == Delete(old(selected), confirmed)
      ensures out.Post? && completed ==> selected == None && selectedTitle == "Select a channel"
      ensures !(out.Post? && completed) ==> selected == old(selected) && selectedTitle == old(selectedTitle)
      ensures actionLog == if out.Refused? then out.message else old(actionLog)
      ensures cfg == old(cfg) && guildName == old(guildName) && categories == old(categories) && channels == old(channels)
      ensures collapsedCats == old(collapsedCats) && cmdLog == old(cmdLog)
    {
      out := Delete(selected, confirmed);
      if out.Refused? {
        actionLog := out.message;
      } else if out.Post? && completed {
        selected := None;
        selectedTitle := "Select a channel";
      }
    }

    /** `doCreate` with the form's type, name and parent. */
    method DoCreate(kind: string, nameInput: string, parentInput: string) returns (out: Outcome)
      modifies this`actionLog
      ensures out == Create(cfg, kind, nameInput, parentInput)
      ensures actionLog == if out.Refused? then out.message else old(actionLog)
    {
      out := Create(cfg, kind, nameInput, parentInput);
      if out.Refused? {
        actionLog := out.message;
      }
    }

    /** `runCmd` with the command form's name and options text. */
    method RunCommand(nameInput: string, optionsText: string, parse: string -> Option<Json>) returns (out: Outcome)
      modifies this`cmdLog
      ensures out == RunCmd(cfg, nameInput, optionsText, parse)
      ensures cmdLog == if out.Refused? then out.message else old(cmdLog)
    {
      out := RunCmd(cfg, nameInput, optionsText, parse);
      if out.Refused? {
        cmdLog := out.message;
      }
    }
  }
}
