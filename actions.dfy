/** The dashboard's actions up to the point where they call the Relay
    (public/app.js): each either refuses with a message for the action log,
    does nothing, or posts a JSON body to a path of the Relay's dashboard
    API. The call itself, its response and the refresh that follows are not
    part of this model. */
module Actions {
  import opened Js
  import opened Settings
  import opened Tree

  /** What an action does with the user's inputs. */
  datatype Outcome =
    | Refused(message: string)
    | Dropped
    | Post(path: string, body: map<string, Json>)

  const RenamePath: string := "/api/dashboard/channel/rename"
  const MovePath: string := "/api/dashboard/channel/move"
  const DeletePath: string := "/api/dashboard/channel/delete"
  const CategoryCreatePath: string := "/api/dashboard/category/create"
  const RoleCreatePath: string := "/api/dashboard/role/create"
  const ChannelCreatePath: string := "/api/dashboard/channel/create"
  const ExecutePath: string := "/api/dashboard/commands/execute"

  /** `guildId: cfg.GUILD_ID || undefined`: `JSON.stringify` drops a property
      whose value is undefined, so the id is sent only when it is set. */
  function GuildPart(cfg: Config): (m: map<string, Json>)
    ensures "guildId" in m <==> cfg.guildId != ""
    ensures "guildId" in m ==> m["guildId"] == Str(cfg.guildId)
    ensures m.Keys <= {"guildId"}
  {
    if cfg.guildId == "" then map[] else map["guildId" := Str(cfg.guildId)]
  }

  /** `doRename`: needs a selection, then a non-empty answer to the prompt
      (None when it is cancelled); the answer is sent as typed, untrimmed,
      for a channel and a category alike. */
  function Rename(selected: Option<Selection>, answer: Option<string>): (r: Outcome)
    ensures r.Refused? <==> selected.None?
    ensures r.Refused? ==> r.message == "Select an item first"
    ensures r.Post? <==> selected.Some? && answer.Some? && answer.value != ""
    ensures r.Post? ==> r.path == RenamePath
                        && r.body == map["channelId" := Str(selected.value.id), "name" := Str(answer.value)]
  {
    if selected.None? then Refused("Select an item first")
    else if answer.None? || answer.value == "" then Dropped
    else Post(RenamePath, map["channelId" := Str(selected.value.id), "name" := Str(answer.value)])
  }

  /** `doMove`: needs a selected channel; an empty or cancelled answer moves
      the channel out of any category (`parentId: null`). */
  function Move(selected: Option<Selection>, answer: Option<string>): (r: Outcome)
    ensures r.Refused? <==> selected.None? || selected.value.kind != ChannelItem
    ensures r.Refused? ==> r.message == "Select a channel first"
    ensures !r.Refused? ==> r.Post? && r.path == MovePath && r.body.Keys == {"channelId", "parentId"}
    ensures r.Post? ==> r.body["channelId"] == Str(selected.value.id)
    ensures r.Post? ==> r.body["parentId"] == if answer.None? || answer.value == "" then Null else Str(answer.value)
  {
    if selected.None? || selected.value.kind != ChannelItem then Refused("Select a channel first")
    else
      var parentId := if answer.None? || answer.value == "" then Null else Str(answer.value);
      Post(MovePath, map["channelId" := Str(selected.value.id), "parentId" := parentId])
  }

  /** Cancelling the move prompt does not cancel the move: it detaches the
      channel, as an empty answer does. */
  lemma MoveCancelDetaches(selected: Option<Selection>)
    requires selected.Some? && selected.value.kind == ChannelItem
    ensures Move(selected, None) == Move(selected, Some(""))
    ensures Move(selected, None).Post? && Move(selected, None).body["parentId"] == Null
  {
  }

  /** `doDelete`: needs a selection, then the user's confirmation. */
  function Delete(selected: Option<Selection>, confirmed: bool): (r: Outcome)
    ensures r.Refused? <==> selected.None?
    ensures r.Refused? ==> r.message == "Select an item first"
    ensures r.Post? <==> selected.Some? && confirmed
    ensures r.Post? ==> r.path == DeletePath && r.body == map["channelId" := Str(selected.value.id)]
  {
    if selected.None? then Refused("Select an item first")
    else if !confirmed then Dropped
    else Post(DeletePath, map["channelId" := Str(selected.value.id)])
  }

  /** `doCreate`: the trimmed name must not be empty. A category or a role
      is created from the guild id and the name alone; anything else is a
      channel of the selected type, under the selected parent (`null` for
      the "(none)" option, whose value is empty). */
  function Create(cfg: Config, kind: string, nameInput: string, parentInput: string): (r: Outcome)
    ensures r.Refused? <==> AllWhitespace(nameInput)
    ensures r.Refused? ==> r.message == "Missing name"
    ensures !r.Refused? ==> r.Post?
    ensures r.Post? ==> ("guildId" in r.body <==> cfg.guildId != "")
    ensures r.Post? && "guildId" in r.body ==> r.body["guildId"] == Str(cfg.guildId)
    ensures r.Post? ==> "name" in r.body && r.body["name"] == Str(Trim(nameInput))
    ensures r.Post? && kind == "category" ==> r.path == CategoryCreatePath && r.body.Keys == GuildPart(cfg).Keys + {"name"}
    ensures r.Post? && kind == "role" ==> r.path == RoleCreatePath && r.body.Keys == GuildPart(cfg).Keys + {"name"}
    ensures r.Post? && kind != "category" && kind != "role" ==>
              && r.path == ChannelCreatePath
              && r.body.Keys == GuildPart(cfg).Keys + {"name", "parentId", "type"}
              && r.body["parentId"] == (if parentInput == "" then Null else Str(parentInput))
              && r.body["type"] == Str(kind)
  {
    var name := Trim(nameInput);
    if name == "" then Refused("Missing name")
    else
      var guild := GuildPart(cfg);
      if kind == "category" then Post(CategoryCreatePath, guild["name" := Str(name)])
      else if kind == "role" then Post(RoleCreatePath, guild["name" := Str(name)])
      else
        var parentId := if parentInput == "" then Null else Str(parentInput);
        Post(ChannelCreatePath, guild["name" := Str(name)]["parentId" := parentId]["type" := Str(kind)])
  }

  /** The parent selector matters only when a channel is created. */
  lemma CreateIgnoresParentUnlessChannel(cfg: Config, kind: string, nameInput: string, p: string, q: string)
    requires kind == "category" || kind == "role"
    ensures Create(cfg, kind, nameInput, p) == Create(cfg, kind, nameInput, q)
  {
  }

  /** `safeJson(text || "")`: the options typed for a command; `JSON.parse`
      throws on empty text, which gives `null`. */
  function ParseOptions(text: string, parse: string -> Option<Json>): (r: Json)
    ensures text == "" ==> r == Null
    ensures r != Null ==> parse(text) == Some(r)
    ensures text != "" && parse(text).Some? ==> r == parse(text).value
  {
    if text == "" then Null else SafeJson(parse(text))
  }

  /** `runCmd`: the trimmed command name is checked first, then the options
      must parse to an object (not null, not an array, not a primitive). */
  function RunCmd(cfg: Config, nameInput: string, optionsText: string, parse: string -> Option<Json>): (r: Outcome)
    ensures AllWhitespace(nameInput) ==> r == Refused("Missing command")
    ensures !AllWhitespace(nameInput) && !ParseOptions(optionsText, parse).Object? ==>
              r == Refused("Options must be a JSON object")
    ensures r.Post? <==> !AllWhitespace(nameInput) && ParseOptions(optionsText, parse).Object?
    ensures !r.Post? ==> r.Refused?
    ensures r.Post? ==> && r.path == ExecutePath
                        && r.body.Keys == GuildPart(cfg).Keys + {"name", "options"}
                        && r.body["name"] == Str(Trim(nameInput))
                        && r.body["options"] == ParseOptions(optionsText, parse)
                        && ("guildId" in r.body ==> r.body["guildId"] == Str(cfg.guildId))
  {
    var name := Trim(nameInput);
    var options := ParseOptions(optionsText, parse);
    if name == "" then Refused("Missing command")
    else if !options.Object? then Refused("Options must be a JSON object")
    else Post(ExecutePath, GuildPart(cfg)["name" := Str(name)]["options" := options])
  }

  /** Options that are not text of a JSON object are refused whatever
      command is named, unless the name is blank, which is reported first. */
  lemma RunCmdRejectsArrays(cfg: Config, nameInput: string, optionsText: string, parse: string -> Option<Json>)
    requires optionsText != "" && parse(optionsText).Some? && parse(optionsText).value.Array?
    ensures RunCmd(cfg, nameInput, optionsText, parse).Refused?
  {
  }
}
