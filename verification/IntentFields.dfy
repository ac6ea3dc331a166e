/**
 What the metadata reads after an intent has been carried out: which field of the intent is
 found under which path, for every template, metadata and intent, and what is left alone.
 */
module IntentFields {
  import opened GoStrings
  import opened Json
  import opened MetaCodec
  import opened Merge
  import opened PartyTypes
  import opened PatchPlan
  import K = PatchKeeps
  import R = Reducer

  /** The metadata after the patch that is built from it. */
  function After(template: Meta, meta: Meta, plan: Plan): Meta {
    Patched(meta, Updates(template, meta, plan))
  }

  // ---- one key ----

  lemma SettledField(key: string, text: Text, root: string, writes: Fields, field: string)
    requires Settled(key, text, Within(root, writes)) && field in writes
    ensures TreeGet(Obj(DecodeJsonMap(text)), [root, field]) == Some(writes[field])
  {
    var o := DecodeJsonMap(text);
    assert [root, field][1..] == [field] && [field][1..] == [];
    assert TreeGet(Obj(o), [root, field]) == TreeGet(o[root], [field]);
    assert TreeGet(o[root], [field]) == TreeGet(o[root].fields[field], []);
  }

  /** A written field reads as written. */
  lemma WrittenField(template: Meta, meta: Meta, plan: Plan, key: string, root: string, writes: Fields, field: string)
    requires WellKeyed(plan) && key in plan && plan[key] == Within(root, writes) && field in writes
    ensures K.Inside(After(template, meta, plan), key, [root, field]) == Some(writes[field])
  {
    hide Settled, Patched, Updates, TreeGet, WellKeyed;
    PatchedSettles(template, meta, plan);
    SettledField(key, Get(After(template, meta, plan), key), root, writes, field);
  }

  /** A plain value reads as it is serialized. */
  lemma WrittenValue(template: Meta, meta: Meta, plan: Plan, key: string, value: Tree)
    requires WellKeyed(plan) && key in plan && plan[key] == Is(value)
    ensures Get(After(template, meta, plan), key) == SerializeMetaValue(key, value)
  {
    hide Patched, Updates, WellKeyed, SerializeMetaValue;
    PatchedSettles(template, meta, plan);
  }

  /** Another field of the edited object reads as in the object the edit started from. */
  lemma KeptField(template: Meta, meta: Meta, plan: Plan, key: string, root: string, writes: Fields, field: string)
    requires WellKeyed(plan) && key in plan && plan[key] == Within(root, writes) && field !in writes
    ensures K.Inside(After(template, meta, plan), key, [root, field])
      == Lookup(AsJsonMap(Lookup(Start(template, meta, key), root)), field)
  {
    hide HasSuffix, Baseline, Updates, Settled, TreeGet;
    var start := Start(template, meta, key);
    UpdateIff(template, meta, plan, key);
    var o := DecodeJsonMap(Get(After(template, meta, plan), key));
    if key in Updates(template, meta, plan) {
      K.PlannedOnly(template, meta, plan, key);
      K.SentText(template, meta, meta, plan, key);
      StartIsRead(template, meta, key);
      assert DecodeJsonMap(Canonical(Obj(Edit(start, root, writes)))) == Edit(start, root, writes);
    } else {
      StoredRoot(key, Get(meta, key), root, writes);
    }
    ReadField(o, root, field);
  }

  lemma StoredRoot(key: string, text: Text, root: string, writes: Fields)
    requires Settled(key, text, Within(root, writes))
    ensures text != EMPTY
    ensures var o := DecodeJsonMap(text); root in o && o[root].Obj?
  {
  }

  lemma ReadField(o: Fields, root: string, field: string)
    requires root in o && o[root].Obj?
    ensures TreeGet(Obj(o), [root, field]) == Lookup(AsJsonMap(Lookup(o, root)), field)
  {
    assert [root, field][1..] == [field] && [field][1..] == [];
    assert TreeGet(Obj(o), [root, field]) == TreeGet(o[root], [field]);
    if field in o[root].fields {
      assert TreeGet(o[root], [field]) == TreeGet(o[root].fields[field], []);
    }
  }

  /** Where the metadata has no such object, another field is the template's; where it has one, it is the metadata's. */
  lemma KeptFromWhere(template: Meta, meta: Meta, plan: Plan, key: string, root: string, writes: Fields, field: string,
                      o: Fields)
    requires WellKeyed(plan) && key in plan && plan[key] == Within(root, writes) && field !in writes
    requires root in o ==> o[root].Obj?
    requires Lookup(meta, key) == Some(Canonical(Obj(o)))
      || (key !in meta && Lookup(template, key) == Some(Canonical(Obj(o))))
    ensures K.Inside(After(template, meta, plan), key, [root, field])
      == if root in o then Lookup(o[root].fields, field) else None
  {
    hide K.Inside, WellKeyed, After;
    KeptField(template, meta, plan, key, root, writes, field);
    assert Start(template, meta, key) == o;
  }

  // ---- the plans, key by key ----

  lemma OneKey(b: bool, key: string, goal: Goal)
    ensures When(b, key, goal).Keys == if b then {key} else {}
    ensures b ==> When(b, key, goal)[key] == goal
  {
  }

  lemma PartyKeys(i: Intent)
    ensures var p := PartyPlan(i);
      && p.Keys == (if i.customKey.Some? then {CUSTOM_KEY} else {})
         + (if i.playlist.Some? then {SQUAD_FILL, SELECTED_ISLAND} else {})
         + (if i.playlist.Some? && i.playlist.value.region != "" then {REGION} else {})
      && (i.customKey.Some? ==> p[CUSTOM_KEY] == Is(FromString(TrimSpace(i.customKey.value))))
      && (i.playlist.Some? ==>
            && p[SQUAD_FILL] == Is(Atom(Bool(i.playlist.value.teamFill)))
            && p[SELECTED_ISLAND] == Within("SelectedIsland", LinkWrites(i.playlist.value.playlistID))
            && (i.playlist.value.region != "" ==> p[REGION] == Is(FromString(i.playlist.value.region))))
  {
    hide LinkWrites, When, TrimSpace;
    KeysDiffer();
    var q := PlaylistOf(i);
    OneKey(i.customKey.Some?, CUSTOM_KEY, Is(FromString(CustomKeyOf(i))));
    OneKey(i.playlist.Some?, SQUAD_FILL, Is(Atom(Bool(q.teamFill))));
    OneKey(i.playlist.Some? && q.region != "", REGION, Is(FromString(q.region)));
    OneKey(i.playlist.Some?, SELECTED_ISLAND, Within("SelectedIsland", LinkWrites(q.playlistID)));
  }

  /** Whether an intent asks for an emote, or for none. */
  predicate Emotes(i: Intent) {
    (i.loadout.Some? && i.loadout.value.emote != EMPTY) || i.clearEmote
        || (i.emoteID.Some? && TrimSpace(i.emoteID.value) != "")
  }

  predicate Dresses(i: Intent) {
    i.outfitID.Some? && NormalizeOutfitID(i.outfitID.value) != ""
  }

  /** One part more of a plan, under a key of its own. */
  lemma OnePart(p: Plan, b: bool, key: string, goal: Goal)
    requires key !in p
    ensures var q := p + When(b, key, goal);
      && (key in q <==> b) && (b ==> q[key] == goal)
      && (forall k | k != key :: (k in q <==> k in p) && (k in p ==> q[k] == p[k]))
  {
  }

  lemma MemberKeys(i: Intent, at: int)
    ensures var p := MemberPlan(i, at);
      && (LOBBY in p <==> i.ready.Some?)
      && (MATCHMAKING in p <==> i.playlist.Some?)
      && (COSMETICS in p <==> i.loadout.Some? || Dresses(i))
      && (MP_LOADOUT in p <==> Dresses(i))
      && (EMOTE in p <==> Emotes(i))
      && (forall key | key in p :: key in [LOBBY, MATCHMAKING, COSMETICS, MP_LOADOUT, EMOTE])
      && (i.ready.Some? ==> p[LOBBY] == Within("LobbyState", ReadyWrites(i.ready.value)))
      && (i.playlist.Some?
          ==> p[MATCHMAKING] == Within("MatchmakingInfo", IslandWrites(i.playlist.value.playlistID, at)))
      && (i.loadout.Some? || Dresses(i) ==> p[COSMETICS] == Within("AthenaCosmeticLoadout", CosmeticWrites(i)))
      && (Dresses(i) ==> p[MP_LOADOUT] == OutfitSlot(NormalizeOutfitID(i.outfitID.value)))
      && (Emotes(i) ==> p[EMOTE] == Within("FrontendEmote", EmoteWrites(i)))
  {
    hide ReadyWrites, IslandWrites, CosmeticWrites, EmoteWrites, OutfitOf, EmoteOf, LoadoutEmotes, PlaylistOf, ReadyOf,
         When, NormalizeOutfitID, TrimSpace, Dresses, Emotes;
    KeysDiffer();
    PartsOf(i);
    var dresses, emotes := OutfitOf(i) != "", LoadoutEmotes(i) || i.clearEmote || EmoteOf(i) != "";
    var ready := Within("LobbyState", ReadyWrites(ReadyOf(i)));
    var island := Within("MatchmakingInfo", IslandWrites(PlaylistOf(i).playlistID, at));
    var look, emote := Within("AthenaCosmeticLoadout", CosmeticWrites(i)), Within("FrontendEmote", EmoteWrites(i));
    var p1 := When(i.ready.Some?, LOBBY, ready);
    var p2 := p1 + When(i.playlist.Some?, MATCHMAKING, island);
    var p3 := p2 + When(i.loadout.Some? || dresses, COSMETICS, look);
    var p4 := p3 + When(dresses, MP_LOADOUT, OutfitSlot(OutfitOf(i)));
    OneKey(i.ready.Some?, LOBBY, ready);
    OnePart(p1, i.playlist.Some?, MATCHMAKING, island);
    OnePart(p2, i.loadout.Some? || dresses, COSMETICS, look);
    OnePart(p3, dresses, MP_LOADOUT, OutfitSlot(OutfitOf(i)));
    OnePart(p4, emotes, EMOTE, emote);
  }

  lemma PartsOf(i: Intent)
    ensures i.ready.Some? ==> ReadyOf(i) == i.ready.value
    ensures i.playlist.Some? ==> PlaylistOf(i) == i.playlist.value
    ensures Dresses(i) <==> OutfitOf(i) != ""
    ensures Dresses(i) ==> OutfitOf(i) == NormalizeOutfitID(i.outfitID.value)
    ensures Emotes(i) <==> LoadoutEmotes(i) || i.clearEmote || EmoteOf(i) != ""
  {
    hide NormalizeOutfitID, TrimSpace;
  }

  // ---- the party ----

  /** What a custom key and a playlist request are found as, in every party. */
  lemma PartyReads(template: Meta, meta: Meta, i: Intent)
    ensures var after := After(template, meta, PartyPlan(i));
      && (i.customKey.Some? ==> Get(after, "Default:CustomMatchKey_s") == Plain(TrimSpace(i.customKey.value)))
      && (i.playlist.Some? ==>
            var request := i.playlist.value;
            && Get(after, "Default:AthenaSquadFill_b") == Plain(if request.teamFill then "true" else "false")
            && (request.region != "" ==> Get(after, "Default:RegionId_s") == Plain(request.region))
            && K.Inside(after, "Default:SelectedIsland_j", ["SelectedIsland", "linkId"])
               == Some(Obj(map["mnemonic" := FromString(ToLower(request.playlistID)), "version" := FromInt(-1)])))
  {
    hide After, PartyPlan, LinkWrites, WellKeyed, TrimSpace, ToLower, K.Inside, SerializeMetaValue;
    var plan := PartyPlan(i);
    PlansWellKeyed(i, 0);
    PartyKeys(i);
    if i.customKey.Some? {
      WrittenValue(template, meta, plan, CUSTOM_KEY, FromString(TrimSpace(i.customKey.value)));
      PlainText(CUSTOM_KEY, TrimSpace(i.customKey.value));
    }
    if i.playlist.Some? {
      var request := i.playlist.value;
      WrittenValue(template, meta, plan, SQUAD_FILL, Atom(Bool(request.teamFill)));
      BoolText(request.teamFill);
      LinkField(request.playlistID);
      WrittenField(template, meta, plan, SELECTED_ISLAND, "SelectedIsland", LinkWrites(request.playlistID), "linkId");
      if request.region != "" {
        WrittenValue(template, meta, plan, REGION, FromString(request.region));
        PlainText(REGION, request.region);
      }
    }
  }

  lemma PlainText(key: string, s: string)
    requires key == CUSTOM_KEY || key == REGION
    ensures SerializeMetaValue(key, FromString(s)) == Plain(s)
  {
  }

  lemma BoolText(b: bool)
    ensures SerializeMetaValue(SQUAD_FILL, Atom(Bool(b))) == Plain(if b then "true" else "false")
  {
  }

  lemma LinkField(playlistID: string)
    ensures LinkWrites(playlistID).Keys == {"linkId"}
    ensures LinkWrites(playlistID)["linkId"]
      == Obj(map["mnemonic" := FromString(ToLower(playlistID)), "version" := FromInt(-1)])
  {
    hide ToLower;
  }

  /** Every other key of the party is as it was. */
  lemma PartyFrame(template: Meta, meta: Meta, i: Intent, key: string)
    requires key == "Default:CustomMatchKey_s" ==> i.customKey.None?
    requires key in {"Default:AthenaSquadFill_b", "Default:SelectedIsland_j"} ==> i.playlist.None?
    requires key == "Default:RegionId_s" ==> i.playlist.None? || i.playlist.value.region == ""
    ensures Lookup(After(template, meta, PartyPlan(i)), key) == Lookup(meta, key)
  {
    hide PartyPlan, Updates, Patched;
    PartyKeys(i);
    OnlyPlannedKeys(template, meta, PartyPlan(i), key);
  }

  // ---- the member: readiness and playlist ----

  lemma ReadyReads(template: Meta, meta: Meta, i: Intent, at: int)
    requires i.ready.Some?
    ensures var after := After(template, meta, MemberPlan(i, at));
      && K.Inside(after, "Default:LobbyState_j", ["LobbyState", "gameReadiness"]) == Some(FromString(i.ready.value))
      && K.Inside(after, "Default:LobbyState_j", ["LobbyState", "readyInputType"])
         == Some(FromString(if i.ready.value == "Ready" then "MouseAndKeyboard" else "Count"))
  {
    hide After, MemberPlan, WellKeyed, K.Inside;
    PlansWellKeyed(i, at);
    MemberKeys(i, at);
    var writes := ReadyWrites(i.ready.value);
    assert |"gameReadiness"| == 13 && |"readyInputType"| == 14;
    WrittenField(template, meta, MemberPlan(i, at), LOBBY, "LobbyState", writes, "gameReadiness");
    WrittenField(template, meta, MemberPlan(i, at), LOBBY, "LobbyState", writes, "readyInputType");
  }

  /** Both entries name the playlist as it was spelled, in a JSON text of its own, with the time. */
  lemma IslandReads(template: Meta, meta: Meta, i: Intent, at: int)
    requires i.playlist.Some?
    ensures var after := After(template, meta, MemberPlan(i, at));
      var link := Canonical(Obj(map["LinkId" := FromString(i.playlist.value.playlistID)]));
      var entry := Obj(map["island" := Atom(Str(link)), "timestamp" := FromInt(at)]);
      && K.Inside(after, "Default:MatchmakingInfo_j", ["MatchmakingInfo", "islandSelection"]) == Some(entry)
      && K.Inside(after, "Default:MatchmakingInfo_j", ["MatchmakingInfo", "currentIsland"]) == Some(entry)
  {
    hide After, MemberPlan, WellKeyed, K.Inside;
    PlansWellKeyed(i, at);
    MemberKeys(i, at);
    var writes := IslandWrites(i.playlist.value.playlistID, at);
    assert |"islandSelection"| == 15 && |"currentIsland"| == 13;
    WrittenField(template, meta, MemberPlan(i, at), MATCHMAKING, "MatchmakingInfo", writes, "islandSelection");
    WrittenField(template, meta, MemberPlan(i, at), MATCHMAKING, "MatchmakingInfo", writes, "currentIsland");
  }

  // ---- the member: loadout and outfit ----

  lemma GivenField(field: string, value: Text)
    ensures Given(field, value).Keys == if value == EMPTY then {} else {field}
    ensures value != EMPTY ==> Given(field, value)[field] == Atom(Str(value))
  {
  }

  predicate Look(i: Intent, writes: Fields, field: string, value: Text) {
    if value == EMPTY then field !in writes else field in writes && writes[field] == Atom(Str(value))
  }

  /** The loadout's text for the character, unless the outfit overrides it. */
  function CharacterOf(i: Intent): Text {
    if Dresses(i) then Plain("AthenaCharacter:" + NormalizeOutfitID(i.outfitID.value))
    else if i.loadout.Some? then i.loadout.value.character
    else EMPTY
  }

  lemma CosmeticFields(i: Intent)
    ensures var w := CosmeticWrites(i);
      && Look(i, w, "characterPrimaryAssetId", CharacterOf(i))
      && Look(i, w, "backpackDef", if i.loadout.Some? then i.loadout.value.backpack else EMPTY)
      && Look(i, w, "pickaxeDef", if i.loadout.Some? then i.loadout.value.pickaxe else EMPTY)
  {
    hide NormalizeOutfitID, Given, Dresses, OutfitOf;
    PartsOf(i);
    var l := LoadoutOf(i);
    assert |"characterPrimaryAssetId"| == 23 && |"backpackDef"| == 11 && |"pickaxeDef"| == 10;
    GivenField("characterPrimaryAssetId", l.character);
    GivenField("backpackDef", l.backpack);
    GivenField("pickaxeDef", l.pickaxe);
  }

  /**
   A field of the cosmetic object after the patch: the given text, or what it was before, in the
   template where the member has no such object, if none is given.
   */
  predicate LookReads(template: Meta, meta: Meta, after: Meta, field: string, given: Text) {
    K.Inside(after, "Default:AthenaCosmeticLoadout_j", ["AthenaCosmeticLoadout", field])
    == if given != EMPTY then Some(Atom(Str(given)))
       else Lookup(AsJsonMap(Lookup(Start(template, meta, "Default:AthenaCosmeticLoadout_j"),
                                    "AthenaCosmeticLoadout")), field)
  }

  lemma LookAfter(template: Meta, meta: Meta, i: Intent, at: int, field: string, given: Text)
    requires i.loadout.Some? || Dresses(i)
    requires Look(i, CosmeticWrites(i), field, given)
    ensures LookReads(template, meta, After(template, meta, MemberPlan(i, at)), field, given)
  {
    hide After, MemberPlan, WellKeyed, K.Inside, CosmeticWrites, Start, Dresses;
    PlansWellKeyed(i, at);
    MemberKeys(i, at);
    var writes := CosmeticWrites(i);
    if given != EMPTY {
      WrittenField(template, meta, MemberPlan(i, at), COSMETICS, "AthenaCosmeticLoadout", writes, field);
    } else {
      KeptField(template, meta, MemberPlan(i, at), COSMETICS, "AthenaCosmeticLoadout", writes, field);
    }
  }

  /** Which text of a loadout and of an outfit is found where. */
  lemma LoadoutReads(template: Meta, meta: Meta, i: Intent, at: int)
    requires i.loadout.Some? || Dresses(i)
    ensures var after := After(template, meta, MemberPlan(i, at));
      && LookReads(template, meta, after, "characterPrimaryAssetId", CharacterOf(i))
      && LookReads(template, meta, after, "backpackDef", if i.loadout.Some? then i.loadout.value.backpack else EMPTY)
      && LookReads(template, meta, after, "pickaxeDef", if i.loadout.Some? then i.loadout.value.pickaxe else EMPTY)
  {
    hide After, MemberPlan, LookReads, CosmeticWrites, Dresses, CharacterOf, Look;
    CosmeticFields(i);
    LookAfter(template, meta, i, at, "characterPrimaryAssetId", CharacterOf(i));
    LookAfter(template, meta, i, at, "backpackDef", if i.loadout.Some? then i.loadout.value.backpack else EMPTY);
    LookAfter(template, meta, i, at, "pickaxeDef", if i.loadout.Some? then i.loadout.value.pickaxe else EMPTY);
  }

  /** The outfit is also found in the text inside the outfit object. */
  lemma OutfitReads(template: Meta, meta: Meta, i: Intent, at: int)
    requires Dresses(i)
    ensures var after := After(template, meta, MemberPlan(i, at));
      exists inner: Fields ::
        && K.Inside(after, "Default:MpLoadout_j", ["MpLoadout", "d"]) == Some(Atom(Str(Canonical(Obj(inner)))))
        && TreeGet(Obj(inner), ["ac", "i"]) == Some(FromString(NormalizeOutfitID(i.outfitID.value)))
  {
    hide After, MemberPlan, WellKeyed, NormalizeOutfitID, Settled, SlotSettled, TreeGet;
    var plan := MemberPlan(i, at);
    var id := NormalizeOutfitID(i.outfitID.value);
    PlansWellKeyed(i, at);
    MemberKeys(i, at);
    PatchedIsSettled(template, meta, plan, MP_LOADOUT);
    var o := DecodeJsonMap(Get(After(template, meta, plan), MP_LOADOUT));
    SlotOf(Get(After(template, meta, plan), MP_LOADOUT), id);
    var d: Fields, ac: Fields :| SlotSettled(o, d, ac, id);
    SlotReads(o, d, ac, id);
  }

  lemma PatchedIsSettled(template: Meta, meta: Meta, plan: Plan, key: string)
    requires WellKeyed(plan) && key in plan
    ensures Settled(key, Get(After(template, meta, plan), key), plan[key])
  {
    hide Settled, Updates, Patched, WellKeyed;
    PatchedSettles(template, meta, plan);
  }

  lemma SlotOf(text: Text, id: string)
    requires Settled(MP_LOADOUT, text, OutfitSlot(id))
    ensures exists d: Fields, ac: Fields :: SlotSettled(DecodeJsonMap(text), d, ac, id)
  {
    hide SlotSettled;
  }

  lemma SlotReads(o: Fields, d: Fields, ac: Fields, id: string)
    requires SlotSettled(o, d, ac, id)
    ensures TreeGet(Obj(o), ["MpLoadout", "d"]) == Some(Atom(Str(Canonical(Obj(d)))))
    ensures TreeGet(Obj(d), ["ac", "i"]) == Some(FromString(id))
  {
    ReadField(o, "MpLoadout", "d");
    ReadField(d, "ac", "i");
  }

  // ---- the member: emotes ----

  /** A named emote wins over clearing, and clearing over the loadout's emote. */
  lemma EmoteReads(template: Meta, meta: Meta, i: Intent, at: int)
    requires Emotes(i)
    ensures var after := After(template, meta, MemberPlan(i, at));
      var named := i.emoteID.Some? && TrimSpace(i.emoteID.value) != "";
      && K.Inside(after, "Default:FrontendEmote_j", ["FrontendEmote", "pickable"])
         == Some(if named then FromString(BuildEmotePath(i.emoteID.value)) else if i.clearEmote then FromString("None")
                 else Atom(Str(i.loadout.value.emote)))
      && K.Inside(after, "Default:FrontendEmote_j", ["FrontendEmote", "emoteSection"])
         == if named then Some(FromInt(-2)) else if i.clearEmote then Some(FromInt(-1))
            else Lookup(AsJsonMap(Lookup(Start(template, meta, "Default:FrontendEmote_j"), "FrontendEmote")),
                        "emoteSection")
  {
    hide After, MemberPlan, WellKeyed, K.Inside, EmoteWrites, Start, BuildEmotePath, TrimSpace;
    PlansWellKeyed(i, at);
    MemberKeys(i, at);
    EmoteFields(i);
    var writes := EmoteWrites(i);
    WrittenField(template, meta, MemberPlan(i, at), EMOTE, "FrontendEmote", writes, "pickable");
    if "emoteSection" in writes {
      WrittenField(template, meta, MemberPlan(i, at), EMOTE, "FrontendEmote", writes, "emoteSection");
    } else {
      KeptField(template, meta, MemberPlan(i, at), EMOTE, "FrontendEmote", writes, "emoteSection");
    }
  }

  lemma EmoteFields(i: Intent)
    requires Emotes(i)
    ensures var w, named := EmoteWrites(i), i.emoteID.Some? && TrimSpace(i.emoteID.value) != "";
      && "pickable" in w
      && w["pickable"] == (if named then FromString(BuildEmotePath(i.emoteID.value))
                           else if i.clearEmote then FromString("None") else Atom(Str(i.loadout.value.emote)))
      && ("emoteSection" in w <==> named || i.clearEmote)
      && (named || i.clearEmote ==> w["emoteSection"] == FromInt(if named then -2 else -1))
  {
    hide TrimSpace;
    assert |"pickable"| == 8 && |"emoteSection"| == 12;
    if i.emoteID.Some? { PathOfTrimmed(i.emoteID.value); }
  }

  lemma PathOfTrimmed(id: string)
    ensures BuildEmotePath(TrimSpace(id)) == BuildEmotePath(id)
  {
    hide TrimSpace;
    TrimTwice(id);
  }

  /** Every other key of the member is as it was. */
  lemma MemberFrame(template: Meta, meta: Meta, i: Intent, at: int, key: string)
    requires key == "Default:LobbyState_j" ==> i.ready.None?
    requires key == "Default:MatchmakingInfo_j" ==> i.playlist.None?
    requires key == "Default:AthenaCosmeticLoadout_j" ==> i.loadout.None? && !Dresses(i)
    requires key == "Default:MpLoadout_j" ==> !Dresses(i)
    requires key == "Default:FrontendEmote_j" ==> !Emotes(i)
    ensures Lookup(After(template, meta, MemberPlan(i, at)), key) == Lookup(meta, key)
  {
    hide MemberPlan, Updates, Patched, Dresses, Emotes;
    MemberKeys(i, at);
    OnlyPlannedKeys(template, meta, MemberPlan(i, at), key);
  }

  // ---- what is shown of it ----

  /** How a text that the client extracts is shown. */
  function ShownText(value: Option<Tree>): Text {
    match value
    case None => EMPTY
    case Some(t) => if Sprint(t) == Plain("<nil>") then EMPTY else Sprint(t)
  }

  /** The fields a loadout is read from. */
  lemma LoadoutIsRead(look: Text, emote: Text)
    ensures var l := R.ExtractLoadout(look, emote);
      && l.character == ShownText(TreeGet(Obj(DecodeJsonMap(look)),
                                          ["AthenaCosmeticLoadout", "characterPrimaryAssetId"]))
      && l.backpack == ShownText(TreeGet(Obj(DecodeJsonMap(look)), ["AthenaCosmeticLoadout", "backpackDef"]))
      && l.pickaxe == ShownText(TreeGet(Obj(DecodeJsonMap(look)), ["AthenaCosmeticLoadout", "pickaxeDef"]))
      && l.emote == ShownText(TreeGet(Obj(DecodeJsonMap(emote)), ["FrontendEmote", "pickable"]))
  {
    hide TreeGet, ShownText, R.Printable;
    PrintableAt(DecodeJsonMap(look), "AthenaCosmeticLoadout", "characterPrimaryAssetId");
    PrintableAt(DecodeJsonMap(look), "AthenaCosmeticLoadout", "backpackDef");
    PrintableAt(DecodeJsonMap(look), "AthenaCosmeticLoadout", "pickaxeDef");
    PrintableAt(DecodeJsonMap(emote), "FrontendEmote", "pickable");
  }

  lemma PrintableAt(o: Fields, root: string, field: string)
    ensures R.Printable(DecodeJsonMapValue(o, root), field) == ShownText(TreeGet(Obj(o), [root, field]))
  {
    assert [root, field][1..] == [field] && [field][1..] == [];
    if root in o && o[root].Obj? {
      ReadField(o, root, field);
    } else if root in o {
      assert TreeGet(Obj(o), [root, field]) == TreeGet(o[root], [field]);
    }
  }

  /** The field readiness is read from. */
  lemma ReadyIsRead(text: Text)
    ensures R.ExtractReady(text) == if TreeGet(Obj(DecodeJsonMap(text)), ["LobbyState", "gameReadiness"]).Some?
              && Sprint(TreeGet(Obj(DecodeJsonMap(text)), ["LobbyState", "gameReadiness"]).value) == Plain("Ready")
            then "Ready" else "NotReady"
  {
    var o := DecodeJsonMap(text);
    assert ["LobbyState", "gameReadiness"][1..] == ["gameReadiness"];
    if "LobbyState" in o && o["LobbyState"].Obj? {
      ReadField(o, "LobbyState", "gameReadiness");
    } else if "LobbyState" in o {
      assert TreeGet(Obj(o), ["LobbyState", "gameReadiness"]) == TreeGet(o["LobbyState"], ["gameReadiness"]);
    }
    assert Plain("<nil>") != Plain("Ready") by { assert "<nil>"[0] != "Ready"[0]; }
  }

  /** The fields a playlist is read from: an island's own link, or the link it was given. */
  lemma PlaylistIsRead(text: Text)
    ensures var link := ShownText(TreeGet(Obj(DecodeJsonMap(text)), ["SelectedIsland", "LinkId"]));
      R.ExtractPlaylist(text)
      == if link != EMPTY && link != Canonical(Obj(map[])) then link
         else ShownText(TreeGet(Obj(DecodeJsonMap(text)), ["SelectedIsland", "linkId", "mnemonic"]))
  {
    hide ShownText, R.Printable;
    var o := DecodeJsonMap(text);
    PrintableAt(o, "SelectedIsland", "LinkId");
    var island := DecodeJsonMapValue(o, "SelectedIsland");
    PrintableAt(island, "linkId", "mnemonic");
    var path := ["SelectedIsland", "linkId", "mnemonic"];
    assert path[1..] == ["linkId", "mnemonic"];
    if "SelectedIsland" in o && o["SelectedIsland"].Obj? {
      assert TreeGet(Obj(o), path) == TreeGet(Obj(island), ["linkId", "mnemonic"]);
    } else {
      NothingThere(o, path);
    }
  }

  lemma NothingThere(o: Fields, path: seq<string>)
    requires |path| > 1 && (path[0] in o ==> !o[path[0]].Obj?)
    ensures TreeGet(Obj(o), path).None?
    ensures R.Printable(map[], "mnemonic") == EMPTY == ShownText(None)
    ensures R.Printable(DecodeJsonMapValue(map[], "linkId"), "mnemonic") == EMPTY
  {
    if path[0] in o { assert TreeGet(Obj(o), path) == TreeGet(o[path[0]], path[1..]); }
  }

  /** A loadout whose every field is given is shown as it was given, whatever the member wore before. */
  lemma LoadoutReadsBack(template: Meta, meta: Meta, l: Loadout, at: int)
    requires EMPTY !in {l.character, l.backpack, l.pickaxe, l.emote}
    requires Plain("<nil>") !in {l.character, l.backpack, l.pickaxe, l.emote}
    ensures var i := Intent(None, None, None, Some(l), None, None, false);
      var after := After(template, meta, MemberPlan(i, at));
      R.ExtractLoadout(Get(after, COSMETICS), Get(after, EMOTE)) == l
  {
    hide After, MemberPlan, TreeGet, Start, R.ExtractLoadout;
    var i := Intent(None, None, None, Some(l), None, None, false);
    var after := After(template, meta, MemberPlan(i, at));
    LoadoutReads(template, meta, i, at);
    EmoteReads(template, meta, i, at);
    LoadoutIsRead(Get(after, COSMETICS), Get(after, EMOTE));
  }

  // ---- spelling of outfits and emotes ----

  /** An outfit is named with or without its prefix, and with white space around either. */
  lemma OutfitNamed(left: string, pad: string, name: string, right: string)
    requires (forall c | c in left + pad + right :: IsSpace(c)) && Trimmed(name) && name != ""
    ensures NormalizeOutfitID(left + "AthenaCharacter:" + pad + name + right) == name
    ensures !("AthenaCharacter:" <= name) ==> NormalizeOutfitID(left + name + right) == name
  {
    hide TrimSpace;
    var prefixed := "AthenaCharacter:" + pad + name;
    assert forall c | c in left + right :: c in left + pad + right;
    assert forall c | c in pad + "" :: c in left + pad + right;
    assert left + "AthenaCharacter:" + pad + name + right == left + prefixed + right;
    assert prefixed[0] == 'A' && prefixed[|prefixed| - 1] == name[|name| - 1];
    TrimSpaceOf(left, prefixed, right);
    assert prefixed[|"AthenaCharacter:"|..] == pad + name + "";
    TrimSpaceOf(pad, name, "");
    TrimSpaceOf(left, name, right);
    TrimmedIsFixed(name);
  }

  /** A path of an emote is kept, a bare name is expanded, and nothing asks for none. */
  lemma EmoteNamed(left: string, name: string, right: string)
    requires (forall c | c in left + right :: IsSpace(c)) && Trimmed(name)
    ensures var path := BuildEmotePath(left + name + right);
      && (name == "" ==> path == "None")
      && ('/' in name && '.' in name ==> path == name)
      && (name != "" && !('/' in name && '.' in name)
          ==> path == "/BRCosmetics/Athena/Items/Cosmetics/Dances/" + name + "." + name)
  {
    hide TrimSpace;
    TrimSpaceOf(left, name, right);
  }

  /** Expanding twice is expanding once, except where there is nothing to expand: `None` is then taken for a name. */
  lemma EmotePathTwice(id: string)
    ensures BuildEmotePath(BuildEmotePath(id)) == BuildEmotePath(id) <==> TrimSpace(id) != ""
  {
    hide TrimSpace;
    TrimTwice(id);
    var name, path := TrimSpace(id), BuildEmotePath(id);
    if name == "" {
      assert Trimmed("None") by { assert 'N' in "None"; }
      TrimmedIsFixed("None");
      assert |BuildEmotePath("None")| > 4;
    } else if '/' in name && '.' in name {
    } else {
      var dances := "/BRCosmetics/Athena/Items/Cosmetics/Dances/";
      assert path == dances + name + "." + name;
      assert dances == "/" + dances[1..];
      assert path[0] == '/' && path[|dances| + |name|] == '.';
      assert path[|path| - 1] == name[|name| - 1];
      TrimmedIsFixed(path);
    }
  }
}
