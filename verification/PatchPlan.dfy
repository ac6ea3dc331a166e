/**
 What an intent asks of the metadata, key by key, and the updates that bring it about.

 This is the reference the step-by-step builder in PatchBuilder is proved against: one goal
 per metadata key, with later intents overriding the fields that earlier ones set.
 */
module PatchPlan {
  import opened GoStrings
  import opened Json
  import opened MetaCodec
  import opened Merge
  import opened PartyTypes

  /** What is wanted of one metadata key. */
  datatype Goal =
    | Is(value: Tree)                       // this value
    | Within(root: string, writes: Fields)   // an object whose field `root` has these fields, others kept
    | OutfitSlot(id: string)                 // MpLoadout.d, itself a JSON text, has ac.i == id

  type Plan = map<string, Goal>

  function NormalizeOutfitID(id: string): string {
    TrimSpace(TrimPrefix(TrimSpace(id), "AthenaCharacter:"))
  }

  function BuildEmotePath(emoteID: string): string {
    var id := TrimSpace(emoteID);
    if id == "" then "None"
    else if '/' in id && '.' in id then id
    else "/BRCosmetics/Athena/Items/Cosmetics/Dances/" + id + "." + id
  }

  function IslandEntry(playlistID: string, at: int): Tree {
    Obj(map["island" := Atom(Str(Marshal(Obj(map["LinkId" := FromString(playlistID)])))), "timestamp" := FromInt(at)])
  }

  function ReadyWrites(ready: string): Fields {
    map["gameReadiness" := FromString(ready),
        "readyInputType" := FromString(if ready == READY then "MouseAndKeyboard" else "Count")]
  }

  function IslandWrites(playlistID: string, at: int): Fields {
    map["islandSelection" := IslandEntry(playlistID, at), "currentIsland" := IslandEntry(playlistID, at)]
  }

  function LinkWrites(playlistID: string): Fields {
    map["linkId" := Obj(map["mnemonic" := FromString(ToLower(playlistID)), "version" := FromInt(-1)])]
  }

  function Given(field: string, value: Text): Fields {
    if value == EMPTY then map[] else map[field := Atom(Str(value))]
  }

  function LoadoutWrites(l: Loadout): Fields {
    Given("characterPrimaryAssetId", l.character) + Given("backpackDef", l.backpack) + Given("pickaxeDef", l.pickaxe)
  }

  function OutfitWrites(outfit: string): Fields {
    map["characterPrimaryAssetId" := FromString("AthenaCharacter:" + outfit)]
  }

  const CLEAR_EMOTE: Fields := map["pickable" := FromString("None"), "emoteSection" := FromInt(-1)]

  function PlayEmote(emote: string): Fields {
    map["pickable" := FromString(BuildEmotePath(emote)), "emoteSection" := FromInt(-2)]
  }

  // The parts of an intent, with a harmless value where a part is absent.

  function PlaylistOf(i: Intent): PlaylistRequest {
    if i.playlist.None? then PlaylistRequest("", "", false) else i.playlist.value
  }

  function LoadoutOf(i: Intent): Loadout {
    if i.loadout.None? then NO_LOADOUT else i.loadout.value
  }

  function ReadyOf(i: Intent): string {
    if i.ready.None? then "" else i.ready.value
  }

  function CustomKeyOf(i: Intent): string {
    if i.customKey.None? then "" else TrimSpace(i.customKey.value)
  }

  function OutfitOf(i: Intent): string {
    if i.outfitID.None? then "" else NormalizeOutfitID(i.outfitID.value)
  }

  function EmoteOf(i: Intent): string {
    if i.emoteID.None? then "" else TrimSpace(i.emoteID.value)
  }

  /** The character of the outfit wins over that of the loadout. */
  function CosmeticWrites(i: Intent): Fields {
    LoadoutWrites(LoadoutOf(i)) + if OutfitOf(i) == "" then map[] else OutfitWrites(OutfitOf(i))
  }

  predicate LoadoutEmotes(i: Intent) {
    LoadoutOf(i).emote != EMPTY
  }

  /** A named emote wins over clearing, and clearing over the loadout's emote. */
  function EmoteWrites(i: Intent): Fields {
    Given("pickable", LoadoutOf(i).emote)
    + (if i.clearEmote then CLEAR_EMOTE else map[])
    + (if EmoteOf(i) == "" then map[] else PlayEmote(EmoteOf(i)))
  }

  function When(b: bool, key: string, goal: Goal): Plan {
    if b then map[key := goal] else map[]
  }

  function PartyPlan(i: Intent): Plan {
    When(i.customKey.Some?, CUSTOM_KEY, Is(FromString(CustomKeyOf(i))))
    + When(i.playlist.Some?, SQUAD_FILL, Is(Atom(Bool(PlaylistOf(i).teamFill))))
    + When(i.playlist.Some? && PlaylistOf(i).region != "", REGION, Is(FromString(PlaylistOf(i).region)))
    + When(i.playlist.Some?, SELECTED_ISLAND, Within("SelectedIsland", LinkWrites(PlaylistOf(i).playlistID)))
  }

  function MemberPlan(i: Intent, at: int): Plan {
    When(i.ready.Some?, LOBBY, Within("LobbyState", ReadyWrites(ReadyOf(i))))
    + When(i.playlist.Some?, MATCHMAKING, Within("MatchmakingInfo", IslandWrites(PlaylistOf(i).playlistID, at)))
    + When(i.loadout.Some? || OutfitOf(i) != "", COSMETICS, Within("AthenaCosmeticLoadout", CosmeticWrites(i)))
    + When(OutfitOf(i) != "", MP_LOADOUT, OutfitSlot(OutfitOf(i)))
    + When(LoadoutEmotes(i) || i.clearEmote || EmoteOf(i) != "", EMOTE, Within("FrontendEmote", EmoteWrites(i)))
  }

  // ---- bringing a goal about ----

  /** The embedded templates hold one string per key. */
  function Lift(template: Meta): Fields {
    map key | key in template :: Atom(Str(template[key]))
  }

  function Baseline(template: Meta, meta: Meta): Fields {
    MergeFields(Lift(template), DecodeMetaSchema(meta))
  }

  function Edit(blob: Fields, root: string, writes: Fields): Fields {
    blob[root := Obj(AsJsonMap(Lookup(blob, root)) + writes)]
  }

  function EditSlot(mp: Fields, id: string): Fields {
    mp["d" := Atom(Str(Marshal(Obj(Edit(AsJsonMap(Lookup(mp, "d")), "ac", map["i" := FromString(id)])))))]
  }

  function Achieve(base: Fields, key: string, goal: Goal): Tree {
    match goal
    case Is(value) => value
    case Within(root, writes) => Obj(Edit(AsJsonMap(Lookup(base, key)), root, writes))
    case OutfitSlot(id) =>
      var blob := AsJsonMap(Lookup(base, key));
      Obj(blob["MpLoadout" := Obj(EditSlot(AsJsonMap(Lookup(blob, "MpLoadout")), id))])
  }

  /** The values under the planned keys whose string differs from the stored one. */
  function Updates(template: Meta, meta: Meta, plan: Plan): Fields {
    var base := Baseline(template, meta);
    map key | key in plan && SerializeMetaValue(key, Achieve(base, key, plan[key])) != Get(meta, key) ::
      Achieve(base, key, plan[key])
  }

  function Patched(meta: Meta, updates: Fields): Meta {
    meta + BuildMetaPatch(updates)
  }

  /** Goals that edit an object belong to `_j` keys. */
  ghost predicate WellKeyed(plan: Plan) {
    forall key | key in plan && !plan[key].Is? :: HasSuffix(key, "_j")
  }

  lemma ObjectKeys()
    ensures HasSuffix(SELECTED_ISLAND, "_j") && HasSuffix(LOBBY, "_j") && HasSuffix(MATCHMAKING, "_j")
    ensures HasSuffix(COSMETICS, "_j") && HasSuffix(EMOTE, "_j") && HasSuffix(MP_LOADOUT, "_j")
  {
  }

  lemma WhenWellKeyed(b: bool, key: string, goal: Goal)
    requires goal.Is? || HasSuffix(key, "_j")
    ensures WellKeyed(When(b, key, goal))
  {
  }

  lemma AlsoWellKeyed(plan: Plan, b: bool, key: string, goal: Goal)
    requires WellKeyed(plan) && (goal.Is? || HasSuffix(key, "_j"))
    ensures WellKeyed(plan + When(b, key, goal))
  {
  }

  lemma PlansWellKeyed(i: Intent, at: int)
    ensures WellKeyed(PartyPlan(i)) && WellKeyed(MemberPlan(i, at))
  {
    hide WellKeyed, HasSuffix, When, CosmeticWrites, EmoteWrites, ReadyWrites, IslandWrites, LinkWrites, OutfitOf,
         EmoteOf, LoadoutEmotes;
    ObjectKeys();
    var p := PlaylistOf(i);
    var a, b := i.customKey.Some?, i.playlist.Some?;
    var p1 := When(a, CUSTOM_KEY, Is(FromString(CustomKeyOf(i))));
    WhenWellKeyed(a, CUSTOM_KEY, Is(FromString(CustomKeyOf(i))));
    AlsoWellKeyed(p1, b, SQUAD_FILL, Is(Atom(Bool(p.teamFill))));
    var p2 := p1 + When(b, SQUAD_FILL, Is(Atom(Bool(p.teamFill))));
    AlsoWellKeyed(p2, b && p.region != "", REGION, Is(FromString(p.region)));
    var p3 := p2 + When(b && p.region != "", REGION, Is(FromString(p.region)));
    AlsoWellKeyed(p3, b, SELECTED_ISLAND, Within("SelectedIsland", LinkWrites(p.playlistID)));
    var ready, island :=
        Within("LobbyState", ReadyWrites(ReadyOf(i))), Within("MatchmakingInfo", IslandWrites(p.playlistID, at));
    var m1 := When(i.ready.Some?, LOBBY, ready);
    WhenWellKeyed(i.ready.Some?, LOBBY, ready);
    AlsoWellKeyed(m1, b, MATCHMAKING, island);
    var m2 := m1 + When(b, MATCHMAKING, island);
    var cosmetics, emote := Within("AthenaCosmeticLoadout", CosmeticWrites(i)), Within("FrontendEmote", EmoteWrites(i));
    AlsoWellKeyed(m2, i.loadout.Some? || OutfitOf(i) != "", COSMETICS, cosmetics);
    var m3 := m2 + When(i.loadout.Some? || OutfitOf(i) != "", COSMETICS, cosmetics);
    AlsoWellKeyed(m3, OutfitOf(i) != "", MP_LOADOUT, OutfitSlot(OutfitOf(i)));
    var m4 := m3 + When(OutfitOf(i) != "", MP_LOADOUT, OutfitSlot(OutfitOf(i)));
    AlsoWellKeyed(m4, LoadoutEmotes(i) || i.clearEmote || EmoteOf(i) != "", EMOTE, emote);
  }

  // ---- when nothing is left to send ----

  /** The object of the outfit key, whose field `d` is the canonical text of an object in turn. */
  ghost predicate SlotSettled(o: Fields, d: Fields, ac: Fields, id: string) {
    && "MpLoadout" in o && o["MpLoadout"].Obj? && "d" in o["MpLoadout"].fields
    && o["MpLoadout"].fields["d"] == Atom(Str(Canonical(Obj(d))))
    && "ac" in d && d["ac"] == Obj(ac) && "i" in ac && ac["i"] == FromString(id)
  }

  /** A stored string reads as the goal asks, in canonical spelling. */
  ghost predicate Settled(key: string, text: Text, goal: Goal) {
    match goal
    case Is(value) => text == SerializeMetaValue(key, value)
    case Within(root, writes) =>
      var o := DecodeJsonMap(text);
      && text == Canonical(Obj(o))
      && root in o && o[root].Obj?
      && forall field | field in writes :: field in o[root].fields && o[root].fields[field] == writes[field]
    case OutfitSlot(id) =>
      var o := DecodeJsonMap(text);
      && text == Canonical(Obj(o))
      && exists d: Fields, ac: Fields :: SlotSettled(o, d, ac, id)
  }

  ghost predicate AllSettled(meta: Meta, plan: Plan) {
    forall key | key in plan :: Settled(key, Get(meta, key), plan[key])
  }

  /** The object an edit starts from: the stored one, or the template's when the key is absent. */
  function Start(template: Meta, meta: Meta, key: string): Fields {
    if key in meta then DecodeJsonMap(meta[key])
    else if key in template then DecodeJsonMap(template[key])
    else map[]
  }

  lemma StartIsRead(template: Meta, meta: Meta, key: string)
    requires HasSuffix(key, "_j")
    ensures AsJsonMap(Lookup(Baseline(template, meta), key)) == Start(template, meta, key)
  {
    MergedFields(Lift(template), DecodeMetaSchema(meta));
    if key in meta {
      var parsed := DecodeJsonMap(meta[key]);
      assert DecodeMetaSchema(meta)[key] == DecodeMetaValue(key, meta[key]);
      assert parsed == map[] || |parsed| > 0;
      if key in template { assert !Lift(template)[key].Obj?; }
    }
  }

  /** Whatever a goal is achieved from, the outcome settles it. */
  lemma AchieveSettles(base: Fields, key: string, goal: Goal)
    requires goal.Is? || HasSuffix(key, "_j")
    ensures Settled(key, SerializeMetaValue(key, Achieve(base, key, goal)), goal)
  {
    var blob := AsJsonMap(Lookup(base, key));
    hide HasSuffix;
    match goal
    case Is(_) =>
    case Within(root, writes) =>
      assert DecodeJsonMap(Canonical(Obj(Edit(blob, root, writes)))) == Edit(blob, root, writes);
    case OutfitSlot(id) =>
      hide EditSlot;
      SlotEdit(blob, id);
  }

  lemma SlotEdit(o: Fields, id: string)
    ensures var mp := AsJsonMap(Lookup(o, "MpLoadout"));
      var d := AsJsonMap(Lookup(mp, "d"));
      var ac := AsJsonMap(Lookup(d, "ac"));
      SlotSettled(o["MpLoadout" := Obj(EditSlot(mp, id))], Edit(d, "ac", map["i" := FromString(id)]),
                  ac + map["i" := FromString(id)], id)
  {
  }

  lemma SlotFixed(o: Fields, d: Fields, ac: Fields, id: string)
    requires SlotSettled(o, d, ac, id)
    ensures o["MpLoadout" := Obj(EditSlot(AsJsonMap(Lookup(o, "MpLoadout")), id))] == o
  {
    assert ac + map["i" := FromString(id)] == ac;
    assert Edit(d, "ac", map["i" := FromString(id)]) == d;
    assert EditSlot(o["MpLoadout"].fields, id) == o["MpLoadout"].fields;
  }

  /** Achieving a goal that is settled already rewrites the stored string to itself. */
  lemma SettledIsFixed(template: Meta, meta: Meta, key: string, goal: Goal)
    requires goal.Is? || HasSuffix(key, "_j")
    requires Settled(key, Get(meta, key), goal)
    ensures SerializeMetaValue(key, Achieve(Baseline(template, meta), key, goal)) == Get(meta, key)
  {
    if !goal.Is? {
      StartIsRead(template, meta, key);
      var o := DecodeJsonMap(Get(meta, key));
      assert Start(template, meta, key) == o;
      hide Baseline, HasSuffix;
      match goal {
        case Within(root, writes) =>
          assert o[root].fields + writes == o[root].fields;
          assert Edit(o, root, writes) == o;
        case OutfitSlot(id) =>
          var d: Fields, ac: Fields :| SlotSettled(o, d, ac, id);
          SlotFixed(o, d, ac, id);
      }
    }
  }

  /**
   A key is left out of the updates exactly when its stored string already settles its goal:
   neither the template nor the rest of the metadata has a say.
   */
  lemma UpdateIff(template: Meta, meta: Meta, plan: Plan, key: string)
    requires WellKeyed(plan)
    ensures key in Updates(template, meta, plan) <==> key in plan && !Settled(key, Get(meta, key), plan[key])
  {
    hide SerializeMetaValue, Achieve, Settled, HasSuffix, Baseline;
    if key in plan {
      AchieveSettles(Baseline(template, meta), key, plan[key]);
      if Settled(key, Get(meta, key), plan[key]) {
        SettledIsFixed(template, meta, key, plan[key]);
      }
    }
  }

  /** Nothing is sent exactly when every goal is settled. */
  lemma NoUpdatesIff(template: Meta, meta: Meta, plan: Plan)
    requires WellKeyed(plan)
    ensures Updates(template, meta, plan) == map[] <==> AllSettled(meta, plan)
  {
    hide Updates, Settled, WellKeyed;
    forall key ensures key in Updates(template, meta, plan)
        <==> key in plan && !Settled(key, Get(meta, key), plan[key]) {
      UpdateIff(template, meta, plan, key);
    }
  }

  /** The updates, applied to the metadata they were built from, settle every goal. */
  lemma PatchedSettles(template: Meta, meta: Meta, plan: Plan)
    requires WellKeyed(plan)
    ensures AllSettled(Patched(meta, Updates(template, meta, plan)), plan)
  {
    hide SerializeMetaValue, Achieve, Settled, HasSuffix, Baseline;
    forall key | key in plan
      ensures Settled(key, Get(Patched(meta, Updates(template, meta, plan)), key), plan[key])
    {
      UpdateIff(template, meta, plan, key);
      AchieveSettles(Baseline(template, meta), key, plan[key]);
    }
  }

  /** Building is idempotent: after the patch, the same intent at the same time asks for nothing. */
  lemma BuildIdempotent(template: Meta, meta: Meta, plan: Plan)
    requires WellKeyed(plan)
    ensures Updates(template, Patched(meta, Updates(template, meta, plan)), plan) == map[]
  {
    PatchedSettles(template, meta, plan);
    NoUpdatesIff(template, Patched(meta, Updates(template, meta, plan)), plan);
  }

  /**
   After an accepted patch, a rebuild asks for something only if another writer has since
   changed one of the planned keys.
   */
  lemma QuietUnlessTouched(template: Meta, meta: Meta, later: Meta, plan: Plan)
    requires WellKeyed(plan)
    requires forall key | key in plan :: Get(later, key) == Get(Patched(meta, Updates(template, meta, plan)), key)
    ensures Updates(template, later, plan) == map[]
  {
    hide Updates, Settled, WellKeyed;
    PatchedSettles(template, meta, plan);
    NoUpdatesIff(template, later, plan);
  }

  // ---- what an edit keeps ----

  /** Only planned keys are sent, and applying the updates leaves every other key alone. */
  lemma OnlyPlannedKeys(template: Meta, meta: Meta, plan: Plan, key: string)
    requires key !in plan
    ensures key !in Updates(template, meta, plan)
    ensures Lookup(Patched(meta, Updates(template, meta, plan)), key) == Lookup(meta, key)
  {
  }

  /**
   Inside an edited object, every path that is not written reads as in the object the edit
   started from, provided the edited field held an object or nothing.
   */
  lemma EditKeepsPaths(template: Meta, meta: Meta, key: string, root: string, writes: Fields, path: seq<string>)
    requires HasSuffix(key, "_j")
    requires root in Start(template, meta, key) ==> Start(template, meta, key)[root].Obj?
    requires path != [] && (path[0] == root ==> |path| > 1 && path[1] !in writes)
    ensures TreeGet(Achieve(Baseline(template, meta), key, Within(root, writes)), path)
         == TreeGet(Obj(Start(template, meta, key)), path)
  {
    hide Baseline, HasSuffix, Start, TreeGet, Edit, AsJsonMap;
    StartIsRead(template, meta, key);
    EditKeeps(Start(template, meta, key), root, writes, path);
  }

  lemma EditKeeps(blob: Fields, root: string, writes: Fields, path: seq<string>)
    requires root in blob ==> blob[root].Obj?
    requires path != [] && (path[0] == root ==> |path| > 1 && path[1] !in writes)
    ensures TreeGet(Obj(Edit(blob, root, writes)), path) == TreeGet(Obj(blob), path)
  {
    var rest := path[1..];
    var inner := AsJsonMap(Lookup(blob, root));
    if path[0] == root {
      assert rest[0] == path[1];
      assert TreeGet(Obj(inner + writes), rest) == TreeGet(Obj(inner), rest);
    }
  }

  /** The outfit edit keeps everything but `MpLoadout.d`, and inside that text everything but `ac.i`. */
  lemma SlotKeepsPaths(o: Fields, id: string, path: seq<string>, inner: seq<string>)
    requires "MpLoadout" in o ==> o["MpLoadout"].Obj?
    requires path != [] && (path[0] == "MpLoadout" ==> |path| > 1 && path[1] != "d")
    requires inner != [] && (inner[0] == "ac" ==> |inner| > 1 && inner[1] != "i")
    ensures var mp := AsJsonMap(Lookup(o, "MpLoadout"));
      var d := AsJsonMap(Lookup(mp, "d"));
      && TreeGet(Obj(o["MpLoadout" := Obj(EditSlot(mp, id))]), path) == TreeGet(Obj(o), path)
      && (("ac" in d ==> d["ac"].Obj?) ==>
            TreeGet(Obj(AsJsonMap(Lookup(EditSlot(mp, id), "d"))), inner) == TreeGet(Obj(d), inner))
  {
    if path[0] == "MpLoadout" {
      assert path[1..][0] == path[1];
    }
    if inner[0] == "ac" {
      assert inner[1..][0] == inner[1];
    }
  }

  // ---- carrying out a plan step by step ----

  /** The baseline with every goal of the plan achieved. */
  function Applied(base: Fields, plan: Plan): Fields {
    base + map key | key in plan :: Achieve(base, key, plan[key])
  }

  /** The plan after one more goal; writes into the same object add up, the later ones winning. */
  function Then(plan: Plan, key: string, goal: Goal): Plan {
    if key in plan && plan[key].Within? && goal.Within? && plan[key].root == goal.root
    then plan[key := Within(goal.root, plan[key].writes + goal.writes)]
    else plan[key := goal]
  }

  lemma AchieveThen(base: Fields, plan: Plan, key: string, goal: Goal)
    requires key in plan ==> plan[key].Within? && goal.Within? && plan[key].root == goal.root
    ensures Achieve(Applied(base, plan), key, goal) == Achieve(base, key, Then(plan, key, goal)[key])
  {
    hide Edit, EditSlot;
    if key in plan {
      EditTwice(AsJsonMap(Lookup(base, key)), goal.root, plan[key].writes, goal.writes);
    } else {
      assert Lookup(Applied(base, plan), key) == Lookup(base, key);
    }
  }

  lemma AppliedAt(base: Fields, plan: Plan)
    ensures Applied(base, plan).Keys == base.Keys + plan.Keys
    ensures forall k | k in plan :: Applied(base, plan)[k] == Achieve(base, k, plan[k])
    ensures forall k | k in base && k !in plan :: Applied(base, plan)[k] == base[k]
  {
  }

  lemma ThenKeys(plan: Plan, key: string, goal: Goal)
    ensures Then(plan, key, goal).Keys == plan.Keys + {key}
    ensures forall k | k in plan && k != key :: Then(plan, key, goal)[k] == plan[k]
  {
  }

  lemma AppliedThen(base: Fields, plan: Plan, key: string, goal: Goal)
    requires key in plan ==> plan[key].Within? && goal.Within? && plan[key].root == goal.root
    ensures Applied(base, plan)[key := Achieve(Applied(base, plan), key, goal)] == Applied(base, Then(plan, key, goal))
  {
    hide Achieve, Then, Applied;
    AchieveThen(base, plan, key, goal);
    ThenKeys(plan, key, goal);
    AppliedAt(base, plan);
    AppliedAt(base, Then(plan, key, goal));
    var left := Applied(base, plan)[key := Achieve(Applied(base, plan), key, goal)];
    var right := Applied(base, Then(plan, key, goal));
    assert left.Keys == right.Keys;
    forall k | k in left
      ensures left[k] == right[k]
    {
    }
  }

  lemma EditTwice(blob: Fields, root: string, first: Fields, second: Fields)
    ensures Edit(Edit(blob, root, first), root, second) == Edit(blob, root, first + second)
  {
    var inner := AsJsonMap(Lookup(blob, root));
    assert inner + first + second == inner + (first + second);
  }

  lemma KeysDiffer()
    ensures LOBBY != MATCHMAKING && LOBBY != COSMETICS && LOBBY != EMOTE && LOBBY != MP_LOADOUT
    ensures MATCHMAKING != COSMETICS && MATCHMAKING != EMOTE && MATCHMAKING != MP_LOADOUT
    ensures COSMETICS != EMOTE && COSMETICS != MP_LOADOUT && EMOTE != MP_LOADOUT
    ensures CUSTOM_KEY != SQUAD_FILL && CUSTOM_KEY != REGION && CUSTOM_KEY != SELECTED_ISLAND
    ensures SQUAD_FILL != REGION && SQUAD_FILL != SELECTED_ISLAND && REGION != SELECTED_ISLAND
  {
    assert |LOBBY| == 20 && |MATCHMAKING| == 25 && |COSMETICS| == 31 && |EMOTE| == 23 && |MP_LOADOUT| == 19;
    assert |CUSTOM_KEY| == 24 && |SQUAD_FILL| == 25 && |REGION| == 18 && |SELECTED_ISLAND| == 24;
    assert CUSTOM_KEY[8] != SELECTED_ISLAND[8];
  }

  /** One edit of the builder. */
  datatype Step = Step(key: string, goal: Goal)

  function Optional(b: bool, key: string, goal: Goal): seq<Step> {
    if b then [Step(key, goal)] else []
  }

  /** The edits of the party's metadata, in the order of the code. */
  function PartySteps(i: Intent): seq<Step> {
    Optional(i.customKey.Some?, CUSTOM_KEY, Is(FromString(CustomKeyOf(i))))
    + Optional(i.playlist.Some?, SQUAD_FILL, Is(Atom(Bool(PlaylistOf(i).teamFill))))
    + Optional(i.playlist.Some? && PlaylistOf(i).region != "", REGION, Is(FromString(PlaylistOf(i).region)))
    + Optional(i.playlist.Some?, SELECTED_ISLAND, Within("SelectedIsland", LinkWrites(PlaylistOf(i).playlistID)))
  }

  function LobbySteps(i: Intent, at: int): seq<Step> {
    Optional(i.ready.Some?, LOBBY, Within("LobbyState", ReadyWrites(ReadyOf(i))))
    + Optional(i.playlist.Some?, MATCHMAKING, Within("MatchmakingInfo", IslandWrites(PlaylistOf(i).playlistID, at)))
  }

  function LoadoutSteps(i: Intent, at: int): seq<Step> {
    LobbySteps(i, at)
    + Optional(i.loadout.Some?, COSMETICS, Within("AthenaCosmeticLoadout", LoadoutWrites(LoadoutOf(i))))
    + Optional(LoadoutEmotes(i), EMOTE, Within("FrontendEmote", Given("pickable", LoadoutOf(i).emote)))
  }

  /** The edits of the member's metadata, in the order of the code. */
  function MemberSteps(i: Intent, at: int): seq<Step> {
    LoadoutSteps(i, at)
    + Optional(OutfitOf(i) != "", COSMETICS, Within("AthenaCosmeticLoadout", OutfitWrites(OutfitOf(i))))
    + Optional(OutfitOf(i) != "", MP_LOADOUT, OutfitSlot(OutfitOf(i)))
    + Optional(i.clearEmote, EMOTE, Within("FrontendEmote", CLEAR_EMOTE))
    + Optional(EmoteOf(i) != "", EMOTE, Within("FrontendEmote", PlayEmote(EmoteOf(i))))
  }

  function RunSteps(base: Fields, steps: seq<Step>): Fields {
    if steps == [] then base
    else
      var before := RunSteps(base, steps[..|steps| - 1]);
      var last := steps[|steps| - 1];
      before[last.key := Achieve(before, last.key, last.goal)]
  }

  function StepKeys(steps: seq<Step>): set<string> {
    set i | 0 <= i < |steps| :: steps[i].key
  }

  lemma FoldAppend(base: Fields, steps: seq<Step>, key: string, goal: Goal)
    ensures RunSteps(base, steps + [Step(key, goal)])
      == RunSteps(base, steps)[key := Achieve(RunSteps(base, steps), key, goal)]
    ensures StepKeys(steps + [Step(key, goal)]) == StepKeys(steps) + {key}
  {
    hide Achieve;
    var more := steps + [Step(key, goal)];
    assert more[..|more| - 1] == steps;
    assert more[|steps|].key == key;
    assert forall i | 0 <= i < |steps| :: more[i] == steps[i];
  }

  /** Carrying out `steps` after `plan`, as a plan. */
  function ThenAll(plan: Plan, steps: seq<Step>): Plan
    decreases |steps|
  {
    if steps == [] then plan else ThenAll(Then(plan, steps[0].key, steps[0].goal), steps[1..])
  }

  /** Repeated keys edit the same object. */
  ghost predicate Compatible(plan: Plan, steps: seq<Step>)
    decreases |steps|
  {
    steps == [] ||
    (var key, goal := steps[0].key, steps[0].goal;
     && (key in plan ==> plan[key].Within? && goal.Within? && plan[key].root == goal.root)
     && Compatible(Then(plan, key, goal), steps[1..]))
  }

  lemma {:induction false} FoldSplit(base: Fields, first: seq<Step>, second: seq<Step>)
    ensures RunSteps(base, first + second) == RunSteps(RunSteps(base, first), second)
    decreases |second|
  {
    if second == [] {
      assert first + second == first;
    } else {
      var init := second[..|second| - 1];
      assert (first + second)[..|first + second| - 1] == first + init;
      FoldSplit(base, first, init);
    }
  }

  /** The step-by-step edits amount to the plan, each goal achieved once from the baseline. */
  lemma {:induction false} FoldIsApplied(base: Fields, plan: Plan, steps: seq<Step>)
    requires Compatible(plan, steps)
    ensures RunSteps(Applied(base, plan), steps) == Applied(base, ThenAll(plan, steps))
    decreases |steps|
  {
    if steps == [] {
    } else {
      hide Achieve, Applied, Then;
      AppliedThen(base, plan, steps[0].key, steps[0].goal);
      FoldSplit(Applied(base, plan), steps[..1], steps[1..]);
      assert steps == steps[..1] + steps[1..];
      FoldOne(Applied(base, plan), steps[..1]);
      FoldIsApplied(base, Then(plan, steps[0].key, steps[0].goal), steps[1..]);
    }
  }

  /** The keys of the merged plan are those of the steps. */
  lemma {:induction false} ThenAllKeys(plan: Plan, steps: seq<Step>)
    ensures ThenAll(plan, steps).Keys == plan.Keys + StepKeys(steps)
    decreases |steps|
  {
    if steps == [] {
    } else {
      ThenKeys(plan, steps[0].key, steps[0].goal);
      ThenAllKeys(Then(plan, steps[0].key, steps[0].goal), steps[1..]);
      assert StepKeys(steps) == {steps[0].key} + StepKeys(steps[1..]) by {
        assert forall i | 0 < i < |steps| :: steps[i] == steps[1..][i - 1];
      }
    }
  }

  /** Carrying out the steps of a plan from the baseline achieves the plan. */
  lemma StepsAchieve(base: Fields, steps: seq<Step>, plan: Plan)
    requires Amounts(steps, plan)
    ensures RunSteps(base, steps) == Applied(base, plan) && StepKeys(steps) == plan.Keys
  {
    hide Achieve, RunSteps, ThenAll, Compatible;
    FoldIsApplied(base, map[], steps);
    ThenAllKeys(map[], steps);
    assert Applied(base, map[]) == base;
  }

  lemma FoldOne(base: Fields, steps: seq<Step>)
    requires |steps| == 1
    ensures RunSteps(base, steps) == base[steps[0].key := Achieve(base, steps[0].key, steps[0].goal)]
  {
    hide Achieve;
    assert steps[..0] == [];
  }

  lemma {:induction false} ThenAllSplit(plan: Plan, first: seq<Step>, second: seq<Step>)
    ensures ThenAll(plan, first + second) == ThenAll(ThenAll(plan, first), second)
    ensures Compatible(plan, first) && Compatible(ThenAll(plan, first), second) ==> Compatible(plan, first + second)
    decreases |first|
  {
    if first == [] {
      assert first + second == second;
    } else {
      assert (first + second)[1..] == first[1..] + second;
      ThenAllSplit(Then(plan, first[0].key, first[0].goal), first[1..], second);
    }
  }

  /** The steps amount to the plan. */
  ghost predicate Amounts(steps: seq<Step>, plan: Plan) {
    Compatible(map[], steps) && ThenAll(map[], steps) == plan
  }

  lemma OneStep(plan: Plan, key: string, goal: Goal)
    requires key in plan ==> plan[key].Within? && goal.Within? && plan[key].root == goal.root
    ensures Compatible(plan, [Step(key, goal)]) && Compatible(plan, [])
    ensures ThenAll(plan, [Step(key, goal)]) == Then(plan, key, goal) && ThenAll(plan, []) == plan
  {
    hide Then;
    assert [Step(key, goal)][1..] == [];
    assert Compatible(Then(plan, key, goal), []);
  }

  /** A step on a new key adds its goal to the plan. */
  lemma NewStep(steps: seq<Step>, plan: Plan, b: bool, key: string, goal: Goal)
    requires Amounts(steps, plan) && key !in plan
    ensures Amounts(steps + Optional(b, key, goal), plan + When(b, key, goal))
    ensures (plan + When(b, key, goal)).Keys == if b then plan.Keys + {key} else plan.Keys
    ensures forall k | k in plan :: (plan + When(b, key, goal))[k] == plan[k]
  {
    ThenAllSplit(map[], steps, Optional(b, key, goal));
    OneStep(plan, key, goal);
  }

  /** A step on the object planned last adds its writes. */
  lemma MoreStep(steps: seq<Step>, plan: Plan, b0: bool, b: bool, key: string, root: string, first: Fields,
                 second: Fields)
    requires key !in plan && (!b0 ==> first == map[])
    requires Amounts(steps, plan + When(b0, key, Within(root, first)))
    ensures Amounts(steps + Optional(b, key, Within(root, second)),
              plan + When(b0 || b, key, Within(root, first + if b then second else map[])))
  {
    var before := plan + When(b0, key, Within(root, first));
    ThenAllSplit(map[], steps, Optional(b, key, Within(root, second)));
    OneStep(before, key, Within(root, second));
    assert first + map[] == first && (!b0 ==> first + second == second);
    if b {
      assert Then(before, key, Within(root, second)) == plan + When(true, key, Within(root, first + second));
    }
  }

  lemma SwapGoals(plan: Plan, b1: bool, k1: string, g1: Goal, b2: bool, k2: string, g2: Goal)
    requires k1 != k2
    ensures plan + When(b1, k1, g1) + When(b2, k2, g2) == plan + When(b2, k2, g2) + When(b1, k1, g1)
  {
  }

  lemma PartyStepsPlan(i: Intent)
    ensures Amounts(PartySteps(i), PartyPlan(i))
  {
    hide Amounts, LinkWrites, Optional, When, PlaylistOf, CustomKeyOf;
    KeysDiffer();
    NoSteps();
    var p := PlaylistOf(i);
    var b := i.playlist.Some?;
    var custom, fill := Is(FromString(CustomKeyOf(i))), Is(Atom(Bool(p.teamFill)));
    var region, island := Is(FromString(p.region)), Within("SelectedIsland", LinkWrites(p.playlistID));
    var s1, p1 := Optional(i.customKey.Some?, CUSTOM_KEY, custom), When(i.customKey.Some?, CUSTOM_KEY, custom);
    NewStep([], map[], i.customKey.Some?, CUSTOM_KEY, custom);
    assert [] + s1 == s1 && map[] + p1 == p1;
    NewStep(s1, p1, b, SQUAD_FILL, fill);
    var s2, p2 := s1 + Optional(b, SQUAD_FILL, fill), p1 + When(b, SQUAD_FILL, fill);
    NewStep(s2, p2, b && p.region != "", REGION, region);
    var s3, p3 := s2 + Optional(b && p.region != "", REGION, region), p2 + When(b && p.region != "", REGION, region);
    NewStep(s3, p3, b, SELECTED_ISLAND, island);
  }

  lemma AbsentWrites(i: Intent)
    ensures i.loadout.None? ==> LoadoutWrites(LoadoutOf(i)) == map[]
    ensures !LoadoutEmotes(i) ==> Given("pickable", LoadoutOf(i).emote) == map[]
  {
  }

  /** The eight edits of the member's metadata, each with whether it is made. Absent writes are empty. */
  datatype MemberEdits = MemberEdits(
    hasReady: bool, ready: Goal,
    hasIsland: bool, island: Goal,
    hasLoadout: bool, loadout: Fields,
    hasLoadoutEmote: bool, loadoutEmote: Fields,
    hasOutfit: bool, outfit: Fields, slot: Goal,
    clears: bool, clear: Fields,
    hasEmote: bool, emote: Fields)
  {
    function LookGoal(): Goal { Within("AthenaCosmeticLoadout", loadout + if hasOutfit then outfit else map[]) }

    function EmoteGoal(): Goal {
      Within("FrontendEmote", loadoutEmote + (if clears then clear else map[]) + if hasEmote then emote else map[])
    }

    /** The edits up to the outfit's character. */
    function FirstSteps(): seq<Step> {
      Optional(hasReady, LOBBY, ready) + Optional(hasIsland, MATCHMAKING, island)
      + Optional(hasLoadout, COSMETICS, Within("AthenaCosmeticLoadout", loadout))
      + Optional(hasLoadoutEmote, EMOTE, Within("FrontendEmote", loadoutEmote))
      + Optional(hasOutfit, COSMETICS, Within("AthenaCosmeticLoadout", outfit))
    }

    function Steps(): seq<Step> {
      FirstSteps() + Optional(hasOutfit, MP_LOADOUT, slot)
      + Optional(clears, EMOTE, Within("FrontendEmote", clear))
          + Optional(hasEmote, EMOTE, Within("FrontendEmote", emote))
    }

    function LobbyPlan(): Plan {
      When(hasReady, LOBBY, ready) + When(hasIsland, MATCHMAKING, island)
    }

    function AsPlan(): Plan {
      LobbyPlan() + When(hasLoadout || hasOutfit, COSMETICS, LookGoal()) + When(hasOutfit, MP_LOADOUT, slot)
      + When(hasLoadoutEmote || clears || hasEmote, EMOTE, EmoteGoal())
    }
  }

  function EditsOf(i: Intent, at: int): MemberEdits {
    MemberEdits(
      i.ready.Some?, Within("LobbyState", ReadyWrites(ReadyOf(i))),
      i.playlist.Some?, Within("MatchmakingInfo", IslandWrites(PlaylistOf(i).playlistID, at)),
      i.loadout.Some?, LoadoutWrites(LoadoutOf(i)),
      LoadoutEmotes(i), Given("pickable", LoadoutOf(i).emote),
      OutfitOf(i) != "", OutfitWrites(OutfitOf(i)), OutfitSlot(OutfitOf(i)),
      i.clearEmote, CLEAR_EMOTE,
      EmoteOf(i) != "", PlayEmote(EmoteOf(i)))
  }

  lemma EditsAreSteps(i: Intent, at: int)
    ensures EditsOf(i, at).Steps() == MemberSteps(i, at)
  {
    hide ReadyWrites, IslandWrites, LoadoutWrites, OutfitWrites, PlayEmote, Given, Optional, PlaylistOf, ReadyOf,
         OutfitOf, EmoteOf, LoadoutOf,
         LoadoutEmotes;
  }

  lemma EditsArePlan(i: Intent, at: int)
    ensures EditsOf(i, at).AsPlan() == MemberPlan(i, at)
  {
    hide ReadyWrites, IslandWrites, LoadoutWrites, OutfitWrites, PlayEmote, Given, When, PlaylistOf, ReadyOf,
         OutfitOf, EmoteOf, LoadoutOf,
         LoadoutEmotes;
  }

  lemma MemberStepsPlan(i: Intent, at: int)
    ensures Amounts(MemberSteps(i, at), MemberPlan(i, at))
  {
    hide Amounts, LoadoutWrites, OutfitWrites, PlayEmote, Given, PlaylistOf, ReadyOf, OutfitOf, EmoteOf, LoadoutOf,
         LoadoutEmotes, MemberSteps,
         MemberPlan;
    AbsentWrites(i);
    EditsAmount(EditsOf(i, at));
    EditsAreSteps(i, at);
    EditsArePlan(i, at);
  }

  /** Eight edits of this pattern amount to one goal for each of five keys. */
  lemma EditsAmount(e: MemberEdits)
    requires (!e.hasLoadout ==> e.loadout == map[]) && (!e.hasLoadoutEmote ==> e.loadoutEmote == map[])
    ensures Amounts(e.Steps(), e.AsPlan())
  {
    hide Amounts, Optional, When;
    KeysDiffer();
    NoSteps();
    var look, emote := "AthenaCosmeticLoadout", "FrontendEmote";
    var s1, p1 := Optional(e.hasReady, LOBBY, e.ready), When(e.hasReady, LOBBY, e.ready);
    NewStep([], map[], e.hasReady, LOBBY, e.ready);
    assert [] + s1 == s1 && map[] + p1 == p1;
    NewStep(s1, p1, e.hasIsland, MATCHMAKING, e.island);
    var s2, lobby := s1 + Optional(e.hasIsland, MATCHMAKING, e.island), e.LobbyPlan();
    var look1, emote1 := Within(look, e.loadout), Within(emote, e.loadoutEmote);
    NewStep(s2, lobby, e.hasLoadout, COSMETICS, look1);
    var s3 := s2 + Optional(e.hasLoadout, COSMETICS, look1);
    NewStep(s3, lobby + When(e.hasLoadout, COSMETICS, look1), e.hasLoadoutEmote, EMOTE, emote1);
    NewStep(s2, lobby, e.hasLoadoutEmote, EMOTE, emote1);
    SwapGoals(lobby, e.hasLoadout, COSMETICS, look1, e.hasLoadoutEmote, EMOTE, emote1);
    MoreStep(s3 + Optional(e.hasLoadoutEmote, EMOTE, emote1), lobby + When(e.hasLoadoutEmote, EMOTE, emote1),
      e.hasLoadout, e.hasOutfit, COSMETICS, look, e.loadout, e.outfit);
    SwapGoals(lobby, e.hasLoadoutEmote, EMOTE, emote1, e.hasLoadout || e.hasOutfit, COSMETICS, e.LookGoal());
    LateEdits(e);
  }

  lemma PlanKeys(e: MemberEdits)
    ensures var before := e.LobbyPlan() + When(e.hasLoadout || e.hasOutfit, COSMETICS, e.LookGoal());
      && EMOTE !in before && MP_LOADOUT !in before
      && MP_LOADOUT !in before + When(e.hasLoadoutEmote, EMOTE, Within("FrontendEmote", e.loadoutEmote))
      && EMOTE !in before + When(e.hasOutfit, MP_LOADOUT, e.slot)
  {
    KeysDiffer();
  }

  /** The slot and the emotes, after the rest. */
  lemma LateEdits(e: MemberEdits)
    requires !e.hasLoadoutEmote ==> e.loadoutEmote == map[]
    requires Amounts(e.FirstSteps(),
      e.LobbyPlan() + When(e.hasLoadout || e.hasOutfit, COSMETICS, e.LookGoal())
      + When(e.hasLoadoutEmote, EMOTE, Within("FrontendEmote", e.loadoutEmote)))
    ensures Amounts(e.Steps(), e.AsPlan())
  {
    hide Amounts, Optional, When;
    KeysDiffer();
    PlanKeys(e);
    var emote := "FrontendEmote";
    var before := e.LobbyPlan() + When(e.hasLoadout || e.hasOutfit, COSMETICS, e.LookGoal());
    var emote1 := Within(emote, e.loadoutEmote);
    NewStep(e.FirstSteps(), before + When(e.hasLoadoutEmote, EMOTE, emote1), e.hasOutfit, MP_LOADOUT, e.slot);
    SwapGoals(before, e.hasLoadoutEmote, EMOTE, emote1, e.hasOutfit, MP_LOADOUT, e.slot);
    var steps, plan :=
        e.FirstSteps() + Optional(e.hasOutfit, MP_LOADOUT, e.slot), before + When(e.hasOutfit, MP_LOADOUT, e.slot);
    MoreStep(steps, plan, e.hasLoadoutEmote, e.clears, EMOTE, emote, e.loadoutEmote, e.clear);
    MoreStep(steps + Optional(e.clears, EMOTE, Within(emote, e.clear)), plan, e.hasLoadoutEmote || e.clears,
             e.hasEmote, EMOTE, emote,
      e.loadoutEmote + if e.clears then e.clear else map[], e.emote);
  }

  lemma NoSteps()
    ensures Amounts([], map[])
  {
  }
}
