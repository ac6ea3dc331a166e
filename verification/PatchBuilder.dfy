/** party/patch_builder.go: the step-by-step builder, on mutable nested maps. */
module PatchBuilder {
  import opened GoStrings
  import opened Json
  import opened MetaCodec
  import opened Merge
  import opened NestedMaps
  import opened Templates
  import opened JsonValues
  import opened PartyTypes
  import opened PatchPlan

  /** decodeMetaSchema. */
  method DecodeSchema(schema: Meta) returns (out: Node, ghost s: Shape)
    ensures ValueOf(s) == Ref(out) && Rep(s) && Separate(s) && fresh(Nodes(s))
    ensures TreeOf(s) == Obj(DecodeMetaSchema(schema))
  {
    hide Rep, Separate, Nodes, TreeOf, ValueOf, Holds, Below, DecodeMetaValue;
    out := new Node();
    EmptyHolds(out);
    ghost var kids: map<string, Shape> := map[];
    var todo := schema.Keys;
    while todo != {}
      invariant todo <= schema.Keys && kids.Keys == schema.Keys - todo
      invariant Holds(out, kids) && fresh(Below(kids) + {out})
      invariant forall key | key in kids :: TreeOf(kids[key]) == DecodeMetaValue(key, schema[key])
    {
      var key :| key in todo;
      ghost var k := UnmarshalInto(out, kids, key, DecodeMetaValue(key, schema[key]));
      BelowPut(kids, key, k);
      kids := kids[key := k];
      todo := todo - {key};
    }
    HoldsParts(out, kids);
    s := SMap(out, kids);
    KidsTree(s);
    assert KidTrees(kids) == DecodeMetaSchema(schema);
  }

  /**
   `asJSONMap(node[key])`: the map stored there, or a new one. The entry is taken out of the
   caller's hands until it is stored back with `Put`.
   */
  method OpenObject(node: Node, ghost kids: map<string, Shape>, key: string) returns (child: Node, ghost c: Shape)
    requires Holds(node, kids)
    ensures HoldsExcept(node, kids, key)
    ensures ValueOf(c) == Ref(child) && Rep(c) && Separate(c)
    ensures node !in Nodes(c) && Nodes(c) !! Below(kids - {key})
    ensures forall n | n in Nodes(c) :: n in Below(kids) || fresh(n)
    ensures TreeOf(c) == Obj(AsJsonMap(Lookup(KidTrees(kids), key)))
  {
    hide Rep, Separate, Nodes, TreeOf, ValueOf, Holds, HoldsExcept, Below, DecodeJsonMap;
    HoldsParts(node, kids);
    ExceptHolds(node, kids, key);
    BelowLess(kids, key);
    BelowAllocated(kids);
    if key in node.entries && node.entries[key].Ref? {
      child, c := node.entries[key].node, kids[key];
      ShapeHolds(c, child);
      KidsTree(c);
    } else if key in node.entries && node.entries[key].Leaf? && node.entries[key].scalar.Str? {
      LeafTree(kids[key]);
      child, c := UnmarshalFields(Obj(DecodeJsonMap(node.entries[key].scalar.s)));
    } else {
      if key in kids { NotText(kids[key]); }
      child, c := UnmarshalFields(Obj(map[]));
    }
  }

  lemma NotText(s: Shape)
    requires !ValueOf(s).Ref? && !(ValueOf(s).Leaf? && ValueOf(s).scalar.Str?)
    ensures AsJsonMap(Some(TreeOf(s))) == map[]
  {
  }

  /** `node[f] = v` for each of these assignments. */
  method SetFields(node: Node, ghost kids: map<string, Shape>, writes: Fields) returns (ghost after: map<string, Shape>)
    requires Holds(node, kids)
    modifies node
    ensures Holds(node, after)
    ensures forall n | n in Below(after) :: n in Below(kids) || fresh(n)
    ensures KidTrees(after) == KidTrees(kids) + writes
  {
    hide Rep, Separate, Nodes, TreeOf, ValueOf, Holds, HoldsExcept, Below;
    after := kids;
    BelowAllocated(kids);
    var todo := writes.Keys;
    while todo != {}
      invariant todo <= writes.Keys
      invariant Holds(node, after)
      invariant forall n | n in Below(after) :: n in Below(kids) || fresh(n)
      invariant KidTrees(after) == KidTrees(kids) + (writes - todo)
    {
      var key :| key in todo;
      ghost var k := UnmarshalInto(node, after, key, writes[key]);
      BelowPut(after, key, k);
      assert KidTrees(after[key := k]) == KidTrees(after)[key := writes[key]];
      after := after[key := k];
      todo := todo - {key};
    }
    assert writes - todo == writes;
  }

  /** `node[root]` as an object, the writes into it, and it stored back. */
  method EditField(node: Node, ghost kids: map<string, Shape>, root: string, writes: Fields)
    returns (ghost after: map<string, Shape>)
    requires Holds(node, kids)
    modifies {node} + Below(kids)
    ensures Holds(node, after)
    ensures forall n | n in Below(after) :: n in Below(kids) || fresh(n)
    ensures KidTrees(after) == Edit(KidTrees(kids), root, writes)
  {
    hide Rep, Separate, Nodes, TreeOf, ValueOf, Holds, HoldsExcept, Below, AsJsonMap;
    BelowAllocated(kids);
    BelowLess(kids, root);
    var inner, r := OpenObject(node, kids, root);
    ShapeHolds(r, inner);
    ghost var written := SetFields(inner, r.kids, writes);
    HoldsParts(inner, written);
    ghost var w := SMap(inner, written);
    Put(node, kids, root, Ref(inner), w);
    KidsTree(w);
    BelowPut(kids, root, w);
    after := kids[root := w];
    KidTreesPut(kids, root, w);
  }

  lemma KidTreesPut(kids: map<string, Shape>, key: string, s: Shape)
    ensures KidTrees(kids[key := s]) == KidTrees(kids)[key := TreeOf(s)]
  {
  }

  /** `node[key]` as an object, its field `root` edited, and it stored back. */
  method EditObject(node: Node, ghost kids: map<string, Shape>, key: string, root: string, writes: Fields)
    returns (ghost after: map<string, Shape>)
    requires Holds(node, kids)
    modifies {node} + Below(kids)
    ensures Holds(node, after)
    ensures forall n | n in Below(after) :: n in Below(kids) || fresh(n)
    ensures KidTrees(after) == KidTrees(kids)[key := Achieve(KidTrees(kids), key, Within(root, writes))]
  {
    hide Rep, Separate, Nodes, TreeOf, ValueOf, Holds, HoldsExcept, Below, AsJsonMap, Edit;
    BelowAllocated(kids);
    BelowLess(kids, key);
    var blob, b := OpenObject(node, kids, key);
    ShapeHolds(b, blob);
    ghost var edited := EditField(blob, b.kids, root, writes);
    HoldsParts(blob, edited);
    ghost var w := SMap(blob, edited);
    Put(node, kids, key, Ref(blob), w);
    KidsTree(w);
    BelowPut(kids, key, w);
    after := kids[key := w];
    KidTreesPut(kids, key, w);
  }

  /** The outfit slot: an object stored as a JSON text inside another object. */
  method EditOutfitSlot(node: Node, ghost kids: map<string, Shape>, key: string, id: string)
    returns (ghost after: map<string, Shape>)
    requires Holds(node, kids)
    modifies {node} + Below(kids)
    ensures Holds(node, after)
    ensures forall n | n in Below(after) :: n in Below(kids) || fresh(n)
    ensures KidTrees(after) == KidTrees(kids)[key := Achieve(KidTrees(kids), key, OutfitSlot(id))]
  {
    hide Rep, Separate, Nodes, TreeOf, ValueOf, Holds, HoldsExcept, Below, AsJsonMap, EditSlot;
    BelowAllocated(kids);
    BelowLess(kids, key);
    var blob, b := OpenObject(node, kids, key);
    ShapeHolds(b, blob);
    ghost var edited := EditMpLoadout(blob, b.kids, id);
    HoldsParts(blob, edited);
    ghost var w := SMap(blob, edited);
    Put(node, kids, key, Ref(blob), w);
    KidsTree(w);
    BelowPut(kids, key, w);
    after := kids[key := w];
    KidTreesPut(kids, key, w);
  }

  method EditMpLoadout(blob: Node, ghost kids: map<string, Shape>, id: string) returns (ghost after: map<string, Shape>)
    requires Holds(blob, kids)
    modifies {blob} + Below(kids)
    ensures Holds(blob, after)
    ensures forall n | n in Below(after) :: n in Below(kids) || fresh(n)
    ensures var trees := KidTrees(kids);
      KidTrees(after) == trees["MpLoadout" := Obj(EditSlot(AsJsonMap(Lookup(trees, "MpLoadout")), id))]
  {
    hide Rep, Separate, Nodes, TreeOf, ValueOf, Holds, HoldsExcept, Below, AsJsonMap, EditSlot;
    BelowAllocated(kids);
    BelowLess(kids, "MpLoadout");
    var mp, m := OpenObject(blob, kids, "MpLoadout");
    ShapeHolds(m, mp);
    ghost var edited := EditD(mp, m.kids, id);
    HoldsParts(mp, edited);
    ghost var w := SMap(mp, edited);
    Put(blob, kids, "MpLoadout", Ref(mp), w);
    KidsTree(w);
    BelowPut(kids, "MpLoadout", w);
    after := kids["MpLoadout" := w];
    KidTreesPut(kids, "MpLoadout", w);
  }

  method EditD(mp: Node, ghost kids: map<string, Shape>, id: string) returns (ghost after: map<string, Shape>)
    requires Holds(mp, kids)
    modifies {mp} + Below(kids)
    ensures Holds(mp, after)
    ensures forall n | n in Below(after) :: n in Below(kids) || fresh(n)
    ensures KidTrees(after) == EditSlot(KidTrees(kids), id)
  {
    hide Rep, Separate, Nodes, TreeOf, ValueOf, Holds, HoldsExcept, Below, AsJsonMap, Edit;
    BelowAllocated(kids);
    BelowLess(kids, "d");
    var d, s := OpenObject(mp, kids, "d");
    ShapeHolds(s, d);
    ghost var edited := EditField(d, s.kids, "ac", map["i" := FromString(id)]);
    HoldsParts(d, edited);
    ghost var w := SMap(d, edited);
    KidsTree(w);
    var t := ReadTree(Ref(d), w);
    ghost var leaf := SLeaf(Str(Marshal(t)));
    LeafShape(leaf);
    Put(mp, kids, "d", Leaf(Str(Marshal(t))), leaf);
    BelowPut(kids, "d", leaf);
    after := kids["d" := leaf];
    KidTreesPut(kids, "d", leaf);
  }

  lemma LeafShape(s: Shape)
    requires s.SLeaf?
    ensures ValueOf(s) == Leaf(s.scalar) && Rep(s) && Separate(s) && Nodes(s) == {} && TreeOf(s) == Atom(s.scalar)
  {
  }

  // ---- one intent after the other ----

  /** The map being edited holds what the steps so far have made of the baseline. */
  ghost predicate Progress(base: Node, start: Fields, kids: map<string, Shape>, touched: set<string>, steps: seq<Step>)
    reads Nodes(SMap(base, kids))
  {
    Holds(base, kids) && KidTrees(kids) == RunSteps(start, steps) && touched == StepKeys(steps)
  }

  /** One edit, and the key marked as touched. */
  method Carry(base: Node, ghost start: Fields, ghost kids: map<string, Shape>, touched: set<string>,
               ghost steps: seq<Step>,
               key: string, goal: Goal)
    returns (ghost after: map<string, Shape>, touched': set<string>)
    requires Progress(base, start, kids, touched, steps)
    modifies {base} + Below(kids)
    ensures Progress(base, start, after, touched', steps + [Step(key, goal)])
    ensures forall n | n in Below(after) :: n in Below(kids) || fresh(n)
  {
    hide Rep, Separate, Nodes, TreeOf, ValueOf, Holds, HoldsExcept, Below, AsJsonMap, Edit, EditSlot, RunSteps;
    match goal {
      case Is(value) =>
        BelowAllocated(kids);
        ghost var k := UnmarshalInto(base, kids, key, value);
        BelowPut(kids, key, k);
        KidTreesPut(kids, key, k);
        after := kids[key := k];
      case Within(root, writes) =>
        after := EditObject(base, kids, key, root, writes);
      case OutfitSlot(id) =>
        after := EditOutfitSlot(base, kids, key, id);
    }
    touched' := touched + {key};
    FoldAppend(start, steps, key, goal);
  }

  /** The party half of BuildIntents, in the order of the code. */
  method EditParty(base: Node, ghost start: map<string, Shape>, intent: Intent)
    returns (ghost kids: map<string, Shape>, touched: set<string>)
    requires Holds(base, start)
    modifies {base} + Below(start)
    ensures Progress(base, KidTrees(start), kids, touched, PartySteps(intent))
    ensures forall n | n in Below(kids) :: n in Below(start) || fresh(n)
  {
    hide Nodes, Holds, Below, Achieve, RunSteps, LinkWrites, TrimSpace, Progress;
    BelowAllocated(start);
    ghost var b := KidTrees(start);
    kids, touched := start, {};
    NoProgress(base, kids);
    ghost var steps: seq<Step> := [];
    if intent.customKey.Some? {
      var goal := Is(FromString(TrimSpace(intent.customKey.value)));
      kids, touched := Carry(base, b, kids, touched, steps, CUSTOM_KEY, goal);
      steps := steps + [Step(CUSTOM_KEY, goal)];
    }
    if intent.playlist.Some? {
      var req := intent.playlist.value;
      kids, touched := Carry(base, b, kids, touched, steps, SQUAD_FILL, Is(Atom(Bool(req.teamFill))));
      steps := steps + [Step(SQUAD_FILL, Is(Atom(Bool(req.teamFill))))];
      if req.region != "" {
        kids, touched := Carry(base, b, kids, touched, steps, REGION, Is(FromString(req.region)));
        steps := steps + [Step(REGION, Is(FromString(req.region)))];
      }
      var island := Within("SelectedIsland", LinkWrites(req.playlistID));
      kids, touched := Carry(base, b, kids, touched, steps, SELECTED_ISLAND, island);
      steps := steps + [Step(SELECTED_ISLAND, island)];
    }
    assert steps == PartySteps(intent);
  }

  lemma NoProgress(base: Node, kids: map<string, Shape>)
    requires Holds(base, kids)
    ensures Progress(base, KidTrees(kids), kids, {}, [])
  {
  }

  /** The member half of BuildIntents, in the order of the code: first readiness and playlist. */
  method EditLobby(base: Node, ghost start: map<string, Shape>, intent: Intent, at: int)
    returns (ghost kids: map<string, Shape>, touched: set<string>)
    requires Holds(base, start)
    modifies {base} + Below(start)
    ensures Progress(base, KidTrees(start), kids, touched, LobbySteps(intent, at))
    ensures forall n | n in Below(kids) :: n in Below(start) || fresh(n)
  {
    hide Nodes, Holds, Below, Achieve, RunSteps, Progress, IslandWrites, ReadyWrites;
    BelowAllocated(start);
    ghost var b := KidTrees(start);
    kids, touched := start, {};
    NoProgress(base, kids);
    ghost var steps: seq<Step> := [];
    if intent.ready.Some? {
      var goal := Within("LobbyState", ReadyWrites(intent.ready.value));
      kids, touched := Carry(base, b, kids, touched, steps, LOBBY, goal);
      steps := steps + [Step(LOBBY, goal)];
    }
    if intent.playlist.Some? {
      var goal := Within("MatchmakingInfo", IslandWrites(intent.playlist.value.playlistID, at));
      kids, touched := Carry(base, b, kids, touched, steps, MATCHMAKING, goal);
      steps := steps + [Step(MATCHMAKING, goal)];
    }
    assert steps == LobbySteps(intent, at);
  }

  /** Then the loadout, with its emote. */
  method EditLoadout(base: Node, ghost b: Fields, ghost before: map<string, Shape>, touched0: set<string>,
                     intent: Intent, ghost at: int)
    returns (ghost kids: map<string, Shape>, touched: set<string>)
    requires Progress(base, b, before, touched0, LobbySteps(intent, at))
    modifies {base} + Below(before)
    ensures Progress(base, b, kids, touched, LoadoutSteps(intent, at))
    ensures forall n | n in Below(kids) :: n in Below(before) || fresh(n)
  {
    hide Nodes, Holds, Below, Achieve, RunSteps, Progress, LoadoutWrites, LobbySteps;
    BelowAllocated(before);
    kids, touched := before, touched0;
    ghost var steps := LobbySteps(intent, at);
    if intent.loadout.Some? {
      var loadout := intent.loadout.value;
      var goal := Within("AthenaCosmeticLoadout", LoadoutWrites(loadout));
      kids, touched := Carry(base, b, kids, touched, steps, COSMETICS, goal);
      steps := steps + [Step(COSMETICS, goal)];
      if loadout.emote != EMPTY {
        var emote := Within("FrontendEmote", map["pickable" := Atom(Str(loadout.emote))]);
        kids, touched := Carry(base, b, kids, touched, steps, EMOTE, emote);
        steps := steps + [Step(EMOTE, emote)];
      }
    }
    assert steps == LoadoutSteps(intent, at);
  }

  /** Then the outfit, clearing the emote, and a named emote. */
  method EditOutfitAndEmote(base: Node, ghost b: Fields, ghost before: map<string, Shape>, touched0: set<string>,
                            intent: Intent, ghost at: int)
    returns (ghost kids: map<string, Shape>, touched: set<string>)
    requires Progress(base, b, before, touched0, LoadoutSteps(intent, at))
    modifies {base} + Below(before)
    ensures Progress(base, b, kids, touched, MemberSteps(intent, at))
    ensures forall n | n in Below(kids) :: n in Below(before) || fresh(n)
  {
    hide Nodes, Holds, Below, Achieve, RunSteps, Progress, TrimSpace, BuildEmotePath, NormalizeOutfitID, LoadoutSteps;
    BelowAllocated(before);
    kids, touched := before, touched0;
    ghost var steps := LoadoutSteps(intent, at);
    if intent.outfitID.Some? {
      var outfitID := NormalizeOutfitID(intent.outfitID.value);
      if outfitID != "" {
        var character := Within("AthenaCosmeticLoadout", OutfitWrites(outfitID));
        kids, touched := Carry(base, b, kids, touched, steps, COSMETICS, character);
        steps := steps + [Step(COSMETICS, character)];
        kids, touched := Carry(base, b, kids, touched, steps, MP_LOADOUT, OutfitSlot(outfitID));
        steps := steps + [Step(MP_LOADOUT, OutfitSlot(outfitID))];
      }
    }
    if intent.clearEmote {
      kids, touched := Carry(base, b, kids, touched, steps, EMOTE, Within("FrontendEmote", CLEAR_EMOTE));
      steps := steps + [Step(EMOTE, Within("FrontendEmote", CLEAR_EMOTE))];
    }
    if intent.emoteID.Some? {
      var emoteID := TrimSpace(intent.emoteID.value);
      if emoteID != "" {
        kids, touched := Carry(base, b, kids, touched, steps, EMOTE, Within("FrontendEmote", PlayEmote(emoteID)));
        steps := steps + [Step(EMOTE, Within("FrontendEmote", PlayEmote(emoteID)))];
      }
    }
    assert steps == MemberSteps(intent, at);
  }

  // ---- the whole build ----

  /** The loop over the touched keys: a key whose serialized value is stored already is skipped. */
  method CollectUpdates(base: Node, ghost kids: map<string, Shape>, touched: set<string>, meta: Meta)
    returns (updates: map<string, Value>, ghost us: map<string, Shape>)
    requires Holds(base, kids)
    ensures us.Keys == updates.Keys == set key | key in touched && key in kids
      && SerializeMetaValue(key, TreeOf(kids[key])) != Get(meta, key)
    ensures forall key | key in us :: us[key] == kids[key] && ValueOf(us[key]) == updates[key]
    ensures Holds(base, kids)
  {
    hide Rep, Separate, Nodes, TreeOf, ValueOf, Holds, Below, SerializeMetaValue;
    BelowAllocated(kids);
    HoldsParts(base, kids);
    updates, us := map[], map[];
    var todo := touched;
    while todo != {}
      invariant todo <= touched && Holds(base, kids)
      invariant us.Keys == updates.Keys
      invariant forall key :: key in us <==>
          key in touched - todo && key in kids && SerializeMetaValue(key, TreeOf(kids[key])) != Get(meta, key)
      invariant forall key | key in us :: us[key] == kids[key] && ValueOf(us[key]) == updates[key]
    {
      var key :| key in todo;
      todo := todo - {key};
      HoldsParts(base, kids);
      if key !in base.entries { continue; }
      var value := base.entries[key];
      var tree := ReadTree(value, kids[key]);
      if Get(meta, key) == SerializeMetaValue(key, tree) { continue; }
      updates, us := updates[key := value], us[key := kids[key]];
    }
  }

  /** copyPartyTemplate and copyMemberTemplate. */
  method CopyTemplate(template: Node?, ghost t: Shape, embedded: Node, ghost e: Shape, ghost text: Meta)
    returns (copy: Node, ghost c: Shape)
    requires template != null ==> Carries(template, t, text)
    requires Carries(embedded, e, text)
    ensures ValueOf(c) == Ref(copy) && Rep(c) && Separate(c) && fresh(Nodes(c))
    ensures TreeOf(c) == Obj(Lift(text))
  {
    hide Rep, Separate, Nodes, TreeOf, ValueOf, Lift;
    if template == null || |template.entries| == 0 {
      copy, c := DeepCopyMap(embedded, e);
    } else {
      NodesAllocated(t);
      var empty := new Node();
      EmptyMap(empty);
      EmptyFields(empty);
      copy, c := DeepMerge(empty, SMap(empty, map[]), template, t);
      MergeIntoEmpty(Lift(text));
    }
  }

  /** The map holds the strings of a template. */
  ghost predicate Carries(node: Node, s: Shape, text: Meta)
    reads Nodes(s)
  {
    ValueOf(s) == Ref(node) && Rep(s) && TreeOf(s) == Obj(Lift(text))
  }

  /** The template with the decoded metadata merged over it. */
  method MakeBaseline(template: Node?, ghost t: Shape, embedded: Node, ghost e: Shape, ghost text: Meta, meta: Meta)
    returns (base: Node, ghost kids: map<string, Shape>)
    requires template != null ==> Carries(template, t, text)
    requires Carries(embedded, e, text)
    ensures Holds(base, kids) && KidTrees(kids) == Baseline(text, meta)
    ensures fresh({base} + Below(kids))
  {
    hide Rep, Separate, Nodes, TreeOf, ValueOf, Lift, Holds, Below, Carries, DecodeMetaSchema;
    ShapesAllocated(t, e);
    var current, d := DecodeSchema(meta);
    NodesAllocated(d);
    var copy, c := CopyTemplate(template, t, embedded, e, text);
    ghost var r;
    base, r := DeepMerge(copy, c, current, d);
    ShapeHolds(r, base);
    KidsTree(r);
    MergedFields(Lift(text), DecodeMetaSchema(meta));
    kids := r.kids;
  }

  lemma ShapesAllocated(t: Shape, e: Shape)
    ensures forall n | n in Nodes(t) :: allocated(n)
    ensures forall n | n in Nodes(e) :: allocated(n)
  {
    NodesAllocated(t);
    NodesAllocated(e);
  }

  datatype BuiltPatch = BuiltPatch(party: map<string, Value>, member: map<string, Value>)

  /** The updates are live values that stand for these trees. */
  ghost predicate Stands(updates: map<string, Value>, us: map<string, Shape>, trees: Fields)
    reads Below(us)
  {
    && us.Keys == updates.Keys
    && (forall key | key in us :: ValueOf(us[key]) == updates[key] && Nodes(us[key]) <= Below(us) && Rep(us[key]))
    && KidTrees(us) == trees
  }

  /** The updates of a plan, collected from the edited map. */
  method Finish(base: Node, ghost kids: map<string, Shape>, touched: set<string>, ghost text: Meta, meta: Meta,
                ghost steps: seq<Step>, ghost plan: Plan)
    returns (updates: map<string, Value>, ghost us: map<string, Shape>)
    requires Progress(base, Baseline(text, meta), kids, touched, steps) && Amounts(steps, plan)
    ensures Stands(updates, us, Updates(text, meta, plan)) && Below(us) <= Below(kids)
  {
    hide Rep, Separate, Nodes, TreeOf, ValueOf, Holds, Below, SerializeMetaValue, RunSteps, Achieve, Amounts,
         Baseline, Applied, KidTrees, Updates;
    BelowAllocated(kids);
    updates, us := CollectUpdates(base, kids, touched, meta);
    HoldsParts(base, kids);
    StepsAchieve(Baseline(text, meta), steps, plan);
    BelowSome(us, kids);
    UpdatesAre(text, meta, plan, kids, us);
  }

  lemma UpdatesAre(text: Meta, meta: Meta, plan: Plan, kids: map<string, Shape>, us: map<string, Shape>)
    requires KidTrees(kids) == Applied(Baseline(text, meta), plan)
    requires us.Keys == set key | key in plan && key in kids
      && SerializeMetaValue(key, TreeOf(kids[key])) != Get(meta, key)
    requires forall key | key in us :: us[key] == kids[key]
    ensures KidTrees(us) == Updates(text, meta, plan)
  {
    hide Baseline, SerializeMetaValue, Achieve, TreeOf, Applied;
    AppliedAt(Baseline(text, meta), plan);
    forall key | key in plan
      ensures key in kids && TreeOf(kids[key]) == Achieve(Baseline(text, meta), key, plan[key])
    {
      assert key in KidTrees(kids);
    }
  }

  lemma BelowSome(us: map<string, Shape>, kids: map<string, Shape>)
    requires forall key | key in us :: key in kids && us[key] == kids[key]
    ensures Below(us) <= Below(kids)
    ensures forall key | key in us :: Nodes(us[key]) <= Below(us)
  {
  }

  method BuildParty(template: Node?, ghost t: Shape, embedded: Node, ghost e: Shape, ghost text: Meta, meta: Meta,
                    intent: Intent)
    returns (updates: map<string, Value>, ghost us: map<string, Shape>)
    requires template != null ==> Carries(template, t, text)
    requires Carries(embedded, e, text)
    ensures Stands(updates, us, Updates(text, meta, PartyPlan(intent))) && fresh(Below(us))
  {
    hide Rep, Separate, Nodes, TreeOf, ValueOf, Holds, Below, Carries, Baseline, Updates, PartyPlan, PartySteps,
         Progress, Amounts, Stands;
    var base, start := MakeBaseline(template, t, embedded, e, text, meta);
    var kids, touched := EditParty(base, start, intent);
    PartyStepsPlan(intent);
    updates, us := Finish(base, kids, touched, text, meta, PartySteps(intent), PartyPlan(intent));
  }

  method BuildMember(template: Node?, ghost t: Shape, embedded: Node, ghost e: Shape, ghost text: Meta, meta: Meta,
                     intent: Intent, at: int)
    returns (updates: map<string, Value>, ghost us: map<string, Shape>)
    requires template != null ==> Carries(template, t, text)
    requires Carries(embedded, e, text)
    ensures Stands(updates, us, Updates(text, meta, MemberPlan(intent, at))) && fresh(Below(us))
  {
    hide Rep, Separate, Nodes, TreeOf, ValueOf, Holds, Below, Carries, Baseline, Updates, MemberPlan, MemberSteps,
         LobbySteps, LoadoutSteps,
         Progress, Amounts, Stands;
    var base, start := MakeBaseline(template, t, embedded, e, text, meta);
    var k1, t1 := EditLobby(base, start, intent, at);
    var k2, t2 := EditLoadout(base, KidTrees(start), k1, t1, intent, at);
    var k3, t3 := EditOutfitAndEmote(base, KidTrees(start), k2, t2, intent, at);
    MemberStepsPlan(intent, at);
    updates, us := Finish(base, k3, t3, text, meta, MemberSteps(intent, at), MemberPlan(intent, at));
  }

  class Builder {
    const accountID: string
    // nil in a builder that was not made for intents
    const partyTemplate: Node?
    const memberTemplate: Node?
    // the templates embedded in the package
    const embeddedParty: Node
    const embeddedMember: Node

    ghost const party: Shape
    ghost const member: Shape
    ghost const embeddedP: Shape
    ghost const embeddedM: Shape
    ghost const partyText: Meta
    ghost const memberText: Meta

    ghost predicate Valid()
      reads Nodes(party), Nodes(member), Nodes(embeddedP), Nodes(embeddedM)
    {
      && (partyTemplate != null ==> Carries(partyTemplate, party, partyText))
      && (memberTemplate != null ==> Carries(memberTemplate, member, memberText))
      && Carries(embeddedParty, embeddedP, partyText)
      && Carries(embeddedMember, embeddedM, memberText)
    }

    /** NewIntentPatchBuilder. */
    constructor ForIntents(accountID: string, ep: Node, ghost eps: Shape, ghost ptext: Meta, em: Node,
                           ghost ems: Shape, ghost mtext: Meta)
      requires Carries(ep, eps, ptext) && Carries(em, ems, mtext)
      ensures Valid() && this.accountID == accountID && partyText == ptext && memberText == mtext
      ensures fresh(Nodes(party) + Nodes(member))
    {
      hide Rep, Nodes, TreeOf, ValueOf, Lift;
      ShapesAllocated(eps, ems);
      var p, ps := DeepCopyMap(ep, eps);
      NodesAllocated(ps);
      var m, ms := DeepCopyMap(em, ems);
      this.accountID := accountID;
      partyTemplate, memberTemplate, embeddedParty, embeddedMember := p, m, ep, em;
      party, member, embeddedP, embeddedM := ps, ms, eps, ems;
      partyText, memberText := ptext, mtext;
    }

    /**
     BuildIntents. It changes no map that existed before, so neither the templates nor the
     snapshot are affected, and what it returns consists of new maps only. The updates are
     those of the plan, whatever the builder was used for before.
     */
    method BuildIntents(snapshot: Option<Party>, intent: Intent, at: int)
      returns (built: Option<BuiltPatch>, ghost ps: map<string, Shape>, ghost ms: map<string, Shape>)
      requires Valid()
      ensures Valid()
      ensures built.Some? <==> snapshot.Some?
      ensures built.Some? ==> Stands(built.value.party, ps, Updates(partyText, snapshot.value.meta, PartyPlan(intent)))
      ensures built.Some?
        ==> Stands(built.value.member, ms,
                   Updates(memberText, MemberOf(snapshot.value, accountID).meta, MemberPlan(intent, at)))
      ensures fresh(Below(ps) + Below(ms))
    {
      hide Rep, Separate, Nodes, TreeOf, ValueOf, Holds, Below, Carries, Baseline, Updates, PartyPlan, MemberPlan,
           PartySteps, MemberSteps,
           LobbySteps, LoadoutSteps, Progress, Amounts, Stands;
      ShapesAllocated(party, member);
      ShapesAllocated(embeddedP, embeddedM);
      ps, ms := map[], map[];
      NothingBelow();
      if snapshot.None? { return None, ps, ms; }
      var meta := snapshot.value.meta;
      var memberMeta := MemberOf(snapshot.value, accountID).meta;
      var pu, mu;
      pu, ps := BuildParty(partyTemplate, party, embeddedParty, embeddedP, partyText, meta, intent);
      BelowAllocated(ps);
      mu, ms := BuildMember(memberTemplate, member, embeddedMember, embeddedM, memberText, memberMeta, intent, at);
      built := Some(BuiltPatch(pu, mu));
    }
  }

  lemma NothingBelow()
    ensures Below(map[]) == {}
  {
  }
}
