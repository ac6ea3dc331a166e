/** What a patch does inside the objects it rewrites: other writers' fields are kept or lost there. */
module PatchKeeps {
  import opened GoStrings
  import opened Json
  import opened MetaCodec
  import opened Merge
  import opened PatchPlan
  import opened PatchProtocol

  /** The edit of this object does not write at the path, and finds an object or nothing where it edits. */
  predicate Unwritten(start: Fields, goal: Goal, path: seq<string>) {
    path != [] &&
    match goal
    case Is(_) => false
    case Within(root, writes) =>
      (root in start ==> start[root].Obj?) && (path[0] == root ==> |path| > 1 && path[1] !in writes)
    case OutfitSlot(_) =>
      ("MpLoadout" in start ==> start["MpLoadout"].Obj?) && (path[0] == "MpLoadout" ==> |path| > 1 && path[1] != "d")
  }

  /** Reading a path inside the object stored under a key. */
  function Inside(meta: Meta, key: string, path: seq<string>): Option<Tree> {
    TreeGet(Obj(DecodeJsonMap(Get(meta, key))), path)
  }

  /** The object inside the text in the outfit object. */
  function InnerOf(fields: Fields): Fields {
    AsJsonMap(Lookup(AsJsonMap(Lookup(fields, "MpLoadout")), "d"))
  }

  predicate InnerUnwritten(inner: Fields, path: seq<string>) {
    path != [] && ("ac" in inner ==> inner["ac"].Obj?) && (path[0] == "ac" ==> |path| > 1 && path[1] != "i")
  }

  lemma AchieveKeeps(template: Meta, meta: Meta, key: string, goal: Goal, path: seq<string>)
    requires HasSuffix(key, "_j") && Unwritten(Start(template, meta, key), goal, path)
    ensures TreeGet(Achieve(Baseline(template, meta), key, goal), path)
      == TreeGet(Obj(Start(template, meta, key)), path)
  {
    match goal
    case Within(root, writes) => EditKeepsPaths(template, meta, key, root, writes, path);
    case OutfitSlot(id) =>
      hide Baseline, HasSuffix, Start, EditSlot, TreeGet;
      StartIsRead(template, meta, key);
      SlotKeepsPaths(Start(template, meta, key), id, path, ["d"]);
  }

  /** What a sent key reads as afterwards. */
  lemma SentText(template: Meta, old_: Meta, now: Meta, plan: Plan, key: string)
    requires WellKeyed(plan) && key in Updates(template, old_, plan) && !plan[key].Is?
    ensures var value := Achieve(Baseline(template, old_), key, plan[key]);
      Get(now + BuildMetaPatch(Updates(template, old_, plan)), key) == Canonical(value) && value.Obj?
  {
    hide HasSuffix, Baseline, Edit, EditSlot;
    assert Updates(template, old_, plan)[key] == Achieve(Baseline(template, old_), key, plan[key]);
  }

  /**
   Why the link between revision and metadata matters. If a patch built from `old` is applied
   to `now`, an unwritten path below an edited key keeps the service's value exactly when the
   two agreed on it; otherwise the other writer's value is lost.
   */
  lemma KeptIffAgreed(template: Meta, old_: Meta, now: Meta, plan: Plan, key: string, path: seq<string>)
    requires WellKeyed(plan) && key in Updates(template, old_, plan)
      && Unwritten(Start(template, old_, key), plan[key], path)
    ensures var after := now + BuildMetaPatch(Updates(template, old_, plan));
      && Inside(after, key, path) == TreeGet(Obj(Start(template, old_, key)), path)
      && (Inside(after, key, path) == Inside(now, key, path)
          <==> TreeGet(Obj(Start(template, old_, key)), path) == Inside(now, key, path))
  {
    hide Updates, HasSuffix, Baseline, TreeGet, Start, Achieve;
    PlannedOnly(template, old_, plan, key);
    AchieveKeeps(template, old_, key, plan[key], path);
    SentText(template, old_, now, plan, key);
  }

  /** The same inside the text of the outfit object. */
  lemma InnerKeptIffAgreed(template: Meta, old_: Meta, now: Meta, plan: Plan, key: string, path: seq<string>)
    requires WellKeyed(plan) && key in Updates(template, old_, plan) && plan[key].OutfitSlot?
    requires InnerUnwritten(InnerOf(Start(template, old_, key)), path)
    ensures var after := DecodeJsonMap(Get(now + BuildMetaPatch(Updates(template, old_, plan)), key));
      var before := DecodeJsonMap(Get(now, key));
      TreeGet(Obj(InnerOf(after)), path) == TreeGet(Obj(InnerOf(before)), path)
      <==> TreeGet(Obj(InnerOf(Start(template, old_, key))), path) == TreeGet(Obj(InnerOf(before)), path)
  {
    hide Updates, HasSuffix, Baseline, TreeGet, Start;
    PlannedOnly(template, old_, plan, key);
    StartIsRead(template, old_, key);
    SentText(template, old_, now, plan, key);
    var o := Start(template, old_, key);
    InnerEdit(o, plan[key].id, path);
  }

  lemma InnerEdit(o: Fields, id: string, path: seq<string>)
    requires InnerUnwritten(InnerOf(o), path)
    ensures TreeGet(Obj(InnerOf(o["MpLoadout" := Obj(EditSlot(AsJsonMap(Lookup(o, "MpLoadout")), id))])), path)
         == TreeGet(Obj(InnerOf(o)), path)
  {
    var mp := AsJsonMap(Lookup(o, "MpLoadout"));
    var p := map["MpLoadout" := Obj(mp)];
    SlotKeepsPaths(p, id, ["x"], path);
    assert AsJsonMap(Lookup(p, "MpLoadout")) == mp;
  }

  lemma PlannedOnly(template: Meta, meta: Meta, plan: Plan, key: string)
    requires WellKeyed(plan) && key in Updates(template, meta, plan)
    ensures key in plan && (!plan[key].Is? ==> HasSuffix(key, "_j"))
  {
  }

  // ---- in the log ----

  /** The metadata that a change of the party, or of this account, is about. */
  function MetaOf(cfg: Config, s: Server, change: Change): Meta {
    if change.PartyMeta? then s.meta else if cfg.account in s.members then s.members[cfg.account].meta else map[]
  }

  function TemplateOf(cfg: Config, e: Entry): Meta {
    if e.change.PartyMeta? then cfg.partyTemplate else cfg.memberTemplate
  }

  function PlanOf(cfg: Config, e: Entry): Plan {
    if e.change.PartyMeta? then cfg.partyPlan else cfg.memberPlan(e.at)
  }

  lemma OwnPatchIsUpdate(cfg: Config, origin: Server, log: Log, i: nat)
    requires i < |log| && BuiltFromCurrent(cfg, origin, log, i)
    ensures var e := log[i];
      var before := MetaOf(cfg, Replay(origin, log[..i]), e.change);
      MetaOf(cfg, Replay(origin, log[..i + 1]), e.change)
          == before + BuildMetaPatch(Updates(TemplateOf(cfg, e), before, PlanOf(cfg, e)))
  {
    hide Updates, BuildMetaPatch;
    assert log[..i + 1][..i] == log[..i];
    var before := MetaOf(cfg, Replay(origin, log[..i]), log[i].change);
    assert before - {} == before;
  }

  /**
   An accepted own patch keeps every unwritten path below the keys it rewrites: at its place in
   the log the value there is the same before and after. Where the service has no such key, it
   is the template's.
   */
  lemma OwnPatchKeepsPaths(cfg: Config, origin: Server, log: Log, i: nat, key: string, path: seq<string>)
    requires Sound(cfg) && i < |log| && BuiltFromCurrent(cfg, origin, log, i) && key in PlanOf(cfg, log[i])
    requires var e := log[i];
      Unwritten(Start(TemplateOf(cfg, e), MetaOf(cfg, Replay(origin, log[..i]), e.change), key), PlanOf(cfg, e)[key],
                path)
    ensures var e := log[i];
      var before, after :=
          MetaOf(cfg, Replay(origin, log[..i]), e.change), MetaOf(cfg, Replay(origin, log[..i + 1]), e.change);
      && (key in before ==> Inside(after, key, path) == Inside(before, key, path))
      && Inside(after, key, path) in {Inside(before, key, path),
                                       TreeGet(Obj(Start(TemplateOf(cfg, e), before, key)), path)}
  {
    hide Updates, Replay, BuiltFromCurrent, TreeGet, Unwritten, MetaOf, WellKeyed;
    OwnPatchIsUpdate(cfg, origin, log, i);
    var e := log[i];
    var before := MetaOf(cfg, Replay(origin, log[..i]), e.change);
    if key in Updates(TemplateOf(cfg, e), before, PlanOf(cfg, e)) {
      KeptIffAgreed(TemplateOf(cfg, e), before, before, PlanOf(cfg, e), key, path);
    }
  }

  /** The same inside the text of the outfit object. */
  lemma OwnPatchKeepsInner(cfg: Config, origin: Server, log: Log, i: nat, key: string, path: seq<string>)
    requires Sound(cfg) && i < |log| && BuiltFromCurrent(cfg, origin, log, i)
    requires key in PlanOf(cfg, log[i]) && PlanOf(cfg, log[i])[key].OutfitSlot?
    requires key in MetaOf(cfg, Replay(origin, log[..i]), log[i].change)
    requires InnerUnwritten(InnerOf(DecodeJsonMap(Get(MetaOf(cfg, Replay(origin, log[..i]), log[i].change), key))),
                            path)
    ensures var before, after := MetaOf(cfg, Replay(origin, log[..i]), log[i].change),
      MetaOf(cfg, Replay(origin, log[..i + 1]), log[i].change);
      TreeGet(Obj(InnerOf(DecodeJsonMap(Get(after, key)))), path)
          == TreeGet(Obj(InnerOf(DecodeJsonMap(Get(before, key)))), path)
  {
    hide Updates, Replay, BuiltFromCurrent, TreeGet, InnerUnwritten, InnerOf, MetaOf, WellKeyed;
    OwnPatchIsUpdate(cfg, origin, log, i);
    var e := log[i];
    var before := MetaOf(cfg, Replay(origin, log[..i]), e.change);
    if key in Updates(TemplateOf(cfg, e), before, PlanOf(cfg, e)) {
      InnerKeptIffAgreed(TemplateOf(cfg, e), before, before, PlanOf(cfg, e), key, path);
    }
  }
}
