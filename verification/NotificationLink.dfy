/**
 Where the patch protocol and the notifications meet: a notification can move the local party
 to a new revision without bringing the metadata of that revision (party/reducer.go), and the
 next patch is then accepted although it was not built from what the service holds.
 */
module NotificationLink {
  import opened GoStrings
  import opened Json
  import opened MetaCodec
  import opened Merge
  import opened PartyTypes
  import opened PatchPlan
  import P = PatchProtocol
  import K = PatchKeeps
  import D = Decoder
  import R = Reducer

  predicate BringsNoPartyMeta(n: D.Notification) {
    n.kind.MemberJoined? || n.kind.MemberStateUpdated? || n.kind.MemberLeft? || n.kind.MemberKicked?
        || n.kind.MemberNewCaptain?
  }

  /** A notification with the clock readings it is handled at. */
  datatype Delivery = Delivery(n: D.Notification, at: int, now: int)

  /** The local party after these notifications. */
  function Delivered(p: Party, ds: seq<Delivery>): Party {
    if ds == [] then p
    else
      var before, d := Delivered(p, ds[..|ds| - 1]), ds[|ds| - 1];
      var after := D.Notified(Some(before), d.n, d.at, d.now);
      if after.Some? then after.value else before
  }

  /** The largest revision that any of them carries, and at least `least`. */
  function TopRevision(least: int, ds: seq<Delivery>): int {
    if ds == [] then least
    else
      var top := TopRevision(least, ds[..|ds| - 1]);
      if ds[|ds| - 1].n.revision > top then ds[|ds| - 1].n.revision else top
  }

  /** What becomes of id, revision and metadata is settled before the event is looked at. */
  lemma ReducedHeader(p: Option<Party>, e: R.Event, now: int)
    requires !e.kind.PartySnapshot?
    ensures var q, r := R.Prepared(p, e, now), R.Reduce(p, e, now);
      r.id == q.id && r.revision == q.revision && r.meta == q.meta
  {
    hide R.Prepared, R.MergedMember, R.ExtractPlaylist;
  }

  lemma PreparedHeader(p: Party, e: R.Event, now: int)
    requires e.partyUpdates == map[] && e.partyRemoved == []
    ensures var q := R.Prepared(Some(p), e, now);
      && q.meta == p.meta && q.revision == (if e.revision > p.revision then e.revision else p.revision)
      && (p.id != "" ==> q.id == p.id)
  {
    hide R.Patched;
    D.NothingPatched(p.meta);
  }

  lemma OnlyTheRevisionMoves(p: Party, n: D.Notification, at: int, now: int)
    requires BringsNoPartyMeta(n)
    ensures var q := D.Notified(Some(p), n, at, now);
      && q.Some? && q.value.meta == p.meta
      && q.value.revision == (if n.revision > p.revision then n.revision else p.revision)
      && (p.id != "" ==> q.value.id == p.id)
  {
    hide D.JoinedMember, D.JoinedMeta, D.UpdatedMember, D.Merged, D.StringSlice, D.NormalizeAny, R.Reduce, R.Prepared,
         R.ExtractPlaylist;
    var e := D.Decode(n, Some(p), at).value;
    ReducedHeader(Some(p), e, now);
    PreparedHeader(p, e, now);
  }

  lemma {:induction false} OnlyTheRevisionsMove(p: Party, ds: seq<Delivery>)
    requires forall i | 0 <= i < |ds| :: BringsNoPartyMeta(ds[i].n)
    ensures var q := Delivered(p, ds);
      q.meta == p.meta && q.revision == TopRevision(p.revision, ds) && (p.id != "" ==> q.id == p.id)
  {
    hide D.Notified;
    if ds == [] {
    } else {
      OnlyTheRevisionsMove(p, ds[..|ds| - 1]);
      var d := ds[|ds| - 1];
      OnlyTheRevisionMoves(Delivered(p, ds[..|ds| - 1]), d.n, d.at, d.now);
    }
  }

  lemma {:induction false} TopIsLargest(least: int, ds: seq<Delivery>)
    ensures var top := TopRevision(least, ds);
      && top >= least && (forall i | 0 <= i < |ds| :: top >= ds[i].n.revision)
      && (top == least || exists i :: 0 <= i < |ds| && ds[i].n.revision == top)
  {
    if ds == [] {
    } else {
      var init := ds[..|ds| - 1];
      TopIsLargest(least, init);
      var top := TopRevision(least, init);
      if top != least {
        var i :| 0 <= i < |init| && init[i].n.revision == top;
        assert ds[i].n.revision == top;
      }
      assert ds[|ds| - 1].n.revision > top ==> TopRevision(least, ds) == ds[|ds| - 1].n.revision;
      assert forall i | 0 <= i < |init| :: ds[i] == init[i];
    }
  }

  /** The party passes for current, and is not. */
  ghost predicate Misleading(local: Party, current: P.Server) {
    local.revision == current.revision && local.meta != current.meta
  }

  /**
   A local party that was the service's before some changes, then notified any number of times
   without party metadata: it passes for current while it is not exactly when the metadata has
   changed, one of the notifications carries the current revision, and none a later one.
   */
  lemma NotificationsBreakLink(s: P.Server, log: P.Log, ds: seq<Delivery>)
    requires forall i | 0 <= i < |ds| :: BringsNoPartyMeta(ds[i].n)
    ensures var current := P.Replay(s, log);
      Misleading(Delivered(P.Fetched(s), ds), current)
      <==> && current.meta != s.meta
           && (exists i :: 0 <= i < |ds| && ds[i].n.revision == current.revision)
           && forall i | 0 <= i < |ds| :: ds[i].n.revision <= current.revision
  {
    hide P.Replay, Delivered;
    OnlyTheRevisionsMove(P.Fetched(s), ds);
    P.Monotone(s, log, "");
    TopIsLargest(s.revision, ds);
  }

  // ---- what such a party does to the service ----

  /** At some moment of a call, an attempt is about to start from this local party. */
  ghost predicate AboutToTry(cfg: P.Config, w: P.World, local: Party) {
    && w.client.pc.Attempt? && w.client.local == Some(local)
    && local.id != "" && local.id == w.origin.id && cfg.account in local.members
  }

  /** The client's next two steps, undisturbed. */
  function TwoSteps(at: int, later: int): seq<P.Move> {
    [P.Move.Step(at, P.Answered, false), P.Move.Step(later, P.Answered, false)]
  }

  /**
   Whatever the local party is, and however it came about: its patch is accepted exactly when its
   revision is current, whatever its metadata is; and it is accepted and built from what the
   service holds exactly when, besides, it is the patch one would build from that.
   */
  lemma AcceptedIff(cfg: P.Config, w: P.World, local: Party, at: int, later: int)
    requires AboutToTry(cfg, w, local) && P.PartyPatch(cfg, local.meta) != map[]
    ensures var r := P.Run(cfg, w, TwoSteps(at, later));
      var e := P.Entry(P.PartyMeta(P.PartyPatch(cfg, local.meta), {}), P.Acknowledged, at, local, w.client.fetched);
      && r.origin == w.origin
      && r.log == (if local.revision == P.Now(w).revision then w.log + [e] else w.log)
      && (r.log == w.log ==> r.client.pc == P.Refresh(true))
      && (r.log != w.log ==> P.Now(r).meta == P.Now(w).meta + P.PartyPatch(cfg, local.meta))
      && (r.log != w.log && P.BuiltFromCurrent(cfg, r.origin, r.log, |w.log|)
          <==> local.revision == P.Now(w).revision && P.PartyPatch(cfg, P.Now(w).meta) == P.PartyPatch(cfg, local.meta))
  {
    hide P.PartyPatch, P.MemberPatch;
    var first, second := P.Move.Step(at, P.Answered, false), P.Move.Step(later, P.Answered, false);
    RunTwo(cfg, w, first, second);
    P.IdStays(w.origin, w.log);
    var sent := P.Next(cfg, w, first);
    assert sent.client.pc.SendParty? && sent.client.snapshot == local && sent.log == w.log && sent.client.builtAt == at;
    var log := w.log + [P.OwnEntry(sent.client, P.PartyMeta(P.PartyPatch(cfg, local.meta), {}), P.Acknowledged)];
    assert log[..|w.log|] == w.log;
    assert P.Now(w).meta - {} == P.Now(w).meta;
  }

  lemma RunTwo(cfg: P.Config, w: P.World, first: P.Move, second: P.Move)
    ensures P.Run(cfg, w, [first, second]) == P.Next(cfg, P.Next(cfg, w, first), second)
  {
    hide P.Next;
    assert [first][..0] == [];
    assert P.Run(cfg, w, [first]) == P.Next(cfg, w, first);
    assert [first, second][..1] == [first];
  }

  /**
   At any moment of a call: the party that was fetched last, n changes into the log, and notified
   since without party metadata, passes for current although it is not exactly when one of the
   notifications carries the service's revision, none a later one, and the metadata has changed.
   Its patch is then accepted.
   */
  lemma StalePartyAccepted(cfg: P.Config, w: P.World, n: nat, ds: seq<Delivery>, at: int, later: int)
    requires forall i | 0 <= i < |ds| :: BringsNoPartyMeta(ds[i].n)
    requires n <= |w.log| && AboutToTry(cfg, w, Delivered(P.Fetched(P.Replay(w.origin, w.log[..n])), ds))
    requires P.PartyPatch(cfg, P.Replay(w.origin, w.log[..n]).meta) != map[]
    ensures var r, s, current := P.Run(cfg, w, TwoSteps(at, later)), P.Replay(w.origin, w.log[..n]), P.Now(w);
      && (Misleading(w.client.local.value, current)
          <==> && current.meta != s.meta
               && (exists i :: 0 <= i < |ds| && ds[i].n.revision == current.revision)
               && forall i | 0 <= i < |ds| :: ds[i].n.revision <= current.revision)
      && (Misleading(w.client.local.value, current) ==>
            && |r.log| == |w.log| + 1 && P.Now(r).meta == current.meta + P.PartyPatch(cfg, s.meta)
            && (P.BuiltFromCurrent(cfg, r.origin, r.log, |w.log|)
                <==> P.PartyPatch(cfg, current.meta) == P.PartyPatch(cfg, s.meta)))
  {
    hide P.Run, P.PartyPatch, Delivered, P.BuiltFromCurrent, P.Replay;
    var s := P.Replay(w.origin, w.log[..n]);
    OnlyTheRevisionsMove(P.Fetched(s), ds);
    P.ReplaySplit(w.origin, w.log, n);
    NotificationsBreakLink(s, w.log[n..], ds);
    AcceptedIff(cfg, w, w.client.local.value, at, later);
  }

  /**
   Then an unwritten path below a key the patch rewrites keeps the service's value exactly when
   the stale party agrees with the service there.
   */
  lemma ForeignFieldKeptIff(cfg: P.Config, w: P.World, local: Party, at: int, later: int, key: string,
                            path: seq<string>)
    requires P.Sound(cfg) && AboutToTry(cfg, w, local) && local.revision == P.Now(w).revision
    requires key in Updates(cfg.partyTemplate, local.meta, cfg.partyPlan)
    requires K.Unwritten(Start(cfg.partyTemplate, local.meta, key), cfg.partyPlan[key], path)
    ensures var r := P.Run(cfg, w, TwoSteps(at, later));
      && K.Inside(P.Now(r).meta, key, path) == TreeGet(Obj(Start(cfg.partyTemplate, local.meta, key)), path)
      && (K.Inside(P.Now(r).meta, key, path) == K.Inside(P.Now(w).meta, key, path)
          <==> TreeGet(Obj(Start(cfg.partyTemplate, local.meta, key)), path) == K.Inside(P.Now(w).meta, key, path))
  {
    hide P.Run, Updates, K.Unwritten, TreeGet, Start, P.Now;
    assert key in P.PartyPatch(cfg, local.meta);
    AcceptedIff(cfg, w, local, at, later);
    K.KeptIffAgreed(cfg.partyTemplate, local.meta, P.Now(w).meta, cfg.partyPlan, key, path);
  }

  // ---- an instance ----

  /** The object under the island key, with a link and one more field. */
  function Island(mnemonic: string, extra: string): Text {
    var link := Obj(map["mnemonic" := FromString(mnemonic)]);
    Canonical(Obj(map["SelectedIsland" := Obj(map["linkId" := link, "extra" := FromString(extra)])]))
  }

  const WITH_LINK: Intent := Intent(None, Some(PlaylistRequest("solo", "", false)), None, None, None, None, false)

  /** A party of two, seen by the first; then another writer changes the island, and the second member leaves. */
  function TwoMembers(): P.Server {
    P.Server("party", 1, map[SELECTED_ISLAND := Island("duos", "old")],
             map["me" := P.ServerMember(0, map[], true), "you" := P.ServerMember(0, map[], true)])
  }

  function TheirChanges(): P.Log {
    [P.Others(P.PartyMeta(map[SELECTED_ISLAND := Island("duos", "theirs")], {})), P.Others(P.Leave("you", true))]
  }

  function YouLeft(): D.Notification {
    D.Notification(D.MemberLeft, "party", "you", 3, "", "", 0, None, None, None, None, None)
  }

  /** The first member's party after the second's departure, of which it is told, but not of the island. */
  function MyParty(): Party {
    var p := D.Notified(Some(P.Fetched(TwoMembers())), YouLeft(), 5, 5);
    if p.Some? then p.value else ZERO_PARTY
  }

  function MyClient(local: Party, fetched: bool): P.Client {
    P.Client(P.Attempt, 0, Some(local), 0, fetched, ZERO_PARTY, 0, false, map[], map[], 0, 0, 0, 0, 0, 0)
  }

  /** The start of the first member's call, with the party as it was fetched. */
  function MyStart(): P.World {
    P.World(TwoMembers(), [], MyClient(P.Fetched(TwoMembers()), true))
  }

  /** The call once the other has changed the island and left, and the departure has been told. */
  function MyCall(): P.World {
    P.World(TwoMembers(), TheirChanges(), MyClient(MyParty(), false))
  }

  /** What the others do, and what the first member is told of it. */
  function Disturbance(): seq<P.Move> {
    [P.Other(TheirChanges()[0].change), P.Other(TheirChanges()[1].change), P.Notice(MyParty())]
  }

  lemma DisturbedCall(cfg: P.Config)
    ensures P.Run(cfg, MyStart(), Disturbance()) == MyCall()
  {
    hide MyParty;
    var ms, log := Disturbance(), TheirChanges();
    RunTwo(cfg, MyStart(), ms[0], ms[1]);
    assert ms[..2] == [ms[0], ms[1]];
    assert [] + [log[0]] + [log[1]] == log;
  }

  lemma TheirsIsCurrent()
    ensures var s := P.Now(MyCall());
      && s.id == "party" && s.revision == 3 && s.meta == map[SELECTED_ISLAND := Island("duos", "theirs")]
      && !P.Present(s, "you") && P.Present(P.Replay(TwoMembers(), TheirChanges()[..1]), "you")
  {
    hide Island;
    var s, log := TwoMembers(), TheirChanges();
    assert log[..1][..0] == [] && log[..1][0] == log[0];
    var s1 := P.Apply(s, log[0].change);
    assert P.Replay(s, log[..1]) == s1;
    assert s1.meta == map[SELECTED_ISLAND := Island("duos", "theirs")] && s1.revision == 2;
    assert log[..|log| - 1] == log[..1];
    assert P.Now(MyCall()) == P.Apply(s1, log[1].change);
  }

  lemma MineIsOld()
    ensures var p := MyParty();
      && p.id == "party" && p.revision == 3 && p.meta == map[SELECTED_ISLAND := Island("duos", "old")]
      && "me" in p.members && "you" !in p.members
  {
    hide Island, R.ExtractPlaylist;
    OnlyTheRevisionMoves(P.Fetched(TwoMembers()), YouLeft(), 5, 5);
  }

  lemma IslandIsPlanned()
    ensures SELECTED_ISLAND in PartyPlan(WITH_LINK)
    ensures PartyPlan(WITH_LINK)[SELECTED_ISLAND] == Within("SelectedIsland", LinkWrites("solo"))
  {
    hide LinkWrites;
    KeysDiffer();
  }

  lemma ExtraIsKept(extra: string)
    ensures var goal := Within("SelectedIsland", LinkWrites("solo"));
      var path := ["SelectedIsland", "extra"];
      && !Settled(SELECTED_ISLAND, Island("duos", extra), goal)
      && K.Unwritten(DecodeJsonMap(Island("duos", extra)), goal, path)
      && TreeGet(Obj(DecodeJsonMap(Island("duos", extra))), path) == Some(FromString(extra))
  {
    hide ToLower;
    var path := ["SelectedIsland", "extra"];
    IslandReads("duos", extra);
    assert |"linkId"| != |"extra"|;
    var island := DecodeJsonMap(Island("duos", extra))["SelectedIsland"].fields;
    assert "linkId" in LinkWrites("solo") && "extra" !in LinkWrites("solo");
    var asked := LinkWrites("solo")["linkId"];
    assert "version" in asked.fields;
    assert |"version"| != |"mnemonic"|;
    assert "version" !in island["linkId"].fields;
    assert island["linkId"] != asked;
  }

  lemma IslandReads(mnemonic: string, extra: string)
    ensures var o := DecodeJsonMap(Island(mnemonic, extra));
      && "SelectedIsland" in o && o["SelectedIsland"].Obj?
      && "linkId" in o["SelectedIsland"].fields
      && o["SelectedIsland"].fields["linkId"] == Obj(map["mnemonic" := FromString(mnemonic)])
      && "extra" in o["SelectedIsland"].fields && o["SelectedIsland"].fields["extra"] == FromString(extra)
    ensures TreeGet(Obj(DecodeJsonMap(Island(mnemonic, extra))), ["SelectedIsland", "extra"]) == Some(FromString(extra))
  {
    assert |"linkId"| != |"extra"|;
    var o := DecodeJsonMap(Island(mnemonic, extra));
    var path := ["SelectedIsland", "extra"];
    assert path[1..] == ["extra"];
    assert ["extra"][1..] == [];
    assert TreeGet(Obj(o), path) == TreeGet(o["SelectedIsland"], ["extra"]);
    assert TreeGet(o["SelectedIsland"], ["extra"]) == TreeGet(o["SelectedIsland"].fields["extra"], []);
  }

  /**
   A run in which another writer's change is lost. A call starts from a party as fetched. The
   other member writes `theirs` into a field of the island and leaves; the call is told of the
   departure only, so its party has an old value there and a current revision. After its first
   patch, which only asks for a link, the service holds the old value again.
   */
  lemma ForeignFieldOverwritten()
    ensures var cfg := P.ConfigFor("me", 3, map[], map[], WITH_LINK);
      var w := P.Run(cfg, MyStart(), Disturbance());
      var r := P.Run(cfg, w, TwoSteps(7, 8));
      var path := ["SelectedIsland", "extra"];
      && P.Initial(cfg, MyStart()) && MyStart().client.fetched && AboutToTry(cfg, w, MyParty())
      && Misleading(MyParty(), P.Now(w))
      && K.Inside(P.Now(w).meta, SELECTED_ISLAND, path) == Some(FromString("theirs"))
      && K.Inside(P.Now(r).meta, SELECTED_ISLAND, path) == Some(FromString("old"))
      && |r.log| == |w.log| + 1 && !P.BuiltFromCurrent(cfg, r.origin, r.log, |w.log|)
  {
    hide P.Run, P.Now, MyParty, PartyPlan, MemberPlan, Settled, LinkWrites, TreeGet, Island, P.BuiltFromCurrent,
         K.Unwritten, Updates, P.Sound,
         WellKeyed;
    var cfg, w, local := P.ConfigFor("me", 3, map[], map[], WITH_LINK), MyCall(), MyParty();
    var path := ["SelectedIsland", "extra"];
    DisturbedCall(cfg);
    MyStartIsInitial(cfg);
    TheirsIsCurrent();
    MineIsOld();
    IslandIsPlanned();
    ExtraIsKept("old");
    ExtraIsKept("theirs");
    Different();
    P.IntentsAreSound("me", 3, map[], map[], WITH_LINK);
    PlansWellKeyed(WITH_LINK, 0);
    UpdateIff(map[], local.meta, cfg.partyPlan, SELECTED_ISLAND);
    assert Start(map[], local.meta, SELECTED_ISLAND) == DecodeJsonMap(Island("duos", "old"));
    ForeignFieldKeptIff(cfg, w, local, 7, 8, SELECTED_ISLAND, path);
    assert SELECTED_ISLAND in P.PartyPatch(cfg, local.meta);
    AcceptedIff(cfg, w, local, 7, 8);
    var now := P.Now(w).meta;
    UpdateIff(map[], now, cfg.partyPlan, SELECTED_ISLAND);
    assert Start(map[], now, SELECTED_ISLAND) == DecodeJsonMap(Island("duos", "theirs"));
    K.KeptIffAgreed(map[], now, now, cfg.partyPlan, SELECTED_ISLAND, path);
  }

  lemma MyStartIsInitial(cfg: P.Config)
    ensures P.Initial(cfg, MyStart())
  {
    assert MyStart().log[..0] == [];
  }

  lemma Different()
    ensures Island("duos", "old") != Island("duos", "theirs") && FromString("old") != FromString("theirs")
  {
    IslandReads("duos", "old");
    IslandReads("duos", "theirs");
    assert |"old"| != |"theirs"|;
  }
}
