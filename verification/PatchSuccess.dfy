/** What it means that a patch call returns without an error. */
module PatchSuccess {
  import opened GoStrings
  import opened Json
  import opened MetaCodec
  import opened PartyTypes
  import opened PatchPlan
  import opened PatchProtocol
  import opened PatchConflicts

  // ---- accepted at the snapshot's revision ----

  /** Entry i is the party patch built from this snapshot, acknowledged at the snapshot's revision. */
  ghost predicate PartyAccepted(cfg: Config, origin: Server, log: Log, snapshot: Party, basis: nat, i: nat) {
    && basis <= i < |log| && log[i].author == Acknowledged
    && log[i].change == PartyMeta(PartyPatch(cfg, snapshot.meta), {})
    && Replay(origin, log[..i]).revision == snapshot.revision && origin.id == snapshot.id
  }

  ghost predicate MemberAccepted(cfg: Config, origin: Server, log: Log, snapshot: Party, basis: nat, at: int, i: nat)
    requires cfg.account in snapshot.members
  {
    var member := snapshot.members[cfg.account];
    && basis <= i < |log| && log[i].author == Acknowledged
    && log[i].change == MemberMeta(cfg.account, MemberPatch(cfg, member.meta, at), {})
    && Present(Replay(origin, log[..i]), cfg.account)
    && Replay(origin, log[..i]).members[cfg.account].revision == member.revision && origin.id == snapshot.id
  }

  /** The snapshot asked for nothing, or what it asked for was accepted at its revision. */
  ghost predicate PartyDone(cfg: Config, origin: Server, log: Log, c: Client) {
    PartyPatch(cfg, c.snapshot.meta) == map[] || exists i :: PartyAccepted(cfg, origin, log, c.snapshot, c.basis, i)
  }

  ghost predicate MemberDone(cfg: Config, origin: Server, log: Log, c: Client) {
    cfg.account in c.snapshot.members &&
    (MemberPatch(cfg, c.snapshot.members[cfg.account].meta, c.builtAt) == map[]
     || exists i :: MemberAccepted(cfg, origin, log, c.snapshot, c.basis, c.builtAt, i))
  }

  lemma DoneGrows(cfg: Config, origin: Server, log: Log, e: Entry, c: Client)
    ensures PartyDone(cfg, origin, log, c) ==> PartyDone(cfg, origin, log + [e], c)
    ensures MemberDone(cfg, origin, log, c) ==> MemberDone(cfg, origin, log + [e], c)
  {
    hide Replay, PartyPatch, MemberPatch, Present;
    if i: nat :| PartyAccepted(cfg, origin, log, c.snapshot, c.basis, i) {
      assert (log + [e])[..i] == log[..i];
      assert PartyAccepted(cfg, origin, log + [e], c.snapshot, c.basis, i);
    }
    if cfg.account in c.snapshot.members {
      if i: nat :| MemberAccepted(cfg, origin, log, c.snapshot, c.basis, c.builtAt, i) {
        assert (log + [e])[..i] == log[..i];
        assert MemberAccepted(cfg, origin, log + [e], c.snapshot, c.basis, c.builtAt, i);
      }
    }
  }

  /** What this attempt has achieved by the time the client is where it is. */
  ghost predicate Achieving(cfg: Config, w: World) {
    var c := w.client;
    && (c.pc.SendMember? || c.pc == Refresh(false) || c.pc == Done(Nil) ==> PartyDone(cfg, w.origin, w.log, c))
    && (c.pc == Refresh(false) || c.pc == Done(Nil) ==> MemberDone(cfg, w.origin, w.log, c))
  }

  /** An accepted answer to the party patch. */
  lemma PartyIsDone(cfg: Config, w: World, c: Client)
    requires Linked(cfg, w) && w.client.pc.SendParty? && PartyVerdict(cfg, Now(w), w.client).Accept?
    requires c.snapshot == w.client.snapshot && c.basis == w.client.basis
    ensures PartyDone(cfg, w.origin, Append(w, PartyMeta(w.client.partyPatch, {}), Acknowledged), c)
  {
    hide PartyPatch, MemberPatch, Replay;
    var log := Append(w, PartyMeta(w.client.partyPatch, {}), Acknowledged);
    assert log[..|w.log|] == w.log;
    IdStays(w.origin, w.log);
    assert PartyAccepted(cfg, w.origin, log, c.snapshot, c.basis, |w.log|);
  }

  lemma MemberIsDone(cfg: Config, w: World, c: Client)
    requires Linked(cfg, w) && w.client.pc.SendMember? && MemberVerdict(cfg, Now(w), w.client).Accept?
    requires c.snapshot == w.client.snapshot && c.basis == w.client.basis && c.builtAt == w.client.builtAt
    ensures MemberDone(cfg, w.origin, Append(w, MemberMeta(cfg.account, w.client.memberPatch, {}), Acknowledged), c)
  {
    hide PartyPatch, MemberPatch, Replay;
    var log := Append(w, MemberMeta(cfg.account, w.client.memberPatch, {}), Acknowledged);
    assert log[..|w.log|] == w.log;
    IdStays(w.origin, w.log);
    assert MemberAccepted(cfg, w.origin, log, c.snapshot, c.basis, c.builtAt, |w.log|);
  }

  lemma AchievingParty(cfg: Config, w: World, fate: Fate)
    requires Linked(cfg, w) && Achieving(cfg, w) && w.client.pc.SendParty?
    ensures var c := w.client;
      Achieving(cfg, Send(w, PartyMeta(c.partyPatch, {}), PartyVerdict(cfg, Now(w), c), fate, AfterParty(c)))
  {
    hide PartyPatch, MemberPatch, Replay, PartyDone, MemberAccepted, Fetched, PartyVerdict, Now;
    var c := w.client;
    var r := Send(w, PartyMeta(c.partyPatch, {}), PartyVerdict(cfg, Now(w), c), fate, AfterParty(c));
    if PartyVerdict(cfg, Now(w), c).Accept? { PartyIsDone(cfg, w, r.client); }
  }

  lemma AchievingMember(cfg: Config, w: World, fate: Fate)
    requires Linked(cfg, w) && Achieving(cfg, w) && w.client.pc.SendMember?
    ensures var c := w.client;
      Achieving(cfg, Send(w, MemberMeta(cfg.account, c.memberPatch, {}), MemberVerdict(cfg, Now(w), c), fate,
                          Refresh(false)))
  {
    hide PartyPatch, MemberPatch, Replay, PartyDone, MemberDone, Fetched, MemberVerdict, Now;
    var c := w.client;
    var change := MemberMeta(cfg.account, c.memberPatch, {});
    var r := Send(w, change, MemberVerdict(cfg, Now(w), c), fate, Refresh(false));
    if MemberVerdict(cfg, Now(w), c).Accept? {
      MemberIsDone(cfg, w, r.client);
      DoneGrows(cfg, w.origin, w.log, OwnEntry(c, change, Acknowledged), c);
      DoneGrows(cfg, w.origin, w.log, OwnEntry(c, change, Unseen), c);
      SameDone(cfg, w.origin, r.log, c, r.client);
    }
    SameDone(cfg, w.origin, w.log, c, r.client);
  }

  lemma SameDone(cfg: Config, origin: Server, log: Log, c: Client, d: Client)
    requires c.snapshot == d.snapshot && c.basis == d.basis && c.builtAt == d.builtAt
    ensures PartyDone(cfg, origin, log, c) == PartyDone(cfg, origin, log, d)
    ensures MemberDone(cfg, origin, log, c) == MemberDone(cfg, origin, log, d)
  {
    hide PartyPatch, MemberPatch, PartyAccepted, MemberAccepted;
  }

  lemma AchievingBuild(cfg: Config, w: World, c: Client, at: int)
    ensures Achieving(cfg, w.(client := Build(cfg, c, at)))
  {
    hide PartyPatch, MemberPatch, PartyAccepted, MemberAccepted;
  }

  lemma AchievingAttempt(cfg: Config, w: World, at: int)
    ensures Achieving(cfg, w.(client := AttemptStep(cfg, w.client, at)))
  {
    hide PartyDone, MemberDone, Build;
    if w.client.local.Some? { AchievingBuild(cfg, w, Snap(w.client), at); }
  }

  lemma AchievingHydrate(cfg: Config, w: World, at: int, fate: Fate)
    requires w.client.pc.Hydrate?
    ensures Achieving(cfg, w.(client := HydrateStep(cfg, w, at, fate)))
  {
    hide PartyDone, MemberDone, Build, Fetched, Replay, Present, TrimSpace;
    AchievingBuild(cfg, w, Snap(WithParty(Asked(w.client), Now(w), |w.log|)), at);
  }

  lemma AchievingRefresh(cfg: Config, w: World, stale: bool, fate: Fate)
    requires Achieving(cfg, w) && w.client.pc == Refresh(stale)
    ensures Achieving(cfg, w.(client := RefreshStep(cfg, w, stale, fate)))
  {
    hide PartyDone, MemberDone, Fetched, Replay, RefreshStep;
    RefreshShape(cfg, w, stale, fate);
    SameDone(cfg, w.origin, w.log, w.client, RefreshStep(cfg, w, stale, fate));
  }

  lemma AchievingStep(cfg: Config, w: World, move: Move)
    requires Linked(cfg, w) && Achieving(cfg, w)
    ensures Achieving(cfg, Next(cfg, w, move))
  {
    hide PartyDone, MemberDone, Send, AttemptStep, HydrateStep, RefreshStep, PartyPatch, MemberPatch;
    match move
    case Other(change) => DoneGrows(cfg, w.origin, w.log, Others(change), w.client);
    case Notice(local) => SameDone(cfg, w.origin, w.log, w.client, w.client.(local := Some(local), fetched := false));
    case Step(at, fate, canceled) =>
      match w.client.pc
      case Attempt => AchievingAttempt(cfg, w, at);
      case Hydrate => AchievingHydrate(cfg, w, at, fate);
      case SendParty => AchievingParty(cfg, w, fate);
      case SendMember => AchievingMember(cfg, w, fate);
      case Refresh(stale) => AchievingRefresh(cfg, w, stale, fate);
      case _ =>
  }

  lemma {:induction false} RunAchieves(cfg: Config, w: World, moves: seq<Move>)
    requires Initial(cfg, w)
    ensures Achieving(cfg, Run(cfg, w, moves))
    decreases |moves|
  {
    hide Next, NothingLost, AllFromSnapshots, Linked, PartyDone, MemberDone;
    if moves == [] {
    } else {
      RunAchieves(cfg, w, moves[..|moves| - 1]);
      NoLostUpdate(cfg, w, moves[..|moves| - 1]);
      AchievingStep(cfg, Run(cfg, w, moves[..|moves| - 1]), moves[|moves| - 1]);
    }
  }

  // ---- from the snapshot to the keys ----

  /** A planned key whose value the snapshot had, or that the accepted patch carried. */
  ghost predicate PartyKeyMet(cfg: Config, origin: Server, log: Log, c: Client, key: string)
    requires key in cfg.partyPlan
  {
    var patch := PartyPatch(cfg, c.snapshot.meta);
    || Settled(key, Get(c.snapshot.meta, key), cfg.partyPlan[key])
    || (key in patch && Settled(key, patch[key], cfg.partyPlan[key])
        && exists i :: PartyAccepted(cfg, origin, log, c.snapshot, c.basis, i))
  }

  ghost predicate MemberKeyMet(cfg: Config, origin: Server, log: Log, c: Client, key: string)
    requires cfg.account in c.snapshot.members && key in cfg.memberPlan(c.builtAt)
  {
    var meta, goal := c.snapshot.members[cfg.account].meta, cfg.memberPlan(c.builtAt)[key];
    var patch := MemberPatch(cfg, meta, c.builtAt);
    || Settled(key, Get(meta, key), goal)
    || (key in patch && Settled(key, patch[key], goal)
        && exists i :: MemberAccepted(cfg, origin, log, c.snapshot, c.basis, c.builtAt, i))
  }

  /** A patch carries what the metadata it is built from does not have yet. */
  lemma PatchCarries(template: Meta, meta: Meta, plan: Plan, key: string)
    requires WellKeyed(plan) && key in plan && !Settled(key, Get(meta, key), plan[key])
    ensures key in BuildMetaPatch(Updates(template, meta, plan))
    ensures Settled(key, BuildMetaPatch(Updates(template, meta, plan))[key], plan[key])
  {
    hide Settled, Baseline, Achieve, HasSuffix, SerializeMetaValue;
    UpdateIff(template, meta, plan, key);
    AchieveSettles(Baseline(template, meta), key, plan[key]);
  }

  lemma PartyByKey(cfg: Config, origin: Server, log: Log, c: Client, key: string)
    requires Sound(cfg) && PartyDone(cfg, origin, log, c) && key in cfg.partyPlan
    ensures PartyKeyMet(cfg, origin, log, c, key)
  {
    hide Settled, Updates, PartyAccepted, BuildMetaPatch, WellKeyed;
    if !Settled(key, Get(c.snapshot.meta, key), cfg.partyPlan[key]) {
      PatchCarries(cfg.partyTemplate, c.snapshot.meta, cfg.partyPlan, key);
    }
  }

  lemma MemberByKey(cfg: Config, origin: Server, log: Log, c: Client, key: string)
    requires Sound(cfg) && MemberDone(cfg, origin, log, c) && key in cfg.memberPlan(c.builtAt)
    ensures MemberKeyMet(cfg, origin, log, c, key)
  {
    hide Settled, Updates, MemberAccepted, BuildMetaPatch, WellKeyed;
    var meta := c.snapshot.members[cfg.account].meta;
    if !Settled(key, Get(meta, key), cfg.memberPlan(c.builtAt)[key]) {
      PatchCarries(cfg.memberTemplate, meta, cfg.memberPlan(c.builtAt), key);
    }
  }

  /**
   When the call returns without an error, every planned key of the party and of the member
   either had its intended value in the snapshot of the last attempt, or was carried, with that
   value, by a patch of the call that the service acknowledged at that snapshot's revision.
   */
  lemma SuccessMeansMet(cfg: Config, w: World, moves: seq<Move>)
    requires Sound(cfg) && Initial(cfg, w)
    requires Run(cfg, w, moves).client.pc == Done(Nil)
    ensures var r := Run(cfg, w, moves);
      && w.client.seen <= r.client.basis && cfg.account in r.client.snapshot.members
      && (forall key | key in cfg.partyPlan :: PartyKeyMet(cfg, r.origin, r.log, r.client, key))
      && (forall key | key in cfg.memberPlan(r.client.builtAt) :: MemberKeyMet(cfg, r.origin, r.log, r.client, key))
  {
    hide Run, PartyDone, PartyKeyMet, MemberKeyMet, Linked, MemberAccepted, Sound;
    RunAchieves(cfg, w, moves);
    RunIsCounted(cfg, w, moves);
    var r := Run(cfg, w, moves);
    forall key | key in cfg.partyPlan
      ensures PartyKeyMet(cfg, r.origin, r.log, r.client, key)
    {
      PartyByKey(cfg, r.origin, r.log, r.client, key);
    }
    forall key | key in cfg.memberPlan(r.client.builtAt)
      ensures MemberKeyMet(cfg, r.origin, r.log, r.client, key)
    {
      MemberByKey(cfg, r.origin, r.log, r.client, key);
    }
  }

  // ---- from the keys to the service ----

  ghost predicate PartyMetAt(cfg: Config, origin: Server, log: Log, i: nat) {
    i <= |log| && AllSettled(Replay(origin, log[..i]).meta, cfg.partyPlan)
  }

  ghost predicate MemberMetAt(cfg: Config, origin: Server, log: Log, at: int, i: nat) {
    && i <= |log| && Present(Replay(origin, log[..i]), cfg.account)
    && AllSettled(Replay(origin, log[..i]).members[cfg.account].meta, cfg.memberPlan(at))
  }

  /** A trusted snapshot at the revision an entry was accepted at is what the service held then. */
  lemma SameRevision(origin: Server, log: Log, basis: nat, i: nat, account: string)
    requires basis <= i <= |log|
    ensures var s, t := Replay(origin, log[..basis]), Replay(origin, log[..i]);
      && (s.revision == t.revision ==> s.meta == t.meta)
      && (account in s.members && account in t.members ==>
            s.members[account].revision == t.members[account].revision ==> s.members[account] == t.members[account])
  {
    ReplaySplit(origin, log[..i], basis);
    assert log[..i][..basis] == log[..basis];
    Monotone(Replay(origin, log[..basis]), log[..i][basis..], account);
  }

  lemma PartyReallyMet(cfg: Config, origin: Server, log: Log, c: Client)
    requires Sound(cfg) && PartyDone(cfg, origin, log, c)
    requires c.basis <= |log| && c.snapshot == Fetched(Replay(origin, log[..c.basis]))
    ensures exists i :: c.basis <= i && PartyMetAt(cfg, origin, log, i)
  {
    hide PartyPatch, AllSettled, Sound;
    PartyPatchEffect(cfg, c.snapshot.meta, "");
    if i: nat :| PartyAccepted(cfg, origin, log, c.snapshot, c.basis, i) {
      SameRevision(origin, log, c.basis, i, cfg.account);
      assert log[..i + 1][..i] == log[..i];
      assert c.snapshot.meta - {} == c.snapshot.meta;
      assert PartyMetAt(cfg, origin, log, i + 1);
    } else {
      assert PartyMetAt(cfg, origin, log, c.basis);
    }
  }

  lemma MemberReallyMet(cfg: Config, origin: Server, log: Log, c: Client)
    requires Sound(cfg) && MemberDone(cfg, origin, log, c)
    requires c.basis <= |log| && c.snapshot == Fetched(Replay(origin, log[..c.basis]))
    ensures exists i :: c.basis <= i && MemberMetAt(cfg, origin, log, c.builtAt, i)
  {
    hide MemberPatch, AllSettled, Sound;
    var meta := c.snapshot.members[cfg.account].meta;
    MemberPatchEffect(cfg, meta, c.builtAt, "");
    if i: nat :| MemberAccepted(cfg, origin, log, c.snapshot, c.basis, c.builtAt, i) {
      SameRevision(origin, log, c.basis, i, cfg.account);
      assert log[..i + 1][..i] == log[..i];
      assert meta - {} == meta;
      assert MemberMetAt(cfg, origin, log, c.builtAt, i + 1);
    } else {
      assert MemberMetAt(cfg, origin, log, c.builtAt, c.basis);
    }
  }

  /**
   If the snapshot of the last attempt was fetched, the service itself has met every goal of the
   party, and every goal of the member, at some moment since.
   */
  lemma SuccessAtTheService(cfg: Config, w: World, moves: seq<Move>)
    requires Sound(cfg) && Initial(cfg, w)
    requires Run(cfg, w, moves).client.pc == Done(Nil) && Run(cfg, w, moves).client.trusted
    ensures var r := Run(cfg, w, moves);
      && (exists i :: r.client.basis <= i && PartyMetAt(cfg, r.origin, r.log, i))
      && (exists i :: r.client.basis <= i && MemberMetAt(cfg, r.origin, r.log, r.client.builtAt, i))
  {
    hide Run, PartyDone, MemberDone, PartyMetAt, MemberMetAt, NothingLost, AllFromSnapshots, Replay, Fetched, Sound;
    RunAchieves(cfg, w, moves);
    NoLostUpdate(cfg, w, moves);
    var r := Run(cfg, w, moves);
    PartyReallyMet(cfg, r.origin, r.log, r.client);
    MemberReallyMet(cfg, r.origin, r.log, r.client);
  }

  /** A member patch is only sent in an attempt whose party patch, if any, was accepted, never after a stale one. */
  lemma MemberOnlyAfterParty(cfg: Config, w: World, moves: seq<Move>)
    requires Initial(cfg, w) && Run(cfg, w, moves).client.pc.SendMember?
    ensures var r := Run(cfg, w, moves);
      PartyDone(cfg, r.origin, r.log, r.client) && r.client.stales == r.client.attempt
  {
    hide Run, PartyDone, MemberDone, Linked;
    RunAchieves(cfg, w, moves);
    RunIsCounted(cfg, w, moves);
  }
}
