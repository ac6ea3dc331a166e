/** Stale answers are charged to changes the client could not know of. */
module PatchConflicts {
  import opened GoStrings
  import opened PartyTypes
  import opened PatchProtocol

  /** The changes a client cannot have known of: those of others, and its own that were never answered. */
  function Charges(log: Log): nat {
    if log == [] then 0
    else Charges(log[..|log| - 1]) + if log[|log| - 1].author == Acknowledged then 0 else 1
  }

  lemma {:induction false} ChargesSplit(a: Log, b: Log)
    ensures Charges(a + b) == Charges(a) + Charges(b)
    decreases |b|
  {
    if b == [] {
      assert a + b == a;
    } else {
      assert (a + b)[..|a + b| - 1] == a + b[..|b| - 1];
      ChargesSplit(a, b[..|b| - 1]);
    }
  }

  lemma {:induction false} SomeCharge(log: Log, i: nat)
    requires i < |log| && log[i].author != Acknowledged
    ensures Charges(log) > 0
    decreases |log|
  {
    if i < |log| - 1 {
      SomeCharge(log[..|log| - 1], i);
    }
  }

  lemma {:induction false} PartyChangesKeepMembers(s: Server, log: Log)
    requires forall i | 0 <= i < |log| :: log[i].change.PartyMeta?
    ensures Replay(s, log).members == s.members
    decreases |log|
  {
    if log == [] {
    } else {
      PartyChangesKeepMembers(s, log[..|log| - 1]);
    }
  }

  lemma ChargesGrow(log: Log, s0: nat, n: nat)
    requires s0 <= n <= |log|
    ensures Charges(log[s0..]) == Charges(log[s0..n]) + Charges(log[n..])
    ensures log[s0..|log|] == log[s0..]
  {
    assert log[s0..] == log[s0..n] + log[n..];
    ChargesSplit(log[s0..n], log[n..]);
  }

  // ---- counting along a run ----

  /**
   How many stale answers the client has had, by where it is. `s0` is how much of the log the
   start reflected. An attempt from a snapshot that is not trusted has one stale answer free.
   */
  ghost predicate Counted(cfg: Config, s0: nat, w: World) {
    var c := w.client;
    && s0 <= c.seen <= |w.log| && c.attempt <= cfg.maxRetries
    && c.stales <= Charges(w.log[s0..]) + c.doubts
    && (c.pc.Attempt? || c.pc.Hydrate? ==> c.stales == c.attempt <= Charges(w.log[s0..c.seen]) + c.doubts)
    && (c.pc.SendParty? || c.pc.SendMember? || c.pc == Refresh(false) ==>
          && s0 <= c.basis <= |w.log|
          && c.stales == c.attempt <= Charges(w.log[s0..c.basis]) + c.doubts - if c.trusted then 0 else 1)
    && (c.pc == Refresh(true) ==> c.stales == c.attempt + 1)
    && (c.pc == Sleep
        ==> c.attempt < cfg.maxRetries && c.stales == c.attempt + 1 <= Charges(w.log[s0..c.seen]) + c.doubts)
    && (c.pc.Attempt? || c.pc.Hydrate? || c.pc.Sleep? ==> forall i | c.seen <= i < |w.log| ::
        w.log[i].author != Acknowledged)
    && (c.pc.SendParty? ==> forall i | c.basis <= i < |w.log| :: w.log[i].author != Acknowledged)
    && (c.pc.SendMember? ==> forall i | c.basis <= i < |w.log| && w.log[i].author == Acknowledged ::
        w.log[i].change.PartyMeta?)
    && (c.pc == Done(Nil) ==> s0 <= c.basis)
    && (c.pc == Done(PatchConflict) ==> c.stales == cfg.maxRetries + 1)
  }

  lemma CountedAppend(cfg: Config, s0: nat, w: World, e: Entry)
    requires Counted(cfg, s0, w)
    requires e.author != Acknowledged
    ensures Counted(cfg, s0, w.(log := w.log + [e]))
  {
    hide Charges;
    var log := w.log + [e];
    var c := w.client;
    assert log[s0..c.seen] == w.log[s0..c.seen];
    assert log[s0..] == w.log[s0..] + [e];
    ChargesSplit(w.log[s0..], [e]);
    if s0 <= c.basis <= |w.log| { assert log[s0..c.basis] == w.log[s0..c.basis]; }
  }

  /** A stale answer to a party patch means a change since a trusted snapshot that the client could not know of. */
  lemma StalePartyIsCharged(cfg: Config, s0: nat, w: World)
    requires Linked(cfg, w) && Counted(cfg, s0, w) && w.client.trusted
    requires w.client.pc.SendParty? && PartyVerdict(cfg, Now(w), w.client).Stale?
    ensures Charges(w.log[w.client.basis..]) > 0
  {
    hide PartyPatch, MemberPatch, Charges, Replay;
    var b := w.client.basis;
    assert b < |w.log| by { assert w.log[..|w.log|] == w.log; }
    assert w.log[b..][0] == w.log[b];
    SomeCharge(w.log[b..], 0);
  }

  /**
   A stale answer to a member patch means such a change to a member: no party patch is to blame,
   not even an own one.
   */
  lemma StaleMemberIsCharged(cfg: Config, s0: nat, w: World)
    requires Linked(cfg, w) && Counted(cfg, s0, w) && w.client.trusted
    requires w.client.pc.SendMember? && MemberVerdict(cfg, Now(w), w.client).Stale?
    ensures exists i :: w.client.basis <= i < |w.log| && w.log[i].author != Acknowledged && !w.log[i].change.PartyMeta?
    ensures Charges(w.log[w.client.basis..]) > 0
  {
    hide PartyPatch, MemberPatch, Charges, Replay;
    var b := w.client.basis;
    var suffix := w.log[b..];
    ReplaySplit(w.origin, w.log, b);
    if forall i | 0 <= i < |suffix| :: suffix[i].change.PartyMeta? {
      PartyChangesKeepMembers(Replay(w.origin, w.log[..b]), suffix);
    } else {
      var i :| 0 <= i < |suffix| && !suffix[i].change.PartyMeta?;
      assert w.log[b + i] == suffix[i];
      SomeCharge(suffix, i);
    }
  }

  /** An own patch is accepted, and the answer lost or not. */
  lemma CountedAccept(cfg: Config, s0: nat, w: World, e: Entry, c: Client)
    requires Counted(cfg, s0, w) && (w.client.pc.SendParty? || w.client.pc.SendMember?)
    requires c == w.client.(pc := c.pc, requests := c.requests, sends := c.sends, resends := c.resends)
    requires e.author != Foreign
    requires e.author == Acknowledged
      ==> c.pc == Refresh(false) || (c.pc == SendMember && w.client.pc.SendParty? && e.change.PartyMeta?)
    requires e.author == Unseen ==> c.pc == w.client.pc || c.pc == Done(OtherError)
    ensures Counted(cfg, s0, w.(log := w.log + [e], client := c))
  {
    hide Charges;
    var log := w.log + [e];
    assert log[s0..c.basis] == w.log[s0..c.basis];
    assert log[s0..] == w.log[s0..] + [e];
    ChargesSplit(w.log[s0..], [e]);
  }

  lemma CountedSend(cfg: Config, s0: nat, w: World, change: Change, verdict: Verdict, fate: Fate, next: PC)
    requires Counted(cfg, s0, w) && (w.client.pc.SendParty? || w.client.pc.SendMember?)
    requires verdict.Stale? && w.client.trusted ==> Charges(w.log[w.client.basis..]) > 0
    requires next == Refresh(false) || (next == SendMember && w.client.pc.SendParty? && change.PartyMeta?)
    ensures Counted(cfg, s0, Send(w, change, verdict, fate, next))
  {
    hide Charges;
    var r := Send(w, change, verdict, fate, next);
    if r.log != w.log {
      CountedAccept(cfg, s0, w, r.log[|w.log|], r.client);
    } else {
      ChargesGrow(w.log, s0, w.client.basis);
    }
  }

  lemma CountedSending(cfg: Config, s0: nat, w: World, at: int, fate: Fate, canceled: bool)
    requires Linked(cfg, w) && Counted(cfg, s0, w) && (w.client.pc.SendParty? || w.client.pc.SendMember?)
    ensures Counted(cfg, s0, ClientStep(cfg, w, at, fate, canceled))
  {
    hide Replay, PartyPatch, MemberPatch, Fetched, Send, PartyVerdict, MemberVerdict, Counted, Charges;
    var c := w.client;
    if c.pc.SendParty? {
      if PartyVerdict(cfg, Now(w), c).Stale? && c.trusted { StalePartyIsCharged(cfg, s0, w); }
      CountedSend(cfg, s0, w, PartyMeta(c.partyPatch, {}), PartyVerdict(cfg, Now(w), c), fate, AfterParty(c));
    } else {
      if MemberVerdict(cfg, Now(w), c).Stale? && c.trusted { StaleMemberIsCharged(cfg, s0, w); }
      CountedSend(cfg, s0, w, MemberMeta(cfg.account, c.memberPatch, {}), MemberVerdict(cfg, Now(w), c), fate,
                  Refresh(false));
    }
  }

  lemma CountedBuild(cfg: Config, s0: nat, w: World, c: Client, at: int)
    requires s0 <= c.seen <= |w.log| && s0 <= c.basis <= |w.log| && c.attempt <= cfg.maxRetries
    requires c.stales == c.attempt <= Charges(w.log[s0..c.basis]) + c.doubts
    requires forall i | c.basis <= i < |w.log| :: w.log[i].author != Acknowledged
    ensures Counted(cfg, s0, w.(client := Build(cfg, c, at)))
  {
    hide Charges, Build;
    BuildShape(cfg, c, at);
    ChargesGrow(w.log, s0, c.basis);
  }

  lemma CountedAttempt(cfg: Config, s0: nat, w: World, at: int)
    requires Counted(cfg, s0, w) && w.client.pc.Attempt?
    ensures Counted(cfg, s0, w.(client := AttemptStep(cfg, w.client, at)))
  {
    hide Charges, Build;
    if w.client.local.Some? { CountedBuild(cfg, s0, w, Snap(w.client), at); }
  }

  lemma CountedHydrate(cfg: Config, s0: nat, w: World, at: int, fate: Fate)
    requires Counted(cfg, s0, w) && w.client.pc.Hydrate?
    ensures Counted(cfg, s0, w.(client := HydrateStep(cfg, w, at, fate)))
  {
    hide Replay, Fetched, Charges, Build, Now, Present, TrimSpace;
    ChargesGrow(w.log, s0, w.client.seen);
    CountedBuild(cfg, s0, w, Snap(WithParty(Asked(w.client), Now(w), |w.log|)), at);
  }

  /** The party has been fetched: the local state reflects the whole log. */
  lemma CountedFetch(cfg: Config, s0: nat, w: World, stale: bool, c: Client)
    requires Counted(cfg, s0, w) && w.client.pc == Refresh(stale)
    requires c == w.client.(pc := c.pc, local := c.local, fetched := true, seen := |w.log|,
                            requests := c.requests, sends := c.sends, resends := c.resends)
    requires if !stale then c.pc == Done(Nil) else if c.attempt == cfg.maxRetries then c.pc == Done(PatchConflict)
      else c.pc == Sleep
    ensures Counted(cfg, s0, w.(client := c))
  {
    hide Charges;
    assert w.log[s0..|w.log|] == w.log[s0..];
  }

  /** The call is over, or the request is sent again. */
  lemma CountedAsIs(cfg: Config, s0: nat, w: World, c: Client)
    requires Counted(cfg, s0, w)
    requires c == w.client.(pc := c.pc, requests := c.requests, sends := c.sends, resends := c.resends)
    requires c.pc == w.client.pc || c.pc == Done(OtherError)
    ensures Counted(cfg, s0, w.(client := c))
  {
    hide Charges;
  }

  lemma CountedRefresh(cfg: Config, s0: nat, w: World, stale: bool, fate: Fate)
    requires Counted(cfg, s0, w) && w.client.pc == Refresh(stale)
    ensures Counted(cfg, s0, w.(client := RefreshStep(cfg, w, stale, fate)))
  {
    hide Counted, Fetched, Now, RefreshStep;
    RefreshShape(cfg, w, stale, fate);
    var c := RefreshStep(cfg, w, stale, fate);
    if c.pc == w.client.pc || c.pc == Done(OtherError) {
      CountedAsIs(cfg, s0, w, c);
    } else {
      CountedFetch(cfg, s0, w, stale, c);
    }
  }

  lemma CountedSleep(cfg: Config, s0: nat, w: World, at: int, fate: Fate, canceled: bool)
    requires Counted(cfg, s0, w) && (w.client.pc.Sleep? || w.client.pc.Done?)
    ensures Counted(cfg, s0, ClientStep(cfg, w, at, fate, canceled))
  {
    hide Charges, AttemptStep, HydrateStep, RefreshStep, Send;
  }

  lemma CountedNotice(cfg: Config, s0: nat, w: World, local: Party)
    requires Counted(cfg, s0, w)
    ensures Counted(cfg, s0, w.(client := w.client.(local := Some(local), fetched := false)))
  {
    hide Charges;
  }

  lemma CountedStep(cfg: Config, s0: nat, w: World, move: Move)
    requires Linked(cfg, w) && Counted(cfg, s0, w)
    ensures Counted(cfg, s0, Next(cfg, w, move))
  {
    hide Counted, Linked, AttemptStep, HydrateStep, RefreshStep, Send;
    match move
    case Other(change) => CountedAppend(cfg, s0, w, Others(change));
    case Notice(local) => CountedNotice(cfg, s0, w, local);
    case Step(at, fate, canceled) =>
      match w.client.pc
      case Attempt => CountedAttempt(cfg, s0, w, at);
      case Hydrate => CountedHydrate(cfg, s0, w, at, fate);
      case SendParty => CountedSending(cfg, s0, w, at, fate, canceled);
      case SendMember => CountedSending(cfg, s0, w, at, fate, canceled);
      case Refresh(stale) => CountedRefresh(cfg, s0, w, stale, fate);
      case _ => CountedSleep(cfg, s0, w, at, fate, canceled);
  }

  lemma {:induction false} RunIsCounted(cfg: Config, w: World, moves: seq<Move>)
    requires Initial(cfg, w)
    ensures Linked(cfg, Run(cfg, w, moves)) && Counted(cfg, w.client.seen, Run(cfg, w, moves))
    decreases |moves|
  {
    hide Next, Linked, NothingLost, AllFromSnapshots;
    NoLostUpdate(cfg, w, moves);
    if moves == [] {
      assert w.log[w.client.seen..w.client.seen] == [];
    } else {
      RunIsCounted(cfg, w, moves[..|moves| - 1]);
      CountedStep(cfg, w.client.seen, Run(cfg, w, moves[..|moves| - 1]), moves[|moves| - 1]);
    }
  }

  // ---- doubts ----

  function Notices(moves: seq<Move>): nat {
    if moves == [] then 0 else Notices(moves[..|moves| - 1]) + if moves[|moves| - 1].Notice? then 1 else 0
  }

  /** What the start of a call costs: nothing if its local party is as fetched. */
  function Free(w: World): nat {
    if w.client.fetched then 0 else 1
  }

  /** An attempt that is still to be built, from a local party that is not as fetched. */
  function Doubtful(c: Client): nat {
    if !c.fetched && (c.pc.Attempt? || c.pc.Hydrate? || c.pc.Sleep?) then 1 else 0
  }

  predicate NoNewDoubt(c: Client, r: Client) {
    r.doubts + Doubtful(r) <= c.doubts + Doubtful(c)
  }

  lemma DoubtsAttempt(cfg: Config, c: Client, at: int)
    requires c.pc.Attempt?
    ensures NoNewDoubt(c, AttemptStep(cfg, c, at))
  {
    hide Build;
    if c.local.Some? { BuildShape(cfg, Snap(c), at); }
  }

  lemma DoubtsHydrate(cfg: Config, w: World, at: int, fate: Fate)
    requires w.client.pc.Hydrate?
    ensures NoNewDoubt(w.client, HydrateStep(cfg, w, at, fate))
  {
    hide Build, Now, Fetched, Present, TrimSpace;
    BuildShape(cfg, Snap(WithParty(Asked(w.client), Now(w), |w.log|)), at);
  }

  lemma DoubtsRefresh(cfg: Config, w: World, stale: bool, fate: Fate)
    requires w.client.pc == Refresh(stale)
    ensures NoNewDoubt(w.client, RefreshStep(cfg, w, stale, fate))
  {
    hide Now, Fetched, RefreshStep;
    RefreshShape(cfg, w, stale, fate);
  }

  lemma DoubtsSend(w: World, change: Change, verdict: Verdict, fate: Fate, next: PC)
    requires (w.client.pc.SendParty? || w.client.pc.SendMember?) && (next.SendMember? || next.Refresh?)
    ensures NoNewDoubt(w.client, Send(w, change, verdict, fate, next).client)
  {
  }

  lemma DoubtsStep(cfg: Config, w: World, move: Move)
    ensures var c, r := w.client, Next(cfg, w, move).client;
      r.doubts + Doubtful(r) <= c.doubts + Doubtful(c) + if move.Notice? then 1 else 0
  {
    hide AttemptStep, HydrateStep, RefreshStep, Send, Now, PartyVerdict, MemberVerdict;
    var c := w.client;
    if move.Step? {
      match c.pc
      case Attempt => DoubtsAttempt(cfg, c, move.at);
      case Hydrate => DoubtsHydrate(cfg, w, move.at, move.fate);
      case SendParty => DoubtsSend(w, PartyMeta(c.partyPatch, {}), PartyVerdict(cfg, Now(w), c), move.fate,
                                   AfterParty(c));
      case SendMember =>
        if cfg.account in c.snapshot.members {
          DoubtsSend(w, MemberMeta(cfg.account, c.memberPatch, {}), MemberVerdict(cfg, Now(w), c), move.fate,
                     Refresh(false));
        }
      case Refresh(stale) => DoubtsRefresh(cfg, w, stale, move.fate);
      case _ =>
    }
  }

  /** Each notification makes at most one more attempt doubtful. */
  lemma {:induction false} DoubtsBounded(cfg: Config, w: World, moves: seq<Move>)
    requires Initial(cfg, w)
    ensures var c := Run(cfg, w, moves).client; c.doubts + Doubtful(c) <= Free(w) + Notices(moves)
    decreases |moves|
  {
    hide Next;
    if moves == [] {
    } else {
      DoubtsBounded(cfg, w, moves[..|moves| - 1]);
      DoubtsStep(cfg, Run(cfg, w, moves[..|moves| - 1]), moves[|moves| - 1]);
    }
  }

  // ---- conflicts ----

  /**
   At every moment the stale answers so far are no more than the changes since the start that
   the client could not know of (those by other writers, and own ones whose answer was lost;
   changes the starting state had not seen count too) and the attempts whose snapshot was not as
   fetched.
   */
  lemma StalesAreCharged(cfg: Config, w: World, moves: seq<Move>)
    requires Initial(cfg, w)
    ensures var r := Run(cfg, w, moves);
      && w.client.seen <= |r.log| && r.client.stales <= Charges(r.log[w.client.seen..]) + r.client.doubts
      && r.client.doubts <= Free(w) + Notices(moves)
  {
    hide Run, Linked;
    RunIsCounted(cfg, w, moves);
    DoubtsBounded(cfg, w, moves);
  }

  /** Giving up takes maxRetries + 1 stale answers, one for each attempt. */
  lemma ConflictNeedsCharges(cfg: Config, w: World, moves: seq<Move>)
    requires Initial(cfg, w)
    requires Run(cfg, w, moves).client.pc == Done(PatchConflict)
    ensures var r := Run(cfg, w, moves);
      && w.client.seen <= |r.log| && r.client.stales == cfg.maxRetries + 1
      && Charges(r.log[w.client.seen..]) + Free(w) + Notices(moves) >= cfg.maxRetries + 1
  {
    hide Run, Linked, Notices;
    RunIsCounted(cfg, w, moves);
    StalesAreCharged(cfg, w, moves);
  }

  /** When no answer of an own patch is lost, the charges are the foreign changes. */
  lemma {:induction false} ChargesAreForeign(log: Log)
    requires forall i | 0 <= i < |log| :: log[i].author != Unseen
    ensures Charges(log) == |set i | 0 <= i < |log| && log[i].author == Foreign|
    decreases |log|
  {
    var foreign := set i | 0 <= i < |log| && log[i].author == Foreign;
    if log == [] {
      assert foreign == {};
    } else {
      var init := log[..|log| - 1];
      ChargesAreForeign(init);
      var before := set i | 0 <= i < |init| && init[i].author == Foreign;
      assert foreign == before + if log[|log| - 1].author == Foreign then {|log| - 1} else {};
    }
  }

  /**
   With fewer foreign changes than attempts, counting one for each notification and for a start
   that is not as fetched, and no own answer lost, a call never gives up.
   */
  lemma NeverGivesUp(cfg: Config, w: World, moves: seq<Move>)
    requires Initial(cfg, w) && w.client.seen <= |Run(cfg, w, moves).log|
    requires var suffix := Run(cfg, w, moves).log[w.client.seen..];
      && (forall i | 0 <= i < |suffix| :: suffix[i].author != Unseen)
      && |set i | 0 <= i < |suffix| && suffix[i].author == Foreign| + Free(w) + Notices(moves) <= cfg.maxRetries
    ensures Run(cfg, w, moves).client.pc != Done(PatchConflict)
  {
    hide Run, Notices, Initial;
    ChargesAreForeign(Run(cfg, w, moves).log[w.client.seen..]);
    if Run(cfg, w, moves).client.pc == Done(PatchConflict) { ConflictNeedsCharges(cfg, w, moves); }
  }
}
