/**
 How often a patch call writes and asks, from local parties that are as fetched and from others.
 */
module PatchTraffic {
  import opened GoStrings
  import opened MetaCodec
  import opened PartyTypes
  import opened PatchPlan
  import opened PatchProtocol
  import opened PatchConflicts

  // ---- party patches ----

  /** Changes after which the party goals are no longer met, though they were before. */
  ghost function Upsets(cfg: Config, origin: Server, log: Log): nat
    decreases |log|
  {
    if log == [] then 0
    else
      var init := log[..|log| - 1];
      Upsets(cfg, origin, init)
      + if AllSettled(Replay(origin, init).meta, cfg.partyPlan)
          && !AllSettled(Replay(origin, log).meta, cfg.partyPlan) then 1 else 0
  }

  /** Own party patches, or member patches, built from a snapshot that was as fetched, or from one that was not. */
  function Own(log: Log, party: bool, trusted: bool): nat
    decreases |log|
  {
    if log == [] then 0
    else
      var last := log[|log| - 1];
      Own(log[..|log| - 1], party, trusted)
      + if last.author != Foreign && last.trusted == trusted && last.change.PartyMeta? == party then 1 else 0
  }

  lemma OwnAppend(log: Log, e: Entry, party: bool, trusted: bool)
    ensures Own(log + [e], party, trusted)
         == Own(log, party, trusted) + if e.author != Foreign && e.trusted == trusted && e.change.PartyMeta? == party
             then 1 else 0
  {
    assert (log + [e])[..|log|] == log;
  }

  /**
   From fetched snapshots the party is patched at most once more than its goals are upset: after
   an accepted party patch, a stale member patch alone never leads to a second one.
   */
  lemma {:induction false} PartyPatchesBounded(cfg: Config, origin: Server, log: Log)
    requires Sound(cfg) && NothingLost(cfg, origin, log)
    ensures Own(log, true, true) <= Upsets(cfg, origin, log) + 1
    ensures Own(log, true, true) > Upsets(cfg, origin, log) ==> AllSettled(Replay(origin, log).meta, cfg.partyPlan)
    decreases |log|
  {
    hide Replay, AllSettled, Sound, PartyPatch, MemberPatch, BuiltFromCurrent;
    if log == [] {
    } else {
      var init := log[..|log| - 1];
      forall i | 0 <= i < |init| && init[i].author != Foreign && init[i].trusted
        ensures BuiltFromCurrent(cfg, origin, init, i)
      {
        BuiltBefore(cfg, origin, init, log, i);
      }
      PartyPatchesBounded(cfg, origin, init);
      assert log[..|log|] == log;
      if log[|log| - 1].author != Foreign && log[|log| - 1].trusted {
        OwnPatchEffect(cfg, origin, log, |log| - 1, "");
        LastPartyPatch(cfg, origin, log);
      }
    }
  }

  /** The last entry, if it is an own party patch built from what the service held, was needed. */
  lemma LastPartyPatch(cfg: Config, origin: Server, log: Log)
    requires Sound(cfg) && log != [] && BuiltFromCurrent(cfg, origin, log, |log| - 1)
    ensures log[|log| - 1].change.PartyMeta? ==> !AllSettled(Replay(origin, log[..|log| - 1]).meta, cfg.partyPlan)
  {
    hide Replay, AllSettled, Sound, PartyPatch, MemberPatch;
    PartyPatchEffect(cfg, Replay(origin, log[..|log| - 1]).meta, "");
  }

  // ---- doubtful attempts ----

  /** An attempt from a snapshot that is not as fetched gets at most one patch of each kind into the log. */
  ghost predicate Doubted(cfg: Config, w: World) {
    var c := w.client;
    && Own(w.log, true, false) <= c.doubts && Own(w.log, false, false) <= c.doubts
    && (c.pc.SendParty? && !c.trusted ==>
          && Own(w.log, false, false) < c.doubts
          && (Own(w.log, true, false) < c.doubts || Now(w).revision > c.snapshot.revision))
    && (c.pc.SendMember? && !c.trusted && cfg.account in c.snapshot.members ==>
          || Own(w.log, false, false) < c.doubts
          || (cfg.account in Now(w).members
              && Now(w).members[cfg.account].revision > c.snapshot.members[cfg.account].revision))
  }

  /** A change never takes a revision back. */
  lemma ApplyMonotone(s: Server, change: Change, account: string)
    ensures Apply(s, change).revision >= s.revision
    ensures account in s.members ==>
      account in Apply(s, change).members && Apply(s, change).members[account].revision >= s.members[account].revision
  {
  }

  lemma NowAfter(w: World, e: Entry)
    ensures Now(w.(log := w.log + [e])) == Apply(Now(w), e.change)
  {
    assert (w.log + [e])[..|w.log|] == w.log;
  }

  lemma DoubtedOther(cfg: Config, w: World, change: Change)
    requires Doubted(cfg, w)
    ensures Doubted(cfg, w.(log := w.log + [Others(change)]))
  {
    hide Replay, Apply, Own;
    var e := Others(change);
    OwnAppend(w.log, e, true, false);
    OwnAppend(w.log, e, false, false);
    NowAfter(w, e);
    ApplyMonotone(Now(w), change, cfg.account);
  }

  /** The log is left alone, and no patch is about to be sent that was not before. */
  lemma DoubtedQuiet(cfg: Config, w: World, c: Client)
    requires Doubted(cfg, w) && c.doubts >= w.client.doubts
    requires c.pc.SendParty? || c.pc.SendMember? ==>
      || c.trusted || c.doubts > w.client.doubts
      || (c.pc == w.client.pc && c.snapshot == w.client.snapshot && c.trusted == w.client.trusted)
    ensures Doubted(cfg, w.(client := c))
  {
    hide Replay, Own;
  }

  /** A party patch is accepted. */
  lemma DoubtedParty(cfg: Config, w: World, author: Author, c: Client)
    requires Doubted(cfg, w) && w.client.pc.SendParty? && PartyVerdict(cfg, Now(w), w.client).Accept?
    requires c == w.client.(pc := c.pc, requests := c.requests, sends := c.sends, resends := c.resends)
    requires c.pc in {SendParty, SendMember, Refresh(false)} || c.pc.Done?
    ensures Doubted(cfg, w.(log := Append(w, PartyMeta(w.client.partyPatch, {}), author), client := c))
  {
    hide Replay, Own;
    var e := OwnEntry(w.client, PartyMeta(w.client.partyPatch, {}), author);
    OwnAppend(w.log, e, true, false);
    OwnAppend(w.log, e, false, false);
    NowAfter(w, e);
  }

  lemma DoubtedMember(cfg: Config, w: World, author: Author, c: Client)
    requires Doubted(cfg, w) && w.client.pc.SendMember? && cfg.account in w.client.snapshot.members
    requires MemberVerdict(cfg, Now(w), w.client).Accept?
    requires c == w.client.(pc := c.pc, requests := c.requests, sends := c.sends, resends := c.resends)
    requires c.pc in {SendMember, Refresh(false)} || c.pc.Done?
    ensures Doubted(cfg, w.(log := Append(w, MemberMeta(cfg.account, w.client.memberPatch, {}), author), client := c))
  {
    hide Replay, Own;
    var e := OwnEntry(w.client, MemberMeta(cfg.account, w.client.memberPatch, {}), author);
    OwnAppend(w.log, e, true, false);
    OwnAppend(w.log, e, false, false);
    NowAfter(w, e);
  }

  lemma DoubtedSend(cfg: Config, w: World, fate: Fate)
    requires Doubted(cfg, w) && w.client.pc.SendParty?
    ensures Doubted(cfg, Send(w, PartyMeta(w.client.partyPatch, {}), PartyVerdict(cfg, Now(w), w.client), fate,
                              AfterParty(w.client)))
  {
    hide Doubted, PartyVerdict, Now;
    var r := Send(w, PartyMeta(w.client.partyPatch, {}), PartyVerdict(cfg, Now(w), w.client), fate,
                  AfterParty(w.client));
    if r.log != w.log {
      DoubtedParty(cfg, w, r.log[|w.log|].author, r.client);
    } else {
      DoubtedQuiet(cfg, w, r.client);
    }
  }

  lemma DoubtedSendMember(cfg: Config, w: World, fate: Fate)
    requires Doubted(cfg, w) && w.client.pc.SendMember? && cfg.account in w.client.snapshot.members
    ensures var c := w.client;
      Doubted(cfg, Send(w, MemberMeta(cfg.account, c.memberPatch, {}), MemberVerdict(cfg, Now(w), c), fate,
                        Refresh(false)))
  {
    hide Doubted, MemberVerdict, Now;
    var c := w.client;
    var r := Send(w, MemberMeta(cfg.account, c.memberPatch, {}), MemberVerdict(cfg, Now(w), c), fate, Refresh(false));
    if r.log != w.log {
      DoubtedMember(cfg, w, r.log[|w.log|].author, r.client);
    } else {
      DoubtedQuiet(cfg, w, r.client);
    }
  }

  lemma DoubtedAttempt(cfg: Config, w: World, at: int)
    requires Doubted(cfg, w) && w.client.pc.Attempt?
    ensures Doubted(cfg, w.(client := AttemptStep(cfg, w.client, at)))
  {
    hide Doubted, Build;
    if w.client.local.Some? { BuildShape(cfg, Snap(w.client), at); }
    DoubtedQuiet(cfg, w, AttemptStep(cfg, w.client, at));
  }

  lemma DoubtedHydrate(cfg: Config, w: World, at: int, fate: Fate)
    requires Doubted(cfg, w) && w.client.pc.Hydrate?
    ensures Doubted(cfg, w.(client := HydrateStep(cfg, w, at, fate)))
  {
    hide Doubted, Build, Fetched, Now, Present, TrimSpace;
    BuildShape(cfg, Snap(WithParty(Asked(w.client), Now(w), |w.log|)), at);
    DoubtedQuiet(cfg, w, HydrateStep(cfg, w, at, fate));
  }

  lemma DoubtedRefresh(cfg: Config, w: World, stale: bool, fate: Fate)
    requires Doubted(cfg, w) && w.client.pc == Refresh(stale)
    ensures Doubted(cfg, w.(client := RefreshStep(cfg, w, stale, fate)))
  {
    hide Doubted, RefreshStep, Now, Fetched;
    RefreshShape(cfg, w, stale, fate);
    DoubtedQuiet(cfg, w, RefreshStep(cfg, w, stale, fate));
  }

  lemma DoubtedStep(cfg: Config, w: World, move: Move)
    requires Doubted(cfg, w)
    ensures Doubted(cfg, Next(cfg, w, move))
  {
    hide Doubted, AttemptStep, HydrateStep, RefreshStep, Send;
    match move
    case Other(change) => DoubtedOther(cfg, w, change);
    case Notice(local) => DoubtedQuiet(cfg, w, w.client.(local := Some(local), fetched := false));
    case Step(at, fate, canceled) =>
      match w.client.pc
      case Attempt => DoubtedAttempt(cfg, w, at);
      case Hydrate => DoubtedHydrate(cfg, w, at, fate);
      case SendParty => DoubtedSend(cfg, w, fate);
      case SendMember => if cfg.account in w.client.snapshot.members { DoubtedSendMember(cfg, w, fate); }
      case Refresh(stale) => DoubtedRefresh(cfg, w, stale, fate);
      case _ => DoubtedQuiet(cfg, w, ClientStep(cfg, w, at, fate, canceled).client);
  }

  lemma {:induction false} RunIsDoubted(cfg: Config, w: World, moves: seq<Move>)
    requires Initial(cfg, w)
    ensures Doubted(cfg, Run(cfg, w, moves))
    decreases |moves|
  {
    hide Next, Doubted;
    if moves == [] {
      StartIsDoubted(cfg, w);
    } else {
      RunIsDoubted(cfg, w, moves[..|moves| - 1]);
      DoubtedStep(cfg, Run(cfg, w, moves[..|moves| - 1]), moves[|moves| - 1]);
    }
  }

  lemma StartIsDoubted(cfg: Config, w: World)
    requires Initial(cfg, w)
    ensures Doubted(cfg, w)
  {
    NoneOwn(w.log, true);
    NoneOwn(w.log, false);
  }

  lemma {:induction false} NoneOwn(log: Log, party: bool)
    requires forall i | 0 <= i < |log| :: log[i].author == Foreign
    ensures Own(log, party, false) == 0
    decreases |log|
  {
    if log == [] {
    } else {
      NoneOwn(log[..|log| - 1], party);
    }
  }

  /**
   Notifications can make an attempt start from a party that is not what the service held. Of such
   patches at most one party patch and one member patch are accepted for each notification, and
   one of each for a call that starts from such a party; the patches from fetched snapshots are as
   many as the upsets at most, and one. BuiltFromCurrentIff tells which of them do harm.
   */
  lemma DoubtfulPatches(cfg: Config, w: World, moves: seq<Move>)
    requires Sound(cfg) && Initial(cfg, w)
    ensures var r := Run(cfg, w, moves);
      && Own(r.log, true, false) <= Free(w) + Notices(moves) && Own(r.log, false, false) <= Free(w) + Notices(moves)
      && Own(r.log, true, true) <= Upsets(cfg, r.origin, r.log) + 1
  {
    hide Run, Own, Upsets, Sound, Linked, AllFromSnapshots, NothingLost, Notices;
    RunIsDoubted(cfg, w, moves);
    DoubtsBounded(cfg, w, moves);
    NoLostUpdate(cfg, w, moves);
    PartyPatchesBounded(cfg, Run(cfg, w, moves).origin, Run(cfg, w, moves).log);
  }

  // ---- requests and transmissions ----

  /** Whether a request has been sent and is not over. */
  function Pending(c: Client): nat {
    if c.resends > 0 then 1 else 0
  }

  /** One attempt makes at most four requests: hydrate, party patch, member patch, refresh. */
  ghost predicate Budgeted(c: Client) {
    match c.pc
    case Attempt => c.requests <= 4 * c.attempt && c.resends == 0
    case Hydrate => c.requests <= 4 * c.attempt
    case SendParty => c.requests <= 4 * c.attempt + 1
    case SendMember => c.requests <= 4 * c.attempt + 2
    case Refresh(_) => c.requests <= 4 * c.attempt + 3
    case Sleep => c.requests <= 4 * c.attempt + 4 && c.resends == 0
    case Done(_) => c.requests + Pending(c) <= 4 * c.attempt + 4
  }

  /** A request that is under way is one of the four. */
  predicate Asking(c: Client) {
    c.pc.Hydrate? || c.pc.SendParty? || c.pc.SendMember? || c.pc.Refresh?
  }

  /** Steps that transmit nothing. */
  predicate Quiet(c: Client, r: Client) {
    && r.requests == c.requests && r.sends == c.sends && r.resends == c.resends
    && match c.pc
       case Attempt => r.attempt == c.attempt && (r.pc.Hydrate? || r.pc.SendParty? || r.pc.SendMember? || r.pc.Done?)
       case Hydrate => r.attempt == c.attempt && r.pc.Done?
       case Sleep => if r.pc.Attempt? then r.attempt == c.attempt + 1 else r.attempt == c.attempt && r.pc.Done?
       case _ => false
  }

  /** Steps that end a request. */
  predicate Answers(c: Client, r: Client) {
    && r.requests == c.requests + 1 && r.sends == c.sends + 1 && r.resends == 0 && r.attempt == c.attempt
    && match c.pc
       case Hydrate => r.pc.SendParty? || r.pc.SendMember? || r.pc.Done?
       case SendParty => r.pc.SendMember? || r.pc.Refresh? || r.pc.Done?
       case SendMember => r.pc.Refresh? || r.pc.Done?
       case Refresh(_) => r.pc.Sleep? || r.pc.Done?
       case _ => false
  }

  /** How a step of the client changes its counts. */
  lemma CountsShape(cfg: Config, w: World, move: Move)
    ensures var c, r := w.client, Next(cfg, w, move).client;
      r == c.(local := r.local, fetched := r.fetched) || Quiet(c, r) || Answers(c, r)
          || (Asking(c) && r == Resending(c))
  {
    hide AttemptStep, HydrateStep, RefreshStep, Replay, PartyVerdict, MemberVerdict, Now, Send;
    if move.Step? {
      if w.client.pc.SendParty? {
        SendCounts(w, PartyMeta(w.client.partyPatch, {}), PartyVerdict(cfg, Now(w), w.client), move.fate,
                   AfterParty(w.client));
      } else if w.client.pc.SendMember? && cfg.account in w.client.snapshot.members {
        SendCounts(w, MemberMeta(cfg.account, w.client.memberPatch, {}), MemberVerdict(cfg, Now(w), w.client),
                   move.fate, Refresh(false));
      }
      AttemptCounts(cfg, w.client, move.at);
      HydrateCounts(cfg, w, move.at, move.fate);
      if w.client.pc.Refresh? { RefreshCounts(cfg, w, w.client.pc.stale, move.fate); }
    }
  }

  lemma SendCounts(w: World, change: Change, verdict: Verdict, fate: Fate, next: PC)
    requires w.client.pc.SendParty? || w.client.pc.SendMember?
    requires next == Refresh(false) || (next == SendMember && w.client.pc.SendParty?)
    ensures var c, r := w.client, Send(w, change, verdict, fate, next).client; Answers(c, r) || r == Resending(c)
  {
  }

  lemma AttemptCounts(cfg: Config, c: Client, at: int)
    ensures c.pc.Attempt? ==> Quiet(c, AttemptStep(cfg, c, at))
  {
    hide Build;
    if c.local.Some? { BuildShape(cfg, Snap(c), at); }
  }

  lemma HydrateCounts(cfg: Config, w: World, at: int, fate: Fate)
    ensures var c, r := w.client, HydrateStep(cfg, w, at, fate);
      c.pc.Hydrate? ==> Quiet(c, r) || Answers(c, r) || r == Resending(c)
  {
    hide Build, Replay, Fetched, Now, Present, TrimSpace;
    BuildShape(cfg, Snap(WithParty(Asked(w.client), Now(w), |w.log|)), at);
  }

  lemma RefreshCounts(cfg: Config, w: World, stale: bool, fate: Fate)
    requires w.client.pc == Refresh(stale)
    ensures var c, r := w.client, RefreshStep(cfg, w, stale, fate); Answers(c, r) || r == Resending(c)
  {
    hide Replay, Fetched, Now;
  }

  lemma {:induction false} RunIsBudgeted(cfg: Config, w: World, moves: seq<Move>)
    requires Initial(cfg, w)
    ensures Budgeted(Run(cfg, w, moves).client)
    decreases |moves|
  {
    hide Next;
    if moves == [] {
    } else {
      RunIsBudgeted(cfg, w, moves[..|moves| - 1]);
      CountsShape(cfg, Run(cfg, w, moves[..|moves| - 1]), moves[|moves| - 1]);
    }
  }

  /** A whole call makes at most 4 * (maxRetries + 1) requests, the one under way included. */
  lemma RequestsBounded(cfg: Config, w: World, moves: seq<Move>)
    requires Initial(cfg, w)
    ensures var c := Run(cfg, w, moves).client; c.requests + Pending(c) <= 4 * (cfg.maxRetries + 1)
  {
    hide Run, Linked;
    RunIsBudgeted(cfg, w, moves);
    RunIsCounted(cfg, w, moves);
  }

  /** If no request is transmitted more than `limit` times, the transmissions are bounded by the requests. */
  lemma {:induction false} SendsCounted(cfg: Config, w: World, moves: seq<Move>, limit: nat)
    requires Initial(cfg, w)
    requires forall n | 0 <= n <= |moves| :: Run(cfg, w, moves[..n]).client.resends < limit
    ensures var c := Run(cfg, w, moves).client; c.sends <= c.requests * limit + c.resends
    decreases |moves|
  {
    hide Next;
    if moves == [] {
    } else {
      var init := moves[..|moves| - 1];
      assert forall n | 0 <= n <= |init| :: init[..n] == moves[..n];
      SendsCounted(cfg, w, init, limit);
      var w' := Run(cfg, w, init);
      assert w'.client.resends < limit by { assert moves[..|init|] == init; }
      CountsShape(cfg, w', moves[|moves| - 1]);
      assert (w'.client.requests + 1) * limit == w'.client.requests * limit + limit;
    }
  }

  lemma SendsBounded(cfg: Config, w: World, moves: seq<Move>, limit: nat)
    requires Initial(cfg, w)
    requires forall n | 0 <= n <= |moves| :: Run(cfg, w, moves[..n]).client.resends < limit
    ensures Run(cfg, w, moves).client.sends <= 4 * (cfg.maxRetries + 1) * limit
  {
    hide Run, Initial;
    SendsCounted(cfg, w, moves, limit);
    RequestsBounded(cfg, w, moves);
    assert moves[..|moves|] == moves;
    var c, most := Run(cfg, w, moves).client, 4 * (cfg.maxRetries + 1);
    Scale(c.requests + Pending(c), most, limit);
    assert (c.requests + 1) * limit == c.requests * limit + limit;
  }

  lemma Scale(n: nat, m: nat, limit: nat)
    requires n <= m
    ensures n * limit <= m * limit
  {
  }
}
