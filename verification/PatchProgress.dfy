/**
 That a patch call ends, when, with which outcome and why; and that it succeeds when nothing
 stands in its way more often than it may retry.
 */
module PatchProgress {
  import opened GoStrings
  import opened MetaCodec
  import opened PartyTypes
  import opened PatchPlan
  import opened PatchProtocol
  import opened PatchConflicts

  // ---- why a call ends ----

  predicate SentAgain(fate: Fate) {
    fate == Resent || fate == Retried
  }

  /** The party has the own member, and nothing the call wants is missing from it. */
  ghost predicate Content(cfg: Config, p: Party, at: int) {
    && cfg.account in p.members
    && AllSettled(p.meta, cfg.partyPlan) && AllSettled(p.members[cfg.account].meta, cfg.memberPlan(at))
  }

  /** The party that is asked for because the snapshot lacks the own member is the same, and has it. */
  predicate Hydrates(cfg: Config, w: World, fate: Fate) {
    && TrimSpace(w.client.snapshot.id) != "" && TrimSpace(w.origin.id) == TrimSpace(w.client.snapshot.id)
    && fate == Answered && Present(Now(w), cfg.account)
  }

  /** The service refuses the request that is about to be made, whatever revision it names. */
  predicate Refuses(cfg: Config, w: World) {
    w.client.snapshot.id != w.origin.id || (w.client.pc.SendMember? && !Present(Now(w), cfg.account))
  }

  /** Why the client's next step ends the call, and with this outcome. */
  ghost predicate Reason(cfg: Config, w: World, at: int, fate: Fate, canceled: bool, outcome: Outcome) {
    var c := w.client;
    match outcome
    case Nil =>
      || (c.pc == Refresh(false) && fate == Answered && c.snapshot.id == w.origin.id)
      || (c.pc.Attempt? && c.local.Some? && c.local.value.id != "" && Content(cfg, c.local.value, at))
      || (c.pc.Hydrate? && Hydrates(cfg, w, fate) && Content(cfg, Fetched(Now(w)), at))
    case NotConfigured => false
    case PartyNotFound =>
      || (c.pc.Attempt? && (c.local.None? || c.local.value.id == ""))
      || (c.pc.Hydrate? && !Hydrates(cfg, w, fate) && (SentAgain(fate) ==> TrimSpace(c.snapshot.id) == ""))
    case PatchConflict =>
      c.pc == Refresh(true) && fate == Answered && c.snapshot.id == w.origin.id && c.attempt == cfg.maxRetries
    case OtherError => Sending(c)
        && (fate == AnswerLost || fate == NotDelivered || (fate == Answered && Refuses(cfg, w)))
    case Canceled => c.pc.Sleep? && canceled
  }

  lemma BuildEnds(cfg: Config, c: Client, at: int, outcome: Outcome)
    requires Sound(cfg) && cfg.account in c.snapshot.members
    ensures Build(cfg, c, at).pc == Done(outcome) <==> outcome == Nil && Content(cfg, c.snapshot, at)
  {
    hide AllSettled, PartyPatch, MemberPatch, Sound;
    PartyPatchEffect(cfg, c.snapshot.meta, "");
    MemberPatchEffect(cfg, c.snapshot.members[cfg.account].meta, at, "");
  }

  lemma AttemptEnds(cfg: Config, w: World, at: int, fate: Fate, canceled: bool, outcome: Outcome)
    requires Sound(cfg) && w.client.pc.Attempt?
    ensures AttemptStep(cfg, w.client, at).pc == Done(outcome) <==> Reason(cfg, w, at, fate, canceled, outcome)
  {
    hide Build, Content, Sound;
    var c := w.client;
    if c.local.Some? && cfg.account in c.local.value.members {
      BuildEnds(cfg, Snap(c), at, outcome);
    } else if c.local.Some? {
      assert !Content(cfg, c.local.value, at) by { NotContent(cfg, c.local.value, at); }
    }
  }

  lemma NotContent(cfg: Config, p: Party, at: int)
    requires cfg.account !in p.members
    ensures !Content(cfg, p, at)
  {
  }

  lemma FetchedMembers(s: Server, account: string)
    ensures account in Fetched(s).members <==> Present(s, account)
  {
  }

  lemma HydrateEnds(cfg: Config, w: World, at: int, fate: Fate, canceled: bool, outcome: Outcome)
    requires Sound(cfg) && w.client.pc.Hydrate?
    ensures HydrateStep(cfg, w, at, fate).pc == Done(outcome) <==> Reason(cfg, w, at, fate, canceled, outcome)
  {
    hide Build, Content, Sound, Now, Fetched, Present, TrimSpace;
    if Hydrates(cfg, w, fate) {
      FetchedMembers(Now(w), cfg.account);
      BuildEnds(cfg, Snap(WithParty(Asked(w.client), Now(w), |w.log|)), at, outcome);
    }
  }

  lemma SendEnds(w: World, change: Change, verdict: Verdict, fate: Fate, next: PC, outcome: Outcome)
    requires !w.client.pc.Done? && !next.Done?
    ensures Send(w, change, verdict, fate, next).client.pc == Done(outcome)
      <==> && outcome == OtherError
           && (fate == AnswerLost || fate == NotDelivered || (fate == Answered && verdict == Refuse))
  {
  }

  lemma SendingEnds(cfg: Config, w: World, at: int, fate: Fate, canceled: bool, outcome: Outcome)
    requires Linked(cfg, w) && (w.client.pc.SendParty? || w.client.pc.SendMember?)
    ensures ClientStep(cfg, w, at, fate, canceled).client.pc == Done(outcome)
      <==> Reason(cfg, w, at, fate, canceled, outcome)
  {
    hide Send, Now, Present, Fetched, PartyPatch, MemberPatch, Replay;
    var c := w.client;
    IdStays(w.origin, w.log);
    assert Now(w).id == w.origin.id by { NowIs(w); }
    if c.pc.SendParty? {
      SendEnds(w, PartyMeta(c.partyPatch, {}), PartyVerdict(cfg, Now(w), c), fate, AfterParty(c), outcome);
    } else {
      SendEnds(w, MemberMeta(cfg.account, c.memberPatch, {}), MemberVerdict(cfg, Now(w), c), fate, Refresh(false),
               outcome);
    }
  }

  lemma NowIs(w: World)
    ensures Now(w) == Replay(w.origin, w.log)
  {
  }

  lemma RefreshEnds(cfg: Config, w: World, stale: bool, at: int, fate: Fate, canceled: bool, outcome: Outcome)
    requires w.client.pc == Refresh(stale)
    ensures RefreshStep(cfg, w, stale, fate).pc == Done(outcome) <==> Reason(cfg, w, at, fate, canceled, outcome)
  {
    hide Now, Fetched, Present;
  }

  lemma StepEnds(cfg: Config, w: World, at: int, fate: Fate, canceled: bool, outcome: Outcome)
    requires Sound(cfg) && Linked(cfg, w) && !w.client.pc.Done?
    ensures ClientStep(cfg, w, at, fate, canceled).client.pc == Done(outcome)
      <==> Reason(cfg, w, at, fate, canceled, outcome)
  {
    hide Sound, Linked, Reason, AttemptStep, HydrateStep, RefreshStep, Send, Now;
    match w.client.pc
    case Attempt => AttemptEnds(cfg, w, at, fate, canceled, outcome);
    case Hydrate => HydrateEnds(cfg, w, at, fate, canceled, outcome);
    case SendParty => SendingEnds(cfg, w, at, fate, canceled, outcome);
    case SendMember => SendingEnds(cfg, w, at, fate, canceled, outcome);
    case Refresh(stale) => RefreshEnds(cfg, w, stale, at, fate, canceled, outcome);
    case Sleep => SleepEnds(cfg, w, at, fate, canceled, outcome);
  }

  lemma SleepEnds(cfg: Config, w: World, at: int, fate: Fate, canceled: bool, outcome: Outcome)
    requires w.client.pc.Sleep?
    ensures ClientStep(cfg, w, at, fate, canceled).client.pc == Done(outcome)
      <==> Reason(cfg, w, at, fate, canceled, outcome)
  {
  }

  lemma RunMore(cfg: Config, w: World, moves: seq<Move>, move: Move)
    ensures Run(cfg, w, moves + [move]) == Next(cfg, Run(cfg, w, moves), move)
  {
    hide Next;
    assert (moves + [move])[..|moves|] == moves;
  }

  /** In every run: a step of the client ends the call with this outcome exactly for these reasons. */
  lemma EndsIff(cfg: Config, w: World, moves: seq<Move>, at: int, fate: Fate, canceled: bool, outcome: Outcome)
    requires Sound(cfg) && Initial(cfg, w) && !Run(cfg, w, moves).client.pc.Done?
    ensures Run(cfg, w, moves + [Move.Step(at, fate, canceled)]).client.pc == Done(outcome)
      <==> Reason(cfg, Run(cfg, w, moves), at, fate, canceled, outcome)
  {
    hide Run, Sound, Initial, Linked, AllFromSnapshots, NothingLost, Reason, ClientStep;
    RunMore(cfg, w, moves, Move.Step(at, fate, canceled));
    NoLostUpdate(cfg, w, moves);
    StepEnds(cfg, Run(cfg, w, moves), at, fate, canceled, outcome);
  }

  /** The i-th move is the step with which the call ends. */
  ghost predicate EndsAt(cfg: Config, w: World, moves: seq<Move>, i: nat, outcome: Outcome) {
    && i < |moves| && moves[i].Step? && !Run(cfg, w, moves[..i]).client.pc.Done?
    && Run(cfg, w, moves[..i + 1]).client.pc == Done(outcome)
    && Reason(cfg, Run(cfg, w, moves[..i]), moves[i].at, moves[i].fate, moves[i].canceled, outcome)
  }

  /** In every run: a call that has ended has had its reason. */
  lemma {:induction false} EndedForAReason(cfg: Config, w: World, moves: seq<Move>, outcome: Outcome)
    requires Sound(cfg) && Initial(cfg, w) && Run(cfg, w, moves).client.pc == Done(outcome)
    ensures exists i: nat :: EndsAt(cfg, w, moves, i, outcome)
    decreases |moves|
  {
    hide Next, Reason, Sound;
    if moves == [] {
      assert false;
    } else {
      var init, last := moves[..|moves| - 1], moves[|moves| - 1];
      var before := Run(cfg, w, init);
      assert moves == init + [last];
      StepFromDone(cfg, before, last);
      if before.client.pc.Done? {
        EndedForAReason(cfg, w, init, outcome);
        var i: nat :| EndsAt(cfg, w, init, i, outcome);
        assert init[..i] == moves[..i] && init[..i + 1] == moves[..i + 1];
        assert EndsAt(cfg, w, moves, i, outcome);
      } else {
        EndsIff(cfg, w, init, last.at, last.fate, last.canceled, outcome);
        assert moves[..|moves| - 1 + 1] == moves;
        assert EndsAt(cfg, w, moves, |moves| - 1, outcome);
      }
    }
  }

  /** Only a step of the client changes where it is, and nothing does once the call has ended. */
  lemma StepFromDone(cfg: Config, w: World, move: Move)
    ensures !move.Step? || w.client.pc.Done? ==> Next(cfg, w, move).client.pc == w.client.pc
  {
    hide AttemptStep, HydrateStep, RefreshStep, Send, Now;
  }

  /** An outcome is final. */
  lemma {:induction false} DoneForGood(cfg: Config, w: World, moves: seq<Move>, n: nat)
    requires n <= |moves| && Run(cfg, w, moves[..n]).client.pc.Done?
    ensures Run(cfg, w, moves).client.pc == Run(cfg, w, moves[..n]).client.pc
    decreases |moves|
  {
    hide Next;
    if n == |moves| {
      assert moves[..n] == moves;
    } else {
      var init := moves[..|moves| - 1];
      assert init[..n] == moves[..n];
      DoneForGood(cfg, w, init, n);
      StepFromDone(cfg, Run(cfg, w, init), moves[|moves| - 1]);
    }
  }

  // ---- that it ends ----

  /** The most steps that are left, not counting those that only send a request again. */
  function Left(cfg: Config, c: Client): nat {
    if c.attempt > cfg.maxRetries then 0
    else
      6 * (cfg.maxRetries - c.attempt)
      + match c.pc
        case Attempt => 6
        case Hydrate => 5
        case SendParty => 4
        case SendMember => 3
        case Refresh(_) => 2
        case Sleep => 1
        case Done(_) => 0
  }

  predicate Advances(move: Move) {
    move.Step? && !SentAgain(move.fate)
  }

  function Advancing(moves: seq<Move>): nat {
    if moves == [] then 0 else Advancing(moves[..|moves| - 1]) + if Advances(moves[|moves| - 1]) then 1 else 0
  }

  predicate Shrinks(cfg: Config, c: Client, r: Client, fate: Fate) {
    r.attempt <= cfg.maxRetries && (r.pc.Done? || Left(cfg, r) + (if SentAgain(fate) then 0 else 1) <= Left(cfg, c))
  }

  lemma ShrinksAttempt(cfg: Config, c: Client, at: int, fate: Fate)
    requires c.pc.Attempt? && c.attempt <= cfg.maxRetries
    ensures Shrinks(cfg, c, AttemptStep(cfg, c, at), fate)
  {
    hide Build;
    if c.local.Some? { BuildShape(cfg, Snap(c), at); }
  }

  lemma ShrinksHydrate(cfg: Config, w: World, at: int, fate: Fate)
    requires w.client.pc.Hydrate? && w.client.attempt <= cfg.maxRetries
    ensures Shrinks(cfg, w.client, HydrateStep(cfg, w, at, fate), fate)
  {
    hide Build, Now, Fetched, Present, TrimSpace;
    BuildShape(cfg, Snap(WithParty(Asked(w.client), Now(w), |w.log|)), at);
  }

  lemma ShrinksSend(cfg: Config, w: World, change: Change, verdict: Verdict, fate: Fate, next: PC)
    requires w.client.attempt <= cfg.maxRetries
    requires (w.client.pc.SendParty? && next.SendMember?)
      || ((w.client.pc.SendParty? || w.client.pc.SendMember?) && next.Refresh?)
    ensures Shrinks(cfg, w.client, Send(w, change, verdict, fate, next).client, fate)
  {
  }

  lemma ShrinksRefresh(cfg: Config, w: World, stale: bool, fate: Fate)
    requires w.client.pc == Refresh(stale) && w.client.attempt <= cfg.maxRetries
    ensures Shrinks(cfg, w.client, RefreshStep(cfg, w, stale, fate), fate)
  {
    hide Now, Fetched;
  }

  lemma ShrinksStep(cfg: Config, s0: nat, w: World, at: int, fate: Fate, canceled: bool)
    requires Linked(cfg, w) && Counted(cfg, s0, w)
    ensures Shrinks(cfg, w.client, ClientStep(cfg, w, at, fate, canceled).client, fate)
  {
    hide Shrinks, AttemptStep, HydrateStep, RefreshStep, Send, Now, PartyVerdict, MemberVerdict, PartyPatch,
         MemberPatch,
         Charges, Fetched, Replay;
    var c := w.client;
    match c.pc
    case Attempt => ShrinksAttempt(cfg, c, at, fate);
    case Hydrate => ShrinksHydrate(cfg, w, at, fate);
    case SendParty => ShrinksSend(cfg, w, PartyMeta(c.partyPatch, {}), PartyVerdict(cfg, Now(w), c), fate,
                                  AfterParty(c));
    case SendMember =>
      ShrinksSend(cfg, w, MemberMeta(cfg.account, c.memberPatch, {}), MemberVerdict(cfg, Now(w), c), fate,
                  Refresh(false));
    case Refresh(stale) => ShrinksRefresh(cfg, w, stale, fate);
    case Sleep => ShrinksSleep(cfg, w, at, fate, canceled);
    case Done(_) => ShrinksDone(cfg, w, at, fate, canceled);
  }

  lemma ShrinksSleep(cfg: Config, w: World, at: int, fate: Fate, canceled: bool)
    requires w.client.pc.Sleep? && w.client.attempt < cfg.maxRetries
    ensures Shrinks(cfg, w.client, ClientStep(cfg, w, at, fate, canceled).client, fate)
  {
  }

  lemma ShrinksDone(cfg: Config, w: World, at: int, fate: Fate, canceled: bool)
    requires w.client.pc.Done? && w.client.attempt <= cfg.maxRetries
    ensures Shrinks(cfg, w.client, ClientStep(cfg, w, at, fate, canceled).client, fate)
  {
  }

  lemma {:induction false} LeftShrinks(cfg: Config, w: World, moves: seq<Move>)
    requires Initial(cfg, w)
    ensures var c := Run(cfg, w, moves).client;
      c.pc.Done? || Left(cfg, c) + Advancing(moves) <= 6 * (cfg.maxRetries + 1)
    decreases |moves|
  {
    hide Next, Linked, Counted, Initial;
    if moves == [] {
      assert w.client.pc.Attempt? && w.client.attempt == 0 by { InitialPC(cfg, w); }
    } else {
      var init, last := moves[..|moves| - 1], moves[|moves| - 1];
      var before := Run(cfg, w, init);
      LeftShrinks(cfg, w, init);
      RunIsCounted(cfg, w, init);
      NextShrinks(cfg, w.client.seen, before, last);
    }
  }

  lemma InitialPC(cfg: Config, w: World)
    requires Initial(cfg, w)
    ensures w.client.pc.Attempt? && w.client.attempt == 0
  {
  }

  lemma NextShrinks(cfg: Config, s0: nat, w: World, move: Move)
    requires Linked(cfg, w) && Counted(cfg, s0, w)
    ensures var c, r := w.client, Next(cfg, w, move).client;
      && (c.pc.Done? ==> r.pc.Done?)
      && (r.pc.Done? || Left(cfg, r) + (if Advances(move) then 1 else 0) <= Left(cfg, c))
  {
    hide ClientStep, Linked, Counted;
    StepFromDone(cfg, w, move);
    if move.Step? { ShrinksStep(cfg, s0, w, move.at, move.fate, move.canceled); }
  }

  /** Every call ends, within six steps for each attempt it may make, besides those that send a request again. */
  lemma EveryCallEnds(cfg: Config, w: World, moves: seq<Move>)
    requires Initial(cfg, w) && Advancing(moves) >= 6 * (cfg.maxRetries + 1)
    ensures Run(cfg, w, moves).client.pc.Done?
  {
    hide Run, Initial, Advancing;
    LeftShrinks(cfg, w, moves);
    RunIsCounted(cfg, w, moves);
    if !Run(cfg, w, moves).client.pc.Done? { LeftPositive(cfg, w.client.seen, Run(cfg, w, moves)); }
  }

  lemma LeftPositive(cfg: Config, s0: nat, w: World)
    requires Counted(cfg, s0, w) && !w.client.pc.Done?
    ensures Left(cfg, w.client) > 0
  {
    hide Charges;
  }

  // ---- that it succeeds ----

  /**
   Nothing but the service's verdict can go wrong: a notification is about this party, and
   requests get through in the end.
   */
  predicate Harmless(w: World, move: Move) {
    match move
    case Other(_) => true
    case Notice(local) => local.id == w.origin.id
    case Step(_, fate, canceled) => !canceled && (fate == Answered || SentAgain(fate))
  }

  /** The account is in the party throughout. */
  ghost predicate Stays(cfg: Config, w: World, moves: seq<Move>) {
    forall i | 0 <= i <= |moves| :: Present(Now(Run(cfg, w, moves[..i])), cfg.account)
  }

  /** The local party is the service's, whatever its contents, and so is the snapshot that is worked with. */
  predicate SameParty(w: World) {
    && w.client.local.Some? && w.client.local.value.id == w.origin.id
    && (w.client.pc.Attempt? || w.client.pc.Sleep? || w.client.pc.Done? || w.client.snapshot.id == w.origin.id)
  }

  lemma SameBuild(cfg: Config, w: World, c: Client, at: int)
    requires SameParty(w.(client := c)) && c.snapshot.id == w.origin.id
    ensures SameParty(w.(client := Build(cfg, c, at)))
  {
    hide Build;
    BuildShape(cfg, c, at);
  }

  lemma SameHydrate(cfg: Config, w: World, at: int, fate: Fate)
    requires SameParty(w) && w.client.pc.Hydrate?
    ensures SameParty(w.(client := HydrateStep(cfg, w, at, fate)))
  {
    hide Build, Present, TrimSpace, Replay;
    IdStays(w.origin, w.log);
    SameBuild(cfg, w, Snap(WithParty(Asked(w.client), Now(w), |w.log|)), at);
  }

  lemma SameRefresh(cfg: Config, w: World, stale: bool, fate: Fate)
    requires SameParty(w) && w.client.pc == Refresh(stale)
    ensures SameParty(w.(client := RefreshStep(cfg, w, stale, fate)))
  {
    hide RefreshStep, Replay;
    IdStays(w.origin, w.log);
    RefreshShape(cfg, w, stale, fate);
  }

  lemma SameSend(w: World, change: Change, verdict: Verdict, fate: Fate, next: PC)
    requires SameParty(w) && (w.client.pc.SendParty? || w.client.pc.SendMember?)
    ensures SameParty(Send(w, change, verdict, fate, next))
  {
  }

  lemma SameStep(cfg: Config, w: World, move: Move)
    requires SameParty(w) && Harmless(w, move)
    ensures SameParty(Next(cfg, w, move))
  {
    hide Build, HydrateStep, RefreshStep, Send, Now, PartyVerdict, MemberVerdict, SameParty;
    if move.Step? {
      var c := w.client;
      match c.pc
      case Attempt => SameAttempt(cfg, w, move.at);
      case Hydrate => SameHydrate(cfg, w, move.at, move.fate);
      case SendParty => SameSend(w, PartyMeta(c.partyPatch, {}), PartyVerdict(cfg, Now(w), c), move.fate,
                                 AfterParty(c));
      case SendMember =>
        if cfg.account in c.snapshot.members {
          SameSend(w, MemberMeta(cfg.account, c.memberPatch, {}), MemberVerdict(cfg, Now(w), c), move.fate,
                   Refresh(false));
        }
      case Refresh(stale) => SameRefresh(cfg, w, stale, move.fate);
      case Sleep => SameQuiet(cfg, w, move);
      case Done(_) =>
    } else {
      SameQuiet(cfg, w, move);
    }
  }

  lemma SameAttempt(cfg: Config, w: World, at: int)
    requires SameParty(w) && w.client.pc.Attempt?
    ensures SameParty(w.(client := AttemptStep(cfg, w.client, at)))
  {
    hide Build;
    SameBuild(cfg, w, Snap(w.client), at);
  }

  lemma SameQuiet(cfg: Config, w: World, move: Move)
    requires SameParty(w) && Harmless(w, move) && (!move.Step? || w.client.pc.Sleep?)
    ensures SameParty(Next(cfg, w, move))
  {
  }

  lemma {:induction false} RunSameParty(cfg: Config, w: World, moves: seq<Move>)
    requires SameParty(w) && forall i | 0 <= i < |moves| :: Harmless(w, moves[i])
    ensures SameParty(Run(cfg, w, moves))
    decreases |moves|
  {
    hide Next, SameParty;
    if moves == [] {
    } else {
      var init := moves[..|moves| - 1];
      RunSameParty(cfg, w, init);
      LogGrows(cfg, w, init);
      assert Harmless(w, moves[|moves| - 1]);
      SameStep(cfg, Run(cfg, w, init), moves[|moves| - 1]);
    }
  }

  /** Then a call can only succeed or give up. */
  lemma NoOtherEnd(cfg: Config, w: World, moves: seq<Move>)
    requires Sound(cfg) && Initial(cfg, w) && SameParty(w) && TrimSpace(w.origin.id) != ""
    requires Stays(cfg, w, moves) && forall i | 0 <= i < |moves| :: Harmless(w, moves[i])
    ensures var pc := Run(cfg, w, moves).client.pc; pc.Done? ==> pc.outcome in {Outcome.Nil, PatchConflict}
  {
    hide Run, Initial, Sound, TrimSpace, Now, Present;
    if Run(cfg, w, moves).client.pc.Done? {
      var outcome := Run(cfg, w, moves).client.pc.outcome;
      EndedForAReason(cfg, w, moves, outcome);
      var i: nat :| EndsAt(cfg, w, moves, i, outcome);
      var before := Run(cfg, w, moves[..i]);
      RunSameParty(cfg, w, moves[..i]);
      LogGrows(cfg, w, moves[..i]);
      assert Harmless(w, moves[i]) && Present(Now(before), cfg.account);
      NoReason(cfg, before, moves[i], outcome);
    }
  }

  lemma NoReason(cfg: Config, w: World, move: Move, outcome: Outcome)
    requires SameParty(w) && TrimSpace(w.origin.id) != "" && Present(Now(w), cfg.account) && move.Step?
      && Harmless(w, move)
    requires Reason(cfg, w, move.at, move.fate, move.canceled, outcome)
    ensures outcome in {Outcome.Nil, PatchConflict}
  {
    hide Now, Present, Content, TrimSpace;
    assert TrimSpace("") == "" by { TrimNothing(); }
  }

  lemma TrimNothing()
    ensures TrimSpace("") == ""
  {
  }

  // ---- disturbances ----

  /** A change by another writer, a notification, or a request whose answer is lost. */
  predicate Disturbs(move: Move) {
    move.Other? || move.Notice? || move.fate == Resent || move.fate == AnswerLost
  }

  function Disturbances(moves: seq<Move>): nat {
    if moves == [] then 0 else Disturbances(moves[..|moves| - 1]) + if Disturbs(moves[|moves| - 1]) then 1 else 0
  }

  lemma {:induction false} ChargesFit(log: Log)
    ensures Charges(log) <= |log|
    decreases |log|
  {
    if log == [] {
    } else {
      ChargesFit(log[..|log| - 1]);
    }
  }

  lemma LogOfStep(cfg: Config, w: World, move: Move)
    ensures var log := Next(cfg, w, move).log;
      || log == w.log
      || (|log| == |w.log| + 1 && log[..|w.log|] == w.log
          && (log[|w.log|].author == Acknowledged || move.Other? || (move.Step? && Disturbs(move))))
  {
    hide AttemptStep, HydrateStep, RefreshStep, Now, PartyVerdict, MemberVerdict;
    var c := w.client;
    if move.Step? && c.pc.SendParty? {
      LogOfSend(w, PartyMeta(c.partyPatch, {}), PartyVerdict(cfg, Now(w), c), move.fate, AfterParty(c));
    } else if move.Step? && c.pc.SendMember? && cfg.account in c.snapshot.members {
      LogOfSend(w, MemberMeta(cfg.account, c.memberPatch, {}), MemberVerdict(cfg, Now(w), c), move.fate,
                Refresh(false));
    }
  }

  lemma LogOfSend(w: World, change: Change, verdict: Verdict, fate: Fate, next: PC)
    ensures var log := Send(w, change, verdict, fate, next).log;
      || log == w.log
      || (|log| == |w.log| + 1 && log[..|w.log|] == w.log
          && (log[|w.log|].author == Acknowledged || fate == Resent || fate == AnswerLost))
  {
  }

  lemma OneCharge(log: Log, e: Entry, s0: nat)
    requires s0 <= |log|
    ensures Charges((log + [e])[s0..]) == Charges(log[s0..]) + if e.author == Acknowledged then 0 else 1
  {
    assert (log + [e])[s0..] == log[s0..] + [e];
    assert (log[s0..] + [e])[..|log[s0..]|] == log[s0..];
  }

  /** What the client cannot know of is what disturbs it, and what it had not seen at the start. */
  lemma {:induction false} ChargesAreDisturbances(cfg: Config, w: World, moves: seq<Move>)
    requires w.client.seen <= |w.log|
    ensures var r := Run(cfg, w, moves);
      && w.client.seen <= |r.log|
      && Charges(r.log[w.client.seen..]) + Notices(moves) <= |w.log| - w.client.seen + Disturbances(moves)
    decreases |moves|
  {
    hide Next, Charges;
    if moves == [] {
      ChargesFit(w.log[w.client.seen..]);
    } else {
      var init, move := moves[..|moves| - 1], moves[|moves| - 1];
      ChargesAreDisturbances(cfg, w, init);
      var before := Run(cfg, w, init);
      LogOfStep(cfg, before, move);
      var log := Next(cfg, before, move).log;
      if log != before.log {
        assert log == before.log + [log[|before.log|]];
        OneCharge(before.log, log[|before.log|], w.client.seen);
      }
    }
  }

  /**
   A call of whose party the account stays a member, whose requests get through in the end and
   whose context stays alive, succeeds, whatever the intent and the starting party, if it is
   disturbed no more often than it may retry; a start that is not as fetched, or that has missed
   changes, counts as well.
   */
  lemma SucceedsUnlessDisturbed(cfg: Config, w: World, moves: seq<Move>)
    requires Sound(cfg) && Initial(cfg, w) && SameParty(w) && TrimSpace(w.origin.id) != ""
    requires Stays(cfg, w, moves) && forall i | 0 <= i < |moves| :: Harmless(w, moves[i])
    requires |w.log| - w.client.seen + Free(w) + Disturbances(moves) <= cfg.maxRetries
    requires Advancing(moves) >= 6 * (cfg.maxRetries + 1)
    ensures Run(cfg, w, moves).client.pc == Done(Outcome.Nil)
    ensures exists i: nat :: EndsAt(cfg, w, moves, i, Outcome.Nil)
  {
    hide Run, Sound, Stays, TrimSpace, SameParty, Advancing, Disturbances, Notices, Charges, Harmless, EndsAt;
    EveryCallEnds(cfg, w, moves);
    NoOtherEnd(cfg, w, moves);
    assert w.client.seen <= |w.log|;
    ChargesAreDisturbances(cfg, w, moves);
    if Run(cfg, w, moves).client.pc == Done(PatchConflict) { ConflictNeedsCharges(cfg, w, moves); }
    EndedForAReason(cfg, w, moves, Outcome.Nil);
  }

  /**
   A call that succeeds or gives up leaves the local party as the service has it at that moment,
   unless it found there was nothing to do.
   */
  lemma EndsUpToDate(cfg: Config, w: World, moves: seq<Move>, i: nat, outcome: Outcome)
    requires Sound(cfg) && Initial(cfg, w) && EndsAt(cfg, w, moves, i, outcome)
      && outcome in {Outcome.Nil, PatchConflict}
    ensures var before, r := Run(cfg, w, moves[..i]), Run(cfg, w, moves[..i + 1]);
      || r.client.local == Some(Fetched(Now(r)))
      || (before.client.pc.Attempt? && r.client.local == before.client.local
          && Content(cfg, r.client.local.value, moves[i].at))
  {
    hide Run, Sound, Initial, Content, AllFromSnapshots, NothingLost;
    assert moves[..i + 1] == moves[..i] + [moves[i]];
    RunMore(cfg, w, moves[..i], moves[i]);
    UpToDate(cfg, Run(cfg, w, moves[..i]), moves[i], outcome);
  }

  lemma UpToDate(cfg: Config, w: World, move: Move, outcome: Outcome)
    requires move.Step? && outcome in {Outcome.Nil, PatchConflict}
    requires Reason(cfg, w, move.at, move.fate, move.canceled, outcome)
    ensures var r := Next(cfg, w, move);
      || (r.client.local == Some(Fetched(Now(r))) && r.log == w.log)
      || (w.client.pc.Attempt? && r.client.local == w.client.local && Content(cfg, r.client.local.value, move.at))
  {
    hide Replay, Fetched, Present, TrimSpace, Content, Build, RefreshStep;
    match w.client.pc
    case Attempt => BuildShape(cfg, Snap(w.client), move.at); NotHere(cfg, w.client, move.at);
    case Hydrate => BuildShape(cfg, Snap(WithParty(Asked(w.client), Now(w), |w.log|)), move.at);
    case Refresh(stale) => RefreshShape(cfg, w, stale, move.fate); RefreshBrings(cfg, w, stale, move.fate);
    case _ =>
  }

  lemma NotHere(cfg: Config, c: Client, at: int)
    requires c.local.Some? && Content(cfg, c.local.value, at)
    ensures cfg.account in c.local.value.members
  {
  }

  lemma RefreshBrings(cfg: Config, w: World, stale: bool, fate: Fate)
    requires w.client.pc == Refresh(stale) && fate == Answered && w.client.snapshot.id == w.origin.id
    ensures RefreshStep(cfg, w, stale, fate).pc !in {Refresh(stale), Done(OtherError)}
  {
    hide Now, Fetched;
  }

  // ---- pauses ----

  /** The next attempt begins after a pause that is slept out, and at no other time. */
  lemma OnePausePerAttempt(cfg: Config, w: World, moves: seq<Move>, move: Move)
    ensures var before, after := Run(cfg, w, moves).client, Run(cfg, w, moves + [move]).client;
      && after.attempt == before.attempt + (if move.Step? && before.pc.Sleep? && !move.canceled then 1 else 0)
      && (after.attempt != before.attempt ==> after.pc.Attempt?)
      && (after.pc.Attempt? && !before.pc.Attempt? ==> after.attempt == before.attempt + 1)
  {
    hide Run, AttemptStep, HydrateStep, RefreshStep, Send, Now, PartyVerdict, MemberVerdict;
    RunMore(cfg, w, moves, move);
    if !Run(cfg, w, moves).client.pc.Sleep? { AttemptStays(cfg, Run(cfg, w, moves), move); }
  }

  predicate SameAttemptAs(c: Client, r: Client) {
    r.attempt == c.attempt && (r.pc.Attempt? ==> c.pc.Attempt?)
  }

  lemma AttemptStays(cfg: Config, w: World, move: Move)
    requires !w.client.pc.Sleep?
    ensures SameAttemptAs(w.client, Next(cfg, w, move).client)
  {
    hide AttemptStep, HydrateStep, RefreshStep, Send, Now, PartyVerdict, MemberVerdict;
    if move.Step? {
      var c := w.client;
      match c.pc
      case Attempt => AttemptStaysBuilding(cfg, w, move.at, move.fate);
      case Hydrate => AttemptStaysBuilding(cfg, w, move.at, move.fate);
      case SendParty =>
        AttemptStaysSending(w, PartyMeta(c.partyPatch, {}), PartyVerdict(cfg, Now(w), c), move.fate, AfterParty(c));
      case SendMember =>
        if cfg.account in c.snapshot.members {
          AttemptStaysSending(w, MemberMeta(cfg.account, c.memberPatch, {}), MemberVerdict(cfg, Now(w), c), move.fate,
                              Refresh(false));
        }
      case Refresh(stale) => RefreshShape(cfg, w, stale, move.fate);
      case Done(_) =>
    }
  }

  lemma AttemptStaysBuilding(cfg: Config, w: World, at: int, fate: Fate)
    ensures w.client.pc.Attempt? ==> SameAttemptAs(w.client, AttemptStep(cfg, w.client, at))
    ensures w.client.pc.Hydrate? ==> SameAttemptAs(w.client, HydrateStep(cfg, w, at, fate))
  {
    hide Build, Now, Fetched, Present, TrimSpace;
    if w.client.local.Some? { BuildShape(cfg, Snap(w.client), at); }
    BuildShape(cfg, Snap(WithParty(Asked(w.client), Now(w), |w.log|)), at);
  }

  lemma AttemptStaysSending(w: World, change: Change, verdict: Verdict, fate: Fate, next: PC)
    requires !next.Attempt?
    ensures SameAttemptAs(w.client, Send(w, change, verdict, fate, next).client)
  {
  }
}
