/**
 party/commands.go: applyIntentWithRetry as the code has it, a loop over attempts that talks
 to a service other writers use too. Whatever happens around a call, and in whatever order, its
 execution is the run of PatchProtocol in which just that happens, so what is proved of all runs
 holds of it.
 */
module Commands {
  import opened GoStrings
  import opened Json
  import opened MetaCodec
  import opened NestedMaps
  import opened JsonValues
  import opened PartyTypes
  import opened PatchPlan
  import opened PatchBuilder
  import opened PatchProtocol
  import opened PatchConflicts
  import opened PatchSuccess
  import opened PatchTraffic
  import opened PatchProgress

  /** How a request ends for the caller. */
  datatype Reply = Accepted | StaleRevision | Refused | Failed

  /** How far a call has got: nothing more happens, it is over, or it goes on. */
  datatype Progress = Pending | Over(outcome: Outcome) | Going

  // ---- what the client's steps do to it ----

  /** The attempt, its snapshot and its patches are as they were. */
  ghost predicate Keeps(b: Client, c: Client) {
    && c.attempt == b.attempt && c.snapshot == b.snapshot
    && c.partyPatch == b.partyPatch && c.memberPatch == b.memberPatch
  }

  predicate Processed(fate: Fate) {
    fate.Answered? || fate.Resent? || fate.AnswerLost?
  }

  function ReplyFor(verdict: Verdict, fate: Fate): Reply {
    if fate != Answered then Failed
    else match verdict
      case Accept => Accepted
      case Stale => StaleRevision
      case Refuse => Refused
  }

  /** Where the protocol's client stands after a request that ended with this reply. */
  function AfterReply(reply: Reply, next: PC): PC {
    match reply
    case Accepted => next
    case StaleRevision => Refresh(true)
    case _ => Done(OtherError)
  }

  /** What one transmission of a patch does to the service and to the client. */
  ghost predicate Transmitted(w: World, r: World, change: Change, verdict: Verdict, fate: Fate, next: PC) {
    && r.origin == w.origin && r.client.local == w.client.local && Keeps(w.client, r.client)
    && Now(r) == (if verdict.Accept? && Processed(fate) then PatchProtocol.Apply(Now(w), change) else Now(w))
    && r.client.pc == if SentAgain(fate) then w.client.pc else AfterReply(ReplyFor(verdict, fate), next)
  }

  lemma SendTransmits(w: World, change: Change, verdict: Verdict, fate: Fate, next: PC)
    ensures Transmitted(w, Send(w, change, verdict, fate, next), change, verdict, fate, next)
  {
    hide Replay, PatchProtocol.Apply;
    AppendReplay(w.origin, w.log, OwnEntry(w.client, change, Acknowledged));
    AppendReplay(w.origin, w.log, OwnEntry(w.client, change, Unseen));
  }

  /** Where a refresh leads that was answered, or was not. */
  function AfterGet(cfg: Config, c: Client, got: bool): PC
    requires c.pc.Refresh?
  {
    if !got then Done(OtherError)
    else if !c.pc.stale then Done(Outcome.Nil)
    else if c.attempt == cfg.maxRetries then Done(PatchConflict)
    else PC.Sleep
  }

  /** A refresh brings the service's party if it is answered, is sent again, or ends the call. */
  lemma RefreshGets(cfg: Config, w: World, fate: Fate)
    requires w.client.pc.Refresh?
    ensures var r, got := RefreshStep(cfg, w, w.client.pc.stale, fate),
      fate == Answered && w.client.snapshot.id == w.origin.id;
      && Keeps(w.client, r) && r.local == (if got then Some(Fetched(Now(w))) else w.client.local)
      && r.pc == if SentAgain(fate) then w.client.pc else AfterGet(cfg, w.client, got)
  {
    hide Fetched, Now;
  }

  lemma FetchedHas(s: Server, account: string)
    ensures Present(s, account) <==> account in Fetched(s).members
  {
  }

  /** The client with this party as its local state and as its snapshot, about to build. */
  ghost predicate Fetches(d: Client, c: Client, party: Party) {
    d.attempt == c.attempt && d.local == Some(party) && d.snapshot == party
  }

  /**
   The account's current party is used if it is the snapshot's and lists the account; without an
   id there is nothing to ask for.
   */
  lemma HydrateGets(cfg: Config, w: World, at: int, fate: Fate) returns (d: Client)
    requires w.client.pc.Hydrate?
    ensures var r := HydrateStep(cfg, w, at, fate);
      if TrimSpace(w.client.snapshot.id) != "" && SentAgain(fate) then
        r.pc == w.client.pc && Keeps(w.client, r) && r.local == w.client.local
      else if Hydrates(cfg, w, fate) then r == Build(cfg, d, at) && Fetches(d, w.client, Fetched(Now(w)))
      else r.pc == Done(PartyNotFound) && r.local == w.client.local
  {
    hide Build, Fetched, Now, Present, TrimSpace;
    d := Snap(WithParty(Asked(w.client), Now(w), |w.log|));
  }

  lemma AppendReplay(origin: Server, log: Log, e: Entry)
    ensures Replay(origin, log + [e]) == PatchProtocol.Apply(Replay(origin, log), e.change)
  {
    assert (log + [e])[..|log|] == log;
  }

  lemma IdIsFixed(origin: Server, log: Log)
    ensures Replay(origin, log).id == origin.id
  {
    Monotone(origin, log, "");
  }

  /**
   What is outside a call: the party service, which others use too, and the local state, which
   notifications change. The ghost fields are the call's run of the protocol so far.
   */
  class Outside {
    var now: Server
    var state: Option<Party>
    ghost var cfg: Config
    ghost var start: World
    ghost var moves: seq<Move>
    ghost var world: World

    ghost predicate Valid()
      reads this
    {
      Synced() && world == Run(cfg, start, moves)
    }

    ghost predicate Synced()
      reads this
    {
      now == Now(world) && state == world.client.local
    }

    /** The run has gone on to the n-th of the things that happen. */
    ghost predicate Took(env: seq<Move>, n0: nat, n: nat, before: seq<Move>)
      reads this
    {
      n0 <= n <= |env| && moves == before + env[n0..n]
    }

    lemma TookMore(env: seq<Move>, n0: nat, n1: nat, n: nat, before: seq<Move>, then_: seq<Move>)
      requires n0 <= n1 <= n <= |env| && then_ == before + env[n0..n1] && moves == then_ + env[n1..n]
      ensures Took(env, n0, n, before)
    {
      assert env[n0..n] == env[n0..n1] + env[n1..n];
    }

    lemma TookOne(env: seq<Move>, n0: nat, n: nat, before: seq<Move>)
      requires n0 <= n < |env| && moves == before + env[n0..n] + [env[n]]
      ensures Took(env, n0, n + 1, before)
    {
      assert env[n0..n + 1] == env[n0..n] + [env[n]];
    }

    /** The fields have changed as this move says. */
    ghost method Moved(move: Move)
      requires world == Run(cfg, start, moves)
      requires var w := Next(cfg, world, move); now == Now(w) && state == w.client.local
      modifies this`moves, this`world
      ensures Valid() && moves == old(moves) + [move] && world == Next(cfg, old(world), move)
    {
      hide Next, Now, Run;
      RunMore(cfg, start, moves, move);
      moves, world := moves + [move], Next(cfg, world, move);
    }

    /** Another writer changes the party, or a notification the local state. */
    method Play(move: Move)
      requires Valid() && !move.Step?
      modifies this`now, this`state, this`moves, this`world
      ensures Valid() && moves == old(moves) + [move] && world.origin == old(world.origin)
      ensures Keeps(old(world.client), world.client) && world.client.pc == old(world.client.pc)
    {
      hide Run, Replay, PatchProtocol.Apply;
      match move {
        case Other(change) =>
          AppendReplay(world.origin, world.log, Others(change));
          now := PatchProtocol.Apply(now, change);
        case Notice(local) =>
          state := Some(local);
      }
      Moved(move);
    }

    /** Everything that happens before the client's next step, if there is one. */
    method Await(env: seq<Move>, n0: nat) returns (n: nat, step: Option<Move>)
      requires Valid() && n0 <= |env|
      modifies this`now, this`state, this`moves, this`world
      ensures Valid() && Took(env, n0, n, old(moves)) && world.origin == old(world.origin)
      ensures if step.None? then n == |env| else n < |env| && env[n] == step.value && step.value.Step?
      ensures Keeps(old(world.client), world.client) && world.client.pc == old(world.client.pc)
    {
      hide Valid;
      n := n0;
      while n < |env|
        invariant Valid() && Took(env, n0, n, old(moves)) && world.origin == old(world.origin)
        invariant Keeps(old(world.client), world.client) && world.client.pc == old(world.client.pc)
      {
        if env[n].Step? { return n, Some(env[n]); }
        Play(env[n]);
        TookOne(env, n0, n, old(moves));
        n := n + 1;
      }
      step := None;
    }

    /** One transmission of a party patch: the service processes it, or does not, and may answer. */
    method TransmitParty(id: string, revision: int, update: Meta, step: Move) returns (reply: Reply)
      requires Valid() && step.Step?
      requires world.client.pc.SendParty? && world.client.partyPatch == update
      requires world.client.snapshot.id == id && world.client.snapshot.revision == revision
      modifies this`now, this`moves, this`world
      ensures Valid() && moves == old(moves) + [step] && Keeps(old(world.client), world.client)
      ensures world.client.pc
        == if SentAgain(step.fate) then PC.SendParty else AfterReply(reply, AfterParty(old(world.client)))
    {
      hide Run, Replay, Send, PatchProtocol.Apply, AttemptStep, HydrateStep, RefreshStep, SentAgain, Processed,
           ReplyFor,
           AfterReply;
      var verdict := if id != now.id then Refuse else if revision == now.revision then Accept else Stale;
      IdIsFixed(world.origin, world.log);
      SendTransmits(world, PartyMeta(update, {}), verdict, step.fate, AfterParty(world.client));
      if verdict.Accept? && Processed(step.fate) {
        now := PatchProtocol.Apply(now, PartyMeta(update, {}));
      }
      reply := ReplyFor(verdict, step.fate);
      Moved(step);
    }

    /** PATCH of the party's metadata, transmitted until the transport has an answer or gives up. */
    method PatchParty(env: seq<Move>, n0: nat, id: string, revision: int, update: Meta)
      returns (n: nat, reply: Option<Reply>)
      requires Valid() && n0 <= |env|
      requires world.client.pc.SendParty? && world.client.partyPatch == update
      requires world.client.snapshot.id == id && world.client.snapshot.revision == revision
      modifies this`now, this`state, this`moves, this`world
      ensures Valid() && Took(env, n0, n, old(moves)) && Keeps(old(world.client), world.client)
      ensures if reply.None? then n == |env| && world.client.pc.SendParty?
              else n > n0 && world.client.pc == AfterReply(reply.value, AfterParty(old(world.client)))
    {
      hide Valid, AfterReply;
      n, reply := n0, None;
      while n < |env|
        invariant Valid() && Took(env, n0, n, old(moves)) && Keeps(old(world.client), world.client)
        invariant world.client.pc.SendParty?
      {
        ghost var m, n1 := moves, n;
        var step;
        n, step := Await(env, n);
        TookMore(env, n0, n1, n, old(moves), m);
        if step.None? { return; }
        var answer := TransmitParty(id, revision, update, step.value);
        TookOne(env, n0, n, old(moves));
        n := n + 1;
        if !SentAgain(step.value.fate) { return n, Some(answer); }
      }
    }

    /** One transmission of a member patch: the service processes it, or does not, and may answer. */
    method TransmitMember(id: string, account: string, revision: int, update: Meta, step: Move) returns (reply: Reply)
      requires Valid() && step.Step? && cfg.account == account
      requires world.client.pc.SendMember? && world.client.memberPatch == update
      requires world.client.snapshot.id == id && account in world.client.snapshot.members
      requires world.client.snapshot.members[account].revision == revision
      modifies this`now, this`moves, this`world
      ensures Valid() && moves == old(moves) + [step] && Keeps(old(world.client), world.client)
      ensures world.client.pc == if SentAgain(step.fate) then SendMember else AfterReply(reply, Refresh(false))
    {
      hide Run, Replay, Send, PatchProtocol.Apply, AttemptStep, HydrateStep, RefreshStep, SentAgain, Processed,
           ReplyFor,
           AfterReply;
      var verdict := if id != now.id || !Present(now, account) then Refuse
                     else if revision == now.members[account].revision then Accept else Stale;
      IdIsFixed(world.origin, world.log);
      SendTransmits(world, MemberMeta(account, update, {}), verdict, step.fate, Refresh(false));
      if verdict.Accept? && Processed(step.fate) {
        now := PatchProtocol.Apply(now, MemberMeta(account, update, {}));
      }
      reply := ReplyFor(verdict, step.fate);
      Moved(step);
    }

    /** PATCH of the own member's metadata, transmitted until the transport has an answer or gives up. */
    method PatchMember(env: seq<Move>, n0: nat, id: string, account: string, revision: int, update: Meta)
      returns (n: nat, reply: Option<Reply>)
      requires Valid() && n0 <= |env| && cfg.account == account
      requires world.client.pc.SendMember? && world.client.memberPatch == update
      requires world.client.snapshot.id == id && account in world.client.snapshot.members
      requires world.client.snapshot.members[account].revision == revision
      modifies this`now, this`state, this`moves, this`world
      ensures Valid() && Took(env, n0, n, old(moves)) && Keeps(old(world.client), world.client)
      ensures if reply.None? then n == |env| && world.client.pc.SendMember?
              else n > n0 && world.client.pc == AfterReply(reply.value, Refresh(false))
    {
      hide Valid, AfterReply;
      n, reply := n0, None;
      while n < |env|
        invariant Valid() && Took(env, n0, n, old(moves)) && Keeps(old(world.client), world.client)
        invariant world.client.pc.SendMember?
      {
        ghost var m, n1 := moves, n;
        var step;
        n, step := Await(env, n);
        TookMore(env, n0, n1, n, old(moves), m);
        if step.None? { return; }
        var answer := TransmitMember(id, account, revision, update, step.value);
        TookOne(env, n0, n, old(moves));
        n := n + 1;
        if !SentAgain(step.value.fate) { return n, Some(answer); }
      }
    }

    /** One transmission of a GET of the party; an answer replaces the local state. */
    method TransmitGet(id: string, step: Move) returns (got: bool)
      requires Valid() && step.Step? && world.client.pc.Refresh? && world.client.snapshot.id == id
      modifies this`state, this`moves, this`world
      ensures Valid() && moves == old(moves) + [step] && Keeps(old(world.client), world.client)
      ensures world.client.pc
        == if SentAgain(step.fate) then old(world.client.pc) else AfterGet(cfg, old(world.client), got)
    {
      hide Run, Replay, RefreshStep, Fetched, SentAgain;
      IdIsFixed(world.origin, world.log);
      RefreshGets(cfg, world, step.fate);
      got := step.fate == Answered && id == now.id;
      if got { state := Some(Fetched(now)); }
      Moved(step);
    }

    /** refreshPartyState: a GET of the party, transmitted until the transport has an answer or gives up. */
    method RefreshPartyState(env: seq<Move>, n0: nat, id: string) returns (n: nat, got: Option<bool>)
      requires Valid() && n0 <= |env| && world.client.pc.Refresh? && world.client.snapshot.id == id
      modifies this`now, this`state, this`moves, this`world
      ensures Valid() && Took(env, n0, n, old(moves)) && Keeps(old(world.client), world.client)
      ensures got.None? ==> n == |env| && world.client.pc.Refresh?
      ensures got.Some? ==> n > n0
      ensures got.Some? ==> world.client.pc == AfterGet(cfg, old(world.client), got.value)
    {
      hide Valid;
      n, got := n0, None;
      while n < |env|
        invariant Valid() && Took(env, n0, n, old(moves)) && Keeps(old(world.client), world.client)
        invariant world.client.pc == old(world.client.pc)
      {
        ghost var m, n1 := moves, n;
        var step;
        n, step := Await(env, n);
        TookMore(env, n0, n1, n, old(moves), m);
        if step.None? { return; }
        var answer := TransmitGet(id, step.value);
        TookOne(env, n0, n, old(moves));
        n := n + 1;
        if !SentAgain(step.value.fate) { return n, Some(answer); }
      }
    }

    /**
     One transmission of a GET of the account's current party; it is used if it is the snapshot's
     and lists the account.
     */
    method TransmitCurrent(snapshot: Party, account: string, step: Move) returns (found: bool, ghost d: Client)
      requires Valid() && step.Step? && world.client.pc.Hydrate? && world.client.snapshot == snapshot
        && cfg.account == account
      modifies this`state, this`moves, this`world
      ensures Valid() && moves == old(moves) + [step]
      ensures if TrimSpace(snapshot.id) != "" && SentAgain(step.fate) then
                world.client.pc.Hydrate? && Keeps(old(world.client), world.client)
              else if found then
                && state.Some? && account in state.value.members
                && world.client == Build(cfg, d, step.at) && Fetches(d, old(world.client), state.value)
              else world.client.pc == Done(PartyNotFound)
    {
      hide Run, Replay, HydrateStep, Fetched, Present, Build, TrimSpace;
      IdIsFixed(world.origin, world.log);
      FetchedHas(now, account);
      d := HydrateGets(cfg, world, step.at, step.fate);
      found := TrimSpace(snapshot.id) != "" && step.fate == Answered && Present(now, account)
        && TrimSpace(now.id) == TrimSpace(snapshot.id);
      assert found <==> Hydrates(cfg, world, step.fate);
      if found {
        state := Some(Fetched(now));
        BuiltLocal(cfg, d, step.at);
      }
      assert Next(cfg, world, step) == world.(client := HydrateStep(cfg, world, step.at, step.fate));
      Moved(step);
    }

    /** hydratePartyStateForSelfMember. */
    method HydratePartyState(env: seq<Move>, n0: nat, snapshot: Party, account: string)
      returns (n: nat, found: Option<bool>, at: int, ghost d: Client)
      requires Valid() && n0 <= |env|
      requires world.client.pc.Hydrate? && world.client.snapshot == snapshot && cfg.account == account
      modifies this`now, this`state, this`moves, this`world
      ensures Valid() && Took(env, n0, n, old(moves))
      ensures found.None? ==> n == |env| && world.client.pc.Hydrate?
      ensures found == Some(false) ==> n > n0 && world.client.pc == Done(PartyNotFound)
      ensures found == Some(true) ==>
        && n > n0 && state.Some? && account in state.value.members
        && world.client == Build(cfg, d, at) && Fetches(d, old(world.client), state.value)
    {
      hide Valid, Build, TrimSpace;
      n, found, at, d := n0, None, 0, world.client;
      while n < |env|
        invariant Valid() && Took(env, n0, n, old(moves)) && Keeps(old(world.client), world.client)
        invariant world.client.pc.Hydrate?
      {
        ghost var m, n1 := moves, n;
        var step;
        n, step := Await(env, n);
        TookMore(env, n0, n1, n, old(moves), m);
        if step.None? { return; }
        var answer;
        answer, d := TransmitCurrent(snapshot, account, step.value);
        TookOne(env, n0, n, old(moves));
        n, at := n + 1, step.value.at;
        if TrimSpace(snapshot.id) == "" || !SentAgain(step.value.fate) { return n, Some(answer), at, d; }
      }
    }
  }

  lemma BuiltLocal(cfg: Config, d: Client, at: int)
    ensures var b := Build(cfg, d, at); b.local == d.local && b.attempt == d.attempt && b.snapshot == d.snapshot
  {
    hide Build;
    BuildShape(cfg, d, at);
  }

  /** buildMetaPatch: every update as the string that is sent. */
  method BuildPatch(updates: map<string, Value>, ghost us: map<string, Shape>, ghost trees: Fields)
    returns (patch: Meta)
    requires Stands(updates, us, trees)
    ensures patch == BuildMetaPatch(trees)
  {
    hide Rep, Nodes, TreeOf, ValueOf, Below, SerializeMetaValue;
    BelowAllocated(us);
    patch := map[];
    var todo := updates.Keys;
    while todo != {}
      invariant todo <= updates.Keys && patch.Keys == updates.Keys - todo
      invariant Stands(updates, us, trees)
      invariant forall key | key in patch :: patch[key] == SerializeMetaValue(key, trees[key])
    {
      var key :| key in todo;
      var tree := ReadTree(updates[key], us[key]);
      assert KidTrees(us)[key] == tree;
      patch := patch[key := SerializeMetaValue(key, tree)];
      todo := todo - {key};
    }
  }

  method BuildPatches(builder: Builder, snapshot: Party, intent: Intent, at: int, ghost cfg: Config)
    returns (partyPatch: Meta, memberPatch: Meta)
    requires builder.Valid()
    requires cfg == ConfigFor(builder.accountID, cfg.maxRetries, builder.partyText, builder.memberText, intent)
    ensures builder.Valid()
    ensures partyPatch == PatchProtocol.PartyPatch(cfg, snapshot.meta)
    ensures memberPatch == PatchProtocol.MemberPatch(cfg, MemberOf(snapshot, builder.accountID).meta, at)
  {
    hide Rep, Nodes, TreeOf, ValueOf, Below, Stands, Updates, PartyPlan, MemberPlan, BuildMetaPatch, Carries;
    var built, ps, ms := builder.BuildIntents(Some(snapshot), intent, at);
    BelowAllocated(ps);
    BelowAllocated(ms);
    ShapesAllocated(builder.party, builder.member);
    ShapesAllocated(builder.embeddedP, builder.embeddedM);
    partyPatch := BuildPatch(built.value.party, ps, Updates(builder.partyText, snapshot.meta, PartyPlan(intent)));
    memberPatch := BuildPatch(built.value.member, ms,
                              Updates(builder.memberText, MemberOf(snapshot, builder.accountID).meta,
                                      MemberPlan(intent, at)));
  }

  class PartyCommands {
    const outside: Outside
    const account: string
    const maxRetries: nat

    constructor (outside: Outside, account: string, maxRetries: nat)
      ensures this.outside == outside && this.account == account && this.maxRetries == maxRetries
    {
      this.outside, this.account, this.maxRetries := outside, account, maxRetries;
    }

    ghost function Cfg(builder: Builder, intent: Intent): Config {
      ConfigFor(account, maxRetries, builder.partyText, builder.memberText, intent)
    }

    /** The protocol's client is at the head of this attempt. */
    ghost predicate Ready(attempt: nat)
      reads outside
    {
      outside.Valid() && outside.world.client.pc.Attempt? && outside.world.client.attempt == attempt
    }

    /** The call has ended with this outcome. */
    ghost predicate Ended(outcome: Outcome)
      reads outside
    {
      outside.Valid() && outside.world.client.pc == Done(outcome) && outcome != NotConfigured
    }

    /** The two patches have been built from this snapshot, and one of them is to be sent next. */
    ghost predicate Built(attempt: nat, snapshot: Party, partyPatch: Meta, memberPatch: Meta)
      reads outside
    {
      var c := outside.world.client;
      && outside.Valid() && c.attempt == attempt && c.snapshot == snapshot
      && c.partyPatch == partyPatch && c.memberPatch == memberPatch
      && account in snapshot.members && (partyPatch != map[] || memberPatch != map[])
      && c.pc == if partyPatch != map[] then SendParty else SendMember
    }

    /** From the head of the loop to the snapshot that an attempt works with. */
    method TakeSnapshot(env: seq<Move>, n0: nat, ghost attempt: nat)
      returns (n: nat, progress: Progress, snapshot: Party, at: int, ghost d: Client)
      requires Ready(attempt) && n0 <= |env| && outside.cfg.account == account
      modifies outside`now, outside`state, outside`moves, outside`world
      ensures outside.Valid() && outside.Took(env, n0, n, old(outside.moves))
      ensures match progress
              case Pending => n == |env| && !outside.world.client.pc.Done?
              case Over(outcome) => n > n0 && outcome == PartyNotFound && Ended(outcome)
              case Going =>
                && n > n0 && account in snapshot.members && d.snapshot == snapshot && d.attempt == attempt
                && outside.world.client == Build(outside.cfg, d, at)
    {
      hide Run, Build, Replay;
      snapshot, at, d := ZERO_PARTY, 0, outside.world.client;
      var step;
      n, step := outside.Await(env, n0);
      if step.None? { return n, Pending, snapshot, at, d; }
      at := step.value.at;
      d := outside.world.client;
      if d.local.Some? { BuiltLocal(outside.cfg, Snap(d), at); }
      outside.Moved(step.value);
      outside.TookOne(env, n0, n, old(outside.moves));
      n := n + 1;
      if outside.state.None? || outside.state.value.id == "" {
        return n, Over(PartyNotFound), snapshot, at, d;
      }
      snapshot := outside.state.value;
      if account in snapshot.members { return n, Going, snapshot, at, Snap(d); }
      ghost var m, n1 := outside.moves, n;
      var found;
      n, found, at, d := outside.HydratePartyState(env, n, snapshot, account);
      outside.TookMore(env, n0, n1, n, old(outside.moves), m);
      if found.None? { return n, Pending, snapshot, at, d; }
      if !found.value { return n, Over(PartyNotFound), snapshot, at, d; }
      snapshot := outside.state.value;
      progress := Going;
    }

    lemma BuildIs(cfg: Config, d: Client, at: int)
      requires cfg.account == account && account in d.snapshot.members
      ensures var b := Build(cfg, d, at);
        var p, m := PatchProtocol.PartyPatch(cfg, d.snapshot.meta),
            PatchProtocol.MemberPatch(cfg, d.snapshot.members[account].meta, at);
        && b.partyPatch == p && b.memberPatch == m && b.attempt == d.attempt && b.snapshot == d.snapshot
        && b.pc == if p != map[] then SendParty else if m != map[] then SendMember else Done(Outcome.Nil)
    {
      hide PatchProtocol.PartyPatch, PatchProtocol.MemberPatch;
    }

    /** From the head of the loop to a built pair of patches, unless the call ends here. */
    method Prepare(builder: Builder, intent: Intent, env: seq<Move>, n0: nat, ghost attempt: nat)
      returns (n: nat, progress: Progress, snapshot: Party, partyPatch: Meta, memberPatch: Meta)
      requires builder.Valid() && builder.accountID == account && outside.cfg == Cfg(builder, intent)
      requires Ready(attempt) && n0 <= |env|
      modifies outside`now, outside`state, outside`moves, outside`world
      ensures builder.Valid()
      ensures outside.Valid() && outside.Took(env, n0, n, old(outside.moves))
      ensures match progress
              case Pending => n == |env| && !outside.world.client.pc.Done?
              case Over(outcome) => n > n0 && outcome in {Outcome.Nil, PartyNotFound} && Ended(outcome)
              case Going => n > n0 && Built(attempt, snapshot, partyPatch, memberPatch)
    {
      hide Run, Build, Carries, PartyPlan, MemberPlan, Nodes, PatchProtocol.PartyPatch, PatchProtocol.MemberPatch,
           Replay,
           Builder.Valid, ConfigFor;
      ShapesAllocated(builder.party, builder.member);
      ShapesAllocated(builder.embeddedP, builder.embeddedM);
      CfgAccount(builder, intent);
      partyPatch, memberPatch := map[], map[];
      var at;
      ghost var d;
      n, progress, snapshot, at, d := TakeSnapshot(env, n0, attempt);
      if !progress.Going? { return; }
      partyPatch, memberPatch := BuildPatches(builder, snapshot, intent, at, outside.cfg);
      BuildIs(outside.cfg, d, at);
      if |partyPatch| == 0 && |memberPatch| == 0 {
        progress := Over(Outcome.Nil);
      }
    }

    /** The party patch, then, unless it was stale, the member patch. */
    method SendPatches(env: seq<Move>, n0: nat, ghost attempt: nat, snapshot: Party, partyPatch: Meta,
                       memberPatch: Meta)
      returns (n: nat, reply: Option<Reply>)
      requires n0 <= |env| && outside.cfg.account == account && Built(attempt, snapshot, partyPatch, memberPatch)
      modifies outside`now, outside`state, outside`moves, outside`world
      ensures outside.Valid() && outside.Took(env, n0, n, old(outside.moves))
      ensures Keeps(old(outside.world.client), outside.world.client)
      ensures if reply.None? then n == |env| && !outside.world.client.pc.Done?
              else n > n0 && outside.world.client.pc == AfterReply(reply.value, Refresh(false))
    {
      hide Outside.Valid;
      n, reply := n0, None;
      ghost var m, n1 := outside.moves, n;
      assert env[n..n] == [];
      if |partyPatch| > 0 {
        n, reply := outside.PatchParty(env, n, snapshot.id, snapshot.revision, partyPatch);
        if reply != Some(Accepted) { return; }
        m, n1 := outside.moves, n;
      }
      if |memberPatch| > 0 {
        n, reply := outside.PatchMember(env, n, snapshot.id, account, snapshot.members[account].revision, memberPatch);
        outside.TookMore(env, n0, n1, n, old(outside.moves), m);
      }
    }

    /** What follows the patches: the party is fetched, and a stale attempt sleeps unless it was the last. */
    method Conclude(env: seq<Move>, n0: nat, id: string, stale: bool, attempt: nat) returns (n: nat, progress: Progress)
      requires outside.Valid() && n0 <= |env| && outside.cfg.maxRetries == maxRetries && attempt <= maxRetries
      requires var c := outside.world.client; c.pc == Refresh(stale) && c.snapshot.id == id && c.attempt == attempt
      modifies outside`now, outside`state, outside`moves, outside`world
      ensures outside.Valid() && outside.Took(env, n0, n, old(outside.moves))
      ensures match progress
              case Pending => n == |env| && !outside.world.client.pc.Done?
              case Over(outcome) => n > n0 && Ended(outcome)
              case Going => n > n0 && attempt < maxRetries && Ready(attempt + 1)
    {
      hide Run, AttemptStep, HydrateStep, RefreshStep, Send, Replay;
      var got;
      n, got := outside.RefreshPartyState(env, n0, id);
      if got.None? { return n, Pending; }
      if !got.value { return n, Over(OtherError); }
      if !stale { return n, Over(Outcome.Nil); }
      if attempt == maxRetries { return n, Over(PatchConflict); }
      ghost var m, n1 := outside.moves, n;
      var step;
      n, step := outside.Await(env, n);
      outside.TookMore(env, n0, n1, n, old(outside.moves), m);
      if step.None? { return n, Pending; }
      outside.Moved(step.value);
      outside.TookOne(env, n0, n, old(outside.moves));
      n := n + 1;
      progress := if step.value.canceled then Over(Outcome.Canceled) else Going;
    }

    /** One turn of the loop. */
    method TryOnce(builder: Builder, intent: Intent, env: seq<Move>, n0: nat, attempt: nat)
      returns (n: nat, progress: Progress)
      requires builder.Valid() && builder.accountID == account && outside.cfg == Cfg(builder, intent)
      requires Ready(attempt) && attempt <= maxRetries && n0 <= |env|
      modifies outside`now, outside`state, outside`moves, outside`world
      ensures builder.Valid()
      ensures outside.Valid() && outside.Took(env, n0, n, old(outside.moves))
      ensures match progress
              case Pending => n == |env| && !outside.world.client.pc.Done?
              case Over(outcome) => n > n0 && Ended(outcome)
              case Going => n > n0 && attempt < maxRetries && Ready(attempt + 1)
    {
      hide Outside.Valid, Carries, Nodes, ConfigFor, Builder.Valid;
      ShapesAllocated(builder.party, builder.member);
      ShapesAllocated(builder.embeddedP, builder.embeddedM);
      CfgAccount(builder, intent);
      var snapshot, partyPatch, memberPatch;
      n, progress, snapshot, partyPatch, memberPatch := Prepare(builder, intent, env, n0, attempt);
      if !progress.Going? { return; }
      ghost var m, n1 := outside.moves, n;
      var reply;
      n, reply := SendPatches(env, n, attempt, snapshot, partyPatch, memberPatch);
      outside.TookMore(env, n0, n1, n, old(outside.moves), m);
      if reply.None? { return n, Pending; }
      if reply.value != Accepted && reply.value != StaleRevision { return n, Over(OtherError); }
      m, n1 := outside.moves, n;
      n, progress := Conclude(env, n, snapshot.id, reply.value == StaleRevision, attempt);
      outside.TookMore(env, n0, n1, n, old(outside.moves), m);
    }

    /**
     applyIntentWithRetry. Whatever happens, in whatever order, the call does what the protocol
     does when just that happens: it is over with the protocol's outcome, or it is still under way
     after all of it. It is over at the latest when the client has taken six steps for each attempt.
     */
    method ApplyIntentWithRetry(builder: Builder, intent: Intent, env: seq<Move>)
      returns (n: nat, outcome: Option<Outcome>)
      requires builder.Valid() && builder.accountID == account
      requires outside.Synced() && Initial(Cfg(builder, intent), outside.world)
      modifies outside
      ensures builder.Valid() && n <= |env|
      ensures outcome == Some(NotConfigured) <==> account == ""
      ensures account == "" ==> n == 0 && outside.world == old(outside.world)
      ensures outside.Synced() && outside.world == Run(Cfg(builder, intent), old(outside.world), env[..n])
      ensures outcome.None? ==> n == |env| && !outside.world.client.pc.Done?
      ensures outcome.Some? && account != "" ==>
        outside.world.client.pc == Done(outcome.value) == Run(Cfg(builder, intent), old(outside.world), env).client.pc
      ensures Advancing(env) >= 6 * (maxRetries + 1) ==> outcome.Some?
    {
      hide Run, Now, Carries, Nodes, ConfigFor, Initial, Builder.Valid, Advancing;
      n := 0;
      assert env[..0] == [];
      AtTheHead(Cfg(builder, intent), outside.world);
      if account == "" { return 0, Some(NotConfigured); }
      ShapesAllocated(builder.party, builder.member);
      ShapesAllocated(builder.embeddedP, builder.embeddedM);
      ghost var cfg, start := Cfg(builder, intent), outside.world;
      outside.cfg, outside.start, outside.moves := cfg, start, [];
      if Advancing(env) >= 6 * (maxRetries + 1) {
        CfgAccount(builder, intent);
        EveryCallEnds(cfg, start, env);
      }
      var attempt := 0;
      while attempt <= maxRetries
        invariant 0 <= attempt <= maxRetries && n <= |env|
        invariant builder.Valid() && Ready(attempt)
        invariant outside.cfg == cfg && outside.start == start && outside.moves == env[..n]
        decreases maxRetries - attempt
      {
        var progress;
        ghost var m, n1 := outside.moves, n;
        n, progress := TryOnce(builder, intent, env, n, attempt);
        assert env[..n] == m + env[n1..n];
        match progress {
          case Pending => assert env[..n] == env; return n, None;
          case Over(end) =>
            DoneForGood(cfg, start, env, n);
            return n, Some(end);
          case Going => attempt := attempt + 1;
        }
      }
      assert false;
    }

    lemma CfgAccount(builder: Builder, intent: Intent)
      ensures Cfg(builder, intent).account == account && Cfg(builder, intent).maxRetries == maxRetries
    {
    }
  }

  /**
   What a call for an intent tells, whatever the local party is at its start and whatever
   notifications make of it later. At every moment: every accepted patch is from its attempt's
   snapshot, and from what the service held if that snapshot was as fetched; stale answers and
   party patches are accounted for, requests bounded. On success: every key the intent asks for
   had its value in the last snapshot or was carried by a patch accepted at its revision. On
   giving up: maxRetries + 1 stale answers.
   */
  lemma IntentOutcome(account: string, maxRetries: nat, partyText: Meta, memberText: Meta, intent: Intent, w: World,
                      moves: seq<Move>)
    requires Initial(ConfigFor(account, maxRetries, partyText, memberText, intent), w)
    ensures var cfg := ConfigFor(account, maxRetries, partyText, memberText, intent);
      var r := Run(cfg, w, moves);
      && AllFromSnapshots(cfg, r.origin, r.log) && NothingLost(cfg, r.origin, r.log)
      && Own(r.log, true, true) <= Upsets(cfg, r.origin, r.log) + 1
      && Own(r.log, true, false) <= Free(w) + Notices(moves) && Own(r.log, false, false) <= Free(w) + Notices(moves)
      && r.client.requests <= 4 * (maxRetries + 1)
      && w.client.seen <= |r.log| && r.client.stales <= Charges(r.log[w.client.seen..]) + Free(w) + Notices(moves)
      && (r.client.pc == Done(PatchConflict) ==> r.client.stales == maxRetries + 1)
      && (r.client.pc == Done(Nil) ==>
            && account in r.client.snapshot.members
            && (forall key | key in cfg.partyPlan :: PartyKeyMet(cfg, r.origin, r.log, r.client, key))
            && (forall key | key in cfg.memberPlan(r.client.builtAt) ::
                MemberKeyMet(cfg, r.origin, r.log, r.client, key)))
  {
    hide Initial, Run, NothingLost, AllFromSnapshots, Linked, Own, Upsets, PartyKeyMet, MemberKeyMet, Charges,
         PartyPlan, MemberPlan, Sound, Notices;
    var cfg := ConfigFor(account, maxRetries, partyText, memberText, intent);
    IntentsAreSound(account, maxRetries, partyText, memberText, intent);
    NoLostUpdate(cfg, w, moves);
    StalesAreCharged(cfg, w, moves);
    RequestsBounded(cfg, w, moves);
    DoubtfulPatches(cfg, w, moves);
    if Run(cfg, w, moves).client.pc == Done(Nil) { SuccessMeansMet(cfg, w, moves); }
    if Run(cfg, w, moves).client.pc == Done(PatchConflict) { ConflictNeedsCharges(cfg, w, moves); }
  }

  /**
   And when it succeeds: if the account stays in the party, requests get through in the end, the
   context stays alive, and the call is disturbed no more often than it may retry.
   */
  lemma IntentSucceeds(account: string, maxRetries: nat, partyText: Meta, memberText: Meta, intent: Intent, w: World,
                       moves: seq<Move>)
    requires var cfg := ConfigFor(account, maxRetries, partyText, memberText, intent);
      && Initial(cfg, w) && SameParty(w) && TrimSpace(w.origin.id) != "" && Stays(cfg, w, moves)
    requires forall i | 0 <= i < |moves| :: Harmless(w, moves[i])
    requires |w.log| - w.client.seen + Free(w) + Disturbances(moves) <= maxRetries
    requires Advancing(moves) >= 6 * (maxRetries + 1)
    ensures var cfg := ConfigFor(account, maxRetries, partyText, memberText, intent);
      var r := Run(cfg, w, moves);
      && r.client.pc == Done(Outcome.Nil) && account in r.client.snapshot.members
      && (forall key | key in cfg.partyPlan :: PartyKeyMet(cfg, r.origin, r.log, r.client, key))
      && forall key | key in cfg.memberPlan(r.client.builtAt) :: MemberKeyMet(cfg, r.origin, r.log, r.client, key)
  {
    hide Initial, Run, PartyKeyMet, MemberKeyMet, PartyPlan, MemberPlan, Sound, Stays, SameParty, Harmless, TrimSpace,
         Disturbances, Advancing, EndsAt;
    var cfg := ConfigFor(account, maxRetries, partyText, memberText, intent);
    IntentsAreSound(account, maxRetries, partyText, memberText, intent);
    SucceedsUnlessDisturbed(cfg, w, moves);
    SuccessMeansMet(cfg, w, moves);
  }

  lemma AtTheHead(cfg: Config, w: World)
    requires Initial(cfg, w)
    ensures Run(cfg, w, []) == w && w.client.pc.Attempt? && w.client.attempt == 0
  {
  }
}
