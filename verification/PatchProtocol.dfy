/**
 applyIntentWithRetry (party/commands.go) against a party service with other writers.

 The service is the replay of a log of changes. The client takes one step at a time, with
 any number of foreign changes between two steps. The service accepts a patch exactly when
 the revision it names is current; an accepted change moves the revision it checks; a
 revision is never reused, so an account that leaves and rejoins goes on counting.
 */
module PatchProtocol {
  import opened GoStrings
  import opened Json
  import opened MetaCodec
  import opened PartyTypes
  import opened Merge
  import opened PatchPlan

  // ---- the service ----

  datatype ServerMember = ServerMember(revision: int, meta: Meta, present: bool)

  datatype Server = Server(id: string, revision: int, meta: Meta, members: map<string, ServerMember>)

  datatype Change =
    | PartyMeta(update: Meta, delete: set<string>)
    | MemberMeta(account: string, update: Meta, delete: set<string>)
    | Join(account: string, meta: Meta, bumpsParty: bool)
    | Leave(account: string, bumpsParty: bool)

  /** Whose change it was, and for an own one whether the client saw the answer. */
  datatype Author = Foreign | Acknowledged | Unseen

  /**
   An own patch was built for the time `at` from the party `from`; `trusted` says that the client
   had fetched that party and not changed it since.
   */
  datatype Entry = Entry(change: Change, author: Author, at: int, from: Party, trusted: bool)

  function Others(change: Change): Entry {
    Entry(change, Foreign, 0, ZERO_PARTY, false)
  }

  type Log = seq<Entry>

  predicate Present(s: Server, account: string) {
    account in s.members && s.members[account].present
  }

  function Bump(revision: int, b: bool): int {
    if b then revision + 1 else revision
  }

  function Apply(s: Server, c: Change): Server {
    match c
    case PartyMeta(update, delete) => s.(revision := s.revision + 1, meta := (s.meta - delete) + update)
    case MemberMeta(account, update, delete) =>
      if !Present(s, account) then s
      else
        var m := s.members[account];
        s.(members := s.members[account := m.(revision := m.revision + 1, meta := (m.meta - delete) + update)])
    case Join(account, meta, bumps) =>
      if Present(s, account) then s
      else
        var revision := if account in s.members then s.members[account].revision + 1 else 0;
        s.(revision := Bump(s.revision, bumps), members := s.members[account := ServerMember(revision, meta, true)])
    case Leave(account, bumps) =>
      if !Present(s, account) then s
      else
        var m := s.members[account];
        s.(revision := Bump(s.revision, bumps),
           members := s.members[account := m.(revision := m.revision + 1, present := false)])
  }

  function Replay(s: Server, log: Log): Server
    decreases |log|
  {
    if log == [] then s else Apply(Replay(s, log[..|log| - 1]), log[|log| - 1].change)
  }

  /** What a GET of the party gives the client. The fields that patching never reads are left zero. */
  function Fetched(s: Server): Party {
    ZERO_PARTY.(
      id := s.id,
      revision := s.revision,
      meta := s.meta,
      members := map a | a in s.members && s.members[a].present ::
        ZERO_MEMBER.(accountID := a, revision := s.members[a].revision, meta := s.members[a].meta))
  }

  // ---- the client ----

  /** What one call works with: what it wants of the party, and, at a given time, of the own member. */
  datatype Config = Config(account: string, maxRetries: nat, partyTemplate: Meta, memberTemplate: Meta,
                           partyPlan: Plan, memberPlan: int -> Plan)

  ghost predicate Sound(cfg: Config) {
    WellKeyed(cfg.partyPlan) && forall at :: WellKeyed(cfg.memberPlan(at))
  }

  function PartyPatch(cfg: Config, meta: Meta): Meta {
    BuildMetaPatch(Updates(cfg.partyTemplate, meta, cfg.partyPlan))
  }

  function MemberPatch(cfg: Config, meta: Meta, at: int): Meta {
    BuildMetaPatch(Updates(cfg.memberTemplate, meta, cfg.memberPlan(at)))
  }

  datatype Outcome = Nil | NotConfigured | PartyNotFound | PatchConflict | OtherError | Canceled

  datatype PC =
    | Attempt               // at the head of the loop
    | Hydrate               // asking for the party because the snapshot lacks the own member
    | SendParty
    | SendMember
    | Refresh(stale: bool)
    | Sleep
    | Done(outcome: Outcome)

  /**
   `seen` is how much of the log the local state reflects, `basis` the same for the snapshot
   of this attempt.

   The rest is bookkeeping. `fetched` says that the local state is as it was fetched: no
   notification has changed it since. `trusted` says the same of the snapshot. `doubts` counts
   the attempts that were built from a snapshot that is not trusted, `sends` and `resends` the
   transmissions, in all and again for the request that is under way.
   */
  datatype Client = Client(
    pc: PC,
    attempt: nat,
    local: Option<Party>,
    seen: nat,
    fetched: bool,
    snapshot: Party,
    basis: nat,
    trusted: bool,
    partyPatch: Meta,
    memberPatch: Meta,
    builtAt: int,
    doubts: nat,
    stales: nat,
    requests: nat,
    sends: nat,
    resends: nat)

  datatype World = World(origin: Server, log: Log, client: Client)

  function Now(w: World): Server {
    Replay(w.origin, w.log)
  }

  /** How a transmission fares. */
  datatype Fate =
    | Answered       // processed, and the answer arrives
    | Resent         // processed, but the answer is lost or unusable and the transport sends the request again
    | Retried        // not processed (no connection, refused for its token or for the load), and sent again
    | AnswerLost     // processed, but the client only sees an error
    | NotDelivered   // not processed; the client sees an error

  datatype Move =
    | Other(change: Change)                       // another writer
    | Notice(local: Party)                        // notifications change the local party, in whatever way
    | Step(at: int, fate: Fate, canceled: bool)   // the client's next step, its clock showing `at`

  function Finish(c: Client, outcome: Outcome): Client {
    c.(pc := Done(outcome))
  }

  /** A request is over. */
  function Asked(c: Client): Client {
    c.(requests := c.requests + 1, sends := c.sends + 1, resends := 0)
  }

  /** A transmission whose answer is lost, so that the transport sends the request again. */
  function Resending(c: Client): Client {
    c.(sends := c.sends + 1, resends := c.resends + 1)
  }

  /** The local state is replaced by the service's, n changes into its log. */
  function WithParty(c: Client, s: Server, n: nat): Client {
    c.(local := Some(Fetched(s)), seen := n, fetched := true)
  }

  /** The local state becomes the snapshot of this attempt. */
  function Snap(c: Client): Client
    requires c.local.Some?
  {
    c.(snapshot := c.local.value, basis := c.seen, trusted := c.fetched)
  }

  /** BuildIntents on the snapshot, and where the attempt goes from there. */
  function Build(cfg: Config, c: Client, at: int): Client {
    if cfg.account !in c.snapshot.members then Finish(c, PartyNotFound)
    else
      var partyPatch := PartyPatch(cfg, c.snapshot.meta);
      var memberPatch := MemberPatch(cfg, c.snapshot.members[cfg.account].meta, at);
      var built := c.(partyPatch := partyPatch, memberPatch := memberPatch, builtAt := at,
                      doubts := c.doubts + if c.trusted then 0 else 1);
      if partyPatch == map[] && memberPatch == map[] then Finish(built, Nil)
      else if partyPatch != map[] then built.(pc := SendParty)
      else built.(pc := SendMember)
  }

  /** The service's verdict on a patch: accepted, stale, or some other refusal. */
  datatype Verdict = Accept | Stale | Refuse

  function PartyVerdict(cfg: Config, s: Server, c: Client): Verdict {
    if c.snapshot.id != s.id then Refuse
    else if c.snapshot.revision == s.revision then Accept
    else Stale
  }

  function MemberVerdict(cfg: Config, s: Server, c: Client): Verdict
    requires cfg.account in c.snapshot.members
  {
    if c.snapshot.id != s.id || !Present(s, cfg.account) then Refuse
    else if c.snapshot.members[cfg.account].revision == s.members[cfg.account].revision then Accept
    else Stale
  }

  function OwnEntry(c: Client, change: Change, author: Author): Entry {
    Entry(change, author, c.builtAt, c.snapshot, c.trusted)
  }

  function Append(w: World, change: Change, author: Author): Log {
    w.log + [OwnEntry(w.client, change, author)]
  }

  /** Sending a patch that the service judges with `verdict`; `next` is where an accepted one leads. */
  function Send(w: World, change: Change, verdict: Verdict, fate: Fate, next: PC): World {
    var c := Asked(w.client);
    match fate
    case Answered =>
      (match verdict
       case Accept => w.(log := Append(w, change, Acknowledged), client := c.(pc := next))
       case Stale => w.(client := c.(pc := Refresh(true), stales := c.stales + 1))
       case Refuse => w.(client := Finish(c, OtherError)))
    case Resent =>
      w.(log := if verdict.Accept? then Append(w, change, Unseen) else w.log, client := Resending(w.client))
    case Retried => w.(client := Resending(w.client))
    case AnswerLost =>
      w.(log := if verdict.Accept? then Append(w, change, Unseen) else w.log, client := Finish(c, OtherError))
    case NotDelivered => w.(client := Finish(c, OtherError))
  }

  function AttemptStep(cfg: Config, c: Client, at: int): Client {
    if c.local.None? || c.local.value.id == "" then Finish(c, PartyNotFound)
    else if cfg.account in c.local.value.members then Build(cfg, Snap(c), at)
    else Snap(c).(pc := Hydrate)
  }

  function HydrateStep(cfg: Config, w: World, at: int, fate: Fate): Client {
    var c := w.client;
    if TrimSpace(c.snapshot.id) == "" then Finish(c, PartyNotFound)
    else if fate == Resent || fate == Retried then Resending(c)
    else if fate == Answered && Present(Now(w), cfg.account) && TrimSpace(w.origin.id) == TrimSpace(c.snapshot.id) then
      Build(cfg, Snap(WithParty(Asked(c), Now(w), |w.log|)), at)
    else Finish(Asked(c), PartyNotFound)
  }

  function RefreshStep(cfg: Config, w: World, stale: bool, fate: Fate): Client {
    var c := w.client;
    if fate == Resent || fate == Retried then Resending(c)
    else if fate != Answered || c.snapshot.id != w.origin.id then Finish(Asked(c), OtherError)
    else
      var c' := WithParty(Asked(c), Now(w), |w.log|);
      if !stale then Finish(c', Nil)
      else if c.attempt == cfg.maxRetries then Finish(c', PatchConflict)
      else c'.(pc := Sleep)
  }

  function ClientStep(cfg: Config, w: World, at: int, fate: Fate, canceled: bool): World {
    var c := w.client;
    match c.pc
    case Attempt => w.(client := AttemptStep(cfg, c, at))
    case Hydrate => w.(client := HydrateStep(cfg, w, at, fate))
    case SendParty =>
      Send(w, PartyMeta(c.partyPatch, {}), PartyVerdict(cfg, Now(w), c), fate, AfterParty(c))
    case SendMember =>
      if cfg.account !in c.snapshot.members then w
      else Send(w, MemberMeta(cfg.account, c.memberPatch, {}), MemberVerdict(cfg, Now(w), c), fate, Refresh(false))
    case Refresh(stale) => w.(client := RefreshStep(cfg, w, stale, fate))
    case Sleep =>
      if canceled then w.(client := Finish(c, Canceled)) else w.(client := c.(pc := Attempt, attempt := c.attempt + 1))
    case Done(_) => w
  }

  /** Where an accepted party patch leads. */
  function AfterParty(c: Client): PC {
    if c.memberPatch != map[] then SendMember else Refresh(false)
  }

  function Next(cfg: Config, w: World, move: Move): World {
    match move
    case Other(change) => w.(log := w.log + [Others(change)])
    case Notice(local) => w.(client := w.client.(local := Some(local), fetched := false))
    case Step(at, fate, canceled) => ClientStep(cfg, w, at, fate, canceled)
  }

  function Run(cfg: Config, w: World, moves: seq<Move>): World
    decreases |moves|
  {
    if moves == [] then w else Next(cfg, Run(cfg, w, moves[..|moves| - 1]), moves[|moves| - 1])
  }

  /**
   A call begins. Of the local state nothing is assumed, unless `fetched` says that it is the
   service's as of the log up to `seen`; later changes are unknown to it then.
   */
  ghost predicate Initial(cfg: Config, w: World) {
    var c := w.client;
    && c.pc == Attempt && c.attempt == 0 && !c.trusted
    && c.stales == 0 && c.doubts == 0 && c.requests == 0 && c.sends == 0 && c.resends == 0
    && c.seen <= |w.log|
    && (c.fetched && c.local.Some? ==> c.local.value == Fetched(Replay(w.origin, w.log[..c.seen])))
    && forall i | 0 <= i < |w.log| :: w.log[i].author == Foreign
  }

  // ---- the log ----

  lemma {:induction false} ReplaySplit(s: Server, log: Log, n: nat)
    requires n <= |log|
    ensures Replay(s, log) == Replay(Replay(s, log[..n]), log[n..])
    decreases |log|
  {
    if n < |log| {
      var init := log[..|log| - 1];
      ReplaySplit(s, init, n);
      assert log[n..][..|log| - n - 1] == init[n..];
      assert init[..n] == log[..n];
    } else {
      assert log[..n] == log;
    }
  }

  /** Revisions never go back, and a revision that is current again was never left. */
  lemma {:induction false} Monotone(s: Server, log: Log, account: string)
    ensures Replay(s, log).id == s.id
    ensures Replay(s, log).revision >= s.revision
    ensures Replay(s, log).revision == s.revision ==> Replay(s, log).meta == s.meta
    ensures account in s.members ==> account in Replay(s, log).members
    ensures account in s.members ==> Replay(s, log).members[account].revision >= s.members[account].revision
    ensures account in s.members && Replay(s, log).members[account].revision == s.members[account].revision
            ==> Replay(s, log).members[account] == s.members[account]
    decreases |log|
  {
    if log == [] {
    } else {
      Monotone(s, log[..|log| - 1], account);
    }
  }

  // ---- no lost update ----

  /** The patch entry was built from exactly what the service held when it accepted it. */
  ghost predicate BuiltFromCurrent(cfg: Config, origin: Server, log: Log, i: nat)
    requires i < |log|
  {
    var s := Replay(origin, log[..i]);
    match log[i].change
    case PartyMeta(update, delete) =>
      && delete == {} && update != map[]
      && update == PartyPatch(cfg, s.meta)
    case MemberMeta(account, update, delete) =>
      && account == cfg.account && delete == {} && update != map[] && Present(s, account)
      && update == MemberPatch(cfg, s.members[account].meta, log[i].at)
    case _ => false
  }

  /** The own entry is the patch built from the party it says, and was accepted at that party's revision. */
  ghost predicate FromSnapshot(cfg: Config, origin: Server, log: Log, i: nat)
    requires i < |log|
  {
    var s, e := Replay(origin, log[..i]), log[i];
    && cfg.account in e.from.members && e.from.id == origin.id
    && match e.change
       case PartyMeta(update, delete) =>
         delete == {} && update != map[] && update == PartyPatch(cfg, e.from.meta) && s.revision == e.from.revision
       case MemberMeta(account, update, delete) =>
         && account == cfg.account && delete == {} && update != map[]
         && update == MemberPatch(cfg, e.from.members[account].meta, e.at)
         && Present(s, account) && s.members[account].revision == e.from.members[account].revision
       case _ => false
  }

  ghost predicate AllFromSnapshots(cfg: Config, origin: Server, log: Log) {
    forall i | 0 <= i < |log| && log[i].author != Foreign :: FromSnapshot(cfg, origin, log, i)
  }

  ghost predicate NothingLost(cfg: Config, origin: Server, log: Log) {
    forall i | 0 <= i < |log| && log[i].author != Foreign && log[i].trusted :: BuiltFromCurrent(cfg, origin, log, i)
  }

  ghost predicate Sending(c: Client) {
    c.pc.SendParty? || c.pc.SendMember? || c.pc.Refresh?
  }

  /**
   Local state and snapshot, where they are as fetched, reflect a prefix of the log; the patches
   belong to the snapshot.
   */
  ghost predicate Linked(cfg: Config, w: World) {
    var c := w.client;
    && c.seen <= |w.log|
    && (c.fetched && c.local.Some? ==> c.local.value == Fetched(Replay(w.origin, w.log[..c.seen])))
    && (c.trusted ==> c.basis <= |w.log| && c.snapshot == Fetched(Replay(w.origin, w.log[..c.basis])))
    && (Sending(c) ==>
          && c.basis <= |w.log|
          && cfg.account in c.snapshot.members
          && c.partyPatch == PartyPatch(cfg, c.snapshot.meta)
          && c.memberPatch == MemberPatch(cfg, c.snapshot.members[cfg.account].meta, c.builtAt)
          && (c.pc.SendParty? ==> c.partyPatch != map[])
          && (c.pc.SendMember? ==> c.memberPatch != map[]))
  }

  ghost predicate Safe(cfg: Config, w: World) {
    Linked(cfg, w) && AllFromSnapshots(cfg, w.origin, w.log) && NothingLost(cfg, w.origin, w.log)
  }

  /** An entry that may join the log. */
  ghost predicate Sayable(cfg: Config, w: World, e: Entry) {
    e.author != Foreign ==>
      && FromSnapshot(cfg, w.origin, w.log + [e], |w.log|)
      && (e.trusted ==> BuiltFromCurrent(cfg, w.origin, w.log + [e], |w.log|))
  }

  lemma AppendKeeps(cfg: Config, w: World, e: Entry)
    requires Safe(cfg, w) && Sayable(cfg, w, e)
    ensures Safe(cfg, w.(log := w.log + [e]))
  {
    hide Replay, PartyPatch, MemberPatch, Fetched, BuiltFromCurrent, FromSnapshot;
    var log := w.log + [e];
    assert log[..w.client.seen] == w.log[..w.client.seen];
    if w.client.trusted { assert log[..w.client.basis] == w.log[..w.client.basis]; }
    forall i | 0 <= i < |log| && log[i].author != Foreign
      ensures FromSnapshot(cfg, w.origin, log, i) && (log[i].trusted ==> BuiltFromCurrent(cfg, w.origin, log, i))
    {
      if i < |w.log| { BuiltBefore(cfg, w.origin, w.log, log, i); }
    }
  }

  lemma BuiltBefore(cfg: Config, origin: Server, log: Log, longer: Log, i: nat)
    requires i < |log| && log <= longer
    ensures BuiltFromCurrent(cfg, origin, log, i) <==> BuiltFromCurrent(cfg, origin, longer, i)
    ensures FromSnapshot(cfg, origin, log, i) <==> FromSnapshot(cfg, origin, longer, i)
  {
    hide Replay, PartyPatch, MemberPatch;
    assert longer[..i] == log[..i];
  }

  /** A patch that the service accepts was built from what the service holds, if its snapshot was. */
  lemma AcceptedIsCurrent(cfg: Config, w: World)
    requires Linked(cfg, w) && w.client.trusted
    requires w.client.pc.SendParty? && PartyVerdict(cfg, Now(w), w.client).Accept?
    ensures w.client.snapshot.meta == Now(w).meta
  {
    ReplaySplit(w.origin, w.log, w.client.basis);
    Monotone(Replay(w.origin, w.log[..w.client.basis]), w.log[w.client.basis..], cfg.account);
  }

  lemma AcceptedMemberIsCurrent(cfg: Config, w: World)
    requires Linked(cfg, w) && w.client.trusted
    requires w.client.pc.SendMember? && MemberVerdict(cfg, Now(w), w.client).Accept?
    ensures w.client.snapshot.members[cfg.account].meta == Now(w).members[cfg.account].meta
  {
    ReplaySplit(w.origin, w.log, w.client.basis);
    Monotone(Replay(w.origin, w.log[..w.client.basis]), w.log[w.client.basis..], cfg.account);
  }

  lemma IdStays(origin: Server, log: Log)
    ensures Replay(origin, log).id == origin.id
  {
    Monotone(origin, log, "");
  }

  lemma PartySayable(cfg: Config, w: World, author: Author)
    requires Linked(cfg, w) && w.client.pc.SendParty? && PartyVerdict(cfg, Now(w), w.client).Accept?
    ensures Sayable(cfg, w, OwnEntry(w.client, PartyMeta(w.client.partyPatch, {}), author))
  {
    hide Replay, PartyPatch, MemberPatch;
    var e := OwnEntry(w.client, PartyMeta(w.client.partyPatch, {}), author);
    assert (w.log + [e])[..|w.log|] == w.log;
    IdStays(w.origin, w.log);
    if w.client.trusted { AcceptedIsCurrent(cfg, w); }
  }

  lemma MemberSayable(cfg: Config, w: World, author: Author)
    requires Linked(cfg, w) && w.client.pc.SendMember? && MemberVerdict(cfg, Now(w), w.client).Accept?
    ensures Sayable(cfg, w, OwnEntry(w.client, MemberMeta(cfg.account, w.client.memberPatch, {}), author))
  {
    hide Replay, PartyPatch, MemberPatch;
    var e := OwnEntry(w.client, MemberMeta(cfg.account, w.client.memberPatch, {}), author);
    assert (w.log + [e])[..|w.log|] == w.log;
    IdStays(w.origin, w.log);
    if w.client.trusted { AcceptedMemberIsCurrent(cfg, w); }
  }

  lemma SafeSend(cfg: Config, w: World, change: Change, verdict: Verdict, fate: Fate, next: PC)
    requires Safe(cfg, w) && Sending(w.client)
    requires verdict.Accept? ==>
      Sayable(cfg, w, OwnEntry(w.client, change, Acknowledged)) && Sayable(cfg, w, OwnEntry(w.client, change, Unseen))
    requires next == Refresh(false) || (next == SendMember && w.client.memberPatch != map[])
    ensures Safe(cfg, Send(w, change, verdict, fate, next))
  {
    hide Replay, PartyPatch, MemberPatch, Fetched, AllFromSnapshots, NothingLost, Sayable;
    if verdict.Accept? {
      AppendKeeps(cfg, w, OwnEntry(w.client, change, Acknowledged));
      AppendKeeps(cfg, w, OwnEntry(w.client, change, Unseen));
    }
  }

  /** What building leaves alone. */
  predicate BuildFrame(c: Client, b: Client) {
    b == c.(pc := b.pc, partyPatch := b.partyPatch, memberPatch := b.memberPatch, builtAt := b.builtAt,
            doubts := b.doubts)
  }

  /** Building decides where the attempt goes, and changes nothing but what it builds. */
  lemma BuildShape(cfg: Config, c: Client, at: int)
    ensures var b := Build(cfg, c, at);
      && BuildFrame(c, b) && b.pc in {SendParty, SendMember, Done(Nil), Done(PartyNotFound)}
      && b.doubts == c.doubts + if c.trusted || b.pc == Done(PartyNotFound) then 0 else 1
  {
    hide PartyPatch, MemberPatch, BuildFrame;
    BuildFrames(cfg, c, at);
  }

  lemma BuildFrames(cfg: Config, c: Client, at: int)
    ensures BuildFrame(c, Build(cfg, c, at))
  {
    hide PartyPatch, MemberPatch;
  }

  lemma BuiltPatches(cfg: Config, c: Client, at: int)
    ensures var b := Build(cfg, c, at);
      if cfg.account !in c.snapshot.members then b.pc == Done(PartyNotFound)
      else
        && b.builtAt == at && b.partyPatch == PartyPatch(cfg, c.snapshot.meta)
        && b.memberPatch == MemberPatch(cfg, c.snapshot.members[cfg.account].meta, at)
        && (b.pc.SendParty? ==> b.partyPatch != map[]) && (b.pc.SendMember? ==> b.memberPatch != map[])
  {
    hide PartyPatch, MemberPatch;
  }

  /** Building from a linked snapshot. */
  lemma SafeBuild(cfg: Config, w: World, c: Client, at: int)
    requires Safe(cfg, w.(client := c)) && c.basis <= |w.log|
    ensures Safe(cfg, w.(client := Build(cfg, c, at)))
  {
    hide Replay, PartyPatch, MemberPatch, Fetched, AllFromSnapshots, NothingLost, Build;
    BuildShape(cfg, c, at);
    BuiltPatches(cfg, c, at);
  }

  lemma SafeSending(cfg: Config, w: World, at: int, fate: Fate, canceled: bool)
    requires Safe(cfg, w) && (w.client.pc.SendParty? || w.client.pc.SendMember?)
    ensures Safe(cfg, ClientStep(cfg, w, at, fate, canceled))
  {
    hide Replay, PartyPatch, MemberPatch, Fetched, AllFromSnapshots, NothingLost, Send, Sayable, PartyVerdict,
         MemberVerdict, Now;
    var c := w.client;
    if c.pc.SendParty? {
      var change, verdict := PartyMeta(c.partyPatch, {}), PartyVerdict(cfg, Now(w), c);
      if verdict.Accept? {
        PartySayable(cfg, w, Acknowledged);
        PartySayable(cfg, w, Unseen);
      }
      SafeSend(cfg, w, change, verdict, fate, AfterParty(c));
    } else {
      var change, verdict := MemberMeta(cfg.account, c.memberPatch, {}), MemberVerdict(cfg, Now(w), c);
      if verdict.Accept? {
        MemberSayable(cfg, w, Acknowledged);
        MemberSayable(cfg, w, Unseen);
      }
      SafeSend(cfg, w, change, verdict, fate, Refresh(false));
    }
  }

  /** Replacing the local state by the service's links it again. */
  lemma SafeFetch(cfg: Config, w: World, c: Client)
    requires Safe(cfg, w) && !Sending(c)
    requires c == w.client.(requests := c.requests, sends := c.sends, resends := c.resends, pc := c.pc)
    ensures Safe(cfg, w.(client := WithParty(c, Now(w), |w.log|)))
    ensures Safe(cfg, w.(client := Snap(WithParty(c, Now(w), |w.log|))))
  {
    hide Replay, Fetched, PartyPatch, MemberPatch, AllFromSnapshots, NothingLost;
    assert w.log[..|w.log|] == w.log;
  }

  lemma SafeAttempt(cfg: Config, w: World, at: int)
    requires Safe(cfg, w) && w.client.pc.Attempt?
    ensures Safe(cfg, w.(client := AttemptStep(cfg, w.client, at)))
  {
    hide Replay, Fetched, AllFromSnapshots, NothingLost, Build, PartyPatch, MemberPatch;
    if w.client.local.Some? { SafeBuild(cfg, w, Snap(w.client), at); }
  }

  lemma SafeHydrate(cfg: Config, w: World, at: int, fate: Fate)
    requires Safe(cfg, w) && w.client.pc.Hydrate?
    ensures Safe(cfg, w.(client := HydrateStep(cfg, w, at, fate)))
  {
    hide Replay, Fetched, AllFromSnapshots, NothingLost, Build, PartyPatch, MemberPatch, Now, Present, TrimSpace;
    SafeFetch(cfg, w, Asked(w.client));
    SafeBuild(cfg, w, Snap(WithParty(Asked(w.client), Now(w), |w.log|)), at);
  }

  /** The counts are no part of it, nor is an end. */
  lemma SafeCounts(cfg: Config, w: World, c: Client)
    requires Safe(cfg, w)
    requires c == w.client.(pc := c.pc, requests := c.requests, sends := c.sends, resends := c.resends)
    requires c.pc == w.client.pc || c.pc.Done?
    ensures Safe(cfg, w.(client := c))
  {
    hide Replay, Fetched, AllFromSnapshots, NothingLost, PartyPatch, MemberPatch;
  }

  lemma SafeRefresh(cfg: Config, w: World, stale: bool, fate: Fate)
    requires Safe(cfg, w) && w.client.pc == Refresh(stale)
    ensures Safe(cfg, w.(client := RefreshStep(cfg, w, stale, fate)))
  {
    hide Replay, Fetched, AllFromSnapshots, NothingLost, PartyPatch, MemberPatch, Now, RefreshStep;
    RefreshShape(cfg, w, stale, fate);
    var r := RefreshStep(cfg, w, stale, fate);
    if r.pc == w.client.pc || r.pc == Done(OtherError) {
      SafeCounts(cfg, w, r);
    } else {
      SafeFetch(cfg, w, w.client.(requests := r.requests, sends := r.sends, resends := r.resends, pc := r.pc));
    }
  }

  lemma SafeClientStep(cfg: Config, w: World, at: int, fate: Fate, canceled: bool)
    requires Safe(cfg, w)
    ensures Safe(cfg, ClientStep(cfg, w, at, fate, canceled))
  {
    hide Safe, AttemptStep, HydrateStep, RefreshStep, Send;
    match w.client.pc
    case Attempt => SafeAttempt(cfg, w, at);
    case Hydrate => SafeHydrate(cfg, w, at, fate);
    case SendParty => SafeSending(cfg, w, at, fate, canceled);
    case SendMember => SafeSending(cfg, w, at, fate, canceled);
    case Refresh(stale) => SafeRefresh(cfg, w, stale, fate);
    case Sleep => StillSafe(cfg, w, ClientStep(cfg, w, at, fate, canceled).client);
    case Done(_) =>
  }

  /** Moving on without sending, fetching or building keeps everything; so does a notification. */
  lemma StillSafe(cfg: Config, w: World, c: Client)
    requires Safe(cfg, w)
    requires || (c == w.client.(pc := c.pc, attempt := c.attempt) && !Sending(c))
             || (c == w.client.(local := c.local, fetched := c.fetched) && !c.fetched)
    ensures Safe(cfg, w.(client := c))
  {
    hide Replay, Fetched, AllFromSnapshots, NothingLost, PartyPatch, MemberPatch;
  }

  lemma SafeStep(cfg: Config, w: World, move: Move)
    requires Safe(cfg, w)
    ensures Safe(cfg, Next(cfg, w, move))
  {
    hide Safe, ClientStep;
    match move
    case Other(change) => AppendKeeps(cfg, w, Others(change));
    case Notice(local) => StillSafe(cfg, w, w.client.(local := Some(local), fetched := false));
    case Step(at, fate, canceled) => SafeClientStep(cfg, w, at, fate, canceled);
  }

  /**
   No lost update. Whatever the local party was at the start, whatever other writers do between
   two steps of the client, whatever notifications make of the local party, and whatever answers
   are lost: every patch of the client that the service accepted is the one built from the
   snapshot of its attempt, and was accepted at that snapshot's revision; and if that snapshot
   was as fetched, the patch was built from exactly the metadata the service held then.
   */
  lemma {:induction false} NoLostUpdate(cfg: Config, w: World, moves: seq<Move>)
    requires Initial(cfg, w)
    ensures Safe(cfg, Run(cfg, w, moves))
    decreases |moves|
  {
    hide Next, Safe;
    if moves == [] {
      StartIsSafe(cfg, w);
    } else {
      NoLostUpdate(cfg, w, moves[..|moves| - 1]);
      SafeStep(cfg, Run(cfg, w, moves[..|moves| - 1]), moves[|moves| - 1]);
    }
  }

  lemma StartIsSafe(cfg: Config, w: World)
    requires Initial(cfg, w)
    ensures Safe(cfg, w)
  {
    hide Replay, Fetched;
  }

  /**
   The exact condition: an own patch in the log was built from what the service held exactly when
   the party it was built from gives the same patch as what the service held.
   */
  lemma BuiltFromCurrentIff(cfg: Config, w: World, moves: seq<Move>, i: nat)
    requires Initial(cfg, w)
    requires i < |Run(cfg, w, moves).log| && Run(cfg, w, moves).log[i].author != Foreign
    ensures var r := Run(cfg, w, moves);
      var e, s := r.log[i], Replay(r.origin, r.log[..i]);
      && FromSnapshot(cfg, r.origin, r.log, i) && (e.trusted ==> BuiltFromCurrent(cfg, r.origin, r.log, i))
      && (BuiltFromCurrent(cfg, r.origin, r.log, i) <==>
            if e.change.PartyMeta? then PartyPatch(cfg, s.meta) == PartyPatch(cfg, e.from.meta)
            else cfg.account in s.members && MemberPatch(cfg, s.members[cfg.account].meta, e.at)
                 == MemberPatch(cfg, e.from.members[cfg.account].meta, e.at))
  {
    hide Run, Replay, PartyPatch, MemberPatch, Linked;
    NoLostUpdate(cfg, w, moves);
  }

  // ---- the shape of a step ----

  /** What a refresh leaves alone. */
  predicate RefreshFrame(c: Client, r: Client) {
    r == c.(pc := r.pc, local := r.local, fetched := r.fetched, seen := r.seen, requests := r.requests,
            sends := r.sends, resends := r.resends)
  }

  lemma RefreshFrames(cfg: Config, w: World, stale: bool, fate: Fate)
    requires w.client.pc == Refresh(stale)
    ensures RefreshFrame(w.client, RefreshStep(cfg, w, stale, fate))
  {
    hide Now, Fetched, RefreshFrame;
    var c := w.client;
    if fate == Resent || fate == Retried {
      Framed(c, Resending(c));
    } else if fate != Answered || c.snapshot.id != w.origin.id {
      Framed(c, Finish(Asked(c), OtherError));
    } else {
      FetchFrames(cfg, c, Now(w), |w.log|, stale);
    }
  }

  lemma FetchFrames(cfg: Config, c: Client, s: Server, n: nat, stale: bool)
    ensures var r := WithParty(Asked(c), s, n);
      RefreshFrame(c, if !stale then Finish(r, Nil) else if c.attempt == cfg.maxRetries then Finish(r, PatchConflict)
                      else r.(pc := Sleep))
  {
    hide Fetched, RefreshFrame;
    var r := WithParty(Asked(c), s, n);
    Framed(c, if !stale then Finish(r, Nil) else if c.attempt == cfg.maxRetries then Finish(r, PatchConflict)
              else r.(pc := Sleep));
  }

  /** A refresh either changes the counts only, and may end the call, or brings the service's party. */
  lemma RefreshShape(cfg: Config, w: World, stale: bool, fate: Fate)
    requires w.client.pc == Refresh(stale)
    ensures var c, r := w.client, RefreshStep(cfg, w, stale, fate);
      && RefreshFrame(c, r)
      && if r.pc == c.pc || r.pc == Done(OtherError) then
           r.local == c.local && r.fetched == c.fetched && r.seen == c.seen
         else
           && r.local == Some(Fetched(Now(w))) && r.fetched && r.seen == |w.log|
           && r.pc == if !stale then Done(Nil) else if c.attempt == cfg.maxRetries then Done(PatchConflict) else Sleep
  {
    hide Now, Fetched, RefreshFrame;
    RefreshFrames(cfg, w, stale, fate);
  }

  lemma Framed(c: Client, r: Client)
    requires r.attempt == c.attempt && r.snapshot == c.snapshot && r.basis == c.basis && r.trusted == c.trusted
    requires r.partyPatch == c.partyPatch && r.memberPatch == c.memberPatch && r.builtAt == c.builtAt
    requires r.doubts == c.doubts && r.stales == c.stales
    ensures RefreshFrame(c, r)
  {
  }

  lemma SendKeeps(w: World, change: Change, verdict: Verdict, fate: Fate, next: PC)
    ensures var r := Send(w, change, verdict, fate, next); r.origin == w.origin && w.log <= r.log
  {
  }

  lemma StepShape(cfg: Config, w: World, move: Move)
    ensures var r := Next(cfg, w, move); r.origin == w.origin && w.log <= r.log
  {
    hide Now, PartyVerdict, MemberVerdict, AttemptStep, HydrateStep, RefreshStep, Send;
    if move.Step? {
      var c := w.client;
      SendKeeps(w, PartyMeta(c.partyPatch, {}), PartyVerdict(cfg, Now(w), c), move.fate, AfterParty(c));
      if cfg.account in c.snapshot.members {
        SendKeeps(w, MemberMeta(cfg.account, c.memberPatch, {}), MemberVerdict(cfg, Now(w), c), move.fate,
                  Refresh(false));
      }
    }
  }

  /** The origin stays, and the log only grows. */
  lemma {:induction false} LogGrows(cfg: Config, w: World, moves: seq<Move>)
    ensures var r := Run(cfg, w, moves); r.origin == w.origin && w.log <= r.log
    decreases |moves|
  {
    hide Next;
    if moves == [] {
    } else {
      LogGrows(cfg, w, moves[..|moves| - 1]);
      StepShape(cfg, Run(cfg, w, moves[..|moves| - 1]), moves[|moves| - 1]);
    }
  }

  /** A patch, applied to what it was built from, settles every goal and leaves every unplanned key alone. */
  lemma PartyPatchEffect(cfg: Config, meta: Meta, key: string)
    requires Sound(cfg)
    ensures AllSettled(meta + PartyPatch(cfg, meta), cfg.partyPlan)
    ensures key !in cfg.partyPlan ==> Lookup(meta + PartyPatch(cfg, meta), key) == Lookup(meta, key)
    ensures PartyPatch(cfg, meta) == map[] <==> AllSettled(meta, cfg.partyPlan)
  {
    hide Updates, AllSettled, WellKeyed;
    PatchedSettles(cfg.partyTemplate, meta, cfg.partyPlan);
    if key !in cfg.partyPlan { OnlyPlannedKeys(cfg.partyTemplate, meta, cfg.partyPlan, key); }
    NoUpdatesIff(cfg.partyTemplate, meta, cfg.partyPlan);
    assert PartyPatch(cfg, meta).Keys == Updates(cfg.partyTemplate, meta, cfg.partyPlan).Keys;
  }

  lemma MemberPatchEffect(cfg: Config, meta: Meta, at: int, key: string)
    requires Sound(cfg)
    ensures AllSettled(meta + MemberPatch(cfg, meta, at), cfg.memberPlan(at))
    ensures key !in cfg.memberPlan(at) ==> Lookup(meta + MemberPatch(cfg, meta, at), key) == Lookup(meta, key)
    ensures MemberPatch(cfg, meta, at) == map[] <==> AllSettled(meta, cfg.memberPlan(at))
  {
    hide Updates, AllSettled, WellKeyed;
    var plan := cfg.memberPlan(at);
    PatchedSettles(cfg.memberTemplate, meta, plan);
    if key !in plan { OnlyPlannedKeys(cfg.memberTemplate, meta, plan, key); }
    NoUpdatesIff(cfg.memberTemplate, meta, plan);
    assert MemberPatch(cfg, meta, at).Keys == Updates(cfg.memberTemplate, meta, plan).Keys;
  }

  /** What an accepted own patch does to the service. */
  lemma OwnPatchEffect(cfg: Config, origin: Server, log: Log, i: nat, key: string)
    requires Sound(cfg) && i < |log| && BuiltFromCurrent(cfg, origin, log, i)
    ensures var before, after := Replay(origin, log[..i]), Replay(origin, log[..i + 1]);
      var plan := if log[i].change.PartyMeta? then cfg.partyPlan else cfg.memberPlan(log[i].at);
      if log[i].change.PartyMeta? then
        && AllSettled(after.meta, plan)
        && (key !in plan ==> Lookup(after.meta, key) == Lookup(before.meta, key))
        && after.members == before.members && after.revision == before.revision + 1
      else
        && Present(before, cfg.account) && Present(after, cfg.account)
        && AllSettled(after.members[cfg.account].meta, plan)
        && (key !in plan
            ==> Lookup(after.members[cfg.account].meta, key) == Lookup(before.members[cfg.account].meta, key))
        && after == before.(members := before.members[cfg.account := after.members[cfg.account]])
        && after.members[cfg.account].revision == before.members[cfg.account].revision + 1
  {
    hide PartyPatch, MemberPatch, AllSettled, WellKeyed, Sound;
    assert log[..i + 1][..i] == log[..i];
    var before := Replay(origin, log[..i]);
    if log[i].change.PartyMeta? {
      PartyPatchEffect(cfg, before.meta, key);
      assert before.meta - {} == before.meta;
    } else {
      var meta := before.members[cfg.account].meta;
      MemberPatchEffect(cfg, meta, log[i].at, key);
      assert meta - {} == meta;
    }
  }

  // ---- a call for an intent ----

  function ConfigFor(account: string, maxRetries: nat, partyTemplate: Meta, memberTemplate: Meta,
                     intent: Intent): Config {
    Config(account, maxRetries, partyTemplate, memberTemplate, PartyPlan(intent), at => MemberPlan(intent, at))
  }

  lemma IntentsAreSound(account: string, maxRetries: nat, partyTemplate: Meta, memberTemplate: Meta, intent: Intent)
    ensures Sound(ConfigFor(account, maxRetries, partyTemplate, memberTemplate, intent))
  {
    hide PartyPlan, MemberPlan, WellKeyed;
    var cfg := ConfigFor(account, maxRetries, partyTemplate, memberTemplate, intent);
    PlansWellKeyed(intent, 0);
    forall at
      ensures WellKeyed(cfg.memberPlan(at))
    {
      PlansWellKeyed(intent, at);
    }
  }
}
