/**
 party/xmpp_decoder.go: notifications become reducer events; party/commands.go: a fetched party
 becomes a Party. Over any run of the two, the cached fields agree with the metadata.
 */
module Decoder {
  import opened GoStrings
  import opened Json
  import opened MetaCodec
  import opened PartyTypes
  import R = Reducer

  datatype Kind = MemberJoined | MemberStateUpdated | MemberLeft | MemberKicked | MemberNewCaptain | PartyUpdated
      | Other

  /** The payload of a notification; the fields that hold metadata are JSON values, or missing. */
  datatype Notification = Notification(
    kind: Kind,
    partyID: string,
    accountID: string,
    revision: int,
    displayName: string,
    role: string,
    joinedAt: int,
    meta: Option<Tree>,
    memberUpdated: Option<Tree>,
    memberRemoved: Option<Tree>,
    partyUpdated: Option<Tree>,
    partyRemoved: Option<Tree>)

  /** normalizeMetaMapFromAny. */
  function NormalizeAny(v: Option<Tree>): Meta {
    NormalizeMetaMap(AsJsonMap(v))
  }

  /** An entry of a list of keys, None when it is skipped. */
  function KeyOf(item: Tree): Option<string> {
    match Sprint(item)
    case Plain(chars) => var s := TrimSpace(chars); if s == "" || s == "<nil>" then None else Some(s)
    case _ => None
  }

  function KeysOf(items: seq<Tree>): seq<string> {
    if items == [] then []
    else KeysOf(items[..|items| - 1]) + match KeyOf(items[|items| - 1]) case None => [] case Some(s) => [s]
  }

  /** toStringSlice. */
  method ToStringSlice(v: Option<Tree>) returns (out: seq<string>)
    ensures out == StringSlice(v)
  {
    out := [];
    if v.None? || !v.value.Arr? { return; }
    var items := v.value.items;
    for i := 0 to |items|
      invariant out == KeysOf(items[..i])
    {
      assert items[..i + 1][..i] == items[..i];
      var key := KeyOf(items[i]);
      if key.Some? { out := out + [key.value]; }
    }
    assert items[..|items|] == items;
  }

  function StringSlice(v: Option<Tree>): seq<string> {
    if v.Some? && v.value.Arr? then KeysOf(v.value.items) else []
  }

  const NO_EVENT := R.Event(R.Unknown, "", 0, "", EMPTY, EMPTY, ZERO_MEMBER, "", map[], [], [], 0)

  /** The metadata a member had in the snapshot the decoder took. */
  function Known(snapshot: Option<Party>, accountID: string): Option<Member> {
    if snapshot.Some? && accountID in snapshot.value.members && snapshot.value.members[accountID].accountID != "" then
      Some(snapshot.value.members[accountID])
    else None
  }

  /** The decoder's own merge of a member's metadata. */
  function Merged(snapshot: Option<Party>, n: Notification): Meta {
    var existing := Known(snapshot, n.accountID);
    R.Patched(if existing.Some? then existing.value.meta else map[], NormalizeAny(n.memberUpdated),
              StringSlice(n.memberRemoved))
  }

  function JoinedMeta(n: Notification): Meta {
    var meta := NormalizeAny(n.meta);
    if |meta| == 0 then NormalizeAny(n.memberUpdated) else meta
  }

  function JoinedMember(n: Notification, meta: Meta): Member {
    Member(n.accountID, n.displayName, n.role, R.ExtractReady(Get(meta, LOBBY)),
           R.ExtractLoadout(Get(meta, COSMETICS), Get(meta, EMOTE)), n.joinedAt, n.revision, meta)
  }

  function UpdatedMember(snapshot: Option<Party>, n: Notification, merged: Meta): Member {
    var existing := Known(snapshot, n.accountID);
    Member(n.accountID,
           if existing.Some? && n.displayName == "" then existing.value.displayName else n.displayName,
           if existing.Some? && n.role == "" then existing.value.role else n.role,
           R.ExtractReady(Get(merged, LOBBY)),
           R.ExtractLoadout(Get(merged, COSMETICS), Get(merged, EMOTE)),
           0,
           if existing.Some? && n.revision == 0 then existing.value.revision else n.revision,
           NormalizeAny(n.memberUpdated))
  }

  /** The reducer event of a notification, decoded against a snapshot. */
  function Decode(n: Notification, snapshot: Option<Party>, at: int): Option<R.Event> {
    var e := NO_EVENT.(partyID := n.partyID, revision := n.revision, at := at);
    match n.kind
    case MemberJoined => Some(e.(kind := R.MemberJoined, member := JoinedMember(n, JoinedMeta(n))))
    case MemberStateUpdated =>
      Some(e.(kind := R.MemberUpdated, member := UpdatedMember(snapshot, n, Merged(snapshot, n)),
              memberRemoved := StringSlice(n.memberRemoved)))
    case MemberLeft => Some(e.(kind := R.MemberLeft, memberID := n.accountID))
    case MemberKicked => Some(e.(kind := R.MemberKicked, memberID := n.accountID))
    case MemberNewCaptain => Some(e.(kind := R.PartyUpdated, captainID := n.accountID))
    case PartyUpdated =>
      var updates := NormalizeAny(n.partyUpdated);
      Some(e.(kind := R.PartyUpdated, partyUpdates := updates, partyRemoved := StringSlice(n.partyRemoved),
              customKey := Get(updates, CUSTOM_KEY), playlist := R.ExtractPlaylist(Get(updates, SELECTED_ISLAND))))
    case Other => None
  }

  function Notified(p: Option<Party>, n: Notification, at: int, now: int): Option<Party> {
    match Decode(n, p, at)
    case None => p
    case Some(e) => Some(R.Reduce(p, e, now))
  }

  lemma NoIslandNoPlaylist()
    ensures R.ExtractPlaylist(EMPTY) == EMPTY
  {
  }

  class XMPPDecoder {
    const state: R.State

    constructor (state: R.State)
      ensures this.state == state
    {
      this.state := state;
    }

    /** handleMessage, as far as the state is concerned. */
    method HandleMessage(n: Notification, at: int, now: int)
      modifies state
      ensures state.party == Notified(old(state.party), n, at, now)
    {
      hide R.Reduce, R.ExtractReady, R.ExtractLoadout, R.ExtractPlaylist, R.Patched, NormalizeAny, StringSlice;
      var e := NO_EVENT.(partyID := n.partyID, revision := n.revision, at := at);
      match n.kind {
        case MemberJoined =>
          var meta := NormalizeAny(n.meta);
          if |meta| == 0 { meta := NormalizeAny(n.memberUpdated); }
          e := e.(kind := R.MemberJoined, member := JoinedMember(n, meta));
        case MemberStateUpdated =>
          var removed := ToStringSlice(n.memberRemoved);
          var snapshot := state.Snapshot();
          var merged: Meta := map[];
          if Known(snapshot, n.accountID).Some? { merged := Known(snapshot, n.accountID).value.meta; }
          merged := R.MergeMeta(merged, NormalizeAny(n.memberUpdated), removed);
          e := e.(kind := R.MemberUpdated, member := UpdatedMember(snapshot, n, merged), memberRemoved := removed);
        case MemberLeft => e := e.(kind := R.MemberLeft, memberID := n.accountID);
        case MemberKicked => e := e.(kind := R.MemberKicked, memberID := n.accountID);
        case MemberNewCaptain => e := e.(kind := R.PartyUpdated, captainID := n.accountID);
        case PartyUpdated =>
          var updates := NormalizeAny(n.partyUpdated);
          var removed := ToStringSlice(n.partyRemoved);
          e := e.(kind := R.PartyUpdated, partyUpdates := updates, partyRemoved := removed);
          if CUSTOM_KEY in updates { e := e.(customKey := updates[CUSTOM_KEY]); }
          NoIslandNoPlaylist();
          if SELECTED_ISLAND in updates { e := e.(playlist := R.ExtractPlaylist(updates[SELECTED_ISLAND])); }
        case Other => return;
      }
      var _ := state.ApplyEvent(e, now);
    }
  }

  // ---- a fetched party ----

  datatype RemoteMember = RemoteMember(accountID: string, displayName: string, role: string, joinedAt: int,
                                       revision: int, meta: Fields)

  datatype RemoteParty = RemoteParty(id: string, revision: int, meta: Fields, members: seq<RemoteMember>)

  function MapMember(rm: RemoteMember): Member {
    var meta := NormalizeMetaMap(rm.meta);
    Member(rm.accountID, rm.displayName, rm.role, R.ExtractReady(Get(meta, LOBBY)),
           R.ExtractLoadout(Get(meta, COSMETICS), Get(meta, EMOTE)), rm.joinedAt, rm.revision, meta)
  }

  function AddMembers(p: Party, members: seq<RemoteMember>): Party {
    if members == [] then p
    else
      var q := AddMembers(p, members[..|members| - 1]);
      var rm := members[|members| - 1];
      q.(members := q.members[rm.accountID := MapMember(rm)],
         captainID := if rm.role == "CAPTAIN" then rm.accountID else q.captainID)
  }

  function MappedHeader(rp: RemoteParty, now: int): Party {
    var meta := NormalizeMetaMap(rp.meta);
    ZERO_PARTY.(id := rp.id, revision := rp.revision, meta := meta, updatedAt := now,
                customKey := Get(meta, CUSTOM_KEY), regionID := Get(meta, REGION),
                playlist := R.ExtractPlaylist(Get(meta, SELECTED_ISLAND)))
  }

  /** mapRemoteParty. */
  method MapRemoteParty(rp: RemoteParty, now: int) returns (party: Party)
    ensures party == AddMembers(MappedHeader(rp, now), rp.members)
  {
    hide MappedHeader, MapMember;
    party := MappedHeader(rp, now);
    for i := 0 to |rp.members|
      invariant party == AddMembers(MappedHeader(rp, now), rp.members[..i])
    {
      assert rp.members[..i + 1][..i] == rp.members[..i];
      var rm := rp.members[i];
      party := party.(members := party.members[rm.accountID := MapMember(rm)]);
      if rm.role == "CAPTAIN" { party := party.(captainID := rm.accountID); }
    }
    assert rp.members[..|rp.members|] == rp.members;
  }

  // ---- coherence ----

  ghost predicate MemberCoherent(m: Member, accountID: string) {
    m.accountID == accountID && m.ready == R.ExtractReady(Get(m.meta, LOBBY))
  }

  ghost predicate HeaderCoherent(p: Party) {
    && (CUSTOM_KEY in p.meta ==> p.customKey == p.meta[CUSTOM_KEY])
    && (REGION in p.meta ==> p.regionID == p.meta[REGION])
    && (SELECTED_ISLAND in p.meta && R.ExtractPlaylist(p.meta[SELECTED_ISLAND]) != EMPTY ==>
          p.playlist == R.ExtractPlaylist(p.meta[SELECTED_ISLAND]))
  }

  ghost predicate Coherent(p: Option<Party>) {
    p.Some? ==> HeaderCoherent(p.value) && forall a | a in p.value.members :: MemberCoherent(p.value.members[a], a)
  }

  lemma SyncedIsCoherent(p: Party)
    ensures HeaderCoherent(R.SyncFromMeta(p)) && R.SyncFromMeta(p).members == p.members
  {
    hide R.ExtractPlaylist;
  }

  /** The decoder's merge and the reducer's give the same metadata, for a known member and an unknown one. */
  lemma MergesAgree(p: Option<Party>, n: Notification, at: int, now: int)
    requires Coherent(p) && n.kind.MemberStateUpdated? && n.accountID != ""
    ensures var after := Notified(p, n, at, now);
      after.Some? && n.accountID in after.value.members && after.value.members[n.accountID].meta == Merged(p, n)
  {
    hide R.ExtractReady, R.ExtractLoadout, R.ExtractPlaylist, R.Patched, R.MergeLoadout, NormalizeAny, StringSlice,
         HeaderCoherent;
    if p.Some? && n.accountID in p.value.members { assert MemberCoherent(p.value.members[n.accountID], n.accountID); }
    assert R.Prepared(p, Decode(n, p, at).value, now).members == if p.Some? then p.value.members else map[];
  }

  /** What every event does first leaves the header coherent when it brings no metadata. */
  lemma PreparedKeeps(p: Option<Party>, e: R.Event, now: int)
    requires Coherent(p)
    ensures forall a | a in R.Prepared(p, e, now).members :: MemberCoherent(R.Prepared(p, e, now).members[a], a)
    ensures R.Prepared(p, e, now).members == if p.Some? then p.value.members else map[]
    ensures e.partyUpdates == map[] && e.partyRemoved == [] ==> HeaderCoherent(R.Prepared(p, e, now))
  {
    hide R.ExtractReady, R.ExtractPlaylist;
    if p.Some? && e.partyUpdates == map[] && e.partyRemoved == [] {
      NothingPatched(p.value.meta);
    } else {
      NothingPatched(map[]);
    }
  }

  lemma NothingPatched(meta: Meta)
    ensures R.Patched(meta, map[], []) == meta
  {
    assert meta + map[] - {} == meta;
    assert R.Elements([]) == {};
  }

  /** An event other than an update of one member keeps coherence. */
  lemma EventKeeps(p: Option<Party>, e: R.Event, now: int)
    requires Coherent(p) && !e.kind.Unknown? && !e.kind.MemberUpdated?
    requires !e.kind.PartyUpdated? && !e.kind.PartySnapshot? ==> e.partyUpdates == map[] && e.partyRemoved == []
    requires e.kind.MemberJoined? ==> e.member.ready == R.ExtractReady(Get(e.member.meta, LOBBY))
    ensures Coherent(Some(R.Reduce(p, e, now)))
  {
    hide R.Prepared, R.SyncFromMeta, R.ExtractReady, HeaderCoherent;
    PreparedKeeps(p, e, now);
    var q := R.Prepared(p, e, now);
    SyncedIsCoherent(R.WithHeader(q, e));
    SyncedIsCoherent(R.WithHeader(q.(id := e.partyID, revision := e.revision), e));
    SameHeader(q, R.WithMember(q, e));
    SameHeader(q, R.WithoutMember(q, e.memberID));
  }

  lemma SameHeader(p: Party, q: Party)
    requires p.meta == q.meta && p.customKey == q.customKey && p.regionID == q.regionID && p.playlist == q.playlist
    ensures HeaderCoherent(p) ==> HeaderCoherent(q)
  {
    hide R.ExtractPlaylist;
  }

  /** An update of one member, decoded against the very state it is applied to. */
  lemma UpdateKeeps(p: Option<Party>, n: Notification, at: int, now: int)
    requires Coherent(p) && n.kind.MemberStateUpdated?
    ensures Coherent(Notified(p, n, at, now))
  {
    hide R.Prepared, R.ExtractReady, R.ExtractLoadout, R.MergeLoadout, HeaderCoherent, R.Patched, NormalizeAny,
         StringSlice;
    var e := Decode(n, p, at).value;
    PreparedKeeps(p, e, now);
    var q := R.Prepared(p, e, now);
    SameHeader(q, R.WithUpdate(q, e));
    if n.accountID != "" {
      MergesAgree(p, n, at, now);
      var after := Notified(p, n, at, now).value;
      assert MemberCoherent(after.members[n.accountID], n.accountID) by {
        assert e.member.ready != "";
        if n.accountID in q.members { assert MemberCoherent(q.members[n.accountID], n.accountID); }
      }
      assert forall a | a in after.members && a != n.accountID :: after.members[a] == q.members[a];
    }
  }

  lemma NotificationKeeps(p: Option<Party>, n: Notification, at: int, now: int)
    requires Coherent(p)
    ensures Coherent(Notified(p, n, at, now))
  {
    hide Coherent, R.Reduce, R.ExtractReady, R.ExtractLoadout, R.ExtractPlaylist, NormalizeAny, StringSlice;
    if n.kind.MemberStateUpdated? {
      UpdateKeeps(p, n, at, now);
    } else if !n.kind.Other? {
      EventKeeps(p, Decode(n, p, at).value, now);
    }
  }

  lemma {:induction false} MappedMembers(p: Party, members: seq<RemoteMember>)
    requires p.members == map[]
    ensures forall a | a in AddMembers(p, members).members :: MemberCoherent(AddMembers(p, members).members[a], a)
    ensures HeaderCoherent(p) ==> HeaderCoherent(AddMembers(p, members))
    decreases |members|
  {
    hide R.ExtractReady, R.ExtractLoadout, HeaderCoherent;
    if members == [] {
    } else {
      var init := members[..|members| - 1];
      MappedMembers(p, init);
      SameHeader(AddMembers(p, init), AddMembers(p, members));
    }
  }

  lemma MappedIsCoherent(rp: RemoteParty, now: int)
    ensures Coherent(Some(AddMembers(MappedHeader(rp, now), rp.members)))
  {
    hide R.ExtractPlaylist, AddMembers, MemberCoherent;
    MappedMembers(MappedHeader(rp, now), rp.members);
  }

  // ---- runs ----

  datatype Move =
    | Notify(n: Notification, at: int, now: int)
    | Fetch(rp: RemoteParty, now: int)
    | Leave

  function Next(p: Option<Party>, move: Move): Option<Party> {
    match move
    case Notify(n, at, now) => Notified(p, n, at, now)
    case Fetch(rp, now) => Some(AddMembers(MappedHeader(rp, now), rp.members))
    case Leave => Some(ZERO_PARTY)
  }

  function Run(p: Option<Party>, moves: seq<Move>): Option<Party> {
    if moves == [] then p else Next(Run(p, moves[..|moves| - 1]), moves[|moves| - 1])
  }

  /** Over every run of notifications, fetches and leavings, the cached fields agree with the metadata. */
  lemma {:induction false} CacheCoherent(moves: seq<Move>)
    ensures Coherent(Run(None, moves))
  {
    hide Notified, AddMembers, MappedHeader, MemberCoherent, HeaderCoherent;
    if moves == [] {
    } else {
      var before := moves[..|moves| - 1];
      CacheCoherent(before);
      match moves[|moves| - 1]
      case Notify(n, at, now) => NotificationKeeps(Run(None, before), n, at, now);
      case Fetch(rp, now) => MappedIsCoherent(rp, now);
      case Leave => SyncedIsCoherent(ZERO_PARTY); assert R.SyncFromMeta(ZERO_PARTY) == ZERO_PARTY;
    }
  }

  // ---- when the state changes between decoding and applying ----

  function MemberText(p: Option<Party>, accountID: string, key: string): Text {
    if p.Some? then Get(MemberOf(p.value, accountID).meta, key) else EMPTY
  }

  /**
   The decoder takes its snapshot and applies its event in two critical sections. If the party
   is replaced in between, the member's readiness still agrees with its metadata exactly when
   the notification touches the lobby state or the two parties agree on it.
   */
  lemma ReadyAfterRace(snapshot: Option<Party>, p: Option<Party>, n: Notification, at: int, now: int)
    requires Coherent(snapshot) && Coherent(p) && n.kind.MemberStateUpdated? && n.accountID != ""
    ensures var after := R.Reduce(p, Decode(n, snapshot, at).value, now);
      && n.accountID in after.members
      && (MemberCoherent(after.members[n.accountID], n.accountID)
          <==> LOBBY in NormalizeAny(n.memberUpdated) || LOBBY in StringSlice(n.memberRemoved)
               || R.ExtractReady(MemberText(snapshot, n.accountID, LOBBY))
                  == R.ExtractReady(MemberText(p, n.accountID, LOBBY)))
  {
    hide R.Prepared, R.ExtractReady, R.ExtractLoadout, R.MergeLoadout, HeaderCoherent, R.Patched, NormalizeAny,
         StringSlice;
    var e := Decode(n, snapshot, at).value;
    var updates, removed := NormalizeAny(n.memberUpdated), StringSlice(n.memberRemoved);
    PreparedKeeps(p, e, now);
    if snapshot.Some? && n.accountID in snapshot.value.members {
      assert MemberCoherent(snapshot.value.members[n.accountID], n.accountID);
    }
    var old_ := if Known(snapshot, n.accountID).Some? then Known(snapshot, n.accountID).value.meta else map[];
    R.PatchedAt(old_, updates, removed, LOBBY);
    var q := R.Prepared(p, e, now);
    if n.accountID in q.members { assert MemberCoherent(q.members[n.accountID], n.accountID); }
    R.PatchedAt(MemberOf(q, n.accountID).meta, updates, removed, LOBBY);
  }

  /** A fetched party with one member, who is ready. */
  function OneReady(): Party {
    var lobby := Canonical(Obj(map["LobbyState" := Obj(map["gameReadiness" := FromString(READY)])]));
    var member := ZERO_MEMBER.(accountID := "a", ready := READY, meta := map[LOBBY := lobby]);
    ZERO_PARTY.(id := "party", members := map["a" := member])
  }

  /**
   An instance: an update of this member's name is decoded before the party has been fetched, and
   applied afterwards. The member is then shown as not ready, while its metadata says it is.
   */
  lemma ReadinessLost(at: int, now: int)
    ensures var n := Notification(MemberStateUpdated, "party", "a", 1, "name", "", 0, None, None, None, None, None);
      var after := R.Reduce(Some(OneReady()), Decode(n, None, at).value, now);
      && Coherent(Some(OneReady())) && "a" in after.members
      && after.members["a"].ready == NOT_READY && R.ExtractReady(Get(after.members["a"].meta, LOBBY)) == READY
  {
    hide R.ExtractLoadout, R.ExtractPlaylist, R.MergeLoadout, R.ExtractReady, R.SyncFromMeta;
    ReadyTexts();
  }

  lemma ReadyTexts()
    ensures R.ExtractReady(EMPTY) == NOT_READY && R.ExtractReady(Get(OneReady().members["a"].meta, LOBBY)) == READY
  {
  }

  // ---- duplicates ----

  lemma PatchTwice(meta: Meta, updates: Meta, removed: seq<string>)
    ensures R.Patched(R.Patched(meta, updates, removed), updates, removed) == R.Patched(meta, updates, removed)
  {
  }

  /** What every event does first does nothing to a party that has been through it. */
  lemma PreparedStays(p: Option<Party>, e: R.Event, now: int, r: Party)
    requires var q := R.Prepared(p, e, now);
      r.id == q.id && r.revision == q.revision && r.updatedAt == q.updatedAt && r.meta == q.meta
    ensures R.Prepared(Some(r), e, now) == r
  {
    hide R.Patched;
    PatchTwice(if p.Some? then p.value.meta else map[], e.partyUpdates, e.partyRemoved);
  }

  lemma HeaderTwice(q: Party, e: R.Event)
    ensures var r := R.SyncFromMeta(R.WithHeader(q, e));
      && R.SyncFromMeta(R.WithHeader(r, e)) == r
      && r.id == q.id && r.revision == q.revision && r.updatedAt == q.updatedAt && r.meta == q.meta
  {
    hide R.ExtractPlaylist;
  }

  lemma EventTwice(p: Option<Party>, e: R.Event, now: int)
    requires e.kind.MemberJoined? || e.kind.MemberLeft? || e.kind.MemberKicked? || e.kind.PartyUpdated?
    ensures R.Reduce(Some(R.Reduce(p, e, now)), e, now) == R.Reduce(p, e, now)
  {
    hide R.Prepared, R.SyncFromMeta, R.WithHeader;
    var q := R.Prepared(p, e, now);
    HeaderTwice(q, e);
    PreparedStays(p, e, now, R.Reduce(p, e, now));
  }

  /** The member after the notification is one that the same notification does not change. */
  lemma MemberTwice(existing: Member, m: Member, e1: R.Event, e2: R.Event)
    requires m == R.MergedMember(existing, e1) && m.accountID != ""
    requires e1.memberRemoved == e2.memberRemoved && e1.member.meta == e2.member.meta
    requires e1.member.ready == e2.member.ready != "" && e1.member.loadout == e2.member.loadout
    requires e2.member.displayName in {"", m.displayName} && e2.member.role in {"", m.role}
    requires e2.member.joinedAt == 0 && e2.member.revision <= m.revision
    ensures R.MergedMember(m, e2) == m
  {
    hide R.Patched;
    PatchTwice(existing.meta, e1.member.meta, e1.memberRemoved);
  }

  /** Decoding again against the outcome gives an event that the outcome does not react to. */
  lemma DecodedTwice(p: Option<Party>, n: Notification, at: int, now: int, m: Member)
    requires Coherent(p) && n.kind.MemberStateUpdated? && n.accountID != ""
    requires var r := Notified(p, n, at, now);
      r.Some? && n.accountID in r.value.members && m == r.value.members[n.accountID]
    ensures var e1, e2 := Decode(n, p, at).value, Decode(n, Notified(p, n, at, now), at).value;
      && m.accountID == n.accountID
      && e1.member.ready == e2.member.ready != "" && e1.member.loadout == e2.member.loadout
      && e2.member.displayName in {"", m.displayName} && e2.member.role == e1.member.role
      && e2.member.role in {"", m.role}
      && e2.member.joinedAt == 0 && e2.member.revision <= m.revision
  {
    hide R.Prepared, R.ExtractReady, R.ExtractLoadout, R.MergeLoadout, HeaderCoherent, R.Patched, NormalizeAny,
         StringSlice;
    var e1 := Decode(n, p, at).value;
    MergesAgree(p, n, at, now);
    UpdateKeeps(p, n, at, now);
    PreparedKeeps(p, e1, now);
    var r := Notified(p, n, at, now);
    assert MemberCoherent(m, n.accountID);
    var updates, removed := NormalizeAny(n.memberUpdated), StringSlice(n.memberRemoved);
    PatchTwice(if Known(p, n.accountID).Some? then Known(p, n.accountID).value.meta else map[], updates, removed);
    assert Merged(r, n) == Merged(p, n);
    if p.Some? && n.accountID in p.value.members { assert MemberCoherent(p.value.members[n.accountID], n.accountID); }
  }

  lemma UpdateTwice(p: Option<Party>, n: Notification, at: int, now: int)
    requires Coherent(p) && n.kind.MemberStateUpdated?
    ensures Notified(Notified(p, n, at, now), n, at, now) == Notified(p, n, at, now)
  {
    hide R.Prepared, R.MergedMember, JoinedMember, Merged, UpdatedMember, NormalizeAny, StringSlice, Coherent;
    var e1 := Decode(n, p, at).value;
    var r := Notified(p, n, at, now).value;
    var e2 := Decode(n, Some(r), at).value;
    UpdatedIs(p, n);
    UpdatedIs(Some(r), n);
    PreparedStays(p, e1, now, r);
    SamePrepared(Some(r), e1, e2, now);
    if n.accountID != "" {
      var q := R.Prepared(p, e1, now);
      var m := r.members[n.accountID];
      DecodedTwice(p, n, at, now, m);
      MemberTwice(MemberOf(q, n.accountID), m, e1, e2);
      assert r.members[n.accountID := m] == r.members;
    }
  }

  lemma UpdatedIs(p: Option<Party>, n: Notification)
    ensures UpdatedMember(p, n, Merged(p, n)).accountID == n.accountID
    ensures UpdatedMember(p, n, Merged(p, n)).meta == NormalizeAny(n.memberUpdated)
  {
    hide R.ExtractReady, R.ExtractLoadout, NormalizeAny, Merged;
  }

  lemma SamePrepared(p: Option<Party>, e1: R.Event, e2: R.Event, now: int)
    requires e1.partyID == e2.partyID && e1.revision == e2.revision && e1.at == e2.at
    requires e1.partyUpdates == e2.partyUpdates && e1.partyRemoved == e2.partyRemoved
    ensures R.Prepared(p, e1, now) == R.Prepared(p, e2, now)
  {
    hide R.Patched;
  }

  /** A notification delivered twice, at the same clock reading, leaves the party as delivering it once does. */
  lemma DuplicateIsHarmless(p: Option<Party>, n: Notification, at: int, now: int)
    requires Coherent(p)
    ensures Notified(Notified(p, n, at, now), n, at, now) == Notified(p, n, at, now)
  {
    hide R.Reduce, Coherent, NormalizeAny, StringSlice, R.ExtractPlaylist, R.ExtractReady, R.ExtractLoadout;
    if n.kind.MemberStateUpdated? {
      UpdateTwice(p, n, at, now);
    } else if !n.kind.Other? {
      EventTwice(p, Decode(n, p, at).value, now);
    }
  }
}
