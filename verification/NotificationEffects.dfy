/**
 What each event, and each notification, makes of the local party: which field of it is found
 where afterwards, and everything it leaves alone.
 */
module NotificationEffects {
  import opened GoStrings
  import opened Json
  import opened MetaCodec
  import opened PartyTypes
  import D = Decoder
  import R = Reducer

  function Before(p: Option<Party>): Party {
    if p.None? then ZERO_PARTY else p.value
  }

  function Larger(a: int, b: int): int {
    if a > b then a else b
  }

  /** What an event with this party, revision and time does to the header, whatever its kind. */
  predicate Headed(b: Party, q: Party, partyID: string, revision: int, at: int, now: int) {
    && q.id == (if b.id == "" then partyID else b.id)
    && q.revision == Larger(revision, b.revision)
    && q.updatedAt == if at == 0 then now else at
  }

  /** No other account's entry changes. */
  ghost predicate OthersStay(b: Party, q: Party, account: string) {
    forall a | a != account :: Lookup(q.members, a) == Lookup(b.members, a)
  }

  predicate PartyFieldsStay(b: Party, q: Party) {
    q.meta == b.meta && q.playlist == b.playlist && q.customKey == b.customKey && q.regionID == b.regionID
  }

  /** A metadata map after updates and removals, key by key. */
  ghost predicate Updated(before: Meta, after: Meta, updates: Meta, removed: seq<string>) {
    forall key :: Lookup(after, key)
      == if key in removed then None else if key in updates then Some(updates[key]) else Lookup(before, key)
  }

  // ---- events ----

  lemma PreparedEffect(p: Option<Party>, e: R.Event, now: int)
    ensures var b, q := Before(p), R.Prepared(p, e, now);
      && Headed(b, q, e.partyID, e.revision, e.at, now) && q.members == b.members && q.captainID == b.captainID
      && q.playlist == b.playlist && q.customKey == b.customKey && q.regionID == b.regionID
      && Updated(b.meta, q.meta, e.partyUpdates, e.partyRemoved)
      && (e.partyUpdates == map[] && e.partyRemoved == [] ==> q.meta == b.meta)
  {
    hide R.Patched;
    var b := Before(p);
    forall key {
      R.PatchedAt(b.meta, e.partyUpdates, e.partyRemoved, key);
    }
    D.NothingPatched(b.meta);
  }

  /** A member who joins is in the party, just as the event has it. */
  lemma JoinEffect(p: Option<Party>, e: R.Event, now: int)
    requires e.kind.MemberJoined? && e.partyUpdates == map[] && e.partyRemoved == []
    ensures var b, q, m := Before(p), R.Reduce(p, e, now), e.member;
      && Headed(b, q, e.partyID, e.revision, e.at, now) && PartyFieldsStay(b, q)
      && if m.accountID == "" then q.members == b.members && q.captainID == b.captainID
         else
           && m.accountID in q.members && OthersStay(b, q, m.accountID)
           && q.members[m.accountID] == m.(joinedAt := if m.joinedAt != 0 then m.joinedAt else q.updatedAt)
           && q.captainID == if m.role == "CAPTAIN" || b.captainID == "" then m.accountID else b.captainID
  {
    hide R.Prepared;
    PreparedEffect(p, e, now);
  }

  /** A member who leaves or is kicked is gone, and only that one. */
  lemma LeaveEffect(p: Option<Party>, e: R.Event, now: int)
    requires (e.kind.MemberLeft? || e.kind.MemberKicked?) && e.partyUpdates == map[] && e.partyRemoved == []
    ensures var b, q := Before(p), R.Reduce(p, e, now);
      && Headed(b, q, e.partyID, e.revision, e.at, now) && PartyFieldsStay(b, q)
      && if e.memberID == "" then q.members == b.members && q.captainID == b.captainID
         else
           && e.memberID !in q.members && OthersStay(b, q, e.memberID)
           && q.captainID == if b.captainID == e.memberID then "" else b.captainID
  {
    hide R.Prepared;
    PreparedEffect(p, e, now);
  }

  /** One field of the loadout after an update: the new text, or the old one where the new is empty. */
  function OrOld(new_: Text, old_: Text): Text {
    if new_ != EMPTY then new_ else old_
  }

  predicate Wears(m: Loadout, new_: Loadout, old_: Loadout) {
    && m.character == OrOld(new_.character, old_.character) && m.backpack == OrOld(new_.backpack, old_.backpack)
    && m.pickaxe == OrOld(new_.pickaxe, old_.pickaxe) && m.emote == OrOld(new_.emote, old_.emote)
  }

  /** What an update makes of a member that was `o`. */
  ghost predicate MemberUpdated(o: Member, m: Member, u: Member, removed: seq<string>) {
    && m.accountID == (if o.accountID != "" then o.accountID else u.accountID)
    && m.displayName == (if u.displayName != "" then u.displayName else o.displayName)
    && m.role == (if u.role != "" then u.role else o.role)
    && m.ready == (if u.ready != "" then u.ready else o.ready)
    && Wears(m.loadout, u.loadout, o.loadout)
    && m.joinedAt == (if u.joinedAt != 0 then u.joinedAt else o.joinedAt)
    && m.revision == Larger(u.revision, o.revision)
    && Updated(o.meta, m.meta, u.meta, removed)
  }

  lemma UpdateEffect(p: Option<Party>, e: R.Event, now: int)
    requires e.kind.MemberUpdated? && e.partyUpdates == map[] && e.partyRemoved == []
    ensures var b, q, u := Before(p), R.Reduce(p, e, now), e.member;
      && Headed(b, q, e.partyID, e.revision, e.at, now) && PartyFieldsStay(b, q)
      && if u.accountID == "" then q.members == b.members && q.captainID == b.captainID
         else
           && u.accountID in q.members && OthersStay(b, q, u.accountID)
           && MemberUpdated(MemberOf(b, u.accountID), q.members[u.accountID], u, e.memberRemoved)
           && q.captainID == if u.role == "CAPTAIN" then u.accountID else b.captainID
  {
    hide R.Prepared, R.MergedMember, MemberUpdated;
    PreparedEffect(p, e, now);
    MergedEffect(MemberOf(Before(p), e.member.accountID), e);
  }

  lemma MergedEffect(o: Member, e: R.Event)
    ensures MemberUpdated(o, R.MergedMember(o, e), e.member, e.memberRemoved)
  {
    hide R.Patched;
    forall key {
      R.PatchedAt(o.meta, e.member.meta, e.memberRemoved, key);
    }
  }

  /**
   The cached fields after an event for the whole party: from the metadata where it has them,
   else the event's, else the old ones.
   */
  predicate Cached(b: Party, q: Party, e: R.Event) {
    && q.captainID == (if e.captainID != "" then e.captainID else b.captainID)
    && q.customKey == (if "Default:CustomMatchKey_s" in q.meta then q.meta["Default:CustomMatchKey_s"]
                       else OrOld(e.customKey, b.customKey))
    && q.regionID == (if "Default:RegionId_s" in q.meta then q.meta["Default:RegionId_s"] else b.regionID)
    && q.playlist == OrOld(R.ExtractPlaylist(Get(q.meta, "Default:SelectedIsland_j")), OrOld(e.playlist, b.playlist))
  }

  lemma CachedFields(b: Party, p: Party, e: R.Event)
    requires p.captainID == b.captainID && p.customKey == b.customKey && p.regionID == b.regionID
      && p.playlist == b.playlist
    ensures Cached(b, R.SyncFromMeta(R.WithHeader(p, e)), e)
    ensures var q := R.SyncFromMeta(R.WithHeader(p, e));
      q.members == p.members && q.meta == p.meta && q.id == p.id && q.revision == p.revision
          && q.updatedAt == p.updatedAt
  {
    hide R.ExtractPlaylist;
    assert R.ExtractPlaylist(EMPTY) == EMPTY by { D.NoIslandNoPlaylist(); }
  }

  /** An update of the party changes its metadata entry by entry, and no member. */
  lemma PartyEffect(p: Option<Party>, e: R.Event, now: int)
    requires e.kind.PartyUpdated?
    ensures var b, q := Before(p), R.Reduce(p, e, now);
      && Headed(b, q, e.partyID, e.revision, e.at, now) && q.members == b.members
      && Updated(b.meta, q.meta, e.partyUpdates, e.partyRemoved) && Cached(b, q, e)
  {
    hide R.Prepared, R.SyncFromMeta, R.WithHeader, Cached;
    PreparedEffect(p, e, now);
    CachedFields(Before(p), R.Prepared(p, e, now), e);
  }

  /** A snapshot sets the party's id and its revision, even to a smaller one. */
  lemma SnapshotEffect(p: Option<Party>, e: R.Event, now: int)
    requires e.kind.PartySnapshot?
    ensures var b, q := Before(p), R.Reduce(p, e, now);
      && q.id == e.partyID && q.revision == e.revision && q.updatedAt == (if e.at == 0 then now else e.at)
      && q.members == b.members && Updated(b.meta, q.meta, e.partyUpdates, e.partyRemoved) && Cached(b, q, e)
  {
    hide R.Prepared, R.SyncFromMeta, R.WithHeader, Cached;
    PreparedEffect(p, e, now);
    CachedFields(Before(p), R.Prepared(p, e, now).(id := e.partyID, revision := e.revision), e);
  }

  // ---- payloads ----

  /** An entry of a payload's metadata: a string as it is, anything else as JSON. */
  function Spelled(payload: Option<Tree>, key: string): Option<Text> {
    var entry: Option<Tree> := Lookup(AsJsonMap(payload), key);
    match entry
    case None => None
    case Some(Atom(Str(s))) => Some(s)
    case Some(t) => Some(Marshal(t))
  }

  lemma NormalizedEntry(payload: Option<Tree>, key: string)
    ensures Lookup(D.NormalizeAny(payload), key) == Spelled(payload, key)
  {
    hide AsJsonMap;
  }

  /** The key that an item of a list of removed keys names: printed and trimmed, unless it is blank or nil. */
  predicate Names(item: Tree, key: string) {
    && Sprint(item).Plain? && TrimSpace(Sprint(item).chars) == key && key != "" && key != "<nil>"
  }

  lemma {:induction false} ListedKeys(items: seq<Tree>, key: string)
    ensures key in D.KeysOf(items) <==> exists i :: 0 <= i < |items| && Names(items[i], key)
  {
    hide TrimSpace;
    if items == [] {
    } else {
      var init, last := items[..|items| - 1], items[|items| - 1];
      ListedKeys(init, key);
      assert forall i | 0 <= i < |init| :: items[i] == init[i];
      assert D.KeyOf(last) == Some(key) <==> Names(last, key);
    }
  }

  /** A list of removed keys removes exactly the keys its items name. */
  lemma RemovedKeys(payload: Option<Tree>, key: string)
    ensures key in D.StringSlice(payload)
      <==> payload.Some? && payload.value.Arr?
           && exists i :: 0 <= i < |payload.value.items| && Names(payload.value.items[i], key)
  {
    hide Names;
    if payload.Some? && payload.value.Arr? { ListedKeys(payload.value.items, key); }
  }

  /** Metadata after a notification's updates and removals. */
  ghost predicate Notified(before: Meta, after: Meta, updated: Option<Tree>, removed: Option<Tree>) {
    forall key :: Lookup(after, key)
      == if key in D.StringSlice(removed) then None
         else if Spelled(updated, key).Some? then Spelled(updated, key) else Lookup(before, key)
  }

  lemma UpdatedIsNotified(before: Meta, after: Meta, updated: Option<Tree>, removed: Option<Tree>)
    requires Updated(before, after, D.NormalizeAny(updated), D.StringSlice(removed))
    ensures Notified(before, after, updated, removed)
  {
    hide D.NormalizeAny, D.StringSlice, Spelled;
    forall key
      ensures Lookup(after, key)
        == if key in D.StringSlice(removed) then None
           else if Spelled(updated, key).Some? then Spelled(updated, key) else Lookup(before, key)
    {
      NormalizedEntry(updated, key);
    }
  }

  // ---- notifications ----

  /** The local party after a notification, and what it was before. */
  function After(p: Option<Party>, n: D.Notification, at: int, now: int): Party {
    Before(D.Notified(p, n, at, now))
  }

  /** What is cached of a member's metadata. */
  predicate Shows(m: Member, ready: string, worn: Loadout) {
    && ready == R.ExtractReady(Get(m.meta, "Default:LobbyState_j"))
    && worn == R.ExtractLoadout(Get(m.meta, "Default:AthenaCosmeticLoadout_j"), Get(m.meta, "Default:FrontendEmote_j"))
  }

  /** MEMBER_JOINED: the account is in the party, as the notification describes it. */
  lemma Joined(p: Option<Party>, n: D.Notification, at: int, now: int)
    requires n.kind.MemberJoined?
    ensures var b, q := Before(p), After(p, n, at, now);
      && Headed(b, q, n.partyID, n.revision, at, now) && PartyFieldsStay(b, q)
      && if n.accountID == "" then q.members == b.members && q.captainID == b.captainID
         else
           && n.accountID in q.members && OthersStay(b, q, n.accountID)
           && q.captainID == (if n.role == "CAPTAIN" || b.captainID == "" then n.accountID else b.captainID)
           && var m := q.members[n.accountID];
             && m.accountID == n.accountID && m.displayName == n.displayName && m.role == n.role
             && m.revision == n.revision
             && m.joinedAt == (if n.joinedAt != 0 then n.joinedAt else if at == 0 then now else at)
             && Notified(map[], m.meta, if AsJsonMap(n.meta) != map[] then n.meta else n.memberUpdated, None)
             && Shows(m, m.ready, m.loadout)
  {
    hide R.Reduce, R.ExtractReady, R.ExtractLoadout, D.NormalizeAny, AsJsonMap, Spelled, D.StringSlice;
    var e := D.Decode(n, p, at).value;
    JoinEffect(p, e, now);
    var payload := if AsJsonMap(n.meta) != map[] then n.meta else n.memberUpdated;
    JoinedMetaIs(n);
    forall key {
      NormalizedEntry(payload, key);
    }
    NothingRemoved();
    JoinedShows(n, D.NormalizeAny(payload));
  }

  lemma NothingRemoved()
    ensures D.StringSlice(None) == []
  {
  }

  lemma JoinedMetaIs(n: D.Notification)
    ensures D.JoinedMeta(n) == D.NormalizeAny(if AsJsonMap(n.meta) != map[] then n.meta else n.memberUpdated)
  {
    hide AsJsonMap;
    var meta := D.NormalizeAny(n.meta);
    assert meta.Keys == AsJsonMap(n.meta).Keys;
    assert |meta| == 0 <==> AsJsonMap(n.meta) == map[];
  }

  lemma JoinedShows(n: D.Notification, meta: Meta)
    ensures var m := D.JoinedMember(n, meta); m.meta == meta && Shows(m, m.ready, m.loadout)
  {
    hide R.ExtractReady, R.ExtractLoadout;
  }

  /** MEMBER_LEFT and MEMBER_KICKED: exactly that account is gone. */
  lemma Left(p: Option<Party>, n: D.Notification, at: int, now: int)
    requires n.kind.MemberLeft? || n.kind.MemberKicked?
    ensures var b, q := Before(p), After(p, n, at, now);
      && Headed(b, q, n.partyID, n.revision, at, now) && PartyFieldsStay(b, q)
      && if n.accountID == "" then q.members == b.members && q.captainID == b.captainID
         else
           && n.accountID !in q.members && OthersStay(b, q, n.accountID)
           && q.captainID == if b.captainID == n.accountID then "" else b.captainID
  {
    hide R.Reduce;
    LeaveEffect(p, D.Decode(n, p, at).value, now);
  }

  /** MEMBER_NEW_CAPTAIN: the captain is that account; members and metadata stay. */
  lemma NewCaptain(p: Option<Party>, n: D.Notification, at: int, now: int)
    requires n.kind.MemberNewCaptain? && D.Coherent(p)
    ensures var b, q := Before(p), After(p, n, at, now);
      && Headed(b, q, n.partyID, n.revision, at, now) && PartyFieldsStay(b, q) && q.members == b.members
      && q.captainID == if n.accountID != "" then n.accountID else b.captainID
  {
    hide R.Reduce, R.ExtractPlaylist;
    var e := D.Decode(n, p, at).value;
    PartyEffect(p, e, now);
    SameEntries(Before(p).meta, After(p, n, at, now).meta);
    assert R.ExtractPlaylist(EMPTY) == EMPTY by { D.NoIslandNoPlaylist(); }
  }

  lemma SameEntries(before: Meta, after: Meta)
    requires Updated(before, after, map[], [])
    ensures after == before
  {
    forall key
      ensures Lookup(after, key) == Lookup(before, key)
    {
    }
    R.SameMap(after, before);
  }

  /** PARTY_UPDATED: the metadata changes entry by entry, and the cached fields with it. */
  lemma PartyChanged(p: Option<Party>, n: D.Notification, at: int, now: int)
    requires n.kind.PartyUpdated?
    ensures var b, q := Before(p), After(p, n, at, now);
      && Headed(b, q, n.partyID, n.revision, at, now) && q.members == b.members && q.captainID == b.captainID
      && Notified(b.meta, q.meta, n.partyUpdated, n.partyRemoved)
      && q.regionID == (if "Default:RegionId_s" in q.meta then q.meta["Default:RegionId_s"] else b.regionID)
      && q.customKey
         == (if "Default:CustomMatchKey_s" in q.meta then q.meta["Default:CustomMatchKey_s"]
             else OrOld(Get(D.NormalizeAny(n.partyUpdated), "Default:CustomMatchKey_s"), b.customKey))
      && q.playlist
         == OrOld(R.ExtractPlaylist(Get(q.meta, "Default:SelectedIsland_j")),
                  OrOld(R.ExtractPlaylist(Get(D.NormalizeAny(n.partyUpdated), "Default:SelectedIsland_j")), b.playlist))
  {
    hide R.Reduce, R.ExtractPlaylist, D.NormalizeAny, D.StringSlice, Updated, Notified;
    PartyEffect(p, D.Decode(n, p, at).value, now);
    UpdatedIsNotified(Before(p).meta, After(p, n, at, now).meta, n.partyUpdated, n.partyRemoved);
  }

  /**
   MEMBER_STATE_UPDATED: the member's metadata changes entry by entry; names and numbers that are
   missing stay; what is cached is read from the new metadata, and a loadout field of which that
   has nothing stays.
   */
  lemma StateUpdated(p: Option<Party>, n: D.Notification, at: int, now: int)
    requires n.kind.MemberStateUpdated? && n.accountID != "" && D.Coherent(p)
    ensures var b, q := Before(p), After(p, n, at, now);
      && Headed(b, q, n.partyID, n.revision, at, now) && PartyFieldsStay(b, q)
      && n.accountID in q.members && OthersStay(b, q, n.accountID)
      && var o, m := MemberOf(b, n.accountID), q.members[n.accountID];
        && m.accountID == n.accountID && m.joinedAt == o.joinedAt
        && m.displayName == (if n.displayName != "" then n.displayName else o.displayName)
        && m.role == (if n.role != "" then n.role else o.role)
        && m.revision == (if n.revision != 0 then Larger(n.revision, o.revision) else o.revision)
        && Notified(o.meta, m.meta, n.memberUpdated, n.memberRemoved)
        && (exists worn :: Shows(m, m.ready, worn) && Wears(m.loadout, worn, o.loadout))
        && q.captainID == if m.role == "CAPTAIN" then n.accountID else b.captainID
  {
    hide R.Reduce, R.ExtractReady, R.ExtractLoadout, D.NormalizeAny, D.StringSlice, Updated, Notified, R.Patched, Wears,
         D.HeaderCoherent;
    var e := D.Decode(n, p, at).value;
    UpdateEffect(p, e, now);
    var o, m := MemberOf(Before(p), n.accountID), After(p, n, at, now).members[n.accountID];
    if p.Some? && n.accountID in p.value.members { assert D.MemberCoherent(p.value.members[n.accountID], n.accountID); }
    UpdatedIsNotified(o.meta, m.meta, n.memberUpdated, n.memberRemoved);
    D.MergesAgree(p, n, at, now);
    UpdatedShows(p, n, m);
    assert Shows(m, e.member.ready, e.member.loadout) && Wears(m.loadout, e.member.loadout, o.loadout);
  }

  lemma UpdatedShows(p: Option<Party>, n: D.Notification, m: Member)
    requires m.meta == D.Merged(p, n)
    ensures var u := D.UpdatedMember(p, n, D.Merged(p, n)); Shows(m, u.ready, u.loadout) && u.ready != ""
  {
    hide R.ExtractLoadout, D.Merged;
  }

  /** Any other notification changes nothing. */
  lemma NothingElse(p: Option<Party>, n: D.Notification, at: int, now: int)
    requires n.kind.Other?
    ensures D.Notified(p, n, at, now) == p
  {
  }

  // ---- a fetched party ----

  function Last(members: seq<D.RemoteMember>, account: string): Option<D.RemoteMember> {
    if members == [] then None
    else if members[|members| - 1].accountID == account then Some(members[|members| - 1])
    else Last(members[..|members| - 1], account)
  }

  /** The last entry for the account, if there is any. */
  lemma {:induction false} LastIs(members: seq<D.RemoteMember>, account: string)
    ensures Last(members, account).Some? <==> exists i :: 0 <= i < |members| && members[i].accountID == account
    ensures Last(members, account).Some? ==>
      exists i :: 0 <= i < |members| && members[i].accountID == account && members[i] == Last(members, account).value
        && forall j | i < j < |members| :: members[j].accountID != account
  {
    if members == [] {
    } else if members[|members| - 1].accountID == account {
      assert members[|members| - 1].accountID == account;
    } else {
      var init := members[..|members| - 1];
      LastIs(init, account);
      assert forall i | 0 <= i < |init| :: init[i] == members[i];
      if Last(init, account).Some? {
        var i :| 0 <= i < |init| && init[i].accountID == account && init[i] == Last(init, account).value
          && forall j | i < j < |init| :: init[j].accountID != account;
        assert members[i].accountID == account;
        forall j | i < j < |members|
          ensures members[j].accountID != account
        {
          if j < |init| { assert init[j] == members[j]; }
        }
      }
    }
  }

  /** The entries of a remote metadata map: strings as they are, anything else as JSON. */
  ghost predicate Carried(meta: Meta, remote: Fields) {
    forall key :: Lookup(meta, key) == Spelled(Some(Obj(remote)), key)
  }

  lemma CarriedOver(remote: Fields)
    ensures Carried(NormalizeMetaMap(remote), remote)
  {
    forall key {
      NormalizedEntry(Some(Obj(remote)), key);
    }
  }

  /** A member of the fetched party is as its entry describes it. */
  ghost predicate IsEntry(m: Member, rm: D.RemoteMember) {
    && m.accountID == rm.accountID && m.displayName == rm.displayName && m.role == rm.role && m.joinedAt == rm.joinedAt
    && m.revision == rm.revision && Carried(m.meta, rm.meta) && Shows(m, m.ready, m.loadout)
  }

  lemma MappedIsEntry(rm: D.RemoteMember)
    ensures IsEntry(D.MapMember(rm), rm)
  {
    hide R.ExtractReady, R.ExtractLoadout, Carried;
    CarriedOver(rm.meta);
  }

  /** The account of the last entry with the captain's role, or what there was before. */
  function CaptainOf(members: seq<D.RemoteMember>, before: string): string {
    if members == [] then before
    else if members[|members| - 1].role == "CAPTAIN" then members[|members| - 1].accountID
    else CaptainOf(members[..|members| - 1], before)
  }

  lemma {:induction false} AddedMembers(p: Party, members: seq<D.RemoteMember>, account: string)
    requires p.members == map[]
    ensures var q := D.AddMembers(p, members);
      && (account in q.members <==> Last(members, account).Some?)
      && (account in q.members ==> IsEntry(q.members[account], Last(members, account).value))
      && q.captainID == CaptainOf(members, p.captainID)
      && q == p.(members := q.members, captainID := q.captainID)
    decreases |members|
  {
    hide D.MapMember, IsEntry;
    if members == [] {
    } else {
      AddedMembers(p, members[..|members| - 1], account);
      MappedIsEntry(members[|members| - 1]);
    }
  }

  /**
   What a fetched party is: the header and the metadata of the answer, a member for each account
   that it lists, as the last entry for it says, and the last captain it names.
   */
  lemma FetchedParty(rp: D.RemoteParty, now: int, account: string)
    ensures var q := D.AddMembers(D.MappedHeader(rp, now), rp.members);
      && q.id == rp.id && q.revision == rp.revision && q.updatedAt == now && Carried(q.meta, rp.meta)
      && q.customKey == Get(q.meta, "Default:CustomMatchKey_s") && q.regionID == Get(q.meta, "Default:RegionId_s")
      && q.playlist == R.ExtractPlaylist(Get(q.meta, "Default:SelectedIsland_j"))
      && (account in q.members <==> exists i :: 0 <= i < |rp.members| && rp.members[i].accountID == account)
      && (account in q.members ==>
            && Last(rp.members, account).Some?
            && IsEntry(q.members[account], Last(rp.members, account).value))
      && q.captainID == CaptainOf(rp.members, "")
  {
    hide R.ExtractPlaylist, IsEntry, Carried;
    AddedMembers(D.MappedHeader(rp, now), rp.members, account);
    CarriedOver(rp.meta);
    LastIs(rp.members, account);
  }

  /** The captain is the last entry that has the role. */
  lemma {:induction false} CaptainIsLast(members: seq<D.RemoteMember>, i: nat)
    requires i < |members| && members[i].role == "CAPTAIN"
    requires forall j | i < j < |members| :: members[j].role != "CAPTAIN"
    ensures CaptainOf(members, "") == members[i].accountID
  {
    if i < |members| - 1 { CaptainIsLast(members[..|members| - 1], i); }
  }

  lemma {:induction false} NoCaptain(members: seq<D.RemoteMember>)
    requires forall j | 0 <= j < |members| :: members[j].role != "CAPTAIN"
    ensures CaptainOf(members, "") == ""
  {
    if members != [] { NoCaptain(members[..|members| - 1]); }
  }
}
