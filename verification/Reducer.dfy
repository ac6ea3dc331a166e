/** party/reducer.go, and the values party/commands.go derives from metadata: the local copy of the party. */
module Reducer {
  import opened GoStrings
  import opened Json
  import opened MetaCodec
  import opened PartyTypes

  // ---- values derived from metadata ----

  /** Reading a Go map of any values and printing the result; nil prints as `<nil>`. */
  function SprintAt(fields: Fields, key: string): Text {
    if key in fields then Sprint(fields[key]) else Plain("<nil>")
  }

  /** normalizePrintable, on an entry of a map. */
  function Printable(fields: Fields, key: string): Text {
    var s := SprintAt(fields, key);
    if s == Plain("<nil>") then EMPTY else s
  }

  function ExtractReady(raw: Text): (ready: string)
    ensures ready in {READY, NOT_READY}
  {
    var lobby := DecodeJsonMapValue(DecodeJsonMap(raw), "LobbyState");
    if SprintAt(lobby, "gameReadiness") == Plain(READY) then READY else NOT_READY
  }

  function ExtractLoadout(raw: Text, emoteRaw: Text): Loadout {
    var root := DecodeJsonMapValue(DecodeJsonMap(raw), "AthenaCosmeticLoadout");
    var emote := DecodeJsonMapValue(DecodeJsonMap(emoteRaw), "FrontendEmote");
    Loadout(Printable(root, "characterPrimaryAssetId"), Printable(root, "backpackDef"), Printable(root, "pickaxeDef"),
            Printable(emote, "pickable"))
  }

  /** The text `{}` is that of the empty object. */
  function ExtractPlaylist(raw: Text): Text {
    var island := DecodeJsonMapValue(DecodeJsonMap(raw), "SelectedIsland");
    var link := Printable(island, "LinkId");
    if link != EMPTY && link != Canonical(Obj(map[])) then link
    else Printable(DecodeJsonMapValue(island, "linkId"), "mnemonic")
  }

  // ---- the reducer ----

  datatype Kind = PartySnapshot | MemberJoined | MemberUpdated | MemberLeft | MemberKicked | PartyUpdated | Unknown

  datatype Event = Event(
    kind: Kind,
    partyID: string,
    revision: int,
    captainID: string,
    playlist: Text,
    customKey: Text,
    member: Member,
    memberID: string,
    partyUpdates: Meta,
    partyRemoved: seq<string>,
    memberRemoved: seq<string>,
    at: int)

  function Elements(keys: seq<string>): set<string> {
    set key | key in keys
  }

  /** Updates first, then removals: a key that is in both is gone. */
  function Patched(meta: Meta, updates: Meta, removed: seq<string>): Meta {
    meta + updates - Elements(removed)
  }

  /** What every event does before it is looked at. */
  function Prepared(p: Option<Party>, e: Event, now: int): Party {
    var q := match p
             case None => ZERO_PARTY.(id := e.partyID)
             case Some(q) => if q.id == "" && e.partyID != "" then q.(id := e.partyID) else q;
    q.(revision := if e.revision > q.revision then e.revision else q.revision,
       updatedAt := if e.at == 0 then now else e.at,
       meta := Patched(q.meta, e.partyUpdates, e.partyRemoved))
  }

  function SyncFromMeta(p: Party): Party {
    var playlist := if SELECTED_ISLAND in p.meta then ExtractPlaylist(p.meta[SELECTED_ISLAND]) else EMPTY;
    p.(customKey := if CUSTOM_KEY in p.meta then p.meta[CUSTOM_KEY] else p.customKey,
       regionID := if REGION in p.meta then p.meta[REGION] else p.regionID,
       playlist := if playlist != EMPTY then playlist else p.playlist)
  }

  /** The fields of the event that override the party's own, where they are not empty. */
  function WithHeader(p: Party, e: Event): Party {
    p.(captainID := if e.captainID != "" then e.captainID else p.captainID,
       playlist := if e.playlist != EMPTY then e.playlist else p.playlist,
       customKey := if e.customKey != EMPTY then e.customKey else p.customKey)
  }

  function WithMember(p: Party, e: Event): Party {
    var m := e.member.(joinedAt := if e.member.joinedAt == 0 then p.updatedAt else e.member.joinedAt);
    p.(members := p.members[m.accountID := m],
       captainID := if m.role == "CAPTAIN" || p.captainID == "" then m.accountID else p.captainID)
  }

  function OrElse(t: Text, default_: Text): Text {
    if t == EMPTY then default_ else t
  }

  function MergeLoadout(current: Loadout, updates: Loadout): Loadout {
    Loadout(OrElse(updates.character, current.character), OrElse(updates.backpack, current.backpack),
            OrElse(updates.pickaxe, current.pickaxe), OrElse(updates.emote, current.emote))
  }

  function MergedMember(existing: Member, e: Event): Member {
    var m := e.member;
    Member(if existing.accountID == "" then m.accountID else existing.accountID,
           if m.displayName != "" then m.displayName else existing.displayName,
           if m.role != "" then m.role else existing.role,
           if m.ready != "" then m.ready else existing.ready,
           MergeLoadout(existing.loadout, m.loadout),
           if m.joinedAt != 0 then m.joinedAt else existing.joinedAt,
           if m.revision > existing.revision then m.revision else existing.revision,
           Patched(existing.meta, m.meta, e.memberRemoved))
  }

  function WithUpdate(p: Party, e: Event): Party {
    p.(members := p.members[e.member.accountID := MergedMember(MemberOf(p, e.member.accountID), e)],
       captainID := if e.member.role == "CAPTAIN" then e.member.accountID else p.captainID)
  }

  function WithoutMember(p: Party, accountID: string): Party {
    p.(members := p.members - {accountID}, captainID := if p.captainID == accountID then "" else p.captainID)
  }

  function Reduce(before: Option<Party>, e: Event, now: int): Party {
    var p := Prepared(before, e, now);
    match e.kind
    case PartySnapshot => SyncFromMeta(WithHeader(p.(id := e.partyID, revision := e.revision), e))
    case MemberJoined => if e.member.accountID == "" then p else WithMember(p, e)
    case MemberUpdated => if e.member.accountID == "" then p else WithUpdate(p, e)
    case MemberLeft => if e.memberID == "" then p else WithoutMember(p, e.memberID)
    case MemberKicked => if e.memberID == "" then p else WithoutMember(p, e.memberID)
    case PartyUpdated => SyncFromMeta(WithHeader(p, e))
    case Unknown => p
  }

  lemma PatchedAt(meta: Meta, updates: Meta, removed: seq<string>, key: string)
    ensures Lookup(Patched(meta, updates, removed), key) ==
      if key in removed then None else if key in updates then Some(updates[key]) else Lookup(meta, key)
  {
  }

  lemma SameMap(a: Meta, b: Meta)
    requires forall key :: Lookup(a, key) == Lookup(b, key)
    ensures a == b
  {
    assert forall key :: key in a <==> Lookup(a, key).Some?;
    assert forall key :: key in b <==> Lookup(b, key).Some?;
    assert a.Keys == b.Keys;
    assert forall key | key in a :: Lookup(a, key).value == Lookup(b, key).value;
  }

  /** The two loops that merge metadata in place: updates, then removals. */
  method MergeMeta(meta: Meta, updates: Meta, removed: seq<string>) returns (out: Meta)
    ensures out == Patched(meta, updates, removed)
  {
    out := meta;
    var todo := updates.Keys;
    while todo != {}
      invariant todo <= updates.Keys
      invariant forall key :: Lookup(out, key) == if key in updates && key !in todo then Some(updates[key])
        else Lookup(meta, key)
    {
      var key :| key in todo;
      out := out[key := updates[key]];
      todo := todo - {key};
    }
    SameMap(out, meta + updates);
    for i := 0 to |removed|
      invariant out == meta + updates - Elements(removed[..i])
    {
      out := out - {removed[i]};
      assert Elements(removed[..i + 1]) == Elements(removed[..i]) + {removed[i]};
    }
    assert removed[..|removed|] == removed;
  }

  lemma NothingToMerge(current: Loadout)
    ensures MergeLoadout(current, NO_LOADOUT) == current
  {
  }

  method MergeMember(before: Member, e: Event) returns (existing: Member)
    ensures existing == MergedMember(before, e)
  {
    hide Patched, MergeLoadout;
    NothingToMerge(before.loadout);
    var m := e.member;
    existing := before;
    if existing.accountID == "" { existing := existing.(accountID := m.accountID); }
    if m.displayName != "" { existing := existing.(displayName := m.displayName); }
    if m.role != "" { existing := existing.(role := m.role); }
    if m.ready != "" { existing := existing.(ready := m.ready); }
    if m.loadout != NO_LOADOUT { existing := existing.(loadout := MergeLoadout(existing.loadout, m.loadout)); }
    if m.revision > existing.revision { existing := existing.(revision := m.revision); }
    if m.joinedAt != 0 { existing := existing.(joinedAt := m.joinedAt); }
    var meta := MergeMeta(existing.meta, m.meta, e.memberRemoved);
    existing := existing.(meta := meta);
  }

  class State {
    var party: Option<Party>

    constructor ()
      ensures party == None
    {
      party := None;
    }

    method Snapshot() returns (p: Option<Party>)
      ensures p == party
    {
      p := party;
    }

    method Replace(p: Party)
      modifies this
      ensures party == Some(p)
    {
      party := Some(p);
    }

    method SyncParty()
      requires party.Some?
      modifies this
      ensures party == Some(SyncFromMeta(old(party).value))
    {
      hide ExtractPlaylist;
      var p := party.value;
      if CUSTOM_KEY in p.meta { party := Some(party.value.(customKey := p.meta[CUSTOM_KEY])); }
      if REGION in p.meta { party := Some(party.value.(regionID := p.meta[REGION])); }
      if SELECTED_ISLAND in p.meta {
        var playlist := ExtractPlaylist(p.meta[SELECTED_ISLAND]);
        if playlist != EMPTY { party := Some(party.value.(playlist := playlist)); }
      }
    }

    /** ensureParty, bumpRevision, touch and applyPartyMeta. */
    method Prepare(e: Event, now: int)
      modifies this
      ensures party == Some(Prepared(old(party), e, now))
    {
      if party.None? {
        party := Some(ZERO_PARTY.(id := e.partyID));
      } else if party.value.id == "" && e.partyID != "" {
        party := Some(party.value.(id := e.partyID));
      }
      if e.revision > party.value.revision { party := Some(party.value.(revision := e.revision)); }
      party := Some(party.value.(updatedAt := if e.at == 0 then now else e.at));
      var meta := MergeMeta(party.value.meta, e.partyUpdates, e.partyRemoved);
      party := Some(party.value.(meta := meta));
    }

    method ApplyHeader(e: Event)
      requires party.Some?
      modifies this
      ensures party == Some(SyncFromMeta(WithHeader(old(party).value, e)))
    {
      hide SyncFromMeta;
      if e.captainID != "" { party := Some(party.value.(captainID := e.captainID)); }
      if e.playlist != EMPTY { party := Some(party.value.(playlist := e.playlist)); }
      if e.customKey != EMPTY { party := Some(party.value.(customKey := e.customKey)); }
      SyncParty();
    }

    method UpdateMember(e: Event)
      requires party.Some?
      modifies this
      ensures party == Some(WithUpdate(old(party).value, e))
    {
      hide MergedMember;
      var id := e.member.accountID;
      var existing := if id in party.value.members then party.value.members[id] else ZERO_MEMBER;
      existing := MergeMember(existing, e);
      if e.member.role == "CAPTAIN" { party := Some(party.value.(captainID := id)); }
      party := Some(party.value.(members := party.value.members[id := existing]));
    }

    method ApplyEvent(e: Event, now: int) returns (ok: bool)
      modifies this
      ensures party == Some(Reduce(old(party), e, now))
      ensures ok <==> !e.kind.Unknown?
    {
      hide Prepared, SyncFromMeta, MergedMember;
      ok := true;
      Prepare(e, now);
      match e.kind {
        case PartySnapshot =>
          party := Some(party.value.(id := e.partyID, revision := e.revision));
          ApplyHeader(e);
        case MemberJoined =>
          if e.member.accountID == "" { return; }
          var member := e.member;
          if member.joinedAt == 0 { member := member.(joinedAt := party.value.updatedAt); }
          party := Some(party.value.(members := party.value.members[member.accountID := member]));
          if member.role == "CAPTAIN" { party := Some(party.value.(captainID := member.accountID)); }
          if party.value.captainID == "" { party := Some(party.value.(captainID := member.accountID)); }
        case MemberUpdated =>
          if e.member.accountID == "" { return; }
          UpdateMember(e);
        case MemberLeft => if e.memberID != "" { RemoveMember(e.memberID); }
        case MemberKicked => if e.memberID != "" { RemoveMember(e.memberID); }
        case PartyUpdated => ApplyHeader(e);
        case Unknown => ok := false;
      }
    }

    method RemoveMember(id: string)
      requires party.Some?
      modifies this
      ensures party == Some(WithoutMember(old(party).value, id))
    {
      party := Some(party.value.(members := party.value.members - {id}));
      if party.value.captainID == id { party := Some(party.value.(captainID := "")); }
    }
  }
}
