/**
 The builder writes metadata, the reducer and the fetch read it: what an intent asked for is
 what the client shows afterwards, and where it is not.
 */
module Readback {
  import opened GoStrings
  import opened Json
  import opened MetaCodec
  import opened PartyTypes
  import opened PatchPlan
  import D = Decoder
  import I = IntentFields
  import K = PatchKeeps
  import R = Reducer

  /** Metadata that settles a readiness goal reads as that readiness. */
  lemma ReadyReadsBack(text: Text, ready: string)
    requires ready in {READY, NOT_READY}
    requires Settled(LOBBY, text, Within("LobbyState", ReadyWrites(ready)))
    ensures R.ExtractReady(text) == ready
  {
    var lobby := DecodeJsonMapValue(DecodeJsonMap(text), "LobbyState");
    assert "gameReadiness" in ReadyWrites(ready);
    assert lobby["gameReadiness"] == FromString(ready);
    assert READY != NOT_READY by { assert |READY| != |NOT_READY|; }
  }

  /** The text a requested string reads back as. */
  function Shown(s: string): Text {
    if s == "<nil>" then EMPTY else Plain(s)
  }

  /**
   Metadata that settles a playlist goal reads as the requested playlist, in lower case, exactly
   when the island carries no other link: an old `LinkId`, which the builder keeps, wins.
   */
  lemma PlaylistReadsBack(text: Text, playlistID: string)
    requires Settled(SELECTED_ISLAND, text, Within("SelectedIsland", LinkWrites(playlistID)))
    ensures var island := DecodeJsonMapValue(DecodeJsonMap(text), "SelectedIsland");
      var link := R.Printable(island, "LinkId");
      R.ExtractPlaylist(text) == Shown(ToLower(playlistID))
      <==> link in {EMPTY, Canonical(Obj(map[])), Shown(ToLower(playlistID))}
  {
    hide ToLower;
    var island := DecodeJsonMapValue(DecodeJsonMap(text), "SelectedIsland");
    assert "linkId" in LinkWrites(playlistID);
    var linkId := DecodeJsonMapValue(island, "linkId");
    assert linkId["mnemonic"] == FromString(ToLower(playlistID));
    assert R.Printable(linkId, "mnemonic") == Shown(ToLower(playlistID));
  }

  /** Metadata that settles the cosmetic goal of an intent with an outfit shows that outfit. */
  lemma OutfitReadsBack(text: Text, emoteText: Text, i: Intent)
    requires OutfitOf(i) != "" && Settled(COSMETICS, text, Within("AthenaCosmeticLoadout", CosmeticWrites(i)))
    ensures R.ExtractLoadout(text, emoteText).character == Plain("AthenaCharacter:" + OutfitOf(i))
  {
    hide OutfitOf, LoadoutOf;
    var root := DecodeJsonMapValue(DecodeJsonMap(text), "AthenaCosmeticLoadout");
    assert "characterPrimaryAssetId" in CosmeticWrites(i);
    assert root["characterPrimaryAssetId"] == FromString("AthenaCharacter:" + OutfitOf(i));
    assert ("AthenaCharacter:" + OutfitOf(i))[0] == 'A';
  }

  /** Metadata that settles the emote goal of an intent with an emote shows that emote. */
  lemma EmoteReadsBack(text: Text, lookText: Text, i: Intent)
    requires EmoteOf(i) != "" && Settled(EMOTE, text, Within("FrontendEmote", EmoteWrites(i)))
    ensures R.ExtractLoadout(lookText, text).emote == Shown(BuildEmotePath(EmoteOf(i)))
  {
    hide EmoteOf, LoadoutOf, BuildEmotePath;
    var root := DecodeJsonMapValue(DecodeJsonMap(text), "FrontendEmote");
    assert "pickable" in EmoteWrites(i);
    assert root["pickable"] == FromString(BuildEmotePath(EmoteOf(i)));
  }

  lemma PlannedGoals(i: Intent, at: int)
    ensures i.ready.Some?
      ==> LOBBY in MemberPlan(i, at) && MemberPlan(i, at)[LOBBY] == Within("LobbyState", ReadyWrites(i.ready.value))
    ensures OutfitOf(i) != "" ==>
      COSMETICS in MemberPlan(i, at)
          && MemberPlan(i, at)[COSMETICS] == Within("AthenaCosmeticLoadout", CosmeticWrites(i))
    ensures EmoteOf(i) != "" ==>
      EMOTE in MemberPlan(i, at) && MemberPlan(i, at)[EMOTE] == Within("FrontendEmote", EmoteWrites(i))
  {
    hide MemberPlan, ReadyWrites, IslandWrites, CosmeticWrites, EmoteWrites, OutfitOf, EmoteOf, LoadoutEmotes,
         I.Dresses,
         I.Emotes, NormalizeOutfitID;
    I.PartsOf(i);
    I.MemberKeys(i, at);
  }

  lemma PlannedKey(i: Intent)
    ensures i.customKey.Some? ==>
      CUSTOM_KEY in PartyPlan(i) && PartyPlan(i)[CUSTOM_KEY] == Is(FromString(TrimSpace(i.customKey.value)))
  {
    hide PartyPlan, LinkWrites, TrimSpace;
    I.PartyKeys(i);
  }

  /**
   Once the service's metadata meets an intent, as it does after every call that returns
   without an error, a fetch shows the requested readiness, outfit, emote and custom key.
   */
  lemma IntentShows(partyMeta: Meta, memberMeta: Meta, i: Intent, at: int)
    requires AllSettled(partyMeta, PartyPlan(i)) && AllSettled(memberMeta, MemberPlan(i, at))
    ensures i.ready.Some? && i.ready.value in {READY, NOT_READY}
      ==> R.ExtractReady(Get(memberMeta, LOBBY)) == i.ready.value
    ensures var loadout := R.ExtractLoadout(Get(memberMeta, COSMETICS), Get(memberMeta, EMOTE));
      && (OutfitOf(i) != "" ==> loadout.character == Plain("AthenaCharacter:" + OutfitOf(i)))
      && (EmoteOf(i) != "" ==> loadout.emote == Shown(BuildEmotePath(EmoteOf(i))))
    ensures i.customKey.Some? ==> Get(partyMeta, CUSTOM_KEY) == Plain(TrimSpace(i.customKey.value))
  {
    hide MemberPlan, PartyPlan, R.ExtractReady, R.ExtractLoadout, ReadyWrites, CosmeticWrites, EmoteWrites, OutfitOf,
         EmoteOf, BuildEmotePath,
         Settled, Shown, TrimSpace;
    PlannedGoals(i, at);
    PlannedKey(i);
    var look, emote := Get(memberMeta, COSMETICS), Get(memberMeta, EMOTE);
    if i.ready.Some? && i.ready.value in {READY, NOT_READY} { ReadyReadsBack(Get(memberMeta, LOBBY), i.ready.value); }
    if OutfitOf(i) != "" { OutfitReadsBack(look, emote, i); }
    if EmoteOf(i) != "" { EmoteReadsBack(emote, look, i); }
    if i.customKey.Some? { CustomKeyReadsBack(Get(partyMeta, CUSTOM_KEY), TrimSpace(i.customKey.value)); }
  }

  lemma CustomKeyReadsBack(text: Text, value: string)
    requires Settled(CUSTOM_KEY, text, Is(FromString(value)))
    ensures text == Plain(value)
  {
    hide HasSuffix;
  }

  lemma PlannedIsland(i: Intent)
    ensures i.playlist.Some? ==>
      SELECTED_ISLAND in PartyPlan(i)
          && PartyPlan(i)[SELECTED_ISLAND] == Within("SelectedIsland", LinkWrites(i.playlist.value.playlistID))
  {
    hide PartyPlan, LinkWrites;
    I.PartyKeys(i);
  }

  /** The island that the metadata, or the template in its stead, holds before a call. */
  function IslandBefore(template: Meta, meta: Meta): Fields {
    AsJsonMap(Lookup(Start(template, meta, SELECTED_ISLAND), "SelectedIsland"))
  }

  /** The patch of a playlist intent keeps every field of the island but the one it writes. */
  lemma IslandAfter(template: Meta, meta: Meta, plan: Plan, playlistID: string, field: string)
    requires WellKeyed(plan) && SELECTED_ISLAND in plan
      && plan[SELECTED_ISLAND] == Within("SelectedIsland", LinkWrites(playlistID))
    requires field != "linkId"
    ensures var after := Get(Patched(meta, Updates(template, meta, plan)), SELECTED_ISLAND);
      Lookup(DecodeJsonMapValue(DecodeJsonMap(after), "SelectedIsland"), field)
          == Lookup(IslandBefore(template, meta), field)
  {
    hide HasSuffix, Baseline, Updates, Settled, ToLower;
    var key, start, writes := SELECTED_ISLAND, Start(template, meta, SELECTED_ISLAND), LinkWrites(playlistID);
    UpdateIff(template, meta, plan, key);
    if key in Updates(template, meta, plan) {
      K.PlannedOnly(template, meta, plan, key);
      K.SentText(template, meta, meta, plan, key);
      StartIsRead(template, meta, key);
      assert DecodeJsonMap(Canonical(Obj(Edit(start, "SelectedIsland", writes))))
        == Edit(start, "SelectedIsland", writes);
    } else {
      I.StoredRoot(key, Get(meta, key), "SelectedIsland", writes);
    }
  }

  /**
   After a playlist intent has been carried out on the service's metadata, the requested playlist,
   in lower case, is shown exactly when the island had no other printable `LinkId` before the
   call: the builder keeps that field, and it wins.
   */
  lemma PlaylistShows(template: Meta, meta: Meta, i: Intent)
    requires i.playlist.Some?
    ensures var id := Shown(ToLower(i.playlist.value.playlistID));
      var after := Patched(meta, Updates(template, meta, PartyPlan(i)));
      R.ExtractPlaylist(Get(after, SELECTED_ISLAND)) == id
      <==> R.Printable(IslandBefore(template, meta), "LinkId") in {EMPTY, Canonical(Obj(map[])), id}
  {
    hide PartyPlan, Settled, Updates, LinkWrites, IslandBefore, WellKeyed, ToLower, Shown, R.ExtractPlaylist;
    PlannedIsland(i);
    PlansWellKeyed(i, 0);
    PatchedSettles(template, meta, PartyPlan(i));
    var after := Get(Patched(meta, Updates(template, meta, PartyPlan(i))), SELECTED_ISLAND);
    assert "LinkId"[0] != "linkId"[0];
    IslandAfter(template, meta, PartyPlan(i), i.playlist.value.playlistID, "LinkId");
    PlaylistReadsBack(after, i.playlist.value.playlistID);
  }

  /** An instance: the island names a playlist in its `LinkId`, and goes on being shown whatever is asked for. */
  lemma PlaylistHidden()
    ensures var island := Canonical(Obj(map["SelectedIsland" := Obj(map["LinkId" := FromString("duo")])]));
      var meta := map[SELECTED_ISLAND := island];
      var i := Intent(None, Some(PlaylistRequest("solo", "", false)), None, None, None, None, false);
      var after := Patched(meta, Updates(map[], meta, PartyPlan(i)));
      R.ExtractPlaylist(Get(after, SELECTED_ISLAND)) != Shown(ToLower("solo"))
  {
    hide PartyPlan, Updates, Patched, R.ExtractPlaylist;
    var island := Canonical(Obj(map["SelectedIsland" := Obj(map["LinkId" := FromString("duo")])]));
    var i := Intent(None, Some(PlaylistRequest("solo", "", false)), None, None, None, None, false);
    assert IslandBefore(map[], map[SELECTED_ISLAND := island]) == map["LinkId" := FromString("duo")];
    assert |ToLower("solo")| == 4 && |"duo"| == 3;
    PlaylistShows(map[], map[SELECTED_ISLAND := island], i);
  }

  // ---- through a fetch ----

  lemma {:induction false} MappedLoadouts(p: Party, members: seq<D.RemoteMember>)
    requires p.members == map[]
    ensures var q := D.AddMembers(p, members);
      forall a | a in q.members ::
          q.members[a].loadout == R.ExtractLoadout(Get(q.members[a].meta, COSMETICS), Get(q.members[a].meta, EMOTE))
    ensures var q := D.AddMembers(p, members);
      q.meta == p.meta && q.customKey == p.customKey && q.playlist == p.playlist
    decreases |members|
  {
    hide R.ExtractReady, R.ExtractLoadout;
    if members == [] {
    } else {
      MappedLoadouts(p, members[..|members| - 1]);
    }
  }

  /** What a fetched party shows of an intent that its metadata meets. */
  lemma FetchShows(rp: D.RemoteParty, now: int, account: string, i: Intent, at: int)
    requires var p := D.AddMembers(D.MappedHeader(rp, now), rp.members);
      && account in p.members && AllSettled(p.meta, PartyPlan(i))
      && AllSettled(p.members[account].meta, MemberPlan(i, at))
    ensures var p := D.AddMembers(D.MappedHeader(rp, now), rp.members);
      var m := p.members[account];
      && (i.ready.Some? && i.ready.value in {READY, NOT_READY} ==> m.ready == i.ready.value)
      && (OutfitOf(i) != "" ==> m.loadout.character == Plain("AthenaCharacter:" + OutfitOf(i)))
      && (EmoteOf(i) != "" ==> m.loadout.emote == Shown(BuildEmotePath(EmoteOf(i))))
      && (i.customKey.Some? ==> p.customKey == Plain(TrimSpace(i.customKey.value)))
      && p.playlist == R.ExtractPlaylist(Get(p.meta, SELECTED_ISLAND))
  {
    hide R.ExtractReady, R.ExtractLoadout, R.ExtractPlaylist, PartyPlan, MemberPlan, AllSettled, OutfitOf, EmoteOf,
         BuildEmotePath, Shown, TrimSpace,
         D.AddMembers;
    var header := D.MappedHeader(rp, now);
    var p := D.AddMembers(header, rp.members);
    D.MappedMembers(header, rp.members);
    MappedLoadouts(header, rp.members);
    IntentShows(p.meta, p.members[account].meta, i, at);
  }
}
