/** party/types.go: a party as the client knows it, and the intents it can be asked to carry out. */
module PartyTypes {
  import opened GoStrings
  import opened Json
  import opened MetaCodec

  const READY := "Ready"
  const NOT_READY := "NotReady"

  const CUSTOM_KEY := "Default:CustomMatchKey_s"
  const SQUAD_FILL := "Default:AthenaSquadFill_b"
  const REGION := "Default:RegionId_s"
  const SELECTED_ISLAND := "Default:SelectedIsland_j"
  const LOBBY := "Default:LobbyState_j"
  const MATCHMAKING := "Default:MatchmakingInfo_j"
  const COSMETICS := "Default:AthenaCosmeticLoadout_j"
  const EMOTE := "Default:FrontendEmote_j"
  const MP_LOADOUT := "Default:MpLoadout_j"

  datatype Loadout = Loadout(character: Text, backpack: Text, pickaxe: Text, emote: Text)

  const NO_LOADOUT := Loadout(EMPTY, EMPTY, EMPTY, EMPTY)

  /** Times are instants on an abstract clock; 0 is Go's zero time. */
  datatype Member = Member(
    accountID: string,
    displayName: string,
    role: string,
    ready: string,
    loadout: Loadout,
    joinedAt: int,
    revision: int,
    meta: Meta)

  const ZERO_MEMBER := Member("", "", "", "", NO_LOADOUT, 0, 0, map[])

  datatype Party = Party(
    id: string,
    revision: int,
    captainID: string,
    playlist: Text,
    customKey: Text,
    regionID: Text,
    members: map<string, Member>,
    meta: Meta,
    updatedAt: int)

  const ZERO_PARTY := Party("", 0, "", EMPTY, EMPTY, EMPTY, map[], map[], 0)

  datatype PlaylistRequest = PlaylistRequest(playlistID: string, region: string, teamFill: bool)

  datatype Intent = Intent(
    ready: Option<string>,
    playlist: Option<PlaylistRequest>,
    customKey: Option<string>,
    loadout: Option<Loadout>,
    outfitID: Option<string>,
    emoteID: Option<string>,
    clearEmote: bool)

  /** Reading a Go map of members: a missing account reads as the zero member. */
  function MemberOf(p: Party, accountID: string): Member {
    if accountID in p.members then p.members[accountID] else ZERO_MEMBER
  }
}
