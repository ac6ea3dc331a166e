/**
 What it is worth that an account that leaves and rejoins goes on counting its revisions, as
 PatchProtocol has it. The service below starts such an account again at 0, and a member patch
 built before the account left can then be accepted.
 */
module Rejoin {
  import opened MetaCodec
  import opened PartyTypes
  import P = PatchProtocol

  function ApplyFresh(s: P.Server, c: P.Change): P.Server {
    match c
    case Join(account, meta, bumps) =>
      if P.Present(s, account) then s
      else s.(revision := P.Bump(s.revision, bumps), members := s.members[account := P.ServerMember(0, meta, true)])
    case _ => P.Apply(s, c)
  }

  function ReplayFresh(s: P.Server, changes: seq<P.Change>): P.Server {
    if changes == [] then s else ApplyFresh(ReplayFresh(s, changes[..|changes| - 1]), changes[|changes| - 1])
  }

  predicate Rejoins(s: P.Server, c: P.Change, account: string) {
    c.Join? && c.account == account && !P.Present(s, account)
  }

  predicate Writes(s: P.Server, c: P.Change, account: string) {
    c.MemberMeta? && c.account == account && P.Present(s, account)
  }

  predicate Rejoined(s: P.Server, changes: seq<P.Change>, account: string) {
    if changes == [] then false
    else
      var init := changes[..|changes| - 1];
      Rejoins(ReplayFresh(s, init), changes[|changes| - 1], account) || Rejoined(s, init, account)
  }

  /** Changes of the member's metadata since the account last joined, or since the beginning. */
  function Written(s: P.Server, changes: seq<P.Change>, account: string): nat {
    if changes == [] then 0
    else
      var init, last := changes[..|changes| - 1], changes[|changes| - 1];
      if Rejoins(ReplayFresh(s, init), last, account) then 0
      else Written(s, init, account) + if Writes(ReplayFresh(s, init), last, account) then 1 else 0
  }

  lemma {:induction false} RevisionCounts(s: P.Server, changes: seq<P.Change>, account: string)
    requires P.Present(s, account)
    ensures var r := ReplayFresh(s, changes);
      && r.id == s.id
      && (P.Present(r, account) ==>
            && r.members[account].revision
               == (if Rejoined(s, changes, account) then 0 else s.members[account].revision)
                   + Written(s, changes, account)
            && (!Rejoined(s, changes, account) && Written(s, changes, account) == 0
                ==> r.members[account] == s.members[account]))
  {
    if changes == [] {
    } else {
      RevisionCounts(s, changes[..|changes| - 1], account);
    }
  }

  /**
   A member patch built from a fetched party is accepted, any changes later, exactly when the
   account is there and either never rejoined and its metadata was not changed, or rejoined and
   was changed since just as often as the old revision says. Only in the second case can the
   patch have been built from other metadata than the service holds.
   */
  lemma AcceptedIff(cfg: P.Config, s: P.Server, changes: seq<P.Change>, c: P.Client)
    requires c.snapshot == P.Fetched(s) && P.Present(s, cfg.account)
    ensures var now, n := ReplayFresh(s, changes), Written(s, changes, cfg.account);
      && (P.MemberVerdict(cfg, now, c) == P.Accept
          <==> && P.Present(now, cfg.account)
               && n == if Rejoined(s, changes, cfg.account) then s.members[cfg.account].revision else 0)
      && (P.MemberVerdict(cfg, now, c) == P.Accept && now.members[cfg.account].meta != s.members[cfg.account].meta
          <==> && P.Present(now, cfg.account) && Rejoined(s, changes, cfg.account)
               && n == s.members[cfg.account].revision
               && now.members[cfg.account].meta != s.members[cfg.account].meta)
  {
    hide ReplayFresh, Written, Rejoined;
    RevisionCounts(s, changes, cfg.account);
  }

  /** Leaving, rejoining with `meta`, and n changes of nothing. */
  function Back(account: string, meta: Meta, n: nat): seq<P.Change> {
    if n == 0 then [P.Leave(account, true)] + [P.Join(account, meta, true)]
    else Back(account, meta, n - 1) + [P.MemberMeta(account, map[], {})]
  }

  /** Whatever the metadata of the member was and is to be, it can come to that. */
  lemma OldPatchAccepted(cfg: P.Config, s: P.Server, meta: Meta, c: P.Client)
    requires c.snapshot == P.Fetched(s) && P.Present(s, cfg.account) && s.members[cfg.account].revision >= 0
    ensures var now := ReplayFresh(s, Back(cfg.account, meta, s.members[cfg.account].revision));
      P.MemberVerdict(cfg, now, c) == P.Accept && now.members[cfg.account].meta == meta
  {
    hide ReplayFresh, Written, Rejoined;
    BackCounts(s, cfg.account, meta, s.members[cfg.account].revision);
    AcceptedIff(cfg, s, Back(cfg.account, meta, s.members[cfg.account].revision), c);
  }

  /** One change more. */
  lemma OneMore(s: P.Server, changes: seq<P.Change>, c: P.Change, account: string)
    ensures var before, longer := ReplayFresh(s, changes), changes + [c];
      && ReplayFresh(s, longer) == ApplyFresh(before, c)
      && Rejoined(s, longer, account) == (Rejoins(before, c, account) || Rejoined(s, changes, account))
      && Written(s, longer, account)
         == if Rejoins(before, c, account) then 0 else Written(s, changes, account) + if Writes(before, c, account)
             then 1 else 0
  {
    hide ApplyFresh, Rejoins, Writes;
    assert (changes + [c])[..|changes|] == changes;
  }

  lemma {:induction false} BackCounts(s: P.Server, account: string, meta: Meta, n: nat)
    requires P.Present(s, account)
    ensures var r := ReplayFresh(s, Back(account, meta, n));
      && P.Present(r, account) && r.members[account].meta == meta
      && Rejoined(s, Back(account, meta, n), account) && Written(s, Back(account, meta, n), account) == n
  {
    hide ReplayFresh, Rejoined, Written;
    if n == 0 {
      OneMore(s, [], P.Leave(account, true), account);
      OneMore(s, [] + [P.Leave(account, true)], P.Join(account, meta, true), account);
      Nothing(s);
      assert [] + [P.Leave(account, true)] == [P.Leave(account, true)];
    } else {
      BackCounts(s, account, meta, n - 1);
      OneMore(s, Back(account, meta, n - 1), P.MemberMeta(account, map[], {}), account);
      assert meta - {} + map[] == meta;
    }
  }

  lemma Nothing(s: P.Server)
    ensures ReplayFresh(s, []) == s
  {
  }

  /** Counting on, the service of PatchProtocol accepts such a patch only when nothing has changed. */
  lemma CountingOnIsSafe(cfg: P.Config, s: P.Server, log: P.Log, c: P.Client)
    requires c.snapshot == P.Fetched(s) && P.Present(s, cfg.account)
    ensures P.MemberVerdict(cfg, P.Replay(s, log), c) == P.Accept
      <==> cfg.account in P.Replay(s, log).members && P.Replay(s, log).members[cfg.account] == s.members[cfg.account]
  {
    hide P.Replay;
    P.Monotone(s, log, cfg.account);
  }
}
