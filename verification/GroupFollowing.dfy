/** Following and its undoing: what die_follower leaves behind, and that its repair branch is dead. */
module GroupFollowing {
  import opened GroupModel
  import opened GroupInvariants
  import opened GroupMembership
  import opened GroupCommands

  /** Leaving a group never changes who follows whom and never puts anyone into a group. */
  ghost predicate OnlyLeaves(s: State, t: State) {
    && SameCast(s, t)
    && (forall c :: c in s.chars ==>
          && t.chars[c].master == s.chars[c].master
          && (t.chars[c].group == s.chars[c].group || t.chars[c].group == NULL))
  }

  lemma DisbandOnlyLeaves(s: State, g: Addr)
    ensures OnlyLeaves(s, Disband(s, g))
  {
    if g in s.groups {
      forall c | c in s.chars
        ensures Disband(s, g).chars[c].master == s.chars[c].master
        ensures Disband(s, g).chars[c].group == s.chars[c].group || Disband(s, g).chars[c].group == NULL
        ensures Disband(s, g).chars[c].npc == s.chars[c].npc && Disband(s, g).chars[c].id == s.chars[c].id
      {
        assert Disband(s, g).chars[c] == DisbandChar(s.groups[g], g, c, s.chars[c]);
      }
    }
  }

  lemma SyncOnlyLeaves(s: State, g: Addr)
    ensures OnlyLeaves(s, Sync(s, g))
  {
  }

  lemma OnlyLeavesTrans(s: State, t: State, u: State)
    requires OnlyLeaves(s, t) && OnlyLeaves(t, u)
    ensures OnlyLeaves(s, u)
  {
  }

  lemma LeavingOnlyLeaves(s: State, ch: Addr)
    requires ch in s.chars && s.chars[ch].group in s.groups
    ensures OnlyLeaves(s, Leaving(s, ch))
  {
  }

  lemma RemoveOnlyLeaves(s: State, ch: Addr)
    ensures OnlyLeaves(s, RemoveMember(s, ch, true))
  {
    if ch in s.chars && s.chars[ch].group in s.groups {
      var g, t, u := s.chars[ch].group, Leaving(s, ch), RemoveMember(s, ch, true);
      assert u == Disband(t, g) || u == Sync(t, g);
      LeavingOnlyLeaves(s, ch);
      DisbandOnlyLeaves(t, g);
      SyncOnlyLeaves(t, g);
      OnlyLeavesTrans(s, t, u);
    }
  }

  /** In a good state nobody's leader pointer is a character without a group. */
  lemma NobodyFollowsLoner(s: State, ch: Addr, c: Addr)
    requires Inv(s) && ch in s.chars && s.chars[ch].group == NULL && c in s.chars
    ensures s.chars[c].leader != ch
  {
    assert CharOk(s, c);
    var g := s.chars[c].group;
    if g != NULL {
      assert Roster(s, g) && Led(s, g) && LegacyOk(s, g);
      assert s.groups[g].leader != ch;
    }
  }

  /** add_follower as the two updates it makes. */
  lemma FollowSteps(s: State, ch: Addr, master: Addr)
    requires Inv(s) && master in s.chars && ch in s.chars && s.chars[ch].master == NULL
    ensures var t := SetChar(s, ch, s.chars[ch].(master := master)); Inv(t) && AddFollower(s, ch, master) == StopGrouped(t, ch)
  {
    assert CharOk(s, ch);
    TouchInv(s, ch, s.chars[ch].(master := master));
  }

  lemma AddFollowerInv(s: State, ch: Addr, master: Addr)
    requires Inv(s) && master in s.chars
    ensures Inv(AddFollower(s, ch, master)) && SameCast(s, AddFollower(s, ch, master))
  {
    if ch in s.chars && s.chars[ch].master == NULL {
      FollowSteps(s, ch, master);
      StopGroupedInv(SetChar(s, ch, s.chars[ch].(master := master)), ch);
    }
  }

  lemma LosePetInv(s: State, master: Addr, ch: Addr)
    requires Inv(s)
    ensures Inv(LosePet(s, master, ch)) && OnlyLeaves(s, LosePet(s, master, ch))
  {
    if master in s.chars && s.chars[master].pet == ch {
      assert CharOk(s, master);
      TouchInv(s, master, s.chars[master].(pet := NULL));
    }
  }

  /** stop_follower up to its call of stop_grouped. */
  function Masterless(s: State, ch: Addr): State
    requires ch in s.chars
  {
    var s1 := LosePet(SetChar(s, ch, s.chars[ch].(charmed := false)), s.chars[ch].master, ch);
    SetChar(s1, ch, s1.chars[ch].(master := NULL))
  }

  lemma UncharmInv(s: State, ch: Addr)
    requires Inv(s) && ch in s.chars
    ensures Inv(SetChar(s, ch, s.chars[ch].(charmed := false)))
    ensures OnlyLeaves(s, SetChar(s, ch, s.chars[ch].(charmed := false)))
  {
    assert CharOk(s, ch);
    TouchInv(s, ch, s.chars[ch].(charmed := false));
  }

  lemma UnfollowInv(s: State, ch: Addr)
    requires Inv(s) && ch in s.chars
    ensures Inv(SetChar(s, ch, s.chars[ch].(master := NULL)))
    ensures SameCast(s, SetChar(s, ch, s.chars[ch].(master := NULL)))
  {
    assert CharOk(s, ch);
    TouchInv(s, ch, s.chars[ch].(master := NULL));
  }

  lemma MasterlessFrame(s: State, ch: Addr)
    requires ch in s.chars
    ensures SameCast(s, Masterless(s, ch)) && Masterless(s, ch).chars[ch].master == NULL
    ensures forall c :: c in s.chars ==> Masterless(s, ch).chars[c].group == s.chars[c].group
    ensures forall c :: c in s.chars && c != ch ==> Masterless(s, ch).chars[c].master == s.chars[c].master
  {
  }

  lemma MasterlessInv(s: State, ch: Addr)
    requires Inv(s) && ch in s.chars
    ensures Inv(Masterless(s, ch))
  {
    var s0 := SetChar(s, ch, s.chars[ch].(charmed := false));
    UncharmInv(s, ch);
    LosePetInv(s0, s.chars[ch].master, ch);
    UnfollowInv(LosePet(s0, s.chars[ch].master, ch), ch);
  }

  lemma StopFollowerInv(s: State, ch: Addr)
    requires Inv(s)
    ensures Inv(StopFollower(s, ch)) && SameCast(s, StopFollower(s, ch))
    ensures ch in s.chars ==> StopFollower(s, ch).chars[ch].master == NULL
    ensures ch in s.chars && s.chars[ch].master != NULL ==> StopFollower(s, ch).chars[ch].group == NULL
    ensures forall c :: c in s.chars && c != ch ==> StopFollower(s, ch).chars[c].master == s.chars[c].master
    ensures forall c :: c in s.chars && s.chars[c].group == NULL ==> StopFollower(s, ch).chars[c].group == NULL
  {
    if ch in s.chars && s.chars[ch].master != NULL {
      MasterlessInv(s, ch);
      MasterlessFrame(s, ch);
      StopGroupedInv(Masterless(s, ch), ch);
      RemoveOnlyLeaves(Masterless(s, ch), ch);
    }
  }

  lemma DetachSelfInv(s: State, ch: Addr)
    requires Inv(s) && ch in s.chars
    ensures Inv(DetachSelf(s, ch)) && SameCast(s, DetachSelf(s, ch))
    ensures DetachSelf(s, ch).chars[ch].master == NULL && DetachSelf(s, ch).chars[ch].group == NULL
  {
    var master := s.chars[ch].master;
    assert CharOk(s, ch);
    if master != NULL {
      assert CharOk(s, master);
      var s0 := SetChar(s, master, s.chars[master].(pet := NULL));
      TouchInv(s, master, s.chars[master].(pet := NULL));
      StopFollowerInv(s0, ch);
      StopGroupedInv(StopFollower(s0, ch), ch);
      RemoveOnlyLeaves(StopFollower(s0, ch), ch);
    } else {
      StopGroupedInv(s, ch);
      RemoveOnlyLeaves(s, ch);
    }
  }

  /** ch follows nobody and is in no group. */
  ghost predicate Alone(s: State, ch: Addr) {
    ch in s.chars && s.chars[ch].master == NULL && s.chars[ch].group == NULL
  }

  /** One pass of the loop frees fch, keeps ch alone, and its repair branch is not taken. */
  lemma ReleaseFollowerInv(s: State, fch: Addr, ch: Addr)
    requires Inv(s) && Alone(s, ch)
    ensures var t := ReleaseFollower(s, fch, ch);
      && Inv(t) && SameCast(s, t) && Alone(t, ch)
      && (fch in t.chars ==> t.chars[fch].master != ch && t.chars[fch].leader != ch)
      && (forall c :: c in s.chars && c != fch ==> t.chars[c].master == s.chars[c].master)
      && t == (if fch in s.chars && s.chars[fch].master == ch then StopFollower(s, fch) else s)
  {
    if fch in s.chars {
      var s1 := if s.chars[fch].master == ch then StopFollower(s, fch) else s;
      StopFollowerInv(s, fch);
      NobodyFollowsLoner(s1, ch, fch);
    }
  }

  lemma {:induction false} ReleaseFollowersInv(s: State, list: seq<Addr>, ch: Addr)
    requires Inv(s) && Alone(s, ch)
    ensures var t := ReleaseFollowers(s, list, ch);
      && Inv(t) && SameCast(s, t) && Alone(t, ch)
      && (forall c :: c in list && c in t.chars ==> t.chars[c].master != ch)
      && (forall c :: c in t.chars && s.chars[c].master != ch ==> t.chars[c].master != ch)
  {
    if list == [] {
    } else {
      var init, last := list[..|list| - 1], list[|list| - 1];
      assert list == init + [last];
      ReleaseFollowersInv(s, init, ch);
      ReleaseFollowerInv(ReleaseFollowers(s, init, ch), last, ch);
    }
  }

  /**
   After die_follower(ch): nobody live has ch as master or leader, ch has neither master nor group,
   and the group invariant still holds.
   */
  lemma DieFollowerFrees(s: State, ch: Addr)
    requires Inv(s) && ch in s.chars
    ensures var t := DieFollower(s, ch);
      && Inv(t) && SameCast(s, t)
      && Alone(t, ch) && t.chars[ch].leader == NULL
      && (forall c :: c in t.chars ==> t.chars[c].master != ch && t.chars[c].leader != ch)
  {
    var s1 := DetachSelf(s, ch);
    DetachSelfInv(s, ch);
    ReleaseFollowersInv(s1, s1.loadedChars, ch);
    var t := DieFollower(s, ch);
    assert CharOk(t, ch);
    forall c | c in t.chars
      ensures t.chars[c].master != ch && t.chars[c].leader != ch
    {
      assert c in s1.loadedChars;
      NobodyFollowsLoner(t, ch, c);
    }
  }
}
