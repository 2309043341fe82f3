/** What the contract promises about each operation: its authorisation gate,
    the order of its error checks, its effect on every map, and its effect on
    the token supply. */
module LedgerProperties {
  import opened Supply
  import opened Ledger

  /** Every account holds a non-negative balance. */
  ghost predicate NonNegative(m: map<Principal, int>)
  {
    forall p :: p in m ==> m[p] >= 0
  }

  // ---------------------------------------------------------------------
  // Supply

  /** Crediting one account raises the supply by exactly the amount. */
  lemma CreditSupply(m: map<Principal, int>, p: Principal, amount: int)
    ensures Total(Credit(m, p, amount)) == Total(m) + amount
  {
    TotalUpdate(m, p, BalanceOf(m, p) + amount);
  }

  /** A move never creates or destroys tokens, whoever the two accounts are. */
  lemma MoveConserves(m: map<Principal, int>, from: Principal, to: Principal, amount: int)
    ensures Total(Move(m, from, to, amount)) == Total(m)
  {
    var debited := m[from := BalanceOf(m, from) - amount];
    TotalUpdate(m, from, BalanceOf(m, from) - amount);
    TotalUpdate(debited, to, BalanceOf(debited, to) + amount);
  }

  // ---------------------------------------------------------------------
  // Owner-only operations

  /** A sender other than the owner gets OwnerOnly from all four owner-only
      operations, and the state stays as it was. */
  lemma OwnerOnlyGate(s: State, amount: int, admin: Principal, recipient: Principal, sender: Principal)
    requires sender != s.owner
    ensures InitializeTokenSupply(s, amount, sender) == Transition(s, Err(OwnerOnly))
    ensures AddGameAdmin(s, admin, sender) == Transition(s, Err(OwnerOnly))
    ensures RemoveGameAdmin(s, admin, sender) == Transition(s, Err(OwnerOnly))
    ensures WithdrawTokens(s, amount, recipient, sender) == Transition(s, Err(OwnerOnly))
  {
  }

  /** The owner's mint adds `amount` to the owner's balance (a missing entry
      counting as 0), whatever its sign, and touches nothing else. */
  lemma MintCreditsOwner(s: State, amount: int)
    ensures var t := InitializeTokenSupply(s, amount, s.owner);
      && t.result == Ok(true)
      && GetTokenBalance(t.next, s.owner).value == GetTokenBalance(s, s.owner).value + amount
      && (forall p :: p != s.owner ==> GetTokenBalance(t.next, p) == GetTokenBalance(s, p))
      && t.next == s.(balances := t.next.balances)
  {
  }

  /** Minting is the one operation that changes the supply, by `amount`. */
  lemma MintSupply(s: State, amount: int, sender: Principal)
    ensures var t := InitializeTokenSupply(s, amount, sender);
      Total(t.next.balances) == Total(s.balances) + (if sender == s.owner then amount else 0)
  {
    CreditSupply(s.balances, s.owner, amount);
  }

  /** Before any mint, every balance and every player's stats read 0. */
  lemma ZeroDefaults(owner: Principal, account: Principal)
    ensures GetTokenBalance(Init(owner), account) == Ok(0)
    ensures GetPlayerStats(Init(owner), account) == Ok(PlayerStats(0))
  {
  }

  /** Adding makes `a` an admin, removing makes it read exactly like an
      account that was never added; other accounts' flags do not move. */
  lemma AdminFlags(s: State, a: Principal)
    ensures var added := AddGameAdmin(s, a, s.owner);
      && added.result == Ok(true)
      && CheckIsAdmin(added.next, a) == Ok(true)
      && (forall q :: q != a ==> CheckIsAdmin(added.next, q) == CheckIsAdmin(s, q))
      && added.next == s.(admins := added.next.admins)
    ensures var removed := RemoveGameAdmin(s, a, s.owner);
      && removed.result == Ok(true)
      && CheckIsAdmin(removed.next, a) == CheckIsAdmin(Init(s.owner), a) == Ok(false)
      && (forall q :: q != a ==> CheckIsAdmin(removed.next, q) == CheckIsAdmin(s, q))
      && removed.next == s.(admins := removed.next.admins)
  {
  }

  /** An admin the owner removes fails the admin-or-owner gate again, so
      every gated operation refuses it; adding an achievement, for one. */
  lemma RemovedAdminLosesAccess(s: State, a: Principal, id: AchievementId, name: string,
                                description: string, rewardAmount: int)
    requires a != s.owner
    ensures var t := RemoveGameAdmin(AddGameAdmin(s, a, s.owner).next, a, s.owner).next;
      && !IsAdminOrOwner(t, a)
      && AddAchievement(t, id, name, description, rewardAmount, a) == Transition(t, Err(Unauthorized))
  {
  }

  // ---------------------------------------------------------------------
  // Achievement registry

  /** AddAchievement checks authorisation first, then existence; an existing
      record is left as it was; otherwise the new record is stored active and
      nothing but that one entry changes. */
  lemma AddAchievementSpec(s: State, id: AchievementId, name: string, description: string,
                           rewardAmount: int, sender: Principal)
    ensures var t := AddAchievement(s, id, name, description, rewardAmount, sender);
      && (!IsAdminOrOwner(s, sender) ==> t == Transition(s, Err(Unauthorized)))
      && (IsAdminOrOwner(s, sender) && id in s.achievements ==>
            t == Transition(s, Err(AchievementExists)) && GetAchievement(t.next, id) == GetAchievement(s, id))
      && (IsAdminOrOwner(s, sender) && id !in s.achievements ==>
            && t.result == Ok(true)
            && GetAchievement(t.next, id) == Ok(Achievement(name, description, rewardAmount, true))
            && (forall j :: j != id ==> GetAchievement(t.next, j) == GetAchievement(s, j))
            && t.next.balances == s.balances && t.next.claims == s.claims
            && t.next.admins == s.admins && t.next.owner == s.owner)
  {
  }

  /** UpdateAchievement checks authorisation, then existence, then replaces
      all four fields with the given ones. */
  lemma UpdateAchievementSpec(s: State, id: AchievementId, name: string, description: string,
                              rewardAmount: int, active: bool, sender: Principal)
    ensures var t := UpdateAchievement(s, id, name, description, rewardAmount, active, sender);
      && (!IsAdminOrOwner(s, sender) ==> t == Transition(s, Err(Unauthorized)))
      && (IsAdminOrOwner(s, sender) && id !in s.achievements ==> t == Transition(s, Err(NotFound)))
      && (IsAdminOrOwner(s, sender) && id in s.achievements ==>
            && t.result == Ok(true)
            && GetAchievement(t.next, id) == Ok(Achievement(name, description, rewardAmount, active))
            && (forall j :: j != id ==> GetAchievement(t.next, j) == GetAchievement(s, j))
            && t.next.balances == s.balances && t.next.claims == s.claims
            && t.next.admins == s.admins && t.next.owner == s.owner)
  {
  }

  // ---------------------------------------------------------------------
  // Awards

  /** The order of the award's checks: Unauthorized, then NotFound (absent or
      inactive), then AlreadyClaimed; each failure leaves the state alone. */
  lemma AwardErrorOrder(s: State, player: Principal, id: AchievementId, sender: Principal)
    ensures var t := AwardAchievement(s, player, id, sender);
      && (t.result.Err? ==> t.next == s)
      && (t.result == Err(Unauthorized) <==> !IsAdminOrOwner(s, sender))
      && (t.result == Err(NotFound) <==>
            IsAdminOrOwner(s, sender) && (id !in s.achievements || !s.achievements[id].active))
      && (t.result == Err(AlreadyClaimed) <==>
            IsAdminOrOwner(s, sender) && id in s.achievements && s.achievements[id].active
            && Claimed(s, player, id))
      && (t.result.Ok? <==>
            IsAdminOrOwner(s, sender) && id in s.achievements && s.achievements[id].active
            && !Claimed(s, player, id))
  {
  }

  /** A successful award marks the pair claimed and pays the reward from the
      owner to the player: the two are debited and credited when distinct,
      and an owner awarding itself ends where it started. */
  lemma AwardPays(s: State, player: Principal, id: AchievementId, sender: Principal)
    requires AwardAchievement(s, player, id, sender).result.Ok?
    ensures var t := AwardAchievement(s, player, id, sender);
      var reward := s.achievements[id].rewardAmount;
      && !Claimed(s, player, id)
      && CheckAchievementClaimed(t.next, player, id) == Ok(true)
      && t.next.claims == s.claims[(player, id) := true]
      && (player != s.owner ==>
            && GetTokenBalance(t.next, s.owner).value == GetTokenBalance(s, s.owner).value - reward
            && GetTokenBalance(t.next, player).value == GetTokenBalance(s, player).value + reward)
      && (player == s.owner ==> GetTokenBalance(t.next, player) == GetTokenBalance(s, player))
      && (forall p :: p != player && p != s.owner ==> GetTokenBalance(t.next, p) == GetTokenBalance(s, p))
      && t.next.achievements == s.achievements && t.next.admins == s.admins && t.next.owner == s.owner
  {
  }

  /** An award never changes the supply. */
  lemma AwardConserves(s: State, player: Principal, id: AchievementId, sender: Principal)
    ensures Total(AwardAchievement(s, player, id, sender).next.balances) == Total(s.balances)
  {
    if AwardAchievement(s, player, id, sender).result.Ok? {
      MoveConserves(s.balances, s.owner, player, s.achievements[id].rewardAmount);
    }
  }

  /** Awarding the same pair again, right after a success, fails with
      AlreadyClaimed and changes nothing, whoever awards the second time. */
  lemma AwardTwice(s: State, player: Principal, id: AchievementId, sender: Principal, sender2: Principal)
    requires AwardAchievement(s, player, id, sender).result.Ok?
    requires IsAdminOrOwner(s, sender2)
    ensures var t := AwardAchievement(s, player, id, sender).next;
      AwardAchievement(t, player, id, sender2) == Transition(t, Err(AlreadyClaimed))
  {
  }

  /** The reward comes out of the owner's balance with no funds check: an
      owner with nothing left still pays, into a negative balance. */
  lemma AwardMayOverdrawOwner(owner: Principal, player: Principal)
    requires player != owner
    ensures var s := AddAchievement(Init(owner), 1, "First Win", "Win your first game", 100, owner).next;
      var t := AwardAchievement(s, player, 1, owner);
      t.result == Ok(true) && GetTokenBalance(t.next, owner) == Ok(-100)
  {
  }

  // ---------------------------------------------------------------------
  // Withdrawal and transfers

  /** Withdrawal checks the owner, then the amount, and moves the amount from
      the owner to the recipient; the supply stays the same. */
  lemma WithdrawSpec(s: State, amount: int, recipient: Principal, sender: Principal)
    ensures var t := WithdrawTokens(s, amount, recipient, sender);
      && Total(t.next.balances) == Total(s.balances)
      && (sender == s.owner && amount <= 0 ==> t == Transition(s, Err(InvalidAmount)))
      && (sender == s.owner && amount > 0 ==>
            && t.result == Ok(true)
            && t.next == s.(balances := t.next.balances)
            && (recipient != s.owner ==>
                  && GetTokenBalance(t.next, s.owner).value == GetTokenBalance(s, s.owner).value - amount
                  && GetTokenBalance(t.next, recipient).value == GetTokenBalance(s, recipient).value + amount)
            && (forall p :: p != recipient && p != s.owner ==> GetTokenBalance(t.next, p) == GetTokenBalance(s, p)))
  {
    if sender == s.owner && amount > 0 {
      MoveConserves(s.balances, s.owner, recipient, amount);
    }
  }

  /** Withdrawal has no funds check: an owner with no balance can withdraw. */
  lemma WithdrawMayOverdraw(owner: Principal, recipient: Principal)
    requires recipient != owner
    ensures var t := WithdrawTokens(Init(owner), 50, recipient, owner);
      t.result == Ok(true) && GetTokenBalance(t.next, owner) == Ok(-50)
  {
  }

  /** The peer transfer rejects a non-positive amount, then an amount above
      the sender's balance (code 1); a success moves the amount from sender
      to recipient. */
  lemma TransferSpec(s: State, amount: int, sender: Principal, recipient: Principal)
    ensures var t := TransferBetweenPlayers(s, amount, sender, recipient);
      && (amount <= 0 ==> t == Transition(s, Err(InvalidAmount)))
      && (amount > 0 && GetTokenBalance(s, sender).value < amount ==>
            t == Transition(s, Err(InsufficientBalance)) && Code(t.result.error) == 1)
      && (amount > 0 && GetTokenBalance(s, sender).value >= amount ==>
            && t.result == Ok(true)
            && t.next == s.(balances := t.next.balances)
            && (sender != recipient ==>
                  && GetTokenBalance(t.next, sender).value == GetTokenBalance(s, sender).value - amount
                  && GetTokenBalance(t.next, recipient).value == GetTokenBalance(s, recipient).value + amount)
            && (sender == recipient ==> t.next.balances[sender] == GetTokenBalance(s, sender).value)
            && (forall p :: p != sender && p != recipient ==> GetTokenBalance(t.next, p) == GetTokenBalance(s, p)))
  {
  }

  /** A peer transfer never changes the supply. */
  lemma TransferConserves(s: State, amount: int, sender: Principal, recipient: Principal)
    ensures Total(TransferBetweenPlayers(s, amount, sender, recipient).next.balances) == Total(s.balances)
  {
    MoveConserves(s.balances, sender, recipient, amount);
  }

  /** A peer transfer never leaves the paying account negative, so it keeps
      every balance non-negative if every balance was. */
  lemma TransferKeepsNonNegative(s: State, amount: int, sender: Principal, recipient: Principal)
    ensures var t := TransferBetweenPlayers(s, amount, sender, recipient);
      t.result.Ok? ==> GetTokenBalance(t.next, sender).value >= 0
    ensures NonNegative(s.balances) ==> NonNegative(TransferBetweenPlayers(s, amount, sender, recipient).next.balances)
  {
    var t := TransferBetweenPlayers(s, amount, sender, recipient);
    if NonNegative(s.balances) && t.result.Ok? {
      forall p | p in t.next.balances
        ensures t.next.balances[p] >= 0
      {
        assert t.next.balances[p] == BalanceOf(t.next.balances, p);
      }
    }
  }

  /** The admin transfer checks admin-or-owner on `admin`, then the amount;
      a success moves the amount from `sender` to `recipient` without
      looking at `sender`'s funds; the supply stays the same. */
  lemma AdminTransferSpec(s: State, amount: int, sender: Principal, recipient: Principal, admin: Principal)
    ensures var t := AdminTransferBetweenPlayers(s, amount, sender, recipient, admin);
      && Total(t.next.balances) == Total(s.balances)
      && (!IsAdminOrOwner(s, admin) ==> t == Transition(s, Err(Unauthorized)))
      && (IsAdminOrOwner(s, admin) && amount <= 0 ==> t == Transition(s, Err(InvalidAmount)))
      && (IsAdminOrOwner(s, admin) && amount > 0 ==>
            && t.result == Ok(true)
            && t.next == s.(balances := t.next.balances)
            && (sender != recipient ==>
                  && GetTokenBalance(t.next, sender).value == GetTokenBalance(s, sender).value - amount
                  && GetTokenBalance(t.next, recipient).value == GetTokenBalance(s, recipient).value + amount)
            && (forall p :: p != sender && p != recipient ==> GetTokenBalance(t.next, p) == GetTokenBalance(s, p)))
  {
    if IsAdminOrOwner(s, admin) && amount > 0 {
      MoveConserves(s.balances, sender, recipient, amount);
    }
  }

  /** The admin transfer can drive a player with no tokens negative. */
  lemma AdminTransferMayOverdraw(owner: Principal, player: Principal, recipient: Principal)
    requires player != recipient
    ensures var t := AdminTransferBetweenPlayers(Init(owner), 50, player, recipient, owner);
      t.result == Ok(true) && GetTokenBalance(t.next, player) == Ok(-50)
  {
  }

  // ---------------------------------------------------------------------
  // The two award wrappers

  /** The first wrapper awards with the player as its own sender, so it
      succeeds only for a player that is the owner or an admin: a plain
      player gets Unauthorized and nothing changes. */
  lemma Player1AwardsAsPlayer(s: State, id: AchievementId, player: Principal)
    ensures AwardAchievementToPlayer1(s, id, player) == AwardAchievement(s, player, id, player)
    ensures !IsAdminOrOwner(s, player) ==>
      AwardAchievementToPlayer1(s, id, player) == Transition(s, Err(Unauthorized))
  {
  }

  /** The second wrapper's extra gate is the one the award already applies,
      so the wrapper behaves exactly as the award. */
  lemma Player2IsAward(s: State, player: Principal, id: AchievementId, sender: Principal)
    ensures AwardAchievementToPlayer2(s, player, id, sender) == AwardAchievement(s, player, id, sender)
  {
  }

  /** The award walk-through on a fresh ledger: make an admin, mint 10000,
      add achievements 1 (worth 100) and 2 (worth 500), let the owner award
      achievement 1 to a player, then try the same award again. */
  lemma AwardWalkthrough(owner: Principal, admin: Principal, player: Principal)
    requires owner != admin && owner != player && admin != player
    ensures var s1 := AddGameAdmin(Init(owner), admin, owner).next;
      var s2 := InitializeTokenSupply(s1, 10000, owner).next;
      var s3 := AddAchievement(s2, 1, "First Win", "Win your first game", 100, owner).next;
      var s4 := AddAchievement(s3, 2, "Champion", "Win 10 games", 500, owner).next;
      var t := AwardAchievement(s4, player, 1, owner);
      && t.result == Ok(true)
      && CheckAchievementClaimed(t.next, player, 1) == Ok(true)
      && GetTokenBalance(t.next, player) == Ok(100)
      && GetTokenBalance(t.next, owner) == Ok(9900)
      && AwardAchievement(t.next, player, 1, owner) == Transition(t.next, Err(AlreadyClaimed))
  {
  }
}
