/** The contract object: its state lives in mutable maps that each public
    operation checks and then updates in place, in the contract's own order.
    Every method is specified by the matching transition of module Ledger. */
module Engine {
  import opened Ledger

  class LedgerEngine {
    /** Fixed at deployment; no operation assigns it. */
    const owner: Principal
    var balances: map<Principal, int>
    var achievements: map<AchievementId, Achievement>
    var claims: map<ClaimKey, bool>
    var admins: map<Principal, bool>

    /** The abstract value of the object. */
    function Snapshot(): State
      reads this
    {
      State(owner, balances, achievements, claims, admins)
    }

    constructor (owner: Principal)
      ensures Snapshot() == Init(owner)
    {
      this.owner := owner;
      balances, achievements, claims, admins := map[], map[], map[], map[];
    }

    /** The admin-or-owner gate, read from the fields. */
    method Authorized(p: Principal) returns (b: bool)
      ensures b == IsAdminOrOwner(Snapshot(), p)
    {
      b := p == owner || (p in admins && admins[p]);
    }

    method InitializeTokenSupply(amount: int, sender: Principal) returns (r: Result<bool>)
      modifies this
      ensures Transition(Snapshot(), r) == Ledger.InitializeTokenSupply(old(Snapshot()), amount, sender)
    {
      if sender != owner {
        return Err(OwnerOnly);
      }
      balances := balances[owner := (if owner in balances then balances[owner] else 0) + amount];
      return Ok(true);
    }

    method AddGameAdmin(admin: Principal, sender: Principal) returns (r: Result<bool>)
      modifies this
      ensures Transition(Snapshot(), r) == Ledger.AddGameAdmin(old(Snapshot()), admin, sender)
    {
      if sender != owner {
        return Err(OwnerOnly);
      }
      admins := admins[admin := true];
      return Ok(true);
    }

    method RemoveGameAdmin(admin: Principal, sender: Principal) returns (r: Result<bool>)
      modifies this
      ensures Transition(Snapshot(), r) == Ledger.RemoveGameAdmin(old(Snapshot()), admin, sender)
    {
      if sender != owner {
        return Err(OwnerOnly);
      }
      admins := admins[admin := false];
      return Ok(true);
    }

    method AddAchievement(id: AchievementId, name: string, description: string, rewardAmount: int,
                          sender: Principal) returns (r: Result<bool>)
      modifies this
      ensures Transition(Snapshot(), r) == Ledger.AddAchievement(old(Snapshot()), id, name, description, rewardAmount, sender)
    {
      var ok := Authorized(sender);
      if !ok {
        return Err(Unauthorized);
      }
      if id in achievements {
        return Err(AchievementExists);
      }
      achievements := achievements[id := Achievement(name, description, rewardAmount, true)];
      return Ok(true);
    }

    method UpdateAchievement(id: AchievementId, name: string, description: string, rewardAmount: int,
                             active: bool, sender: Principal) returns (r: Result<bool>)
      modifies this
      ensures Transition(Snapshot(), r) == Ledger.UpdateAchievement(old(Snapshot()), id, name, description, rewardAmount, active, sender)
    {
      var ok := Authorized(sender);
      if !ok {
        return Err(Unauthorized);
      }
      if id !in achievements {
        return Err(NotFound);
      }
      achievements := achievements[id := Achievement(name, description, rewardAmount, active)];
      return Ok(true);
    }

    method AwardAchievement(player: Principal, id: AchievementId, sender: Principal) returns (r: Result<bool>)
      modifies this
      ensures Transition(Snapshot(), r) == Ledger.AwardAchievement(old(Snapshot()), player, id, sender)
    {
      var ok := Authorized(sender);
      if !ok {
        return Err(Unauthorized);
      }
      if id !in achievements || !achievements[id].active {
        return Err(NotFound);
      }
      var achievement := achievements[id];
      var key := (player, id);
      if key in claims && claims[key] {
        return Err(AlreadyClaimed);
      }
      claims := claims[key := true];
      // the owner is debited first; the player's credit reads the map the debit wrote
      balances := balances[owner := (if owner in balances then balances[owner] else 0) - achievement.rewardAmount];
      balances := balances[player := (if player in balances then balances[player] else 0) + achievement.rewardAmount];
      return Ok(true);
    }

    method WithdrawTokens(amount: int, recipient: Principal, sender: Principal) returns (r: Result<bool>)
      modifies this
      ensures Transition(Snapshot(), r) == Ledger.WithdrawTokens(old(Snapshot()), amount, recipient, sender)
    {
      if sender != owner {
        return Err(OwnerOnly);
      }
      if amount <= 0 {
        return Err(InvalidAmount);
      }
      balances := balances[owner := (if owner in balances then balances[owner] else 0) - amount];
      balances := balances[recipient := (if recipient in balances then balances[recipient] else 0) + amount];
      return Ok(true);
    }

    method TransferBetweenPlayers(amount: int, sender: Principal, recipient: Principal) returns (r: Result<bool>)
      modifies this
      ensures Transition(Snapshot(), r) == Ledger.TransferBetweenPlayers(old(Snapshot()), amount, sender, recipient)
    {
      if amount <= 0 {
        return Err(InvalidAmount);
      }
      if (if sender in balances then balances[sender] else 0) < amount {
        return Err(InsufficientBalance);
      }
      balances := balances[sender := (if sender in balances then balances[sender] else 0) - amount];
      balances := balances[recipient := (if recipient in balances then balances[recipient] else 0) + amount];
      return Ok(true);
    }

    method AdminTransferBetweenPlayers(amount: int, sender: Principal, recipient: Principal,
                                       admin: Principal) returns (r: Result<bool>)
      modifies this
      ensures Transition(Snapshot(), r) == Ledger.AdminTransferBetweenPlayers(old(Snapshot()), amount, sender, recipient, admin)
    {
      var ok := Authorized(admin);
      if !ok {
        return Err(Unauthorized);
      }
      if amount <= 0 {
        return Err(InvalidAmount);
      }
      balances := balances[sender := (if sender in balances then balances[sender] else 0) - amount];
      balances := balances[recipient := (if recipient in balances then balances[recipient] else 0) + amount];
      return Ok(true);
    }

    method AwardAchievementToPlayer1(id: AchievementId, player: Principal) returns (r: Result<bool>)
      modifies this
      ensures Transition(Snapshot(), r) == Ledger.AwardAchievementToPlayer1(old(Snapshot()), id, player)
    {
      r := AwardAchievement(player, id, player);
    }

    method AwardAchievementToPlayer2(player: Principal, id: AchievementId, sender: Principal) returns (r: Result<bool>)
      modifies this
      ensures Transition(Snapshot(), r) == Ledger.AwardAchievementToPlayer2(old(Snapshot()), player, id, sender)
    {
      var ok := Authorized(sender);
      if !ok {
        return Err(Unauthorized);
      }
      r := AwardAchievement(player, id, sender);
    }

    /** Read-only queries: the contract's getters, on the current state. */
    function GetTokenBalance(account: Principal): (r: Result<int>)
      reads this
      ensures r == Ledger.GetTokenBalance(Snapshot(), account)
    {
      Ok(if account in balances then balances[account] else 0)
    }

    function GetAchievement(id: AchievementId): (r: Result<Achievement>)
      reads this
      ensures r == Ledger.GetAchievement(Snapshot(), id)
    {
      if id in achievements then Ok(achievements[id]) else Err(NotFound)
    }

    function CheckAchievementClaimed(player: Principal, id: AchievementId): (r: Result<bool>)
      reads this
      ensures r == Ledger.CheckAchievementClaimed(Snapshot(), player, id)
    {
      var key := (player, id);
      if key in claims then Ok(claims[key]) else Ok(false)
    }

    function CheckIsAdmin(account: Principal): (r: Result<bool>)
      reads this
      ensures r == Ledger.CheckIsAdmin(Snapshot(), account)
    {
      Ok(account in admins && admins[account])
    }

    function GetPlayerStats(player: Principal): (r: Result<PlayerStats>)
      reads this
      ensures r == Ledger.GetPlayerStats(Snapshot(), player)
    {
      Ok(PlayerStats(if player in balances then balances[player] else 0))
    }
  }
}
